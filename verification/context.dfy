/** The sequential state of `Context`: the camera and its controller and
    uniform, the light, the instance grid, the current frame and the two
    bounded histories. The GPU objects the source keeps beside them (surface,
    device, queue, pipelines, buffers, bind groups, depth texture, model)
    are not part of this model. */
module Contexts {
  import opened Optional
  import opened Algebra
  import opened Events
  import opened Frames
  import opened FrameHistory
  import opened Cameras
  import opened Uniforms
  import opened Controller
  import opened Lights
  import opened Instances

  const NumInstancesPerRow: nat := 10
  const SpaceBetweenModels: real := 3.0
  const CameraRotationPerSecond: real := 30.0

  /** The light's initial position and colour. */
  const LightPositionInitial: Vec3 := Vec3(2.0, 2.0, 2.0)
  const LightColorInitial: Vec3 := Vec3(1.0, 1.0, 1.0)

  /** How far the initial camera is moved from the default: back 4 units and
      up 2. */
  const CameraOffsetInitial: Vec3 := Vec3(0.0, 2.0, 4.0)

  datatype Context = Context(
    size: PhysicalSize,
    /** The surface configuration's width and height. */
    config: PhysicalSize,
    camera: Camera,
    cameraUniform: CameraUniform,
    controller: CameraController,
    lightUniform: LightUniform,
    instances: seq<Instance>,
    instanceData: seq<InstanceRaw>,
    frameBuffer: seq<Frame>,
    frameCurrent: Frame,
    frameRateBuffer: seq<Option<real>>)

  /** Where the instance in column `x` of row `z` stands: spaced 3 apart
      and shifted by half the row length. */
  function Position(x: nat, z: nat): Vec3
  {
    Vec3(SpaceBetweenModels * (x as real - NumInstancesPerRow as real / 2.0), 0.0,
         SpaceBetweenModels * (z as real - NumInstancesPerRow as real / 2.0))
  }

  /** The instance standing at `position`: unrotated at the origin, and
      otherwise turned 45 degrees about the direction of its own position. */
  function Place(u: Uninterpreted, position: Vec3): Instance
    requires Lawful(u)
  {
    var rotation := if position == Zero3 then FromAxisAngle(u, UnitZ, 0.0)
                    else FromAxisAngle(u, Normalize(u, position), 45.0);
    Instances.New(position, rotation)
  }

  /** The positions of row `z`, column by column. */
  function Row(z: nat): (r: seq<Vec3>)
    ensures |r| == NumInstancesPerRow
  {
    seq(NumInstancesPerRow, x requires 0 <= x => Position(x, z))
  }

  /** The positions of rows `z` to the last, concatenated: the outer
      `flat_map` over z. */
  function RowsFrom(z: nat): seq<Vec3>
    decreases NumInstancesPerRow - z
  {
    if z >= NumInstancesPerRow then [] else Row(z) + RowsFrom(z + 1)
  }

  /** The instance grid built in `Context::new`: every position of the
      rows, placed. */
  function Grid(u: Uninterpreted): seq<Instance>
    requires Lawful(u)
  {
    var positions := RowsFrom(0);
    seq(|positions|, k requires 0 <= k < |positions| => Place(u, positions[k]))
  }

  /** The rows from `z` on hold 10 positions for each row. */
  lemma {:induction false} RowsFromLength(z: nat)
    requires z <= 10
    ensures |RowsFrom(z)| == 10 * (10 - z)
    decreases 10 - z
  {
    if z < 10 {
      RowsFromLength(z + 1);
    }
  }

  /** Column x of row r sits at index 10 (r - z) + x of the rows from `z`
      on. */
  lemma {:induction false} RowsFromIndex(z: nat, r: nat, x: nat)
    requires z <= r < 10 && x < 10
    ensures |RowsFrom(z)| == 10 * (10 - z)
    ensures RowsFrom(z)[10 * (r - z) + x] == Position(x, r)
    decreases r - z
  {
    RowsFromLength(z + 1);
    if r > z {
      RowsFromIndex(z + 1, r, x);
      assert 10 * (r - z) + x == 10 + (10 * (r - (z + 1)) + x);
    }
  }

  /** The grid holds 100 instances. */
  lemma GridSize(u: Uninterpreted)
    requires Lawful(u)
    ensures |Grid(u)| == 100
  {
    RowsFromLength(0);
  }

  /** Instance 10 r + x of the grid is the one placed at column x of row
      r. */
  lemma GridIndex(u: Uninterpreted, r: nat, x: nat)
    requires Lawful(u) && r < 10 && x < 10
    ensures |Grid(u)| == 100
    ensures Grid(u)[10 * r + x] == Place(u, Position(x, r))
  {
    RowsFromIndex(0, r, x);
    var positions := RowsFrom(0);
    assert positions[10 * r + x] == Position(x, r);
  }

  /** Instance 10 r + x of the grid sits at (3 (x - 5), 0, 3 (r - 5)); the
      one at the origin, number 55, has the zero-angle rotation, and every
      other one is turned 45 degrees about its own position's direction. */
  lemma GridCell(u: Uninterpreted, r: nat, x: nat)
    requires Lawful(u) && r < 10 && x < 10
    ensures |Grid(u)| == 100
    ensures Grid(u)[10 * r + x].position == Vec3(3.0 * (x as real - 5.0), 0.0, 3.0 * (r as real - 5.0))
    ensures Grid(u)[10 * r + x].position == Zero3 <==> r == 5 && x == 5
    ensures r == 5 && x == 5 ==> Grid(u)[10 * r + x].rotation == IdentityQuat
    ensures !(r == 5 && x == 5) ==>
              Grid(u)[10 * r + x].rotation == FromAxisAngle(u, Normalize(u, Grid(u)[10 * r + x].position), 45.0)
  {
    GridIndex(u, r, x);
  }

  /** All instances at once: exactly one, number 55, sits at the origin. */
  lemma GridOrigin(u: Uninterpreted)
    requires Lawful(u)
    ensures |Grid(u)| == 100
    ensures forall k :: 0 <= k < 100 ==> (Grid(u)[k].position == Zero3 <==> k == 55)
    ensures Grid(u)[55].rotation == IdentityQuat
  {
    GridSize(u);
    forall k | 0 <= k < 100
      ensures Grid(u)[k].position == Zero3 <==> k == 55
    {
      var r, x := k / 10, k % 10;
      assert k == 10 * r + x;
      GridCell(u, r, x);
    }
    GridCell(u, 5, 5);
  }

  /** The raw record of every instance, in order. */
  function InstanceData(instances: seq<Instance>): (r: seq<InstanceRaw>)
    ensures |r| == |instances|
    ensures forall i :: 0 <= i < |r| ==> r[i] == FromInstance(instances[i])
  {
    seq(|instances|, i requires 0 <= i < |instances| => FromInstance(instances[i]))
  }

  /** The context's bookkeeping invariant: both histories within 128 entries
      and equally long, the surface configured to the window size, the light
      padding zero and the camera usable. */
  predicate Valid(ctx: Context)
  {
    && |ctx.frameBuffer| <= FrameBufferLength
    && |ctx.frameRateBuffer| <= FrameRateBufferLength
    && |ctx.frameBuffer| == |ctx.frameRateBuffer|
    && ctx.config == ctx.size
    && Padded(ctx.lightUniform)
    && Cameras.Valid(ctx.camera)
  }

  /** A context whose frame loop is running: valid, the current frame
      started, and every frame in the history complete. */
  predicate Running(ctx: Context)
  {
    && Valid(ctx)
    && !ctx.frameCurrent.startTime.isEmpty
    && forall i :: 0 <= i < |ctx.frameBuffer| ==> Complete(ctx.frameBuffer[i])
  }

  /** The camera a new context starts with: the default camera moved back 4
      units and up 2. */
  function InitialCamera(): (c: Camera)
    ensures Cameras.Valid(c)
    ensures c.eye == Vec3(0.0, 3.0, 6.0) && c.target == Zero3 && c.up == UnitY
    ensures c.aspect == 16.0 / 9.0
  {
    Translate(Cameras.Default(), CameraOffsetInitial)
  }

  /** The sequential part of `Context::new` for a window of `size`, with the
      clock at `clock`. */
  function New(size: PhysicalSize, clock: real, u: Uninterpreted): (ctx: Context)
    requires Lawful(u)
    ensures Valid(ctx)
    ensures ctx.frameBuffer == [] && ctx.frameRateBuffer == []
    ensures ctx.frameCurrent.startTime.isEmpty && ctx.frameCurrent.endTime.isEmpty
    ensures ctx.size == size && ctx.config == size
  {
    var camera := InitialCamera();
    var instances := Grid(u);
    Context(size, size, camera, FromCamera(camera, u), Controller.Default(),
            Lights.New(LightPositionInitial, LightColorInitial),
            instances, InstanceData(instances), [], Frames.Empty(clock), [])
  }

  /** The scene a new context starts with: the moved default camera and
      its uniform, an idle controller at 30 units per second, the light at
      (2, 2, 2) in white, and the 100-instance grid with one raw record per
      instance. */
  lemma NewScene(size: PhysicalSize, clock: real, u: Uninterpreted)
    requires Lawful(u)
    ensures var ctx := New(size, clock, u);
            && ctx.camera == InitialCamera()
            && ctx.camera.eye == Vec3(0.0, 3.0, 6.0) && ctx.camera.target == Zero3
            && ctx.camera.aspect == 16.0 / 9.0
            && ctx.cameraUniform == FromCamera(ctx.camera, u)
            && ctx.controller.speed == 30.0 && Idle(ctx.controller)
            && ctx.lightUniform.position == LightPositionInitial && ctx.lightUniform.color == LightColorInitial
            && |ctx.instances| == 100 && ctx.instances == Grid(u)
            && ctx.instanceData == InstanceData(ctx.instances)
  {
    GridSize(u);
  }

  /** `Context::init`: begins the current frame. */
  function Init(ctx: Context, clock: real): (r: Context)
    ensures r == ctx.(frameCurrent := r.frameCurrent)
    ensures r.frameCurrent == Begin(ctx.frameCurrent, clock)
    ensures Valid(ctx) && (forall i :: 0 <= i < |ctx.frameBuffer| ==> Complete(ctx.frameBuffer[i])) ==> Running(r)
  {
    ctx.(frameCurrent := Begin(ctx.frameCurrent, clock))
  }

  /** A new context, once initialised, is running. */
  lemma StartIsRunning(size: PhysicalSize, clock: real, clock': real, u: Uninterpreted)
    requires Lawful(u)
    ensures Running(Init(New(size, clock, u), clock'))
  {
  }

  /** `Context::resize`: a size of at most 1 pixel in either direction is
      ignored; otherwise the window size, the surface configuration and the
      camera's aspect ratio follow it. */
  function Resize(ctx: Context, newSize: PhysicalSize): (r: Context)
    ensures newSize.width <= 1 || newSize.height <= 1 ==> r == ctx
    ensures newSize.width > 1 && newSize.height > 1 ==>
              && r == ctx.(size := newSize, config := newSize, camera := r.camera)
              && r.camera == ctx.camera.(aspect := r.camera.aspect)
              && r.camera.aspect * newSize.height as real == newSize.width as real
    ensures Valid(ctx) ==> Valid(r)
    ensures Running(ctx) ==> Running(r)
  {
    if newSize.width > 1 && newSize.height > 1 then
      var config := PhysicalSize(newSize.width, newSize.height);
      ctx.(size := newSize, config := config,
           camera := SetAspect(ctx.camera, config.width as real, config.height as real))
    else
      ctx
  }

  /** Resizing to the current size keeps the size. */
  lemma ResizeToSameSize(ctx: Context)
    ensures Resize(ctx, ctx.size).size == ctx.size
    ensures Resize(ctx, ctx.size).config == (if ctx.size.width > 1 && ctx.size.height > 1 then ctx.size else ctx.config)
  {
  }

  /** `Context::input`: the controller sees the event first and, if it
      takes it, nothing else happens. A cursor move then recolours the light
      from the cursor's position relative to the window; every other event is
      reported as not handled. */
  function Input(ctx: Context, e: WindowEvent): (r: (Context, bool))
    requires e.CursorMoved? ==> ctx.size.width > 0 && ctx.size.height > 0
    ensures var (c, consumed) := ProcessEvents(ctx.controller, e);
            && r.0.controller == c
            && (consumed ==> r == (ctx.(controller := c), true))
            && (!consumed && !e.CursorMoved? ==> r == (ctx, false))
    ensures e.CursorMoved? ==>
              && r.1
              && r.0 == ctx.(lightUniform := r.0.lightUniform)
              && r.0.lightUniform == ctx.lightUniform.(color := r.0.lightUniform.color)
              && r.0.lightUniform.color.x * ctx.size.width as real == e.x
              && r.0.lightUniform.color.y * ctx.size.height as real == e.y
              && r.0.lightUniform.color.z == 0.5
    ensures r.1 <==> IsKey(e, W) || IsKey(e, A) || IsKey(e, S) || IsKey(e, D) || e.CursorMoved?
    ensures r.0.lightUniform != ctx.lightUniform ==> e.CursorMoved?
    ensures Valid(ctx) ==> Valid(r.0)
    ensures Running(ctx) ==> Running(r.0)
  {
    var (c, consumed) := ProcessEvents(ctx.controller, e);
    var ctx' := ctx.(controller := c);
    if consumed then (ctx', true)
    else
      match e
      case CursorMoved(px, py) =>
        var x := px / ctx.size.width as real;
        var y := py / ctx.size.height as real;
        (ctx'.(lightUniform := SetColor(ctx.lightUniform, Vec3(x, y, 0.5))), true)
      case _ => (ctx', false)
  }

  /** The light after one tick: turned about the y axis by 30 degrees per
      second of the last frame's delta time. */
  function RotateLight(light: LightUniform, dt: real, u: Uninterpreted): (r: LightUniform)
    requires Lawful(u)
    ensures r == light.(position := r.position)
    ensures r.position.y == light.position.y
    ensures dt == 0.0 ==> r == light
  {
    var q := FromAxisAngle(u, UnitY, CameraRotationPerSecond * dt);
    AboutY(u, CameraRotationPerSecond * dt);
    RotateKeepsHeight(q, light.position);
    assert dt == 0.0 ==> Rotate(q, light.position) == light.position by {
      RotateIdentity(light.position);
    }
    SetPositionInto(light, Rotate(q, light.position))
  }

  /** A rotation about the y axis has no x or z in its vector part. */
  lemma AboutY(u: Uninterpreted, angle: real)
    requires Lawful(u)
    ensures FromAxisAngle(u, UnitY, angle).v.x == 0.0 && FromAxisAngle(u, UnitY, angle).v.z == 0.0
  {
    var k := u.sinDeg(angle / 2.0);
    assert Scale(k, UnitY) == Vec3(0.0, k, 0.0);
  }

  /** A rotation about the y axis keeps the height. */
  lemma RotateKeepsHeight(q: Quat, v: Vec3)
    requires q.v.x == 0.0 && q.v.z == 0.0
    ensures Rotate(q, v).y == v.y
  {
    var tmp := Add(Cross(q.v, v), Scale(q.s, v));
    assert Cross(q.v, tmp).y == 0.0;
  }

  /** The identity rotation keeps every vector. */
  lemma RotateIdentity(v: Vec3)
    ensures Rotate(IdentityQuat, v) == v
  {
    assert Cross(Zero3, v) == Zero3;
    assert Cross(Zero3, Scale(1.0, v)) == Zero3;
  }

  /** `Context::update`: the camera moves by its controller using the last
      completed frame's delta time, the camera uniform is rebuilt from the
      moved camera, and the light turns about the y axis. The source
      unwraps the newest frame of the history, so the history must not be
      empty. */
  function Update(ctx: Context, clock: real, u: Uninterpreted): (r: Context)
    requires Lawful(u)
    requires |ctx.frameBuffer| > 0
    ensures var last := ctx.frameBuffer[|ctx.frameBuffer| - 1];
            && r.camera == UpdateCamera(ctx.controller, ctx.camera, last, clock, u)
            && r.lightUniform == RotateLight(ctx.lightUniform, DeltaTime(last, clock), u)
    ensures r == ctx.(camera := r.camera, cameraUniform := r.cameraUniform, lightUniform := r.lightUniform)
    ensures Valid(ctx) ==> Valid(r)
    ensures Running(ctx) ==> Running(r)
  {
    var last := ctx.frameBuffer[|ctx.frameBuffer| - 1];
    var camera := UpdateCamera(ctx.controller, ctx.camera, last, clock, u);
    var cameraUniform := UpdateViewProjection(ctx.cameraUniform, camera, u);
    var dt := DeltaTime(last, clock);
    ctx.(camera := camera, cameraUniform := cameraUniform,
         lightUniform := RotateLight(ctx.lightUniform, dt, u))
  }

  /** The camera uniform an update leaves is the one built afresh from the
      moved camera. */
  lemma UpdateRebuildsCameraUniform(ctx: Context, clock: real, u: Uninterpreted)
    requires Lawful(u)
    requires |ctx.frameBuffer| > 0
    ensures Update(ctx, clock, u).cameraUniform == FromCamera(Update(ctx, clock, u).camera, u)
  {
    var camera := Update(ctx, clock, u).camera;
    UpdateOverwrites(ctx.cameraUniform, ctx.cameraUniform, camera, u);
  }

  /** The uniform the program stores after an update is the model's
      uniform with the depth correction applied once more: the program
      builds it with the as-written update (see `Uniforms`). */
  lemma UpdateStoresCorrectedAgain(ctx: Context, clock: real, u: Uninterpreted)
    requires Lawful(u)
    requires |ctx.frameBuffer| > 0
    ensures var r := Update(ctx, clock, u);
            UpdateViewProjectionAsWritten(ctx.cameraUniform, r.camera, u)
            == CameraUniform(r.cameraUniform.viewPosition, Mul4(OpenGlToWgpu, r.cameraUniform.viewProjection))
  {
    var r := Update(ctx, clock, u);
    AsWrittenCorrectsTwice(ctx.cameraUniform, r.camera, u);
  }

  /** With no key held an update leaves the camera where it is; the light
      stays put too when the newest frame's delta time is zero. */
  lemma IdleUpdateKeepsScene(ctx: Context, clock: real, u: Uninterpreted)
    requires Lawful(u)
    requires |ctx.frameBuffer| > 0 && Idle(ctx.controller)
    ensures Update(ctx, clock, u).camera == ctx.camera
    ensures DeltaTime(ctx.frameBuffer[|ctx.frameBuffer| - 1], clock) == 0.0 ==> Update(ctx, clock, u).lightUniform == ctx.lightUniform
  {
  }

  /** `Context::finalize`, all clock reads at `clock`: the current frame is
      ended and pushed onto the frame history, a new frame is started, and
      the frame rate of the updated history is pushed onto the rate
      history; each history drops its oldest entry when it grows past 128. */
  function Finalize(ctx: Context, clock: real): (r: Context)
    ensures 0 < |r.frameBuffer| <= |ctx.frameBuffer| + 1 && 0 < |r.frameRateBuffer| <= |ctx.frameRateBuffer| + 1
    ensures var ended := End(ctx.frameCurrent, clock);
            && r.frameBuffer[|r.frameBuffer| - 1] == ended
            && r.frameBuffer == (ctx.frameBuffer + [ended])[|ctx.frameBuffer| + 1 - |r.frameBuffer|..]
    ensures |ctx.frameBuffer| <= FrameBufferLength ==> |r.frameBuffer| == Min(|ctx.frameBuffer| + 1, FrameBufferLength)
    ensures |ctx.frameRateBuffer| <= FrameRateBufferLength ==> |r.frameRateBuffer| == Min(|ctx.frameRateBuffer| + 1, FrameRateBufferLength)
    ensures r.frameRateBuffer[|r.frameRateBuffer| - 1] == FrameRate(r.frameBuffer, clock)
    ensures r.frameRateBuffer == (ctx.frameRateBuffer + [FrameRate(r.frameBuffer, clock)])[|ctx.frameRateBuffer| + 1 - |r.frameRateBuffer|..]
    ensures r.frameCurrent == Frames.New(clock)
    ensures r == ctx.(frameBuffer := r.frameBuffer, frameCurrent := r.frameCurrent, frameRateBuffer := r.frameRateBuffer)
  {
    var ended := End(ctx.frameCurrent, clock);
    var frames := PushBounded(ctx.frameBuffer, ended, FrameBufferLength);
    var rates := PushBounded(ctx.frameRateBuffer, FrameRate(frames, clock), FrameRateBufferLength);
    ctx.(frameBuffer := frames, frameCurrent := Frames.New(clock), frameRateBuffer := rates)
  }

  /** Finalize keeps the bookkeeping invariant, and keeps a running context
      running: the pushed frame was started and is now ended. */
  lemma FinalizeKeepsRunning(ctx: Context, clock: real)
    ensures Valid(ctx) ==> Valid(Finalize(ctx, clock))
    ensures Running(ctx) ==> Running(Finalize(ctx, clock))
  {
    var r := Finalize(ctx, clock);
    if Running(ctx) {
      var ended := End(ctx.frameCurrent, clock);
      var all := ctx.frameBuffer + [ended];
      assert forall i :: 0 <= i < |all| ==> Complete(all[i]);
      var k := |ctx.frameBuffer| + 1 - |r.frameBuffer|;
      forall i | 0 <= i < |r.frameBuffer|
        ensures Complete(r.frameBuffer[i])
      {
        assert r.frameBuffer[i] == all[k + i];
      }
    }
  }

  /** `Context::frame_rate` of the context's frame history. */
  function CurrentFrameRate(ctx: Context, clock: real): (r: Option<real>)
    ensures |ctx.frameBuffer| == 0 ==> r == None
    ensures r.Some? <==> RoundHundredths(SumFrameTimes(ctx.frameBuffer, clock)) != 0.0
    ensures r.Some? ==> r.value * RoundHundredths(SumFrameTimes(ctx.frameBuffer, clock)) == |ctx.frameBuffer| as real
  {
    FrameRate(ctx.frameBuffer, clock)
  }

  /** `Context::average_frame_rate` of the context's rate history. */
  function CurrentAverageFrameRate(ctx: Context): (r: Option<real>)
    ensures r.Some? <==> |ctx.frameRateBuffer| > 0 && forall i :: 0 <= i < |ctx.frameRateBuffer| ==> ctx.frameRateBuffer[i].Some?
    ensures r.Some? ==> r.value * |ctx.frameRateBuffer| as real == SumRates(ctx.frameRateBuffer).value
  {
    AverageFrameRate(ctx.frameRateBuffer)
  }

  /** Once the history is full, every finalize drops exactly the oldest
      frame and the oldest rate. */
  lemma FullHistoryEvicts(ctx: Context, clock: real)
    requires Valid(ctx) && |ctx.frameBuffer| == FrameBufferLength
    ensures |Finalize(ctx, clock).frameBuffer| == FrameBufferLength
    ensures Finalize(ctx, clock).frameBuffer[..FrameBufferLength - 1] == ctx.frameBuffer[1..]
    ensures Finalize(ctx, clock).frameRateBuffer[..FrameRateBufferLength - 1] == ctx.frameRateBuffer[1..]
  {
  }

  /** In a running context the frame pushed by finalize is complete and
      measures the time since the current frame started. */
  lemma FinalizeMeasuresCurrentFrame(ctx: Context, clock: real)
    requires Running(ctx)
    ensures var f := Finalize(ctx, clock).frameBuffer;
            Complete(f[|f| - 1]) && Duration(f[|f| - 1]) == clock - ctx.frameCurrent.startTime.start
  {
  }
}
