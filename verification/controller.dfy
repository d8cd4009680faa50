/** `CameraController`: four movement flags driven by the W, A, S, D keys,
    and the per-tick camera movement they cause. */
module Controller {
  import opened Optional
  import opened Algebra
  import opened Events
  import opened Frames
  import opened Cameras

  const CameraSpeedUnitsPerSecondDefault: real := 30.0

  datatype CameraController = CameraController(
    speed: real,
    isForwardPressed: bool,
    isBackwardPressed: bool,
    isLeftPressed: bool,
    isRightPressed: bool)

  /** No movement key is held. */
  predicate Idle(c: CameraController)
  {
    !c.isForwardPressed && !c.isBackwardPressed && !c.isLeftPressed && !c.isRightPressed
  }

  /** The number of flags on which two controllers differ. */
  function FlagChanges(a: CameraController, b: CameraController): nat
  {
    (if a.isForwardPressed != b.isForwardPressed then 1 else 0)
    + (if a.isBackwardPressed != b.isBackwardPressed then 1 else 0)
    + (if a.isLeftPressed != b.isLeftPressed then 1 else 0)
    + (if a.isRightPressed != b.isRightPressed then 1 else 0)
  }

  /** `CameraController::new`. */
  function New(speed: real): (c: CameraController)
    ensures c.speed == speed && Idle(c)
  {
    CameraController(speed, false, false, false, false)
  }

  /** `CameraController::default`: idle, 30 units per second. */
  function Default(): (c: CameraController)
    ensures c.speed == 30.0 && Idle(c)
  {
    New(CameraSpeedUnitsPerSecondDefault)
  }

  /** `CameraController::process_events`: the new controller, and whether
      the event was consumed. W, A, S and D set the forward, left, backward
      and right flags to whether the key is now pressed; anything else is
      not consumed and changes nothing. */
  function ProcessEvents(c: CameraController, e: WindowEvent): (r: (CameraController, bool))
    ensures r.1 <==> IsKey(e, W) || IsKey(e, A) || IsKey(e, S) || IsKey(e, D)
    ensures !r.1 ==> r.0 == c
    ensures r.0.speed == c.speed
    ensures FlagChanges(c, r.0) <= 1
    ensures IsKey(e, W) ==> r.0 == c.(isForwardPressed := e.state == Pressed)
    ensures IsKey(e, A) ==> r.0 == c.(isLeftPressed := e.state == Pressed)
    ensures IsKey(e, S) ==> r.0 == c.(isBackwardPressed := e.state == Pressed)
    ensures IsKey(e, D) ==> r.0 == c.(isRightPressed := e.state == Pressed)
  {
    match e
    case KeyboardInput(state, Some(keycode)) =>
      var isPressed := state == Pressed;
      (match keycode
       case W => (c.(isForwardPressed := isPressed), true)
       case A => (c.(isLeftPressed := isPressed), true)
       case S => (c.(isBackwardPressed := isPressed), true)
       case D => (c.(isRightPressed := isPressed), true)
       case _ => (c, false))
    case _ => (c, false)
  }

  /** The eye after the forward and backward steps of one tick, each of
      length `step` along the normalised view direction. The forward step is
      taken only while the target is further than `step` away; the backward
      step always. */
  function Dolly(c: CameraController, cam: Camera, step: real, u: Uninterpreted): Vec3
    requires Lawful(u)
  {
    var forward := Sub(cam.target, cam.eye);
    var forwardNormalized := Normalize(u, forward);
    var eye := if c.isForwardPressed && u.magnitude(forward) > step
               then Add(cam.eye, Scale(step, forwardNormalized)) else cam.eye;
    if c.isBackwardPressed then Sub(eye, Scale(step, forwardNormalized)) else eye
  }

  /** The eye re-seated at distance `radius` from the target, opposite the
      direction of `towards`. */
  function Reseat(target: Vec3, towards: Vec3, radius: real, u: Uninterpreted): Vec3
    requires Lawful(u)
  {
    Sub(target, Scale(radius, Normalize(u, towards)))
  }

  /** The eye after the strafes of one tick, starting from `eye`. Both
      strafes use the same target-to-eye vector, taken before either, so a
      left strafe replaces a right one. */
  function Strafe(c: CameraController, cam: Camera, eye: Vec3, right: Vec3, step: real, u: Uninterpreted): Vec3
    requires Lawful(u)
  {
    var forward := Sub(cam.target, eye);
    var forwardMag := u.magnitude(forward);
    var eye' := if c.isRightPressed then Reseat(cam.target, Sub(forward, Scale(step, right)), forwardMag, u) else eye;
    if c.isLeftPressed then Reseat(cam.target, Add(forward, Scale(step, right)), forwardMag, u) else eye'
  }

  /** The per-tick displacement: speed times the previous frame's delta
      time, read at `clock`. */
  function StepLength(c: CameraController, previous: Frame, clock: real): real
  {
    c.speed * DeltaTime(previous, clock)
  }

  /** The strafe direction: the normalised view direction crossed with up,
      taken before the eye moves. */
  function RightOf(cam: Camera, u: Uninterpreted): Vec3
    requires Lawful(u)
  {
    Cross(Normalize(u, Sub(cam.target, cam.eye)), cam.up)
  }

  /** `CameraController::update_camera`: moves the eye and nothing else. */
  function UpdateCamera(c: CameraController, cam: Camera, previous: Frame, clock: real, u: Uninterpreted): (r: Camera)
    requires Lawful(u)
    ensures r == cam.(eye := r.eye)
    ensures Idle(c) ==> r == cam
    ensures Valid(cam) ==> Valid(r)
  {
    var step := StepLength(c, previous, clock);
    var eye := Dolly(c, cam, step, u);
    cam.(eye := Strafe(c, cam, eye, RightOf(cam, u), step, u))
  }

  /** With only forward held and a step shorter than the distance to the
      target, the eye moves straight toward the target by exactly the
      step. */
  lemma ForwardStepApproaches(c: CameraController, cam: Camera, previous: Frame, clock: real, u: Uninterpreted)
    requires Lawful(u) && NormScales(u)
    requires c.isForwardPressed && !c.isBackwardPressed && !c.isLeftPressed && !c.isRightPressed
    requires 0.0 <= StepLength(c, previous, clock) < u.magnitude(Sub(cam.target, cam.eye))
    ensures var r := UpdateCamera(c, cam, previous, clock, u);
            u.magnitude(Sub(cam.target, r.eye)) == u.magnitude(Sub(cam.target, cam.eye)) - StepLength(c, previous, clock)
    ensures var r := UpdateCamera(c, cam, previous, clock, u);
            var forward := Sub(cam.target, cam.eye);
            Sub(r.eye, cam.eye) == Scale(StepLength(c, previous, clock) / u.magnitude(forward), forward)
  {
    var s := StepLength(c, previous, clock);
    var forward := Sub(cam.target, cam.eye);
    var m := u.magnitude(forward);
    var n := Normalize(u, forward);
    var eye := Add(cam.eye, Scale(s, n));
    assert Sub(eye, cam.eye) == Scale(s, n);
    StepAlong(u, forward, s);
    NormalizeUnit(u, forward);
    assert Scale(m, n) == forward;
    assert Sub(cam.target, eye) == Scale(m - s, n);
    assert u.magnitude(Scale(m - s, n)) == Abs(m - s) * u.magnitude(n);
  }

  /** A step of length `s` along the normalised direction of a non-zero `v`
      is `v` scaled by `s` over its length. */
  lemma StepAlong(u: Uninterpreted, v: Vec3, s: real)
    requires Lawful(u) && v != Zero3
    ensures Scale(s, Normalize(u, v)) == Scale(s / u.magnitude(v), v)
  {
    var m := u.magnitude(v);
    assert m != 0.0;
    assert Normalize(u, v) == Scale(1.0 / m, v);
    assert s * (1.0 / m) == s / m;
  }

  /** The forward step is guarded: with only forward held and a step at
      least as long as the distance to the target, the eye stays put. */
  lemma ForwardStepGuarded(c: CameraController, cam: Camera, previous: Frame, clock: real, u: Uninterpreted)
    requires Lawful(u)
    requires c.isForwardPressed && !c.isBackwardPressed && !c.isLeftPressed && !c.isRightPressed
    requires u.magnitude(Sub(cam.target, cam.eye)) <= StepLength(c, previous, clock)
    ensures UpdateCamera(c, cam, previous, clock, u) == cam
  {
  }

  /** The backward step has no guard: with only backward held, the eye moves
      straight away from the target by exactly the step, however close it
      started. */
  lemma BackwardStepRecedes(c: CameraController, cam: Camera, previous: Frame, clock: real, u: Uninterpreted)
    requires Lawful(u) && NormScales(u)
    requires !c.isForwardPressed && c.isBackwardPressed && !c.isLeftPressed && !c.isRightPressed
    requires cam.eye != cam.target && 0.0 <= StepLength(c, previous, clock)
    ensures var r := UpdateCamera(c, cam, previous, clock, u);
            u.magnitude(Sub(cam.target, r.eye)) == u.magnitude(Sub(cam.target, cam.eye)) + StepLength(c, previous, clock)
    ensures var r := UpdateCamera(c, cam, previous, clock, u);
            var forward := Sub(cam.target, cam.eye);
            Sub(r.eye, cam.eye) == Scale(-StepLength(c, previous, clock) / u.magnitude(forward), forward)
  {
    var s := StepLength(c, previous, clock);
    var forward := Sub(cam.target, cam.eye);
    var m := u.magnitude(forward);
    var n := Normalize(u, forward);
    var eye := Sub(cam.eye, Scale(s, n));
    assert forward != Zero3;
    assert Sub(eye, cam.eye) == Scale(-s, n);
    StepAlong(u, forward, -s);
    NormalizeUnit(u, forward);
    assert Scale(m, n) == forward;
    assert Sub(cam.target, eye) == Scale(m + s, n);
    assert u.magnitude(Scale(m + s, n)) == Abs(m + s) * u.magnitude(n);
  }

  /** A strafe keeps the eye on the circle around the target whose radius is
      the distance after the forward and backward steps, provided the
      direction it normalises is not the zero vector. */
  lemma StrafeKeepsRadius(c: CameraController, cam: Camera, previous: Frame, clock: real, u: Uninterpreted)
    requires Lawful(u) && NormScales(u)
    requires c.isLeftPressed || c.isRightPressed
    requires var s := StepLength(c, previous, clock);
             var forward := Sub(cam.target, Dolly(c, cam, s, u));
             var right := RightOf(cam, u);
             if c.isLeftPressed then Add(forward, Scale(s, right)) != Zero3
             else Sub(forward, Scale(s, right)) != Zero3
    ensures var r := UpdateCamera(c, cam, previous, clock, u);
            var s := StepLength(c, previous, clock);
            u.magnitude(Sub(cam.target, r.eye)) == u.magnitude(Sub(cam.target, Dolly(c, cam, s, u)))
  {
    var s := StepLength(c, previous, clock);
    var eye := Dolly(c, cam, s, u);
    var forward := Sub(cam.target, eye);
    var radius := u.magnitude(forward);
    var right := RightOf(cam, u);
    var towards := if c.isLeftPressed then Add(forward, Scale(s, right)) else Sub(forward, Scale(s, right));
    assert UpdateCamera(c, cam, previous, clock, u).eye == Reseat(cam.target, towards, radius, u);
    assert 0.0 <= radius;
    ReseatKeepsRadius(cam.target, towards, radius, u);
  }

  /** Re-seating puts the eye at exactly the given distance from the
      target, provided the direction it normalises is not the zero
      vector. */
  lemma ReseatKeepsRadius(target: Vec3, towards: Vec3, radius: real, u: Uninterpreted)
    requires Lawful(u) && NormScales(u) && towards != Zero3 && 0.0 <= radius
    ensures u.magnitude(Sub(target, Reseat(target, towards, radius, u))) == radius
  {
    var n := Normalize(u, towards);
    assert Sub(target, Reseat(target, towards, radius, u)) == Scale(radius, n);
    NormalizeUnit(u, towards);
    assert u.magnitude(Scale(radius, n)) == Abs(radius) * u.magnitude(n);
  }

  /** Holding left and right together moves the eye exactly as holding left
      alone. */
  lemma LeftOverridesRight(c: CameraController, cam: Camera, previous: Frame, clock: real, u: Uninterpreted)
    requires Lawful(u)
    requires c.isLeftPressed && c.isRightPressed
    ensures UpdateCamera(c, cam, previous, clock, u) == UpdateCamera(c.(isRightPressed := false), cam, previous, clock, u)
  {
    var c' := c.(isRightPressed := false);
    var s := StepLength(c, previous, clock);
    assert StepLength(c', previous, clock) == s;
    assert Dolly(c', cam, s, u) == Dolly(c, cam, s, u);
    var eye := Dolly(c, cam, s, u);
    var right := RightOf(cam, u);
    assert Strafe(c', cam, eye, right, s, u) == Strafe(c, cam, eye, right, s, u);
  }
}
