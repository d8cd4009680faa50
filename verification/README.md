# Frame-loop model of the wgpu simulation renderer

This project models the sequential logic of the renderer's frame loop in
Dafny and proves properties of it. The GPU work is not part of the model.
The modelled parts are:

- **Timing.** `Timestamp` and `Frame` with their "empty" sentinel. The
  clock is a real-valued parameter in seconds.
- **Frame histories.** `Context::finalize` keeps two FIFO histories bounded
  at 128 entries. `frame_rate` and `average_frame_rate` are statistics over
  them.
- **Camera controller.** The W/A/S/D flag state machine, and the eye
  movement `update_camera` performs each tick: a guarded forward step, an
  unguarded backward step and radius-keeping strafes.
- **Camera and uniforms.** The camera record and its setters. The
  OpenGL-to-wgpu depth correction. The view-projection composition and
  `CameraUniform`.
- **Light.** `LightUniform` with its setters and its padded field layout.
- **Instances.** The instance grid `Context::new` builds. The quaternion to
  matrix conversion. `InstanceRaw` and its vertex buffer layout.
- **Context.** `resize`, `input`, `update`, `init` and `finalize`.
- **Window.** The window's event dispatch in `run` (window events, redraw,
  end of events) and the choice of title.

The Dafny modules follow the source files. `context.rs` is split in two:
its frame-rate bookkeeping is `FrameHistory` and the rest is `Contexts`.
`Layout` has no source file of its own; it holds the offset arithmetic
that the record layouts of `instance.rs` and `light.rs` share.

| Dafny module | file |
|---|---|
| `Time` | `time.dfy` |
| `Frames` | `frame.dfy` |
| `FrameHistory` | `history.dfy` |
| `Axes` | `axis.dfy` |
| `Cameras` | `camera.dfy` |
| `Uniforms` | `uniform.dfy` |
| `Controller` | `controller.dfy` |
| `Lights` | `light.dfy` |
| `Instances` | `instance.dfy` |
| `Layout` | `layout.dfy` |
| `Contexts` | `context.dfy` |
| `Windows` | `window.dfy` |

Shared vector, matrix and quaternion algebra lives in `Algebra`
(`algebra.dfy`). Window events live in `Events` (`events.dfy`), and an
option type in `Optional` (`optional.dfy`).

Some values are not polynomial: the Euclidean length, sine and cosine, and
cgmath's `look_at_rh` and `perspective`. Each operation that needs them
takes them as an `Algebra.Uninterpreted` record. The laws the proofs rely on
are stated as predicates over that record:

- `Lawful`: the length is zero exactly at the zero vector and positive
  elsewhere, and sin 0 = 0 and cos 0 = 1.
- `NormScales`: scaling a vector by k scales its length by |k|.

The instance grid's offset is `NUM_INSTANCES_PER_ROW / 2 = 5`
(src/window/context.rs:266-267), so positions run from -15 to 12 in steps
of 3, and exactly one instance (index 55) stands at the origin.

The context keeps the camera uniform with the depth correction applied
once. The code applies it twice (see "## Findings"). `Uniforms.FromCameraAsWritten`
and `Contexts.UpdateStoresCorrectedAgain` state what the code stores in terms
of the model's uniform.

Some functions are reference definitions without a contract of their own.
The lemmas named here characterise them:

- `Algebra.QuatToMat3` is cgmath's `Matrix3::from(Quaternion)`, used at
  src/model/instance.rs:86. `Algebra.QuatToMat4` places it in a 4x4 matrix.
  `Instances.ScalarQuatIsIdentity` shows that a quaternion with no vector
  part gives the identity.
- `Algebra.Rotate` is cgmath's `Quaternion * Vector3`, used at
  src/window/context.rs:433. `Contexts.RotateIdentity` shows that the
  identity quaternion fixes every vector. `Contexts.RotateKeepsHeight` shows
  that a rotation about the y axis keeps the height.
- `Contexts.Grid` is the instance grid built at
  src/window/context.rs:263-280. `Contexts.GridSize`, `Contexts.GridIndex`,
  `Contexts.GridCell` and `Contexts.GridOrigin` give its size, the position
  and rotation of each instance, and the single instance at the origin.
- `Controller.Dolly`, `Controller.Strafe` and `Controller.Reseat` are the
  steps of `update_camera`. They are characterised by the contract of
  `Controller.UpdateCamera` and by the `Controller` lemmas.

## Model

| member | source | states |
|---|---|---|
| Time.Now | src/time.rs:27-33 | a timestamp taken now is not empty and reports zero elapsed time at the moment it was taken |
| Time.Empty | src/time.rs:53-63 | the empty timestamp is marked empty |
| Time.Elapsed | src/time.rs:44-51 | an empty timestamp reports 0; otherwise start plus elapsed is the clock reading |
| Time.Delta | src/time.rs:65-71 | 0 when either timestamp is empty; otherwise the difference of the two elapsed times, i.e. the capture gap corrected by the gap between the two clock reads |
| Time.ElapsedMonotonic | src/time.rs:44-51 | for a clock at or after the start, elapsed time is non-negative and grows with the clock |
| Time.DeltaIsCaptureGap | src/time.rs:65-71 | with both clocks read at one instant, delta is the gap between the capture times whatever that instant, and it is antisymmetric |
| Frames.New | src/window/frame.rs:10-15 | a new frame has started at the clock and has no end |
| Frames.Empty | src/window/frame.rs:17-22 | both timestamps of the empty frame are empty |
| Frames.Begin | src/window/frame.rs:24-26 | begin restamps the start at the clock and keeps the end |
| Frames.End | src/window/frame.rs:28-30 | end stamps the end at the clock and keeps the start |
| Frames.FrameTimeS | src/window/frame.rs:32-34 | 0 unless both timestamps are set; for a complete frame, its duration less the gap between the two clock reads |
| Frames.DeltaTime | src/window/frame.rs:36-38 | 0 for an unstarted frame; otherwise the time since the frame began |
| Frames.EmptyFrameReportsZero | src/window/frame.rs:17-38 | the empty frame reports frame time 0 and delta time 0 at every clock |
| Frames.BeginEndMeasures | src/window/frame.rs:24-38 | a frame begun at t0 and ended at t1 is complete, its frame time is t1 - t0, and its delta time is the time since t0 |
| FrameHistory.PushBounded | src/window/context.rs:542-547 | push-back then pop-front past the cap: the result is the newest suffix of old history plus item, one longer unless that exceeds the cap |
| FrameHistory.PushBoundedKeepsBound | src/window/context.rs:545-555 | a history within its cap stays within it, has length min(n+1, cap), and ends with the pushed item |
| FrameHistory.PushAllKeepsNewest | src/window/context.rs:539-556 | after any number of finalizes a history holds exactly the newest `cap` items ever pushed, oldest first |
| FrameHistory.Round | src/window/context.rs:518 | `f32::round` gives an integer within 0.5 of its argument, 0 exactly on (-0.5, 0.5), and rounds a half away from zero |
| FrameHistory.RoundHundredths | src/window/context.rs:518 | rounding to hundredths gives a whole number of hundredths, moves a value by at most 0.005, gives 0 exactly on (-0.005, 0.005), and breaks a tie away from zero |
| FrameHistory.SumOfCompleteFrames | src/window/context.rs:513-516 | over complete frames the summed frame time equals the summed durations, whatever the clock |
| FrameHistory.FrameRate | src/window/context.rs:511-519 | finite exactly when the rounded summed frame time is non-zero, and then rate times rounded time equals the number of frames; an empty history has no finite rate |
| FrameHistory.SumRates | src/window/context.rs:523-526 | the sum is finite exactly when every rate in the history is |
| FrameHistory.AverageFrameRate | src/window/context.rs:521-529 | finite exactly for a non-empty history of finite rates, and then average times length equals the sum |
| FrameHistory.SumRatesWithin | src/window/context.rs:523-526 | rates within [lo, hi] sum to between n*lo and n*hi |
| FrameHistory.AverageWithinBounds | src/window/context.rs:521-529 | the average of rates within [lo, hi] lies within [lo, hi] |
| FrameHistory.AverageOfMixedHistory | src/window/context.rs:521-529 | ten rates of 60 followed by five of 30 average to exactly 50 |
| FrameHistory.SumRatesSplit | src/window/context.rs:523-526 | the fold over a concatenation is the sum of the folds over the parts |
| Layout.OffsetsFromPrefixSums | src/model/instance.rs:17-53 | laying fields out one after another from a start puts each field at the start plus the sizes of the fields before it |
| Layout.Offsets | src/model/instance.rs:17-53 | laid out from byte 0, each field's offset is the summed size of the fields before it |
| Layout.OffsetsContiguous | src/model/instance.rs:12-55 | the first offset is 0, each attribute starts where the previous one ends, and the last ends at the total size |
| Axes.ToVector3 | src/window/camera/axis.rs:10-16 | the vector has exactly one non-zero coordinate, the one named by the axis, and its coordinates sum to 1 |
| Axes.AxisUnitLength | src/window/camera/axis.rs:10-16 | each axis vector has unit length |
| Axes.AxesOrthogonal | src/window/camera/axis.rs:10-16 | distinct axes give distinct, orthogonal vectors |
| Cameras.Default | src/window/camera/mod.rs:9-20 | eye (0,1,2), target the origin, up Y, aspect 16/9, fov 45, near 0.1, far 100, and the eye is off the target |
| Cameras.SetAspect | src/window/camera/mod.rs:53-55 | aspect times height equals width, and no other field changes |
| Cameras.SetUpAxis | src/window/camera/mod.rs:57-59 | up becomes the axis vector, and no other field changes |
| Cameras.Translate | src/window/camera/mod.rs:61-63 | the eye moves by exactly the translation, and no other field changes |
| Cameras.TranslateComposes | src/window/camera/mod.rs:61-63 | translating by a then by b equals translating by a + b |
| Cameras.CorrectionOnVector | src/window/camera/mod.rs:23-28 | the correction matrix keeps x, y and w and maps z to 0.5 z + 0.5 w |
| Cameras.CorrectionOnMatrix | src/window/camera/mod.rs:23-28 | multiplying a matrix by the correction corrects each of its columns |
| Cameras.CorrectionActs | src/window/camera/mod.rs:23-28 | applying a corrected matrix to a vector equals correcting the matrix's image of that vector |
| Cameras.DepthCorrectRemapsRange | src/window/camera/mod.rs:23-28 | OpenGL's clip depth -w..w maps onto wgpu's 0..w, near plane to 0 and far plane to w |
| Cameras.BuildViewProjection | src/window/camera/mod.rs:41-49 | column j of correction * projection * view is the view's column j, projected and then depth-corrected |
| Uniforms.New | src/window/camera/uniform.rs:22-27 | a zero view position and the identity matrix, which fixes every vector |
| Uniforms.UpdateViewProjection | src/window/camera/uniform.rs:29-34 | the corrected update: view position is the eye with w = 1, and the matrix is the camera's view-projection with the correction applied once |
| Uniforms.UpdateViewProjectionAsWritten | src/window/camera/uniform.rs:29-34 | the code as written: the same view position, but every column of the camera's matrix is depth-corrected a second time |
| Uniforms.FromCamera | src/window/camera/uniform.rs:38-45 | the uniform built from a camera has the eye with w = 1 and the camera's view-projection |
| Uniforms.FromCameraAsWritten | src/window/camera/uniform.rs:38-45 | the code's `From<&Camera>`: the same view position as `FromCamera`, and `FromCamera`'s matrix with the correction applied again |
| Uniforms.UpdateOverwrites | src/window/camera/uniform.rs:29-45 | an update's result does not depend on the uniform it starts from, equals the uniform built from the camera, and is idempotent |
| Uniforms.DoubleCorrectionShiftsNearPlane | src/window/camera/uniform.rs:7-12 | a near-plane point (z = -w) gets depth 0 from one correction and 0.5 w from two |
| Uniforms.AsWrittenCorrectsTwice | src/window/camera/uniform.rs:29-34 | for every camera, the as-written matrix is the correction times the corrected matrix, and a view column projected onto the near plane lands at w/2 instead of 0 |
| Lights.New | src/window/light.rs:13-20 | position and colour as given, with zero padding |
| Lights.SetColor | src/window/light.rs:22-27 | only the colour changes, to the value given, and padding stays zero |
| Lights.SetPositionInto | src/window/light.rs:29-34 | only the position changes, to the value given, and padding stays zero |
| Lights.SettersCommute | src/window/light.rs:22-34 | setting position and colour commute, and setting a colour twice equals setting it once |
| Lights.LightLayout | src/window/light.rs:1-10 | with the padding words the fields sit at byte offsets 0, 12, 16 and 28 in a 32-byte record, both vectors 16-byte aligned; without padding the colour would not be aligned |
| Algebra.QuatToMat4 | src/model/instance.rs:83-86 | the 4x4 rotation matrix has the 3x3 rotation as its upper block, no translation, and w row (0,0,0,1) |
| Algebra.Normalize | src/window/camera/controller.rs:67 | length times the result gives back the input, and the result is zero exactly for the zero vector |
| Algebra.NormalizeUnit | src/window/camera/controller.rs:67 | a non-zero vector normalises to unit length |
| Algebra.FromAxisAngle | src/window/context.rs:271-275 | a zero angle gives the identity quaternion about any axis |
| Algebra.AxisAngleParallel | src/window/context.rs:271-275 | the vector part of an axis-angle quaternion is parallel to the axis |
| Instances.GetBufferLayout | src/model/instance.rs:12-55 | per-instance stepping; seven attributes at shader locations 5 to 11, four Float32x4 and then three Float32x3, at contiguous offsets; the stride is the 100-byte record size |
| Instances.LayoutReadsColumns | src/model/instance.rs:12-55 | every attribute reads whole floats inside the record: locations 5 to 8 read exactly the object matrix's columns and 9 to 11 the normal matrix's columns |
| Instances.New | src/model/instance.rs:66-68 | an instance keeps the position and rotation it is given |
| Instances.Default | src/model/instance.rs:71-78 | the default instance is at the origin with the identity rotation |
| Instances.FromInstance | src/model/instance.rs:80-88 | the object matrix's last column is the position with w = 1, its upper block and the normal matrix are both the rotation, and its other w entries are 0 |
| Instances.ObjectMatrixIsProduct | src/model/instance.rs:83-85 | the object matrix equals the translation matrix times the rotation matrix |
| Instances.ObjectPlacesOrigin | src/model/instance.rs:80-88 | the object matrix carries the model origin to the instance's position |
| Instances.IdentityRotationIsTranslation | src/model/instance.rs:80-88 | with a rotation that has no vector part, the normal matrix is the identity and the object matrix is the pure translation |
| Instances.DefaultIsIdentity | src/model/instance.rs:71-88 | the default instance's raw record has identity object and normal matrices |
| Contexts.RowsFromIndex | src/window/context.rs:263-280 | the flattened rows z..9 have 10 per row, and entry 10*(r-z)+x holds column x of row r |
| Contexts.GridSize | src/window/context.rs:263-280 | the grid has exactly 100 instances |
| Contexts.GridIndex | src/window/context.rs:263-280 | instance 10*r + x is the instance placed at column x of row r |
| Contexts.GridCell | src/window/context.rs:263-280 | instance 10*r + x stands at (3(x-5), 0, 3(r-5)); it is at the origin exactly when r = x = 5, where it is unrotated; elsewhere it is turned 45 degrees about its normalised position |
| Contexts.GridOrigin | src/window/context.rs:263-280 | exactly one instance, index 55, stands at the origin, and it has the identity rotation |
| Contexts.InstanceData | src/window/context.rs:282 | one raw record per instance, in order, each converted from its instance |
| Contexts.InitialCamera | src/window/context.rs:224-227 | the default camera moved up 2 and back 4: eye (0,3,6), target the origin, up Y, aspect 16/9 |
| Contexts.New | src/window/context.rs:345-369 | the new context is valid, with empty histories, an empty current frame, and surface configured to the window size |
| Contexts.NewScene | src/window/context.rs:191-282 | the new scene's camera is the whole initial camera (the default moved by (0,2,4)), with its matching uniform, an idle controller at speed 30, a white light at (2,2,2), and the 100-instance grid with its raw records |
| Contexts.Init | src/window/context.rs:535-537 | only the current frame changes: it begins at the clock, which makes a valid context with complete history running |
| Contexts.StartIsRunning | src/window/context.rs:535-537 | a newly built context is running once initialised |
| Contexts.Resize | src/window/context.rs:376-388 | at most 1 pixel in either direction changes nothing; otherwise size and configuration become the new size, camera aspect times height is width, nothing else changes, and validity is kept |
| Contexts.ResizeToSameSize | src/window/context.rs:376-388 | resizing to the current size keeps the size |
| Contexts.Input | src/window/context.rs:390-410 | the controller sees the event first; if it consumes it only the controller changes. A cursor move sets only the light colour, to (x/width, y/height, 0.5). Handled exactly for W/A/S/D and cursor moves, and the light changes only on a cursor move |
| Contexts.RotateLight | src/window/context.rs:428-434 | only the light position changes, its height is kept, and a zero delta time leaves the light as it was |
| Contexts.AboutY | src/window/context.rs:433 | the rotation about the y axis has no x or z in its vector part |
| Contexts.RotateKeepsHeight | src/window/context.rs:433 | a rotation whose vector part lies on the y axis keeps a vector's height |
| Contexts.RotateIdentity | src/window/context.rs:433 | the identity rotation keeps every vector |
| Contexts.Update | src/window/context.rs:412-442 | with a non-empty history, the camera moves by its controller over the newest frame's delta time, and the light turns by that delta time; only camera, uniform and light change, and validity is kept |
| Contexts.UpdateRebuildsCameraUniform | src/window/context.rs:418-419 | after an update the camera uniform is the one built from the moved camera |
| Contexts.UpdateStoresCorrectedAgain | src/window/context.rs:418-419 | the uniform the code stores after an update has the model's view position and the correction matrix times the model's matrix |
| Contexts.IdleUpdateKeepsScene | src/window/context.rs:412-434 | with no key held the camera is unchanged; when the newest frame's delta time is also zero the light is unchanged too |
| Contexts.Finalize | src/window/context.rs:539-556 | the ended current frame is appended to the frame history, which drops its oldest entry past 128; a new frame starts; the rate of the updated history is appended to the rate history under the same rule; each history within 128 grows to min(n+1, 128); nothing else changes |
| Contexts.FinalizeKeepsRunning | src/window/context.rs:539-556 | finalize keeps both histories within 128 and equally long, and keeps a running context running |
| Contexts.CurrentFrameRate | src/window/context.rs:511-519 | the rate is finite exactly when the rounded summed frame time is non-zero (so never for an empty history), and then rate times that time is the frame count |
| Contexts.CurrentAverageFrameRate | src/window/context.rs:521-529 | finite exactly when the rate history is non-empty and all its rates are finite, and then the average times the history length is the sum of the rates |
| Contexts.FullHistoryEvicts | src/window/context.rs:545-555 | once full, each finalize drops exactly the oldest frame and the oldest rate, keeping length 128 |
| Contexts.FinalizeMeasuresCurrentFrame | src/window/context.rs:542-543 | the frame pushed from a running context is complete and lasts from the current frame's start to the clock |
| Controller.New | src/window/camera/controller.rs:18-26 | the given speed with no flag set |
| Controller.Default | src/window/camera/controller.rs:99-103 | speed 30 with no flag set |
| Controller.ProcessEvents | src/window/camera/controller.rs:28-63 | consumed exactly for W/A/S/D, which set forward/left/backward/right to whether the key is pressed; anything else changes nothing; at most one flag changes and speed never does |
| Controller.UpdateCamera | src/window/camera/controller.rs:65-96 | only the eye changes, nothing at all changes when no flag is set, and a usable camera stays usable |
| Controller.ForwardStepApproaches | src/window/camera/controller.rs:74-76 | forward alone with a step shorter than the distance moves the eye toward the target by exactly the step, along the view direction: the eye's displacement is the view vector scaled by step over distance |
| Controller.ForwardStepGuarded | src/window/camera/controller.rs:74-76 | forward alone with a step at least the distance leaves the camera unchanged |
| Controller.BackwardStepRecedes | src/window/camera/controller.rs:77-79 | backward alone moves the eye away from the target by exactly the step, however close it was, along the view direction: the eye's displacement is the view vector scaled by minus step over distance |
| Controller.StepAlong | src/window/camera/controller.rs:66-79 | a step along the normalised view direction is the view vector scaled by the step over its length |
| Controller.StrafeKeepsRadius | src/window/camera/controller.rs:84-95 | after a strafe the eye's distance to the target equals the distance after the forward and backward steps |
| Controller.ReseatKeepsRadius | src/window/camera/controller.rs:87-95 | re-seating the eye along a non-zero direction puts it at exactly the given distance from the target |
| Controller.LeftOverridesRight | src/window/camera/controller.rs:84-95 | holding left and right moves the eye exactly as holding left alone |
| Windows.New | src/window/mod.rs:34-38 | the frame-rate title is shown by default |
| Windows.WithUpAxis | src/window/mod.rs:110-118 | only the camera's up axis changes, and the context stays valid and running |
| Windows.OnWindowEvent | src/window/mod.rs:75-136 | an event the context handles gets nothing more; close or a pressed Escape, and only those, exit; the title flag flips exactly on a pressed F; pressed Up/Left/Right set up to Y/X/Z; resize and scale-factor changes resize the context; validity is kept; an event the context does not handle changes only the control flow (close, Escape), only the title flag (F) or only the camera's up axis (arrows), and an unknown event, a pressed key outside the handled set, a released key or a keyboard event without a key code changes nothing |
| Windows.ToggleTwiceRestores | src/window/mod.rs:107-109 | two F presses restore the title flag |
| Windows.ReleasedKeyIgnored | src/window/mod.rs:96-121 | a released key other than W/A/S/D changes nothing |
| Windows.OnRedrawRequested | src/window/mod.rs:139-154 | the context updates before it renders; a lost surface resizes to the current size, which keeps that size; out of memory exits and nothing else does; the title flag is untouched |
| Windows.TitleOf | src/window/mod.rs:171-185 | the bare title exactly when the flag is off; otherwise the title carries the current frame rate and the average frame rate |
| Windows.OnMainEventsCleared | src/window/mod.rs:155-165 | the context finalizes, and then the title is chosen from the finalized context |
| Windows.Start | src/window/mod.rs:67-70 | the loop starts polling with the frame-rate title shown, a running context and empty histories |
| Windows.FinalizedLoopCanRedraw | src/window/mod.rs:155-165 | after the end of a batch of events the frame history is non-empty, so a redraw may read its newest frame |

## Left out

- GPU work is not modelled: surface, device, queue, pipelines, buffers,
  bind groups, the depth texture, `render`, `load_model` and buffer writes.
  They have no sequential logic to prove. A render's outcome is a parameter
  of `Windows.OnRedrawRequested`.
- `window.request_redraw()` in `finalize` (src/window/context.rs:540) is
  not modelled. It asks winit for the next redraw event. In the model that
  event is simply the next call to `Windows.OnRedrawRequested`.
- Window creation, the wasm canvas code, logging, `set_title` and the
  title's string formatting are not modelled. `Windows.TitleOf` states which
  values the title shows, not its text.
- `lib.rs`, `main.rs` and the resource loader are not part of this model.
- f32 arithmetic is modelled over exact reals: no rounding, overflow, NaN or
  infinity. A non-finite frame rate is `None`. Normalising the zero vector
  gives the zero vector where f32 gives NaN components.
- Square root, sine, cosine, `look_at_rh` and `perspective` are
  uninterpreted. They are passed in as an `Uninterpreted` record, and only
  the laws in `Lawful` and `NormScales` are assumed about them. Quaternion
  unit length (sin² + cos² = 1) is not assumed or used.
- The clock is a parameter. `Time.Delta` and `Frames.FrameTimeS` take
  both of the source's clock reads as parameters. Elsewhere one operation
  reads the clock at a single instant, even where the source reads it
  several times:
  - Contexts.Update: uses one `clock` for both the camera step and the
    light turn. The source reads the newest frame's delta time twice, at
    src/window/camera/controller.rs:70 and src/window/context.rs:430.
  - FrameHistory.FrameRate: reads every frame at one `clock`. The source
    reads the clock twice per frame through `frame_time_s`, at
    src/window/context.rs:516.
- `u32` sizes are `nat`. The window-id guards in `run` are left out, since
  the model has only one window.
- Contexts.RotateLight: states that the height is kept and that a zero
  delta time is the identity. It does not state that the distance from the y
  axis is kept, because that needs sin² + cos² = 1, which is not assumed.
- Windows.OnWindowEvent: requires a positive window size for cursor
  events, because it passes them to `Contexts.Input`, which requires it.
- Contexts.Input: requires a positive window size for cursor events. The
  source divides by the size, and f32 would give an infinity or NaN colour
  component.
- Cameras.SetAspect: requires a non-zero height. The source divides in
  f32 and leaves a zero height to its caller; its only caller, `resize`,
  passes heights above 1.
- Uniforms.FromCamera: stores the matrix with the depth correction applied
  once. The code's `From<&Camera>` (src/window/camera/uniform.rs:38-45)
  applies it twice, as `Uniforms.FromCameraAsWritten` states. The context's
  initial uniform (`Contexts.New`) uses the corrected `FromCamera`, as
  recorded under "## Findings".
- Contexts.NewScene: states that the initial camera uniform is the
  corrected `Uniforms.FromCamera` of the camera. The code builds it with
  `From<&Camera>` and so corrects depth twice, as
  `Uniforms.FromCameraAsWritten` states.
- Contexts.Update: rebuilds the camera uniform with the corrected
  `Uniforms.UpdateViewProjection`. The code stores the correction matrix
  times that matrix, as `Contexts.UpdateStoresCorrectedAgain` states.
- Contexts.Update: requires a non-empty frame history. The source unwraps
  the newest frame and panics on an empty history.
- Controller.ForwardStepApproaches: requires `NormScales`, the homogeneity
  of the length, which only the distance statements use.
- Controller.BackwardStepRecedes: requires `NormScales`, as above.
- Controller.StrafeKeepsRadius: requires `NormScales`, and a non-zero
  direction to normalise. For the zero direction the source's NaN is not
  modelled.
- Algebra.NormalizeUnit: requires `NormScales`, as above.

## Findings

| source | as written | input that shows it | evidently intended | confidence | as-written member | corrected member |
|---|---|---|---|---|---|---|
| src/window/camera/uniform.rs:33 | the uniform's matrix is `OPENGL_TO_WGPU_MATRIX * camera.build_view_projection_matrix()`, and `build_view_projection_matrix` already multiplies by the same correction (src/window/camera/mod.rs:48), so depth is corrected twice | any camera whose projected view column lies on the near plane (z = -w, w > 0): one correction maps its depth to 0, the stored matrix to 0.5 w, so clip depth is squeezed into [0.5 w, w] | the correction applied once, mapping OpenGL's -w..w onto wgpu's 0..w | not executed | Uniforms.UpdateViewProjectionAsWritten | Uniforms.UpdateViewProjection |
