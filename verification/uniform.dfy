/** `CameraUniform`: the GPU-visible snapshot of the camera, the eye as a
    homogeneous point and the view-projection matrix. The source applies the
    depth correction a second time when it stores the matrix;
    `UpdateViewProjectionAsWritten` models that, and `UpdateViewProjection`
    stores the matrix with the correction applied once, as the camera
    already builds it. */
module Uniforms {
  import opened Algebra
  import opened Cameras

  datatype CameraUniform = CameraUniform(viewPosition: Vec4, viewProjection: Mat4)

  /** `CameraUniform::new`. */
  function New(): (r: CameraUniform)
    ensures r.viewPosition == Vec4(0.0, 0.0, 0.0, 0.0)
    ensures r.viewProjection == Identity4
    ensures forall v :: MulVec4(r.viewProjection, v) == v
  {
    CameraUniform(Vec4(0.0, 0.0, 0.0, 0.0), Identity4)
  }

  /** `update_view_projection_matrix` with the correction applied once.
      Both fields are overwritten from the camera alone: the result is the
      same whatever uniform it is applied to. */
  function UpdateViewProjection(cu: CameraUniform, c: Camera, u: Uninterpreted): (r: CameraUniform)
    ensures r.viewPosition == Vec4(c.eye.x, c.eye.y, c.eye.z, 1.0)
    ensures r.viewProjection == BuildViewProjection(c, u)
  {
    CameraUniform(Homogeneous(c.eye), BuildViewProjection(c, u))
  }

  /** `update_view_projection_matrix` as written: the camera's matrix,
      which already carries the correction, is multiplied by the correction
      again, so every column is corrected twice. */
  function UpdateViewProjectionAsWritten(cu: CameraUniform, c: Camera, u: Uninterpreted): (r: CameraUniform)
    ensures r.viewPosition == Vec4(c.eye.x, c.eye.y, c.eye.z, 1.0)
    ensures var m := BuildViewProjection(c, u);
            r.viewProjection == Mat4(DepthCorrect(m.c0), DepthCorrect(m.c1), DepthCorrect(m.c2), DepthCorrect(m.c3))
  {
    CorrectionOnMatrix(BuildViewProjection(c, u));
    CameraUniform(Homogeneous(c.eye), Mul4(OpenGlToWgpu, BuildViewProjection(c, u)))
  }

  /** `From<&Camera> for CameraUniform`: a fresh uniform, updated once. */
  function FromCamera(c: Camera, u: Uninterpreted): (r: CameraUniform)
    ensures r.viewPosition == Homogeneous(c.eye)
    ensures r.viewProjection == BuildViewProjection(c, u)
  {
    UpdateViewProjection(New(), c, u)
  }

  /** `From<&Camera> for CameraUniform` as written: a fresh uniform,
      updated once by the as-written update, so its matrix is the one
      `FromCamera` stores with the correction applied again. */
  function FromCameraAsWritten(c: Camera, u: Uninterpreted): (r: CameraUniform)
    ensures r.viewPosition == FromCamera(c, u).viewPosition
    ensures r.viewProjection == Mul4(OpenGlToWgpu, FromCamera(c, u).viewProjection)
  {
    UpdateViewProjectionAsWritten(New(), c, u)
  }

  /** The update overwrites both fields: its result does not depend on the
      uniform it is applied to, so it equals the uniform built from the
      camera, and updating twice from one camera is updating once. */
  lemma UpdateOverwrites(cu: CameraUniform, other: CameraUniform, c: Camera, u: Uninterpreted)
    ensures UpdateViewProjection(cu, c, u) == UpdateViewProjection(other, c, u) == FromCamera(c, u)
    ensures UpdateViewProjection(UpdateViewProjection(cu, c, u), c, u) == UpdateViewProjection(cu, c, u)
  {
  }

  /** The doubled correction maps a clip-space point on the near plane
      (z = -w) to depth 0.5 w where the single correction maps it to 0: the
      stored matrix squeezes OpenGL's depth range into [0.5, 1] instead of
      [0, 1]. */
  lemma DoubleCorrectionShiftsNearPlane(p: Vec4)
    requires 0.0 < p.w && p.z == -p.w
    ensures DepthCorrect(p).z == 0.0
    ensures DepthCorrect(DepthCorrect(p)).z == 0.5 * p.w
  {
  }

  /** For every camera, the as-written uniform stores the single-correction
      matrix corrected once more, and a view column the projection puts on
      the near plane lands at depth w/2 instead of 0. */
  lemma AsWrittenCorrectsTwice(cu: CameraUniform, c: Camera, u: Uninterpreted)
    ensures UpdateViewProjectionAsWritten(cu, c, u).viewPosition == UpdateViewProjection(cu, c, u).viewPosition
    ensures UpdateViewProjectionAsWritten(cu, c, u).viewProjection
         == Mul4(OpenGlToWgpu, UpdateViewProjection(cu, c, u).viewProjection)
    ensures var p := MulVec4(u.perspective(c.fovY, c.aspect, c.zNear, c.zFar), u.lookAtRh(c.eye, c.target, c.up).c0);
            0.0 < p.w && p.z == -p.w ==>
              && UpdateViewProjection(cu, c, u).viewProjection.c0.z == 0.0
              && UpdateViewProjectionAsWritten(cu, c, u).viewProjection.c0.z == 0.5 * p.w
  {
  }
}
