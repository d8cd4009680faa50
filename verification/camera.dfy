/** `Camera`: the viewpoint and projection parameters, and the combined
    view-projection matrix with its depth-range correction. */
module Cameras {
  import opened Algebra
  import opened Axes

  datatype Camera = Camera(eye: Vec3, target: Vec3, up: Vec3, aspect: real, fovY: real, zNear: real, zFar: real)

  const EyeDefault: Vec3 := Vec3(0.0, 1.0, 2.0)
  const TargetDefault: Vec3 := Zero3
  const UpAxisDefault: Axis := Y
  const AspectDefault: real := 16.0 / 9.0
  const FieldOfViewYDefault: real := 45.0
  const ZNearDefault: real := 0.1
  const ZFarDefault: real := 100.0

  /** The camera invariant: a positive aspect ratio, and near and far planes
      both positive with near in front of far. */
  predicate Valid(c: Camera)
  {
    0.0 < c.aspect && 0.0 < c.zNear < c.zFar
  }

  /** `Camera::default`. */
  function Default(): (c: Camera)
    ensures Valid(c)
    ensures c.eye == Vec3(0.0, 1.0, 2.0) && c.target == Zero3 && c.up == UnitY
    ensures c.aspect == 16.0 / 9.0 && c.fovY == 45.0 && c.zNear == 0.1 && c.zFar == 100.0
    ensures c.eye != c.target
  {
    Camera(EyeDefault, TargetDefault, ToVector3(UpAxisDefault), AspectDefault,
           FieldOfViewYDefault, ZNearDefault, ZFarDefault)
  }

  /** `Camera::set_aspect`. The source divides in f32 and leaves a zero
      height to its caller. */
  function SetAspect(c: Camera, width: real, height: real): (r: Camera)
    requires height != 0.0
    ensures r.aspect * height == width
    ensures r == c.(aspect := r.aspect)
    ensures Valid(c) && 0.0 < width && 0.0 < height ==> Valid(r)
  {
    c.(aspect := width / height)
  }

  /** `Camera::set_up_axis`. */
  function SetUpAxis(c: Camera, axis: Axis): (r: Camera)
    ensures r.up == ToVector3(axis)
    ensures r == c.(up := r.up)
    ensures Valid(c) ==> Valid(r)
  {
    c.(up := ToVector3(axis))
  }

  /** `Camera::translate`: moves the eye by `t`. */
  function Translate(c: Camera, t: Vec3): (r: Camera)
    ensures Sub(r.eye, c.eye) == t
    ensures r == c.(eye := r.eye)
    ensures Valid(c) ==> Valid(r)
  {
    c.(eye := Add(c.eye, t))
  }

  /** Two translations compose into one by the sum of their offsets. */
  lemma TranslateComposes(c: Camera, a: Vec3, b: Vec3)
    ensures Translate(Translate(c, a), b) == Translate(c, Add(a, b))
  {
  }

  /** `OPENGL_TO_WGPU_MATRIX`, by columns. */
  const OpenGlToWgpu: Mat4 :=
    Mat4(Vec4(1.0, 0.0, 0.0, 0.0), Vec4(0.0, 1.0, 0.0, 0.0), Vec4(0.0, 0.0, 0.5, 0.0), Vec4(0.0, 0.0, 0.5, 1.0))

  /** What the correction does to a clip-space vector: x, y and w are kept
      and z becomes (z + w) / 2. */
  function DepthCorrect(v: Vec4): Vec4
  {
    Vec4(v.x, v.y, 0.5 * v.z + 0.5 * v.w, v.w)
  }

  /** Multiplying a vector by the correction matrix is `DepthCorrect`. */
  lemma CorrectionOnVector(v: Vec4)
    ensures MulVec4(OpenGlToWgpu, v) == DepthCorrect(v)
  {
    var c := OpenGlToWgpu;
    assert Scale4(v.x, c.c0) == Vec4(v.x, 0.0, 0.0, 0.0);
    assert Scale4(v.y, c.c1) == Vec4(0.0, v.y, 0.0, 0.0);
    assert Scale4(v.z, c.c2) == Vec4(0.0, 0.0, 0.5 * v.z, 0.0);
    assert Scale4(v.w, c.c3) == Vec4(0.0, 0.0, 0.5 * v.w, v.w);
  }

  /** Multiplying a matrix by the correction matrix corrects each column. */
  lemma CorrectionOnMatrix(m: Mat4)
    ensures Mul4(OpenGlToWgpu, m) == Mat4(DepthCorrect(m.c0), DepthCorrect(m.c1), DepthCorrect(m.c2), DepthCorrect(m.c3))
  {
    CorrectionOnVector(m.c0);
    CorrectionOnVector(m.c1);
    CorrectionOnVector(m.c2);
    CorrectionOnVector(m.c3);
  }

  /** The correction is linear, so correcting a matrix and then applying it
      to v is applying it and then correcting. */
  lemma CorrectionActs(m: Mat4, v: Vec4)
    ensures MulVec4(Mul4(OpenGlToWgpu, m), v) == DepthCorrect(MulVec4(m, v))
  {
    CorrectionOnMatrix(m);
  }

  /** The correction maps OpenGL's clip depth range -w <= z <= w onto the
      range 0 <= z <= w that wgpu expects, the near plane to 0 and the far
      plane to w. */
  lemma DepthCorrectRemapsRange(v: Vec4)
    requires 0.0 < v.w && -v.w <= v.z <= v.w
    ensures 0.0 <= DepthCorrect(v).z <= DepthCorrect(v).w
    ensures v.z == -v.w ==> DepthCorrect(v).z == 0.0
    ensures v.z == v.w ==> DepthCorrect(v).z == v.w
  {
  }

  /** `Camera::build_view_projection_matrix`: the correction, times the
      perspective projection, times the view matrix. Column j of the result
      is column j of the view matrix, projected, then depth-corrected. */
  function BuildViewProjection(c: Camera, u: Uninterpreted): (m: Mat4)
    ensures var v := u.lookAtRh(c.eye, c.target, c.up);
            var p := u.perspective(c.fovY, c.aspect, c.zNear, c.zFar);
            && m.c0 == DepthCorrect(MulVec4(p, v.c0))
            && m.c1 == DepthCorrect(MulVec4(p, v.c1))
            && m.c2 == DepthCorrect(MulVec4(p, v.c2))
            && m.c3 == DepthCorrect(MulVec4(p, v.c3))
  {
    var view := u.lookAtRh(c.eye, c.target, c.up);
    var projection := u.perspective(c.fovY, c.aspect, c.zNear, c.zFar);
    CorrectionActs(projection, view.c0);
    CorrectionActs(projection, view.c1);
    CorrectionActs(projection, view.c2);
    CorrectionActs(projection, view.c3);
    var m := Mul4(Mul4(OpenGlToWgpu, projection), view);
    assert m == Mat4(MulVec4(Mul4(OpenGlToWgpu, projection), view.c0), MulVec4(Mul4(OpenGlToWgpu, projection), view.c1),
                     MulVec4(Mul4(OpenGlToWgpu, projection), view.c2), MulVec4(Mul4(OpenGlToWgpu, projection), view.c3));
    m
  }
}
