/** Real-valued stand-ins for the cgmath vector, matrix and quaternion types
    the renderer computes with. Matrices are stored by columns, as cgmath
    stores them. Everything polynomial is defined exactly; square roots,
    sines and cosines, `look_at_rh` and `perspective` are not polynomial and
    are supplied by the caller as an `Uninterpreted` record whose laws are
    stated by `Lawful`. */
module Algebra {

  datatype Vec3 = Vec3(x: real, y: real, z: real)

  datatype Vec4 = Vec4(x: real, y: real, z: real, w: real)

  /** A 3x3 matrix given by its columns. */
  datatype Mat3 = Mat3(c0: Vec3, c1: Vec3, c2: Vec3)

  /** A 4x4 matrix given by its columns. */
  datatype Mat4 = Mat4(c0: Vec4, c1: Vec4, c2: Vec4, c3: Vec4)

  /** The quaternion s + v.x i + v.y j + v.z k. */
  datatype Quat = Quat(s: real, v: Vec3)

  const Zero3: Vec3 := Vec3(0.0, 0.0, 0.0)
  const UnitX: Vec3 := Vec3(1.0, 0.0, 0.0)
  const UnitY: Vec3 := Vec3(0.0, 1.0, 0.0)
  const UnitZ: Vec3 := Vec3(0.0, 0.0, 1.0)

  function Abs(k: real): real
  {
    if k < 0.0 then -k else k
  }

  function Add(a: Vec3, b: Vec3): Vec3
  {
    Vec3(a.x + b.x, a.y + b.y, a.z + b.z)
  }

  function Sub(a: Vec3, b: Vec3): Vec3
  {
    Vec3(a.x - b.x, a.y - b.y, a.z - b.z)
  }

  function Scale(k: real, v: Vec3): Vec3
  {
    Vec3(k * v.x, k * v.y, k * v.z)
  }

  function Dot(a: Vec3, b: Vec3): real
  {
    a.x * b.x + a.y * b.y + a.z * b.z
  }

  function Cross(a: Vec3, b: Vec3): Vec3
  {
    Vec3(a.y * b.z - a.z * b.y, a.z * b.x - a.x * b.z, a.x * b.y - a.y * b.x)
  }

  /** `Point3::to_homogeneous`: the point with w = 1. */
  function Homogeneous(p: Vec3): Vec4
  {
    Vec4(p.x, p.y, p.z, 1.0)
  }

  function Add4(a: Vec4, b: Vec4): Vec4
  {
    Vec4(a.x + b.x, a.y + b.y, a.z + b.z, a.w + b.w)
  }

  function Scale4(k: real, v: Vec4): Vec4
  {
    Vec4(k * v.x, k * v.y, k * v.z, k * v.w)
  }

  /** m * v: the combination of m's columns weighted by v's components. */
  function MulVec4(m: Mat4, v: Vec4): Vec4
  {
    Add4(Add4(Scale4(v.x, m.c0), Scale4(v.y, m.c1)), Add4(Scale4(v.z, m.c2), Scale4(v.w, m.c3)))
  }

  /** a * b: column j of the product is a applied to column j of b. */
  function Mul4(a: Mat4, b: Mat4): Mat4
  {
    Mat4(MulVec4(a, b.c0), MulVec4(a, b.c1), MulVec4(a, b.c2), MulVec4(a, b.c3))
  }

  function MulVec3(m: Mat3, v: Vec3): Vec3
  {
    Add(Add(Scale(v.x, m.c0), Scale(v.y, m.c1)), Scale(v.z, m.c2))
  }

  const Identity3: Mat3 := Mat3(UnitX, UnitY, UnitZ)

  const Identity4: Mat4 :=
    Mat4(Vec4(1.0, 0.0, 0.0, 0.0), Vec4(0.0, 1.0, 0.0, 0.0), Vec4(0.0, 0.0, 1.0, 0.0), Vec4(0.0, 0.0, 0.0, 1.0))

  /** `Matrix4::from_translation`. */
  function Translation(t: Vec3): Mat4
  {
    Mat4(Vec4(1.0, 0.0, 0.0, 0.0), Vec4(0.0, 1.0, 0.0, 0.0), Vec4(0.0, 0.0, 1.0, 0.0), Homogeneous(t))
  }

  /** The upper-left 3x3 block of a 4x4 matrix. */
  function Upper3(m: Mat4): Mat3
  {
    Mat3(Vec3(m.c0.x, m.c0.y, m.c0.z), Vec3(m.c1.x, m.c1.y, m.c1.z), Vec3(m.c2.x, m.c2.y, m.c2.z))
  }

  const IdentityQuat: Quat := Quat(1.0, Zero3)

  /** `Matrix3::from(Quaternion)`: the rotation matrix of a quaternion,
      written with cgmath's doubled products. */
  function QuatToMat3(q: Quat): Mat3
  {
    var x2 := q.v.x + q.v.x;
    var y2 := q.v.y + q.v.y;
    var z2 := q.v.z + q.v.z;
    var xx2 := x2 * q.v.x;
    var xy2 := x2 * q.v.y;
    var xz2 := x2 * q.v.z;
    var yy2 := y2 * q.v.y;
    var yz2 := y2 * q.v.z;
    var zz2 := z2 * q.v.z;
    var sy2 := y2 * q.s;
    var sz2 := z2 * q.s;
    var sx2 := x2 * q.s;
    Mat3(
      Vec3(1.0 - yy2 - zz2, xy2 + sz2, xz2 - sy2),
      Vec3(xy2 - sz2, 1.0 - xx2 - zz2, yz2 + sx2),
      Vec3(xz2 + sy2, yz2 - sx2, 1.0 - xx2 - yy2))
  }

  /** `Matrix4::from(Quaternion)`: the same rotation with w passed through. */
  function QuatToMat4(q: Quat): (m: Mat4)
    ensures Upper3(m) == QuatToMat3(q)
    ensures m.c3 == Vec4(0.0, 0.0, 0.0, 1.0)
    ensures m.c0.w == 0.0 && m.c1.w == 0.0 && m.c2.w == 0.0
  {
    var r := QuatToMat3(q);
    Mat4(Vec4(r.c0.x, r.c0.y, r.c0.z, 0.0), Vec4(r.c1.x, r.c1.y, r.c1.z, 0.0),
         Vec4(r.c2.x, r.c2.y, r.c2.z, 0.0), Vec4(0.0, 0.0, 0.0, 1.0))
  }

  /** `Quaternion * Vector3` (cgmath's `rotate_vector`):
      v + 2 q.v x (q.v x v + s v). */
  function Rotate(q: Quat, v: Vec3): Vec3
  {
    var tmp := Add(Cross(q.v, v), Scale(q.s, v));
    Add(Scale(2.0, Cross(q.v, tmp)), v)
  }

  /** The operations the model does not interpret: the Euclidean length (a
      square root), sine and cosine of an angle in degrees, and cgmath's
      `look_at_rh` and `perspective` (fov in degrees, aspect, near, far). */
  datatype Uninterpreted = Uninterpreted(
    magnitude: Vec3 -> real,
    sinDeg: real -> real,
    cosDeg: real -> real,
    lookAtRh: (Vec3, Vec3, Vec3) -> Mat4,
    perspective: (real, real, real, real) -> Mat4)

  /** The laws the model relies on everywhere: the magnitude is zero
      exactly at the zero vector and positive elsewhere, and sine and cosine
      of angle 0 are 0 and 1. */
  ghost predicate Lawful(u: Uninterpreted)
  {
    && (forall v :: u.magnitude(v) == 0.0 <==> v == Zero3)
    && (forall v :: v != Zero3 ==> 0.0 < u.magnitude(v))
    && u.sinDeg(0.0) == 0.0
    && u.cosDeg(0.0) == 1.0
  }

  /** The magnitude is homogeneous: scaling a vector by k scales its length
      by |k|. Only the statements about distances rely on it. */
  ghost predicate NormScales(u: Uninterpreted)
  {
    forall k, v :: u.magnitude(Scale(k, v)) == Abs(k) * u.magnitude(v)
  }

  /** `InnerSpace::normalize`. The source divides by the length and yields
      NaN components for the zero vector; the model returns the zero vector
      there, so every result still satisfies length * result == input. */
  function Normalize(u: Uninterpreted, v: Vec3): (r: Vec3)
    requires Lawful(u)
    ensures Scale(u.magnitude(v), r) == v
    ensures v == Zero3 <==> r == Zero3
  {
    var m := u.magnitude(v);
    if m == 0.0 then Zero3
    else
      var k := 1.0 / m;
      assert m * k == 1.0;
      Scale(k, v)
  }

  /** A non-zero vector normalises to unit length. */
  lemma NormalizeUnit(u: Uninterpreted, v: Vec3)
    requires Lawful(u) && NormScales(u) && v != Zero3
    ensures u.magnitude(Normalize(u, v)) == 1.0
  {
    var m := u.magnitude(v);
    var k := 1.0 / m;
    assert m * k == 1.0;
    assert u.magnitude(Scale(k, v)) == Abs(k) * m;
  }

  /** `Quaternion::from_axis_angle(axis, Deg(angle))`: cos and sin of the
      half angle, the sine scaling the axis. */
  function FromAxisAngle(u: Uninterpreted, axis: Vec3, angle: real): (q: Quat)
    requires Lawful(u)
    ensures angle == 0.0 ==> q == IdentityQuat
  {
    var half := angle / 2.0;
    Quat(u.cosDeg(half), Scale(u.sinDeg(half), axis))
  }

  /** The vector part of an axis-angle quaternion is parallel to the
      axis. */
  lemma AxisAngleParallel(u: Uninterpreted, axis: Vec3, angle: real)
    requires Lawful(u)
    ensures Cross(FromAxisAngle(u, axis, angle).v, axis) == Zero3
  {
    CrossScaledSelf(u.sinDeg(angle / 2.0), axis);
  }

  /** A multiple of a vector is parallel to it. */
  lemma CrossScaledSelf(k: real, a: Vec3)
    ensures Cross(Scale(k, a), a) == Zero3
  {
    assert (k * a.y) * a.z == k * (a.y * a.z) && (k * a.z) * a.y == k * (a.y * a.z);
    assert (k * a.z) * a.x == k * (a.x * a.z) && (k * a.x) * a.z == k * (a.x * a.z);
    assert (k * a.x) * a.y == k * (a.x * a.y) && (k * a.y) * a.x == k * (a.x * a.y);
  }
}
