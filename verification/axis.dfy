/** `Axis`: the three world axes a camera's up direction can be set to. */
module Axes {
  import opened Algebra

  datatype Axis = X | Y | Z

  /** `Axis::to_vector3`: the unit basis vector along the axis. */
  function ToVector3(a: Axis): (v: Vec3)
    ensures v.x + v.y + v.z == 1.0
    ensures (v.x != 0.0 <==> a == X) && (v.y != 0.0 <==> a == Y) && (v.z != 0.0 <==> a == Z)
  {
    match a
    case X => UnitX
    case Y => UnitY
    case Z => UnitZ
  }

  /** The vector of each axis has unit length. */
  lemma AxisUnitLength(a: Axis)
    ensures Dot(ToVector3(a), ToVector3(a)) == 1.0
  {
    match a
    case X => assert ToVector3(X) == Vec3(1.0, 0.0, 0.0);
    case Y => assert ToVector3(Y) == Vec3(0.0, 1.0, 0.0);
    case Z => assert ToVector3(Z) == Vec3(0.0, 0.0, 1.0);
  }

  /** Distinct axes give distinct vectors, and those vectors are
      orthogonal. */
  lemma AxesOrthogonal(a: Axis, b: Axis)
    ensures ToVector3(a) == ToVector3(b) <==> a == b
    ensures a != b ==> Dot(ToVector3(a), ToVector3(b)) == 0.0
  {
    if ToVector3(a) == ToVector3(b) {
      assert (a == X <==> b == X) && (a == Y <==> b == Y);
    }
    match a
    case X => assert ToVector3(X) == Vec3(1.0, 0.0, 0.0);
    case Y => assert ToVector3(Y) == Vec3(0.0, 1.0, 0.0);
    case Z => assert ToVector3(Z) == Vec3(0.0, 0.0, 1.0);
  }
}
