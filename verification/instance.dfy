/** `Instance` (a model's placement: a position and a rotation) and
    `InstanceRaw`, the per-instance record uploaded to the GPU together with
    the vertex-buffer layout that tells the shader where its fields are. */
module Instances {
  import opened Algebra
  import opened Layout

  datatype VertexFormat = Float32x3 | Float32x4

  datatype VertexStepMode = PerVertex | PerInstance

  /** `wgpu::VertexAttribute`: where an attribute starts within one record,
      which shader location reads it and its format. */
  datatype VertexAttribute = VertexAttribute(offset: nat, shaderLocation: nat, format: VertexFormat)

  /** `wgpu::VertexBufferLayout`. */
  datatype VertexBufferLayout = VertexBufferLayout(arrayStride: nat, stepMode: VertexStepMode, attributes: seq<VertexAttribute>)

  /** The bytes a format occupies. */
  function FormatSize(f: VertexFormat): nat
  {
    match f
    case Float32x3 => 12
    case Float32x4 => 16
  }

  /** The number of floats a format reads. */
  function Components(f: VertexFormat): nat
  {
    match f
    case Float32x3 => 3
    case Float32x4 => 4
  }

  /** `size_of::<[f32; n]>()`. */
  function SizeOfFloats(n: nat): nat
  {
    4 * n
  }

  /** `InstanceRaw`: the object matrix and the normal matrix, both by
      columns. */
  datatype InstanceRaw = InstanceRaw(objectMatrix: Mat4, normal: Mat3)

  /** `size_of::<InstanceRaw>()`: sixteen floats then nine, no padding. */
  const InstanceRawSize: nat := SizeOfFloats(16 + 9)

  /** The formats of the seven attributes, in order. */
  function AttributeFormats(layout: VertexBufferLayout): seq<nat>
  {
    seq(|layout.attributes|, i requires 0 <= i < |layout.attributes| => FormatSize(layout.attributes[i].format))
  }

  /** `InstanceRaw::get_buffer_layout`: four `Float32x4` attributes for the
      object matrix's columns at shader locations 5 to 8, then three
      `Float32x3` attributes for the normal matrix's columns at 9 to 11,
      stepped once per instance. Each attribute starts where the previous
      one ends and the last ends at the record's size. */
  function GetBufferLayout(): (l: VertexBufferLayout)
    ensures l.stepMode == PerInstance
    ensures |l.attributes| == 7
    ensures forall i :: 0 <= i < 7 ==> l.attributes[i].shaderLocation == 5 + i
    ensures forall i :: 0 <= i < 7 ==> l.attributes[i].format == (if i < 4 then Float32x4 else Float32x3)
    ensures forall i :: 0 <= i < 7 ==> l.attributes[i].offset == Offsets(AttributeFormats(l))[i]
    ensures l.arrayStride == Total(AttributeFormats(l)) == InstanceRawSize == 100
  {
    var l := VertexBufferLayout(
      SizeOfFloats(16 + 9),
      PerInstance,
      [ VertexAttribute(0, 5, Float32x4),
        VertexAttribute(SizeOfFloats(4), 6, Float32x4),
        VertexAttribute(SizeOfFloats(8), 7, Float32x4),
        VertexAttribute(SizeOfFloats(12), 8, Float32x4),
        VertexAttribute(SizeOfFloats(16), 9, Float32x3),
        VertexAttribute(SizeOfFloats(19), 10, Float32x3),
        VertexAttribute(SizeOfFloats(22), 11, Float32x3) ]);
    var sizes := AttributeFormats(l);
    assert sizes == [16, 16, 16, 16, 12, 12, 12];
    OffsetsContiguous(sizes);
    var o := Offsets(sizes);
    assert o[0] == 0 && o[1] == 16 && o[2] == 32 && o[3] == 48 && o[4] == 64 && o[5] == 76 && o[6] == 88;
    l
  }

  /** The record as the floats the GPU sees, in memory order: the object
      matrix column by column, then the normal matrix column by column. */
  function Flatten(raw: InstanceRaw): (r: seq<real>)
    ensures |r| == 16 + 9
  {
    var o := raw.objectMatrix;
    var n := raw.normal;
    [ o.c0.x, o.c0.y, o.c0.z, o.c0.w, o.c1.x, o.c1.y, o.c1.z, o.c1.w,
      o.c2.x, o.c2.y, o.c2.z, o.c2.w, o.c3.x, o.c3.y, o.c3.z, o.c3.w,
      n.c0.x, n.c0.y, n.c0.z, n.c1.x, n.c1.y, n.c1.z, n.c2.x, n.c2.y, n.c2.z ]
  }

  /** The floats an attribute reads from a record. */
  function Read(raw: InstanceRaw, a: VertexAttribute): seq<real>
    requires a.offset % 4 == 0 && a.offset / 4 + Components(a.format) <= 16 + 9
  {
    Flatten(raw)[a.offset / 4 .. a.offset / 4 + Components(a.format)]
  }

  function Vec4Floats(v: Vec4): seq<real> { [v.x, v.y, v.z, v.w] }

  function Vec3Floats(v: Vec3): seq<real> { [v.x, v.y, v.z] }

  /** Every attribute of the layout reads whole floats from inside the
      record, and shader locations 5 to 8 see exactly the object matrix's
      columns and 9 to 11 exactly the normal matrix's. */
  lemma LayoutReadsColumns(raw: InstanceRaw)
    ensures var l := GetBufferLayout();
            && (forall i :: 0 <= i < 7 ==> l.attributes[i].offset % 4 == 0 && l.attributes[i].offset / 4 + Components(l.attributes[i].format) <= 16 + 9)
            && Read(raw, l.attributes[0]) == Vec4Floats(raw.objectMatrix.c0)
            && Read(raw, l.attributes[1]) == Vec4Floats(raw.objectMatrix.c1)
            && Read(raw, l.attributes[2]) == Vec4Floats(raw.objectMatrix.c2)
            && Read(raw, l.attributes[3]) == Vec4Floats(raw.objectMatrix.c3)
            && Read(raw, l.attributes[4]) == Vec3Floats(raw.normal.c0)
            && Read(raw, l.attributes[5]) == Vec3Floats(raw.normal.c1)
            && Read(raw, l.attributes[6]) == Vec3Floats(raw.normal.c2)
  {
    var l := GetBufferLayout();
    var f := Flatten(raw);
    assert l.attributes[1].offset / 4 == 4 && l.attributes[2].offset / 4 == 8 && l.attributes[3].offset / 4 == 12;
    assert l.attributes[4].offset / 4 == 16 && l.attributes[5].offset / 4 == 19 && l.attributes[6].offset / 4 == 22;
    assert f[0..4] == Vec4Floats(raw.objectMatrix.c0);
    assert f[4..8] == Vec4Floats(raw.objectMatrix.c1);
    assert f[8..12] == Vec4Floats(raw.objectMatrix.c2);
    assert f[12..16] == Vec4Floats(raw.objectMatrix.c3);
    assert f[16..19] == Vec3Floats(raw.normal.c0);
    assert f[19..22] == Vec3Floats(raw.normal.c1);
    assert f[22..25] == Vec3Floats(raw.normal.c2);
  }

  datatype Instance = Instance(position: Vec3, rotation: Quat)

  /** `Instance::new`. */
  function New(position: Vec3, rotation: Quat): (i: Instance)
    ensures i.position == position && i.rotation == rotation
  {
    Instance(position, rotation)
  }

  /** `Instance::default`: at the origin, turned by zero degrees about Z,
      which is the identity rotation. */
  function Default(u: Uninterpreted): (i: Instance)
    requires Lawful(u)
    ensures i.position == Zero3 && i.rotation == IdentityQuat
  {
    Instance(Zero3, FromAxisAngle(u, UnitZ, 0.0))
  }

  /** `InstanceRaw::from(&Instance)`: the object matrix is the translation
      times the rotation; the normal matrix is the rotation alone. */
  function FromInstance(i: Instance): (raw: InstanceRaw)
    ensures raw.objectMatrix.c3 == Homogeneous(i.position)
    ensures Upper3(raw.objectMatrix) == raw.normal == QuatToMat3(i.rotation)
    ensures raw.objectMatrix.c0.w == 0.0 && raw.objectMatrix.c1.w == 0.0 && raw.objectMatrix.c2.w == 0.0
  {
    var r := QuatToMat4(i.rotation);
    InstanceRaw(Mat4(r.c0, r.c1, r.c2, Homogeneous(i.position)), QuatToMat3(i.rotation))
  }

  /** The object matrix is the source's product: the translation to the
      position times the rotation matrix. */
  lemma ObjectMatrixIsProduct(i: Instance)
    ensures FromInstance(i).objectMatrix == Mul4(Translation(i.position), QuatToMat4(i.rotation))
  {
    TranslationTimesLinear(i.position, QuatToMat4(i.rotation));
  }

  /** A translation leaves a direction (w = 0) unchanged. */
  lemma TranslationFixesDirections(p: Vec3, v: Vec4)
    requires v.w == 0.0
    ensures MulVec4(Translation(p), v) == v
  {
    var t := Translation(p);
    assert Scale4(v.w, t.c3) == Vec4(0.0, 0.0, 0.0, 0.0);
    assert Scale4(v.x, t.c0) == Vec4(v.x, 0.0, 0.0, 0.0);
    assert Scale4(v.y, t.c1) == Vec4(0.0, v.y, 0.0, 0.0);
    assert Scale4(v.z, t.c2) == Vec4(0.0, 0.0, v.z, 0.0);
  }

  /** Translating after a map that fixes w and the origin keeps that map's
      linear part and puts the translation in the last column. */
  lemma TranslationTimesLinear(p: Vec3, r: Mat4)
    requires r.c3 == Vec4(0.0, 0.0, 0.0, 1.0)
    requires r.c0.w == 0.0 && r.c1.w == 0.0 && r.c2.w == 0.0
    ensures Mul4(Translation(p), r) == Mat4(r.c0, r.c1, r.c2, Homogeneous(p))
  {
    var t := Translation(p);
    TranslationFixesDirections(p, r.c0);
    TranslationFixesDirections(p, r.c1);
    TranslationFixesDirections(p, r.c2);
    TranslationMovesOrigin(p);
    assert Mul4(t, r) == Mat4(MulVec4(t, r.c0), MulVec4(t, r.c1), MulVec4(t, r.c2), MulVec4(t, r.c3));
  }

  /** A translation takes the origin to its offset. */
  lemma TranslationMovesOrigin(p: Vec3)
    ensures MulVec4(Translation(p), Vec4(0.0, 0.0, 0.0, 1.0)) == Homogeneous(p)
  {
    var t := Translation(p);
    assert Scale4(1.0, t.c3) == t.c3;
    assert Scale4(0.0, t.c0) == Vec4(0.0, 0.0, 0.0, 0.0);
    assert Scale4(0.0, t.c1) == Vec4(0.0, 0.0, 0.0, 0.0);
    assert Scale4(0.0, t.c2) == Vec4(0.0, 0.0, 0.0, 0.0);
  }

  /** A rotation with zero vector part, the identity among them, gives the
      identity normal matrix and a pure translation as the object matrix. */
  lemma IdentityRotationIsTranslation(p: Vec3, s: real)
    ensures FromInstance(New(p, Quat(s, Zero3))).normal == Identity3
    ensures FromInstance(New(p, Quat(s, Zero3))).objectMatrix == Translation(p)
  {
    ScalarQuatIsIdentity(s);
  }

  /** The rotation matrices of a quaternion with zero vector part. */
  lemma ScalarQuatIsIdentity(s: real)
    ensures QuatToMat3(Quat(s, Zero3)) == Identity3
    ensures QuatToMat4(Quat(s, Zero3)).c0 == Vec4(1.0, 0.0, 0.0, 0.0)
    ensures QuatToMat4(Quat(s, Zero3)).c1 == Vec4(0.0, 1.0, 0.0, 0.0)
    ensures QuatToMat4(Quat(s, Zero3)).c2 == Vec4(0.0, 0.0, 1.0, 0.0)
  {
  }

  /** The default instance sits at the origin with both matrices the
      identity. */
  lemma DefaultIsIdentity(u: Uninterpreted)
    requires Lawful(u)
    ensures FromInstance(Default(u)).normal == Identity3
    ensures FromInstance(Default(u)).objectMatrix == Identity4
  {
    IdentityRotationIsTranslation(Zero3, 1.0);
  }

  /** The object matrix moves the origin to the instance's position. */
  lemma ObjectPlacesOrigin(i: Instance)
    ensures MulVec4(FromInstance(i).objectMatrix, Vec4(0.0, 0.0, 0.0, 1.0)) == Homogeneous(i.position)
  {
    var m := FromInstance(i).objectMatrix;
    assert Scale4(0.0, m.c0) == Vec4(0.0, 0.0, 0.0, 0.0);
    assert Scale4(0.0, m.c1) == Vec4(0.0, 0.0, 0.0, 0.0);
    assert Scale4(0.0, m.c2) == Vec4(0.0, 0.0, 0.0, 0.0);
    assert Scale4(1.0, m.c3) == m.c3;
  }
}
