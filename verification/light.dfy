/** `LightUniform`: the light's position and colour as uploaded to the
    shader, each three-float field followed by a 4-byte padding word so that
    the next field starts on a 16-byte boundary. */
module Lights {
  import opened Algebra
  import opened Layout

  /** The paddings are `u32` words the source never writes after `new`. */
  datatype LightUniform = LightUniform(position: Vec3, padding: nat, color: Vec3, padding2: nat)

  /** Both padding words are zero. */
  predicate Padded(l: LightUniform)
  {
    l.padding == 0 && l.padding2 == 0
  }

  /** `LightUniform::new`. */
  function New(position: Vec3, color: Vec3): (l: LightUniform)
    ensures l.position == position && l.color == color
    ensures Padded(l)
  {
    LightUniform(position, 0, color, 0)
  }

  /** `LightUniform::set_color`: replaces the colour and nothing else. */
  function SetColor(l: LightUniform, color: Vec3): (r: LightUniform)
    ensures r.color == color
    ensures r == l.(color := r.color)
    ensures Padded(l) ==> Padded(r)
  {
    l.(color := color)
  }

  /** `LightUniform::set_position_into`: replaces the position and nothing
      else. */
  function SetPositionInto(l: LightUniform, position: Vec3): (r: LightUniform)
    ensures r.position == position
    ensures r == l.(position := r.position)
    ensures Padded(l) ==> Padded(r)
  {
    l.(position := position)
  }

  /** The two setters touch disjoint fields, so their order does not
      matter, and setting the same colour twice is setting it once. */
  lemma SettersCommute(l: LightUniform, p: Vec3, c: Vec3)
    ensures SetColor(SetPositionInto(l, p), c) == SetPositionInto(SetColor(l, c), p)
    ensures SetColor(SetColor(l, c), c) == SetColor(l, c)
  {
  }

  /** The field sizes in bytes, in declaration order: position, padding,
      color, padding2. */
  const LightFieldSizes: seq<nat> := [12, 4, 12, 4]

  /** The fields sit at bytes 0, 12, 16 and 28 of a 32-byte record, so both
      three-float fields start on a 16-byte boundary; without the first
      padding word the colour would start at byte 12. */
  lemma LightLayout()
    ensures Offsets(LightFieldSizes) == [0, 12, 16, 28]
    ensures Total(LightFieldSizes) == 32
    ensures Offsets(LightFieldSizes)[0] % 16 == 0 && Offsets(LightFieldSizes)[2] % 16 == 0
    ensures Offsets([12, 12, 4])[1] % 16 != 0
  {
    OffsetsContiguous(LightFieldSizes);
    OffsetsContiguous([12, 12, 4]);
    var o := Offsets(LightFieldSizes);
    assert o[0] == 0 && o[1] == 12 && o[2] == 16 && o[3] == 28;
  }
}
