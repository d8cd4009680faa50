/** Byte layout of `#[repr(C)]` records built from 4-byte scalars: each
    field starts where the previous one ends. */
module Layout {

  /** The sum of the field sizes. */
  function Total(sizes: seq<nat>): nat
  {
    if |sizes| == 0 then 0 else Total(sizes[..|sizes| - 1]) + sizes[|sizes| - 1]
  }

  /** The byte offsets of fields laid out one after the other from
      `start`: each field is placed, then the cursor moves past it. */
  function OffsetsFrom(start: nat, sizes: seq<nat>): (r: seq<nat>)
    ensures |r| == |sizes|
    decreases |sizes|
  {
    if |sizes| == 0 then [] else [start] + OffsetsFrom(start + sizes[0], sizes[1..])
  }

  /** Summing a field in front adds its size. */
  lemma {:induction false} TotalCons(a: nat, s: seq<nat>)
    ensures Total([a] + s) == a + Total(s)
    decreases |s|
  {
    if |s| > 0 {
      var init := s[..|s| - 1];
      assert ([a] + s)[..|[a] + s| - 1] == [a] + init;
      TotalCons(a, init);
    }
  }

  /** Laying fields out one after the other puts each field at `start`
      plus the sizes of the fields before it. */
  lemma {:induction false} OffsetsFromPrefixSums(start: nat, sizes: seq<nat>)
    ensures forall i :: 0 <= i < |sizes| ==> OffsetsFrom(start, sizes)[i] == start + Total(sizes[..i])
    decreases |sizes|
  {
    if |sizes| > 0 {
      var rest := sizes[1..];
      OffsetsFromPrefixSums(start + sizes[0], rest);
      forall i | 0 <= i < |sizes|
        ensures OffsetsFrom(start, sizes)[i] == start + Total(sizes[..i])
      {
        if i == 0 {
          assert sizes[..0] == [];
        } else {
          assert OffsetsFrom(start, sizes)[i] == OffsetsFrom(start + sizes[0], rest)[i - 1];
          assert sizes[..i] == [sizes[0]] + rest[..i - 1];
          TotalCons(sizes[0], rest[..i - 1]);
        }
      }
    }
  }

  /** The byte offset of each field of a record laid out from 0: the sizes
      of the fields before it, summed. */
  function Offsets(sizes: seq<nat>): (r: seq<nat>)
    ensures |r| == |sizes|
    ensures forall i :: 0 <= i < |r| ==> r[i] == Total(sizes[..i])
  {
    OffsetsFromPrefixSums(0, sizes);
    OffsetsFrom(0, sizes)
  }

  /** Field by field: the first field starts at 0, every next field starts
      right after the previous one, and the last ends at the total size. */
  lemma {:induction false} OffsetsContiguous(sizes: seq<nat>)
    requires |sizes| > 0
    ensures Offsets(sizes)[0] == 0
    ensures forall i :: 0 <= i < |sizes| - 1 ==> Offsets(sizes)[i + 1] == Offsets(sizes)[i] + sizes[i]
    ensures Offsets(sizes)[|sizes| - 1] + sizes[|sizes| - 1] == Total(sizes)
  {
    assert sizes[..0] == [];
    forall i | 0 <= i < |sizes| - 1
      ensures Offsets(sizes)[i + 1] == Offsets(sizes)[i] + sizes[i]
    {
      assert sizes[..i + 1][..i] == sizes[..i];
    }
    assert sizes[..|sizes|] == sizes;
  }
}
