/** Byte strings, their concatenation, and the big-endian integers of the wire formats. */
module Bytes {

  type Byte = x: int | 0 <= x < 0x100

  type U16 = x: int | 0 <= x < 0x1_0000

  type U24 = x: int | 0 <= x < 0x100_0000

  type U48 = x: int | 0 <= x < 0x1_0000_0000_0000

  type Bytes = seq<Byte>

  function EncodeU16(v: U16): (s: Bytes)
    ensures |s| == 2 && ReadU16(s, 0) == v
  {
    [v / 0x100, v % 0x100]
  }

  function ReadU16(s: Bytes, at: nat): U16
    requires at + 2 <= |s|
  {
    s[at] as int * 0x100 + s[at + 1] as int
  }

  function EncodeU24(v: U24): (s: Bytes)
    ensures |s| == 3 && ReadU24(s, 0) == v
  {
    [v / 0x1_0000, v / 0x100 % 0x100, v % 0x100]
  }

  function ReadU24(s: Bytes, at: nat): U24
    requires at + 3 <= |s|
  {
    s[at] as int * 0x1_0000 + s[at + 1] as int * 0x100 + s[at + 2] as int
  }

  function EncodeU48(v: U48): (s: Bytes)
    ensures |s| == 6 && ReadU48(s, 0) == v
  {
    var s := EncodeU24(v / 0x100_0000) + EncodeU24(v % 0x100_0000);
    assert ReadU24(s, 0) == ReadU24(EncodeU24(v / 0x100_0000), 0);
    assert ReadU24(s, 3) == ReadU24(EncodeU24(v % 0x100_0000), 0);
    s
  }

  function ReadU48(s: Bytes, at: nat): U48
    requires at + 6 <= |s|
  {
    ReadU24(s, at) * 0x100_0000 + ReadU24(s, at + 3)
  }

  /** Everything in `parts`, one after the other. */
  function Flatten<T>(parts: seq<seq<T>>): seq<T> {
    if parts == [] then [] else parts[0] + Flatten(parts[1..])
  }

  lemma {:induction false} FlattenAppend<T>(a: seq<seq<T>>, b: seq<seq<T>>)
    ensures Flatten(a + b) == Flatten(a) + Flatten(b)
  {
    if a == [] {
      assert a + b == b;
    } else {
      assert (a + b)[1..] == a[1..] + b;
      FlattenAppend(a[1..], b);
    }
  }

  lemma FlattenOne<T>(part: seq<T>)
    ensures Flatten([part]) == part
  {
  }

  lemma FlattenSnoc<T>(a: seq<seq<T>>, part: seq<T>)
    ensures Flatten(a + [part]) == Flatten(a) + part
  {
    FlattenAppend(a, [part]);
    FlattenOne(part);
  }

  lemma FlattenCons<T>(part: seq<T>, b: seq<seq<T>>)
    ensures Flatten([part] + b) == part + Flatten(b)
  {
  }
}
