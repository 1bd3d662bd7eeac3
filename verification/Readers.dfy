/** Sequential reads from a byte string: each returns the value and what is left to read. */
module Readers {
  import opened Wrappers
  import opened Bytes

  function TakeU8(s: Bytes): Result<(Byte, Bytes)> {
    if |s| < 1 then Err(UnexpectedEof) else Ok((s[0], s[1..]))
  }

  function TakeU16(s: Bytes): Result<(U16, Bytes)> {
    if |s| < 2 then Err(UnexpectedEof) else Ok((ReadU16(s, 0), s[2..]))
  }

  function TakeU24(s: Bytes): Result<(U24, Bytes)> {
    if |s| < 3 then Err(UnexpectedEof) else Ok((ReadU24(s, 0), s[3..]))
  }

  function TakeBytes(s: Bytes, n: nat): Result<(Bytes, Bytes)> {
    if |s| < n then Err(UnexpectedEof) else Ok((s[..n], s[n..]))
  }

  function TakeU16s(s: Bytes, count: nat): Result<(seq<U16>, Bytes)> {
    if count == 0 then
      Ok(([], s))
    else
      var (first, s1) :- TakeU16(s);
      var (rest, s2) :- TakeU16s(s1, count - 1);
      Ok(([first] + rest, s2))
  }

  function EncodeU16s(vs: seq<U16>): (s: Bytes)
    ensures |s| == 2 * |vs|
  {
    if vs == [] then [] else EncodeU16(vs[0]) + EncodeU16s(vs[1..])
  }

  // A cast to a narrower unsigned type keeps the low bits.

  function AsU8(n: nat): Byte {
    n % 0x100
  }

  function AsU16(n: nat): U16 {
    n % 0x1_0000
  }

  lemma TakeU8After(v: Byte, rest: Bytes)
    ensures TakeU8([v] + rest) == Ok((v, rest))
  {
  }

  lemma TakeU16After(v: U16, rest: Bytes)
    ensures TakeU16(EncodeU16(v) + rest) == Ok((v, rest))
  {
  }

  lemma TakeU24After(v: U24, rest: Bytes)
    ensures TakeU24(EncodeU24(v) + rest) == Ok((v, rest))
  {
  }

  lemma TakeBytesAfter(b: Bytes, rest: Bytes)
    ensures TakeBytes(b + rest, |b|) == Ok((b, rest))
  {
  }

  lemma {:induction false} TakeU16sAfter(vs: seq<U16>, rest: Bytes)
    ensures TakeU16s(EncodeU16s(vs) + rest, |vs|) == Ok((vs, rest))
  {
    if vs == [] {
      assert EncodeU16s(vs) + rest == rest;
    } else {
      var tail := EncodeU16s(vs[1..]) + rest;
      assert EncodeU16s(vs) + rest == EncodeU16(vs[0]) + tail;
      TakeU16After(vs[0], tail);
      TakeU16sAfter(vs[1..], rest);
      assert [vs[0]] + vs[1..] == vs;
    }
  }

  /** Well-formed UTF-8 (Unicode Standard, table 3-7). */
  predicate IsUtf8(s: Bytes)
    decreases |s|
  {
    s == []
    || (s[0] < 0x80 && IsUtf8(s[1..]))
    || (|s| >= 2 && 0xC2 <= s[0] <= 0xDF && Continuation(s[1]) && IsUtf8(s[2..]))
    || (|s| >= 3 && 0xE0 <= s[0] <= 0xEF && Continuation(s[1]) && Continuation(s[2])
        && (s[0] == 0xE0 ==> s[1] >= 0xA0) && (s[0] == 0xED ==> s[1] < 0xA0) && IsUtf8(s[3..]))
    || (|s| >= 4 && 0xF0 <= s[0] <= 0xF4 && Continuation(s[1]) && Continuation(s[2]) && Continuation(s[3])
        && (s[0] == 0xF0 ==> s[1] >= 0x90) && (s[0] == 0xF4 ==> s[1] < 0x90) && IsUtf8(s[4..]))
  }

  predicate Continuation(b: Byte) {
    0x80 <= b < 0xC0
  }
}
