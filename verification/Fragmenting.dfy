/** From numbered messages to numbered records: splitting at the MTU and wrapping each fragment. */
module Fragmenting {
  import opened Bytes
  import opened Headers
  import opened Handshakes

  type Mtu = n: nat | 0 < n witness 1

  // Splitting

  function Split(bytes: Bytes, splitLen: Mtu): seq<Bytes>
    decreases |bytes|
  {
    if |bytes| == 0 then
      []
    else if |bytes| <= splitLen then
      [bytes]
    else
      [bytes[..splitLen]] + Split(bytes[splitLen..], splitLen)
  }

  method SplitBytes(bytes: Bytes, splitLen: Mtu) returns (splits: seq<Bytes>)
    ensures splits == Split(bytes, splitLen)
  {
    splits := [];
    var i := 0;
    assert bytes[0..] == bytes;
    while i < |bytes|
      invariant 0 <= i
      invariant Split(bytes, splitLen) == splits + (if i < |bytes| then Split(bytes[i..], splitLen) else [])
    {
      var j := i + splitLen;
      if j > |bytes| {
        j := |bytes|;
      }
      ghost var rest := bytes[i..];
      assert rest[..j - i] == bytes[i..j];
      assert i + splitLen < |bytes| ==> rest[splitLen..] == bytes[i + splitLen..];
      assert j == |bytes| ==> rest == bytes[i..j];
      ghost var more := if i + splitLen < |bytes| then Split(bytes[i + splitLen..], splitLen) else [];
      assert splits + ([bytes[i..j]] + more) == splits + [bytes[i..j]] + more;
      splits := splits + [bytes[i..j]];
      i := i + splitLen;
    }
  }

  /** The pieces make up the input; each is at most `splitLen` long and only the last is shorter. */
  lemma {:induction false} SplitIs(bytes: Bytes, splitLen: Mtu)
    ensures Flatten(Split(bytes, splitLen)) == bytes
    ensures forall i :: 0 <= i < |Split(bytes, splitLen)| ==> 0 < |Split(bytes, splitLen)[i]| <= splitLen
    ensures forall i :: 0 <= i < |Split(bytes, splitLen)| - 1 ==> |Split(bytes, splitLen)[i]| == splitLen
    decreases |bytes|
  {
    if |bytes| > splitLen {
      var rest := Split(bytes[splitLen..], splitLen);
      SplitIs(bytes[splitLen..], splitLen);
      FlattenCons(bytes[..splitLen], rest);
      assert forall i :: 0 < i < |Split(bytes, splitLen)| ==> Split(bytes, splitLen)[i] == rest[i - 1];
    } else if |bytes| > 0 {
      FlattenOne(bytes);
    }
  }

  // Fragments

  datatype Piece = Piece(offset: nat, data: Bytes)

  /** Consecutive pieces starting at `offset`. */
  function PiecesFrom(chunks: seq<Bytes>, offset: nat): seq<Piece> {
    if chunks == [] then [] else [Piece(offset, chunks[0])] + PiecesFrom(chunks[1..], offset + |chunks[0]|)
  }

  /** How a body is cut: an empty body still travels, as one empty piece. */
  function Pieces(content: Bytes, mtu: Mtu): seq<Piece> {
    var chunks := Split(content, mtu);
    PiecesFrom(if chunks == [] then [[]] else chunks, 0)
  }

  /** A piece that belongs to `content`; only an empty body has an empty one. */
  ghost predicate PieceOf(content: Bytes, p: Piece) {
    p.offset + |p.data| <= |content|
    && content[p.offset..p.offset + |p.data|] == p.data
    && (p.data == [] ==> content == [])
  }

  function FragmentHeader(h: RawHandshake, p: Piece): HandshakeHeader
    requires p.offset + |p.data| <= |h.content|
  {
    HandshakeHeader(h.typ, |h.content|, h.sequence, p.offset, |p.data|)
  }

  function FragmentBytes(h: RawHandshake, p: Piece): (s: Bytes)
    requires p.offset + |p.data| <= |h.content|
    ensures |s| == HANDSHAKE_HEADER_LENGTH + |p.data|
  {
    FragmentHeader(h, p).Marshal() + p.data
  }

  function FragmentsOf(h: RawHandshake, pieces: seq<Piece>): (r: seq<Bytes>)
    requires forall p :: p in pieces ==> p.offset + |p.data| <= |h.content|
    ensures |r| == |pieces|
    ensures forall i :: 0 <= i < |r| ==> r[i] == FragmentBytes(h, pieces[i])
  {
    if pieces == [] then
      []
    else
      assert forall p :: p in pieces[1..] ==> p in pieces;
      [FragmentBytes(h, pieces[0])] + FragmentsOf(h, pieces[1..])
  }

  lemma {:induction false} PiecesFromFlatten(content: Bytes, chunks: seq<Bytes>, offset: nat)
    requires offset <= |content| && Flatten(chunks) == content[offset..]
    requires forall c :: c in chunks ==> c != []
    ensures forall p :: p in PiecesFrom(chunks, offset) ==> PieceOf(content, p)
    ensures chunks != [] ==> PiecesFrom(chunks, offset)[0].offset == offset
    decreases |chunks|
  {
    if chunks != [] {
      var next := offset + |chunks[0]|;
      assert content[offset..] == chunks[0] + Flatten(chunks[1..]);
      assert content[offset..next] == chunks[0];
      assert content[next..] == content[offset..][|chunks[0]|..] == Flatten(chunks[1..]);
      assert chunks[0] in chunks;
      assert forall c :: c in chunks[1..] ==> c in chunks;
      PiecesFromFlatten(content, chunks[1..], next);
      forall p | p in PiecesFrom(chunks, offset)
        ensures PieceOf(content, p)
      {
        if p != Piece(offset, chunks[0]) {
          assert p in PiecesFrom(chunks[1..], next);
        }
      }
    }
  }

  /** Every piece of the cut belongs to the body. */
  lemma PiecesBelong(content: Bytes, mtu: Mtu)
    ensures Pieces(content, mtu) != []
    ensures forall p :: p in Pieces(content, mtu) ==> PieceOf(content, p) && |p.data| <= mtu
  {
    SplitIs(content, mtu);
    var chunks := Split(content, mtu);
    if chunks == [] {
      assert content == [];
      assert PiecesFrom([[]], 0) == [Piece(0, [])] + PiecesFrom([[]][1..], 0);
      assert PiecesFrom([[]][1..], 0) == [];
    } else {
      assert content[0..] == content;
      PiecesFromFlatten(content, chunks, 0);
      PiecesFromData(chunks, 0);
    }
  }

  /** Piece by piece: the data is the chunk, and each piece starts where the one before ends. */
  lemma {:induction false} PiecesFromData(chunks: seq<Bytes>, offset: nat)
    ensures |PiecesFrom(chunks, offset)| == |chunks|
    ensures forall i :: 0 <= i < |chunks| ==> PiecesFrom(chunks, offset)[i].data == chunks[i]
    ensures chunks != [] ==> PiecesFrom(chunks, offset)[0].offset == offset
    ensures forall i :: 0 < i < |chunks| ==>
              PiecesFrom(chunks, offset)[i].offset == PiecesFrom(chunks, offset)[i - 1].offset + |chunks[i - 1]|
    decreases |chunks|
  {
    if chunks != [] {
      PiecesFromData(chunks[1..], offset + |chunks[0]|);
    }
  }

  method FragmentHandshake(mtu: Mtu, h: RawHandshake) returns (fragments: seq<Bytes>)
    ensures (forall p :: p in Pieces(h.content, mtu) ==> p.offset + |p.data| <= |h.content|)
         && fragments == FragmentsOf(h, Pieces(h.content, mtu))
  {
    hide HandshakeHeader.Marshal, Split, PiecesFrom;
    PiecesBelong(h.content, mtu);
    var chunks := SplitBytes(h.content, mtu);
    if chunks == [] {
      chunks := [[]];
    }
    ghost var pieces := Pieces(h.content, mtu);
    PiecesFromData(chunks, 0);
    fragments := [];
    var offset := 0;
    for i := 0 to |chunks|
      invariant i < |chunks| ==> offset == pieces[i].offset
      invariant |fragments| == i
      invariant forall k :: 0 <= k < i ==> pieces[k] in pieces && fragments[k] == FragmentBytes(h, pieces[k])
    {
      assert pieces[i] in pieces && pieces[i] == Piece(offset, chunks[i]);
      var header := HandshakeHeader(h.typ, |h.content|, h.sequence, offset, |chunks[i]|);
      fragments := fragments + [header.Marshal() + chunks[i]];
      offset := offset + |chunks[i]|;
    }
  }
}
