/** Reassembly undoes fragmentation, whatever arrives, in whatever order, however often. */
module Reassembly {
  import opened Wrappers
  import opened Bytes
  import opened Headers
  import opened Handshakes
  import opened Fragmenting
  import opened FragmentBuffers

  /** A numbered message and the epoch it is sent in. */
  datatype SentMessage = SentMessage(h: RawHandshake, epoch: U16)

  /** All messages of one side so far: each carries its own position, and the peer can read it. */
  ghost predicate Table(sent: seq<SentMessage>) {
    |sent| < 0x1_0000
    && forall i :: 0 <= i < |sent| ==>
         sent[i].h.sequence == i && UnmarshalHandshake(sent[i].h.Whole()).Ok?
  }

  function PieceIn(f: Fragment): Piece {
    Piece(f.handshakeHeader.fragmentOffset, f.data)
  }

  /** A fragment of message `m`, cut at `mtu`. */
  ghost predicate FragmentOf(m: SentMessage, mtu: Mtu, f: Fragment) {
    PieceIn(f) in Pieces(m.h.content, mtu)
    && PieceOf(m.h.content, PieceIn(f))
    && f.handshakeHeader == FragmentHeader(m.h, PieceIn(f))
    && f.recordHeader.epoch == m.epoch
  }

  ghost predicate AllOf(m: SentMessage, mtu: Mtu, fragments: seq<Fragment>) {
    forall f :: f in fragments ==> FragmentOf(m, mtu, f)
  }

  /** Everything buffered is a fragment of the message it is filed under. */
  ghost predicate Genuine(sent: seq<SentMessage>, mtu: Mtu, cache: FragmentMap) {
    forall k :: k in cache ==> k < |sent| && AllOf(sent[k], mtu, cache[k])
  }

  // Only the message sent can come out.

  lemma {:induction false} AppendedIsSuffix(m: SentMessage, mtu: Mtu, fragments: seq<Fragment>, target: nat)
    requires AllOf(m, mtu, fragments) && target <= |m.h.content|
    requires Appended(target, fragments).Some?
    ensures Appended(target, fragments).value == m.h.content[target..]
    decreases 0x200_0000 - target
  {
    hide FirstAt, Pieces;
    var content := m.h.content;
    var f := FirstAt(fragments, target).value;
    assert FragmentOf(m, mtu, f);
    assert f.data == content[target..f.End()];
    if f.Last() {
      assert f.End() == |content|;
    } else {
      AppendedIsSuffix(m, mtu, fragments, f.End());
      assert content[target..] == content[target..f.End()] + content[f.End()..];
    }
  }

  lemma ReleasedIsWhole(m: SentMessage, mtu: Mtu, f: Fragment, fragments: seq<Fragment>)
    requires FragmentOf(m, mtu, f) && fragments != [] && fragments[0] == f
    ensures Released(fragments, m.h.content) == (m.h.Whole(), m.epoch)
  {
  }

  /** What is popped is the single-fragment encoding of the message in turn, with its epoch. */
  lemma PoppedIsSent(sent: seq<SentMessage>, mtu: Mtu, b: Buffer)
    requires Table(sent) && Genuine(sent, mtu, b.cache)
    requires Popped(b).1.Ok?
    ensures b.current < |sent|
    ensures Popped(b).1.value == (sent[b.current].h.Whole(), sent[b.current].epoch)
    ensures Popped(b).0 == Buffer(b.cache - {b.current}, b.current + 1)
    ensures Genuine(sent, mtu, Popped(b).0.cache)
  {
    hide FragmentOf, Released, RawHandshake.Whole, UnmarshalHandshake, Appended;
    var fragments := FragmentsAt(b.cache, b.current);
    AppendedNonEmpty(fragments);
    assert b.current in b.cache;
    var m := sent[b.current];
    AppendedIsSuffix(m, mtu, fragments, 0);
    assert m.h.content[0..] == m.h.content;
    assert fragments[0] in fragments;
    ReleasedIsWhole(m, mtu, fragments[0], fragments);
  }

  lemma AppendedNonEmpty(fragments: seq<Fragment>)
    requires Appended(0, fragments).Some?
    ensures fragments != []
  {
  }

  // A complete message does come out.

  lemma {:induction false} OffsetsIncrease(chunks: seq<Bytes>, offset: nat, i: nat, j: nat)
    requires forall c :: c in chunks ==> c != []
    requires i < j < |chunks|
    ensures |PiecesFrom(chunks, offset)| == |chunks|
    ensures PiecesFrom(chunks, offset)[i].offset + |PiecesFrom(chunks, offset)[i].data| <= PiecesFrom(chunks, offset)[j].offset
    ensures PiecesFrom(chunks, offset)[i].offset < PiecesFrom(chunks, offset)[j].offset
    decreases j
  {
    PiecesFromData(chunks, offset);
    assert chunks[i] in chunks;
    if i + 1 < j {
      OffsetsIncrease(chunks, offset, i, j - 1);
      assert chunks[j - 1] in chunks;
    }
  }

  /** The pieces of a cut follow each other without gap from 0 to the end, each at its own offset. */
  lemma PiecesTile(content: Bytes, mtu: Mtu)
    ensures Pieces(content, mtu) != [] && Pieces(content, mtu)[0].offset == 0
    ensures forall i :: 0 < i < |Pieces(content, mtu)| ==>
              Pieces(content, mtu)[i].offset == Pieces(content, mtu)[i - 1].offset + |Pieces(content, mtu)[i - 1].data|
    ensures forall i, j :: 0 <= i < j < |Pieces(content, mtu)| ==> Pieces(content, mtu)[i].offset != Pieces(content, mtu)[j].offset
    ensures var last := Pieces(content, mtu)[|Pieces(content, mtu)| - 1]; last.offset + |last.data| == |content|
  {
    hide Split;
    SplitIs(content, mtu);
    var chunks := Split(content, mtu);
    if chunks == [] {
      PiecesFromData([[]], 0);
    } else {
      PiecesFromData(chunks, 0);
      forall i, j | 0 <= i < j < |chunks|
        ensures Pieces(content, mtu)[i].offset != Pieces(content, mtu)[j].offset
      {
        assert forall c :: c in chunks ==> c != [];
        OffsetsIncrease(chunks, 0, i, j);
      }
      LastEnds(chunks, 0);
    }
  }

  lemma {:induction false} LastEnds(chunks: seq<Bytes>, offset: nat)
    requires chunks != []
    ensures |PiecesFrom(chunks, offset)| == |chunks|
    ensures var last := PiecesFrom(chunks, offset)[|chunks| - 1]; last.offset + |last.data| == offset + |Flatten(chunks)|
    decreases |chunks|
  {
    PiecesFromData(chunks, offset);
    if |chunks| == 1 {
      assert chunks == [chunks[0]];
      FlattenOne(chunks[0]);
    } else {
      LastEnds(chunks[1..], offset + |chunks[0]|);
    }
  }

  ghost predicate Holds(fragments: seq<Fragment>, p: Piece) {
    exists f :: f in fragments && PieceIn(f) == p
  }

  /** With every piece of the cut at hand, the chain goes through. */
  lemma {:induction false} CompleteFrom(m: SentMessage, mtu: Mtu, fragments: seq<Fragment>, k: nat)
    requires AllOf(m, mtu, fragments)
    requires forall p :: p in Pieces(m.h.content, mtu) ==> Holds(fragments, p)
    requires k < |Pieces(m.h.content, mtu)|
    ensures Appended(Pieces(m.h.content, mtu)[k].offset, fragments).Some?
    decreases |Pieces(m.h.content, mtu)| - k
  {
    hide Pieces, FragmentHeader;
    var pieces := Pieces(m.h.content, mtu);
    PiecesTile(m.h.content, mtu);
    assert pieces[k] in pieces;
    assert Holds(fragments, pieces[k]);
    var f := FirstAt(fragments, pieces[k].offset).value;
    assert FragmentOf(m, mtu, f);
    var j :| 0 <= j < |pieces| && pieces[j] == PieceIn(f);
    assert j == k;
    FragmentEnds(m, mtu, f);
    if k + 1 < |pieces| {
      CompleteFrom(m, mtu, fragments, k + 1);
    }
  }

  lemma FragmentEnds(m: SentMessage, mtu: Mtu, f: Fragment)
    requires FragmentOf(m, mtu, f)
    ensures f.End() == f.handshakeHeader.fragmentOffset as int + |f.data|
    ensures f.handshakeHeader.length == |m.h.content|
  {
  }

  lemma CompletePops(sent: seq<SentMessage>, mtu: Mtu, b: Buffer)
    requires Table(sent) && Genuine(sent, mtu, b.cache) && b.current < |sent|
    requires forall p :: p in Pieces(sent[b.current].h.content, mtu) ==> Holds(FragmentsAt(b.cache, b.current), p)
    ensures Popped(b).1.Ok?
  {
    hide Pieces, FragmentOf, Holds, Table, Appended;
    PiecesTile(sent[b.current].h.content, mtu);
    CompleteFrom(sent[b.current], mtu, FragmentsAt(b.cache, b.current), 0);
  }

  // One genuine record adds one genuine fragment.

  lemma PushedFragment(cache: FragmentMap, header: RecordLayerHeader, h: RawHandshake, p: Piece)
    requires p.offset + |p.data| <= |h.content|
    ensures PushedBody(cache, header, FragmentBytes(h, p))
         == (Added(cache, Fragment(header, FragmentHeader(h, p), p.data)), Ok(true))
  {
    hide HandshakeHeader.Unmarshal;
    var buf := FragmentBytes(h, p);
    HandshakeHeaderRoundTrip(FragmentHeader(h, p), p.data);
    assert BodyEnd(FragmentHeader(h, p), buf) == |buf|;
    assert buf[HANDSHAKE_HEADER_LENGTH..|buf|] == p.data;
    assert buf[|buf|..] == [];
  }

  lemma AddedGenuine(sent: seq<SentMessage>, mtu: Mtu, cache: FragmentMap, header: RecordLayerHeader, i: nat, p: Piece)
    requires Table(sent) && Genuine(sent, mtu, cache) && i < |sent|
    requires p in Pieces(sent[i].h.content, mtu) && header.epoch == sent[i].epoch
    requires PieceOf(sent[i].h.content, p)
    ensures Genuine(sent, mtu, Added(cache, Fragment(header, FragmentHeader(sent[i].h, p), p.data)))
  {
    hide Pieces, PieceOf, FragmentHeader, UnmarshalHandshake, RawHandshake.Whole;
    PiecesBelong(sent[i].h.content, mtu);
    PieceInside(sent[i].h.content, p);
    var f := Fragment(header, FragmentHeader(sent[i].h, p), p.data);
    HeaderOfPiece(sent[i].h, p, f);
    assert FragmentOf(sent[i], mtu, f);
    assert forall g :: g in FragmentsAt(cache, i) ==> FragmentOf(sent[i], mtu, g);
  }

  lemma PieceInside(content: Bytes, p: Piece)
    requires PieceOf(content, p)
    ensures p.offset + |p.data| <= |content|
  {
  }

  lemma HeaderOfPiece(h: RawHandshake, p: Piece, f: Fragment)
    requires p.offset + |p.data| <= |h.content|
    requires f.handshakeHeader == FragmentHeader(h, p) && f.data == p.data
    ensures PieceIn(f) == p && f.handshakeHeader.messageSequence == h.sequence
  {
  }
}
