/** What a side puts on the wire when it sends packets in turn. */
module Emission {
  import opened Wrappers
  import opened Bytes
  import opened Headers
  import opened Handshakes
  import opened Framing
  import opened Fragmenting
  import opened HandshakeCaches
  import opened CipherSuites
  import opened Sending
  import opened Reassembly
  import opened WireRecords
  import opened Delivery

  /** A packet of an honest side: handshake messages of a later epoch are protected by `sealer`. */
  ghost predicate Sendable(p: Packet, suite: Option<CipherSuite>, mtu: Mtu, sealer: CipherSuite) {
    (p.version == PROTOCOL_VERSION1_0 || p.version == PROTOCOL_VERSION1_2)
    && (suite.Some? ==> Frames(suite.value, RecordLimit(mtu)))
    && match p.content
       case HandshakeContent(_) => p.shouldEncrypt == (p.epoch != 0) && (p.epoch != 0 ==> suite == Some(sealer))
       case OtherContent(t, body) =>
         t != ContentType.Handshake && 0 < |body| <= RecordLimit(mtu) - RECORD_LAYER_HEADER_SIZE
  }

  /** A handshake message is sent under its own number: again as before, or as the next one. */
  ghost predicate InTurn(sent: seq<SentMessage>, p: Packet) {
    p.content.HandshakeContent? ==>
      var h := p.content.h;
      if h.sequence < |sent| then
        sent[h.sequence] == SentMessage(h, p.epoch)
      else
        h.sequence == |sent| < 0xFFFF && UnmarshalHandshake(h.Whole()).Ok?
  }

  ghost function Extended(sent: seq<SentMessage>, p: Packet): seq<SentMessage> {
    if p.content.HandshakeContent? && p.content.h.sequence == |sent| then
      sent + [SentMessage(p.content.h, p.epoch)]
    else
      sent
  }

  ghost predicate AllInTurn(sent: seq<SentMessage>, pkts: seq<Packet>)
    decreases |pkts|
  {
    pkts == [] || (InTurn(sent, pkts[0]) && AllInTurn(Extended(sent, pkts[0]), pkts[1..]))
  }

  /** The table after a send, which stops at the first packet that fails. */
  ghost function TableAfter(s: SenderState, suite: Option<CipherSuite>, mtu: Mtu, isClient: bool, pkts: seq<Packet>,
                            sent: seq<SentMessage>): seq<SentMessage>
    decreases |pkts|
  {
    if pkts == [] then
      sent
    else
      var (lsn, first) := RecordsOf(s.lsn, suite, pkts[0], TypeOf(pkts[0]), BodiesOf(pkts[0], mtu));
      var table := Extended(sent, pkts[0]);
      if first.Err? then table
      else TableAfter(SenderState(lsn, CachedBefore(s.cache, pkts[0], isClient)), suite, mtu, isClient, pkts[1..], table)
  }

  ghost predicate OnWire(record: Bytes, sent: seq<SentMessage>, mtu: Mtu, sealer: CipherSuite) {
    WireRecord(record, sent, mtu, sealer) && FramedNonEmpty(record)
  }

  lemma FragmentEmitted(sent: seq<SentMessage>, mtu: Mtu, sealer: CipherSuite, suite: Option<CipherSuite>, p: Packet,
                        piece: Piece, sequence: U48)
    requires mtu + HANDSHAKE_HEADER_LENGTH < 0x1_0000
    requires Sendable(p, suite, mtu, sealer) && p.content.HandshakeContent?
    requires SentMessage(p.content.h, p.epoch) in sent
    requires piece in Pieces(p.content.h.content, mtu) && PieceOf(p.content.h.content, piece)
    ensures var sealed := SealedRecord(suite, p, ContentType.Handshake, sequence, FragmentBytes(p.content.h, piece));
            sealed.Ok? ==> OnWire(sealed.value, sent, mtu, sealer)
  {
    hide FragmentBytes, RecordLayerHeader.Marshal, Pieces, PieceOf, Frames, RecordLayerHeader.Unmarshal, FramedNonEmpty;
    var h := p.content.h;
    PieceInside(h.content, piece);
    PiecesBelong(h.content, mtu);
    var body := FragmentBytes(h, piece);
    var header := RecordHeaderOf(p, ContentType.Handshake, sequence, |body|);
    var sealed := SealedRecord(suite, p, ContentType.Handshake, sequence, body);
    var i :| 0 <= i < |sent| && sent[i] == SentMessage(h, p.epoch);
    if sealed.Ok? {
      assert Sealed(Some(sealer), p.epoch != 0, header, header.Marshal() + body) == sealed;
      assert FragmentRecord(sealed.value, sent[i], mtu, sealer, piece, header);
      FragmentOnWire(sealed.value, sent[i], mtu, sealer, piece, header);
    }
  }

  lemma OtherEmitted(sent: seq<SentMessage>, mtu: Mtu, sealer: CipherSuite, suite: Option<CipherSuite>, p: Packet, sequence: U48)
    requires mtu + HANDSHAKE_HEADER_LENGTH < 0x1_0000
    requires Sendable(p, suite, mtu, sealer) && p.content.OtherContent?
    ensures var sealed := SealedRecord(suite, p, p.content.contentType, sequence, p.content.body);
            sealed.Ok? ==> OnWire(sealed.value, sent, mtu, sealer)
  {
  }

  lemma {:induction false} RecordsEmitted(lsn: seq<nat>, suite: Option<CipherSuite>, p: Packet, t: ContentType, bodies: seq<Bytes>,
                                          sent: seq<SentMessage>, mtu: Mtu, sealer: CipherSuite)
    requires forall b, n: U48 :: b in bodies && SealedRecord(suite, p, t, n, b).Ok? ==>
               OnWire(SealedRecord(suite, p, t, n, b).value, sent, mtu, sealer)
    ensures var records := RecordsOf(lsn, suite, p, t, bodies).1;
            records.Ok? ==> forall r :: r in records.value ==> OnWire(r, sent, mtu, sealer)
    decreases |bodies|
  {
    hide SealedRecord, OnWire, Bumped, Stamp;
    if bodies != [] {
      assert bodies[0] in bodies;
      assert forall b :: b in bodies[1..] ==> b in bodies;
      RecordsEmitted(Bumped(lsn, p.epoch), suite, p, t, bodies[1..], sent, mtu, sealer);
    }
  }

  /** Every record of a packet in turn is on the wire as the receiver expects it. */
  lemma PacketEmitted(lsn: seq<nat>, suite: Option<CipherSuite>, p: Packet, sent: seq<SentMessage>, mtu: Mtu, sealer: CipherSuite)
    requires mtu + HANDSHAKE_HEADER_LENGTH < 0x1_0000
    requires Sendable(p, suite, mtu, sealer)
    requires p.content.HandshakeContent? ==> SentMessage(p.content.h, p.epoch) in sent
    ensures var records := RecordsOf(lsn, suite, p, TypeOf(p), BodiesOf(p, mtu)).1;
            records.Ok? ==> forall r :: r in records.value ==> OnWire(r, sent, mtu, sealer)
  {
    hide SealedRecord, OnWire, RecordsOf, Pieces, PieceOf, Frames, FragmentBytes, FragmentsOf;
    var bodies, t := BodiesOf(p, mtu), TypeOf(p);
    forall b, n: U48 | b in bodies && SealedRecord(suite, p, t, n, b).Ok?
      ensures OnWire(SealedRecord(suite, p, t, n, b).value, sent, mtu, sealer)
    {
      match p.content
      case HandshakeContent(h) =>
        PiecesBelong(h.content, mtu);
        var pieces := Pieces(h.content, mtu);
        var i :| 0 <= i < |bodies| && bodies[i] == b;
        assert pieces[i] in pieces;
        PieceInside(h.content, pieces[i]);
        FragmentEmitted(sent, mtu, sealer, suite, p, pieces[i], n);
      case OtherContent(_, _) =>
        OtherEmitted(sent, mtu, sealer, suite, p, n);
    }
    RecordsEmitted(lsn, suite, p, t, bodies, sent, mtu, sealer);
  }

  // The sender's own part of the cache

  ghost predicate OwnPart(cache: seq<Item>, isClient: bool, sent: seq<SentMessage>) {
    Table(sent) && SentBy(cache, isClient) == ItemsOf(sent, isClient)
  }

  lemma TableGrows(sent: seq<SentMessage>, p: Packet)
    requires Table(sent) && InTurn(sent, p)
    ensures Table(Extended(sent, p)) && sent <= Extended(sent, p)
    ensures p.content.HandshakeContent? ==> SentMessage(p.content.h, p.epoch) in Extended(sent, p)
  {
    hide UnmarshalHandshake, RawHandshake.Whole;
  }

  lemma CachedInTurn(cache: seq<Item>, isClient: bool, sent: seq<SentMessage>, p: Packet)
    requires OwnPart(cache, isClient, sent) && InTurn(sent, p)
    ensures OwnPart(CachedBefore(cache, p, isClient), isClient, Extended(sent, p))
    ensures SentBy(CachedBefore(cache, p, isClient), !isClient) == SentBy(cache, !isClient)
  {
    hide UnmarshalHandshake, RawHandshake.Whole, Table, SentBy;
    TableGrows(sent, p);
    if p.content.HandshakeContent? {
      var h := p.content.h;
      var item := ItemOf(h, p.epoch, isClient);
      SentByMember(cache, isClient);
      NumbersAreIndices(sent);
      if h.sequence < |sent| {
        assert ItemsOf(sent, isClient)[h.sequence] == item;
        assert item in SentBy(cache, isClient);
        assert SameSlot(item, item);
      } else {
        forall i | 0 <= i < |cache|
          ensures !SameSlot(cache[i], item)
        {
          if cache[i].isClient == isClient {
            assert cache[i] in SentBy(cache, isClient);
            var k :| 0 <= k < |sent| && ItemsOf(sent, isClient)[k] == cache[i];
          }
        }
        SentBySnoc(cache, item, isClient);
        SentBySnoc(cache, item, !isClient);
        assert SentBy(cache, !isClient) + [] == SentBy(cache, !isClient);
        assert ItemsOf(sent + [SentMessage(h, p.epoch)], isClient) == ItemsOf(sent, isClient) + [item];
      }
    }
  }

  lemma NumbersAreIndices(sent: seq<SentMessage>)
    requires Table(sent)
    ensures forall k :: 0 <= k < |sent| ==> sent[k].h.sequence == k
  {
    hide UnmarshalHandshake, RawHandshake.Whole;
  }

  /** A send extends the table, caches exactly what it extends it by, and puts only records of the
      table on the wire. */
  lemma {:induction false} SendKeeps(s: SenderState, suite: Option<CipherSuite>, mtu: Mtu, isClient: bool, pkts: seq<Packet>,
                                     sent: seq<SentMessage>, sealer: CipherSuite)
    requires mtu + HANDSHAKE_HEADER_LENGTH < 0x1_0000
    requires forall p :: p in pkts ==> Sendable(p, suite, mtu, sealer)
    requires AllInTurn(sent, pkts) && OwnPart(s.cache, isClient, sent)
    ensures var (t, raw) := Raw(s, suite, mtu, isClient, pkts);
            var table := TableAfter(s, suite, mtu, isClient, pkts, sent);
            sent <= table && OwnPart(t.cache, isClient, table)
            && SentBy(t.cache, !isClient) == SentBy(s.cache, !isClient)
            && (raw.Ok? ==> forall r :: r in raw.value ==> OnWire(r, table, mtu, sealer))
    decreases |pkts|
  {
    hide RecordsOf, BodiesOf, CachedBefore, OnWire, OwnPart, Frames, Extended, InTurn, UnmarshalHandshake, RawHandshake.Whole, ItemsOf,
         Table;
    if pkts != [] {
      var p := pkts[0];
      assert p in pkts;
      assert forall q :: q in pkts[1..] ==> q in pkts;
      FirstInTurn(s.cache, isClient, sent, p);
      var table := Extended(sent, p);
      var cache := CachedBefore(s.cache, p, isClient);
      var (lsn, first) := RecordsOf(s.lsn, suite, p, TypeOf(p), BodiesOf(p, mtu));
      PacketEmitted(s.lsn, suite, p, table, mtu, sealer);
      if first.Ok? {
        var next := SenderState(lsn, cache);
        SendKeeps(next, suite, mtu, isClient, pkts[1..], table, sealer);
        StillOnWire(first.value, table, TableAfter(next, suite, mtu, isClient, pkts[1..], table), mtu, sealer);
      }
    }
  }

  lemma FirstInTurn(cache: seq<Item>, isClient: bool, sent: seq<SentMessage>, p: Packet)
    requires OwnPart(cache, isClient, sent) && InTurn(sent, p)
    ensures OwnPart(CachedBefore(cache, p, isClient), isClient, Extended(sent, p)) && sent <= Extended(sent, p)
    ensures SentBy(CachedBefore(cache, p, isClient), !isClient) == SentBy(cache, !isClient)
    ensures p.content.HandshakeContent? ==> SentMessage(p.content.h, p.epoch) in Extended(sent, p)
  {
    hide UnmarshalHandshake, RawHandshake.Whole, ItemsOf, Table;
    CachedInTurn(cache, isClient, sent, p);
    TableGrows(sent, p);
  }

  lemma StillOnWire(records: seq<Bytes>, sent: seq<SentMessage>, table: seq<SentMessage>, mtu: Mtu, sealer: CipherSuite)
    requires sent <= table && forall r :: r in records ==> OnWire(r, sent, mtu, sealer)
    ensures forall r :: r in records ==> OnWire(r, table, mtu, sealer)
  {
  }
}
