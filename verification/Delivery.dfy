/** One direction of a connection end to end: whatever the network loses, repeats or reorders, the
    receiver's cache holds a prefix of what was sent, message by message and byte by byte. */
module Delivery {
  import opened Wrappers
  import opened Bytes
  import opened Headers
  import opened Handshakes
  import opened Fragmenting
  import opened FragmentBuffers
  import opened HandshakeCaches
  import opened CipherSuites
  import opened Sending
  import opened Reading
  import opened Reassembly
  import opened IncomingRecords
  import opened WireRecords

  // The two senders share one cache.

  function SentBy(cache: seq<Item>, isClient: bool): seq<Item> {
    if cache == [] then
      []
    else
      var before := SentBy(cache[..|cache| - 1], isClient);
      var last := cache[|cache| - 1];
      if last.isClient == isClient then before + [last] else before
  }

  ghost function ItemsOf(sent: seq<SentMessage>, isClient: bool): (r: seq<Item>)
    ensures |r| == |sent|
    ensures forall i :: 0 <= i < |sent| ==> r[i] == ItemOf(sent[i].h, sent[i].epoch, isClient)
  {
    seq(|sent|, i requires 0 <= i < |sent| => ItemOf(sent[i].h, sent[i].epoch, isClient))
  }

  lemma PrefixTable(sent: seq<SentMessage>, n: nat)
    requires Table(sent) && n <= |sent|
    ensures Table(sent[..n])
  {
    hide UnmarshalHandshake, RawHandshake.Whole;
  }

  lemma {:induction false} SentByMember(cache: seq<Item>, isClient: bool)
    ensures forall c :: c in SentBy(cache, isClient) <==> c in cache && c.isClient == isClient
  {
    if cache != [] {
      var n := |cache| - 1;
      SentByMember(cache[..n], isClient);
      assert cache == cache[..n] + [cache[n]];
    }
  }

  lemma SentBySnoc(cache: seq<Item>, item: Item, isClient: bool)
    ensures SentBy(cache + [item], isClient)
         == SentBy(cache, isClient) + (if item.isClient == isClient then [item] else [])
  {
  }

  /** The peer's part of the cache is exactly the first `n` messages of the table. */
  ghost predicate PeerPart(cache: seq<Item>, isClient: bool, sent: seq<SentMessage>, n: nat) {
    n <= |sent| && SentBy(cache, isClient) == ItemsOf(sent, isClient)[..n]
  }

  /** No message of the peer's has the next number yet. */
  lemma NextIsNew(cache: seq<Item>, isClient: bool, sent: seq<SentMessage>, n: nat, item: Item)
    requires Table(sent) && n < |sent| && PeerPart(cache, isClient, sent, n)
    requires item.isClient == isClient && item.messageSequence == n
    ensures forall c :: c in cache ==> !SameSlot(c, item)
  {
    hide UnmarshalHandshake, RawHandshake.Whole;
    SentByMember(cache, isClient);
    var items := ItemsOf(sent, isClient);
    forall c | c in cache
      ensures !SameSlot(c, item)
    {
      if c.isClient == isClient {
        assert c in SentBy(cache, isClient);
        var k :| 0 <= k < n && items[..n][k] == c;
        assert c == items[k];
      }
    }
  }

  lemma PushedNew(cache: seq<Item>, item: Item)
    requires forall c :: c in cache ==> !SameSlot(c, item)
    ensures HandshakeCaches.Pushed(cache, item) == cache + [item]
  {
  }

  lemma CachedIs(cache: seq<Item>, m: SentMessage, isClient: bool)
    requires UnmarshalHandshake(m.h.Whole()).Ok?
    ensures CachedMessage(cache, m.h.Whole(), m.epoch, isClient) == HandshakeCaches.Pushed(cache, ItemOf(m.h, m.epoch, isClient))
  {
    hide UnmarshalHandshake, RawHandshake.Whole, HandshakeCaches.Pushed;
    WholeReads(m.h);
  }

  /** The next message in turn is always new to the cache. */
  lemma NextIsCached(cache: seq<Item>, isClient: bool, sent: seq<SentMessage>, n: nat)
    requires Table(sent) && n < |sent| && PeerPart(cache, isClient, sent, n)
    ensures var next := CachedMessage(cache, sent[n].h.Whole(), sent[n].epoch, isClient);
            next == cache + [ItemOf(sent[n].h, sent[n].epoch, isClient)]
            && PeerPart(next, isClient, sent, n + 1)
            && SentBy(next, !isClient) == SentBy(cache, !isClient)
  {
    hide UnmarshalHandshake, RawHandshake.Whole, CachedMessage, SentBy, HandshakeCaches.Pushed;
    var item := ItemOf(sent[n].h, sent[n].epoch, isClient);
    CachedIs(cache, sent[n], isClient);
    NextIsNew(cache, isClient, sent, n, item);
    PushedNew(cache, item);
    SentBySnoc(cache, item, isClient);
    SentBySnoc(cache, item, !isClient);
    assert SentBy(cache, !isClient) + [] == SentBy(cache, !isClient);
    assert ItemsOf(sent, isClient)[..n + 1] == ItemsOf(sent, isClient)[..n] + [item];
  }

  lemma WholeReads(h: RawHandshake)
    requires UnmarshalHandshake(h.Whole()).Ok?
    ensures UnmarshalHandshake(h.Whole()).value.header.handshakeType == h.typ
    ensures UnmarshalHandshake(h.Whole()).value.header.messageSequence == h.sequence
  {
  }

  // One reader and its peer's table

  ghost predicate ReaderOk(r: Reader, sent: seq<SentMessage>, mtu: Mtu, sealer: CipherSuite) {
    Table(sent)
    && Genuine(sent, mtu, r.buffer.cache)
    && PeerPart(r.cache, !r.isClient, sent, r.buffer.current)
    && AllWire(r.encrypted, sent, mtu, sealer)
  }

  ghost predicate OwnPartKept(r: Reader, s: Reader) {
    s.isClient == r.isClient && SentBy(s.cache, r.isClient) == SentBy(r.cache, r.isClient)
  }

  ghost predicate BufferOk(buffer: Buffer, cache: seq<Item>, isClient: bool, sent: seq<SentMessage>, mtu: Mtu) {
    Table(sent) && Genuine(sent, mtu, buffer.cache) && PeerPart(cache, !isClient, sent, buffer.current)
  }

  lemma {:induction false} DrainedKeeps(buffer: Buffer, cache: seq<Item>, isClient: bool, sent: seq<SentMessage>, mtu: Mtu)
    requires BufferOk(buffer, cache, isClient, sent, mtu)
    ensures var (left, kept) := Drained(buffer, cache, isClient);
            BufferOk(left, kept, isClient, sent, mtu) && SentBy(kept, isClient) == SentBy(cache, isClient)
            && Popped(left).1.Err? && buffer.current <= left.current
            && (forall k: U16 :: k >= left.current ==> FragmentsAt(left.cache, k) == FragmentsAt(buffer.cache, k))
    decreases |buffer.cache|
  {
    hide Popped, CachedMessage, Genuine, Table, PeerPart, SentBy;
    if Popped(buffer).1.Ok? {
      PopShrinks(buffer);
      PoppedIsSent(sent, mtu, buffer);
      NextIsCached(cache, !isClient, sent, buffer.current);
      var next := Popped(buffer).0;
      var (out, epoch) := Popped(buffer).1.value;
      DrainedKeeps(next, CachedMessage(cache, out, epoch, !isClient), isClient, sent, mtu);
    }
  }

  /** The fragment a record brought, if it was taken. */
  ghost predicate Brought(s: Reader, m: SentMessage, p: Piece) {
    s.buffer.current <= m.h.sequence ==> Reassembly.Holds(FragmentsAt(s.buffer.cache, m.h.sequence), p)
  }

  ghost predicate KeepsFragments(r: Reader, s: Reader) {
    r.buffer.current <= s.buffer.current
    && forall k: U16, f :: k >= s.buffer.current && f in FragmentsAt(r.buffer.cache, k) ==> f in FragmentsAt(s.buffer.cache, k)
  }

  lemma FragmentOpenedKeeps(r: Reader, sent: seq<SentMessage>, mtu: Mtu, sealer: CipherSuite,
                            i: nat, p: Piece, suite: Option<CipherSuite>, h: RecordLayerHeader, plain: Bytes, enqueue: bool)
    requires |r.detectors| > h.epoch
    requires ReaderOk(r, sent, mtu, sealer)
    requires i < |sent| && p in Pieces(sent[i].h.content, mtu) && PieceOf(sent[i].h.content, p)
    requires |plain| >= RECORD_LAYER_HEADER_SIZE && plain[RECORD_LAYER_HEADER_SIZE..] == FragmentBytes(sent[i].h, p)
    requires RecordLayerHeader.Unmarshal(plain).Ok?
    requires RecordLayerHeader.Unmarshal(plain).value.contentType == ContentType.Handshake
    requires RecordLayerHeader.Unmarshal(plain).value.epoch == sent[i].epoch
    ensures var (s, o) := Opened(r, suite, h, plain, enqueue);
            ReaderOk(s, sent, mtu, sealer) && OwnPartKept(r, s) && KeepsFragments(r, s)
            && (o.handshake ==> Brought(s, sent[i], p) && Popped(s.buffer).1.Err?)
            && (!o.handshake ==> s.buffer == r.buffer)
  {
    hide RecordLayerHeader.Unmarshal, FragmentBuffers.Pushed, Genuine, Size, Drained, Popped, PeerPart, AllWire, Table, Pieces, PieceOf,
         FragmentHeader, FragmentBytes, UnmarshalHandshake, RawHandshake.Whole;
    PieceFits(sent, i, p);
    PushedPlain(r.buffer, plain, sent[i].h, p);
    var header := RecordLayerHeader.Unmarshal(plain).value;
    var f := Fragment(header, FragmentHeader(sent[i].h, p), p.data);
    HeaderOfPiece(sent[i].h, p, f);
    AddedGenuine(sent, mtu, r.buffer.cache, header, i, p);
    var buffer := r.buffer.(cache := Added(r.buffer.cache, f));
    DrainedKeeps(buffer, r.cache, r.isClient, sent, mtu);
  }

  lemma PieceFits(sent: seq<SentMessage>, i: nat, p: Piece)
    requires Table(sent) && i < |sent| && PieceOf(sent[i].h.content, p)
    ensures sent[i].h.sequence == i && p.offset + |p.data| <= |sent[i].h.content|
  {
    hide UnmarshalHandshake, RawHandshake.Whole;
  }

  /** A handshake record that is taken leaves the buffer with nothing more to pop. */
  ghost predicate Settled(s: Reader, o: Outcome) {
    o.handshake ==> Popped(s.buffer).1.Err?
  }

  lemma QueuedKeeps(r: Reader, sent: seq<SentMessage>, mtu: Mtu, sealer: CipherSuite, record: Bytes, enqueue: bool)
    requires ReaderOk(r, sent, mtu, sealer) && WireRecord(record, sent, mtu, sealer)
    ensures ReaderOk(Queued(r, record, enqueue), sent, mtu, sealer)
  {
    hide UnmarshalHandshake, FragmentRecord, Genuine, RawHandshake.Whole;
  }

  /** Whatever record of the peer's the reader handles, its cache stays a prefix of what was sent. */
  lemma HandledKeeps(r: Reader, sent: seq<SentMessage>, mtu: Mtu, sealer: CipherSuite,
                     suite: Option<CipherSuite>, passes: Detector, record: Bytes, enqueue: bool)
    requires mtu + HANDSHAKE_HEADER_LENGTH < 0x1_0000
    requires ReaderOk(r, sent, mtu, sealer) && WireRecord(record, sent, mtu, sealer) && Fitting(sealer, suite, sent, mtu)
    ensures var (s, o) := Handled(r, suite, passes, record, enqueue);
            ReaderOk(s, sent, mtu, sealer) && OwnPartKept(r, s) && KeepsFragments(r, s) && Settled(s, o)
            && (!o.handshake ==> s.buffer == r.buffer)
            && (o.handshake ==> forall i, p, header ::
                  0 <= i < |sent| && FragmentRecord(record, sent[i], mtu, sealer, p, header) ==> Brought(s, sent[i], p))
  {
    hide RecordLayerHeader.Unmarshal, Opened, WireRecord, FragmentRecord, ReaderOk, Opens, Popped, PaddedDetectors, UnmarshalHandshake,
         Genuine, ItemsOf, RawHandshake.Whole, Brought, OpensToSameHeader;
    QueuedKeeps(r, sent, mtu, sealer, record, enqueue);
    match RecordLayerHeader.Unmarshal(record)
    case Err(_) =>
    case Ok(h) =>
      var padded := r.(detectors := PaddedDetectors(r.detectors, h.epoch));
      PaddedOk(r, padded, sent, mtu, sealer);
      QueuedKeeps(padded, sent, mtu, sealer, record, enqueue);
      if h.epoch <= r.remoteEpoch && PlainOf(suite, h, record).Ok? {
        CheckedKeeps(padded, sent, mtu, sealer, suite, h, record, enqueue);
      }
  }

  lemma PaddedOk(r: Reader, padded: Reader, sent: seq<SentMessage>, mtu: Mtu, sealer: CipherSuite)
    requires ReaderOk(r, sent, mtu, sealer) && padded == r.(detectors := padded.detectors)
    ensures ReaderOk(padded, sent, mtu, sealer)
  {
    hide UnmarshalHandshake, AllWire, Genuine, RawHandshake.Whole, ItemsOf, Table, SentBy, PeerPart;
  }

  lemma CheckedKeeps(r: Reader, sent: seq<SentMessage>, mtu: Mtu, sealer: CipherSuite,
                     suite: Option<CipherSuite>, h: RecordLayerHeader, record: Bytes, enqueue: bool)
    requires mtu + HANDSHAKE_HEADER_LENGTH < 0x1_0000 && |r.detectors| > h.epoch
    requires ReaderOk(r, sent, mtu, sealer) && WireRecord(record, sent, mtu, sealer) && Fitting(sealer, suite, sent, mtu)
    requires RecordLayerHeader.Unmarshal(record) == Ok(h) && PlainOf(suite, h, record).Ok?
    ensures var (s, o) := Opened(r, suite, h, PlainOf(suite, h, record).value, enqueue);
            ReaderOk(s, sent, mtu, sealer) && OwnPartKept(r, s) && KeepsFragments(r, s) && Settled(s, o)
            && (!o.handshake ==> s.buffer == r.buffer)
            && (o.handshake ==> forall i, p, header ::
                  0 <= i < |sent| && FragmentRecord(record, sent[i], mtu, sealer, p, header) ==> Brought(s, sent[i], p))
  {
    hide RecordLayerHeader.Unmarshal, Opened, FragmentRecord, ReaderOk, Opens, Popped, OtherRecord, Brought, PlainOf;
    var plain := PlainOf(suite, h, record).value;
    var (s, o) := Opened(r, suite, h, plain, enqueue);
    if OtherRecord(record) {
      OtherCheckedKeeps(r, sent, mtu, sealer, suite, h, record, enqueue);
    } else {
      var i, p, header :| 0 <= i < |sent| && FragmentRecord(record, sent[i], mtu, sealer, p, header);
      OneFragmentKeeps(r, sent, mtu, sealer, suite, h, record, enqueue, i, p, header);
    }
    if o.handshake {
      forall i, p, header | 0 <= i < |sent| && FragmentRecord(record, sent[i], mtu, sealer, p, header)
        ensures Brought(s, sent[i], p)
      {
        OneFragmentKeeps(r, sent, mtu, sealer, suite, h, record, enqueue, i, p, header);
      }
    }
  }

  lemma OtherCheckedKeeps(r: Reader, sent: seq<SentMessage>, mtu: Mtu, sealer: CipherSuite,
                          suite: Option<CipherSuite>, h: RecordLayerHeader, record: Bytes, enqueue: bool)
    requires |r.detectors| > h.epoch
    requires ReaderOk(r, sent, mtu, sealer) && OtherRecord(record) && Fitting(sealer, suite, sent, mtu)
    requires PlainOf(suite, h, record).Ok?
    ensures var (s, o) := Opened(r, suite, h, PlainOf(suite, h, record).value, enqueue);
            ReaderOk(s, sent, mtu, sealer) && OwnPartKept(r, s) && KeepsFragments(r, s) && !o.handshake && s.buffer == r.buffer
  {
    hide RecordLayerHeader.Unmarshal, Opened, PlainOf, OtherRecord, Genuine, PeerPart, Table, FragmentRecord;
    OtherOpens(record, suite, h);
    OtherOpened(r, suite, h, PlainOf(suite, h, record).value, enqueue);
  }

  lemma OneFragmentKeeps(r: Reader, sent: seq<SentMessage>, mtu: Mtu, sealer: CipherSuite,
                         suite: Option<CipherSuite>, h: RecordLayerHeader, record: Bytes, enqueue: bool,
                         i: nat, p: Piece, header: RecordLayerHeader)
    requires mtu + HANDSHAKE_HEADER_LENGTH < 0x1_0000 && |r.detectors| > h.epoch
    requires ReaderOk(r, sent, mtu, sealer) && Fitting(sealer, suite, sent, mtu)
    requires RecordLayerHeader.Unmarshal(record) == Ok(h) && PlainOf(suite, h, record).Ok?
    requires i < |sent| && FragmentRecord(record, sent[i], mtu, sealer, p, header)
    ensures var (s, o) := Opened(r, suite, h, PlainOf(suite, h, record).value, enqueue);
            ReaderOk(s, sent, mtu, sealer) && OwnPartKept(r, s) && KeepsFragments(r, s) && Settled(s, o)
            && (o.handshake ==> Brought(s, sent[i], p)) && (!o.handshake ==> s.buffer == r.buffer)
  {
    hide RecordLayerHeader.Unmarshal, Opened, ReaderOk, Popped, Opens, Pieces, PieceOf, FragmentBytes, RecordLayerHeader.Marshal;
    FragmentEpoch(record, sent, sent[i], mtu, sealer, p, header, suite, h);
    var plain := FragmentOpened(record, sent[i], mtu, sealer, p, header, suite, h);
    FragmentOpenedKeeps(r, sent, mtu, sealer, i, p, suite, h, plain, enqueue);
  }

  /** A protected fragment can only be opened by a suite that is ready. */
  lemma FragmentEpoch(record: Bytes, sent: seq<SentMessage>, m: SentMessage, mtu: Mtu, sealer: CipherSuite, p: Piece, header: RecordLayerHeader,
                      suite: Option<CipherSuite>, h: RecordLayerHeader)
    requires mtu + HANDSHAKE_HEADER_LENGTH < 0x1_0000 && Fitting(sealer, suite, sent, mtu) && m in sent
    requires FragmentRecord(record, m, mtu, sealer, p, header)
    requires RecordLayerHeader.Unmarshal(record) == Ok(h) && PlainOf(suite, h, record).Ok?
    ensures h.epoch == m.epoch
    ensures m.epoch != 0 ==> Ready(suite) && Opens(sealer, suite.value, RecordLimit(mtu))
  {
    hide RecordLayerHeader.Unmarshal, Pieces, FragmentBytes, RecordLayerHeader.Marshal, Opens;
    var raw := header.Marshal() + FragmentBytes(m.h, p);
    assert raw[..11] == header.Marshal()[..11];
    if m.epoch != 0 {
      assert sealer.encrypt(header, raw) == Ok(record);
    }
    HeaderKept(record, header);
  }
}
