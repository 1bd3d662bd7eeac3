/** One side sends a flight and the other hears all of it. */
module InOrderSides {
  import opened Wrappers
  import opened Bytes
  import opened Framing
  import opened Fragmenting
  import opened FragmentBuffers
  import opened CipherSuites
  import opened Sending
  import opened Reading
  import opened IncomingRecords
  import opened Reassembly
  import opened WireRecords
  import opened Emission
  import opened Network
  import opened Planning
  import opened InOrder
  import opened InOrderFlights

  /** `b` has got the first `count` messages of `a`. */
  ghost predicate GotFirst(a: Side, b: Side, mtu: Mtu, count: int) {
    count <= |a.sent|
    && forall i, p :: 0 <= i < count && p in Pieces(a.sent[i].h.content, mtu) ==> (i, p) in b.got
  }

  /** `b` keeps up with `a`: it has got everything and waits for nothing. */
  ghost predicate Heeds(a: Side, b: Side, mtu: Mtu, epoch: int, total: int) {
    GotFirst(a, b, mtu, |a.sent|) && InStep(b.trace.reader, a.lsn, epoch, total) && b.trace.reader.encrypted == []
  }

  lemma NothingToHeed(client: bool, mtu: Mtu)
    ensures Heeds(NewSide(client), NewSide(!client), mtu, 0, 0)
  {
    SizeBelowEmpty(0x1_0000);
  }

  lemma AllCarried(a: Side, b: Side, link: Link, ms: seq<SentMessage>, records: seq<Bytes>, s: Side, c: Side)
    requires link.Valid() && GotFirst(a, b, link.mtu, |a.sent|) && s.sent == a.sent + ms
    requires c.got == b.got + Carried(records, s.sent, link) && forall m :: m in ms ==> AllPieces(records, m, link)
    ensures GotFirst(s, c, link.mtu, |s.sent|)
  {
    hide Pieces, CarriesPiece;
    forall i, p | 0 <= i < |s.sent| && p in Pieces(s.sent[i].h.content, link.mtu)
      ensures (i, p) in c.got
    {
      if i >= |a.sent| {
        assert s.sent[i] == ms[i - |a.sent|];
        assert AllPieces(records, s.sent[i], link);
      }
    }
  }

  /** The datagrams of a flight unpack to its records. */
  lemma SentUnpacks(records: seq<Bytes>, mtu: Mtu) returns (ds: seq<Bytes>)
    requires records != [] && AllFramedNonEmpty(records)
    ensures Sending.Sent(Ok(records), mtu) == Ok(ds) && UnpackedAll(ds) == Ok(records)
  {
    hide AllFramedNonEmpty;
    PackUnpack(records, mtu);
    ds := Datagrams(records, mtu);
  }

  /** The packets are in turn and extend what has been sent by `more`. */
  ghost predicate Sends(a: Side, pkts: seq<Packet>, more: seq<SentMessage>) {
    AllInTurn(a.sent, pkts) && Planned(a.sent, pkts) == a.sent + more
  }

  /** What the sender has done when its records are written. */
  lemma SentAll(a: Side, suite: Option<CipherSuite>, mtu: Mtu, pkts: seq<Packet>, more: seq<SentMessage>, records: seq<Bytes>)
      returns (s: Side, ds: seq<Bytes>)
    requires Sends(a, pkts, more) && records != [] && AllFramedNonEmpty(records)
    requires Raw(SenderState(a.lsn, a.Cache()), suite, mtu, a.IsClient(), pkts).1 == Ok(records)
    ensures Network.Transmitted(a, suite, mtu, pkts) == (s, Ok(ds)) && UnpackedAll(ds) == Ok(records)
    ensures s.sent == a.sent + more && s.lsn == Raw(SenderState(a.lsn, a.Cache()), suite, mtu, a.IsClient(), pkts).0.lsn
    ensures s.trace.reader == a.trace.reader.(cache := s.trace.reader.cache) && s.got == a.got
  {
    hide Raw, TableAfter, AllInTurn, Planned, AllFramedNonEmpty, Sending.Sent;
    SentIsPlanned(SenderState(a.lsn, a.Cache()), suite, mtu, a.IsClient(), pkts, a.sent);
    ds := SentUnpacks(records, mtu);
    s := Network.Transmitted(a, suite, mtu, pkts).0;
  }

  /** The other direction does not notice that a side has sent something. */
  lemma StillHeeds(b: Side, a: Side, s: Side, mtu: Mtu, epoch: int, total: int)
    requires Heeds(b, a, mtu, epoch, total)
    requires s.trace.reader == a.trace.reader.(cache := s.trace.reader.cache) && s.got == a.got
    ensures Heeds(b, s, mtu, epoch, total)
  {
    hide Pieces, Size, Counter;
  }

  /** Nor that it has received something. */
  lemma HeedsStill(b: Side, c: Side, a: Side, mtu: Mtu, epoch: int, total: int)
    requires Heeds(b, a, mtu, epoch, total) && c.sent == b.sent && c.lsn == b.lsn
    ensures Heeds(c, a, mtu, epoch, total)
  {
    hide Pieces, Size, Counter, Below;
  }

  /** A flight of messages without protection. */
  lemma ClearHeard(a: Side, b: Side, suite: Option<CipherSuite>, keys: Option<CipherSuite>, passes: Detector, link: Link,
                   ms: seq<SentMessage>, pkts: seq<Packet>, total: nat) returns (s: Side, ds: seq<Bytes>)
    requires link.Valid() && LetsNewerThrough(passes) && Heeds(a, b, link.mtu, 0, total)
    requires Packed(pkts, ms) && Sends(a, pkts, ms)
    requires ms != [] && total + AtMost(|ms|) <= ENOUGH
    ensures Network.Transmitted(a, suite, link.mtu, pkts) == (s, Ok(ds)) && s.sent == a.sent + ms
    ensures s.trace.reader == a.trace.reader.(cache := s.trace.reader.cache) && s.got == a.got
    ensures Heeds(s, Hearing(b, passes, keys, ds, s.sent, link), link.mtu, 0, total + AtMost(|ms|))
  {
    hide Raw, Runs, Taken, ExaminedAll, Carried, AllPieces, GotFirst, InStep, AllFramedNonEmpty, Packed, Sends, UnpackedAll, Network.Transmitted;
    var records := ClearFlight(SenderState(a.lsn, a.Cache()), b.trace, suite, keys, passes, a.IsClient(), ms, pkts, link, total);
    s, ds := SentAll(a, suite, link.mtu, pkts, ms, records);
    HearingAll(b, passes, keys, ds, records, s.sent, link);
    AllCarried(a, b, link, ms, records, s, Hearing(b, passes, keys, ds, s.sent, link));
  }

  /** The last two packets, to a receiver with keys. */
  lemma ClosingHeard(a: Side, b: Side, suite: Option<CipherSuite>, keys: Option<CipherSuite>, passes: Detector, link: Link,
                     m: SentMessage, total: nat) returns (s: Side, ds: seq<Bytes>)
    requires link.Valid() && LetsNewerThrough(passes) && Heeds(a, b, link.mtu, 0, total)
    requires Short(m, 1) && CanSeal(suite, 1, link) && total + MOST + 1 <= ENOUGH
    requires HasKeys(keys, link)
    requires Sends(a, [CHANGE, PacketOf(m)], [m])
    ensures Network.Transmitted(a, suite, link.mtu, [CHANGE, PacketOf(m)]) == (s, Ok(ds)) && s.sent == a.sent + [m]
    ensures s.trace.reader == a.trace.reader.(cache := s.trace.reader.cache) && s.got == a.got
    ensures Heeds(s, Hearing(b, passes, keys, ds, s.sent, link), link.mtu, 1, total + MOST + 1)
  {
    hide Raw, Runs, Taken, ExaminedAll, Carried, AllPieces, GotFirst, InStep, AllFramedNonEmpty, Sends, UnpackedAll,
         Network.Transmitted, CanSeal, Opens, Frames, Closing, Writes, ChangeRecord, KeepsHeader, Pieces, Hearing, Size;
    StepRoom(b.trace.reader, a.lsn, 0, total, MOST + 1);
    var records := ClosingWritten(SenderState(a.lsn, a.Cache()), suite, a.IsClient(), m, link);
    KeysFrame(keys, link);
    ClosingFramed(records, m, link, Counter(a.lsn, 0), Counter(a.lsn, 1));
    ClosingLength(records, m, link, Counter(a.lsn, 0), Counter(a.lsn, 1));
    s, ds := SentAll(a, suite, link.mtu, [CHANGE, PacketOf(m)], [m], records);
    FewerNeedLess(b.trace.reader, |records|, MOST + 1);
    ClosingTaken(b.trace, keys, passes, records, true, m, link, Counter(a.lsn, 0), Counter(a.lsn, 1));
    HearingAll(b, passes, keys, ds, records, s.sent, link);
    var c := Hearing(b, passes, keys, ds, s.sent, link);
    AllCarried(a, b, link, [m], records[1..], s, c);
    ClosingInStep(b.trace.reader, c.trace.reader, a.lsn, s.lsn, |records|, total);
  }

  lemma ClosingLength(records: seq<Bytes>, m: SentMessage, link: Link, n: nat, k: nat)
    requires link.Valid() && Closing(records, m, link, n, k)
    ensures 2 <= |records| <= MOST + 1
  {
  }

  lemma ClosingInStep(r: Reader, s: Reader, before: seq<nat>, after: seq<nat>, count: nat, total: nat)
    requires InStep(r, before, 0, total) && 1 <= count <= MOST + 1 && s.remoteEpoch == 1
    requires Counted(Bumped(before, 0), after, 1, count - 1)
    requires Below(s, 0, Counter(before, 0) + 1) && Below(s, 1, Counter(before, 1) + count - 1)
    requires Size(s.buffer.cache) <= Size(r.buffer.cache) + RECORD_ROOM * count
    ensures InStep(s, after, 1, total + MOST + 1)
  {
    hide Size, Below, Bumped, Counter;
    assert Counter(after, 0) == Counter(before, 0) + 1 && Counter(after, 1) == Counter(before, 1) + count - 1;
  }

  // Flight 5 comes before the server has keys.

  /** The last two packets wait in `b`'s queue. */
  ghost predicate PutBy(a: Side, b: Side, link: Link, m: SentMessage, n: int, k: int, total: int) {
    var r := b.trace.reader;
    Closing(r.encrypted, m, link, n, k) && a.sent != [] && a.sent[|a.sent| - 1] == m && GotFirst(a, b, link.mtu, |a.sent| - 1)
    && r.remoteEpoch == 0 && Below(r, 0, n) && Below(r, 1, k)
    && n + 1 == Counter(a.lsn, 0) && k + |r.encrypted| - 1 == Counter(a.lsn, 1)
    && n + k + MOST + 1 <= total && Size(r.buffer.cache) <= RECORD_ROOM * (n + k)
  }

  lemma KeysHeard(a: Side, b: Side, suite: Option<CipherSuite>, keys: Option<CipherSuite>, passes: Detector, link: Link,
                  first: SentMessage, m: SentMessage, total: nat) returns (s: Side, ds: seq<Bytes>, n: nat, k: nat)
    requires link.Valid() && LetsNewerThrough(passes) && Heeds(a, b, link.mtu, 0, total)
    requires Short(first, 0) && Short(m, 1) && CanSeal(suite, 1, link) && Frames(link.sealer, RecordLimit(link.mtu))
    requires total + 2 * MOST + 1 <= ENOUGH && !Ready(keys)
    requires Sends(a, [PacketOf(first), CHANGE, PacketOf(m)], [first, m])
    ensures Network.Transmitted(a, suite, link.mtu, [PacketOf(first), CHANGE, PacketOf(m)]) == (s, Ok(ds)) && s.sent == a.sent + [first, m]
    ensures s.trace.reader == a.trace.reader.(cache := s.trace.reader.cache) && s.got == a.got
    ensures PutBy(s, Hearing(b, passes, keys, ds, s.sent, link), link, m, n, k, total + 2 * MOST + 1)
  {
    hide Raw, Runs, Taken, ExaminedAll, Carried, AllPieces, GotFirst, InStep, AllFramedNonEmpty, Sends, UnpackedAll,
         Network.Transmitted, CanSeal, Frames, Closing, Below, Size, Counter, Writes, ChangeRecord, Hearing, Bumped;
    var p, mid := PacketOf(first), total + MOST;
    var before := SenderState(a.lsn, a.Cache());
    var head := ClearFlight(before, b.trace, suite, keys, passes, a.IsClient(), [first], [p], link, total);
    assert first in [first];
    var between := Raw(before, suite, link.mtu, a.IsClient(), [p]).0;
    var t := ExaminedAll(b.trace, keys, passes, head, true);
    StepRoom(t.reader, between.lsn, 0, mid, MOST + 1);
    n, k := Counter(between.lsn, 0), Counter(between.lsn, 1);
    var tail := ClosingWritten(between, suite, a.IsClient(), m, link);
    RawInTwo(before, suite, link.mtu, a.IsClient(), [p], [CHANGE, PacketOf(m)]);
    assert [p] + [CHANGE, PacketOf(m)] == [p, CHANGE, PacketOf(m)];
    ClosingFramed(tail, m, link, n, k);
    ClosingLength(tail, m, link, n, k);
    FramedBoth(head, tail);
    s, ds := SentAll(a, suite, link.mtu, [p, CHANGE, PacketOf(m)], [first, m], head + tail);
    FewerNeedLess(t.reader, 1, MOST + 1);
    ClosingPutOff(t, keys, passes, tail, m, link, n, k);
    InTwo(b.trace, keys, passes, head, tail, true);
    HearingAll(b, passes, keys, ds, head + tail, s.sent, link);
    var c := Hearing(b, passes, keys, ds, s.sent, link);
    assert head + [] == head && t.reader.encrypted + tail == tail;
    AllButLast(a, b, link, first, m, head, s, c);
    InStepRoom(t.reader, between.lsn, mid);
    BelowSame(t.reader, c.trace.reader, 0, n);
    BelowSame(t.reader, c.trace.reader, 1, k);
  }

  lemma BelowSame(r: Reader, s: Reader, epoch: U16, n: nat)
    requires Below(r, epoch, n) && forall e: U16 :: Accepted(s.detectors, e) == Accepted(r.detectors, e)
    ensures Below(s, epoch, n)
  {
  }

  lemma InStepRoom(r: Reader, lsn: seq<nat>, total: nat)
    requires InStep(r, lsn, 0, total)
    ensures Counter(lsn, 0) + Counter(lsn, 1) <= total && Size(r.buffer.cache) <= RECORD_ROOM * (Counter(lsn, 0) + Counter(lsn, 1))
    ensures Below(r, 0, Counter(lsn, 0)) && Below(r, 1, Counter(lsn, 1)) && r.remoteEpoch == 0
  {
  }

  lemma FramedBoth(a: seq<Bytes>, b: seq<Bytes>)
    requires AllFramedNonEmpty(a) && AllFramedNonEmpty(b)
    ensures AllFramedNonEmpty(a + b)
  {
  }

  lemma AllButLast(a: Side, b: Side, link: Link, first: SentMessage, m: SentMessage, records: seq<Bytes>, s: Side, c: Side)
    requires link.Valid() && GotFirst(a, b, link.mtu, |a.sent|) && s.sent == a.sent + [first, m]
    requires c.got == b.got + Carried(records, s.sent, link) && AllPieces(records, first, link)
    ensures GotFirst(s, c, link.mtu, |s.sent| - 1)
  {
    hide Pieces, CarriesPiece;
  }

  lemma {:induction false} RawInTwo(s: SenderState, suite: Option<CipherSuite>, mtu: Mtu, isClient: bool, a: seq<Packet>, b: seq<Packet>)
    requires Raw(s, suite, mtu, isClient, a).1.Ok?
    ensures var (t, first) := Raw(s, suite, mtu, isClient, a);
            Raw(s, suite, mtu, isClient, a + b) == After(first.value, Raw(t, suite, mtu, isClient, b))
    decreases |a|
  {
    hide RecordsOf, BodiesOf, CachedBefore;
    if a == [] {
      assert a + b == b;
      AfterTwice([], [], Raw(s, suite, mtu, isClient, b));
    } else {
      assert a[0] in a && forall p :: p in a[1..] ==> p in a;
      assert (a + b)[0] == a[0] && (a + b)[1..] == a[1..] + b;
      var (lsn, first) := RecordsOf(s.lsn, suite, a[0], TypeOf(a[0]), BodiesOf(a[0], mtu));
      var next := SenderState(lsn, CachedBefore(s.cache, a[0], isClient));
      RawInTwo(next, suite, mtu, isClient, a[1..], b);
      var (t, rest) := Raw(next, suite, mtu, isClient, a[1..]);
      AfterTwice(first.value, rest.value, Raw(t, suite, mtu, isClient, b));
    }
  }

  /** Once it has keys, `b` reads its queue. */
  lemma QueueHeard(a: Side, b: Side, keys: Option<CipherSuite>, passes: Detector, link: Link, m: SentMessage, n: nat, k: nat, total: nat)
    requires link.Valid() && LetsNewerThrough(passes) && PutBy(a, b, link, m, n, k, total) && total <= ENOUGH
    requires HasKeys(keys, link)
    ensures Heeds(a, Received(b, passes, Queue(keys), a.sent, link), link.mtu, 1, total)
  {
    hide Runs, Taken, ExaminedAll, Carried, AllPieces, GotFirst, Opens, Frames, Closing, Below, Size, Counter, Writes, ChangeRecord,
         KeepsHeader, Pieces;
    var t, records := b.trace.(reader := b.trace.reader.(encrypted := [])), b.trace.reader.encrypted;
    KeysFrame(keys, link);
    ClosingFramed(records, m, link, n, k);
    ClosingLength(records, m, link, n, k);
    BelowSame(b.trace.reader, t.reader, 0, n);
    BelowSame(b.trace.reader, t.reader, 1, k);
    assert HasRoom(t.reader, |records|);
    ClosingTaken(t, keys, passes, records, false, m, link, n, k);
    var c := Received(b, passes, Queue(keys), a.sent, link);
    assert c.trace == ExaminedAll(t, keys, passes, records, false);
    LastCarried(a, b, link, m, records[1..], c);
  }

  lemma LastCarried(a: Side, b: Side, link: Link, m: SentMessage, records: seq<Bytes>, c: Side)
    requires link.Valid() && a.sent != [] && a.sent[|a.sent| - 1] == m && GotFirst(a, b, link.mtu, |a.sent| - 1)
    requires c.got == b.got + Carried(records, a.sent, link) && AllPieces(records, m, link)
    ensures GotFirst(a, c, link.mtu, |a.sent|)
  {
    hide Pieces, CarriesPiece;
  }
}
