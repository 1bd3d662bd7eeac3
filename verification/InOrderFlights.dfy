/** Whole flights sent and delivered in order: the receiver keeps up with the sender. */
module InOrderFlights {
  import opened Wrappers
  import opened Bytes
  import opened Headers
  import opened Framing
  import opened Fragmenting
  import opened FragmentBuffers
  import opened CipherSuites
  import opened Sending
  import opened Reading
  import opened IncomingRecords
  import opened Reassembly
  import opened WireRecords
  import opened Network
  import opened InOrder

  // Records of a whole handshake, in both epochs together.

  const ENOUGH := 4000

  const MOST := SHORT + 1

  /** How many records `count` messages have at most. */
  function AtMost(count: int): int {
    MOST * count
  }

  ghost predicate InStep(r: Reader, lsn: seq<nat>, epoch: int, total: int) {
    r.remoteEpoch == epoch
    && Below(r, 0, Counter(lsn, 0)) && Below(r, 1, Counter(lsn, 1))
    && Counter(lsn, 0) + Counter(lsn, 1) <= total
    && Size(r.buffer.cache) <= RECORD_ROOM * (Counter(lsn, 0) + Counter(lsn, 1))
  }

  lemma StepFurther(r: Reader, s: Reader, before: seq<nat>, after: seq<nat>, epoch: U16, count: nat, total: nat)
    requires InStep(r, before, r.remoteEpoch, total) && epoch <= 1
    requires Counted(before, after, epoch, count) && Advanced(r, s, epoch, Counter(before, epoch), count)
    ensures InStep(s, after, s.remoteEpoch, total + count) && s.encrypted == r.encrypted && s.remoteEpoch == r.remoteEpoch
  {
    hide Size, Accepted, Counter;
    assert Counter(after, 1 - epoch) == Counter(before, 1 - epoch);
    assert Accepted(s.detectors, 1 - epoch) == Accepted(r.detectors, 1 - epoch);
  }

  predicate Short(m: SentMessage, epoch: int) {
    m.epoch == epoch && |m.h.content| <= SHORT
  }

  ghost predicate AllPieces(records: seq<Bytes>, m: SentMessage, link: Link) {
    forall p :: p in Pieces(m.h.content, link.mtu) ==> CarriesPiece(records, m, p, link)
  }

  lemma PiecesCarried(records: seq<Bytes>, m: SentMessage, link: Link, n: nat)
    requires link.Valid() && Writes(records, Pieces(m.h.content, link.mtu), m, link, n)
    ensures AllPieces(records, m, link)
  {
    hide Pieces, FragmentRecord;
    var pieces := Pieces(m.h.content, link.mtu);
    forall p | p in pieces
      ensures CarriesPiece(records, m, p, link)
    {
      var k :| 0 <= k < |pieces| && pieces[k] == p;
      assert Carries(records[k], m, link, pieces[k], n + k);
      assert FragmentRecord(records[k], m, link.mtu, link.sealer, p, HeadingOf(m, p, n + k));
    }
  }

  lemma PiecesFramed(records: seq<Bytes>, pieces: seq<Piece>, m: SentMessage, link: Link, n: nat)
    requires link.Valid() && Writes(records, pieces, m, link, n) && (m.epoch != 0 ==> Frames(link.sealer, RecordLimit(link.mtu)))
    ensures AllFramedNonEmpty(records)
  {
    hide FragmentRecord, FramedNonEmpty, Frames;
    forall r | r in records
      ensures FramedNonEmpty(r)
    {
      var k :| 0 <= k < |records| && records[k] == r;
      assert Carries(records[k], m, link, pieces[k], n + k);
      FragmentOnWire(r, m, link.mtu, link.sealer, pieces[k], HeadingOf(m, pieces[k], n + k));
    }
  }

  // Messages without protection

  /** The packets are those of short messages. */
  ghost predicate Packed(pkts: seq<Packet>, ms: seq<SentMessage>) {
    |pkts| == |ms| && forall k :: 0 <= k < |ms| ==> Short(ms[k], 0) && pkts[k] == PacketOf(ms[k])
  }

  lemma RawStep(s: SenderState, suite: Option<CipherSuite>, mtu: Mtu, isClient: bool, p: Packet, rest: seq<Packet>)
    requires RecordsOf(s.lsn, suite, p, TypeOf(p), BodiesOf(p, mtu)).1.Ok?
    ensures var (lsn, first) := RecordsOf(s.lsn, suite, p, TypeOf(p), BodiesOf(p, mtu));
            Raw(s, suite, mtu, isClient, [p] + rest)
            == After(first.value, Raw(SenderState(lsn, CachedBefore(s.cache, p, isClient)), suite, mtu, isClient, rest))
  {
    hide RecordsOf, BodiesOf, CachedBefore;
    assert ([p] + rest)[1..] == rest;
  }

  /** What a stretch of records does to a receiver that is in step. */
  ghost predicate Follows(t: Trace, suite: Option<CipherSuite>, passes: Detector, records: seq<Bytes>, enqueue: bool,
                          lsn: seq<nat>, epoch: U16, total: nat) {
    var u := ExaminedAll(t, suite, passes, records, enqueue).reader;
    Runs(t, suite, passes, records, enqueue) && InStep(u, lsn, epoch, total) && u.encrypted == t.reader.encrypted
  }

  lemma {:induction false} ClearFlight(s: SenderState, t: Trace, suite: Option<CipherSuite>, keys: Option<CipherSuite>, passes: Detector,
                                       isClient: bool, ms: seq<SentMessage>, pkts: seq<Packet>, link: Link, total: nat) returns (records: seq<Bytes>)
    requires link.Valid() && LetsNewerThrough(passes)
    requires Packed(pkts, ms)
    requires InStep(t.reader, s.lsn, 0, total) && total + AtMost(|ms|) <= ENOUGH
    ensures var (after, raw) := Raw(s, suite, link.mtu, isClient, pkts);
            raw == Ok(records) && Follows(t, keys, passes, records, true, after.lsn, 0, total + AtMost(|ms|))
    ensures Taken(t, keys, passes, records, true) == records && AllFramedNonEmpty(records) && |ms| <= |records|
    ensures forall m :: m in ms ==> AllPieces(records, m, link)
    decreases |ms|
  {
    hide Pieces, RecordsOf, BodiesOf, CachedBefore, Size, Accepted, Examined, ExaminedAll, Taken, Runs, InStep, FramedNonEmpty, Counter,
         Counted, AllPieces, CanSeal, Writes, Advanced, Below, Handled, HasKeys, Frames, Encrypts, Stops;
    if ms == [] {
      records := [];
      NoRecord(t, keys, passes, true);
    } else {
      var m, p := ms[0], pkts[0];
      assert pkts == [p] + pkts[1..];
      assert CanSeal(suite, 0, link) by { NothingToSeal(suite, link); }
      StepRoom(t.reader, s.lsn, 0, total, MOST);
      var first := MessageWritten(s.lsn, suite, m, link);
      PiecesTaken(t, keys, passes, first, true, m, link, Pieces(m.h.content, link.mtu), Counter(s.lsn, 0));
      PiecesCarried(first, m, link, Counter(s.lsn, 0));
      PiecesFramed(first, Pieces(m.h.content, link.mtu), m, link, Counter(s.lsn, 0));
      var next := ExaminedAll(t, keys, passes, first, true);
      var lsn := RecordsOf(s.lsn, suite, p, TypeOf(p), BodiesOf(p, link.mtu)).0;
      StepFurther(t.reader, next.reader, s.lsn, lsn, 0, |first|, total);
      StepMore(next.reader, lsn, 0, total + |first|, total + MOST);
      var state := SenderState(lsn, CachedBefore(s.cache, p, isClient));
      var rest := ClearFlight(state, next, suite, keys, passes, isClient, ms[1..], pkts[1..], link, total + MOST);
      RawStep(s, suite, link.mtu, isClient, p, pkts[1..]);
      InTwo(t, keys, passes, first, rest, true);
      records := first + rest;
      CarriedBoth(first, rest, ms, link);
    }
  }

  lemma NothingToSeal(suite: Option<CipherSuite>, link: Link)
    ensures CanSeal(suite, 0, link)
  {
  }

  /** There is room for what comes next. */
  lemma StepRoom(r: Reader, lsn: seq<nat>, epoch: U16, total: nat, more: nat)
    requires InStep(r, lsn, epoch, total) && total + more <= ENOUGH
    ensures HasRoom(r, more) && Below(r, 0, Counter(lsn, 0)) && Below(r, 1, Counter(lsn, 1)) && r.remoteEpoch == epoch
    ensures Counter(lsn, 0) + SHORT < MAX_SEQUENCE_NUMBER && Counter(lsn, 1) + SHORT < MAX_SEQUENCE_NUMBER
  {
    hide Size, Counter, Accepted;
  }

  lemma StepMore(r: Reader, lsn: seq<nat>, epoch: int, total: int, more: int)
    requires InStep(r, lsn, epoch, total) && total <= more
    ensures InStep(r, lsn, epoch, more)
  {
    hide Size, Counter, Below;
  }

  lemma FewerNeedLess(r: Reader, few: nat, many: nat)
    requires HasRoom(r, many) && few <= many
    ensures HasRoom(r, few)
  {
    hide Size;
  }

  lemma CarriedMore(records: seq<Bytes>, more: seq<Bytes>, m: SentMessage, link: Link)
    requires link.Valid() && AllPieces(records, m, link) && forall r :: r in records ==> r in more
    ensures AllPieces(more, m, link)
  {
    hide Pieces, FragmentRecord;
    forall p | p in Pieces(m.h.content, link.mtu)
      ensures CarriesPiece(more, m, p, link)
    {
      assert CarriesPiece(records, m, p, link);
      var r, header :| r in records && FragmentRecord(r, m, link.mtu, link.sealer, p, header);
      assert r in more && FragmentRecord(r, m, link.mtu, link.sealer, p, header);
    }
  }

  lemma CarriedBoth(first: seq<Bytes>, rest: seq<Bytes>, ms: seq<SentMessage>, link: Link)
    requires link.Valid() && ms != [] && AllPieces(first, ms[0], link) && forall m :: m in ms[1..] ==> AllPieces(rest, m, link)
    ensures forall m :: m in ms ==> AllPieces(first + rest, m, link)
  {
    hide AllPieces;
    forall m | m in ms
      ensures AllPieces(first + rest, m, link)
    {
      if m == ms[0] {
        CarriedMore(first, first + rest, m, link);
      } else {
        assert m in ms[1..];
        CarriedMore(rest, first + rest, m, link);
      }
    }
  }

  // The change of epoch and the Finished

  const CHANGE := Packet(PROTOCOL_VERSION1_2, 0, OtherContent(ContentType.ChangeCipherSpec, [1]), false)

  lemma ChangeWritten(lsn: seq<nat>, suite: Option<CipherSuite>, mtu: Mtu)
    requires Counter(lsn, 0) <= MAX_SEQUENCE_NUMBER
    ensures RecordsOf(lsn, suite, CHANGE, TypeOf(CHANGE), BodiesOf(CHANGE, mtu)) == (Bumped(lsn, 0), Ok([ChangeRecord(Counter(lsn, 0))]))
  {
    hide RecordLayerHeader.Marshal, Bumped, Counter;
    var bodies: seq<Bytes> := [[1]];
    assert bodies[1..] == [];
    assert [ChangeRecord(Counter(lsn, 0))] + [] == [ChangeRecord(Counter(lsn, 0))];
  }

  /** The records of the last two packets of a flight: the change of epoch under number `n`, then the
      Finished numbered from `k`. */
  ghost predicate Closing(records: seq<Bytes>, m: SentMessage, link: Link, n: int, k: int) {
    0 <= n <= MAX_SEQUENCE_NUMBER && 2 <= |records| <= MOST + 1 && Short(m, 1)
    && records[0] == ChangeRecord(n) && Writes(records[1..], Pieces(m.h.content, link.mtu), m, link, k)
  }

  lemma ClosingWritten(s: SenderState, suite: Option<CipherSuite>, isClient: bool, m: SentMessage, link: Link) returns (records: seq<Bytes>)
    requires link.Valid() && Short(m, 1) && CanSeal(suite, 1, link)
    requires Counter(s.lsn, 0) < MAX_SEQUENCE_NUMBER && Counter(s.lsn, 1) + SHORT < MAX_SEQUENCE_NUMBER
    ensures var (after, raw) := Raw(s, suite, link.mtu, isClient, [CHANGE, PacketOf(m)]);
            raw == Ok(records) && Counted(Bumped(s.lsn, 0), after.lsn, 1, |records| - 1)
    ensures Closing(records, m, link, Counter(s.lsn, 0), Counter(s.lsn, 1))
  {
    hide RecordsOf, BodiesOf, CachedBefore, Pieces, Writes, CanSeal, Counted, ChangeRecord, Bumped, Counter;
    ChangeWritten(s.lsn, suite, link.mtu);
    var lsn := Bumped(s.lsn, 0);
    var state := SenderState(lsn, CachedBefore(s.cache, CHANGE, isClient));
    var p := PacketOf(m);
    var fin := MessageWritten(lsn, suite, m, link);
    RawStep(s, suite, link.mtu, isClient, CHANGE, [p]);
    RawStep(state, suite, link.mtu, isClient, p, []);
    assert [CHANGE] + [p] == [CHANGE, p] && [p] + [] == [p];
    records := [ChangeRecord(Counter(s.lsn, 0))] + fin;
    assert records[1..] == fin && fin + [] == fin;
  }

  lemma ClosingFramed(records: seq<Bytes>, m: SentMessage, link: Link, n: nat, k: nat)
    requires link.Valid() && Closing(records, m, link, n, k) && Frames(link.sealer, RecordLimit(link.mtu))
    ensures AllFramedNonEmpty(records) && AllPieces(records[1..], m, link)
  {
    hide Writes, Pieces, FramedNonEmpty, ChangeRecord, AllPieces, Frames;
    ChangeReads(n);
    PiecesFramed(records[1..], Pieces(m.h.content, link.mtu), m, link, k);
    PiecesCarried(records[1..], m, link, k);
    assert forall r :: r in records ==> r == records[0] || r in records[1..];
  }

  /** A receiver with keys takes both. */
  lemma ClosingTaken(t: Trace, keys: Option<CipherSuite>, passes: Detector, records: seq<Bytes>, enqueue: bool,
                     m: SentMessage, link: Link, n: nat, k: nat)
    requires link.Valid() && LetsNewerThrough(passes) && Closing(records, m, link, n, k)
    requires HasKeys(keys, link)
    requires t.reader.remoteEpoch == 0 && Below(t.reader, 0, n) && Below(t.reader, 1, k) && HasRoom(t.reader, |records|)
    ensures Runs(t, keys, passes, records, enqueue) && Taken(t, keys, passes, records, enqueue) == records[1..]
    ensures var u := ExaminedAll(t, keys, passes, records, enqueue).reader;
            u.remoteEpoch == 1 && u.encrypted == t.reader.encrypted && Below(u, 0, n + 1) && Below(u, 1, k + |records| - 1)
            && Size(u.buffer.cache) <= Size(t.reader.buffer.cache) + RECORD_ROOM * |records|
  {
    hide Handled, Writes, Pieces, Opens, ChangeRecord, Size, Examined, ExaminedAll, Taken, Runs;
    FewerNeedLess(t.reader, 1, |records|);
    ChangeTaken(t.reader, keys, passes, n, enqueue);
    var next := Examined(t, keys, passes, records[0], enqueue);
    FirstRecord(t, keys, passes, records, enqueue);
    assert Accepted(next.reader.detectors, 1) == Accepted(t.reader.detectors, 1) + {};
    PiecesTaken(next, keys, passes, records[1..], enqueue, m, link, Pieces(m.h.content, link.mtu), k);
    var u := ExaminedAll(next, keys, passes, records[1..], enqueue).reader;
    assert Accepted(u.detectors, 0) == Accepted(next.reader.detectors, 0);
  }

  /** One without keys keeps them for later. */
  lemma ClosingPutOff(t: Trace, keys: Option<CipherSuite>, passes: Detector, records: seq<Bytes>,
                      m: SentMessage, link: Link, n: nat, k: nat)
    requires link.Valid() && LetsNewerThrough(passes) && Closing(records, m, link, n, k) && Frames(link.sealer, RecordLimit(link.mtu))
    requires !Ready(keys) && t.reader.remoteEpoch == 0 && Below(t.reader, 0, n) && HasRoom(t.reader, 1)
    ensures Runs(t, keys, passes, records, true) && Taken(t, keys, passes, records, true) == []
    ensures AllPutOff(t.reader, ExaminedAll(t, keys, passes, records, true).reader, records)
  {
    hide Handled, Writes, Pieces, Frames, ChangeRecord, Size, Accepted, Examined, ExaminedAll, Taken, Runs;
    ChangePutOff(t.reader, keys, passes, n);
    var next := Examined(t, keys, passes, records[0], true);
    FirstRecord(t, keys, passes, records, true);
    PiecesPutOff(next, keys, passes, records[1..], m, link, Pieces(m.h.content, link.mtu), k);
    assert t.reader.encrypted + [records[0]] + records[1..] == t.reader.encrypted + records;
  }

  // Datagrams

  /** A side receives datagrams one after the other. */
  ghost function Hearing(b: Side, passes: Detector, keys: Option<CipherSuite>, ds: seq<Bytes>, sent: seq<SentMessage>, link: Link): Side
    decreases |ds|
  {
    if ds == [] then b else Hearing(Received(b, passes, Datagram(ds[0], keys), sent, link), passes, keys, ds[1..], sent, link)
  }

  /** However the records were grouped, it works through them one after the other. */
  lemma {:induction false} HearingAll(b: Side, passes: Detector, keys: Option<CipherSuite>, ds: seq<Bytes>, records: seq<Bytes>,
                                      sent: seq<SentMessage>, link: Link)
    requires link.Valid() && UnpackedAll(ds) == Ok(records) && Runs(b.trace, keys, passes, records, true)
    ensures Hearing(b, passes, keys, ds, sent, link)
         == b.(trace := ExaminedAll(b.trace, keys, passes, records, true),
               got := b.got + Carried(Taken(b.trace, keys, passes, records, true), sent, link))
    decreases |ds|
  {
    hide Unpacked, Runs, ExaminedAll, Taken, Carried, Handled, Examined;
    if ds == [] {
      NoRecord(b.trace, keys, passes, true);
      NothingCarried(sent, link);
      assert b.got + {} == b.got;
    } else {
      var first, rest := Unpacked(ds[0]).value, UnpackedAll(ds[1..]).value;
      InParts(b.trace, keys, passes, first, rest);
      InTwo(b.trace, keys, passes, first, rest, true);
      var next := Received(b, passes, Datagram(ds[0], keys), sent, link);
      HearingAll(next, passes, keys, ds[1..], rest, sent, link);
      CarriedConcat(Taken(b.trace, keys, passes, first, true), Taken(next.trace, keys, passes, rest, true), sent, link);
    }
  }

  lemma {:induction false} InParts(t: Trace, keys: Option<CipherSuite>, passes: Detector, a: seq<Bytes>, b: seq<Bytes>)
    requires Runs(t, keys, passes, a + b, true)
    ensures Runs(t, keys, passes, a, true)
    decreases |a|
  {
    hide Handled, Stops, Examined;
    if a != [] {
      assert (a + b)[0] == a[0] && (a + b)[1..] == a[1..] + b;
      InParts(Examined(t, keys, passes, a[0], true), keys, passes, a[1..], b);
    }
  }
}
