/** When nothing is lost, repeated or reordered: what the receiver takes of a flight. */
module InOrder {
  import opened Wrappers
  import opened Bytes
  import opened Headers
  import opened Framing
  import opened Fragmenting
  import opened FragmentBuffers
  import opened HandshakeCaches
  import opened CipherSuites
  import opened Sending
  import opened Reading
  import opened IncomingRecords
  import opened Reassembly
  import opened WireRecords
  import opened Network

  /** A number above all that have been accepted passes. */
  ghost predicate LetsNewerThrough(passes: Detector) {
    forall accepted, n :: (forall k :: k in accepted ==> k < n) ==> passes(accepted, n)
  }

  // Bodies here are short, so that the fragment buffer has room for a whole handshake.

  const SHORT := 200

  const RECORD_ROOM := RECORD_LAYER_HEADER_SIZE + HANDSHAKE_HEADER_LENGTH + SHORT

  ghost predicate Below(r: Reader, epoch: int, n: int) {
    forall k :: k in Accepted(r.detectors, epoch) ==> k < n
  }

  ghost predicate HasRoom(r: Reader, records: int) {
    Size(r.buffer.cache) + RECORD_ROOM * records < FRAGMENT_BUFFER_MAX_SIZE
  }

  // One record

  lemma PopSize(b: Buffer)
    ensures Size(Popped(b).0.cache) <= Size(b.cache)
  {
    SizeBelowOneEntry(b.cache, b.cache - {b.current}, b.current, 0x1_0000);
  }

  lemma {:induction false} DrainedSize(buffer: Buffer, cache: seq<Item>, isClient: bool)
    ensures Size(Drained(buffer, cache, isClient).0.cache) <= Size(buffer.cache)
    decreases |buffer.cache|
  {
    hide Size, Popped, CachedMessage;
    if Popped(buffer).1.Ok? {
      PopShrinks(buffer);
      PopSize(buffer);
      var (next, popped) := Popped(buffer);
      DrainedSize(next, CachedMessage(cache, popped.value.0, popped.value.1, !isClient), isClient);
    }
  }

  /** What a record leaves of the reader when it has been accepted under its number. */
  ghost predicate TookOne(r: Reader, s: Reader, epoch: int, n: int) {
    s.remoteEpoch == r.remoteEpoch && s.encrypted == r.encrypted
    && (forall e: U16 :: Accepted(s.detectors, e) == Accepted(r.detectors, e) + (if e == epoch then {n} else {}))
  }

  /** The receiver has keys, and they open what this direction protects. */
  ghost predicate HasKeys(keys: Option<CipherSuite>, link: Link) {
    Ready(keys) && Opens(link.sealer, keys.value, RecordLimit(link.mtu))
  }

  lemma KeysFrame(keys: Option<CipherSuite>, link: Link)
    requires HasKeys(keys, link)
    ensures Ready(keys) && Frames(link.sealer, RecordLimit(link.mtu))
  {
  }

  lemma FragmentTaken(r: Reader, suite: Option<CipherSuite>, passes: Detector, record: Bytes, enqueue: bool,
                      m: SentMessage, link: Link, p: Piece, header: RecordLayerHeader)
    requires link.Valid() && LetsNewerThrough(passes) && FragmentRecord(record, m, link.mtu, link.sealer, p, header)
    requires m.epoch <= r.remoteEpoch && (m.epoch != 0 ==> HasKeys(suite, link))
    requires Below(r, m.epoch, header.sequenceNumber) && HasRoom(r, 1) && |m.h.content| <= SHORT
    ensures var (s, o) := Handled(r, suite, passes, record, enqueue);
            o == Outcome(true, None, None) && TookOne(r, s, m.epoch, header.sequenceNumber)
            && Size(s.buffer.cache) <= Size(r.buffer.cache) + SHORT
  {
    hide RecordLayerHeader.Unmarshal, RecordLayerHeader.Marshal, FragmentBytes, Pieces, FragmentBuffers.Pushed, Size, Drained, Opens,
         FragmentHeader, PaddedDetectors, Frames;
    if m.epoch != 0 {
      KeysFrame(suite, link);
    }
    FragmentOnWire(record, m, link.mtu, link.sealer, p, header);
    var h := RecordLayerHeader.Unmarshal(record).value;
    var padded := r.(detectors := PaddedDetectors(r.detectors, h.epoch));
    assert Accepted(padded.detectors, h.epoch) == padded.detectors[h.epoch];
    var plain := FragmentOpened(record, m, link.mtu, link.sealer, p, header, suite, h);
    PushedPlain(r.buffer, plain, m.h, p);
    var f := Fragment(RecordLayerHeader.Unmarshal(plain).value, FragmentHeader(m.h, p), p.data);
    FragmentBuffers.AddedSize(r.buffer.cache, f);
    DrainedSize(r.buffer.(cache := FragmentBuffers.Added(r.buffer.cache, f)), r.cache, r.isClient);
    AcceptedAfter(padded, h);
  }

  /** The record that changes the epoch. */
  function ChangeRecord(n: U48): Bytes {
    RecordLayerHeader(ContentType.ChangeCipherSpec, PROTOCOL_VERSION1_2, 0, n, 1).Marshal() + [1]
  }

  lemma ChangeReads(n: U48)
    ensures RecordLayerHeader.Unmarshal(ChangeRecord(n))
         == Ok(RecordLayerHeader(ContentType.ChangeCipherSpec, PROTOCOL_VERSION1_2, 0, n, 1))
    ensures |ChangeRecord(n)| == RECORD_LAYER_HEADER_SIZE + 1 && ChangeRecord(n)[RECORD_LAYER_HEADER_SIZE..] == [1]
    ensures FramedNonEmpty(ChangeRecord(n))
  {
    hide RecordLayerHeader.Marshal, RecordLayerHeader.Unmarshal;
    var header := RecordLayerHeader(ContentType.ChangeCipherSpec, PROTOCOL_VERSION1_2, 0, n, 1);
    RecordHeaderRoundTrip(header, [1]);
    LengthTail(header);
    RawHead(header, [1]);
  }

  /** With keys, it is taken and the epoch steps. */
  lemma ChangeTaken(r: Reader, suite: Option<CipherSuite>, passes: Detector, n: U48, enqueue: bool)
    requires LetsNewerThrough(passes) && Ready(suite) && r.remoteEpoch == 0 && Below(r, 0, n) && HasRoom(r, 1)
    ensures var (s, o) := Handled(r, suite, passes, ChangeRecord(n), enqueue);
            o == NOTHING && TookOne(r, s.(remoteEpoch := 0), 0, n) && s.remoteEpoch == 1 && s.buffer == r.buffer
  {
    hide RecordLayerHeader.Unmarshal, ChangeRecord, Size, PaddedDetectors;
    ChangeReads(n);
    var padded := r.(detectors := PaddedDetectors(r.detectors, 0));
    assert Accepted(padded.detectors, 0) == padded.detectors[0];
    AcceptedAfter(padded, RecordLayerHeader.Unmarshal(ChangeRecord(n)).value);
  }

  /** A record that has to wait for the keys. */
  ghost predicate PutOff(r: Reader, s: Reader, record: Bytes) {
    s.remoteEpoch == r.remoteEpoch && s.encrypted == r.encrypted + [record] && s.buffer == r.buffer
    && (forall e: U16 :: Accepted(s.detectors, e) == Accepted(r.detectors, e))
  }

  lemma ChangePutOff(r: Reader, suite: Option<CipherSuite>, passes: Detector, n: U48)
    requires LetsNewerThrough(passes) && !Ready(suite) && Below(r, 0, n) && HasRoom(r, 1)
    ensures var (s, o) := Handled(r, suite, passes, ChangeRecord(n), true);
            o == NOTHING && PutOff(r, s, ChangeRecord(n))
  {
    hide RecordLayerHeader.Unmarshal, ChangeRecord, Size, PaddedDetectors;
    ChangeReads(n);
    var padded := r.(detectors := PaddedDetectors(r.detectors, 0));
    assert Accepted(padded.detectors, 0) == padded.detectors[0];
  }

  lemma LaterPutOff(r: Reader, suite: Option<CipherSuite>, passes: Detector, record: Bytes,
                    m: SentMessage, link: Link, p: Piece, header: RecordLayerHeader)
    requires link.Valid() && FragmentRecord(record, m, link.mtu, link.sealer, p, header)
    requires Frames(link.sealer, RecordLimit(link.mtu)) && m.epoch == 1 && r.remoteEpoch == 0
    ensures var (s, o) := Handled(r, suite, passes, record, true);
            o == NOTHING && PutOff(r, s, record)
  {
    hide RecordLayerHeader.Unmarshal, RecordLayerHeader.Marshal, FragmentBytes, Pieces, Frames, Checked;
    FragmentOnWire(record, m, link.mtu, link.sealer, p, header);
  }

  // A stretch of records

  /** No record ends the work. */
  ghost predicate Runs(t: Trace, suite: Option<CipherSuite>, passes: Detector, pkts: seq<Bytes>, enqueue: bool)
    decreases |pkts|
  {
    pkts == []
    || (!Stops(Handled(t.reader, suite, passes, pkts[0], enqueue).1)
        && Runs(Examined(t, suite, passes, pkts[0], enqueue), suite, passes, pkts[1..], enqueue))
  }

  lemma FirstRecord(t: Trace, suite: Option<CipherSuite>, passes: Detector, pkts: seq<Bytes>, enqueue: bool)
    requires pkts != [] && !Stops(Handled(t.reader, suite, passes, pkts[0], enqueue).1)
    ensures var o := Handled(t.reader, suite, passes, pkts[0], enqueue).1;
            var next := Examined(t, suite, passes, pkts[0], enqueue);
            next.reader == Handled(t.reader, suite, passes, pkts[0], enqueue).0
            && ExaminedAll(t, suite, passes, pkts, enqueue) == ExaminedAll(next, suite, passes, pkts[1..], enqueue)
            && Taken(t, suite, passes, pkts, enqueue)
               == (if o.handshake then [pkts[0]] else []) + Taken(next, suite, passes, pkts[1..], enqueue)
            && (Runs(t, suite, passes, pkts, enqueue) <==> Runs(next, suite, passes, pkts[1..], enqueue))
  {
    hide Handled, Stops;
  }

  lemma {:induction false} InTwo(t: Trace, suite: Option<CipherSuite>, passes: Detector, a: seq<Bytes>, b: seq<Bytes>, enqueue: bool)
    requires Runs(t, suite, passes, a, enqueue)
    ensures var u := ExaminedAll(t, suite, passes, a, enqueue);
            ExaminedAll(t, suite, passes, a + b, enqueue) == ExaminedAll(u, suite, passes, b, enqueue)
            && Taken(t, suite, passes, a + b, enqueue)
               == Taken(t, suite, passes, a, enqueue) + Taken(u, suite, passes, b, enqueue)
            && (Runs(t, suite, passes, a + b, enqueue) <==> Runs(u, suite, passes, b, enqueue))
    decreases |a|
  {
    hide Handled, Stops, Examined, ExaminedAll, Taken, Runs;
    if a == [] {
      assert a + b == b;
      NoRecord(t, suite, passes, enqueue);
    } else {
      assert (a + b)[0] == a[0] && (a + b)[1..] == a[1..] + b;
      RunsFirst(t, suite, passes, a, enqueue);
      FirstRecord(t, suite, passes, a, enqueue);
      FirstRecord(t, suite, passes, a + b, enqueue);
      InTwo(Examined(t, suite, passes, a[0], enqueue), suite, passes, a[1..], b, enqueue);
    }
  }

  lemma NoRecord(t: Trace, suite: Option<CipherSuite>, passes: Detector, enqueue: bool)
    ensures ExaminedAll(t, suite, passes, [], enqueue) == t && Taken(t, suite, passes, [], enqueue) == []
    ensures Runs(t, suite, passes, [], enqueue)
  {
    hide Handled, Examined, Stops;
  }

  lemma RunsFirst(t: Trace, suite: Option<CipherSuite>, passes: Detector, pkts: seq<Bytes>, enqueue: bool)
    requires Runs(t, suite, passes, pkts, enqueue) && pkts != []
    ensures !Stops(Handled(t.reader, suite, passes, pkts[0], enqueue).1)
  {
    hide Handled, Examined, Stops;
  }

  /** The header of the record that carries a piece under number `n`. */
  function HeadingOf(m: SentMessage, p: Piece, n: U48): RecordLayerHeader {
    RecordLayerHeader(ContentType.Handshake, PROTOCOL_VERSION1_2, m.epoch, n, (HANDSHAKE_HEADER_LENGTH + |p.data|) % 0x1_0000)
  }

  ghost predicate Carries(record: Bytes, m: SentMessage, link: Link, p: Piece, n: int) {
    0 <= n <= MAX_SEQUENCE_NUMBER && FragmentRecord(record, m, link.mtu, link.sealer, p, HeadingOf(m, p, n))
  }

  /** The records carry the pieces, numbered from `n`. */
  ghost predicate Writes(records: seq<Bytes>, pieces: seq<Piece>, m: SentMessage, link: Link, n: int) {
    |records| == |pieces| && forall k :: 0 <= k < |records| ==> Carries(records[k], m, link, pieces[k], n + k)
  }

  /** How far the reader gets through `count` records of one epoch. */
  ghost predicate Advanced(r: Reader, s: Reader, epoch: int, n: int, count: int) {
    s.remoteEpoch == r.remoteEpoch && s.encrypted == r.encrypted
    && Below(s, epoch, n + count)
    && (forall e: U16 :: e != epoch ==> Accepted(s.detectors, e) == Accepted(r.detectors, e))
    && Size(s.buffer.cache) <= Size(r.buffer.cache) + RECORD_ROOM * count
  }

  lemma AdvancedOnce(r: Reader, s: Reader, epoch: U16, n: U48)
    requires Below(r, epoch, n) && TookOne(r, s, epoch, n) && Size(s.buffer.cache) <= Size(r.buffer.cache) + SHORT
    ensures Advanced(r, s, epoch, n, 1)
  {
    hide Size, Accepted;
    assert forall e: U16 :: e != epoch ==> Accepted(s.detectors, e) == Accepted(r.detectors, e) + {} == Accepted(r.detectors, e);
  }

  lemma AdvancedTwice(r: Reader, s: Reader, u: Reader, epoch: U16, n: nat, a: nat, b: nat)
    requires Advanced(r, s, epoch, n, a) && Advanced(s, u, epoch, n + a, b)
    ensures Advanced(r, u, epoch, n, a + b)
  {
    hide Size, Accepted;
  }

  /** All pieces of a message, in order: every record is taken. */
  lemma {:induction false} PiecesTaken(t: Trace, suite: Option<CipherSuite>, passes: Detector, records: seq<Bytes>, enqueue: bool,
                                       m: SentMessage, link: Link, pieces: seq<Piece>, n: nat)
    requires link.Valid() && LetsNewerThrough(passes) && Writes(records, pieces, m, link, n) && |m.h.content| <= SHORT
    requires m.epoch <= t.reader.remoteEpoch
    requires m.epoch != 0 ==> HasKeys(suite, link)
    requires Below(t.reader, m.epoch, n) && HasRoom(t.reader, |records|)
    ensures Runs(t, suite, passes, records, enqueue) && Taken(t, suite, passes, records, enqueue) == records
    ensures Advanced(t.reader, ExaminedAll(t, suite, passes, records, enqueue).reader, m.epoch, n, |records|)
    decreases |records|
  {
    hide Handled, FragmentRecord, Size, HasKeys, TookOne, Accepted, Examined, ExaminedAll, Taken, Runs, LetsNewerThrough;
    if records == [] {
      NoRecord(t, suite, passes, enqueue);
    } else {
      assert Carries(records[0], m, link, pieces[0], n + 0);
      FragmentTaken(t.reader, suite, passes, records[0], enqueue, m, link, pieces[0], HeadingOf(m, pieces[0], n));
      var next := Examined(t, suite, passes, records[0], enqueue);
      FirstRecord(t, suite, passes, records, enqueue);
      AdvancedOnce(t.reader, next.reader, m.epoch, n);
      WritesRest(records, pieces, m, link, n);
      PiecesTaken(next, suite, passes, records[1..], enqueue, m, link, pieces[1..], n + 1);
      AdvancedTwice(t.reader, next.reader, ExaminedAll(t, suite, passes, records, enqueue).reader, m.epoch, n, 1, |records| - 1);
      assert [records[0]] + records[1..] == records;
    }
  }

  lemma WritesRest(records: seq<Bytes>, pieces: seq<Piece>, m: SentMessage, link: Link, n: nat)
    requires link.Valid() && Writes(records, pieces, m, link, n) && records != []
    ensures Writes(records[1..], pieces[1..], m, link, n + 1)
  {
    hide Carries;
    forall k | 0 <= k < |records| - 1
      ensures Carries(records[1..][k], m, link, pieces[1..][k], n + 1 + k)
    {
      assert Carries(records[k + 1], m, link, pieces[k + 1], n + (k + 1));
    }
  }

  /** Records that all have to wait. */
  ghost predicate AllPutOff(r: Reader, s: Reader, records: seq<Bytes>) {
    s.remoteEpoch == r.remoteEpoch && s.encrypted == r.encrypted + records && s.buffer == r.buffer
    && (forall e: U16 :: Accepted(s.detectors, e) == Accepted(r.detectors, e))
  }

  lemma {:induction false} PiecesPutOff(t: Trace, suite: Option<CipherSuite>, passes: Detector, records: seq<Bytes>,
                                        m: SentMessage, link: Link, pieces: seq<Piece>, n: nat)
    requires link.Valid() && Writes(records, pieces, m, link, n)
    requires Frames(link.sealer, RecordLimit(link.mtu)) && m.epoch == 1 && t.reader.remoteEpoch == 0
    ensures Runs(t, suite, passes, records, true) && Taken(t, suite, passes, records, true) == []
    ensures AllPutOff(t.reader, ExaminedAll(t, suite, passes, records, true).reader, records)
    decreases |records|
  {
    hide Handled, FragmentRecord, HeadingOf, Frames, Accepted, Examined, ExaminedAll, Taken, Runs;
    if records == [] {
      NoRecord(t, suite, passes, true);
    } else {
      assert Carries(records[0], m, link, pieces[0], n + 0);
      LaterPutOff(t.reader, suite, passes, records[0], m, link, pieces[0], HeadingOf(m, pieces[0], n));
      var next := Examined(t, suite, passes, records[0], true);
      FirstRecord(t, suite, passes, records, true);
      WritesRest(records, pieces, m, link, n);
      PiecesPutOff(next, suite, passes, records[1..], m, link, pieces[1..], n + 1);
      assert t.reader.encrypted + [records[0]] + records[1..] == t.reader.encrypted + records;
    }
  }

  // What is sent

  /** Protection never fails on what an MTU allows. */
  ghost predicate Encrypts(suite: CipherSuite, limit: int) {
    forall header, raw :: RECORD_LAYER_HEADER_SIZE < |raw| <= limit ==> suite.encrypt(header, raw).Ok?
  }

  function PacketOf(m: SentMessage): Packet {
    Packet(PROTOCOL_VERSION1_2, m.epoch, HandshakeContent(m.h), m.epoch != 0)
  }

  ghost predicate Counted(before: seq<nat>, after: seq<nat>, epoch: int, count: int) {
    Counter(after, epoch) == Counter(before, epoch) + count
    && forall e: U16 :: e != epoch ==> Counter(after, e) == Counter(before, e)
  }

  ghost predicate CanSeal(suite: Option<CipherSuite>, epoch: int, link: Link) {
    epoch != 0 ==> suite == Some(link.sealer) && Encrypts(link.sealer, RecordLimit(link.mtu))
  }

  lemma PieceSealed(suite: Option<CipherSuite>, m: SentMessage, link: Link, p: Piece, n: U48)
    requires link.Valid() && p in Pieces(m.h.content, link.mtu) && CanSeal(suite, m.epoch, link)
    requires PieceOf(m.h.content, p) && p.offset + |p.data| <= |m.h.content|
    ensures var sealed := SealedRecord(suite, PacketOf(m), ContentType.Handshake, n, FragmentBytes(m.h, p));
            sealed.Ok? && Carries(sealed.value, m, link, p, n)
  {
    hide FragmentBytes, RecordLayerHeader.Marshal, Pieces;
    PiecesBelong(m.h.content, link.mtu);
    var raw := HeadingOf(m, p, n).Marshal() + FragmentBytes(m.h, p);
    assert RECORD_LAYER_HEADER_SIZE < |raw| <= RecordLimit(link.mtu);
  }

  lemma {:induction false} PiecesWritten(lsn: seq<nat>, suite: Option<CipherSuite>, m: SentMessage, link: Link, pieces: seq<Piece>)
    requires link.Valid() && CanSeal(suite, m.epoch, link)
    requires forall p :: p in pieces ==> p in Pieces(m.h.content, link.mtu)
    requires forall p :: p in pieces ==> PieceOf(m.h.content, p) && p.offset + |p.data| <= |m.h.content|
    requires Counter(lsn, m.epoch) + |pieces| <= MAX_SEQUENCE_NUMBER
    ensures var (after, records) := RecordsOf(lsn, suite, PacketOf(m), ContentType.Handshake, FragmentsOf(m.h, pieces));
            records.Ok? && Writes(records.value, pieces, m, link, Counter(lsn, m.epoch)) && Counted(lsn, after, m.epoch, |pieces|)
    decreases |pieces|
  {
    hide SealedRecord, Carries, Pieces, PieceOf, CanSeal, Bumped, FragmentBytes, Link.Valid;
    if pieces != [] {
      var p, n := pieces[0], Counter(lsn, m.epoch);
      assert p in pieces && forall q :: q in pieces[1..] ==> q in pieces;
      PieceInside(m.h.content, p);
      PieceSealed(suite, m, link, p, n);
      var next := Bumped(lsn, m.epoch);
      PiecesWritten(next, suite, m, link, pieces[1..]);
      var first := SealedRecord(suite, PacketOf(m), ContentType.Handshake, n, FragmentBytes(m.h, p)).value;
      var rest := RecordsOf(next, suite, PacketOf(m), ContentType.Handshake, FragmentsOf(m.h, pieces[1..])).1.value;
      WritesFirst(first, rest, pieces, m, link, n);
      assert FragmentsOf(m.h, pieces)[1..] == FragmentsOf(m.h, pieces[1..]);
    }
  }

  lemma WritesFirst(first: Bytes, rest: seq<Bytes>, pieces: seq<Piece>, m: SentMessage, link: Link, n: nat)
    requires link.Valid() && pieces != [] && Carries(first, m, link, pieces[0], n) && Writes(rest, pieces[1..], m, link, n + 1)
    ensures Writes([first] + rest, pieces, m, link, n)
  {
    hide Carries;
    forall k | 0 <= k < |pieces|
      ensures Carries(([first] + rest)[k], m, link, pieces[k], n + k)
    {
      if k > 0 {
        assert Carries(rest[k - 1], m, link, pieces[1..][k - 1], n + 1 + (k - 1));
      }
    }
  }

  lemma {:induction false} FewChunks(content: Bytes, mtu: Mtu)
    ensures |Split(content, mtu)| <= |content|
    decreases |content|
  {
    if |content| > mtu {
      FewChunks(content[mtu..], mtu);
    }
  }

  lemma FewPieces(content: Bytes, mtu: Mtu)
    ensures |Pieces(content, mtu)| <= |content| + 1
  {
    FewChunks(content, mtu);
    var chunks := Split(content, mtu);
    PiecesFromData(if chunks == [] then [[]] else chunks, 0);
  }

  /** A whole message: its records, and what the peer makes of them. */
  lemma MessageWritten(lsn: seq<nat>, suite: Option<CipherSuite>, m: SentMessage, link: Link) returns (records: seq<Bytes>)
    requires link.Valid() && CanSeal(suite, m.epoch, link) && |m.h.content| <= SHORT
    requires Counter(lsn, m.epoch) + SHORT < MAX_SEQUENCE_NUMBER
    ensures var (after, written) := RecordsOf(lsn, suite, PacketOf(m), TypeOf(PacketOf(m)), BodiesOf(PacketOf(m), link.mtu));
            written == Ok(records) && Counted(lsn, after, m.epoch, |records|)
    ensures Writes(records, Pieces(m.h.content, link.mtu), m, link, Counter(lsn, m.epoch)) && 0 < |records| <= SHORT + 1
  {
    hide RecordsOf, Pieces, PieceOf, CanSeal, Carries;
    PiecesBelong(m.h.content, link.mtu);
    FewPieces(m.h.content, link.mtu);
    forall p | p in Pieces(m.h.content, link.mtu)
      ensures p.offset + |p.data| <= |m.h.content|
    {
      PieceInside(m.h.content, p);
    }
    PiecesWritten(lsn, suite, m, link, Pieces(m.h.content, link.mtu));
    records := RecordsOf(lsn, suite, PacketOf(m), TypeOf(PacketOf(m)), BodiesOf(PacketOf(m), link.mtu)).1.value;
  }
}
