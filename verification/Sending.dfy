/** The sending side of a connection: caching, record numbers, protection, datagrams. */
module Sending {
  import opened Wrappers
  import opened Bytes
  import opened Headers
  import opened Handshakes
  import opened Framing
  import opened Fragmenting
  import opened HandshakeCaches
  import opened CipherSuites

  datatype Content = HandshakeContent(h: RawHandshake) | OtherContent(contentType: ContentType, body: Bytes)

  datatype Packet = Packet(version: ProtocolVersion, epoch: U16, content: Content, shouldEncrypt: bool)

  // Record numbers, one counter an epoch

  function Counter(lsn: seq<nat>, epoch: int): nat {
    if 0 <= epoch < |lsn| then lsn[epoch] else 0
  }

  function Padded(lsn: seq<nat>, epoch: U16): (r: seq<nat>)
    ensures |r| > epoch
    ensures forall e :: Counter(r, e) == Counter(lsn, e)
    decreases 0x1_0000 - |lsn|
  {
    if |lsn| > epoch then lsn else Padded(lsn + [0], epoch)
  }

  function Bumped(lsn: seq<nat>, epoch: U16): (r: seq<nat>)
    ensures Counter(r, epoch) == Counter(lsn, epoch) + 1
    ensures forall e :: e != epoch ==> Counter(r, e) == Counter(lsn, e)
  {
    var padded := Padded(lsn, epoch);
    padded[epoch := padded[epoch] + 1]
  }

  /** The number a record gets. Past the last 48-bit number there is only an error. */
  function Stamp(lsn: seq<nat>, epoch: U16): Result<U48> {
    var n := Counter(lsn, epoch);
    if n > MAX_SEQUENCE_NUMBER then Err(SequenceNumberOverflow) else Ok(n)
  }

  // One packet

  function RecordHeaderOf(p: Packet, t: ContentType, sequence: U48, length: nat): RecordLayerHeader {
    RecordLayerHeader(t, p.version, p.epoch, sequence, length % 0x1_0000)
  }

  function SealedRecord(suite: Option<CipherSuite>, p: Packet, t: ContentType, sequence: U48, body: Bytes): Result<Bytes> {
    var header := RecordHeaderOf(p, t, sequence, |body|);
    Sealed(suite, p.shouldEncrypt, header, header.Marshal() + body)
  }

  /** What follows once `done` has been produced: the last state, and everything or the failure. */
  function After<S>(done: seq<Bytes>, rest: (S, Result<seq<Bytes>>)): (S, Result<seq<Bytes>>) {
    (rest.0, if rest.1.Ok? then Ok(done + rest.1.value) else rest.1)
  }

  lemma AfterTwice<S>(a: seq<Bytes>, b: seq<Bytes>, rest: (S, Result<seq<Bytes>>))
    ensures After(a, After(b, rest)) == After(a + b, rest)
    ensures After([], rest) == rest
  {
    if rest.1.Ok? {
      assert a + (b + rest.1.value) == a + b + rest.1.value;
      assert [] + rest.1.value == rest.1.value;
    }
  }

  /** One numbered, protected record a body; the first failure ends the whole packet. */
  function RecordsOf(lsn: seq<nat>, suite: Option<CipherSuite>, p: Packet, t: ContentType, bodies: seq<Bytes>)
    : (seq<nat>, Result<seq<Bytes>>)
    decreases |bodies|
  {
    if bodies == [] then
      (lsn, Ok([]))
    else
      var next := Bumped(lsn, p.epoch);
      match Stamp(lsn, p.epoch)
      case Err(error) => (next, Err(error))
      case Ok(sequence) =>
        match SealedRecord(suite, p, t, sequence, bodies[0])
        case Err(error) => (next, Err(error))
        case Ok(record) => After([record], RecordsOf(next, suite, p, t, bodies[1..]))
  }

  function BodiesOf(p: Packet, mtu: Mtu): seq<Bytes> {
    match p.content
    case HandshakeContent(h) =>
      PiecesBelong(h.content, mtu);
      FragmentsOf(h, Pieces(h.content, mtu))
    case OtherContent(_, body) => [body]
  }

  function TypeOf(p: Packet): ContentType {
    match p.content
    case HandshakeContent(_) => ContentType.Handshake
    case OtherContent(t, _) => t
  }

  // A list of packets

  datatype SenderState = SenderState(lsn: seq<nat>, cache: seq<Item>)

  function ItemOf(h: RawHandshake, epoch: U16, isClient: bool): Item {
    Item(h.typ, isClient, epoch, h.sequence, h.Whole())
  }

  /** Handshake messages are cached, unfragmented, before anything of them is sent. */
  function CachedBefore(cache: seq<Item>, p: Packet, isClient: bool): seq<Item> {
    match p.content
    case HandshakeContent(h) => HandshakeCaches.Pushed(cache, ItemOf(h, p.epoch, isClient))
    case OtherContent(_, _) => cache
  }

  function Raw(s: SenderState, suite: Option<CipherSuite>, mtu: Mtu, isClient: bool, pkts: seq<Packet>)
    : (SenderState, Result<seq<Bytes>>)
    decreases |pkts|
  {
    if pkts == [] then
      (s, Ok([]))
    else
      var cache := CachedBefore(s.cache, pkts[0], isClient);
      var (lsn, first) := RecordsOf(s.lsn, suite, pkts[0], TypeOf(pkts[0]), BodiesOf(pkts[0], mtu));
      match first
      case Err(error) => (SenderState(lsn, cache), Err(error))
      case Ok(records) => After(records, Raw(SenderState(lsn, cache), suite, mtu, isClient, pkts[1..]))
  }

  ghost function Sent(raw: Result<seq<Bytes>>, mtu: Mtu): Result<seq<Bytes>> {
    match raw
    case Err(error) => Err(error)
    case Ok(records) => Ok(if records == [] then [] else Datagrams(records, mtu))
  }

  class Sender {
    const isClient: bool
    const mtu: Mtu
    var localSequenceNumber: seq<nat>
    const cache: HandshakeCache

    constructor (isClient: bool, mtu: Mtu, cache: HandshakeCache)
      ensures this.isClient == isClient && this.mtu == mtu && this.cache == cache && localSequenceNumber == []
    {
      this.isClient := isClient;
      this.mtu := mtu;
      this.cache := cache;
      localSequenceNumber := [];
    }

    ghost function State(): SenderState
      reads this, cache
    {
      SenderState(localSequenceNumber, cache.cache)
    }

    method NextSequence(epoch: U16) returns (r: Result<U48>)
      modifies this
      ensures localSequenceNumber == Bumped(old(localSequenceNumber), epoch)
      ensures r == Stamp(old(localSequenceNumber), epoch)
    {
      while |localSequenceNumber| <= epoch
        invariant Padded(localSequenceNumber, epoch) == Padded(old(localSequenceNumber), epoch)
        invariant forall e: U16 :: Counter(localSequenceNumber, e) == Counter(old(localSequenceNumber), e)
      {
        localSequenceNumber := localSequenceNumber + [0];
      }
      localSequenceNumber := localSequenceNumber[epoch := localSequenceNumber[epoch] + 1];
      var sequence := localSequenceNumber[epoch] - 1;
      // RFC 6347, section 4.1: stop before the sequence number wraps.
      if sequence > MAX_SEQUENCE_NUMBER {
        return Err(SequenceNumberOverflow);
      }
      return Ok(sequence);
    }

    method SealRecord(suite: Option<CipherSuite>, p: Packet, t: ContentType, sequence: U48, body: Bytes) returns (r: Result<Bytes>)
      ensures r == SealedRecord(suite, p, t, sequence, body)
    {
      var header := RecordHeaderOf(p, t, sequence, |body|);
      var rawPacket := header.Marshal() + body;
      if p.shouldEncrypt && suite.Some? {
        return suite.value.encrypt(header, rawPacket);
      }
      return Ok(rawPacket);
    }

    method ProcessPacket(suite: Option<CipherSuite>, p: Packet) returns (r: Result<seq<Bytes>>)
      requires p.content.OtherContent?
      modifies this
      ensures (localSequenceNumber, r)
           == RecordsOf(old(localSequenceNumber), suite, p, p.content.contentType, [p.content.body])
    {
      hide SealedRecord, Stamp;
      var sequence := NextSequence(p.epoch);
      ghost var bodies := [p.content.body];
      assert bodies[1..] == [];
      if sequence.Err? {
        return Err(sequence.error);
      }
      var record := SealRecord(suite, p, p.content.contentType, sequence.value, p.content.body);
      if record.Err? {
        return Err(record.error);
      }
      assert [record.value] + [] == [record.value];
      return Ok([record.value]);
    }

    method ProcessHandshakePacket(suite: Option<CipherSuite>, p: Packet) returns (r: Result<seq<Bytes>>)
      requires p.content.HandshakeContent?
      modifies this
      ensures (localSequenceNumber, r)
           == RecordsOf(old(localSequenceNumber), suite, p, ContentType.Handshake, BodiesOf(p, mtu))
    {
      hide SealedRecord, Stamp, Bumped, After;
      var bodies := FragmentHandshake(mtu, p.content.h);
      var records: seq<Bytes> := [];
      ghost var all := RecordsOf(localSequenceNumber, suite, p, ContentType.Handshake, bodies);
      AfterTwice([], [], all);
      assert bodies[0..] == bodies;
      for i := 0 to |bodies|
        invariant all == After(records, RecordsOf(localSequenceNumber, suite, p, ContentType.Handshake, bodies[i..]))
      {
        assert bodies[i..][0] == bodies[i] && bodies[i..][1..] == bodies[i + 1..];
        var sequence := NextSequence(p.epoch);
        if sequence.Err? {
          AfterEnd(records, (localSequenceNumber, Err(sequence.error)));
          return Err(sequence.error);
        }
        var record := SealRecord(suite, p, ContentType.Handshake, sequence.value, bodies[i]);
        if record.Err? {
          AfterEnd(records, (localSequenceNumber, Err(record.error)));
          return Err(record.error);
        }
        AfterTwice(records, [record.value],
                   RecordsOf(localSequenceNumber, suite, p, ContentType.Handshake, bodies[i + 1..]));
        records := records + [record.value];
      }
      AfterEnd(records, (localSequenceNumber, Ok([])));
      return Ok(records);
    }

    method HandleOutgoingPackets(suite: Option<CipherSuite>, pkts: seq<Packet>) returns (r: Result<seq<Bytes>>)
      modifies this, cache
      ensures var raw := Raw(old(State()), suite, mtu, isClient, pkts);
              State() == raw.0 && r == Sent(raw.1, mtu)
    {
      hide RecordsOf, BodiesOf, After;
      var rawPackets: seq<Bytes> := [];
      ghost var all := Raw(State(), suite, mtu, isClient, pkts);
      AfterTwice([], [], all);
      assert pkts[0..] == pkts;
      for i := 0 to |pkts|
        invariant all == After(rawPackets, Raw(State(), suite, mtu, isClient, pkts[i..]))
      {
        var p := pkts[i];
        assert pkts[i..][0] == p && pkts[i..][1..] == pkts[i + 1..];
        var records := ProcessOne(suite, p);
        if records.Err? {
          AfterEnd(rawPackets, (State(), Err(records.error)));
          return Err(records.error);
        }
        AfterTwice(rawPackets, records.value, Raw(State(), suite, mtu, isClient, pkts[i + 1..]));
        rawPackets := rawPackets + records.value;
      }
      AfterEnd(rawPackets, (State(), Ok([])));
      if rawPackets == [] {
        return Ok([]);
      }
      var datagrams := CompactRawPackets(rawPackets, mtu);
      return Ok(datagrams);
    }

    method ProcessOne(suite: Option<CipherSuite>, p: Packet) returns (r: Result<seq<Bytes>>)
      modifies this, cache
      ensures cache.cache == CachedBefore(old(cache.cache), p, isClient)
      ensures (localSequenceNumber, r)
           == RecordsOf(old(localSequenceNumber), suite, p, TypeOf(p), BodiesOf(p, mtu))
    {
      hide RecordsOf;
      match p.content {
        case HandshakeContent(h) =>
          var _ := cache.Push(h.Whole(), p.epoch, h.sequence, h.typ, isClient);
          r := ProcessHandshakePacket(suite, p);
        case OtherContent(_, _) =>
          r := ProcessPacket(suite, p);
      }
    }
  }

  lemma AfterEnd<S>(done: seq<Bytes>, end: (S, Result<seq<Bytes>>))
    ensures After(done, end).0 == end.0
    ensures end.1.Err? ==> After(done, end) == end
    ensures end.1 == Ok([]) ==> After(done, end).1 == Ok(done)
  {
    assert done + [] == done;
  }
}
