/** The receiving side of a connection: what becomes of one incoming record. */
module Reading {
  import opened Wrappers
  import opened Bytes
  import opened Headers
  import opened Handshakes
  import opened FragmentBuffers
  import opened HandshakeCaches
  import opened CipherSuites

  datatype AlertLevel = Warning | Fatal | InvalidLevel

  const CLOSE_NOTIFY: Byte := 0
  const UNEXPECTED_MESSAGE: Byte := 10
  const DECODE_ERROR: Byte := 50
  const UNKNOWN_PSK_IDENTITY: Byte := 115

  datatype Alert = Alert(level: AlertLevel, description: Byte)

  datatype ReadError = AlertReceived | Undecodable | ApplicationDataEpochZero | UnhandledContent

  /** What the reader reports for a record: was it of a handshake, and what must be sent or raised. */
  datatype Outcome = Outcome(handshake: bool, alert: Option<Alert>, error: Option<ReadError>)

  const NOTHING := Outcome(false, None, None)

  /** One detector an epoch, known by the numbers it has accepted; `passes(accepted, n)` says whether
      it lets `n` through. The sliding window itself is not part of this model. */
  type Detector = (set<U48>, U48) -> bool

  ghost predicate NeverTwice(passes: Detector) {
    forall accepted, n :: n in accepted ==> !passes(accepted, n)
  }

  datatype Reader = Reader(
    isClient: bool,
    remoteEpoch: U16,
    detectors: seq<set<U48>>,
    encrypted: seq<Bytes>,
    buffer: Buffer,
    cache: seq<Item>,
    delivered: seq<Bytes>)

  // Replay protection

  function PaddedDetectors(detectors: seq<set<U48>>, epoch: U16): (r: seq<set<U48>>)
    ensures |r| > epoch
    ensures forall e :: Accepted(r, e) == Accepted(detectors, e)
    decreases 0x1_0000 - |detectors|
  {
    if |detectors| > epoch then detectors else PaddedDetectors(detectors + [{}], epoch)
  }

  function Accepted(detectors: seq<set<U48>>, epoch: int): set<U48> {
    if 0 <= epoch < |detectors| then detectors[epoch] else {}
  }

  function WithAccepted(r: Reader, h: RecordLayerHeader): (s: Reader)
    requires |r.detectors| > h.epoch
  {
    r.(detectors := r.detectors[h.epoch := r.detectors[h.epoch] + {h.sequenceNumber}])
  }

  function Queued(r: Reader, pkt: Bytes, enqueue: bool): Reader {
    if enqueue then r.(encrypted := r.encrypted + [pkt]) else r
  }

  // Protection

  predicate Ready(suite: Option<CipherSuite>) {
    suite.Some? && suite.value.initialized
  }

  // Handshake records

  /** Every complete message in turn; one that does not parse is dropped. */
  function Drained(buffer: Buffer, cache: seq<Item>, isClient: bool): (Buffer, seq<Item>)
    decreases |buffer.cache|
  {
    match Popped(buffer)
    case (_, Err(_)) => (buffer, cache)
    case (next, Ok((out, epoch))) =>
      PopShrinks(buffer);
      Drained(next, CachedMessage(cache, out, epoch, !isClient), isClient)
  }

  function CachedMessage(cache: seq<Item>, out: Bytes, epoch: U16, isClient: bool): seq<Item> {
    match UnmarshalHandshake(out)
    case Err(_) => cache
    case Ok(h) => HandshakeCaches.Pushed(cache, Item(h.header.handshakeType, isClient, epoch, h.header.messageSequence, out))
  }

  lemma PopShrinks(b: Buffer)
    requires Popped(b).1.Ok?
    ensures |Popped(b).0.cache| < |b.cache|
  {
  }

  // Other records

  function AlertOf(body: Bytes): Result<Alert> {
    if |body| < 2 then
      Err(UnexpectedEof)
    else
      Ok(Alert.Alert(if body[0] == 1 then Warning else if body[0] == 2 then Fatal else InvalidLevel, body[1]))
  }

  /** A record that is no handshake record, already unprotected, with its header `h`. */
  function Content(r: Reader, suite: Option<CipherSuite>, h: RecordLayerHeader, pkt: Bytes, enqueue: bool): (Reader, Outcome)
    requires |r.detectors| > h.epoch && |pkt| >= RECORD_LAYER_HEADER_SIZE
  {
    var undecodable := (r, Outcome(false, Some(Alert.Alert(Fatal, DECODE_ERROR)), Some(Undecodable)));
    match RecordLayerHeader.Unmarshal(pkt)
    case Err(_) => undecodable
    case Ok(inner) =>
      var body := pkt[RECORD_LAYER_HEADER_SIZE..];
      match inner.contentType
      case Alert =>
        (match AlertOf(body)
         case Err(_) => undecodable
         case Ok(a) =>
           // Respond with a close_notify (RFC 5246, section 7.2.1).
           var reply := if a.description == CLOSE_NOTIFY then Alert.Alert(Warning, CLOSE_NOTIFY) else a;
           (WithAccepted(r, h), Outcome(false, Some(reply), Some(AlertReceived))))
      case ChangeCipherSpec =>
        if body == [] || body[0] != 1 then
          undecodable
        else if !Ready(suite) then
          (Queued(r, pkt, enqueue), NOTHING)
        else if r.remoteEpoch == h.epoch then
          (WithAccepted(r, h).(remoteEpoch := (h.epoch as int + 1) % 0x1_0000), NOTHING)
        else
          (r, NOTHING)
      case ApplicationData =>
        if h.epoch == 0 then
          (r, Outcome(false, Some(Alert.Alert(Fatal, UNEXPECTED_MESSAGE)), Some(ApplicationDataEpochZero)))
        else
          (WithAccepted(r, h).(delivered := r.delivered + [body]), NOTHING)
      case Handshake => undecodable
      case Invalid => undecodable
  }

  /** An unprotected record goes to the fragment buffer first, and on if it is not of a handshake. */
  ghost function Opened(r: Reader, suite: Option<CipherSuite>, h: RecordLayerHeader, pkt: Bytes, enqueue: bool): (Reader, Outcome)
    requires |r.detectors| > h.epoch
  {
    var (buffer, pushed) := FragmentBuffers.Pushed(r.buffer, pkt);
    match pushed
    // Decode errors are silently discarded (RFC 6347, section 4.1.2.7).
    case Err(_) => (r.(buffer := buffer), NOTHING)
    case Ok(isHandshake) =>
      if isHandshake then
        var (left, cache) := Drained(buffer, r.cache, r.isClient);
        (WithAccepted(r, h).(buffer := left, cache := cache), Outcome(true, None, None))
      else
        NotHandshakeLong(r.buffer, pkt);
        Content(r, suite, h, pkt, enqueue)
  }

  lemma NotHandshakeLong(b: Buffer, pkt: Bytes)
    requires FragmentBuffers.Pushed(b, pkt).1 == Ok(false)
    ensures |pkt| >= RECORD_LAYER_HEADER_SIZE && FragmentBuffers.Pushed(b, pkt).0 == b
    ensures RecordLayerHeader.Unmarshal(pkt).Ok?
    ensures RecordLayerHeader.Unmarshal(pkt).value.contentType != ContentType.Handshake
  {
    if RecordLayerHeader.Unmarshal(pkt).Ok? {
      PushedBodyResult(b.cache, RecordLayerHeader.Unmarshal(pkt).value, pkt[RECORD_LAYER_HEADER_SIZE..]);
    }
  }

  /** A record of an epoch already reached that its detector has let through. */
  ghost function Checked(r: Reader, suite: Option<CipherSuite>, h: RecordLayerHeader, pkt: Bytes, enqueue: bool): (Reader, Outcome)
    requires |r.detectors| > h.epoch
  {
    if h.epoch == 0 then
      Opened(r, suite, h, pkt, enqueue)
    else if !Ready(suite) then
      (Queued(r, pkt, enqueue), NOTHING)
    else
      match suite.value.decrypt(pkt)
      case Ok(plain) => Opened(r, suite, h, plain, enqueue)
      case Err(_) =>
        // If we get an error for PSK we need to return an error.
        (r, if suite.value.isPsk then Outcome(false, Some(Alert.Alert(Fatal, UNKNOWN_PSK_IDENTITY)), None) else NOTHING)
  }

  /** What becomes of a record as it arrives (`enqueue`), or when it is taken from the queue. */
  ghost function Handled(r: Reader, suite: Option<CipherSuite>, passes: Detector, pkt: Bytes, enqueue: bool): (Reader, Outcome) {
    match RecordLayerHeader.Unmarshal(pkt)
    case Err(_) => (r, NOTHING)
    case Ok(h) =>
      if h.epoch > r.remoteEpoch then
        (if h.epoch == r.remoteEpoch as int + 1 then Queued(r, pkt, enqueue) else r, NOTHING)
      else
        var padded := r.(detectors := PaddedDetectors(r.detectors, h.epoch));
        if !passes(padded.detectors[h.epoch], h.sequenceNumber) then
          (padded, NOTHING)
        else
          Checked(padded, suite, h, pkt, enqueue)
  }

  class ConnReader {
    const isClient: bool
    var remoteEpoch: U16
    var replayDetector: seq<set<U48>>
    var encryptedPackets: seq<Bytes>
    const fragmentBuffer: FragmentBuffer
    const cache: HandshakeCache
    var decrypted: seq<Bytes>

    ghost function State(): Reader
      reads this, fragmentBuffer, cache
    {
      Reader(isClient, remoteEpoch, replayDetector, encryptedPackets, fragmentBuffer.State(), cache.cache, decrypted)
    }

    constructor (isClient: bool, fragmentBuffer: FragmentBuffer, cache: HandshakeCache)
      ensures this.isClient == isClient && this.fragmentBuffer == fragmentBuffer && this.cache == cache
      ensures State() == Reader(isClient, 0, [], [], fragmentBuffer.State(), cache.cache, [])
    {
      this.isClient := isClient;
      this.fragmentBuffer := fragmentBuffer;
      this.cache := cache;
      remoteEpoch := 0;
      replayDetector := [];
      encryptedPackets := [];
      decrypted := [];
    }

    method Accept(epoch: U16, n: U48)
      requires |replayDetector| > epoch
      modifies this`replayDetector
      ensures replayDetector == old(replayDetector)[epoch := old(replayDetector)[epoch] + {n}]
    {
      replayDetector := replayDetector[epoch := replayDetector[epoch] + {n}];
    }

    method PadDetectors(epoch: U16)
      modifies this`replayDetector
      ensures replayDetector == PaddedDetectors(old(replayDetector), epoch)
    {
      while |replayDetector| <= epoch
        invariant PaddedDetectors(replayDetector, epoch) == PaddedDetectors(old(replayDetector), epoch)
      {
        replayDetector := replayDetector + [{}];
      }
    }

    method DrainMessages()
      modifies fragmentBuffer, cache
      ensures (fragmentBuffer.State(), cache.cache)
           == Drained(old(fragmentBuffer.State()), old(cache.cache), isClient)
    {
      hide Popped, UnmarshalHandshake, HandshakeCaches.Pushed;
      while true
        invariant Drained(fragmentBuffer.State(), cache.cache, isClient)
               == Drained(old(fragmentBuffer.State()), old(cache.cache), isClient)
        decreases |fragmentBuffer.State().cache|
      {
        ghost var before := fragmentBuffer.State();
        var popped := fragmentBuffer.Pop();
        if popped.Err? {
          PopFailed(before);
          return;
        }
        PopShrinks(before);
        var (out, epoch) := popped.value;
        var rawHandshake := UnmarshalHandshake(out);
        if rawHandshake.Ok? {
          var header := rawHandshake.value.header;
          var _ := cache.Push(out, epoch, header.messageSequence, header.handshakeType, !isClient);
        }
      }
    }

    method HandleContent(suite: Option<CipherSuite>, h: RecordLayerHeader, pkt: Bytes, enqueue: bool) returns (o: Outcome)
      requires |replayDetector| > h.epoch && |pkt| >= RECORD_LAYER_HEADER_SIZE
      modifies this
      ensures (State(), o) == Content(old(State()), suite, h, pkt, enqueue)
    {
      var undecodable := Outcome(false, Some(Alert.Alert(Fatal, DECODE_ERROR)), Some(Undecodable));
      var inner := RecordLayerHeader.Unmarshal(pkt);
      if inner.Err? {
        return undecodable;
      }
      var body := pkt[RECORD_LAYER_HEADER_SIZE..];
      match inner.value.contentType {
        case Alert =>
          var a := AlertOf(body);
          if a.Err? {
            return undecodable;
          }
          var reply := a.value;
          if reply.description == CLOSE_NOTIFY {
            reply := Alert.Alert(Warning, CLOSE_NOTIFY);
          }
          Accept(h.epoch, h.sequenceNumber);
          return Outcome(false, Some(reply), Some(AlertReceived));
        case ChangeCipherSpec =>
          if body == [] || body[0] != 1 {
            return undecodable;
          }
          if !Ready(suite) {
            if enqueue {
              encryptedPackets := encryptedPackets + [pkt];
            }
            return NOTHING;
          }
          if remoteEpoch == h.epoch {
            remoteEpoch := (h.epoch as int + 1) % 0x1_0000;
            Accept(h.epoch, h.sequenceNumber);
          }
          return NOTHING;
        case ApplicationData =>
          if h.epoch == 0 {
            return Outcome(false, Some(Alert.Alert(Fatal, UNEXPECTED_MESSAGE)), Some(ApplicationDataEpochZero));
          }
          Accept(h.epoch, h.sequenceNumber);
          decrypted := decrypted + [body];
          return NOTHING;
        case Handshake =>
          return undecodable;
        case Invalid =>
          return undecodable;
      }
    }

    method HandleOpened(suite: Option<CipherSuite>, h: RecordLayerHeader, pkt: Bytes, enqueue: bool) returns (o: Outcome)
      requires |replayDetector| > h.epoch
      modifies this, fragmentBuffer, cache
      ensures (State(), o) == Opened(old(State()), suite, h, pkt, enqueue)
    {
      hide Content, Drained, FragmentBuffers.Pushed;
      ghost var before := State();
      var isHandshake := fragmentBuffer.Push(pkt);
      if isHandshake.Err? {
        return NOTHING;
      }
      if isHandshake.value {
        Accept(h.epoch, h.sequenceNumber);
        DrainMessages();
        return Outcome(true, None, None);
      }
      NotHandshakeLong(before.buffer, pkt);
      o := HandleContent(suite, h, pkt, enqueue);
    }

    method HandleIncomingPacket(suite: Option<CipherSuite>, passes: Detector, pkt: Bytes, enqueue: bool) returns (o: Outcome)
      modifies this, fragmentBuffer, cache
      ensures (State(), o) == Handled(old(State()), suite, passes, pkt, enqueue)
    {
      hide RecordLayerHeader.Unmarshal, Opened;
      var header := RecordLayerHeader.Unmarshal(pkt);
      if header.Err? {
        return NOTHING;
      }
      var h := header.value;
      if h.epoch > remoteEpoch {
        if h.epoch > remoteEpoch as int + 1 {
          return NOTHING;
        }
        if enqueue {
          encryptedPackets := encryptedPackets + [pkt];
        }
        return NOTHING;
      }
      PadDetectors(h.epoch);
      if !passes(replayDetector[h.epoch], h.sequenceNumber) {
        return NOTHING;
      }
      var plain := pkt;
      if h.epoch != 0 {
        if !Ready(suite) {
          if enqueue {
            encryptedPackets := encryptedPackets + [pkt];
          }
          return NOTHING;
        }
        var decrypted := suite.value.decrypt(pkt);
        if decrypted.Err? {
          if suite.value.isPsk {
            return Outcome(false, Some(Alert.Alert(Fatal, UNKNOWN_PSK_IDENTITY)), None);
          }
          return NOTHING;
        }
        plain := decrypted.value;
      }
      o := HandleOpened(suite, h, plain, enqueue);
    }
  }

  lemma PopFailed(b: Buffer)
    requires Popped(b).1.Err?
    ensures Popped(b).0 == b
  {
  }
}
