/** The reading loop of a connection, and the flight that needs it: flight 4 has the records that
    waited for keys read before it looks for the client's Finished. */
module Connections {
  import opened Wrappers
  import opened Bytes
  import opened Framing
  import opened CipherSuites
  import opened Reading
  import opened HandshakeStates
  import opened ServerFlights
  import opened Handshaking
  import opened Handshakers
  import IncomingRecords
  import ServerSteps

  /** What reading some records calls for: alerts to send, the handshake to be told, the connection to
      be given up. */
  datatype Reaction = Reaction(alerts: seq<Alert>, handshake: bool, stopped: bool)

  const NO_REACTION := Reaction([], false, false)

  function Added(so: Reaction, o: Outcome): Reaction {
    Reaction(if o.alert.Some? then so.alerts + [o.alert.value] else so.alerts, so.handshake || o.handshake,
             IncomingRecords.Stops(o))
  }

  ghost function ReadOn(r: Reader, so: Reaction, suite: Option<CipherSuite>, passes: Detector, pkts: seq<Bytes>, enqueue: bool)
    : (Reader, Reaction)
    decreases |pkts|
  {
    if pkts == [] || so.stopped then
      (r, so)
    else
      var (next, o) := Handled(r, suite, passes, pkts[0], enqueue);
      ReadOn(next, Added(so, o), suite, passes, pkts[1..], enqueue)
  }

  /** The runs of IncomingRecords are runs of this loop. */
  lemma {:induction false} ReadOnIsExamined(t: IncomingRecords.Trace, so: Reaction, suite: Option<CipherSuite>, passes: Detector,
                                            pkts: seq<Bytes>, enqueue: bool)
    requires !so.stopped
    ensures ReadOn(t.reader, so, suite, passes, pkts, enqueue).0
         == IncomingRecords.ExaminedAll(t, suite, passes, pkts, enqueue).reader
    decreases |pkts|
  {
    hide Handled;
    if pkts != [] {
      var next := Added(so, Handled(t.reader, suite, passes, pkts[0], enqueue).1);
      if !next.stopped {
        ReadOnIsExamined(IncomingRecords.Examined(t, suite, passes, pkts[0], enqueue), next, suite, passes, pkts[1..], enqueue);
      }
    }
  }

  method HandlePackets(reader: ConnReader, suite: Option<CipherSuite>, passes: Detector, pkts: seq<Bytes>, enqueue: bool)
    returns (reaction: Reaction)
    modifies reader, reader.fragmentBuffer, reader.cache
    ensures (reader.State(), reaction) == ReadOn(old(reader.State()), NO_REACTION, suite, passes, pkts, enqueue)
  {
    hide Handled;
    reaction := NO_REACTION;
    assert pkts[0..] == pkts;
    for i := 0 to |pkts|
      invariant ReadOn(old(reader.State()), NO_REACTION, suite, passes, pkts, enqueue)
             == ReadOn(reader.State(), reaction, suite, passes, pkts[i..], enqueue)
      invariant !reaction.stopped
    {
      assert pkts[i..][0] == pkts[i] && pkts[i..][1..] == pkts[i + 1..];
      var outcome := reader.HandleIncomingPacket(suite, passes, pkts[i], enqueue);
      reaction := Added(reaction, outcome);
      if reaction.stopped {
        return;
      }
    }
  }

  /** A datagram that does not unpack is not read at all. */
  method ReadAndBuffer(reader: ConnReader, suite: Option<CipherSuite>, passes: Detector, buf: Bytes)
    returns (r: Result<Reaction>)
    modifies reader, reader.fragmentBuffer, reader.cache
    ensures match Unpacked(buf)
            case Err(error) => reader.State() == old(reader.State()) && r == Err(error)
            case Ok(pkts) =>
              var (next, reaction) := ReadOn(old(reader.State()), NO_REACTION, suite, passes, pkts, true);
              reader.State() == next && r == Ok(reaction)
  {
    hide ReadOn;
    var pkts := UnpackDatagram(buf);
    if pkts.Err? {
      return Err(pkts.error);
    }
    var reaction := HandlePackets(reader, suite, passes, pkts.value, true);
    return Ok(reaction);
  }

  /** The queue is emptied before it is worked on, and what still has to wait is not queued again. */
  method HandleQueuedPackets(reader: ConnReader, suite: Option<CipherSuite>, passes: Detector) returns (reaction: Reaction)
    modifies reader, reader.fragmentBuffer, reader.cache
    ensures (reader.State(), reaction)
         == ReadOn(old(reader.State()).(encrypted := []), NO_REACTION, suite, passes, old(reader.encryptedPackets), false)
  {
    hide ReadOn;
    var pkts := reader.encryptedPackets;
    reader.encryptedPackets := [];
    reaction := HandlePackets(reader, suite, passes, pkts, false);
  }

  method WaitFlight4(h: Handshaker, reader: ConnReader, passes: Detector) returns (reaction: Reaction)
    requires h.currentFlight.Flight4? && reader.cache == h.context.cache
    modifies h, h.context, reader, reader.fragmentBuffer, reader.cache
    ensures match Flight4Keyed(old(h.context.state), h.context.cfg, h.context.crypto, old(h.context.cache.cache))
            case (s, Halt(failure)) =>
              h.Now() == AfterParse(old(h.Now()), s, Failed(failure)) && reader.State() == old(reader.State())
            case (s, Continue(next)) =>
              var (t, parsed) := Flight4Finished(s, h.context.cfg, h.context.cache.cache, next);
              && h.Now() == AfterParse(old(h.Now()), t, parsed)
              && (reader.State(), reaction)
              == ReadOn(old(reader.State()).(encrypted := []), NO_REACTION, s.cipherSuite, passes, old(reader.encryptedPackets), false)
  {
    hide ReadOn, Flight4Keyed, Flight4Finished;
    reaction := NO_REACTION;
    var half := ServerSteps.ParseFlight4Keys(h.context);
    match half {
      case Halt(failure) =>
        h.Proceed(Failed(failure));
      case Continue(next) =>
        reaction := HandleQueuedPackets(reader, h.context.state.cipherSuite, passes);
        var parsed := ServerSteps.ParseFlight4Finished(h.context, next);
        h.Proceed(parsed);
    }
  }
}
