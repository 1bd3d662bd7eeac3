/** The state machine that drives the flights: prepare, send, wait (RFC 6347, section 4.2.4). */
module Handshaking {
  import opened Wrappers
  import opened Bytes
  import opened Headers
  import opened Handshakes
  import opened HandshakeCaches
  import opened Sending
  import opened HandshakeStates
  import opened ServerFlights
  import opened ClientFlights

  datatype Phase = Preparing | Sending | Waiting | Finished | Errored(error: Error)

  datatype Machine = Machine(phase: Phase, flight: Flight, state: State, flights: Option<seq<Packet>>, retransmit: bool)

  function Started(isClient: bool): Machine {
    Machine(Preparing, if isClient then Flight1 else Flight0, DefaultState(isClient), None, false)
  }

  // Preparing

  function FlightGenerated(flight: Flight, s: State, cfg: Config, crypto: Crypto, cache: seq<Item>, draws: Draws): (State, Generated) {
    match flight
    case Flight0 => Flight0Generated(s, draws)
    case Flight1 => Flight1Generated(s, cfg, draws)
    case Flight2 => Flight2Generated(s)
    case Flight3 => Flight3Generated(s, cfg)
    case Flight4 => Flight4Generated(s, cfg, crypto)
    case Flight5 => Flight5Generated(s, cfg, crypto, cache, draws.key)
    case Flight6 => Flight6Generated(s, crypto, cache)
  }

  /** Messages are numbered from `next`; what belongs to a later epoch is protected. */
  function NumberedPackets(drafts: seq<Draft>, next: int): (packets: seq<Packet>)
    requires Writable(drafts)
    ensures |packets| == |drafts|
  {
    if drafts == [] then
      []
    else
      assert forall d :: d in drafts[1..] ==> d in drafts;
      match drafts[0]
      case MessageDraft(epoch, message) =>
        assert drafts[0] in drafts;
        [Packet(PROTOCOL_VERSION1_2, epoch, HandshakeContent(Numbered(message, WrappedU16(next))), epoch != 0)]
        + NumberedPackets(drafts[1..], next + 1)
      case ChangeCipherSpecDraft =>
        [Packet(PROTOCOL_VERSION1_2, 0, OtherContent(ContentType.ChangeCipherSpec, [1]), false)]
        + NumberedPackets(drafts[1..], next)
  }

  function MessageCount(drafts: seq<Draft>): nat {
    if drafts == [] then 0 else (if drafts[0].MessageDraft? then 1 else 0) + MessageCount(drafts[1..])
  }

  function TopEpoch(packets: seq<Packet>): U16 {
    if packets == [] then
      0
    else
      var rest := TopEpoch(packets[1..]);
      if packets[0].epoch > rest then packets[0].epoch else rest
  }

  function Prepared(m: Machine, cfg: Config, crypto: Crypto, cache: seq<Item>, draws: Draws): Machine {
    var (s, generated) := FlightGenerated(m.flight, m.state, cfg, crypto, cache, draws);
    var next := m.(state := s, flights := None, retransmit := m.flight.HasRetransmit());
    match generated
    case Refused(failure) => next.(phase := if failure.error.Some? then Errored(failure.error.value) else Sending)
    case Drafts(drafts) =>
      if Writable(drafts) then Loaded(next, drafts) else next.(phase := Errored(InvalidPacketLength))
  }

  function Loaded(m: Machine, drafts: seq<Draft>): Machine
    requires Writable(drafts)
  {
    var packets := NumberedPackets(drafts, m.state.sendSequence);
    var epoch := TopEpoch(packets);
    m.(phase := Sending,
       flights := Some(packets),
       state := m.state.(sendSequence := m.state.sendSequence + MessageCount(drafts),
                         localEpoch := if epoch != 0 then epoch else m.state.localEpoch))
  }

  // Sending

  function Packets(m: Machine): seq<Packet> {
    if m.flights.Some? then m.flights.value else []
  }

  function AfterSend<T>(m: Machine, result: Result<T>): Machine {
    m.(phase := if result.Err? then Errored(result.error) else if m.flight.IsLastSendFlight() then Phase.Finished else Waiting)
  }

  // Waiting

  function Expired(m: Machine): Machine {
    m.(phase := if m.retransmit then Sending else Waiting)
  }

  /** As a flight is read if no records wait for keys; only the fourth lets such records be read in between. */
  function FlightParsed(flight: Flight, s: State, cfg: Config, crypto: Crypto, cache: seq<Item>, key: nat): (State, Parsed) {
    match flight
    case Flight0 => Flight0Parsed(s, cfg, crypto, cache, key)
    case Flight1 => Flight1Parsed(s, cfg, crypto, cache, key)
    case Flight2 => Flight2Parsed(s, cfg, crypto, cache, key)
    case Flight3 => Flight3Parsed(s, cfg, crypto, cache, key)
    case Flight4 =>
      (match Flight4Keyed(s, cfg, crypto, cache)
       case (keyed, Halt(failure)) => (keyed, Failed(failure))
       case (keyed, Continue(next)) => Flight4Finished(keyed, cfg, cache, next))
    case Flight5 => (s, Flight5Parsed(s, crypto, cache))
    case Flight6 => (s, Flight6Parsed(s, cache))
  }

  // Flight by flight

  lemma ClientGenerates(s: State, cfg: Config, crypto: Crypto, cache: seq<Item>, draws: Draws)
    ensures FlightGenerated(Flight1, s, cfg, crypto, cache, draws) == Flight1Generated(s, cfg, draws)
    ensures FlightGenerated(Flight3, s, cfg, crypto, cache, draws) == Flight3Generated(s, cfg)
    ensures FlightGenerated(Flight5, s, cfg, crypto, cache, draws) == Flight5Generated(s, cfg, crypto, cache, draws.key)
  {
    hide Flight1Generated, Flight3Generated, Flight5Generated, Flight0Generated, Flight2Generated, Flight4Generated, Flight6Generated;
  }

  lemma ServerGenerates(s: State, cfg: Config, crypto: Crypto, cache: seq<Item>, draws: Draws)
    ensures FlightGenerated(Flight0, s, cfg, crypto, cache, draws) == Flight0Generated(s, draws)
    ensures FlightGenerated(Flight2, s, cfg, crypto, cache, draws) == Flight2Generated(s)
    ensures FlightGenerated(Flight4, s, cfg, crypto, cache, draws) == Flight4Generated(s, cfg, crypto)
    ensures FlightGenerated(Flight6, s, cfg, crypto, cache, draws) == Flight6Generated(s, crypto, cache)
  {
    hide Flight1Generated, Flight3Generated, Flight5Generated, Flight0Generated, Flight2Generated, Flight4Generated, Flight6Generated;
  }

  lemma ClientParses(s: State, cfg: Config, crypto: Crypto, cache: seq<Item>, key: nat)
    ensures FlightParsed(Flight1, s, cfg, crypto, cache, key) == Flight1Parsed(s, cfg, crypto, cache, key)
    ensures FlightParsed(Flight3, s, cfg, crypto, cache, key) == Flight3Parsed(s, cfg, crypto, cache, key)
    ensures FlightParsed(Flight5, s, cfg, crypto, cache, key) == (s, Flight5Parsed(s, crypto, cache))
  {
    hide Flight0Parsed, Flight1Parsed, Flight2Parsed, Flight3Parsed, Flight4Keyed, Flight4Finished, Flight5Parsed, Flight6Parsed;
  }

  lemma ServerParses(s: State, cfg: Config, crypto: Crypto, cache: seq<Item>, key: nat)
    ensures FlightParsed(Flight0, s, cfg, crypto, cache, key) == Flight0Parsed(s, cfg, crypto, cache, key)
    ensures FlightParsed(Flight2, s, cfg, crypto, cache, key) == Flight2Parsed(s, cfg, crypto, cache, key)
  {
    hide Flight0Parsed, Flight1Parsed, Flight2Parsed, Flight3Parsed, Flight4Keyed, Flight4Finished, Flight5Parsed, Flight6Parsed;
  }

  function AfterParse(m: Machine, s: State, parsed: Parsed): Machine {
    match parsed
    case Failed(failure) => m.(state := s, phase := if failure.error.Some? then Errored(failure.error.value) else Waiting)
    case Next(flight) =>
      if flight.IsLastRecvFlight() && m.flight == flight then m.(state := s, phase := Phase.Finished)
      else m.(state := s, phase := Preparing, flight := flight)
  }
}
