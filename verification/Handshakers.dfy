/** The driver of the flights, with its fields updated in place. */
module Handshakers {
  import opened Wrappers
  import opened Bytes
  import opened Headers
  import opened Messages
  import opened Handshakes
  import opened HandshakeCaches
  import opened Sending
  import opened HandshakeStates
  import opened ServerFlights
  import opened ClientFlights
  import opened Handshaking
  import opened HandshakeContexts
  import ServerSteps
  import ClientSteps

  class Handshaker {
    const context: HandshakeContext
    var phase: Phase
    var currentFlight: Flight
    var flights: Option<seq<Packet>>
    var retransmit: bool

    ghost function Now(): Machine
      reads this, context
    {
      Machine(phase, currentFlight, context.state, flights, retransmit)
    }

    constructor (isClient: bool, cfg: Config, crypto: Crypto, cache: HandshakeCache)
      ensures Now() == Started(isClient) && fresh(context)
      ensures context.cfg == cfg && context.crypto == crypto && context.cache == cache
    {
      context := new HandshakeContext(isClient, cfg, crypto, cache);
      phase := Preparing;
      currentFlight := if isClient then Flight1 else Flight0;
      flights := None;
      retransmit := false;
    }

    // Preparing

    method Prepare(draws: Draws)
      modifies this, context
      ensures Now() == Prepared(old(Now()), context.cfg, context.crypto, context.cache.cache, draws)
    {
      hide FlightGenerated, Writable, NumberedPackets, MessageCount, TopEpoch;
      flights := None;
      retransmit := currentFlight.HasRetransmit();
      var generated := Generate(draws);
      match generated {
        case Refused(failure) =>
          phase := if failure.error.Some? then Errored(failure.error.value) else Sending;
        case Drafts(drafts) =>
          if Writable(drafts) {
            NumberPackets(drafts);
            phase := Sending;
          } else {
            phase := Errored(InvalidPacketLength);
          }
      }
    }

    method Generate(draws: Draws) returns (r: Generated)
      modifies context
      ensures (context.state, r)
           == FlightGenerated(currentFlight, old(context.state), context.cfg, context.crypto, context.cache.cache, draws)
    {
      hide Flight0Generated, Flight1Generated, Flight2Generated, Flight3Generated, Flight4Generated, Flight5Generated, Flight6Generated;
      match currentFlight {
        case Flight0 => r := ServerSteps.GenerateFlight0(context, draws);
        case Flight1 => r := ClientSteps.GenerateFlight1(context, draws);
        case Flight2 => r := ServerSteps.GenerateFlight2(context);
        case Flight3 => r := ClientSteps.GenerateFlight3(context);
        case Flight4 => r := ServerSteps.GenerateFlight4(context);
        case Flight5 => r := ClientSteps.GenerateFlight5(context, draws.key);
        case Flight6 => r := ServerSteps.GenerateFlight6(context);
      }
    }

    /** Numbers the messages of a flight and moves to the highest epoch among its packets. */
    method NumberPackets(drafts: seq<Draft>)
      requires Writable(drafts)
      modifies `flights, context
      ensures var packets := NumberedPackets(drafts, old(context.state.sendSequence));
              var epoch := TopEpoch(packets);
              && flights == Some(packets)
              && context.state == old(context.state).(
                                   sendSequence := old(context.state.sendSequence) + MessageCount(drafts),
                                   localEpoch := if epoch != 0 then epoch else old(context.state.localEpoch))
    {
      hide NumberedPackets, MessageCount, Writable, TopEpoch, WellFormed;
      ghost var first := context.state.sendSequence;
      var packets: seq<Packet> := [];
      var nextEpoch: U16 := 0;
      assert drafts[0..] == drafts;
      NothingNumbered(first);
      for i := 0 to |drafts|
        invariant Writable(drafts[i..])
        invariant context.state == old(context.state).(sendSequence := context.state.sendSequence)
        invariant first + MessageCount(drafts) == context.state.sendSequence + MessageCount(drafts[i..])
        invariant NumberedPackets(drafts, first) == packets + NumberedPackets(drafts[i..], context.state.sendSequence)
        invariant nextEpoch == TopEpoch(packets)
      {
        NumberedFirst(drafts[i..], context.state.sendSequence);
        assert drafts[i..][0] == drafts[i] && drafts[i..][1..] == drafts[i + 1..];
        var p := NumberPacket(drafts[i]);
        if p.epoch > nextEpoch {
          nextEpoch := p.epoch;
        }
        TopEpochAfter(packets, p);
        packets := packets + [p];
      }
      NothingNumbered(context.state.sendSequence);
      assert drafts[|drafts|..] == [] && packets + [] == packets;
      flights := Some(packets);
      if nextEpoch != 0 {
        context.state := context.state.(localEpoch := nextEpoch);
      }
    }

    method NumberPacket(draft: Draft) returns (p: Packet)
      requires Writable([draft])
      modifies context
      ensures NumberedPackets([draft], old(context.state.sendSequence)) == [p]
      ensures context.state == old(context.state).(sendSequence := old(context.state.sendSequence) + MessageCount([draft]))
    {
      hide WellFormed, NumberedPackets;
      OneNumbered(draft, context.state.sendSequence);
      CountFirst([draft]);
      match draft {
        case MessageDraft(epoch, message) =>
          var h := Numbered(message, WrappedU16(context.state.sendSequence));
          context.state := context.state.(sendSequence := context.state.sendSequence + 1);
          return Packet(PROTOCOL_VERSION1_2, epoch, HandshakeContent(h), epoch != 0);
        case ChangeCipherSpecDraft =>
          return Packet(PROTOCOL_VERSION1_2, 0, OtherContent(ContentType.ChangeCipherSpec, [1]), false);
      }
    }

    // Sending

    /** `sender` is the connection that the packets leave on; what happens to its datagrams is up to
        the network. */
    method Send(sender: Sender) returns (r: Result<seq<Bytes>>)
      requires sender.cache == context.cache
      modifies `phase, sender, sender.cache
      ensures var raw := Raw(old(sender.State()), context.state.cipherSuite, sender.mtu, sender.isClient, Packets(old(Now())));
              && sender.State() == raw.0 && r == Sent(raw.1, sender.mtu)
              && Now() == AfterSend(old(Now()), r)
    {
      r := Ok([]);
      if flights.Some? {
        r := sender.HandleOutgoingPackets(context.state.cipherSuite, flights.value);
      }
      if r.Err? {
        phase := Errored(r.error);
      } else if currentFlight.IsLastSendFlight() {
        phase := Phase.Finished;
      } else {
        phase := Waiting;
      }
    }

    // Waiting

    method Expire()
      modifies `phase
      ensures Now() == Expired(old(Now()))
    {
      phase := if retransmit then Sending else Waiting;
    }

    method Parse(key: nat) returns (r: Parsed)
      requires !currentFlight.Flight4?
      modifies context
      ensures (context.state, r)
           == FlightParsed(currentFlight, old(context.state), context.cfg, context.crypto, context.cache.cache, key)
    {
      hide Flight0Parsed, Flight1Parsed, Flight2Parsed, Flight3Parsed, Flight5Parsed, Flight6Parsed;
      match currentFlight {
        case Flight0 => r := ServerSteps.ParseFlight0(context, key);
        case Flight1 => r := ClientSteps.ParseFlight1(context, key);
        case Flight2 => r := ServerSteps.ParseFlight2(context, key);
        case Flight3 => r := ClientSteps.ParseFlight3(context, key);
        case Flight5 => r := ClientSteps.ParseFlight5(context);
        case Flight6 => r := ServerSteps.ParseFlight6(context);
      }
    }

    /** What the driver does with the outcome of parsing. */
    method Proceed(parsed: Parsed)
      modifies `phase, `currentFlight
      ensures Now() == AfterParse(old(Now()), context.state, parsed)
    {
      match parsed {
        case Failed(failure) =>
          phase := if failure.error.Some? then Errored(failure.error.value) else Waiting;
        case Next(nextFlight) =>
          if nextFlight.IsLastRecvFlight() && currentFlight == nextFlight {
            phase := Phase.Finished;
          } else {
            currentFlight := nextFlight;
            phase := Preparing;
          }
      }
    }

    /** The reader has cached new messages: every flight but the fourth parses them in one go. */
    method Wait(key: nat)
      requires !currentFlight.Flight4?
      modifies this, context
      ensures var (s, parsed) := FlightParsed(old(currentFlight), old(context.state), context.cfg, context.crypto,
                                              context.cache.cache, key);
              Now() == AfterParse(old(Now()), s, parsed)
    {
      hide FlightParsed;
      var parsed := Parse(key);
      Proceed(parsed);
    }
  }

  lemma NothingNumbered(next: int)
    ensures NumberedPackets([], next) == [] && MessageCount([]) == 0 && TopEpoch([]) == 0
  {
  }

  lemma NumberedFirst(drafts: seq<Draft>, next: int)
    requires drafts != [] && Writable(drafts)
    ensures Writable([drafts[0]]) && Writable(drafts[1..])
    ensures NumberedPackets(drafts, next)
         == NumberedPackets([drafts[0]], next) + NumberedPackets(drafts[1..], next + MessageCount([drafts[0]]))
    ensures MessageCount(drafts) == MessageCount([drafts[0]]) + MessageCount(drafts[1..])
  {
    hide WellFormed, MessageCount, Numbered;
    assert drafts[0] in drafts && forall d :: d in drafts[1..] ==> d in drafts;
    CountFirst(drafts);
    OneNumbered(drafts[0], next);
  }

  lemma OneNumbered(draft: Draft, next: int)
    requires Writable([draft])
    ensures match draft
            case MessageDraft(epoch, message) =>
              && WellFormed(message)
              && NumberedPackets([draft], next)
              == [Packet(PROTOCOL_VERSION1_2, epoch, HandshakeContent(Numbered(message, WrappedU16(next))), epoch != 0)]
            case ChangeCipherSpecDraft =>
              NumberedPackets([draft], next)
              == [Packet(PROTOCOL_VERSION1_2, 0, OtherContent(ContentType.ChangeCipherSpec, [1]), false)]
  {
  }

  lemma CountFirst(drafts: seq<Draft>)
    requires drafts != []
    ensures MessageCount(drafts) == MessageCount([drafts[0]]) + MessageCount(drafts[1..])
    ensures MessageCount([drafts[0]]) == if drafts[0].MessageDraft? then 1 else 0
  {
  }

  lemma {:induction false} TopEpochAfter(packets: seq<Packet>, p: Packet)
    ensures TopEpoch(packets + [p]) == if p.epoch > TopEpoch(packets) then p.epoch else TopEpoch(packets)
  {
    if packets == [] {
      assert [p][1..] == [];
    } else {
      TopEpochAfter(packets[1..], p);
      assert (packets + [p])[1..] == packets[1..] + [p];
    }
  }
}
