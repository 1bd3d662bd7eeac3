/** What holds of one side in every run, whatever the peer sends: it keeps to its policies, goes on only
    with a peer that has proved itself, and sends a lost flight again. */
module GuardedRuns {
  import opened Bytes
  import opened HandshakeCaches
  import opened Sending
  import opened HandshakeStates
  import opened ServerFlights
  import opened ClientFlights
  import opened Handshaking
  import opened FlightEffects
  import opened HandshakeRuns
  import opened FlightGuards

  /** Every message among the packets has its slot in the cache. */
  ghost predicate AllCached(cache: seq<Item>, pkts: seq<Packet>, isClient: bool) {
    forall p :: p in pkts && p.content.HandshakeContent? ==> SlotTaken(cache, p.content.h.sequence, isClient)
  }

  ghost predicate SlotTaken(cache: seq<Item>, sequence: U16, isClient: bool) {
    exists c :: c in cache && c.messageSequence == sequence && c.isClient == isClient
  }

  /** What must have come in for a side to be in this flight, and what it has taken from it. */
  ghost predicate GreetingHeard(flight: Flight, s: State, cache: seq<Item>) {
    match flight
    case Flight0 => true
    case Flight1 => true
    case Flight3 => VerifyHeard(cache, s.cookie)
    case Flight5 => Heard(cache, SERVER_HELLO_RULE, s.remoteRandom)
    case _ => Heard(cache, CLIENT_HELLO_RULE, s.remoteRandom)
  }

  ghost predicate Guarded(e: Endpoint, cfg: Config, crypto: Crypto) {
    var m := e.machine;
    Within(cfg, crypto, m.state)
    && (m.phase == Phase.Sending || m.phase == Waiting ==> (m.retransmit <==> m.flight != Flight2))
    && (m.phase == Waiting ==> AllCached(e.cache, Packets(m), IsClient(e)))
    && (m.flight.Flight2? || m.flight.Flight4? || m.flight.Flight5? || m.flight.Flight6? ==> Extended(cfg, m.state))
    && (m.flight.Flight5? ==> Profiled(cfg, m.state))
    && (m.flight.Flight5? && m.phase == Preparing ==> Unkeyed(m.state))
    && GreetingHeard(m.flight, m.state, e.cache)
    && (m.flight.Flight6? ==> ClientAuthentic(cfg, crypto, m.state, e.cache))
    && (m.flight.Flight5? && LastFlightSent(m) && cfg.psk.None? ==> ServerAuthentic(cfg, crypto, m.state, e.cache))
  }

  // The cache only grows.

  lemma AuthenticGrows(cfg: Config, crypto: Crypto, s: State, cache: seq<Item>, more: seq<Item>)
    requires cache <= more
    ensures ClientAuthentic(cfg, crypto, s, cache) ==> ClientAuthentic(cfg, crypto, s, more)
    ensures ServerAuthentic(cfg, crypto, s, cache) ==> ServerAuthentic(cfg, crypto, s, more)
  {
    hide ProofRead, Reads, RandomBytes;
    if s.peerCertificates != [] && ProofRead(cfg, crypto, cache, s.peerCertificates) {
      ProofGrows(cfg, crypto, cache, more, s.peerCertificates);
    }
    if ServerAuthentic(cfg, crypto, s, cache) {
      var exchange :|
        ExchangeHeld(cache, exchange) && exchange.algorithm in cfg.signatureSchemes
        && crypto.verifyKey(RandomBytes(s.localRandom), RandomBytes(s.remoteRandom), exchange, s.peerCertificates)
        && crypto.trustServer(s.peerCertificates);
      if exchange != NO_EXCHANGE {
        ReadsGrows(cache, more, SERVER_KEY_EXCHANGE_RULE, Messages.ServerKeyExchangeMessage(exchange));
      }
      assert ExchangeHeld(more, exchange);
    }
  }

  lemma CachedGrows(cache: seq<Item>, more: seq<Item>, pkts: seq<Packet>, isClient: bool)
    requires cache <= more && AllCached(cache, pkts, isClient)
    ensures AllCached(more, pkts, isClient)
  {
    forall p | p in pkts && p.content.HandshakeContent?
      ensures SlotTaken(more, p.content.h.sequence, isClient)
    {
      var c :| c in cache && c.messageSequence == p.content.h.sequence && c.isClient == isClient;
      assert c in more;
    }
  }

  lemma GreetingGrows(flight: Flight, s: State, cache: seq<Item>, more: seq<Item>)
    requires GreetingHeard(flight, s, cache) && cache <= more
    ensures GreetingHeard(flight, s, more)
  {
    hide Reads, HelloWith;
    forall r, m | Reads(cache, r, m)
      ensures Reads(more, r, m)
    {
      ReadsGrows(cache, more, r, m);
    }
  }

  lemma GuardedGrows(e: Endpoint, cfg: Config, crypto: Crypto, cache: seq<Item>)
    requires Guarded(e, cfg, crypto) && e.cache <= cache
    ensures Guarded(e.(cache := cache), cfg, crypto)
  {
    hide Within, AllCached, ClientAuthentic, ServerAuthentic, GreetingHeard;
    AuthenticGrows(cfg, crypto, e.machine.state, e.cache, cache);
    GreetingGrows(e.machine.flight, e.machine.state, e.cache, cache);
    if e.machine.phase == Waiting {
      CachedGrows(e.cache, cache, Packets(e.machine), IsClient(e));
    }
  }

  // Sending

  lemma SlotPushed(cache: seq<Item>, p: Packet, isClient: bool)
    ensures cache <= CachedBefore(cache, p, isClient) && AllCached(CachedBefore(cache, p, isClient), [p], isClient)
    ensures AllCached(cache, [p], isClient) ==> CachedBefore(cache, p, isClient) == cache
  {
    hide Handshakes.RawHandshake.Whole;
    if p.content.HandshakeContent? {
      var item := ItemOf(p.content.h, p.epoch, isClient);
      assert p in [p];
      if !exists i :: 0 <= i < |cache| && SameSlot(cache[i], item) {
        assert item in Pushed(cache, item);
      }
    }
  }

  lemma {:induction false} SentCached(cache: seq<Item>, pkts: seq<Packet>, isClient: bool)
    ensures AllCached(CachedAll(cache, pkts, isClient), pkts, isClient)
    decreases |pkts|
  {
    hide CachedBefore, SlotTaken;
    if pkts != [] {
      var first := CachedBefore(cache, pkts[0], isClient);
      SlotPushed(cache, pkts[0], isClient);
      SentCached(first, pkts[1..], isClient);
      CachedAllGrows(first, pkts[1..], isClient);
      CachedGrows(first, CachedAll(cache, pkts, isClient), [pkts[0]], isClient);
    }
  }

  /** Messages that are in the cache are not put there again. */
  lemma {:induction false} SentAgain(cache: seq<Item>, pkts: seq<Packet>, isClient: bool)
    requires AllCached(cache, pkts, isClient)
    ensures CachedAll(cache, pkts, isClient) == cache
    decreases |pkts|
  {
    hide CachedBefore, SlotTaken;
    if pkts != [] {
      SlotPushed(cache, pkts[0], isClient);
      SentAgain(cache, pkts[1..], isClient);
    }
  }

  lemma SendGuarded(e: Endpoint, cfg: Config, crypto: Crypto, event: Event)
    requires Guarded(e, cfg, crypto) && event.Send? && Enabled(e, event)
    ensures Guarded(Reacted(e, cfg, crypto, event), cfg, crypto)
  {
    hide Within, AllCached, ClientAuthentic, ServerAuthentic, GreetingHeard, CachedAll, Unkeyed, Extended, Profiled,
         FlightParsed, Prepared;
    var pkts := First(Packets(e.machine), event.cached);
    CachedAllGrows(e.cache, pkts, IsClient(e));
    GuardedGrows(e, cfg, crypto, CachedAll(e.cache, pkts, IsClient(e)));
    SentCached(e.cache, pkts, IsClient(e));
    assert event.result.Ok? ==> pkts == Packets(e.machine);
  }

  // Preparing

  lemma GeneratedStays(flight: Flight, s: State, cfg: Config, crypto: Crypto, cache: seq<Item>, draws: Draws)
    ensures var (t, g) := FlightGenerated(flight, s, cfg, crypto, cache, draws);
            Stays(cfg, crypto, s, t) && t.remoteRandom == s.remoteRandom && (flight.Flight3? ==> t.cookie == s.cookie)
            && (flight.Flight5? ==>
                  t.srtpProfile == s.srtpProfile
                  && (g.Drafts? && Unkeyed(s) && cfg.psk.None? ==> ServerAuthentic(cfg, crypto, t, cache)))
            && (flight.Flight6? ==> t.peerCertificates == s.peerCertificates)
  {
    hide Flight5Generated, Flight4Generated, Merged, ServerAuthentic, KeepsIds;
    match flight
    case Flight5 => Flight5Stays(s, cfg, crypto, cache, draws.key);
    case Flight4 => Flight4Same(s, cfg, crypto);
    case _ =>
  }

  lemma Flight4Same(s: State, cfg: Config, crypto: Crypto)
    ensures Flight4Generated(s, cfg, crypto).0 == s
  {
  }

  lemma PrepareGuarded(e: Endpoint, cfg: Config, crypto: Crypto, draws: Draws)
    requires Guarded(e, cfg, crypto) && Enabled(e, Prepare(draws))
    ensures Guarded(Reacted(e, cfg, crypto, Prepare(draws)), cfg, crypto)
  {
    hide FlightGenerated, Heard, VerifyHeard, Writable, NumberedPackets, TopEpoch, MessageCount, AllCached, ProofRead,
         ExchangeHeld, RandomBytes, KeepsIds, FlightParsed, CachedAll, NumbersOf, Draws.Valid, OfEpoch, EndsInFinished,
         Flight4Keyed, Flight4Finished;
    var m := e.machine;
    GeneratedStays(m.flight, m.state, cfg, crypto, e.cache, draws);
    FlightPrepared(m.flight, m.state, cfg, crypto, e.cache, draws);
  }

  // Reading

  /** What reading may do to what is guarded. */
  ghost predicate ReadOk(flight: Flight, cfg: Config, crypto: Crypto, s: State, t: State, p: Parsed, cache: seq<Item>) {
    Stays(cfg, crypto, s, t) && t.isClient == s.isClient
    && (flight.Flight5? || flight.Flight6? ==> t == s)
    && (flight.Flight2? || flight.Flight4? ==> t.remoteRandom == s.remoteRandom || Heard(cache, CLIENT_HELLO_RULE, t.remoteRandom))
    && (p != Next(Flight3) && flight.Flight3? ==> t.cookie == s.cookie)
    && (p == Next(Flight3) ==> VerifyHeard(cache, t.cookie))
    && (p.Next? && p != Next(flight) ==>
          match p.flight
          case Flight2 => Extended(cfg, t) && Heard(cache, CLIENT_HELLO_RULE, t.remoteRandom)
          case Flight4 => flight.Flight2?
          case Flight5 => Greeted(cfg, t) && Heard(cache, SERVER_HELLO_RULE, t.remoteRandom)
          case Flight6 => flight.Flight4? && ClientAuthentic(cfg, crypto, t, cache)
          case Flight3 => true
          case _ => false)
  }

  lemma FlightReadOk(flight: Flight, s: State, cfg: Config, crypto: Crypto, cache: seq<Item>, key: nat)
    requires !flight.Flight4?
    ensures var (t, p) := FlightParsed(flight, s, cfg, crypto, cache, key); ReadOk(flight, cfg, crypto, s, t, p, cache)
  {
    hide Flight0Parsed, Flight1Parsed, Flight2Parsed, Flight3Parsed, Flight5Parsed, Flight6Parsed, Within, ClientAuthentic,
         CookieSeen, ServerVerified, Greeted, Heard, VerifyHeard;
    match flight
    case Flight0 =>
      Flight0Stays(s, cfg, crypto, cache, key);
      Flight0Effect(s, cfg, crypto, cache, key);
    case Flight1 =>
      Flight1Stays(s, cfg, crypto, cache, key);
      Flight1Effect(s, cfg, crypto, cache, key);
    case Flight2 =>
      Flight2Stays(s, cfg, crypto, cache, key);
      Flight2Effect(s, cfg, crypto, cache, key);
    case Flight3 =>
      Flight3Stays(s, cfg, crypto, cache, key);
      Flight3Effect(s, cfg, crypto, cache, key);
    case Flight5 => Flight5Effect(s, crypto, cache);
    case Flight6 => Flight6Again(s, cache);
  }

  lemma Flight6Again(s: State, cache: seq<Item>)
    ensures Flight6Parsed(s, cache).Next? ==> Flight6Parsed(s, cache) == Next(Flight6)
  {
    hide FullPulled;
  }

  lemma MovedGuarded(e: Endpoint, cfg: Config, crypto: Crypto, t: State, p: Parsed)
    requires Guarded(e, cfg, crypto) && e.machine.phase == Waiting
    requires ReadOk(e.machine.flight, cfg, crypto, e.machine.state, t, p, e.cache)
    ensures Guarded(Moved(e, AfterParse(e.machine, t, p)), cfg, crypto)
  {
    hide Within, AllCached, ClientAuthentic, ServerAuthentic, Profiled, Heard, VerifyHeard;
  }

  lemma ParseGuarded(e: Endpoint, cfg: Config, crypto: Crypto, event: Event)
    requires Guarded(e, cfg, crypto) && event.Parse? && Enabled(e, event)
    ensures Guarded(Reacted(e, cfg, crypto, event), cfg, crypto)
  {
    hide ReadOk, FlightParsed, Flight4Keyed, Flight4Finished, AfterParse, PushedAll, Moved, Prepared, ProofRead, Guarded,
         CachedAll, FinishedSeen;
    var m := e.machine;
    if m.flight.Flight4? {
      Flight4Effect(m.state, cfg, crypto, e.cache);
      Flight4Stays(m.state, cfg, crypto, e.cache);
      match Flight4Keyed(m.state, cfg, crypto, e.cache)
      case (s, Halt(failure)) =>
        HaltOk(m.state, cfg, crypto, s, failure, e.cache);
        MovedGuarded(e, cfg, crypto, s, Failed(failure));
      case (s, Continue(next)) =>
        var cache := PushedAll(e.cache, event.waiting);
        PushedAllGrows(e.cache, event.waiting);
        GuardedGrows(e, cfg, crypto, cache);
        ContinueOk(m.state, cfg, crypto, e.cache, cache, next);
        var (t, parsed) := Flight4Finished(s, cfg, cache, next);
        MovedGuarded(e.(cache := cache), cfg, crypto, t, parsed);
    } else {
      FlightReadOk(m.flight, m.state, cfg, crypto, e.cache, event.key);
      var (s, parsed) := FlightParsed(m.flight, m.state, cfg, crypto, e.cache, event.key);
      MovedGuarded(e, cfg, crypto, s, parsed);
    }
  }

  lemma HaltOk(s: State, cfg: Config, crypto: Crypto, t: State, failure: Failure, cache: seq<Item>)
    requires Stays(cfg, crypto, s, t) && t.isClient == s.isClient && t.remoteRandom == s.remoteRandom
    ensures ReadOk(Flight4, cfg, crypto, s, t, Failed(failure), cache)
  {
  }

  lemma ContinueOk(s: State, cfg: Config, crypto: Crypto, cache: seq<Item>, more: seq<Item>, next: int)
    requires Flight4Keyed(s, cfg, crypto, cache).1 == Continue(next) && cache <= more
    ensures var (t, p) := Flight4Finished(Flight4Keyed(s, cfg, crypto, cache).0, cfg, more, next);
            ReadOk(Flight4, cfg, crypto, s, t, p, more)
  {
    hide Flight4Keyed, Flight4Finished, ClientAuthentic, ProofRead, KeepsIds, FinishedSeen, Heard, VerifyHeard;
    var keyed := Flight4Keyed(s, cfg, crypto, cache).0;
    Flight4Effect(s, cfg, crypto, cache);
    Flight4Stays(s, cfg, crypto, cache);
    KeyedProven(s, cfg, crypto, cache);
    if keyed.peerCertificates != [] {
      ProofGrows(cfg, crypto, cache, more, keyed.peerCertificates);
    }
    Flight4Authentic(keyed, cfg, crypto, more, next);
    Flight4FinishedEffect(keyed, cfg, more, next);
  }

  // Whole runs

  lemma EventGuarded(e: Endpoint, cfg: Config, crypto: Crypto, event: Event)
    requires Guarded(e, cfg, crypto) && Enabled(e, event)
    ensures Guarded(Reacted(e, cfg, crypto, event), cfg, crypto)
  {
    hide Prepared, FlightParsed, Flight4Keyed, Draws.Valid, Flight4Finished, CachedAll, Guarded, AfterParse, PushedAll;
    match event
    case Prepare(draws) => PrepareGuarded(e, cfg, crypto, draws);
    case Send(_, _) => SendGuarded(e, cfg, crypto, event);
    case Expire => ExpireGuarded(e, cfg, crypto);
    case Parse(_, _) => ParseGuarded(e, cfg, crypto, event);
    case Arrive(item) => GuardedGrows(e, cfg, crypto, Pushed(e.cache, item));
  }

  lemma ExpireGuarded(e: Endpoint, cfg: Config, crypto: Crypto)
    requires Guarded(e, cfg, crypto) && Enabled(e, Expire)
    ensures Guarded(Reacted(e, cfg, crypto, Expire), cfg, crypto)
  {
    hide Within, AllCached, ClientAuthentic, ServerAuthentic, GreetingHeard, Prepared, FlightParsed, Flight4Keyed, Draws.Valid,
         Flight4Finished, CachedAll;
  }

  lemma {:induction false} RunGuarded(e: Endpoint, cfg: Config, crypto: Crypto, events: seq<Event>, end: Endpoint)
    requires Guarded(e, cfg, crypto) && Reaches(e, cfg, crypto, events, end)
    ensures Guarded(end, cfg, crypto)
    decreases |events|
  {
    hide Guarded, Reacted, Enabled;
    if events != [] {
      EventGuarded(e, cfg, crypto, events[0]);
      RunGuarded(Reacted(e, cfg, crypto, events[0]), cfg, crypto, events[1..], end);
    }
  }

  lemma StartGuarded(isClient: bool, cfg: Config, crypto: Crypto)
    ensures Guarded(NewEndpoint(isClient), cfg, crypto)
  {
  }

  /** Before it goes on, a client has read a HelloVerifyRequest with the cookie that it repeats, or a hello
      of version 1.2 with the random that it uses; a server has read such a hello of the client. */
  lemma HellosHeard(isClient: bool, cfg: Config, crypto: Crypto, events: seq<Event>, e: Endpoint)
    requires Reaches(NewEndpoint(isClient), cfg, crypto, events, e)
    ensures e.machine.flight == Flight3 ==> VerifyHeard(e.cache, e.machine.state.cookie)
    ensures e.machine.flight == Flight5 ==> Heard(e.cache, SERVER_HELLO_RULE, e.machine.state.remoteRandom)
    ensures e.machine.flight in {Flight2, Flight4, Flight6} ==> Heard(e.cache, CLIENT_HELLO_RULE, e.machine.state.remoteRandom)
  {
    hide Reaches, Within, ClientAuthentic, ServerAuthentic, AllCached, Unkeyed, Heard, VerifyHeard;
    StartGuarded(isClient, cfg, crypto);
    RunGuarded(NewEndpoint(isClient), cfg, crypto, events, e);
  }

  /** Nobody settles for what its configuration does not offer; once past the hellos a side that insists
      on the extended master secret has it, and a client that wants SRTP has a profile of its own list. */
  lemma PoliciesKept(isClient: bool, cfg: Config, crypto: Crypto, events: seq<Event>, e: Endpoint)
    requires Reaches(NewEndpoint(isClient), cfg, crypto, events, e)
    ensures Within(cfg, crypto, e.machine.state)
    ensures e.machine.flight !in {Flight0, Flight1, Flight3} && cfg.extendedMasterSecret == Require ==>
              e.machine.state.extendedMasterSecret
    ensures e.machine.flight == Flight5 && cfg.srtpProfiles != [] ==> e.machine.state.srtpProfile in cfg.srtpProfiles
  {
    hide Reaches, KeepsIds, ClientAuthentic, ServerAuthentic, AllCached, Unkeyed;
    StartGuarded(isClient, cfg, crypto);
    RunGuarded(NewEndpoint(isClient), cfg, crypto, events, e);
  }

  /** A server in its last flight has no certificates of the client, and demands none, or it has read a
      proof for them: a signature that holds over the transcript it had then. A client that has prepared
      its last flight, with no shared key, has checked the server's key share and certificates. */
  lemma PeersProven(isClient: bool, cfg: Config, crypto: Crypto, events: seq<Event>, e: Endpoint)
    requires Reaches(NewEndpoint(isClient), cfg, crypto, events, e)
    ensures e.machine.flight == Flight6 ==>
              if e.machine.state.peerCertificates == []
              then cfg.clientAuth != RequireAnyClientCert && cfg.clientAuth != RequireAndVerifyClientCert
              else ProofRead(cfg, crypto, e.cache, e.machine.state.peerCertificates)
    ensures e.machine.flight == Flight5 && cfg.psk.None?
            && (e.machine.phase == Phase.Sending || e.machine.phase == Waiting || e.machine.phase == Phase.Finished) ==>
              ServerAuthentic(cfg, crypto, e.machine.state, e.cache)
  {
    hide Reaches, Within, ProofRead, ServerAuthentic, AllCached, Unkeyed;
    StartGuarded(isClient, cfg, crypto);
    RunGuarded(NewEndpoint(isClient), cfg, crypto, events, e);
  }

  /** When the timer expires, every flight but the server's second is sent again, as it was, and its
      messages are not cached twice; in the second flight nothing happens. */
  lemma LostFlightsRepeat(isClient: bool, cfg: Config, crypto: Crypto, events: seq<Event>, e: Endpoint)
    requires Reaches(NewEndpoint(isClient), cfg, crypto, events, e) && e.machine.phase == Waiting
    ensures Enabled(e, Expire)
    ensures Reacted(e, cfg, crypto, Expire)
         == if e.machine.flight == Flight2 then e else e.(machine := e.machine.(phase := Phase.Sending))
    ensures CachedAll(e.cache, Packets(e.machine), IsClient(e)) == e.cache
  {
    hide Reaches, Within, AllCached, ClientAuthentic, ServerAuthentic, CachedAll, Prepared, FlightParsed, Flight4Keyed,
         Flight4Finished;
    StartGuarded(isClient, cfg, crypto);
    RunGuarded(NewEndpoint(isClient), cfg, crypto, events, e);
    SentAgain(e.cache, Packets(e.machine), IsClient(e));
  }
}
