/** The server reading the hellos keeps an honest handshake honest. */
module HonestServerReads {
  import opened Wrappers
  import opened Bytes
  import opened Headers
  import opened Extensions
  import opened Messages
  import opened Handshakes
  import opened HandshakeCaches
  import opened Reading
  import opened Reassembly
  import opened WireRecords
  import opened Emission
  import opened HandshakeStates
  import opened ServerFlights
  import opened ClientFlights
  import opened Handshaking
  import opened Planning
  import opened FlightEffects
  import opened HonestWorlds
  import opened HonestSends
  import opened HonestScripts
  import opened HonestTexts
  import opened HonestKeying
  import opened HonestPulls
  import opened HonestClientReads

  /** A hello that is pulled as message 0 is the client's first. */
  lemma FirstPulled(u: Setup, h: Honest)
    requires SetupOk(u) && AllOk(u, h)
    requires FullPulled(h.net.server.Cache(), 0, [CLIENT_HELLO_RULE]).Ok?
    ensures h.clientPlan != []
    ensures Gives(MessagesPulled(h.net.server.Cache(), 0, [CLIENT_HELLO_RULE]), ClientHello,
                  Messages.Transmitted(HelloOf(h.client.state.localRandom, [], u.client)))
  {
    hide SetupOk, Base, ServerScript, ServerHeard, ServerKeys, ServerDone, KeyedOk, ClientAnswered, UnmarshalHandshake,
         RawHandshake.Whole, Unique, OwnPart, FullPulled, IsLast, WellFormed, Numbered, Messages.Transmitted, HelloOf, Table,
         Hellos, KeyedShape, Best;
    var cache, rules := h.net.server.Cache(), [CLIENT_HELLO_RULE];
    CacheParts(u, h);
    var table := h.clientPlan[..h.net.server.Popped()];
    var i := PulledFromPart(cache, table, 0, rules, CLIENT_HELLO_RULE);
    LastIs(table, CLIENT_HELLO_RULE, i);
    OneInTurn(cache, CLIENT_HELLO_RULE);
    BaseWorld(u, h);
    TableNumber(h.clientPlan, i);
    assert table[i] == h.clientPlan[i];
    assert i == 0;
    NumberedReads(HelloOf(h.client.state.localRandom, [], u.client), 0);
  }

  /** A message pulled alone must carry the number it is pulled under. */
  lemma OneInTurn(cache: seq<Item>, r: Rule)
    requires FullPulled(cache, 0, [r]).Ok?
    ensures Best(cache, r).Some? && UnmarshalHandshake(Best(cache, r).value.data).Ok? ==>
              UnmarshalHandshake(Best(cache, r).value.data).value.header.messageSequence == 0
  {
    hide UnmarshalHandshake, Best, FullPulled;
    FullPulledIff(cache, 0, [r]);
    assert [r][1..] == [];
    if Best(cache, r).Some? {
      assert Pulled(cache, [r]) == [Best(cache, r).value];
      assert HandshakeCaches.InTurn(Pulled(cache, [r])[0], 0 + 0).Ok?;
    }
  }

  lemma TableNumber(sent: seq<SentMessage>, i: nat)
    requires Table(sent) && i < |sent|
    ensures UnmarshalHandshake(sent[i].h.Whole()).Ok?
    ensures UnmarshalHandshake(sent[i].h.Whole()).value.header.messageSequence == i
  {
    hide UnmarshalBody;
  }

  // The first hello

  lemma HelloExtensionTaken(s: State, cfg: Config, e: Extension)
    ensures var (t, failure) := HelloExtension(s, cfg, e);
            t == s.(namedCurve := t.namedCurve, srtpProfile := t.srtpProfile, extendedMasterSecret := t.extendedMasterSecret,
                    serverName := t.serverName)
            && t.extendedMasterSecret
               == (s.extendedMasterSecret || (e.UseExtendedMasterSecret? && cfg.extendedMasterSecret.Offers()))
            && (failure.Some? ==> failure.value.error.Some?)
            && (failure.None? && e.SupportedEllipticCurves? ==> FirstKnownCurve(e.curves) == Some(t.namedCurve))
            && (!e.SupportedEllipticCurves? ==> t.namedCurve == s.namedCurve)
  {
    hide FirstKnownCurve;
  }

  lemma {:induction false} HelloExtensionsTaken(s: State, cfg: Config, extensions: seq<Extension>)
    ensures var (t, failure) := HelloExtensions(s, cfg, extensions);
            t == s.(namedCurve := t.namedCurve, srtpProfile := t.srtpProfile, extendedMasterSecret := t.extendedMasterSecret,
                    serverName := t.serverName)
            && (failure.None? ==>
                  t.extendedMasterSecret == (s.extendedMasterSecret || (HasEms(extensions) && cfg.extendedMasterSecret.Offers())))
            && (failure.Some? ==> failure.value.error.Some?)
    decreases |extensions|
  {
    hide HasEms, HelloExtension;
    if extensions == [] {
      NoEms();
    } else {
      EmsFirst(extensions);
      HelloExtensionTaken(s, cfg, extensions[0]);
      if HelloExtension(s, cfg, extensions[0]).1.None? {
        HelloExtensionsTaken(HelloExtension(s, cfg, extensions[0]).0, cfg, extensions[1..]);
      }
    }
  }

  ghost predicate CurvesStartWith(extensions: seq<Extension>, curve: U16) {
    forall e :: e in extensions && e.SupportedEllipticCurves? ==> FirstKnownCurve(e.curves) == Some(curve)
  }

  /** The curve chosen, once it has been offered. */
  lemma {:induction false} CurveTaken(s: State, cfg: Config, extensions: seq<Extension>, curve: U16)
    requires CurvesStartWith(extensions, curve) && HelloExtensions(s, cfg, extensions).1.None?
    requires s.namedCurve == curve || exists e :: e in extensions && e.SupportedEllipticCurves?
    ensures HelloExtensions(s, cfg, extensions).0.namedCurve == curve
    decreases |extensions|
  {
    hide HelloExtension, FirstKnownCurve;
    if extensions != [] {
      assert forall x :: x in extensions <==> x == extensions[0] || x in extensions[1..];
      HelloExtensionTaken(s, cfg, extensions[0]);
      CurveTaken(HelloExtension(s, cfg, extensions[0]).0, cfg, extensions[1..], curve);
    }
  }

  lemma OfferedExtensions(cfg: Config)
    ensures HasEms(ClientHelloExtensions(cfg)) <==> cfg.extendedMasterSecret.Offers()
    ensures CurvesStartWith(ClientHelloExtensions(cfg), P256)
    ensures cfg.psk.None? ==> exists e :: e in ClientHelloExtensions(cfg) && e.SupportedEllipticCurves?
  {
    var curves := SupportedEllipticCurves([0x17, 0x1d, 0x18]);
    if cfg.psk.None? {
      assert ClientHelloExtensions(cfg)[2] == curves;
      assert curves in ClientHelloExtensions(cfg);
    }
    if cfg.extendedMasterSecret.Offers() {
      EmsOffered(cfg);
    }
  }

  lemma EmsOffered(cfg: Config)
    requires cfg.extendedMasterSecret.Offers()
    ensures HasEms(ClientHelloExtensions(cfg))
  {
  }

  /** The server's state before it has read the first hello, or after: reading it again changes nothing. */
  ghost predicate MayHear(u: Setup, s: State) {
    (s.extendedMasterSecret ==> u.client.extendedMasterSecret.Offers() && u.server.extendedMasterSecret.Offers())
    && (s.localKeypair.Some? && u.client.psk.None? ==> exists key :: u.crypto.keypair(P256, key) == Ok(s.localKeypair.value))
  }

  lemma KeypairTaken(u: Setup, s: State, random: HandshakeRandom, key: nat)
    requires MayHear(u, s) && s.remoteRandom == random.Transmitted() && s.cipherSuite.Some?
    requires s.extendedMasterSecret == (u.client.extendedMasterSecret.Offers() && u.server.extendedMasterSecret.Offers())
    requires u.client.psk.None? ==> s.namedCurve == P256
    ensures var (t, p) := KeypairReady(s, u.server, u.crypto, key);
            (p.Next? ==> p == Next(Flight2) && Negotiated(u, t, random)) && t.cipherSuite == s.cipherSuite
            && (p.Failed? ==> p.failure.error.Some?)
  {
  }

  /** Reading the first hello agrees on everything it offers. */
  lemma HelloTaken(u: Setup, s: State, random: HandshakeRandom, key: nat)
    requires SetupOk(u) && MayHear(u, s)
    ensures var hello := Messages.Transmitted(HelloOf(random, [], u.client)).clientHello;
            var (t, p) := HelloParsed(s, u.server, u.crypto, hello, key);
            (p.Next? ==> p == Next(Flight2) && Negotiated(u, t, random))
            && (p.Failed? ==> p.failure.error.Some?)
            && OldOrNew(s, t)
  {
    hide SoundSuites, SoundExchange, SharedKey, ClientHelloExtensions, HelloExtensions, KeypairReady, MayHear, Negotiated, HasEms,
         CurvesStartWith, NewSuite;
    var hello := Messages.Transmitted(HelloOf(random, [], u.client)).clientHello;
    HelloFields(random, u.client);
    OfferedExtensions(u.client);
    if FirstMatch(hello.cipherSuites, u.server.cipherSuites).Some? {
      var id := FirstMatch(hello.cipherSuites, u.server.cipherSuites).value;
      KnownSuite(u, id);
      var suited := s.(remoteRandom := hello.random).(cipherSuite := Some(NewSuite(id)));
      HelloExtensionsTaken(suited, u.server, hello.extensions);
      var (extended, failure) := HelloExtensions(suited, u.server, hello.extensions);
      if failure.None? {
        if u.client.psk.None? {
          CurveTaken(suited, u.server, hello.extensions, P256);
        }
        StillMayHear(u, s, extended);
        KeypairTaken(u, extended, random, key);
      }
      NewIs(s, KeypairReady(extended, u.server, u.crypto, key).0, id);
      NewIs(s, extended, id);
    }
  }

  lemma KnownSuite(u: Setup, id: U16)
    requires SetupOk(u) && id in u.server.cipherSuites
    ensures SuiteForId(id) == Ok(NewSuite(id))
  {
  }

  lemma NewIs(s: State, t: State, id: U16)
    ensures t.cipherSuite == Some(NewSuite(id)) ==> OldOrNew(s, t)
  {
  }

  lemma HelloFields(random: HandshakeRandom, cfg: Config)
    ensures var m := Messages.Transmitted(HelloOf(random, [], cfg));
            m.ClientHelloMessage? && m.clientHello.version == PROTOCOL_VERSION1_2 && m.clientHello.random == random.Transmitted()
            && m.clientHello.cipherSuites == cfg.cipherSuites && m.clientHello.extensions == ClientHelloExtensions(cfg)
            && m.clientHello.cookie == []
  {
  }

  lemma StillMayHear(u: Setup, s: State, t: State)
    requires MayHear(u, s) && t.localKeypair == s.localKeypair
    requires t.extendedMasterSecret == (s.extendedMasterSecret
             || (u.client.extendedMasterSecret.Offers() && u.server.extendedMasterSecret.Offers()))
    ensures MayHear(u, t)
    ensures t.extendedMasterSecret == (u.client.extendedMasterSecret.Offers() && u.server.extendedMasterSecret.Offers())
  {
  }

  // In the handshake

  /** What reading a hello may do to the server. */
  ghost predicate ServerStep(u: Setup, h: Honest, t: State, p: Parsed) {
    var s := h.server.state;
    Kept(s, t) && t.cookie == s.cookie && OldOrNew(s, t)
    && match p
       case Failed(failure) => failure.error.Some? || t == s.(recvSequence := t.recvSequence)
       case Next(flight) =>
         if flight.Flight4? then h.server.flight.Flight2? && t == s.(recvSequence := t.recvSequence)
         else flight.Flight2? && h.clientPlan != [] && Negotiated(u, t, h.client.state.localRandom)
  }

  lemma HeardMayHear(u: Setup, h: Honest)
    requires ServerHeard(u, h.server, h.client.state.localRandom, h.clientPlan) && h.server.phase == Waiting
    requires h.server.flight.Flight0? || h.server.flight.Flight2?
    ensures MayHear(u, h.server.state) && !Ready(h.server.state.cipherSuite)
  {
  }

  lemma Flight0Step(u: Setup, h: Honest, key: nat)
    requires SetupOk(u) && AllOk(u, h) && h.server.phase == Waiting && (h.server.flight.Flight0? || h.server.flight.Flight2?)
    ensures var (t, p) := Flight0Parsed(h.server.state, u.server, u.crypto, h.net.server.Cache(), key); ServerStep(u, h, t, p)
  {
    hide SetupOk, Base, ClientScript, ServerScript, ServerHeard, ServerKeys, ServerDone, KeyedOk, ClientAnswered, FullPulled,
         HelloParsed, MayHear, Negotiated, Messages.Transmitted, HelloOf, OldOrNew, Ready, ClientHelloExtensions;
    var s, cache := h.server.state, h.net.server.Cache();
    Flight0Effect(s, u.server, u.crypto, cache, key);
    var pulled := FullPulled(cache, 0, [CLIENT_HELLO_RULE]);
    OldIs(s, s);
    if pulled.Ok? {
      FirstPulled(u, h);
      HeardMayHear(u, h);
      HelloFields(h.client.state.localRandom, u.client);
      var read := s.(recvSequence := pulled.value.0);
      StillMay(u, s, read);
      HelloTaken(u, read, h.client.state.localRandom, key);
      var hello := pulled.value.1[ClientHello].clientHello;
      OldTwice(s, read, HelloParsed(read, u.server, u.crypto, hello, key).0);
    }
  }

  lemma OldIs(s: State, t: State)
    requires t.cipherSuite == s.cipherSuite
    ensures OldOrNew(s, t)
  {
  }

  lemma OldTwice(s: State, r: State, t: State)
    requires r.cipherSuite == s.cipherSuite && OldOrNew(r, t)
    ensures OldOrNew(s, t)
  {
  }

  lemma StillMay(u: Setup, s: State, t: State)
    requires MayHear(u, s) && t == s.(recvSequence := t.recvSequence)
    ensures MayHear(u, t)
  {
  }

  lemma ServerParsed(u: Setup, h: Honest, key: nat)
    requires SetupOk(u) && AllOk(u, h) && h.server.phase == Waiting && (h.server.flight.Flight0? || h.server.flight.Flight2?)
    ensures var (t, p) := FlightParsed(h.server.flight, h.server.state, u.server, u.crypto, h.net.server.Cache(), key);
            ServerStep(u, h, t, p)
  {
    hide SetupOk, AllOk, Flight0Parsed, FullPulled, Negotiated, OldOrNew, Flight3Parsed, Flight4Keyed, Flight5Parsed, Flight4Finished;
    var s, cache := h.server.state, h.net.server.Cache();
    Flight0Step(u, h, key);
    var pulled := FullPulled(cache, s.recvSequence, [CLIENT_HELLO_RULE]);
    if pulled.Ok? {
      OldIs(s, s.(recvSequence := pulled.value.0));
    }
  }

  lemma ServerReadScript(u: Setup, h: Honest, t: State, p: Parsed)
    requires ServerScript(u.server, u.crypto, h.server, h.serverPlan, h.offer) && h.server.phase == Waiting
    requires h.server.flight.Flight0? || h.server.flight.Flight2?
    requires ServerHeard(u, h.server, h.client.state.localRandom, h.clientPlan) && ServerStep(u, h, t, p)
    ensures h.offer.None? && !Ready(h.server.state.cipherSuite) && !Ready(t.cipherSuite)
    ensures ServerScript(u.server, u.crypto, AfterParse(h.server, t, p), h.serverPlan, h.offer)
    ensures ServerHeard(u, AfterParse(h.server, t, p), h.client.state.localRandom, h.clientPlan)
  {
    hide VerifyOnly, Flight4Generated, Answered, WellFormed, FinishedAt;
  }

  lemma ServerReadBase(u: Setup, h: Honest, t: State, p: Parsed)
    requires SetupOk(u) && AllOk(u, h) && h.server.phase == Waiting && (h.server.flight.Flight0? || h.server.flight.Flight2?)
    requires ServerStep(u, h, t, p)
    ensures Base(u, h.(server := AfterParse(h.server, t, p)))
  {
    hide SetupOk, ClientScript, ServerScript, ServerHeard, ServerKeys, ServerDone, KeyedOk, ClientAnswered, Out, OldOrNew, SuiteOk,
         Ready, SealerOf, Protected, Negotiated, WellBehaved;
    var next := AfterParse(h.server, t, p);
    BaseOut(u, h);
    AfterState(h.server, t, p);
    SameOldOrNew(h.server.state, t, next.state);
    OldOrNewOk(u, h.server, next);
    ServerReadScript(u, h, t, p);
    ParseOut(u, h.server, h.serverPlan, h.net.server, h.net.client, h.net.fromServer, u.serverMtu, t, p);
  }

  lemma UnreadyServer(u: Setup, c: State, m: Machine, clientPlan: seq<SentMessage>, plan: seq<SentMessage>, keyed: Option<Keyed>,
                      popped: nat)
    requires !Ready(m.state.cipherSuite) && !m.flight.Flight6?
    ensures ServerKeys(u, c, m.state, keyed) && ServerDone(u, c, m, clientPlan, plan, None, popped)
  {
  }

  /** The server reading in flights 0 and 2. */
  lemma ServerReadKeeps(u: Setup, h: Honest, key: nat)
    requires SetupOk(u) && AllOk(u, h) && h.server.phase == Waiting && (h.server.flight.Flight0? || h.server.flight.Flight2?)
    ensures AllOk(u, ParsedBy(u, h, false, key))
  {
    hide Negotiated, UnmarshalHandshake, Taken, Flight4Keyed, Flight4Finished, Base, SetupOk, ClientScript, ServerScript, ServerHeard,
         ServerKeys, ServerDone, KeyedOk, Ready, ClientAnswered, FlightParsed, ServerStep, AfterParse, RandomBytes;
    ServerParsed(u, h, key);
    var (t, p) := FlightParsed(h.server.flight, h.server.state, u.server, u.crypto, h.net.server.Cache(), key);
    var next := AfterParse(h.server, t, p);
    ServerReadBase(u, h, t, p);
    ServerReadScript(u, h, t, p);
    AfterState(h.server, t, p);
    ReadFlight(u, h, t, p);
    UnreadyServer(u, h.client.state, next, h.clientPlan, h.serverPlan, h.keyed, h.net.server.Popped());
    assert ParsedBy(u, h, false, key) == h.(server := next);
  }

  lemma ReadFlight(u: Setup, h: Honest, t: State, p: Parsed)
    requires ServerStep(u, h, t, p) && (h.server.flight.Flight0? || h.server.flight.Flight2?)
    ensures !AfterParse(h.server, t, p).flight.Flight6? && t.localVerifyData == h.server.state.localVerifyData
  {
  }
}
