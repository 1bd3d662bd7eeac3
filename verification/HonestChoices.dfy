/** What the server of an honest handshake has chosen from the client's hello. */
module HonestChoices {
  import opened Wrappers
  import opened Bytes
  import opened Headers
  import opened Extensions
  import opened Messages
  import opened HandshakeCaches
  import opened HandshakeStates
  import opened ServerFlights
  import opened ClientFlights
  import opened Handshaking
  import opened FlightEffects
  import opened Negotiation
  import opened HonestWorlds
  import opened HonestScripts
  import opened HonestAnswers
  import opened HonestKeying
  import opened HonestClientReads
  import opened HonestServerReads
  import opened HonestServerKeys
  import opened HonestHandshakes
  import opened HonestPeers

  /** The client's first suite and profile that the server wants, and the name the client has given. */
  ghost predicate Choices(u: Setup, s: State) {
    s.cipherSuite.Some? && FirstShared(u.client.cipherSuites, u.server.cipherSuites, s.cipherSuite.value.id)
    && (if u.client.srtpProfiles == [] then s.srtpProfile == UNSUPPORTED_SRTP_PROFILE
        else FirstShared(u.client.srtpProfiles, u.server.srtpProfiles, s.srtpProfile))
    && s.serverName == u.client.serverName
  }

  /** No name or profile other than the client's has been taken. */
  ghost predicate Unsettled(u: Setup, s: State) {
    (u.client.srtpProfiles == [] ==> s.srtpProfile == UNSUPPORTED_SRTP_PROFILE)
    && (u.client.serverName == [] ==> s.serverName == [])
  }

  ghost predicate Chooses(u: Setup, m: Machine) {
    !m.phase.Errored? ==> Unsettled(u, m.state) && (m.flight.Flight0? || Choices(u, m.state))
  }

  // The hello

  lemma {:induction false} NameOfBoth(a: seq<Extension>, b: seq<Extension>, before: Bytes)
    ensures LastName(a + b, before) == LastName(b, LastName(a, before))
    decreases |a|
  {
    if a == [] {
      assert a + b == b;
    } else {
      assert (a + b)[1..] == a[1..] + b;
      NameOfBoth(a[1..], b, if a[0].ServerName? then a[0].name else before);
    }
  }

  /** The parts of the client's hello, one after the other. */
  lemma Parts(a: seq<Extension>, b: seq<Extension>, before: Bytes)
    ensures LastProfiles(a + b) == if LastProfiles(b).Some? then LastProfiles(b) else LastProfiles(a)
    ensures LastName(a + b, before) == LastName(b, LastName(a, before))
  {
    LastOfBoth(a, b);
    NameOfBoth(a, b, before);
  }

  lemma HelloOffers(cfg: Config, before: Bytes)
    ensures LastProfiles(ClientHelloExtensions(cfg)) == if cfg.srtpProfiles != [] then Some(cfg.srtpProfiles) else None
    ensures LastName(ClientHelloExtensions(cfg), before) == if cfg.serverName != [] then cfg.serverName else before
  {
    hide LastProfiles, LastName;
    var algorithms, renegotiation := [SupportedSignatureAlgorithms(cfg.signatureSchemes)], [RenegotiationInfo(0)];
    var curves, formats := [SupportedEllipticCurves([0x17, 0x1d, 0x18])], [SupportedPointFormats([0])];
    JustOne(algorithms[0]);
    JustOne(renegotiation[0]);
    JustOne(curves[0]);
    JustOne(formats[0]);
    JustOne(UseSrtp(cfg.srtpProfiles));
    JustOne(UseExtendedMasterSecret(true));
    JustOne(ServerName(cfg.serverName));
    NothingLast(before);
    Parts(algorithms, renegotiation, before);
    Parts(curves, formats, before);
    assert algorithms + renegotiation == [algorithms[0], renegotiation[0]] && curves + formats == [curves[0], formats[0]];
    var first := algorithms + renegotiation;
    var second := if cfg.psk.None? then curves + formats else [];
    var third := if cfg.srtpProfiles != [] then [UseSrtp(cfg.srtpProfiles)] else [];
    var fourth := if cfg.extendedMasterSecret.Offers() then [UseExtendedMasterSecret(true)] else [];
    Parts(first, second, before);
    Parts(first + second, third, before);
    Parts(first + second + third, fourth, before);
    Parts(first + second + third + fourth, if cfg.serverName != [] then [ServerName(cfg.serverName)] else [], before);
  }

  lemma NothingLast(before: Bytes)
    ensures LastProfiles([]) == None && LastName([], before) == before
  {
  }

  lemma HelloIsDecoded(cfg: Config)
    ensures forall e :: e in ClientHelloExtensions(cfg) ==> Decoded(e)
  {
  }

  /** A server that takes the client's hello has chosen from it. */
  lemma ChoicesMade(u: Setup, random: HandshakeRandom, s: State, t: State, key: nat)
    requires SetupOk(u) && Unsettled(u, s)
    requires Chosen(u.server, u.crypto, Messages.Transmitted(HelloOf(random, [], u.client)).clientHello, s, t, key)
    ensures Choices(u, t) && Unsettled(u, t)
  {
    hide SoundSuites, SoundExchange, SharedKey, ClientHelloExtensions, FirstShared, CurveSettled, Acceptable, LastName,
         LastProfiles;
    HelloFields(random, u.client);
    HelloOffers(u.client, s.serverName);
    var id :| FirstShared(u.client.cipherSuites, u.server.cipherSuites, id)
      && t.cipherSuite == if SuiteForId(id).Ok? then Some(NewSuite(id)) else s.cipherSuite;
    SharedKnown(u, id);
  }

  lemma SharedKnown(u: Setup, id: U16)
    requires SetupOk(u) && FirstShared(u.client.cipherSuites, u.server.cipherSuites, id)
    ensures SuiteForId(id) == Ok(NewSuite(id)) && NewSuite(id).id == id
  {
    KnownSuite(u, id);
  }

  // Every run

  lemma SameChoices(u: Setup, s: State, t: State)
    requires t.srtpProfile == s.srtpProfile && t.serverName == s.serverName && t.cipherSuite.Some? == s.cipherSuite.Some?
    requires t.cipherSuite.Some? ==> t.cipherSuite.value.id == s.cipherSuite.value.id
    ensures Choices(u, s) <==> Choices(u, t)
    ensures Unsettled(u, s) <==> Unsettled(u, t)
  {
    hide FirstShared;
  }

  lemma HelloChoices(u: Setup, h: Honest, key: nat)
    requires SetupOk(u) && AllOk(u, h) && Unsettled(u, h.server.state)
    ensures var (t, p) := Flight0Parsed(h.server.state, u.server, u.crypto, h.net.server.Cache(), key);
            p == Next(Flight2) ==> Choices(u, t) && Unsettled(u, t)
  {
    hide SetupOk, AllOk, FullPulled, HelloParsed, Choices, Unsettled, Messages.Transmitted, HelloOf, Chosen, Decoded,
         ClientHelloExtensions;
    var s, cache := h.server.state, h.net.server.Cache();
    var pulled := FullPulled(cache, 0, [CLIENT_HELLO_RULE]);
    if pulled.Ok? {
      FirstPulled(u, h);
      var read := s.(recvSequence := pulled.value.0);
      HelloFields(h.client.state.localRandom, u.client);
      HelloIsDecoded(u.client);
      HelloChosen(read, u.server, u.crypto, pulled.value.1[ClientHello].clientHello, key);
      SameUnsettled(u, s, read);
      var t := HelloParsed(read, u.server, u.crypto, pulled.value.1[ClientHello].clientHello, key).0;
      if HelloParsed(read, u.server, u.crypto, pulled.value.1[ClientHello].clientHello, key).1 == Next(Flight2) {
        ChoicesMade(u, h.client.state.localRandom, read, t, key);
      }
    }
  }

  lemma SameUnsettled(u: Setup, s: State, t: State)
    requires t == s.(recvSequence := t.recvSequence)
    ensures Unsettled(u, s) <==> Unsettled(u, t)
  {
  }

  lemma HelloReadChoices(u: Setup, h: Honest, key: nat)
    requires SetupOk(u) && AllOk(u, h) && Chooses(u, h.server) && h.server.phase == Waiting
    requires h.server.flight.Flight0? || h.server.flight.Flight2?
    ensures Chooses(u, ParsedBy(u, h, false, key).server)
  {
    hide SetupOk, AllOk, Flight0Parsed, FullPulled, Choices, Unsettled, Negotiated, OldOrNew, Flight4Keyed, CookieChecked,
         Flight4Finished;
    var s, cache := h.server.state, h.net.server.Cache();
    ServerParsed(u, h, key);
    ServerParses(s, u.server, u.crypto, cache, key);
    HelloChoices(u, h, key);
    var t := FlightParsed(h.server.flight, s, u.server, u.crypto, cache, key).0;
    if t == s.(recvSequence := t.recvSequence) {
      SameChoices(u, s, t);
    }
  }

  lemma KeyReadChoices(u: Setup, h: Honest, key: nat)
    requires SetupOk(u) && AllOk(u, h) && Chooses(u, h.server) && h.server.phase == Waiting && h.server.flight.Flight4?
    ensures Chooses(u, ParsedBy(u, h, false, key).server)
  {
    hide SetupOk, AllOk, FullPulled, Choices, Unsettled, Flight4Keyed, HonestWorlds.Taken, FromCrypto, ServerKeys,
         Reading.Ready, FlightParsed, ClientAuthChecked;
    var s, cache := h.server.state, h.net.server.Cache();
    ServerKeyStep(u, h);
    NameKept(s, u.server, u.crypto, cache);
    var t := Flight4Keyed(s, u.server, u.crypto, cache).0;
    SameChoices(u, s, t);
    forall read: int
      ensures Choices(u, t) <==> Choices(u, t.(recvSequence := read))
      ensures Unsettled(u, t) <==> Unsettled(u, t.(recvSequence := read))
    {
      SameChoices(u, t, t.(recvSequence := read));
    }
  }

  lemma NameKept(s: State, cfg: Config, crypto: Crypto, cache: seq<Item>)
    ensures Flight4Keyed(s, cfg, crypto, cache).0.serverName == s.serverName
  {
    hide FullPulled, CertificatesChecked, ServerKeyed;
    var pulled := FullPulled(cache, s.recvSequence, CLIENT_KEY_RULES);
    if pulled.Ok? && ClientKeyExchange in pulled.value.1 && pulled.value.1[ClientKeyExchange].ClientKeyExchangeMessage? {
      var msgs := pulled.value.1;
      CertificatesKeep(s, cfg, crypto, cache, msgs);
      ServerKeyedKeeps(CertificatesChecked(s, cfg, crypto, cache, msgs).0, cfg, crypto, cache, msgs[ClientKeyExchange]);
    }
  }

  /** Preparing adds numbers to what the flight makes of the state. */
  lemma PreparedFrom(m: Machine, cfg: Config, crypto: Crypto, cache: seq<Item>, draws: Draws)
    ensures var next, t := Prepared(m, cfg, crypto, cache, draws), FlightGenerated(m.flight, m.state, cfg, crypto, cache, draws).0;
            next.flight == m.flight
            && next.state == t.(sendSequence := next.state.sendSequence, localEpoch := next.state.localEpoch)
  {
    hide FlightGenerated, HandshakeStates.Writable, NumberedPackets, TopEpoch, MessageCount;
  }

  lemma ChoicesStand(u: Setup, flight: Flight, s: State, cache: seq<Item>, draws: Draws)
    requires flight.Flight0? || flight.Flight2? || flight.Flight4? || flight.Flight6?
    ensures var t := FlightGenerated(flight, s, u.server, u.crypto, cache, draws).0;
            t.srtpProfile == s.srtpProfile && t.serverName == s.serverName && t.cipherSuite == s.cipherSuite
  {
    hide Flight4Generated, Merged, FlightGenerated;
    Flight4State(s, u.server, u.crypto);
    ServerGenerates(s, u.server, u.crypto, cache, draws);
  }

  lemma PreparedChoices(u: Setup, m: Machine, cache: seq<Item>, draws: Draws)
    requires Chooses(u, m) && m.phase == Preparing
    requires m.flight.Flight0? || m.flight.Flight2? || m.flight.Flight4? || m.flight.Flight6?
    ensures Chooses(u, Prepared(m, u.server, u.crypto, cache, draws))
  {
    hide Choices, Unsettled, Prepared, FlightGenerated;
    PreparedFrom(m, u.server, u.crypto, cache, draws);
    ChoicesStand(u, m.flight, m.state, cache, draws);
    SameChoices(u, m.state, Prepared(m, u.server, u.crypto, cache, draws).state);
  }

  lemma ActChoices(u: Setup, h: Honest, act: Act)
    requires SetupOk(u) && AllOk(u, h) && Chooses(u, h.server) && Enabled(u, h, act)
    ensures Chooses(u, Acted(u, h, act).server)
  {
    hide SetupOk, AllOk, Choices, Unsettled, Emitted, HonestWorlds.Taken, Prepared, FlightParsed, Flight4Keyed, Flight4Finished;
    ScriptSides(u, h);
    if !act.byClient {
      match act
      case Prepare(_, draws) => PreparedChoices(u, h.server, h.net.server.Cache(), draws);
      case Parse(_, key) =>
        if h.server.flight.Flight4? {
          KeyReadChoices(u, h, key);
        } else {
          HelloReadChoices(u, h, key);
        }
      case _ =>
    }
  }

  lemma {:induction false} RunChoices(u: Setup, h: Honest, acts: seq<Act>, end: Honest)
    requires SetupOk(u) && AllOk(u, h) && Chooses(u, h.server) && HonestWorlds.Reaches(u, h, acts, end)
    ensures Chooses(u, end.server)
    decreases |acts|
  {
    hide SetupOk, AllOk, Acted, Enabled, Chooses;
    if acts != [] {
      ActKeeps(u, h, acts[0]);
      ActChoices(u, h, acts[0]);
      RunChoices(u, Acted(u, h, acts[0]), acts[1..], end);
    }
  }

  /** A server past the hello uses the client's first suite and profile that it wants itself, and has the
      name the client asked for. */
  lemma ClientKnown(u: Setup, acts: seq<Act>, h: Honest)
    requires SetupOk(u) && HonestWorlds.Reaches(u, Begin(), acts, h)
    requires !h.server.flight.Flight0? && !h.server.phase.Errored?
    ensures Choices(u, h.server.state)
  {
    hide SetupOk, AllOk, HonestWorlds.Reaches, Choices;
    BeginOk(u);
    RunChoices(u, Begin(), acts, h);
  }
}
