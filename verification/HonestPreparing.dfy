/** Preparing a flight keeps an honest handshake honest. */
module HonestPreparing {
  import opened Wrappers
  import opened Bytes
  import opened Headers
  import opened Messages
  import opened Handshakes
  import opened HandshakeCaches
  import opened Reading
  import opened Reassembly
  import opened WireRecords
  import opened Emission
  import opened Network
  import opened TableTexts
  import opened Fragmenting
  import opened HandshakeStates
  import opened ClientFlights
  import opened Handshaking
  import opened Planning
  import opened FlightEffects
  import opened HonestWorlds
  import opened HonestSends
  import opened HonestScripts

  /** The machine and the plan after a flight has been prepared. */
  lemma PreparedPlan(m: Machine, plan: seq<SentMessage>, cfg: Config, crypto: Crypto, cache: seq<Item>, draws: Draws)
    requires Table(plan) && m.state.sendSequence == |plan|
    requires |plan| + |Packets(Prepared(m, cfg, crypto, cache, draws))| < 0xFFFF
    requires m.flight.Flight2? ==> VerifyOnly(plan, m.state.cookie)
    ensures var next := Prepared(m, cfg, crypto, cache, draws);
            var (s, g) := FlightGenerated(m.flight, m.state, cfg, crypto, cache, draws);
            next.flight == m.flight
            && if g.Drafts? && HandshakeStates.Writable(g.drafts) then
                 next.phase == Phase.Sending
                 && next.state == s.(sendSequence := next.state.sendSequence, localEpoch := next.state.localEpoch)
                 && Planned(plan, Packets(next)) == plan + Additions(m.flight, plan, g.drafts)
                 && Table(Planned(plan, Packets(next)))
               else
                 next.phase.Errored? && next.state == s && Planned(plan, Packets(next)) == plan
  {
    hide FlightGenerated, GeneratedOk, HandshakeStates.Writable, NumberedPackets, TopEpoch, Planned, AllInTurn, Table, Additions,
         VerifyOnly, MessageCount, Emission.InTurn, Extended;
    var (s, g) := FlightGenerated(m.flight, m.state, cfg, crypto, cache, draws);
    FlightPrepared(m.flight, m.state, cfg, crypto, cache, draws);
    GeneratedFacts(m.flight, m.state, s, g, draws);
    NothingPlanned(plan);
    if g.Drafts? && HandshakeStates.Writable(g.drafts) {
      CountBelow(g.drafts);
      CookieDraft(m.flight, m.state, cfg, crypto, cache, draws);
      LoadedParty(m, plan, g.drafts, s.sendSequence, m.state.cookie);
    }
  }

  lemma SentOfOne(d: Draft, next: nat)
    requires d.MessageDraft? && WellFormed(d.message)
    ensures HandshakeStates.Writable([d])
    ensures SentOf([d], next) == [SentMessage(Numbered(d.message, WrappedU16(next)), d.epoch)]
  {
  }

  // Flights 1 and 3

  lemma HelloAppended(cfg: Config, plan: seq<SentMessage>, random: HandshakeRandom, message: Message)
    requires WellFormed(message) && message.Type() == ClientHello && |plan| < 0xFFFF && Hellos(plan, |plan|)
    requires if plan == [] then message == HelloOf(random, [], cfg) else FirstHello(cfg, random, plan)
    ensures var more := plan + [SentMessage(Numbered(message, WrappedU16(|plan|)), 0)];
            Hellos(more, |more|) && FirstHello(cfg, random, more)
  {
    hide WellFormed, HelloOf, Numbered;
    NumberedAt(message, WrappedU16(|plan|));
  }

  lemma HelloPlan(cfg: Config, crypto: Crypto, m: Machine, plan: seq<SentMessage>, cache: seq<Item>, draws: Draws)
    requires Table(plan) && m.state.sendSequence == |plan| && m.phase == Preparing && draws.Valid()
    requires |plan| + |Packets(Prepared(m, cfg, crypto, cache, draws))| < 0xFFFF
    requires (m.flight.Flight1? || m.flight.Flight3?) && ClientScript(cfg, m, plan, None)
    ensures var next := Prepared(m, cfg, crypto, cache, draws);
            ClientScript(cfg, next, Planned(plan, Packets(next)), None)
            && (plan != [] ==> next.state.localRandom == m.state.localRandom)
            && plan <= Planned(plan, Packets(next))
            && next.state.cipherSuite == m.state.cipherSuite && next.state.extendedMasterSecret == m.state.extendedMasterSecret
            && (next.phase.Errored? || Table(Planned(plan, Packets(next))))
  {
    hide Planned, Prepared, WellFormed, HelloOf, Table, Numbered, Hellos, FirstHello, HandshakeRandom.Valid, SentOf, Flight5Generated,
         RandomBytes;
    PreparedPlan(m, plan, cfg, crypto, cache, draws);
    var next := Prepared(m, cfg, crypto, cache, draws);
    var (s, g) := FlightGenerated(m.flight, m.state, cfg, crypto, cache, draws);
    HelloIs(s.localRandom, s.cookie, cfg);
    if HandshakeStates.Writable(g.drafts) {
      assert g.drafts[0] in g.drafts;
      SentOfOne(g.drafts[0], |plan|);
      HelloAppended(cfg, plan, s.localRandom, g.drafts[0].message);
    }
  }

  lemma HelloIs(random: HandshakeRandom, cookie: Bytes, cfg: Config)
    ensures HelloOf(random, cookie, cfg).Type() == ClientHello
  {
  }

  lemma OutTable(u: Setup, m: Machine, plan: seq<SentMessage>, a: Side, b: Side, net: set<Bytes>, mtu: Mtu)
    requires SetupOk(u) && (mtu == u.clientMtu || mtu == u.serverMtu) && Out(u, m, plan, a, b, net, mtu)
    ensures Table(plan) && a.sent <= plan
    ensures !m.phase.Errored? ==> m.state.sendSequence == |plan|
    ensures !m.phase.Errored? && m.phase != Phase.Sending ==> a.sent == plan
    ensures HalfOk(a, b, net, Link(mtu, SealerOf(m))) && SuiteOk(u, m) && PlanProtected(m, plan)
  {
    hide HalfOk, SuiteOk, PacketsOk, SetupOk, AllInTurn, Planned, Protected, Table, SealerOf, PlanProtected;
  }

  lemma SameSuite(u: Setup, m: Machine, next: Machine)
    requires next.state.cipherSuite == m.state.cipherSuite
    ensures SuiteOk(u, m) <==> SuiteOk(u, next)
    ensures SealerOf(m) == SealerOf(next)
  {
  }

  lemma HelloOut(u: Setup, h: Honest, draws: Draws)
    requires SetupOk(u) && AllOk(u, h) && Enabled(u, h, Prepare(true, draws))
    requires h.client.flight.Flight1? || h.client.flight.Flight3?
    ensures Base(u, PreparedBy(u, h, true, draws))
    ensures ClientScript(u.client, h.client, h.clientPlan, None) && h.keyed.None?
    ensures var next := PreparedBy(u, h, true, draws);
            ClientScript(u.client, next.client, next.clientPlan, None) && next.keyed.None?
            && (h.clientPlan != [] ==> next.client.state.localRandom == h.client.state.localRandom)
            && h.clientPlan <= next.clientPlan
            && next.client.flight == h.client.flight
            && next == h.(client := next.client, clientPlan := next.clientPlan)
  {
    hide Out, SetupOk, Prepared, Planned, Hellos, FirstHello, ServerScript, ServerHeard, ClientAnswered, KeyedOk, ServerKeys,
         ServerDone, PlanProtected, SuiteOk, Ready, SealerOf, HalfOk, Table, KeyedShape, FlightGenerated, WellFormed, Numbered, KeyedOf,
         MayArrive;
    var cache := h.net.client.Cache();
    OutTable(u, h.client, h.clientPlan, h.net.client, h.net.server, h.net.fromClient, u.clientMtu);
    HelloPlan(u.client, u.crypto, h.client, h.clientPlan, cache, draws);
    var next := Prepared(h.client, u.client, u.crypto, cache, draws);
    SameSuite(u, h.client, next);
    PrepareOut(u, h.client, h.clientPlan, h.net.client, h.net.server, h.net.fromClient, u.clientMtu, u.client, draws);
    OutTable(u, next, Planned(h.clientPlan, Packets(next)), h.net.client, h.net.server, h.net.fromClient, u.clientMtu);
  }

  /** Before flight 5 is prepared the server has no keys, whatever the client does. */
  lemma NotKeyed(u: Setup, c: State, d: State, m: Machine, plan: seq<SentMessage>, more: seq<SentMessage>, serverPlan: seq<SentMessage>,
                 offer: Option<seq<Draft>>, popped: nat)
    requires ServerKeys(u, c, m.state, None)
    requires ServerDone(u, c, m, plan, serverPlan, offer, popped) && ServerScript(u.server, u.crypto, m, serverPlan, offer)
    ensures !Ready(m.state.cipherSuite) && !m.flight.Flight6?
    ensures offer.Some? ==> |serverPlan| == 1 + |offer.value|
    ensures ServerKeys(u, d, m.state, None) && ServerDone(u, d, m, more, serverPlan, offer, popped)
  {
    hide WellFormed, Numbered, Text, RandomBytes, Answered;
  }

  lemma StillHeard(u: Setup, m: Machine, random: HandshakeRandom, plan: seq<SentMessage>, other: HandshakeRandom, more: seq<SentMessage>)
    requires ServerHeard(u, m, random, plan) && plan <= more && (plan != [] ==> other == random)
    ensures ServerHeard(u, m, other, more)
  {
  }

  /** Preparing a hello. */
  lemma HelloKeeps(u: Setup, h: Honest, draws: Draws)
    requires SetupOk(u) && AllOk(u, h) && Enabled(u, h, Prepare(true, draws))
    requires h.client.flight.Flight1? || h.client.flight.Flight3?
    ensures AllOk(u, PreparedBy(u, h, true, draws))
  {
    hide Numbered, WellFormed, Base, SetupOk, PreparedBy, ClientScript, ServerScript, ServerHeard, ServerKeys, ServerDone, KeyedOk,
         Ready, AnswerOk, Prepared, MayArrive;
    HelloOut(u, h, draws);
    var next := PreparedBy(u, h, true, draws);
    NotKeyed(u, h.client.state, next.client.state, h.server, h.clientPlan, next.clientPlan, h.serverPlan, h.offer, h.net.server.Popped());
    StillHeard(u, h.server, h.client.state.localRandom, h.clientPlan, next.client.state.localRandom, next.clientPlan);
  }
}
