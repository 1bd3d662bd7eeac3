/** Preparing a flight of the server keeps an honest handshake honest. */
module HonestAnswers {
  import opened Wrappers
  import opened Bytes
  import opened Headers
  import opened Messages
  import opened Handshakes
  import opened HandshakeCaches
  import opened Reading
  import opened Reassembly
  import opened Network
  import opened TableTexts
  import opened HandshakeStates
  import opened ServerFlights
  import opened ClientFlights
  import opened Handshaking
  import opened Planning
  import opened HonestWorlds
  import opened HonestSends
  import opened HonestScripts
  import opened HonestTexts
  import opened HonestPreparing

  // Flight 4

  /** What flight 4 says depends on these parts of the state only. */
  predicate SameOffer(s: State, t: State) {
    t.localRandom == s.localRandom && t.remoteRandom == s.remoteRandom
    && (t.cipherSuite.Some? <==> s.cipherSuite.Some?)
    && (t.cipherSuite.Some? ==> t.cipherSuite.value.id == s.cipherSuite.value.id)
    && t.extendedMasterSecret == s.extendedMasterSecret && t.srtpProfile == s.srtpProfile
    && t.localKeypair == s.localKeypair && t.namedCurve == s.namedCurve
  }

  lemma OfferKept(s: State, t: State, cfg: Config, crypto: Crypto, drafts: seq<Draft>)
    requires SameOffer(s, t) && Flight4Generated(s, cfg, crypto) == (s, Drafts(drafts))
    ensures Flight4Generated(t, cfg, crypto) == (t, Drafts(drafts))
  {
  }

  lemma OfferShape(s: State, cfg: Config, crypto: Crypto, drafts: seq<Draft>)
    requires Flight4Generated(s, cfg, crypto).1 == Drafts(drafts)
    ensures AllMessages(drafts) && |drafts| >= 2 && drafts[0].message == ServerHelloOf(s, cfg)
    ensures drafts[|drafts| - 1].message == ServerHelloDoneMessage
    ensures forall i :: 0 < i < |drafts| - 1 ==>
              drafts[i].message.CertificateMessage? || drafts[i].message.ServerKeyExchangeMessage? || drafts[i].message.CertificateRequestMessage?
  {
  }

  lemma {:induction false} SentOfMessages(drafts: seq<Draft>, next: nat)
    requires HandshakeStates.Writable(drafts) && AllMessages(drafts)
    ensures |SentOf(drafts, next)| == |drafts|
    ensures forall i :: 0 <= i < |drafts| ==>
              WellFormed(drafts[i].message)
              && SentOf(drafts, next)[i] == SentMessage(Numbered(drafts[i].message, WrappedU16(next + i)), 0)
    decreases |drafts|
  {
    hide WellFormed, Numbered, WrappedU16;
    if drafts != [] {
      assert drafts[0] in drafts && forall d :: d in drafts[1..] ==> d in drafts;
      SentOfMessages(drafts[1..], next + 1);
      var rest := SentOf(drafts[1..], next + 1);
      forall i | 0 <= i < |drafts|
        ensures WellFormed(drafts[i].message)
                && SentOf(drafts, next)[i] == SentMessage(Numbered(drafts[i].message, WrappedU16(next + i)), 0)
      {
        if i > 0 {
          assert drafts[1..][i - 1] == drafts[i];
          assert rest[i - 1] == SentMessage(Numbered(drafts[1..][i - 1].message, WrappedU16(next + 1 + (i - 1))), 0);
        }
      }
    }
  }

  lemma VerifyPlan(plan: seq<SentMessage>, cookie: Bytes)
    requires VerifyOnly(plan, cookie) && plan != []
    ensures |plan| == 1 && plan[0].h.typ == HelloVerifyRequest && plan[0].epoch == 0
  {
  }

  /** Flights 0, 2 and 4 leave the server's script in order. */
  lemma AnswerPlan(cfg: Config, crypto: Crypto, m: Machine, plan: seq<SentMessage>, cache: seq<Item>, draws: Draws)
    requires Table(plan) && m.state.sendSequence == |plan| && m.phase == Preparing && draws.Valid()
    requires |plan| + |Packets(Prepared(m, cfg, crypto, cache, draws))| < 0xFFFF
    requires m.flight.Flight0? || m.flight.Flight2? || m.flight.Flight4?
    requires ServerScript(cfg, crypto, m, plan, None)
    ensures var next := Prepared(m, cfg, crypto, cache, draws);
            var (_, g) := FlightGenerated(m.flight, m.state, cfg, crypto, cache, draws);
            var offer := if m.flight.Flight4? && next.phase == Phase.Sending && g.Drafts? then Some(g.drafts) else None;
            ServerScript(cfg, crypto, next, Planned(plan, Packets(next)), offer)
            && plan <= Planned(plan, Packets(next)) && Table(Planned(plan, Packets(next)))
            && (offer.Some? ==> |Planned(plan, Packets(next))| == 1 + |offer.value|)
            && next.state.cipherSuite == m.state.cipherSuite && next.state.localVerifyData == m.state.localVerifyData
            && next.state.extendedMasterSecret == m.state.extendedMasterSecret && next.state.localKeypair == m.state.localKeypair
            && next.state.remoteRandom == m.state.remoteRandom && next.state.masterSecret == m.state.masterSecret
            && (!m.flight.Flight0? ==> next.state.namedCurve == m.state.namedCurve)
  {
    hide Planned, Prepared, WellFormed, Table, Numbered, Flight4Generated, Flight1Generated, Flight3Generated, Flight5Generated,
         Flight6Generated, HandshakeRandom.Valid, Size;
    PreparedPlan(m, plan, cfg, crypto, cache, draws);
    var next := Prepared(m, cfg, crypto, cache, draws);
    var (s, g) := FlightGenerated(m.flight, m.state, cfg, crypto, cache, draws);
    if g.Drafts? && HandshakeStates.Writable(g.drafts) {
      match m.flight
      case Flight0 =>
        assert Planned(plan, Packets(next)) == [];
      case Flight2 =>
        assert g.drafts[0] in g.drafts;
        SentOfOne(g.drafts[0], 0);
      case Flight4 =>
        VerifyPlan(plan, m.state.cookie);
        Flight4State(m.state, cfg, crypto);
        OfferShape(m.state, cfg, crypto, g.drafts);
        SentOfMessages(g.drafts, 1);
        OfferKept(m.state, next.state, cfg, crypto, g.drafts);
        assert Planned(plan, Packets(next))[1..1 + |g.drafts|] == SentOf(g.drafts, 1);
    } else {
      Flight4State(m.state, cfg, crypto);
    }
  }

  lemma Flight4State(s: State, cfg: Config, crypto: Crypto)
    ensures Flight4Generated(s, cfg, crypto).0 == s
  {
  }

  lemma AnswerOut(u: Setup, h: Honest, draws: Draws)
    requires SetupOk(u) && AllOk(u, h) && Enabled(u, h, Prepare(false, draws))
    requires h.server.flight.Flight0? || h.server.flight.Flight2? || h.server.flight.Flight4?
    ensures h.offer.None? && h.keyed.None?
    ensures var next := PreparedBy(u, h, false, draws);
            Base(u, next) && ServerScript(u.server, u.crypto, next.server, next.serverPlan, next.offer)
            && next == h.(server := next.server, serverPlan := next.serverPlan, offer := next.offer)
            && next.server.flight == h.server.flight
            && (next.offer.Some? ==> |next.serverPlan| == 1 + |next.offer.Or([])|)
            && next.server.state.cipherSuite == h.server.state.cipherSuite
            && next.server.state.localVerifyData == h.server.state.localVerifyData
            && next.server.state.extendedMasterSecret == h.server.state.extendedMasterSecret
            && next.server.state.localKeypair == h.server.state.localKeypair
            && next.server.state.remoteRandom == h.server.state.remoteRandom
            && next.server.state.masterSecret == h.server.state.masterSecret
            && (!h.server.flight.Flight0? ==> next.server.state.namedCurve == h.server.state.namedCurve)
  {
    hide Out, SetupOk, Prepared, Planned, ClientScript, ServerHeard, ClientAnswered, KeyedOk, ServerKeys, FlightGenerated, ServerDone,
         PlanProtected, SuiteOk, Ready, SealerOf, HalfOk, Table, Answered, Flight4Generated, WellFormed, Numbered, KeyedOf, MayArrive;
    var cache := h.net.server.Cache();
    OutTable(u, h.server, h.serverPlan, h.net.server, h.net.client, h.net.fromServer, u.serverMtu);
    AnswerPlan(u.server, u.crypto, h.server, h.serverPlan, cache, draws);
    var next := Prepared(h.server, u.server, u.crypto, cache, draws);
    SameSuite(u, h.server, next);
    PrepareOut(u, h.server, h.serverPlan, h.net.server, h.net.client, h.net.fromServer, u.serverMtu, u.server, draws);
    OutTable(u, next, Planned(h.serverPlan, Packets(next)), h.net.server, h.net.client, h.net.fromServer, u.serverMtu);
  }

  lemma EarlyServer(u: Setup, c: State, m: Machine, next: Machine, clientPlan: seq<SentMessage>, plan: seq<SentMessage>,
                    offer: Option<seq<Draft>>, popped: nat)
    requires ServerKeys(u, c, m.state, None)
    requires next.flight == m.flight && (m.flight.Flight0? || m.flight.Flight2? || m.flight.Flight4?)
    requires next.state.cipherSuite == m.state.cipherSuite
    requires offer.Some? ==> |plan| == 1 + |offer.value|
    ensures ServerKeys(u, c, next.state, None) && ServerDone(u, c, next, clientPlan, plan, offer, popped)
  {
  }

  lemma SameNegotiation(u: Setup, m: Machine, next: Machine, random: HandshakeRandom, plan: seq<SentMessage>)
    requires ServerHeard(u, m, random, plan) && !m.phase.Errored? && next.flight == m.flight
    requires next.state.cipherSuite == m.state.cipherSuite && next.state.extendedMasterSecret == m.state.extendedMasterSecret
    requires next.state.localKeypair == m.state.localKeypair && next.state.remoteRandom == m.state.remoteRandom
    requires !m.flight.Flight0? ==> next.state.namedCurve == m.state.namedCurve
    ensures ServerHeard(u, next, random, plan)
  {
  }

  /** Preparing flights 0, 2 and 4. */
  lemma AnswerKeeps(u: Setup, h: Honest, draws: Draws)
    requires SetupOk(u) && AllOk(u, h) && Enabled(u, h, Prepare(false, draws))
    requires h.server.flight.Flight0? || h.server.flight.Flight2? || h.server.flight.Flight4?
    ensures AllOk(u, PreparedBy(u, h, false, draws))
  {
    hide Base, SetupOk, PreparedBy, ClientScript, ServerScript, ServerHeard, ServerKeys, ServerDone, KeyedOk, Ready, AnswerOk, Prepared;
    AnswerOut(u, h, draws);
    var next := PreparedBy(u, h, false, draws);
    EarlyServer(u, h.client.state, h.server, next.server, h.clientPlan, next.serverPlan, next.offer, h.net.server.Popped());
    SameNegotiation(u, h.server, next.server, h.client.state.localRandom, h.clientPlan);
  }

  // Flight 6

  lemma Flight6Sends(s: State, crypto: Crypto, cache: seq<Item>)
    requires s.cipherSuite.Some? && s.localVerifyData == []
    ensures var (t, g) := Flight6Generated(s, crypto, cache);
            t == s.(localVerifyData := t.localVerifyData)
            && (g.Drafts? ==>
                  g.drafts == [ChangeCipherSpecDraft, MessageDraft(1, FinishedMessage(t.localVerifyData))]
                  && crypto.verifyDataServer(s.masterSecret, Merged(cache, FINISHED_RULES)) == Ok(t.localVerifyData))
  {
    hide Merged;
  }

  lemma FinishPlan(cfg: Config, crypto: Crypto, m: Machine, plan: seq<SentMessage>, cache: seq<Item>, draws: Draws, offer: seq<Draft>)
    requires Table(plan) && m.state.sendSequence == |plan| && m.phase == Preparing && draws.Valid()
    requires |plan| + |Packets(Prepared(m, cfg, crypto, cache, draws))| < 0xFFFF
    requires m.flight.Flight6? && ServerScript(cfg, crypto, m, plan, Some(offer))
    requires m.state.cipherSuite.Some? && m.state.localVerifyData == []
    ensures |plan| == 1 + |offer|
    ensures var next := Prepared(m, cfg, crypto, cache, draws);
            ServerScript(cfg, crypto, next, Planned(plan, Packets(next)), Some(offer))
            && plan <= Planned(plan, Packets(next)) && Table(Planned(plan, Packets(next))) && next.flight == m.flight
            && next.state == m.state.(sendSequence := next.state.sendSequence, localEpoch := next.state.localEpoch,
                                      localVerifyData := next.state.localVerifyData)
            && next.phase != Preparing
            && (|Planned(plan, Packets(next))| == 2 + |offer| ==>
                  crypto.verifyDataServer(m.state.masterSecret, Merged(cache, FINISHED_RULES)) == Ok(next.state.localVerifyData))
  {
    hide Planned, Prepared, WellFormed, Table, Numbered, Merged, Answered, WrappedU16, SentOf, Flight0Generated,
         Flight1Generated, Flight2Generated, Flight3Generated, Flight4Generated, Flight5Generated, Flight6Generated;
    PreparedPlan(m, plan, cfg, crypto, cache, draws);
    Flight6Sends(m.state, crypto, cache);
    var next := Prepared(m, cfg, crypto, cache, draws);
    var (s, g) := FlightGenerated(m.flight, m.state, cfg, crypto, cache, draws);
    OfferKept(m.state, next.state, cfg, crypto, offer);
    if g.Drafts? && HandshakeStates.Writable(g.drafts) {
      FinishedSent(g.drafts, s.localVerifyData, |plan|);
      AnsweredGrows(plan, Planned(plan, Packets(next)), offer);
    }
  }

  lemma FinishedSent(drafts: seq<Draft>, data: Bytes, next: nat)
    requires HandshakeStates.Writable(drafts) && drafts == [ChangeCipherSpecDraft, MessageDraft(1, FinishedMessage(data))]
    ensures WellFormed(FinishedMessage(data)) && SentOf(drafts, next) == [FinishedAt(data, next)]
  {
    hide WellFormed, Numbered;
    assert drafts[1] in drafts;
    assert drafts[1..] == [drafts[1]];
    SentOfOne(drafts[1], next);
  }

  lemma AnsweredGrows(plan: seq<SentMessage>, more: seq<SentMessage>, drafts: seq<Draft>)
    requires Answered(plan, drafts) && plan <= more
    ensures Answered(more, drafts)
  {
    hide Writable, SentOf, AllMessages;
  }

  lemma FinishOut(u: Setup, h: Honest, draws: Draws)
    requires SetupOk(u) && AllOk(u, h) && Enabled(u, h, Prepare(false, draws)) && h.server.flight.Flight6?
    ensures h.offer.Some? && Ready(h.server.state.cipherSuite) && |h.serverPlan| == 1 + |h.offer.Or([])|
    ensures var next := PreparedBy(u, h, false, draws);
            Base(u, next) && ServerScript(u.server, u.crypto, next.server, next.serverPlan, h.offer)
            && next == h.(server := next.server, serverPlan := next.serverPlan)
            && next.server.flight == h.server.flight && h.serverPlan <= next.serverPlan
            && next.server.phase != Preparing
            && next.server.state == h.server.state.(sendSequence := next.server.state.sendSequence,
                                                    localEpoch := next.server.state.localEpoch,
                                                    localVerifyData := next.server.state.localVerifyData)
            && (|next.serverPlan| == 2 + |h.offer.Or([])| ==>
                  u.crypto.verifyDataServer(h.server.state.masterSecret, Merged(h.net.server.Cache(), FINISHED_RULES))
                  == Ok(next.server.state.localVerifyData))
  {
    hide Out, SetupOk, Prepared, Planned, ClientScript, ServerHeard, ClientAnswered, KeyedOk, ServerKeys, FlightGenerated,
         PlanProtected, SuiteOk, SealerOf, HalfOk, Table, Answered, Flight4Generated, Merged, Text, WellFormed, Numbered, KeyedOf,
         Draws.Valid;
    var cache := h.net.server.Cache();
    OutTable(u, h.server, h.serverPlan, h.net.server, h.net.client, h.net.fromServer, u.serverMtu);
    FinishPlan(u.server, u.crypto, h.server, h.serverPlan, cache, draws, h.offer.Or([]));
    var next := Prepared(h.server, u.server, u.crypto, cache, draws);
    SameSuite(u, h.server, next);
    PrepareOut(u, h.server, h.serverPlan, h.net.server, h.net.client, h.net.fromServer, u.serverMtu, u.server, draws);
    OutTable(u, next, Planned(h.serverPlan, Packets(next)), h.net.server, h.net.client, h.net.fromServer, u.serverMtu);
  }

  lemma FinishedText(u: Setup, h: Honest)
    requires SetupOk(u) && AllOk(u, h) && h.server.flight.Flight6? && h.server.phase == Preparing
    ensures Merged(h.net.server.Cache(), FINISHED_RULES) == Text(h.clientPlan, h.serverPlan, FINISHED_RULES)
    ensures h.server.state.masterSecret == h.client.state.masterSecret
  {
    hide Out, SetupOk, ClientScript, ServerScript, ServerHeard, ClientAnswered, KeyedOk, Merged, Text, Table, HalfOk, SuiteOk;
    OutTable(u, h.server, h.serverPlan, h.net.server, h.net.client, h.net.fromServer, u.serverMtu);
    ServerText(u, h, FINISHED_RULES);
    assert h.clientPlan[..|h.clientPlan|] == h.clientPlan;
  }

  lemma LongerPlan(u: Setup, h: Honest, more: seq<SentMessage>)
    requires h.serverPlan <= more
    requires h.keyed.Some? && h.offer.Some? && |h.serverPlan| > |h.offer.Or([])|
    requires KeyedOk(u, h.client.state, h.clientPlan, h.serverPlan, h.offer.Or([]), h.keyed.Or(UNKEYED))
    ensures KeyedOk(u, h.client.state, h.clientPlan, more, h.offer.Or([]), h.keyed.Or(UNKEYED))
  {
    hide Text, KeyedShape, RandomBytes, MasterSecret, NumberedText, Vouched, Signed, PskOk, KeyExchangeRules, ClientKeyExchangeOf;
    assert more[..1 + |h.offer.Or([])|] == h.serverPlan[..1 + |h.offer.Or([])|];
  }

  lemma FinishDone(u: Setup, c: State, m: Machine, next: Machine, clientPlan: seq<SentMessage>, plan: seq<SentMessage>,
                   more: seq<SentMessage>, offer: seq<Draft>, popped: nat)
    requires ServerDone(u, c, m, clientPlan, plan, Some(offer), popped) && m.flight.Flight6? && next.flight == m.flight
    requires |plan| == 1 + |offer| && plan <= more && next.phase != Preparing && next.state.cipherSuite == m.state.cipherSuite
    requires |more| == 2 + |offer| ==>
               u.crypto.verifyDataServer(c.masterSecret, Text(clientPlan, plan, FINISHED_RULES)) == Ok(next.state.localVerifyData)
    ensures ServerDone(u, c, next, clientPlan, more, Some(offer), popped)
  {
    hide Text;
    assert more[..1 + |offer|] == plan;
  }

  lemma SameServerKeys(u: Setup, c: State, s: State, t: State, keyed: Option<Keyed>)
    requires ServerKeys(u, c, s, keyed) && t.cipherSuite == s.cipherSuite && t.masterSecret == s.masterSecret
    ensures ServerKeys(u, c, t, keyed)
  {
  }

  /** Preparing flight 6. */
  lemma FinishKeeps(u: Setup, h: Honest, draws: Draws)
    requires SetupOk(u) && AllOk(u, h) && Enabled(u, h, Prepare(false, draws)) && h.server.flight.Flight6?
    ensures AllOk(u, PreparedBy(u, h, false, draws))
  {
    hide Base, SetupOk, PreparedBy, ClientScript, ServerScript, ServerHeard, KeyedOk, Ready, AnswerOk, ServerDone, ServerKeys,
         Prepared, Text, Merged;
    FinishOut(u, h, draws);
    FinishedText(u, h);
    var next := PreparedBy(u, h, false, draws);
    if h.keyed.Some? {
      LongerPlan(u, h, next.serverPlan);
    }
    NotErrored(u, h, Prepare(false, draws));
    SameNegotiation(u, h.server, next.server, h.client.state.localRandom, h.clientPlan);
    SameServerKeys(u, h.client.state, h.server.state, next.server.state, h.keyed);
    FinishDone(u, h.client.state, h.server, next.server, h.clientPlan, h.serverPlan, next.serverPlan, h.offer.Or([]), h.net.server.Popped());
  }

  lemma NotErrored(u: Setup, h: Honest, act: Act)
    requires Enabled(u, h, act) && act.Prepare?
    ensures MachineOf(h, act.byClient).phase == Preparing
  {
    hide Prepared;
  }
}
