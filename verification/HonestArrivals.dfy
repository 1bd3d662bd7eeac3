/** Sends, alerts, timers and arrivals keep an honest handshake honest. */
module HonestArrivals {
  import opened Wrappers
  import opened Bytes
  import opened Messages
  import opened CipherSuites
  import opened Sending
  import opened Reading
  import opened IncomingRecords
  import opened Reassembly
  import opened WireRecords
  import opened Delivery
  import opened Network
  import opened TableTexts
  import opened Fragmenting
  import opened HandshakeStates
  import opened Handshaking
  import opened HonestWorlds
  import opened HonestSends
  import opened HonestScripts
  import opened HonestTexts
  import opened HonestPreparing
  import opened HonestKeying

  lemma ScriptsMatch(u: Setup, h: Honest)
    requires SetupOk(u) && AllOk(u, h)
    ensures KeysMatch(u, h.client, h.server)
  {
    hide SetupOk, Base, ClientScript, ServerScript, ServerHeard, ServerKeys, ServerDone, ClientAnswered, KeysMatch, KeyedShape,
         MasterSecret, RandomBytes, ClientFlights.ClientKeyExchangeOf, PskOk, Text, NumberedText, SoundSuites;
    if h.keyed.Some? {
      ClientSuiteIs(u, h);
      KeysAgree(u, h.client, h.server, h.keyed);
    } else {
      NoServerKeys(u, h.client, h.server);
    }
  }

  lemma ClientSuiteIs(u: Setup, h: Honest)
    requires Scripts(u, h) && h.keyed.Some?
    ensures Ready(h.client.state.cipherSuite)
         && u.crypto.suite(h.client.state.cipherSuite.value.id, h.client.state.masterSecret, RandomBytes(h.client.state.localRandom),
                           RandomBytes(h.client.state.remoteRandom), true) == Ok(h.client.state.cipherSuite.value)
  {
    hide ClientScript, ServerScript, ServerHeard, ServerKeys, ServerDone, ClientAnswered, KeyedShape, MasterSecret, RandomBytes,
         ClientFlights.ClientKeyExchangeOf, PskOk, Text, NumberedText;
  }

  lemma NoServerKeys(u: Setup, c: Machine, s: Machine)
    requires ServerKeys(u, c.state, s.state, None)
    ensures KeysMatch(u, c, s)
  {
  }

  lemma OpensHeaders(u: Setup, m: Machine)
    requires SuiteOk(u, m)
    ensures Ready(m.state.cipherSuite) ==> OpensToSameHeader(m.state.cipherSuite.value)
  {
  }

  /** A side receives: the direction to it, and the one from it. */
  lemma ArriveAt(u: Setup, m: Machine, plan: seq<SentMessage>, a: Side, b: Side, net: set<Bytes>, mtu: Mtu,
                 own: Machine, ownPlan: seq<SentMessage>, ownNet: set<Bytes>, ownMtu: Mtu, event: Event)
    requires SetupOk(u) && (mtu == u.clientMtu || mtu == u.serverMtu) && (ownMtu == u.clientMtu || ownMtu == u.serverMtu)
    requires Out(u, m, plan, a, b, net, mtu) && Out(u, own, ownPlan, b, a, ownNet, ownMtu)
    requires event.suite == own.state.cipherSuite && ComesFrom(event, net)
    requires Ready(own.state.cipherSuite) && Ready(m.state.cipherSuite) ==>
               Opens(m.state.cipherSuite.value, own.state.cipherSuite.value, RecordLimit(mtu))
    ensures Link(mtu, SealerOf(m)).Valid()
    ensures var c := Received(b, u.passes, event, a.sent, Link(mtu, SealerOf(m)));
            Out(u, m, plan, a, c, net, mtu) && Out(u, own, ownPlan, c, a, ownNet, ownMtu)
            && c.IsClient() == b.IsClient() && c.sent == b.sent && b.Popped() <= c.Popped()
  {
    hide SetupOk, Out, Received, Fitting, OwnPartKept, SuiteOk, PlanProtected, Ready, Opens, SealerOf, Table, HalfOk, SoundSuites,
         SoundExchange, KeepsHeader, SharedKey, OpensToSameHeader, Frames, SuiteForId;
    SetupLinks(u);
    OutTable(u, m, plan, a, b, net, mtu);
    OutTable(u, own, ownPlan, b, a, ownNet, ownMtu);
    OpensHeaders(u, own);
    SuitesFit(u, m, plan, a.sent, mtu, event.suite);
    ReceiveOut(u, m, plan, a, b, net, mtu, event);
    var c := Received(b, u.passes, event, a.sent, Link(mtu, SealerOf(m)));
    ReceiverOut(u, own, ownPlan, b, c, a, ownNet, ownMtu);
    Network.SameSide(b, c);
  }

  /** Whatever a side receives, both directions stay in order. */
  lemma ArriveBase(u: Setup, h: Honest, byClient: bool, event: Event)
    requires SetupOk(u) && Base(u, h) && KeysMatch(u, h.client, h.server)
    requires event.suite == MachineOf(h, byClient).state.cipherSuite
    requires ComesFrom(event, if byClient then h.net.fromServer else h.net.fromClient)
    ensures Base(u, h.(net := HonestWorlds.Taken(u, h, byClient, event)))
    ensures h.net.client.Popped() <= HonestWorlds.Taken(u, h, byClient, event).client.Popped()
    ensures h.net.server.Popped() <= HonestWorlds.Taken(u, h, byClient, event).server.Popped()
    ensures HonestWorlds.Taken(u, h, byClient, event).client.sent == h.net.client.sent
    ensures HonestWorlds.Taken(u, h, byClient, event).server.sent == h.net.server.sent
  {
    hide SetupOk, Out, Received, Ready, Opens, SealerOf, SoundSuites, WellBehaved, SoundExchange, SharedKey, SuiteForId, Side.Popped;
    SetupLinks(u);
    if byClient {
      ArriveAt(u, h.server, h.serverPlan, h.net.server, h.net.client, h.net.fromServer, u.serverMtu,
               h.client, h.clientPlan, h.net.fromClient, u.clientMtu, event);
    } else {
      ArriveAt(u, h.client, h.clientPlan, h.net.client, h.net.server, h.net.fromClient, u.clientMtu,
               h.server, h.serverPlan, h.net.fromServer, u.serverMtu, event);
    }
  }

  /** Nothing that has been said or agreed on is affected by more having been popped. */
  lemma ScriptsGrow(u: Setup, h: Honest, net: World)
    requires Scripts(u, h) && h.net.client.Popped() <= net.client.Popped()
    requires h.net.server.Popped() <= net.server.Popped() <= |h.clientPlan|
    ensures Scripts(u, h.(net := net))
  {
    hide ClientScript, ServerScript, ServerHeard, ServerKeys, KeyedOk, AnswerOk, Text;
  }

  lemma ArriveKeeps(u: Setup, h: Honest, byClient: bool, event: Event)
    requires SetupOk(u) && AllOk(u, h)
    requires event.suite == MachineOf(h, byClient).state.cipherSuite
    requires ComesFrom(event, if byClient then h.net.fromServer else h.net.fromClient)
    ensures AllOk(u, h.(net := HonestWorlds.Taken(u, h, byClient, event)))
  {
    hide SetupOk, Base, Scripts, HonestWorlds.Taken, KeysMatch, Table, ItemsOf, SentBy, Side.Popped, Side.Cache;
    ScriptsMatch(u, h);
    ArriveBase(u, h, byClient, event);
    var net := HonestWorlds.Taken(u, h, byClient, event);
    CacheParts(u, h.(net := net));
    ScriptsGrow(u, h, net);
  }

  // Sends, alerts and timers

  /** A side sends what it holds: the direction from it, and the one to it. */
  lemma EmitAt(u: Setup, m: Machine, plan: seq<SentMessage>, a: Side, b: Side, net: set<Bytes>, mtu: Mtu,
               peer: Machine, peerPlan: seq<SentMessage>, peerNet: set<Bytes>, peerMtu: Mtu)
    requires SetupOk(u) && (mtu == u.clientMtu || mtu == u.serverMtu) && (peerMtu == u.clientMtu || peerMtu == u.serverMtu)
    requires Out(u, m, plan, a, b, net, mtu) && Out(u, peer, peerPlan, b, a, peerNet, peerMtu)
    requires m.phase == Phase.Sending
    ensures var (s, datagrams) := Network.Transmitted(a, m.state.cipherSuite, mtu, Packets(m));
            Out(u, AfterSend(m, datagrams), plan, s, b, Added(net, datagrams), mtu) && Out(u, peer, peerPlan, b, s, peerNet, peerMtu)
            && s.IsClient() == a.IsClient() && s.Popped() == a.Popped()
  {
    hide SetupOk, Out, Network.Transmitted, Added, AfterSend, Packets, SentBy, SoundSuites, SoundExchange, SharedKey, Opens,
         WellBehaved, SuiteForId, KnownSuites, RecordLimit;
    SetupLinks(u);
    SendOut(u, m, plan, a, b, net, mtu);
    var s := Network.Transmitted(a, m.state.cipherSuite, mtu, Packets(m)).0;
    SameReader(a, m.state.cipherSuite, mtu, Packets(m));
    OtherOut(u, peer, peerPlan, b, a, s, peerNet, peerMtu);
  }

  lemma EmitBase(u: Setup, h: Honest, byClient: bool)
    requires SetupOk(u) && Base(u, h) && Enabled(u, h, Send(byClient))
    ensures var next := Acted(u, h, Send(byClient));
            Base(u, next) && next.net.client.Popped() == h.net.client.Popped() && next.net.server.Popped() == h.net.server.Popped()
            && next == WithMachine(h.(net := next.net), byClient, MachineOf(next, byClient))
            && SentOn(MachineOf(h, byClient), MachineOf(next, byClient))
  {
    hide SetupOk, Out, Network.Transmitted, Added, Packets, ParsedBy, FlightGenerated, HonestWorlds.Taken, PreparedBy, Prepared,
         SoundSuites, SoundExchange, Frames;
    SetupLinks(u);
    if byClient {
      EmitAt(u, h.client, h.clientPlan, h.net.client, h.net.server, h.net.fromClient, u.clientMtu,
             h.server, h.serverPlan, h.net.fromServer, u.serverMtu);
    } else {
      EmitAt(u, h.server, h.serverPlan, h.net.server, h.net.client, h.net.fromServer, u.serverMtu,
             h.client, h.clientPlan, h.net.fromClient, u.clientMtu);
    }
  }

  /** Only the phase has changed, and not to preparing. */
  ghost predicate SentOn(m: Machine, next: Machine) {
    next == m.(phase := next.phase) && m.phase != Preparing && !m.phase.Errored? && next.phase != Preparing
    && (m.flight.Flight6? && next.phase == Waiting ==> m.phase == Waiting)
  }

  lemma SameReader(a: Side, suite: Option<CipherSuite>, mtu: Mtu, pkts: seq<Packet>)
    ensures var s := Network.Transmitted(a, suite, mtu, pkts).0;
            s.trace.reader == a.trace.reader.(cache := s.trace.reader.cache) && s.Popped() == a.Popped()
  {
  }

  /** A machine moves on without anything being said. */
  lemma ScriptsMoved(u: Setup, h: Honest, byClient: bool, next: Machine, net: World)
    requires Scripts(u, h) && net.client.Popped() == h.net.client.Popped() && net.server.Popped() == h.net.server.Popped()
    requires SentOn(MachineOf(h, byClient), next)
    ensures Scripts(u, WithMachine(h.(net := net), byClient, next))
  {
    hide FirstHello, Hellos, KeyedOk, AnswerOk, Text, Answered, ServerFlights.Flight4Generated, VerifyOnly, Negotiated,
         WellFormed, KeyedShape, FinishedAt, RandomBytes;
  }

  lemma SendStep(u: Setup, h: Honest, byClient: bool)
    requires SetupOk(u) && AllOk(u, h) && Enabled(u, h, Send(byClient))
    ensures AllOk(u, Acted(u, h, Send(byClient)))
  {
    hide SetupOk, Base, Scripts, Acted, Enabled, SentOn;
    EmitBase(u, h, byClient);
    var next := Acted(u, h, Send(byClient));
    ScriptsMoved(u, h, byClient, MachineOf(next, byClient), next.net);
  }

  lemma NotifyAt(u: Setup, m: Machine, plan: seq<SentMessage>, a: Side, b: Side, net: set<Bytes>, mtu: Mtu,
                 peer: Machine, peerPlan: seq<SentMessage>, peerNet: set<Bytes>, peerMtu: Mtu, alert: Packet)
    requires SetupOk(u) && (mtu == u.clientMtu || mtu == u.serverMtu) && (peerMtu == u.clientMtu || peerMtu == u.serverMtu)
    requires Out(u, m, plan, a, b, net, mtu) && Out(u, peer, peerPlan, b, a, peerNet, peerMtu) && IsAlert(alert)
    ensures var (s, datagrams) := Network.Transmitted(a, m.state.cipherSuite, mtu, [alert]);
            Out(u, m, plan, s, b, Added(net, datagrams), mtu) && Out(u, peer, peerPlan, b, s, peerNet, peerMtu)
            && s.IsClient() == a.IsClient() && s.Popped() == a.Popped()
  {
    hide SetupOk, Out, Network.Transmitted, Added, SentBy, SuiteForId;
    SetupLinks(u);
    NotifyOut(u, m, plan, a, b, net, mtu, alert);
    var s := Network.Transmitted(a, m.state.cipherSuite, mtu, [alert]).0;
    SameReader(a, m.state.cipherSuite, mtu, [alert]);
    OtherOut(u, peer, peerPlan, b, a, s, peerNet, peerMtu);
  }

  lemma NotifyStep(u: Setup, h: Honest, byClient: bool, alert: Packet)
    requires SetupOk(u) && AllOk(u, h) && IsAlert(alert)
    ensures AllOk(u, h.(net := Emitted(u, h, byClient, [alert]).0))
  {
    hide SetupOk, Out, Scripts, Network.Transmitted, Added, IsAlert, SoundSuites, SoundExchange, SharedKey, Opens, WellBehaved,
         SuiteForId, KnownSuites, Side.IsClient;
    SetupLinks(u);
    if byClient {
      NotifyAt(u, h.client, h.clientPlan, h.net.client, h.net.server, h.net.fromClient, u.clientMtu,
               h.server, h.serverPlan, h.net.fromServer, u.serverMtu, alert);
    } else {
      NotifyAt(u, h.server, h.serverPlan, h.net.server, h.net.client, h.net.fromServer, u.serverMtu,
               h.client, h.clientPlan, h.net.fromClient, u.clientMtu, alert);
    }
    SamePopped(u, h, Emitted(u, h, byClient, [alert]).0);
  }

  lemma SamePopped(u: Setup, h: Honest, net: World)
    requires Scripts(u, h) && net.client.Popped() == h.net.client.Popped() && net.server.Popped() == h.net.server.Popped()
    ensures Scripts(u, h.(net := net))
  {
    hide ClientScript, ServerScript, ServerHeard, ServerKeys, KeyedOk, ClientAnswered, ServerDone;
  }

  lemma ExpireStep(u: Setup, h: Honest, byClient: bool)
    requires SetupOk(u) && AllOk(u, h) && MachineOf(h, byClient).phase == Waiting
    ensures AllOk(u, WithMachine(h, byClient, Expired(MachineOf(h, byClient))))
  {
    hide SetupOk, Out, Scripts;
    if byClient {
      ExpireOut(u, h.client, h.clientPlan, h.net.client, h.net.server, h.net.fromClient, u.clientMtu);
    } else {
      ExpireOut(u, h.server, h.serverPlan, h.net.server, h.net.client, h.net.fromServer, u.serverMtu);
    }
    ScriptsMoved(u, h, byClient, Expired(MachineOf(h, byClient)), h.net);
    assert h.(net := h.net) == h;
  }

  /** The client reading the server's Finished: its state stays as it is. */
  lemma FinishReadStep(u: Setup, h: Honest, key: nat)
    requires SetupOk(u) && AllOk(u, h) && h.client.flight.Flight5? && h.client.phase == Waiting
    ensures AllOk(u, ParsedBy(u, h, true, key))
  {
    hide SetupOk, Out, Scripts, ClientFlights.Flight5Parsed, SuiteOk, SealerOf, Ready, UnmarshalBody, HonestWorlds.Taken;
    var m := h.client;
    var p := ClientFlights.Flight5Parsed(m.state, u.crypto, h.net.client.Cache());
    FlightEffects.Flight5Effect(m.state, u.crypto, h.net.client.Cache());
    var next := AfterParse(m, m.state, p);
    BaseOut(u, h);
    SameSuite(u, m, next);
    ParseOut(u, m, h.clientPlan, h.net.client, h.net.server, h.net.fromClient, u.clientMtu, m.state, p);
    ScriptsMoved(u, h, true, next, h.net);
    assert h.(net := h.net) == h;
    assert ParsedBy(u, h, true, key) == WithMachine(h, true, next);
  }
}
