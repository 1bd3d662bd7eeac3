/** The network side of an honest handshake: every step keeps both directions in order. */
module HonestSends {
  import opened Wrappers
  import opened Bytes
  import opened Headers
  import opened Messages
  import opened Handshakes
  import opened HandshakeCaches
  import opened CipherSuites
  import opened Sending
  import opened Reading
  import opened IncomingRecords
  import opened Reassembly
  import opened WireRecords
  import opened Framing
  import opened Fragmenting
  import opened Delivery
  import opened Emission
  import opened Network
  import opened HandshakeStates
  import ServerFlights
  import ClientFlights
  import opened Handshaking
  import opened Planning
  import opened FlightEffects
  import opened HonestWorlds

  predicate Shaped(p: Packet) {
    p.version == PROTOCOL_VERSION1_2
    && match p.content
       case HandshakeContent(_) => p.shouldEncrypt == (p.epoch != 0)
       case OtherContent(t, body) => t != ContentType.Handshake && 0 < |body| <= 2
  }

  predicate LastFlight(flight: Flight) {
    flight.Flight5? || flight.Flight6?
  }

  /** The packets a machine holds can be sent, and only the last flight holds protected ones. */
  ghost predicate PacketsOk(m: Machine) {
    forall p :: p in Packets(m) ==>
      Shaped(p) && (p.content.HandshakeContent? && p.epoch != 0 ==> LastFlight(m.flight) && Ready(m.state.cipherSuite))
  }

  ghost predicate SuiteOk(u: Setup, m: Machine) {
    m.state.cipherSuite.Some? ==>
      WellBehaved(m.state.cipherSuite.value, RecordLimit(u.clientMtu))
      && WellBehaved(m.state.cipherSuite.value, RecordLimit(u.serverMtu))
  }

  /** What has been sent is part of the plan; all of it, unless a send is under way or has failed. */
  ghost predicate PartyOk(m: Machine, plan: seq<SentMessage>, sent: seq<SentMessage>) {
    Table(plan) && sent <= plan
    && (!m.phase.Errored? ==>
          AllInTurn(sent, Packets(m)) && Planned(sent, Packets(m)) == plan
          && (m.phase != Phase.Sending ==> sent == plan)
          && m.state.sendSequence == |plan|)
  }

  /** Only a side that has keys plans messages of a later epoch. */
  ghost predicate PlanProtected(m: Machine, plan: seq<SentMessage>) {
    Protected(plan) ==> Ready(m.state.cipherSuite)
  }

  /** One direction of an honest handshake. */
  ghost predicate Out(u: Setup, m: Machine, plan: seq<SentMessage>, a: Side, b: Side, net: set<Bytes>, mtu: Mtu) {
    HalfOk(a, b, net, Link(mtu, SealerOf(m)))
    && PartyOk(m, plan, a.sent) && PlanProtected(m, plan)
    && SuiteOk(u, m) && (!m.phase.Errored? ==> PacketsOk(m))
  }

  ghost predicate Base(u: Setup, h: Honest) {
    h.net.client.IsClient()
    && Out(u, h.client, h.clientPlan, h.net.client, h.net.server, h.net.fromClient, u.clientMtu)
    && Out(u, h.server, h.serverPlan, h.net.server, h.net.client, h.net.fromServer, u.serverMtu)
  }

  /** Two sides that both have keys have matching ones. */
  ghost predicate KeysMatch(u: Setup, client: Machine, server: Machine) {
    Ready(client.state.cipherSuite) && Ready(server.state.cipherSuite) ==>
      Opens(client.state.cipherSuite.value, server.state.cipherSuite.value, RecordLimit(u.clientMtu))
      && Opens(server.state.cipherSuite.value, client.state.cipherSuite.value, RecordLimit(u.serverMtu))
  }

  // Sending

  lemma ShapedSendable(u: Setup, m: Machine, mtu: Mtu, p: Packet)
    requires SetupOk(u) && (mtu == u.clientMtu || mtu == u.serverMtu) && SuiteOk(u, m)
    requires Shaped(p) && (p.content.HandshakeContent? && p.epoch != 0 ==> Ready(m.state.cipherSuite))
    ensures Sendable(p, m.state.cipherSuite, mtu, SealerOf(m))
  {
    hide SoundSuites, SoundExchange, Frames, SetupOk;
  }

  lemma PacketsAreSendable(u: Setup, m: Machine, mtu: Mtu)
    requires SetupOk(u) && (mtu == u.clientMtu || mtu == u.serverMtu) && SuiteOk(u, m) && PacketsOk(m)
    ensures forall p :: p in Packets(m) ==> Sendable(p, m.state.cipherSuite, mtu, SealerOf(m))
  {
    hide SoundSuites, SoundExchange, SetupOk;
  }

  lemma SentParty(m: Machine, plan: seq<SentMessage>, a: Side, mtu: Mtu)
    requires PartyOk(m, plan, a.sent) && m.phase == Phase.Sending
    ensures var (s, datagrams) := Network.Transmitted(a, m.state.cipherSuite, mtu, Packets(m));
            PartyOk(AfterSend(m, datagrams), plan, s.sent)
  {
    hide Raw, TableAfter, Table, Datagrams, Emission.InTurn;
    var before := SenderState(a.lsn, a.Cache());
    SentIsPlanned(before, m.state.cipherSuite, mtu, a.IsClient(), Packets(m), a.sent);
    PlanKnown(a.sent, Packets(m));
    AgainInTurn(plan, Packets(m));
  }

  /** A send keeps both directions. */
  lemma SendOut(u: Setup, m: Machine, plan: seq<SentMessage>, a: Side, b: Side, net: set<Bytes>, mtu: Mtu)
    requires SetupOk(u) && (mtu == u.clientMtu || mtu == u.serverMtu)
    requires Out(u, m, plan, a, b, net, mtu) && m.phase == Phase.Sending
    ensures var (s, datagrams) := Network.Transmitted(a, m.state.cipherSuite, mtu, Packets(m));
            Out(u, AfterSend(m, datagrams), plan, s, b, Added(net, datagrams), mtu)
            && SentBy(s.Cache(), !a.IsClient()) == SentBy(a.Cache(), !a.IsClient()) && s.IsClient() == a.IsClient()
            && s.trace.reader.buffer == a.trace.reader.buffer && s.got == a.got
  {
    hide Network.Transmitted, HalfOk, Sendable, PacketsOk, SuiteOk, SetupOk, AllInTurn, Planned, Table, Added, Protected, SoundSuites;
    SetupLinks(u);
    PacketsAreSendable(u, m, mtu);
    TransmitKeeps(a, b, net, Link(mtu, SealerOf(m)), m.state.cipherSuite, Packets(m));
    SentParty(m, plan, a, mtu);
    SameEnd(a, m.state.cipherSuite, mtu, Packets(m));
    StillPackets(u, m, Network.Transmitted(a, m.state.cipherSuite, mtu, Packets(m)).1);
  }

  lemma SetupLinks(u: Setup)
    requires SetupOk(u)
    ensures u.clientMtu + HANDSHAKE_HEADER_LENGTH < 0x1_0000
    ensures u.serverMtu + HANDSHAKE_HEADER_LENGTH < 0x1_0000
  {
  }

  lemma SameEnd(a: Side, suite: Option<CipherSuite>, mtu: Mtu, pkts: seq<Packet>)
    ensures var s := Network.Transmitted(a, suite, mtu, pkts).0;
            s.IsClient() == a.IsClient() && s.trace.reader.buffer == a.trace.reader.buffer && s.got == a.got
  {
  }

  lemma StillPackets<T>(u: Setup, m: Machine, result: Result<T>)
    ensures PacketsOk(AfterSend(m, result)) <==> PacketsOk(m)
    ensures SuiteOk(u, AfterSend(m, result)) <==> SuiteOk(u, m)
  {
  }

  lemma NotifyOut(u: Setup, m: Machine, plan: seq<SentMessage>, a: Side, b: Side, net: set<Bytes>, mtu: Mtu, alert: Packet)
    requires SetupOk(u) && (mtu == u.clientMtu || mtu == u.serverMtu)
    requires Out(u, m, plan, a, b, net, mtu) && IsAlert(alert)
    ensures var (s, datagrams) := Network.Transmitted(a, m.state.cipherSuite, mtu, [alert]);
            Out(u, m, plan, s, b, Added(net, datagrams), mtu) && s.sent == a.sent
            && SentBy(s.Cache(), !a.IsClient()) == SentBy(a.Cache(), !a.IsClient()) && s.IsClient() == a.IsClient()
            && s.trace.reader.buffer == a.trace.reader.buffer && s.got == a.got
  {
    hide Network.Transmitted, HalfOk, Sendable, PacketsOk, SuiteOk, SetupOk, Planned, Table, Added, Protected;
    SetupLinks(u);
    ShapedSendable(u, m, mtu, alert);
    assert [alert][1..] == [];
    assert AllInTurn(a.sent, [alert]);
    TransmitKeeps(a, b, net, Link(mtu, SealerOf(m)), m.state.cipherSuite, [alert]);
    SameEnd(a, m.state.cipherSuite, mtu, [alert]);
    AlertSends(a, m.state.cipherSuite, mtu, alert);
  }

  lemma AlertSends(a: Side, suite: Option<CipherSuite>, mtu: Mtu, alert: Packet)
    requires IsAlert(alert)
    ensures Network.Transmitted(a, suite, mtu, [alert]).0.sent == a.sent
  {
    hide RecordsOf, BodiesOf, Raw, CachedBefore;
    assert [alert][1..] == [];
    var before := SenderState(a.lsn, a.Cache());
    assert Extended(a.sent, alert) == a.sent;
    assert TableAfter(before, suite, mtu, a.IsClient(), [alert], a.sent) == a.sent;
  }

  /** The other direction does not notice. */
  lemma OtherOut(u: Setup, m: Machine, plan: seq<SentMessage>, b: Side, a: Side, s: Side, net: set<Bytes>, mtu: Mtu)
    requires SetupOk(u) && (mtu == u.clientMtu || mtu == u.serverMtu)
    requires Out(u, m, plan, b, a, net, mtu)
    requires s.IsClient() == a.IsClient() && s.trace.reader == a.trace.reader.(cache := s.trace.reader.cache) && s.got == a.got
    requires SentBy(s.Cache(), !a.IsClient()) == SentBy(a.Cache(), !a.IsClient())
    ensures Out(u, m, plan, b, s, net, mtu)
  {
    hide PartyOk, PlanProtected, SuiteOk, PacketsOk, SetupOk, Genuine, AllWire, NetOk, OwnPart, FragmentBuffers.Popped, Table;
  }

  // Receiving

  lemma SuitesFit(u: Setup, m: Machine, plan: seq<SentMessage>, sent: seq<SentMessage>, mtu: Mtu, suite: Option<CipherSuite>)
    requires SetupOk(u) && (mtu == u.clientMtu || mtu == u.serverMtu)
    requires SuiteOk(u, m) && PlanProtected(m, plan) && sent <= plan
    requires Ready(suite) ==> OpensToSameHeader(suite.value)
    requires Ready(suite) && Ready(m.state.cipherSuite) ==> Opens(m.state.cipherSuite.value, suite.value, RecordLimit(mtu))
    ensures Fitting(SealerOf(m), suite, sent, mtu)
  {
    hide SoundSuites, SoundExchange, Opens, SetupOk;
  }

  lemma ReceiveOut(u: Setup, m: Machine, plan: seq<SentMessage>, a: Side, b: Side, net: set<Bytes>, mtu: Mtu, event: Event)
    requires SetupOk(u) && (mtu == u.clientMtu || mtu == u.serverMtu)
    requires Out(u, m, plan, a, b, net, mtu)
    requires Fitting(SealerOf(m), event.suite, a.sent, mtu)
    requires ComesFrom(event, net)
    ensures var c := Received(b, u.passes, event, a.sent, Link(mtu, SealerOf(m)));
            Out(u, m, plan, a, c, net, mtu) && OwnPartKept(b.trace.reader, c.trace.reader)
            && c.sent == b.sent && b.Popped() <= c.Popped()
  {
    hide HalfOk, Received, PartyOk, PlanProtected, SuiteOk, PacketsOk, SetupOk, Fitting, OwnPartKept, SealerOf, SuiteForId;
    SetupLinks(u);
    ReceiveKeeps(a, b, net, Link(mtu, SealerOf(m)), u.passes, event);
    SameTable(b, u.passes, event, a.sent, Link(mtu, SealerOf(m)));
  }

  lemma SameTable(b: Side, passes: Detector, event: Event, sent: seq<SentMessage>, link: Link)
    requires link.Valid()
    ensures Received(b, passes, event, sent, link).sent == b.sent
  {
    hide Reacted, EventRecords, Network.Taken, Carried;
  }

  lemma ReceiverOut(u: Setup, m: Machine, plan: seq<SentMessage>, b: Side, c: Side, a: Side, net: set<Bytes>, mtu: Mtu)
    requires SetupOk(u) && (mtu == u.clientMtu || mtu == u.serverMtu)
    requires Out(u, m, plan, b, a, net, mtu)
    requires OwnPartKept(b.trace.reader, c.trace.reader) && c.sent == b.sent
    ensures Out(u, m, plan, c, a, net, mtu)
  {
    hide PartyOk, PlanProtected, SuiteOk, PacketsOk, SetupOk, ReaderOk, NetOk, GotAll, FragmentBuffers.Popped, Table;
  }

  // Preparing and reading

  /** Before anything is protected, it does not matter what will protect it. */
  lemma AnySealer(a: Side, b: Side, net: set<Bytes>, link: Link, sealer: CipherSuite)
    requires link.Valid() && HalfOk(a, b, net, link) && !Protected(a.sent)
    ensures HalfOk(a, b, net, link.(sealer := sealer))
  {
    hide OwnPart, GotAll, FragmentBuffers.Popped, Genuine, PeerPart, Unpacked, WireRecord, Table, Protected;
    var other := link.(sealer := sealer);
    forall record | WireRecord(record, a.sent, link.mtu, link.sealer)
      ensures WireRecord(record, a.sent, link.mtu, sealer)
    {
      ClearRecord(record, a.sent, link.mtu, link.sealer, sealer);
    }
  }

  lemma ClearRecord(record: Bytes, sent: seq<SentMessage>, mtu: Mtu, sealer: CipherSuite, other: CipherSuite)
    requires !Protected(sent) && WireRecord(record, sent, mtu, sealer)
    ensures WireRecord(record, sent, mtu, other)
  {
    hide OtherRecord, Pieces, PieceOf, FragmentBytes, RecordLayerHeader.Marshal;
    if !OtherRecord(record) {
      var i, p, header :| 0 <= i < |sent| && FragmentRecord(record, sent[i], mtu, sealer, p, header);
      assert sent[i].epoch == 0;
      assert FragmentRecord(record, sent[i], mtu, other, p, header);
    }
  }

  lemma SealerOut(a: Side, b: Side, net: set<Bytes>, mtu: Mtu, m: Machine, next: Machine)
    requires 0 < mtu && mtu + HANDSHAKE_HEADER_LENGTH < 0x1_0000
    requires HalfOk(a, b, net, Link(mtu, SealerOf(m)))
    requires SealerOf(next) == SealerOf(m) || !Protected(a.sent)
    ensures HalfOk(a, b, net, Link(mtu, SealerOf(next)))
  {
    hide HalfOk, SealerOf, Protected;
    if SealerOf(next) != SealerOf(m) {
      AnySealer(a, b, net, Link(mtu, SealerOf(m)), SealerOf(next));
    }
  }

  /** The server's plan before its first answer: at most its HelloVerifyRequest. */
  ghost predicate VerifyOnly(plan: seq<SentMessage>, cookie: Bytes) {
    plan == []
    || (WellFormed(HelloVerifyRequestMessage(PROTOCOL_VERSION1_2, cookie))
        && plan == [SentMessage(Numbered(HelloVerifyRequestMessage(PROTOCOL_VERSION1_2, cookie), 0), 0)])
  }

  lemma {:induction false} PacketsShaped(m: Machine, drafts: seq<Draft>, next: int)
    requires HandshakeStates.Writable(drafts)
    ensures forall p :: p in NumberedPackets(drafts, next) ==> Shaped(p)
    ensures forall p :: p in NumberedPackets(drafts, next) && p.content.HandshakeContent? && p.epoch != 0 ==>
              exists d :: d in drafts && d.MessageDraft? && d.epoch != 0
    decreases |drafts|
  {
    hide WellFormed, Numbered, UnmarshalHandshake, Messages.Transmitted, RawHandshake.Whole;
    if drafts != [] {
      assert drafts[0] in drafts && forall d :: d in drafts[1..] ==> d in drafts;
      var step := if drafts[0].MessageDraft? then 1 else 0;
      PacketsShaped(m, drafts[1..], next + step);
      if drafts[0].MessageDraft? {
        NumberedReads(drafts[0].message, WrappedU16(next));
      }
      var pkts := NumberedPackets(drafts, next);
      assert pkts == [pkts[0]] + NumberedPackets(drafts[1..], next + step);
    }
  }

  lemma {:induction false} EpochsOfSent(drafts: seq<Draft>, next: nat)
    requires HandshakeStates.Writable(drafts)
    ensures Protected(SentOf(drafts, next)) ==> exists d :: d in drafts && d.MessageDraft? && d.epoch != 0
    decreases |drafts|
  {
    hide WellFormed, Numbered;
    if drafts != [] {
      assert drafts[0] in drafts && forall d :: d in drafts[1..] ==> d in drafts;
      var step := if drafts[0].MessageDraft? then 1 else 0;
      EpochsOfSent(drafts[1..], next + step);
      if Protected(SentOf(drafts, next)) {
        var i :| 0 <= i < |SentOf(drafts, next)| && SentOf(drafts, next)[i].epoch != 0;
        if drafts[0].MessageDraft? && i > 0 {
          assert SentOf(drafts, next)[i] == SentOf(drafts[1..], next + 1)[i - 1];
        }
      }
    }
  }

  lemma ProtectedConcat(a: seq<SentMessage>, b: seq<SentMessage>)
    ensures Protected(a + b) ==> Protected(a) || Protected(b)
  {
  }

  /** What a flight adds to the plan: nothing when the HelloVerifyRequest is repeated. */
  ghost function Additions(flight: Flight, plan: seq<SentMessage>, drafts: seq<Draft>): seq<SentMessage>
    requires HandshakeStates.Writable(drafts)
  {
    if flight.Flight2? && plan != [] then [] else SentOf(drafts, |plan|)
  }

  lemma LoadedParty(m: Machine, plan: seq<SentMessage>, drafts: seq<Draft>, start: int, cookie: Bytes)
    requires Table(plan) && HandshakeStates.Writable(drafts) && |plan| + MessageCount(drafts) < 0xFFFF
    requires if m.flight.Flight2?
             then start == 0 && VerifyOnly(plan, cookie)
                  && drafts == [MessageDraft(0, HelloVerifyRequestMessage(PROTOCOL_VERSION1_2, cookie))]
             else start == |plan|
    ensures var pkts := NumberedPackets(drafts, start);
            AllInTurn(plan, pkts) && Planned(plan, pkts) == plan + Additions(m.flight, plan, drafts)
            && Table(Planned(plan, pkts)) && start + MessageCount(drafts) == |Planned(plan, pkts)|
  {
    hide WellFormed, Numbered, Table, UnmarshalHandshake, Size, RawHandshake.Whole, ClientHelloWellFormed, HandshakeRandom.Transmitted;
    if m.flight.Flight2? && plan != [] {
      var verify := HelloVerifyRequestMessage(PROTOCOL_VERSION1_2, cookie);
      assert drafts[0] in drafts;
      NumberedReads(verify, 0);
      NumberedAt(verify, 0);
      assert drafts[1..] == [];
      assert NumberedPackets(drafts, 0) == [Packet(PROTOCOL_VERSION1_2, 0, HandshakeContent(Numbered(verify, 0)), false)];
      AgainInTurn(plan, NumberedPackets(drafts, 0));
      assert plan + [] == plan;
    } else {
      FreshPlan(plan, drafts);
    }
  }

  lemma CountBelow(drafts: seq<Draft>)
    ensures MessageCount(drafts) <= |drafts|
  {
  }

  /** Preparing keeps the direction out. */
  lemma PrepareOut(u: Setup, m: Machine, plan: seq<SentMessage>, a: Side, b: Side, net: set<Bytes>, mtu: Mtu,
                   cfg: Config, draws: Draws)
    requires SetupOk(u) && (mtu == u.clientMtu || mtu == u.serverMtu)
    requires Out(u, m, plan, a, b, net, mtu) && m.phase == Preparing
    requires |plan| + |Packets(Prepared(m, cfg, u.crypto, a.Cache(), draws))| < 0xFFFF
    requires m.flight.Flight2? ==> VerifyOnly(plan, m.state.cookie)
    requires var next := Prepared(m, cfg, u.crypto, a.Cache(), draws);
             SuiteOk(u, next) && (SealerOf(next) == SealerOf(m) || !Protected(plan))
             && (Ready(m.state.cipherSuite) ==> next.state.cipherSuite == m.state.cipherSuite)
             && (LastFlight(m.flight) && next.phase == Phase.Sending ==> Ready(next.state.cipherSuite))
    ensures var next := Prepared(m, cfg, u.crypto, a.Cache(), draws);
            Out(u, next, Planned(plan, Packets(next)), a, b, net, mtu) && next.flight == m.flight
  {
    hide FlightGenerated, HalfOk, SuiteOk, SetupOk, Protected, SealerOf, Table, GeneratedOk, Additions, PacketsOk,
         HandshakeStates.Writable, NumberedPackets, Planned, AllInTurn, Emission.InTurn, SoundSuites, VerifyOnly, SuiteForId, Frames;
    SetupLinks(u);
    var next := Prepared(m, cfg, u.crypto, a.Cache(), draws);
    SealerOut(a, b, net, mtu, m, next);
    var (s, g) := FlightGenerated(m.flight, m.state, cfg, u.crypto, a.Cache(), draws);
    FlightPrepared(m.flight, m.state, cfg, u.crypto, a.Cache(), draws);
    NothingPlanned(plan);
    GeneratedFacts(m.flight, m.state, s, g, draws);
    if g.Drafts? && HandshakeStates.Writable(g.drafts) {
      CountBelow(g.drafts);
      CookieDraft(m.flight, m.state, cfg, u.crypto, a.Cache(), draws);
      LoadedParty(m, plan, g.drafts, s.sendSequence, m.state.cookie);
      LoadedPackets(m, next, plan, g.drafts, s.sendSequence);
    }
  }

  lemma NothingPlanned(plan: seq<SentMessage>)
    ensures Planned(plan, []) == plan && AllInTurn(plan, [])
  {
    hide Emission.InTurn, Extended;
  }

  lemma GeneratedFacts(flight: Flight, s: State, t: State, g: Generated, draws: Draws)
    requires GeneratedOk(flight, s, t, g, draws)
    ensures t.sendSequence == (if flight.Flight2? then 0 else s.sendSequence)
    ensures g.Refused? ==> g.failure.error.Some?
    ensures g.Drafts? && !LastFlight(flight) ==> forall d :: d in g.drafts && d.MessageDraft? ==> d.epoch == 0
  {
  }

  lemma CookieDraft(flight: Flight, s: State, cfg: Config, crypto: Crypto, cache: seq<Item>, draws: Draws)
    ensures flight.Flight2? ==>
              FlightGenerated(flight, s, cfg, crypto, cache, draws).1
              == Drafts([MessageDraft(0, HelloVerifyRequestMessage(PROTOCOL_VERSION1_2, s.cookie))])
  {
    hide ClientFlights.Flight5Generated, ServerFlights.Flight6Generated, ServerFlights.Flight4Generated;
  }

  lemma LoadedPackets(m: Machine, next: Machine, plan: seq<SentMessage>, drafts: seq<Draft>, start: int)
    requires HandshakeStates.Writable(drafts) && next.flights == Some(NumberedPackets(drafts, start)) && next.flight == m.flight
    requires !LastFlight(m.flight) ==> forall d :: d in drafts && d.MessageDraft? ==> d.epoch == 0
    requires LastFlight(m.flight) ==> Ready(next.state.cipherSuite)
    requires PlanProtected(m, plan) && (Ready(m.state.cipherSuite) ==> next.state.cipherSuite == m.state.cipherSuite)
    ensures PacketsOk(next)
    ensures PlanProtected(next, plan + Additions(m.flight, plan, drafts))
  {
    hide Shaped, NumberedPackets, HandshakeStates.Writable, Protected, SentOf, Ready;
    PacketsShaped(m, drafts, start);
    ProtectedConcat(plan, Additions(m.flight, plan, drafts));
    EpochsOfSent(drafts, |plan|);
    NotProtected();
  }

  lemma NotProtected()
    ensures !Protected([])
  {
  }

  /** Reading keeps the direction out. */
  lemma ParseOut(u: Setup, m: Machine, plan: seq<SentMessage>, a: Side, b: Side, net: set<Bytes>, mtu: Mtu, t: State, p: Parsed)
    requires SetupOk(u) && (mtu == u.clientMtu || mtu == u.serverMtu)
    requires Out(u, m, plan, a, b, net, mtu) && m.phase == Waiting && Kept(m.state, t)
    requires var next := AfterParse(m, t, p);
             SuiteOk(u, next) && (SealerOf(next) == SealerOf(m) || !Protected(plan))
    requires Ready(m.state.cipherSuite) ==> t.cipherSuite == m.state.cipherSuite
    requires LastFlight(m.flight) ==> p.Failed? || p == Next(Flight5) || p == Next(Flight6)
    ensures Out(u, AfterParse(m, t, p), plan, a, b, net, mtu)
  {
    hide HalfOk, SuiteOk, SetupOk, Protected, SealerOf, Shaped, Table, AllInTurn, Planned, SoundSuites, SoundExchange, SharedKey, Opens,
         WellBehaved, SuiteForId;
    SetupLinks(u);
    SealerOut(a, b, net, mtu, m, AfterParse(m, t, p));
  }

  lemma ExpireOut(u: Setup, m: Machine, plan: seq<SentMessage>, a: Side, b: Side, net: set<Bytes>, mtu: Mtu)
    requires SetupOk(u) && (mtu == u.clientMtu || mtu == u.serverMtu)
    requires Out(u, m, plan, a, b, net, mtu) && m.phase == Waiting
    ensures Out(u, Expired(m), plan, a, b, net, mtu)
  {
    hide HalfOk, SetupOk, Shaped, Table, AllInTurn, Planned, WellBehaved, Protected;
  }
}
