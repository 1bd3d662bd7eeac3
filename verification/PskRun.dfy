/** A handshake with a shared key in which every datagram arrives, once and in order: both sides complete. */
module PskRun {
  import opened Wrappers
  import opened Bytes
  import opened Headers
  import opened Messages
  import opened Handshakes
  import opened HandshakeCaches
  import opened CipherSuites
  import opened Fragmenting
  import opened Sending
  import opened Reading
  import opened Reassembly
  import opened WireRecords
  import opened Delivery
  import opened Emission
  import opened Network
  import opened HandshakeStates
  import opened ServerFlights
  import opened ClientFlights
  import opened ClientFinished
  import opened Handshaking
  import opened Planning
  import opened HonestWorlds
  import opened HonestSends
  import opened HonestScripts
  import opened HonestTexts
  import opened HonestHandshakes
  import opened InOrder
  import opened InOrderFlights
  import opened InOrderSides
  import opened InOrderRuns
  import opened PskFlights

  function PskSetup(clientMtu: Mtu, serverMtu: Mtu, passes: Detector): Setup {
    Setup(CLIENT, SERVER, CRYPTO, clientMtu, serverMtu, passes)
  }

  ghost predicate IsPsk(u: Setup) {
    u.client == CLIENT && u.server == SERVER && u.crypto == CRYPTO
  }

  // Numbering

  lemma OneSaid(message: Message, next: nat)
    requires WellFormed(message) && next < 0xFFF0
    ensures Numbers([MessageDraft(0, message)], next, [MessageAt(message, next, 0)], [PacketOf(MessageAt(message, next, 0))])
  {
    hide WellFormed, Numbered;
    var drafts := [MessageDraft(0, message)];
    assert drafts[1..] == [];
    assert SentOf(drafts, next) == [MessageAt(message, next, 0)];
    assert NumberedPackets(drafts, next) == [PacketOf(MessageAt(message, next, 0))];
  }

  lemma TwoSaid(first: Message, second: Message, next: nat)
    requires WellFormed(first) && WellFormed(second) && next < 0xFFE0
    ensures Numbers([MessageDraft(0, first), MessageDraft(0, second)], next,
                    [MessageAt(first, next, 0), MessageAt(second, next + 1, 0)],
                    [PacketOf(MessageAt(first, next, 0)), PacketOf(MessageAt(second, next + 1, 0))])
  {
    hide WellFormed, Numbered;
    var drafts := [MessageDraft(0, first), MessageDraft(0, second)];
    assert drafts[1..] == [MessageDraft(0, second)];
    OneSaid(second, next + 1);
    assert SentOf(drafts, next) == [MessageAt(first, next, 0), MessageAt(second, next + 1, 0)];
    assert NumberedPackets(drafts, next) == [PacketOf(MessageAt(first, next, 0)), PacketOf(MessageAt(second, next + 1, 0))];
  }

  lemma ClosingSaid(data: MessageBody)
    ensures Numbers(ClosingDrafts(data), 3, [Last(data)], [CHANGE, PacketOf(Last(data))])
  {
    hide WellFormed, Numbered, Messages.Transmitted;
    FinishedFits(data);
    var last := [MessageDraft(1, FinishedMessage(data))];
    assert last[1..] == [];
    assert SentOf(last, 3) == [Last(data)] + SentOf([], 4);
    assert NumberedPackets(last, 3) == [PacketOf(Last(data))] + NumberedPackets([], 4);
    assert ClosingDrafts(data)[1..] == last;
    assert SentOf(ClosingDrafts(data), 3) == [Last(data)];
    assert NumberedPackets(ClosingDrafts(data), 3) == [CHANGE, PacketOf(Last(data))];
  }

  lemma KeysSaid(data: MessageBody)
    ensures Numbers(KeyDraftsOf(data), 2, [Keys(), Last(data)], [PacketOf(Keys()), CHANGE, PacketOf(Last(data))])
  {
    hide WellFormed, Numbered, Messages.Transmitted, Last;
    ExchangeFits();
    ClosingSaid(data);
    assert KeyDraftsOf(data)[1..] == ClosingDrafts(data);
  }

  lemma SaidShort(message: Message, number: U16, epoch: U16)
    requires Plain(message) && Size(message) <= 100
    ensures Short(MessageAt(message, number, epoch), epoch)
  {
    hide WellFormed, Marshal, Messages.Transmitted, UnmarshalBody, Size;
    BodyRoundTrip(message);
  }

  // Steps

  /** Where the two machines are before there are keys. */
  ghost predicate Stage(u: Setup, h: Honest, total: int, cf: Flight, cp: Phase, clientRecv: int, sf: Flight, sp: Phase, serverRecv: int) {
    IsPsk(u) && InTouch(u, h, 0, 0, total)
    && h.client.flight == cf && h.client.phase == cp && ClientAt(h.client.state, clientRecv)
    && h.server.flight == sf && h.server.phase == sp && ServerAt(h.server.state, serverRecv)
  }

  ghost predicate Plans(h: Honest, client: seq<SentMessage>, server: seq<SentMessage>) {
    h.clientPlan == client && h.serverPlan == server
  }

  lemma Reach(u: Setup, h: Honest, serverReads: int, clientReads: int, total: int)
    requires InTouch(u, h, serverReads, clientReads, total)
    ensures SetupOk(u) && LetsNewerThrough(u.passes) && Reached(u, h)
    ensures GotFirst(h.net.client, h.net.server, u.clientMtu, |h.net.client.sent|)
    ensures GotFirst(h.net.server, h.net.client, u.serverMtu, |h.net.server.sent|)
  {
    hide SetupOk, LetsNewerThrough, Reached, InStep, GotFirst;
  }

  /** A side prepares a flight without protection and the other side gets it. */
  lemma Says(u: Setup, h: Honest, byClient: bool, s: State, drafts: seq<Draft>, ms: seq<SentMessage>, pkts: seq<Packet>, total: nat)
      returns (f: Honest)
    requires InTouch(u, h, 0, 0, total) && Prepares(u, h, byClient, DRAWS, s, drafts) && !MachineOf(h, byClient).flight.Flight6?
    requires s.sendSequence == |PlanOf(h, byClient)| && Numbers(drafts, s.sendSequence, ms, pkts)
    requires Packed(pkts, ms) && ms != [] && total + AtMost(|ms|) <= ENOUGH
    ensures InTouch(u, f, 0, 0, total + AtMost(|ms|)) && PlanOf(f, byClient) == PlanOf(h, byClient) + ms
    ensures PlanOf(f, !byClient) == PlanOf(h, !byClient) && MachineOf(f, !byClient) == MachineOf(h, !byClient)
    ensures LeftWith(MachineOf(h, byClient), MachineOf(f, byClient), s, Waiting)
  {
    hide SetupOk, LetsNewerThrough, Reached, Prepares, Numbers, Packed, Heeds, AtMost;
    f := PreparesOn(u, h, byClient, DRAWS, s, drafts, ms, pkts);
    f := Exchanged(u, f, byClient, pkts, ms, total);
  }

  lemma Reads(u: Setup, h: Honest, byClient: bool, s: State, next: Flight, total: int) returns (f: Honest)
    requires InTouch(u, h, 0, 0, total) && Parses(u, h, byClient, DRAWS.key, s, Next(next)) && next != MachineOf(h, byClient).flight
    ensures InTouch(u, f, 0, 0, total)
    ensures f == WithMachine(h, byClient, MachineOf(h, byClient).(phase := Preparing, flight := next, state := s))
  {
    hide SetupOk, LetsNewerThrough, Reached, Parses, Heeds;
    f := ParsesOn(u, h, byClient, DRAWS.key, s, Next(next));
  }

  /** A side that reads has all that has been said. */
  lemma HasAll(u: Setup, h: Honest, byClient: bool)
    requires SetupOk(u) && Reached(u, h) && SideOf(h, byClient).Popped() == |PlanOf(h, !byClient)|
    ensures Has(SideOf(h, byClient).Cache(), !byClient, PlanOf(h, !byClient))
  {
    hide SetupOk, Reached, AllOk, HonestSends.Base, OwnPart, Unique, HasOnly;
    ReachedOk(u, h);
    BaseOf(u, h);
    CacheParts(u, h);
    assert PlanOf(h, !byClient)[..|PlanOf(h, !byClient)|] == PlanOf(h, !byClient);
    PlanHeld(SideOf(h, byClient).Cache(), !byClient, PlanOf(h, !byClient));
  }

  lemma BaseOf(u: Setup, h: Honest)
    requires AllOk(u, h)
    ensures HonestSends.Base(u, h)
  {
    hide HonestSends.Base, Scripts;
  }

  lemma PlanHeld(cache: seq<Item>, isClient: bool, plan: seq<SentMessage>)
    requires Unique(cache) && OwnPart(cache, isClient, plan)
    ensures Has(cache, isClient, plan)
  {
    hide Table, ItemOf, Unique;
    SentByMember(cache, isClient);
  }

  lemma HeardAll(u: Setup, h: Honest, byClient: bool, total: int)
    requires InTouch(u, h, 0, 0, total) && Idle(h, !byClient)
    ensures Has(SideOf(h, byClient).Cache(), !byClient, PlanOf(h, !byClient))
  {
    hide SetupOk, LetsNewerThrough, Reached, Has, GotFirst, SealerOf, Table;
    Reach(u, h, 0, 0, total);
    PlanKept(u, h, !byClient);
    Popped(u, h, !byClient, |SideOf(h, !byClient).sent|);
    HasAll(u, h, byClient);
  }

  // The hellos

  const SAID1 := AtMost(1)
  const SAID2 := AtMost(2)
  const SAID3 := AtMost(3)
  const SAID5 := AtMost(5)
  const SAID7 := SAID5 + 2 * MOST + 1

  lemma StartInTouch(u: Setup)
    requires SetupOk(u) && LetsNewerThrough(u.passes)
    ensures InTouch(u, Begin(), 0, 0, 0)
  {
    hide SetupOk, LetsNewerThrough, Heeds, Acted, Enabled, ExchangeOf, InStep, GotFirst, Started, InOrderRuns.Exchange, NewSide;
    assert InOrderRun(u, Begin(), [], Begin());
    NothingToHeed(true, u.clientMtu);
    NothingToHeed(false, u.serverMtu);
  }

  /** The server waits for the first hello. */
  lemma Begins(u: Setup) returns (h: Honest)
    requires SetupOk(u) && LetsNewerThrough(u.passes) && IsPsk(u)
    ensures Stage(u, h, 0, Flight1, Preparing, 0, Flight0, Waiting, 0) && Plans(h, [], []) && h.server.state.localKeypair.None?
  {
    hide SetupOk, LetsNewerThrough, Reached, Heeds, FlightGenerated, Flight2Generated, Flight4Generated, Flight6Generated, InOrderRun,
         Writable, Numbered;
    StartInTouch(u);
    h := Begin();
    ServerGenerates(h.server.state, SERVER, CRYPTO, h.net.server.Cache(), DRAWS);
    var s := Flight0Generated(h.server.state, DRAWS).0;
    NothingSaid();
    assert Prepares(u, h, false, DRAWS, s, []);
    h := PreparesOn(u, h, false, DRAWS, s, [], [], []);
    h := SaysNothing(u, h);
  }

  lemma NothingSaid()
    ensures Numbers([], 0, [], [])
  {
  }

  /** Flight 0 has nothing to send. */
  lemma SaysNothing(u: Setup, h: Honest) returns (f: Honest)
    requires InTouch(u, h, 0, 0, 0) && ToSend(h, false, [], []) && h.server.flight.Flight0?
    ensures InTouch(u, f, 0, 0, 0) && f == h.(net := f.net, server := h.server.(phase := Waiting))
  {
    hide SetupOk, LetsNewerThrough, Reached, Heeds, Hearing, Network.Transmitted, SealerOf;
    var a, link := h.net.server, LinkFrom(u, h, false);
    NothingTransmitted(a, h.server.state.cipherSuite, link.mtu);
    f := Exchanges(u, h, false, [], [], a, []);
    NothingHeard(h.net.client, u.passes, h.client.state.cipherSuite, a.sent, link);
  }

  lemma NothingTransmitted(a: Side, suite: Option<CipherSuite>, mtu: Mtu)
    ensures Network.Transmitted(a, suite, mtu, []) == (a, Ok([]))
  {
  }

  lemma NothingHeard(b: Side, passes: Detector, keys: Option<CipherSuite>, sent: seq<SentMessage>, link: Link)
    ensures Hearing(b, passes, keys, [], sent, link) == b
  {
    hide Received;
  }

  lemma SaysHello(u: Setup, h: Honest) returns (f: Honest)
    requires Stage(u, h, 0, Flight1, Preparing, 0, Flight0, Waiting, 0) && Plans(h, [], [])
    ensures Stage(u, f, SAID1, Flight1, Waiting, 0, Flight0, Waiting, 0) && Plans(f, [Greeting()], []) && f.server == h.server
  {
    hide InTouch, SetupOk, LetsNewerThrough, Reached, WellFormed, HelloWith, Numbered, Numbers, HandshakeStates.Writable,
         FlightGenerated, Flight1Generated, Flight3Generated, Flight5Generated, Messages.Transmitted, Size, Table;
    HelloFits([]);
    OneSaid(HelloWith([]), 0);
    SaidShort(HelloWith([]), 0, 0);
    Reach(u, h, 0, 0, 0);
    PlanKept(u, h, true);
    var s := FlightOne(h.client.state);
    ClientGenerates(h.client.state, CLIENT, CRYPTO, h.net.client.Cache(), DRAWS);
    f := Says(u, h, true, s, [MessageDraft(0, HelloWith([]))], [Greeting()], [PacketOf(Greeting())], 0);
  }

  lemma HearsHello(u: Setup, h: Honest) returns (f: Honest)
    requires Stage(u, h, SAID1, Flight1, Waiting, 0, Flight0, Waiting, 0) && Plans(h, [Greeting()], []) && h.server.state.localKeypair.None?
    ensures Stage(u, f, SAID1, Flight1, Waiting, 0, Flight2, Preparing, 1) && Plans(f, [Greeting()], []) && Unkeyed(f.server.state)
  {
    hide InTouch, Has, FlightParsed, Flight0Parsed, Flight2Parsed, Greeting;
    HeardAll(u, h, false, SAID1);
    var s := ReadsHello(h.server.state, h.net.server.Cache());
    ServerParses(h.server.state, SERVER, CRYPTO, h.net.server.Cache(), DRAWS.key);
    f := Reads(u, h, false, s, Flight2, SAID1);
  }

  /** The request for the cookie, and the hello that brings it. */
  lemma SaysVerify(u: Setup, h: Honest) returns (f: Honest)
    requires Stage(u, h, SAID1, Flight1, Waiting, 0, Flight2, Preparing, 1) && Plans(h, [Greeting()], []) && Unkeyed(h.server.state)
    ensures Stage(u, f, SAID2, Flight1, Waiting, 0, Flight2, Waiting, 1) && Plans(f, [Greeting()], [Verify()]) && Unkeyed(f.server.state)
  {
    hide InTouch, WellFormed, Numbered, Numbers, HandshakeStates.Writable, FlightGenerated, Flight0Generated, Flight2Generated, Flight4Generated,
         Flight6Generated, Greeting, Messages.Transmitted, Size;
    AnswersFit();
    OneSaid(VERIFY, 0);
    SaidShort(VERIFY, 0, 0);
    FlightTwo(h.server.state);
    ServerGenerates(h.server.state, SERVER, CRYPTO, h.net.server.Cache(), DRAWS);
    f := Says(u, h, false, h.server.state.(sendSequence := 0), [MessageDraft(0, VERIFY)], [Verify()], [PacketOf(Verify())], SAID1);
  }

  lemma HearsVerify(u: Setup, h: Honest) returns (f: Honest)
    requires Stage(u, h, SAID2, Flight1, Waiting, 0, Flight2, Waiting, 1) && Plans(h, [Greeting()], [Verify()])
    ensures Stage(u, f, SAID2, Flight3, Preparing, 1, Flight2, Waiting, 1) && Plans(f, [Greeting()], [Verify()])
    ensures f.server == h.server && f.client.state.cookie == COOKIE
  {
    hide InTouch, Has, FlightParsed, Flight1Parsed, Flight3Parsed, Flight5Parsed, Greeting, Verify;
    HeardAll(u, h, true, SAID2);
    ReadsVerify(h.client.state, h.net.client.Cache());
    ClientParses(h.client.state, CLIENT, CRYPTO, h.net.client.Cache(), DRAWS.key);
    f := Reads(u, h, true, h.client.state.(cookie := COOKIE, recvSequence := 1), Flight3, SAID2);
  }

  lemma SaysCookie(u: Setup, h: Honest) returns (f: Honest)
    requires Stage(u, h, SAID2, Flight3, Preparing, 1, Flight2, Waiting, 1) && Plans(h, [Greeting()], [Verify()])
    requires h.client.state.cookie == COOKIE
    ensures Stage(u, f, SAID3, Flight3, Waiting, 1, Flight2, Waiting, 1) && Plans(f, [Greeting(), Return()], [Verify()])
    ensures f.server == h.server
  {
    hide InTouch, SetupOk, LetsNewerThrough, Reached, WellFormed, HelloWith, Numbered, Numbers, HandshakeStates.Writable,
         FlightGenerated, Flight1Generated, Flight3Generated, Flight5Generated, Messages.Transmitted, Size, Greeting, Verify, Table;
    HelloFits(COOKIE);
    OneSaid(HelloWith(COOKIE), 1);
    SaidShort(HelloWith(COOKIE), 1, 0);
    Reach(u, h, 0, 0, SAID2);
    PlanKept(u, h, true);
    FlightThree(h.client.state);
    ClientGenerates(h.client.state, CLIENT, CRYPTO, h.net.client.Cache(), DRAWS);
    f := Says(u, h, true, h.client.state, [MessageDraft(0, HelloWith(COOKIE))], [Return()], [PacketOf(Return())], SAID2);
  }

  lemma HearsCookie(u: Setup, h: Honest) returns (f: Honest)
    requires Stage(u, h, SAID3, Flight3, Waiting, 1, Flight2, Waiting, 1) && Plans(h, [Greeting(), Return()], [Verify()])
    ensures Stage(u, f, SAID3, Flight3, Waiting, 1, Flight4, Preparing, 2) && Plans(f, [Greeting(), Return()], [Verify()])
    ensures f.server.state.cipherSuite == h.server.state.cipherSuite
  {
    hide InTouch, Has, FlightParsed, Flight0Parsed, Flight2Parsed, Greeting, Return, Verify;
    HeardAll(u, h, false, SAID3);
    ReadsCookie(h.server.state, h.net.server.Cache());
    ServerParses(h.server.state, SERVER, CRYPTO, h.net.server.Cache(), DRAWS.key);
    f := Reads(u, h, false, h.server.state.(recvSequence := 2), Flight4, SAID3);
  }

  // Flight 4

  lemma SaysAnswer(u: Setup, h: Honest) returns (f: Honest)
    requires Stage(u, h, SAID3, Flight3, Waiting, 1, Flight4, Preparing, 2) && Plans(h, [Greeting(), Return()], [Verify()])
    requires Unkeyed(h.server.state)
    ensures Stage(u, f, SAID5, Flight3, Waiting, 1, Flight4, Waiting, 2) && Plans(f, [Greeting(), Return()], AnswersSent())
    ensures Unkeyed(f.server.state)
  {
    hide InTouch, SetupOk, LetsNewerThrough, Reached, WellFormed, Numbered, Numbers, HandshakeStates.Writable, FlightGenerated,
         Flight0Generated, Flight2Generated, Flight4Generated, Flight6Generated, Messages.Transmitted, Size, Greeting, Return, Verify,
         Table;
    AnswersFit();
    TwoSaid(ANSWER, ServerHelloDoneMessage, 1);
    SaidShort(ANSWER, 1, 0);
    SaidShort(ServerHelloDoneMessage, 2, 0);
    Reach(u, h, 0, 0, SAID3);
    PlanKept(u, h, false);
    FlightFour(h.server.state);
    ServerGenerates(h.server.state, SERVER, CRYPTO, h.net.server.Cache(), DRAWS);
    f := Says(u, h, false, h.server.state, [MessageDraft(0, ANSWER), MessageDraft(0, ServerHelloDoneMessage)], Answer(),
              [PacketOf(Answer()[0]), PacketOf(Answer()[1])], SAID3);
  }

  lemma HearsAnswer(u: Setup, h: Honest) returns (f: Honest)
    requires Stage(u, h, SAID5, Flight3, Waiting, 1, Flight4, Waiting, 2) && Plans(h, [Greeting(), Return()], AnswersSent())
    ensures Stage(u, f, SAID5, Flight5, Preparing, 3, Flight4, Waiting, 2) && Plans(f, [Greeting(), Return()], AnswersSent())
    ensures f.server == h.server && Unkeyed(f.client.state)
  {
    hide InTouch, Has, FlightParsed, Flight1Parsed, Flight3Parsed, Flight5Parsed, Greeting, Return, AnswersSent;
    HeardAll(u, h, true, SAID5);
    ReadsAnswer(h.client.state, h.net.client.Cache());
    ClientParses(h.client.state, CLIENT, CRYPTO, h.net.client.Cache(), DRAWS.key);
    f := Reads(u, h, true, h.client.state.(recvSequence := 3, cipherSuite := Some(NewSuite(PSK_SUITE)), remoteRandom := ZERO_RANDOM),
               Flight5, SAID5);
  }

  // Flight 5

  /** Flight 5 has arrived, the last part of it in the queue. */
  ghost predicate KeyStage(u: Setup, h: Honest, data: MessageBody, n: nat, k: nat) {
    IsPsk(u) && SetupOk(u) && LetsNewerThrough(u.passes) && Reached(u, h)
    && Heeds(h.net.server, h.net.client, u.serverMtu, 0, SAID7) && PutBy(h.net.client, h.net.server, ToServer(u, h.client), Last(data), n, k, SAID7)
    && h.client.flight.Flight5? && h.client.phase == Waiting && h.client.state.recvSequence == 3 && PskFlights.Keyed(h.client.state)
    && h.server.flight.Flight4? && h.server.phase == Waiting && ServerAt(h.server.state, 2) && Unkeyed(h.server.state)
    && Plans(h, KeysSent() + [Last(data)], AnswersSent()) && 3 <= h.net.server.Popped() <= 4
  }

  lemma PlainSeals(mtu: Mtu)
    requires mtu + HANDSHAKE_HEADER_LENGTH < 0x1_0000
    ensures CanSeal(Some(PlainSuite(PSK_SUITE)), 1, Link(mtu, PlainSuite(PSK_SUITE)))
    ensures HasKeys(Some(PlainSuite(PSK_SUITE)), Link(mtu, PlainSuite(PSK_SUITE)))
    ensures Frames(PlainSuite(PSK_SUITE), RecordLimit(mtu))
  {
    PlainSuiteOpens(PSK_SUITE, RecordLimit(mtu));
  }

  lemma FinishedShort(data: MessageBody)
    requires |data| <= 12
    ensures Short(Last(data), 1) && Short(Keys(), 0)
  {
    hide WellFormed, Messages.Transmitted, Numbered;
    FinishedFits(data);
    ExchangeFits();
    SaidShort(FinishedMessage(data), 3, 1);
    SaidShort(EXCHANGE, 2, 0);
  }

  lemma MakesKeys(u: Setup, h: Honest) returns (f: Honest, data: MessageBody)
    requires Stage(u, h, SAID5, Flight5, Preparing, 3, Flight4, Waiting, 2) && Unkeyed(h.client.state)
    requires Plans(h, [Greeting(), Return()], AnswersSent())
    ensures |data| <= 12 && InTouch(u, f, 0, 0, SAID5) && f.server == h.server
    ensures ToSend(f, true, [PacketOf(Keys()), CHANGE, PacketOf(Last(data))], [Keys(), Last(data)])
    ensures f.clientPlan == h.clientPlan + [Keys(), Last(data)] && f.serverPlan == h.serverPlan
    ensures f.client.flight.Flight5? && f.client.state.recvSequence == 3 && PskFlights.Keyed(f.client.state)
  {
    hide SetupOk, LetsNewerThrough, Reached, Heeds, Has, Numbers, FlightGenerated, Flight1Generated, Flight3Generated, Flight5Generated,
         HandshakeStates.Writable, Greeting, Return, AnswersSent, Keys, Last, Best, PlainSuite, UnmarshalHandshake, FullPulled;
    HeardAll(u, h, true, SAID5);
    AnswersPulled(h.net.client.Cache());
    PlanKept(u, h, true);
    var d := FlightFive(h.client.state, h.net.client.Cache());
    ClientGenerates(h.client.state, CLIENT, CRYPTO, h.net.client.Cache(), DRAWS);
    data := d.localVerifyData;
    KeysSaid(data);
    f := PreparesOn(u, h, true, DRAWS, d, KeyDraftsOf(data), [Keys(), Last(data)], [PacketOf(Keys()), CHANGE, PacketOf(Last(data))]);
  }

  lemma SaysKeys(u: Setup, h: Honest) returns (f: Honest, data: MessageBody, n: nat, k: nat)
    requires Stage(u, h, SAID5, Flight5, Preparing, 3, Flight4, Waiting, 2) && Unkeyed(h.client.state) && Unkeyed(h.server.state)
    requires Plans(h, [Greeting(), Return()], AnswersSent())
    ensures KeyStage(u, f, data, n, k)
  {
    hide SetupOk, LetsNewerThrough, Heeds, Reached, Greeting, Return, AnswersSent, Keys, Last, CanSeal, HasKeys, Frames, PutBy, Short;
    f, data := MakesKeys(u, h);
    SetupLinks(u);
    PlainSeals(u.clientMtu);
    FinishedShort(data);
    f, n, k := KeysExchanged(u, f, Keys(), Last(data), SAID5);
    assert [Greeting(), Return()] + [Keys(), Last(data)] == KeysSent() + [Last(data)];
  }

  lemma ReceivedOnly(b: Side, passes: Detector, event: IncomingRecords.Event, sent: seq<SentMessage>, link: Link)
    ensures var c := Received(b, passes, event, sent, link); c == b.(trace := c.trace, got := c.got)
  {
    hide Carried, Network.Taken, IncomingRecords.Reacted, EventRecords;
  }

  lemma QueueRead(u: Setup, h: Honest, data: MessageBody, n: nat, k: nat) returns (c: Side)
    requires KeyStage(u, h, data, n, k)
    ensures c == Received(h.net.server, u.passes, IncomingRecords.Queue(Some(PlainSuite(PSK_SUITE))), h.net.client.sent, ToServer(u, h.client))
    ensures Heeds(h.net.client, c, u.clientMtu, 1, SAID7) && Heeds(c, h.net.client, u.serverMtu, 0, SAID7)
  {
    hide LetsNewerThrough, Reached, PutBy, HasKeys, Frames, CanSeal, Heeds, Received, AnswersSent, KeysSent, Last, SoundSuites,
         SoundExchange, KeepsHeader, SharedKey, Opens, WellBehaved, SetupOk, IsPsk, ServerAt, Encrypts;
    SetupLinks(u);
    PlainSeals(u.clientMtu);
    var keys := Some(PlainSuite(PSK_SUITE));
    c := Received(h.net.server, u.passes, IncomingRecords.Queue(keys), h.net.client.sent, ToServer(u, h.client));
    QueueHeard(h.net.client, h.net.server, keys, u.passes, ToServer(u, h.client), Last(data), n, k, SAID7);
    ReceivedOnly(h.net.server, u.passes, IncomingRecords.Queue(keys), h.net.client.sent, ToServer(u, h.client));
    HeedsStill(h.net.server, c, h.net.client, u.serverMtu, 0, SAID7);
  }

  /** Perhaps the Finished was there before the queue is read. */
  lemma KeysThere(u: Setup, h: Honest, data: MessageBody)
    requires SetupOk(u) && Reached(u, h) && h.clientPlan == KeysSent() + [Last(data)] && 3 <= h.net.server.Popped() <= 4
    ensures HasKeysOf(h.net.server.Cache(), data)
  {
    hide SetupOk, Reached, AllOk, HonestSends.Base, OwnPart, Unique, Has, KeysSent, Last;
    ReachedOk(u, h);
    BaseOf(u, h);
    CacheParts(u, h);
    assert h.clientPlan[..3] == KeysSent() && h.clientPlan[..4] == h.clientPlan;
    PlanHeld(h.net.server.Cache(), true, h.clientPlan[..h.net.server.Popped()]);
  }

  /** The server takes its keys and reads its queue. */
  lemma HearsKeys(u: Setup, h: Honest, data: MessageBody, n: nat, k: nat) returns (f: Honest)
    requires KeyStage(u, h, data, n, k)
    ensures InTouch(u, f, 1, 0, SAID7) && f.client == h.client && f.serverPlan == h.serverPlan
    ensures f.server.flight.Flight6? && f.server.phase == Preparing && PskFlights.Keyed(f.server.state) && f.server.state.localVerifyData == []
  {
    hide SetupOk, LetsNewerThrough, Heeds, Reached, Has, HasKeysOf, Flight4Keyed, Flight4Finished, PlainSuite, PutBy, InOrderRun,
         GotFirst, KeysSent, AnswersSent, Last, Received, HasFinished, FlightGenerated, PreparedBy, Emitted, FlightParsed, Table;
    KeysThere(u, h, data);
    var s := TakesKeys(h.server.state, h.net.server.Cache(), data);
    var c := QueueRead(u, h, data, n, k);
    var act := Act.Parse(false, DRAWS.key);
    OneMove(u, h, act);
    f := Acted(u, h, act);
    Then(u, h, [act], f);
    assert f.net == h.net.(server := c);
    HeedsGot(f.net.client, f.net.server, u.clientMtu, 1, SAID7);
    Popped(u, f, true, |f.net.client.sent|);
    PlanKept(u, f, true);
    HasAll(u, f, false);
    FinishedHeld(s, f.net.server.Cache(), data);
  }

  // Flight 6

  lemma SaysLast(u: Setup, h: Honest) returns (f: Honest, data: MessageBody)
    requires IsPsk(u) && InTouch(u, h, 1, 0, SAID7) && h.serverPlan == AnswersSent()
    requires h.server.flight.Flight6? && h.server.phase == Preparing && PskFlights.Keyed(h.server.state) && h.server.state.localVerifyData == []
    requires PskFlights.Keyed(h.client.state)
    ensures SetupOk(u) && Reached(u, f) && f.client == h.client && f.server.phase == Phase.Finished && f.server.flight.Flight6?
    ensures f.serverPlan == AnswersSent() + [Last(data)] && f.net.client.Popped() == 4 && PskFlights.Keyed(f.server.state)
  {
    hide SetupOk, LetsNewerThrough, Heeds, Reached, Numbers, FlightGenerated, Flight0Generated, Flight2Generated, Flight4Generated,
         Flight6Generated, HandshakeStates.Writable, AnswersSent, Last, CanSeal, HasKeys, Frames, Short, PlainSuite, Table, Keys;
    SetupLinks(u);
    PlainSeals(u.serverMtu);
    PlanKept(u, h, false);
    var s := FlightSix(h.server.state, h.net.server.Cache());
    ServerGenerates(h.server.state, SERVER, CRYPTO, h.net.server.Cache(), DRAWS);
    data := s.localVerifyData;
    ClosingSaid(data);
    FinishedShort(data);
    f := PreparesOn(u, h, false, DRAWS, s, ClosingDrafts(data), [Last(data)], [CHANGE, PacketOf(Last(data))]);
    f := ClosingExchanged(u, f, Last(data), SAID7);
  }

  lemma HearsLast(u: Setup, h: Honest, data: MessageBody) returns (f: Honest)
    requires SetupOk(u) && Reached(u, h) && h.client.flight.Flight5? && h.client.phase == Waiting && h.client.state.recvSequence == 3
    requires h.serverPlan == AnswersSent() + [Last(data)] && h.net.client.Popped() == 4
    ensures Reached(u, f) && f.client == h.client.(phase := Phase.Finished) && f.server == h.server
  {
    hide SetupOk, Reached, Has, FullPulled, AnswersSent, Last, FlightParsed, Flight1Parsed, Flight3Parsed, Flight5Parsed;
    HasAll(u, h, true);
    FinishedThere(h.net.client.Cache(), data);
    Accepts(u, h);
    ClientParses(h.client.state, u.client, u.crypto, h.net.client.Cache(), DRAWS.key);
    f := ParsesOn(u, h, true, DRAWS.key, h.client.state, Next(Flight5));
  }

  lemma Accepts(u: Setup, h: Honest)
    requires SetupOk(u) && Reached(u, h) && h.client.flight.Flight5? && h.client.phase == Waiting
    requires FullPulled(h.net.client.Cache(), h.client.state.recvSequence, [SERVER_FINISHED_RULE]).Ok?
    ensures Flight5Parsed(h.client.state, u.crypto, h.net.client.Cache()) == Next(Flight5)
  {
    hide SetupOk, InOrderRun, HonestWorlds.Reaches, FullPulled, Flight5Parsed;
    var acts :| InOrderRun(u, Begin(), acts, h);
    InOrderReaches(u, Begin(), acts, h);
    FinishedAccepted(u, acts, h);
  }

  // The run

  lemma Greets(u: Setup) returns (h: Honest)
    requires SetupOk(u) && LetsNewerThrough(u.passes) && IsPsk(u)
    ensures Stage(u, h, SAID5, Flight5, Preparing, 3, Flight4, Waiting, 2) && Plans(h, [Greeting(), Return()], AnswersSent())
    ensures Unkeyed(h.client.state) && Unkeyed(h.server.state)
  {
    hide SetupOk, LetsNewerThrough, IsPsk, Stage, Plans, MessageAt, HelloWith, NewSuite, Answer, AtMost, Verify;
    h := Begins(u);
    h := SaysHello(u, h);
    h := HearsHello(u, h);
    h := SaysVerify(u, h);
    h := HearsVerify(u, h);
    h := SaysCookie(u, h);
    h := HearsCookie(u, h);
    h := SaysAnswer(u, h);
    h := HearsAnswer(u, h);
  }

  lemma Completes(u: Setup) returns (h: Honest)
    requires SetupOk(u) && LetsNewerThrough(u.passes) && IsPsk(u)
    ensures Reached(u, h)
    ensures h.client.phase == Phase.Finished && h.client.flight.Flight5? && Ready(h.client.state.cipherSuite)
    ensures h.server.phase == Phase.Finished && h.server.flight.Flight6? && Ready(h.server.state.cipherSuite)
  {
    hide SetupOk, LetsNewerThrough, IsPsk, Stage, InTouch, Heeds, Reached, PutBy, Last, KeysSent, AnswersSent, MessageAt, HelloWith,
         Side.Popped;
    h := Greets(u);
    var data, n, k;
    h, data, n, k := SaysKeys(u, h);
    h := HearsKeys(u, h, data, n, k);
    h, data := SaysLast(u, h);
    h := HearsLast(u, h, data);
  }

  lemma HasKeyed(u: Setup, h: Honest)
    requires AllOk(u, h) && h.client.flight.Flight5? && h.client.phase == Phase.Finished
    ensures h.keyed.Some?
  {
    hide SetupOk, HonestSends.Base, FirstHello, Hellos, KeyedShape, ServerScript, ServerHeard, ServerKeys, ServerDone, KeyedOk,
         ClientAnswered;
  }

  /** Whatever the two MTUs, and whatever replay detector that lets newer numbers through: if all that is sent
      arrives once and in order, there is a run that ends with both sides finished on shared keys. */
  lemma InOrderCompletes(clientMtu: Mtu, serverMtu: Mtu, passes: Detector) returns (acts: seq<Act>, h: Honest)
    requires clientMtu + HANDSHAKE_HEADER_LENGTH < 0x1_0000 && serverMtu + HANDSHAKE_HEADER_LENGTH < 0x1_0000
    requires LetsNewerThrough(passes)
    ensures var u := PskSetup(clientMtu, serverMtu, passes);
            SetupOk(u) && InOrderRun(u, Begin(), acts, h) && HonestWorlds.Reaches(u, Begin(), acts, h)
            && h.client.phase == Phase.Finished && h.client.flight.Flight5? && Ready(h.client.state.cipherSuite)
            && h.server.phase == Phase.Finished && h.server.flight.Flight6? && Ready(h.server.state.cipherSuite)
            && h.keyed.Some? && h.server.state.masterSecret == h.client.state.masterSecret
  {
    hide SetupOk, LetsNewerThrough, InOrderRun, HonestWorlds.Reaches, Ready, AllOk, KnownSuites, SharedKey, KeysMatch, Begin;
    var u := PskSetup(clientMtu, serverMtu, passes);
    PskExists(clientMtu, serverMtu, passes);
    h := Completes(u);
    acts :| InOrderRun(u, Begin(), acts, h);
    InOrderReaches(u, Begin(), acts, h);
    ReachedOk(u, h);
    HasKeyed(u, h);
    KeysAreShared(u, acts, h);
  }

  lemma PskExists(clientMtu: Mtu, serverMtu: Mtu, passes: Detector)
    requires clientMtu + HANDSHAKE_HEADER_LENGTH < 0x1_0000 && serverMtu + HANDSHAKE_HEADER_LENGTH < 0x1_0000
    ensures SetupOk(PskSetup(clientMtu, serverMtu, passes))
  {
    hide SetupOk;
    SetupExists(CLIENT, SERVER, clientMtu, serverMtu, passes);
  }
}
