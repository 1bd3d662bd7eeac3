/** One handshake with a shared key, flight by flight: what each side makes of the messages it has. */
module PskFlights {
  import opened Wrappers
  import opened Bytes
  import opened Headers
  import opened Extensions
  import opened Messages
  import opened Handshakes
  import opened HandshakeCaches
  import opened Sending
  import opened Reassembly
  import opened Delivery
  import opened HandshakeStates
  import opened ServerFlights
  import opened ClientFlights
  import opened ClientFinished
  import HonestWorlds

  const PSK_SUITE: U16 := 0x00a8

  const COOKIE: Bytes := [7, 7, 7, 7, 7, 7, 7, 7, 7, 7, 7, 7, 7, 7, 7, 7, 7, 7, 7, 7]

  const DRAWS := Draws(COOKIE, ZERO_RANDOM, 0)

  const CRYPTO := HonestWorlds.PLAIN_CRYPTO

  /** A server with a shared key and no certificates. */
  const SERVER := Config(Some(_ => Ok([1])), None, [PSK_SUITE], [], Disable, [], [], NoClientCert, None)

  /** A client with the same key, which it names. */
  const CLIENT := SERVER.(pskHint := Some([1]))

  // The messages

  function HelloWith(cookie: Bytes): Message {
    HelloOf(ZERO_RANDOM, cookie, CLIENT)
  }

  const VERIFY := HelloVerifyRequestMessage(PROTOCOL_VERSION1_2, COOKIE)

  const ANSWER := ServerHelloMessage(ServerHelloBody(PROTOCOL_VERSION1_2, ZERO_RANDOM, PSK_SUITE, NULL_COMPRESSION, [RenegotiationInfo(0)]))

  const EXCHANGE := ClientKeyExchangeMessage([1], [])

  /** It can be written, and is read back as it was. */
  predicate Plain(message: Message) {
    WellFormed(message) && Messages.Transmitted(message) == message
  }

  lemma HelloFits(cookie: Bytes)
    requires |cookie| <= COOKIE_LENGTH
    ensures Plain(HelloWith(cookie)) && Size(HelloWith(cookie)) <= 100
  {
    hide MarshalAll, SizeOfAll;
    HelloExtensionsAre();
    MarshalledSizeOfAll(ClientHelloExtensions(CLIENT));
  }

  lemma HelloExtensionsAre()
    ensures ClientHelloExtensions(CLIENT) == [SupportedSignatureAlgorithms([]), RenegotiationInfo(0)]
    ensures ClientHelloExtensions(CLIENT)[1..] == [RenegotiationInfo(0)]
    ensures SizeOfAll(ClientHelloExtensions(CLIENT)) == 11
  {
    assert SizeOfAll([RenegotiationInfo(0)]) == 5 + SizeOfAll([RenegotiationInfo(0)][1..]);
  }

  lemma AnswersFit()
    ensures Plain(VERIFY) && Size(VERIFY) <= 100
    ensures Plain(ANSWER) && Size(ANSWER) <= 100
    ensures Plain(ServerHelloDoneMessage) && Size(ServerHelloDoneMessage) <= 100
  {
  }

  lemma ExchangeFits()
    ensures Plain(EXCHANGE) && Size(EXCHANGE) <= 100
  {
  }

  lemma FinishedFits(data: Bytes)
    requires |data| < 0x100_0000
    ensures Plain(FinishedMessage(data)) && Size(FinishedMessage(data)) == |data|
  {
  }

  // What is said

  function MessageAt(message: Message, number: U16, epoch: U16): SentMessage
    requires WellFormed(message)
  {
    SentMessage(Numbered(message, number), epoch)
  }

  function Greeting(): SentMessage {
    HelloFits([]);
    MessageAt(HelloWith([]), 0, 0)
  }

  function Return(): SentMessage {
    HelloFits(COOKIE);
    MessageAt(HelloWith(COOKIE), 1, 0)
  }

  function Verify(): SentMessage {
    AnswersFit();
    MessageAt(VERIFY, 0, 0)
  }

  function Answer(): (r: seq<SentMessage>)
    ensures |r| == 2
  {
    AnswersFit();
    [MessageAt(ANSWER, 1, 0), MessageAt(ServerHelloDoneMessage, 2, 0)]
  }

  function Keys(): SentMessage {
    ExchangeFits();
    MessageAt(EXCHANGE, 2, 0)
  }

  function Last(data: MessageBody): SentMessage {
    FinishedFits(data);
    MessageAt(FinishedMessage(data), 3, 1)
  }

  // What a cache holds of one side

  ghost predicate HasOnly(cache: seq<Item>, isClient: bool, items: seq<Item>) {
    Unique(cache) && forall c :: c in cache && c.isClient == isClient <==> c in items
  }

  /** Exactly the messages of a plan. */
  ghost predicate Has(cache: seq<Item>, isClient: bool, plan: seq<SentMessage>) {
    HasOnly(cache, isClient, ItemsOf(plan, isClient))
  }

  lemma ItemReads(message: Message, number: U16, epoch: U16, isClient: bool)
    requires Plain(message)
    ensures var item := ItemOf(MessageAt(message, number, epoch).h, epoch, isClient);
            item == Item(message.Type(), isClient, epoch, number, item.data)
            && UnmarshalHandshake(item.data).Ok?
            && UnmarshalHandshake(item.data).value.header.messageSequence == number
            && UnmarshalHandshake(item.data).value.message == message
            && forall start: int :: HandshakeCaches.InTurn(item, start) == if WrappedU16(start) == number then Ok(message) else Err(MessageGap)
  {
    hide WellFormed, UnmarshalHandshake, RawHandshake.Whole, Messages.Transmitted, WrappedU16, Marshal;
    HandshakeRoundTrip(message, number);
  }

  lemma BestHeld(cache: seq<Item>, items: seq<Item>, r: Rule, i: nat)
    requires HasOnly(cache, r.isClient, items) && i < |items| && Matches(items[i], r)
    requires forall j :: 0 <= j < |items| && j != i && Matches(items[j], r) ==> items[j].messageSequence < items[i].messageSequence
    ensures Best(cache, r) == Some(items[i])
  {
    hide Best;
    BestIff(cache, r);
    assert items[i] in items;
    forall d | d in cache && Matches(d, r)
      ensures d.messageSequence <= items[i].messageSequence
    {
      var j :| 0 <= j < |items| && items[j] == d;
    }
  }

  lemma NoneHeld(cache: seq<Item>, items: seq<Item>, r: Rule)
    requires HasOnly(cache, r.isClient, items) && forall c :: c in items ==> !Matches(c, r)
    ensures Best(cache, r).None?
  {
    hide Best;
    BestIff(cache, r);
  }

  // The server

  predicate ServerAt(s: State, recv: int) {
    && !s.isClient && s.recvSequence == recv && s.cookie == COOKIE
    && s.localRandom == ZERO_RANDOM && s.remoteRandom == ZERO_RANDOM
    && !s.extendedMasterSecret && s.srtpProfile == UNSUPPORTED_SRTP_PROFILE
    && s.peerCertificates == [] && s.localVerifyData == []
  }

  /** The suite is chosen and has no keys. */
  ghost predicate Unkeyed(s: State) {
    s.cipherSuite == Some(NewSuite(PSK_SUITE))
  }

  ghost predicate Keyed(s: State) {
    s.cipherSuite == Some(HonestWorlds.PlainSuite(PSK_SUITE))
  }

  lemma HelloPulled(cache: seq<Item>, plan: seq<SentMessage>, cookie: Bytes, number: U16)
    requires |cookie| <= COOKIE_LENGTH && WellFormed(HelloWith(cookie)) && Has(cache, true, plan)
    requires |plan| == number as int + 1 && plan[number] == MessageAt(HelloWith(cookie), number, 0)
    requires forall j: nat :: j < number ==> plan[j].h.sequence == j
    ensures FullPulled(cache, number, [CLIENT_HELLO_RULE]) == Ok((number as int + 1, map[ClientHello := HelloWith(cookie)]))
  {
    hide HasOnly, FullPulled, UnmarshalHandshake, WellFormed, HandshakeCaches.InTurn, Best, RawHandshake.Whole, Numbered, Size;
    HelloFits(cookie);
    ItemReads(HelloWith(cookie), number, 0, true);
    BestHeld(cache, ItemsOf(plan, true), CLIENT_HELLO_RULE, number);
    OnePulled(cache, number, CLIENT_HELLO_RULE);
  }

  /** The first hello: the server picks the suite. */
  lemma ReadsHello(s: State, cache: seq<Item>) returns (t: State)
    requires ServerAt(s, 0) && s.localKeypair.None? && Has(cache, true, [Greeting()])
    ensures Flight0Parsed(s, SERVER, CRYPTO, cache, DRAWS.key) == (t, Next(Flight2)) && ServerAt(t, 1) && Unkeyed(t)
  {
    hide Has, FullPulled, WellFormed, HelloExtensions, Numbered, Size, Transmitted, HonestWorlds.PlainSuite, ClientHelloExtensions;
    HelloFits([]);
    HelloPulled(cache, [Greeting()], [], 0);
    NothingExtended(s.(recvSequence := 1, remoteRandom := ZERO_RANDOM, cipherSuite := Some(NewSuite(PSK_SUITE))));
    t := Flight0Parsed(s, SERVER, CRYPTO, cache, DRAWS.key).0;
  }

  lemma NothingExtended(s: State)
    ensures HelloExtensions(s, SERVER, ClientHelloExtensions(CLIENT)) == (s, None)
  {
    HelloExtensionsAre();
    assert [RenegotiationInfo(0)][1..] == [];
    assert HelloExtensions(s, SERVER, [RenegotiationInfo(0)]) == HelloExtensions(s, SERVER, []);
  }

  lemma FlightTwo(s: State)
    requires ServerAt(s, 1)
    ensures Writable([MessageDraft(0, VERIFY)])
    ensures Flight2Generated(s) == (s.(sendSequence := 0), Drafts([MessageDraft(0, VERIFY)]))
  {
    hide Messages.Transmitted, WellFormed, Size;
    AnswersFit();
  }

  /** The second hello brings the cookie back. */
  lemma ReadsCookie(s: State, cache: seq<Item>)
    requires ServerAt(s, 1) && Has(cache, true, [Greeting(), Return()])
    ensures Flight2Parsed(s, SERVER, CRYPTO, cache, DRAWS.key) == (s.(recvSequence := 2), Next(Flight4))
  {
    hide Has, FullPulled, WellFormed, Marshal, Flight0Parsed, Size;
    HelloFits(COOKIE);
    HelloPulled(cache, [Greeting(), Return()], COOKIE, 1);
  }

  lemma FlightFour(s: State)
    requires ServerAt(s, 2) && Unkeyed(s)
    ensures Writable([MessageDraft(0, ANSWER), MessageDraft(0, ServerHelloDoneMessage)])
    ensures Flight4Generated(s, SERVER, CRYPTO)
         == (s, Drafts([MessageDraft(0, ANSWER), MessageDraft(0, ServerHelloDoneMessage)]))
  {
    hide WellFormed, Messages.Transmitted, Size;
    AnswersFit();
    assert ServerHelloExtensions(s, SERVER) == [RenegotiationInfo(0)];
    assert [MessageDraft(0, ANSWER)] + [] + [MessageDraft(0, ServerHelloDoneMessage)]
        == [MessageDraft(0, ANSWER), MessageDraft(0, ServerHelloDoneMessage)];
  }

  /** Two hellos and the key exchange. */
  function KeysSent(): (plan: seq<SentMessage>)
    ensures |plan| == 3
  {
    [Greeting(), Return(), Keys()]
  }

  ghost predicate HasKeysOf(cache: seq<Item>, data: MessageBody) {
    Has(cache, true, KeysSent()) || Has(cache, true, KeysSent() + [Last(data)])
  }

  lemma SentTypes(data: MessageBody)
    ensures KeysSent()[0].h.typ == ClientHello && KeysSent()[1].h.typ == ClientHello && KeysSent()[2].h.typ == ClientKeyExchange
    ensures Last(data).h.typ == HandshakeType.Finished && Last(data).h.sequence == 3 && Last(data).epoch == 1
    ensures KeysSent()[0].h.sequence == 0 && KeysSent()[1].h.sequence == 1 && KeysSent()[2].h.sequence == 2
    ensures forall m :: m in KeysSent() ==> m.epoch == 0
  {
    hide WellFormed, Marshal;
  }

  lemma KeysPulled(cache: seq<Item>, data: MessageBody)
    requires HasKeysOf(cache, data)
    ensures FullPulled(cache, 2, CLIENT_KEY_RULES) == Ok((3, map[ClientKeyExchange := EXCHANGE]))
  {
    hide HasOnly, WellFormed, UnmarshalHandshake, Best, HandshakeCaches.InTurn, FullPulled, RawHandshake.Whole, Numbered, Greeting,
         Return, Last, Size, ItemsOf;
    var plan := if Has(cache, true, KeysSent()) then KeysSent() else KeysSent() + [Last(data)];
    var items := ItemsOf(plan, true);
    SentTypes(data);
    ExchangeFits();
    ItemReads(EXCHANGE, 2, 0, true);
    NoneHeld(cache, items, CLIENT_KEY_RULES[0]);
    BestHeld(cache, items, CLIENT_KEY_RULES[1], 2);
    NoneHeld(cache, items, CLIENT_KEY_RULES[2]);
    ThreePulled(cache, items[2]);
  }

  lemma ThreePulled(cache: seq<Item>, item: Item)
    requires Best(cache, CLIENT_KEY_RULES[0]).None? && Best(cache, CLIENT_KEY_RULES[1]) == Some(item)
    requires Best(cache, CLIENT_KEY_RULES[2]).None? && HandshakeCaches.InTurn(item, 2) == Ok(EXCHANGE)
    ensures FullPulled(cache, 2, CLIENT_KEY_RULES) == Ok((3, map[ClientKeyExchange := EXCHANGE]))
  {
    hide Best, HandshakeCaches.InTurn;
    var two, one := CLIENT_KEY_RULES[1..], CLIENT_KEY_RULES[1..][1..];
    var none: seq<Rule> := one[1..];
    var ci: map<HandshakeType, Item> := map[ClientKeyExchange := item];
    var out: map<HandshakeType, Message> := map[ClientKeyExchange := EXCHANGE];
    assert Collected(cache, one, ci) == Collected(cache, none, ci) == Ok(ci);
    assert Collected(cache, two, map[]) == Ok(ci);
    assert Collected(cache, CLIENT_KEY_RULES, map[]) == Ok(ci);
    assert InSequence(one, ci, 3, out) == InSequence(none, ci, 3, out) == Ok((3, out));
    assert InSequence(two, ci, 2, map[]) == Ok((3, out));
    assert InSequence(CLIENT_KEY_RULES, ci, 2, map[]) == Ok((3, out));
  }

  /** The keys come from the shared key, the randoms and the library. */
  lemma TakesKeys(s: State, cache: seq<Item>, data: MessageBody) returns (t: State)
    requires ServerAt(s, 2) && Unkeyed(s) && HasKeysOf(cache, data)
    ensures Flight4Keyed(s, SERVER, CRYPTO, cache) == (t, Continue(3)) && t.masterSecret != [] && Keyed(t) && ServerAt(t, 2)
    ensures t.sendSequence == s.sendSequence
  {
    hide HasKeysOf, FullPulled, Merged, RandomBytes, WellFormed, HonestWorlds.PlainSuite;
    KeysPulled(cache, data);
    t := Flight4Keyed(s, SERVER, CRYPTO, cache).0;
  }

  lemma FinishedHeld(s: State, cache: seq<Item>, data: MessageBody)
    requires Has(cache, true, KeysSent() + [Last(data)])
    ensures Flight4Finished(s, SERVER, cache, 3) == (s.(recvSequence := 4), Next(Flight6))
    ensures HasFinished(cache, 3, data)
  {
    hide HasOnly, WellFormed, UnmarshalHandshake, Best, HandshakeCaches.InTurn, FullPulled, RawHandshake.Whole, Numbered, KeysSent,
         Size, Message.Type;
    SentTypes(data);
    FinishedFits(data);
    ItemReads(FinishedMessage(data), 3, 1, true);
    BestHeld(cache, ItemsOf(KeysSent() + [Last(data)], true), CLIENT_FINISHED_RULE, 3);
    OnePulled(cache, 3, CLIENT_FINISHED_RULE);
  }

  lemma FlightSix(s: State, cache: seq<Item>) returns (t: State)
    requires s.cipherSuite.Some? && s.localVerifyData == []
    ensures t == s.(localVerifyData := t.localVerifyData) && |t.localVerifyData| <= 12
    ensures Flight6Generated(s, CRYPTO, cache) == (t, Drafts(ClosingDrafts(t.localVerifyData)))
    ensures Writable(ClosingDrafts(t.localVerifyData))
  {
    hide Merged;
    t := Flight6Generated(s, CRYPTO, cache).0;
  }

  function ClosingDrafts(data: Bytes): seq<Draft> {
    [ChangeCipherSpecDraft, MessageDraft(1, FinishedMessage(data))]
  }

  // The client

  predicate ClientAt(c: State, recv: int) {
    && c.isClient && c.recvSequence == recv && c.localRandom == ZERO_RANDOM
    && !c.extendedMasterSecret && c.srtpProfile == UNSUPPORTED_SRTP_PROFILE
    && !c.remoteRequestedCertificate && c.peerCertificates == [] && c.localVerifyData == []
  }

  lemma FlightOne(c: State) returns (d: State)
    requires ClientAt(c, 0)
    ensures Flight1Generated(c, CLIENT, DRAWS) == (d, Drafts([MessageDraft(0, HelloWith([]))]))
    ensures ClientAt(d, 0) && d.sendSequence == c.sendSequence && Writable([MessageDraft(0, HelloWith([]))])
  {
    hide WellFormed, Messages.Transmitted;
    HelloFits([]);
    d := Flight1Generated(c, CLIENT, DRAWS).0;
  }

  lemma FlightThree(c: State)
    requires ClientAt(c, 1) && c.cookie == COOKIE
    ensures Flight3Generated(c, CLIENT) == (c, Drafts([MessageDraft(0, HelloWith(COOKIE))]))
    ensures Writable([MessageDraft(0, HelloWith(COOKIE))])
  {
    hide WellFormed, Messages.Transmitted;
    HelloFits(COOKIE);
  }

  lemma ReadsVerify(c: State, cache: seq<Item>)
    requires ClientAt(c, 0) && Has(cache, false, [Verify()])
    ensures Flight1Parsed(c, CLIENT, CRYPTO, cache, DRAWS.key) == (c.(cookie := COOKIE, recvSequence := 1), Next(Flight3))
  {
    hide HasOnly, WellFormed, UnmarshalHandshake, Best, HandshakeCaches.InTurn, FullPulled, RawHandshake.Whole, Numbered, Flight3Parsed,
         Size, Transmitted, HonestWorlds.PlainSuite, ItemsOf;
    AnswersFit();
    ItemReads(VERIFY, 0, 0, false);
    var items := ItemsOf([Verify()], false);
    BestHeld(cache, items, VERIFY_RULE, 0);
    NoneHeld(cache, items, FIRST_ANSWER_RULES[1]);
    VerifyPulled(cache, items[0]);
  }

  lemma VerifyPulled(cache: seq<Item>, item: Item)
    requires Best(cache, VERIFY_RULE) == Some(item) && Best(cache, FIRST_ANSWER_RULES[1]).None?
    requires HandshakeCaches.InTurn(item, 0) == Ok(VERIFY)
    ensures FullPulled(cache, 0, FIRST_ANSWER_RULES) == Ok((1, map[HelloVerifyRequest := VERIFY]))
  {
    hide Best, HandshakeCaches.InTurn;
    var one := FIRST_ANSWER_RULES[1..];
    var none: seq<Rule> := one[1..];
    var ci: map<HandshakeType, Item> := map[HelloVerifyRequest := item];
    var out: map<HandshakeType, Message> := map[HelloVerifyRequest := VERIFY];
    assert Collected(cache, one, ci) == Collected(cache, none, ci) == Ok(ci);
    assert Collected(cache, FIRST_ANSWER_RULES, map[]) == Ok(ci);
    assert InSequence(one, ci, 1, out) == InSequence(none, ci, 1, out) == Ok((1, out));
    assert InSequence(FIRST_ANSWER_RULES, ci, 0, map[]) == Ok((1, out));
  }

  lemma NoVerifyAgain(cache: seq<Item>, item: Item)
    requires Best(cache, VERIFY_RULE) == Some(item) && HandshakeCaches.InTurn(item, 1).Err?
    ensures FullPulled(cache, 1, [VERIFY_RULE]).Err?
  {
    hide Best, HandshakeCaches.InTurn;
    assert [VERIFY_RULE][1..] == [];
    var ci: map<HandshakeType, Item> := map[HelloVerifyRequest := item];
    assert Collected(cache, [VERIFY_RULE], map[]) == Collected(cache, [], ci) == Ok(ci);
  }

  lemma AnswerPulled(cache: seq<Item>, hello: Item, done: Item)
    requires Best(cache, AnswerRules(CLIENT)[0]) == Some(hello) && Best(cache, AnswerRules(CLIENT)[1]).None?
    requires Best(cache, AnswerRules(CLIENT)[2]) == Some(done)
    requires HandshakeCaches.InTurn(hello, 1) == Ok(ANSWER) && HandshakeCaches.InTurn(done, 2) == Ok(ServerHelloDoneMessage)
    ensures FullPulled(cache, 1, AnswerRules(CLIENT))
         == Ok((3, map[ServerHello := ANSWER, ServerHelloDone := ServerHelloDoneMessage]))
  {
    hide Best, HandshakeCaches.InTurn;
    var rules := AnswerRules(CLIENT);
    var two, one := rules[1..], rules[1..][1..];
    var none: seq<Rule> := one[1..];
    var ch: map<HandshakeType, Item> := map[ServerHello := hello];
    var ci: map<HandshakeType, Item> := map[ServerHello := hello, ServerHelloDone := done];
    var oh: map<HandshakeType, Message> := map[ServerHello := ANSWER];
    var out: map<HandshakeType, Message> := map[ServerHello := ANSWER, ServerHelloDone := ServerHelloDoneMessage];
    assert ch[ServerHelloDone := done] == ci && oh[ServerHelloDone := ServerHelloDoneMessage] == out;
    assert Collected(cache, one, ch) == Collected(cache, none, ci) == Ok(ci);
    assert Collected(cache, two, ch) == Ok(ci);
    assert Collected(cache, rules, map[]) == Ok(ci);
    assert InSequence(one, ci, 2, oh) == InSequence(none, ci, 3, out) == Ok((3, out));
    assert InSequence(two, ci, 2, oh) == Ok((3, out));
    assert InSequence(rules, ci, 1, map[]) == Ok((3, out));
  }

  /** What the server says before it has keys. */
  function AnswersSent(): (plan: seq<SentMessage>)
    ensures |plan| == 3
  {
    [Verify()] + Answer()
  }

  lemma AnswerTypes()
    ensures AnswersSent()[0].h.typ == HelloVerifyRequest && AnswersSent()[1].h.typ == ServerHello && AnswersSent()[2].h.typ == ServerHelloDone
    ensures AnswersSent()[0].h.sequence == 0 && AnswersSent()[1].h.sequence == 1 && AnswersSent()[2].h.sequence == 2
    ensures forall m :: m in AnswersSent() ==> m.epoch == 0
    ensures Plain(VERIFY) && Plain(ANSWER) && Plain(ServerHelloDoneMessage)
    ensures AnswersSent() == [MessageAt(VERIFY, 0, 0), MessageAt(ANSWER, 1, 0), MessageAt(ServerHelloDoneMessage, 2, 0)]
  {
    hide WellFormed, Marshal, Messages.Transmitted;
    AnswersFit();
  }

  /** The server's hello and its end: the client takes over the suite. */
  lemma ReadsAnswer(c: State, cache: seq<Item>)
    requires ClientAt(c, 1) && Has(cache, false, AnswersSent())
    ensures Flight3Parsed(c, CLIENT, CRYPTO, cache, DRAWS.key)
         == (c.(recvSequence := 3, cipherSuite := Some(NewSuite(PSK_SUITE)), remoteRandom := ZERO_RANDOM), Next(Flight5))
  {
    hide Has, FullPulled, WellFormed, AnswerExtensions, VerifyRequested, ExchangeHandled, AnswersSent;
    AnswersPulled(cache);
    NothingAnswered(c.(recvSequence := 3));
  }

  lemma NothingAnswered(c: State)
    ensures AnswerExtensions(c, CLIENT, [RenegotiationInfo(0)]) == (c, None)
  {
    assert [RenegotiationInfo(0)][1..] == [];
    assert AnswerExtensions(c, CLIENT, []) == (c, None);
  }

  lemma AnswersPulled(cache: seq<Item>)
    requires Has(cache, false, AnswersSent())
    ensures FullPulled(cache, 1, [VERIFY_RULE]).Err?
    ensures FullPulled(cache, 1, AnswerRules(CLIENT)) == Ok((3, map[ServerHello := ANSWER, ServerHelloDone := ServerHelloDoneMessage]))
    ensures Best(cache, SERVER_KEY_EXCHANGE_RULE).None?
  {
    hide HasOnly, WellFormed, UnmarshalHandshake, Best, HandshakeCaches.InTurn, FullPulled, RawHandshake.Whole, Numbered, AnswersSent,
         Messages.Transmitted, ItemsOf, ItemOf, Plain;
    AnswerTypes();
    ItemReads(VERIFY, 0, 0, false);
    ItemReads(ANSWER, 1, 0, false);
    ItemReads(ServerHelloDoneMessage, 2, 0, false);
    var items := ItemsOf(AnswersSent(), false);
    BestHeld(cache, items, VERIFY_RULE, 0);
    NoVerifyAgain(cache, items[0]);
    BestHeld(cache, items, AnswerRules(CLIENT)[0], 1);
    NoneHeld(cache, items, AnswerRules(CLIENT)[1]);
    NoneHeld(cache, items, SERVER_KEY_EXCHANGE_RULE);
    BestHeld(cache, items, AnswerRules(CLIENT)[2], 2);
    AnswerPulled(cache, items[1], items[2]);
  }

  function KeyDraftsOf(data: Bytes): seq<Draft> {
    [MessageDraft(0, EXCHANGE), ChangeCipherSpecDraft, MessageDraft(1, FinishedMessage(data))]
  }

  /** The key exchange, the change of epoch and the Finished. */
  lemma FlightFive(c: State, cache: seq<Item>) returns (d: State)
    requires ClientAt(c, 3) && Unkeyed(c) && Best(cache, SERVER_KEY_EXCHANGE_RULE).None?
    ensures Flight5Generated(c, CLIENT, CRYPTO, cache, DRAWS.key) == (d, Drafts(KeyDraftsOf(d.localVerifyData)))
    ensures Writable(KeyDraftsOf(d.localVerifyData)) && Keyed(d) && |d.localVerifyData| <= 12
    ensures d.sendSequence == c.sendSequence && d.recvSequence == 3
  {
    hide Best, ExchangeAgain, RandomBytes, NumberedText, Merged, WellFormed, HonestWorlds.PlainSuite, Size, Transmitted, Plain;
    ExchangeTaken(c, cache);
    ExchangeFits();
    d := Flight5Generated(c, CLIENT, CRYPTO, cache, DRAWS.key).0;
    assert ClientFlights.KeyDrafts(c, CLIENT) == [MessageDraft(0, EXCHANGE)];
    assert [MessageDraft(0, EXCHANGE)] + [] + ClosingDrafts(d.localVerifyData) == KeyDraftsOf(d.localVerifyData);
    FinishedFits(d.localVerifyData);
  }

  lemma ExchangeTaken(c: State, cache: seq<Item>)
    requires Best(cache, SERVER_KEY_EXCHANGE_RULE).None?
    ensures ExchangeAgain(c, CLIENT, CRYPTO, cache, DRAWS.key) == (c.(identityHint := [], preMasterSecret := [1]), NO_EXCHANGE, None)
  {
    hide Best, Merged, UnmarshalHandshake;
    NothingMerged(cache);
  }

  lemma NothingMerged(cache: seq<Item>)
    requires Best(cache, SERVER_KEY_EXCHANGE_RULE).None?
    ensures Merged(cache, [SERVER_KEY_EXCHANGE_RULE]) == []
  {
    hide Best;
    assert [SERVER_KEY_EXCHANGE_RULE][1..] == [];
    assert Pulled(cache, [SERVER_KEY_EXCHANGE_RULE]) == [];
  }

  /** The server's Finished is there. */
  lemma FinishedThere(cache: seq<Item>, data: MessageBody)
    requires Has(cache, false, AnswersSent() + [Last(data)])
    ensures FullPulled(cache, 3, [SERVER_FINISHED_RULE]).Ok?
  {
    hide HasOnly, WellFormed, UnmarshalHandshake, Best, HandshakeCaches.InTurn, FullPulled, RawHandshake.Whole, Numbered, AnswersSent,
         Messages.Transmitted, Size, ItemsOf, Plain;
    AnswerTypes();
    FinishedFits(data);
    ItemReads(FinishedMessage(data), 3, 1, false);
    BestHeld(cache, ItemsOf(AnswersSent() + [Last(data)], false), SERVER_FINISHED_RULE, 3);
    OnePulled(cache, 3, SERVER_FINISHED_RULE);
  }
}
