/** What the transcripts of an honest handshake consist of, message by message (section 7.4.9 of RFC
    5246, section 3 of RFC 7627). */
module HonestTranscripts {
  import opened Wrappers
  import opened Bytes
  import opened Headers
  import opened Extensions
  import opened Messages
  import opened Handshakes
  import opened HandshakeCaches
  import Reading
  import opened Reassembly
  import opened TableTexts
  import opened HandshakeStates
  import opened ServerFlights
  import opened ClientFlights
  import opened Planning
  import opened HonestWorlds
  import opened HonestSends
  import opened HonestScripts
  import opened HonestAnswers
  import opened HonestPredictions
  import opened HonestServerKeys
  import opened HonestHandshakes
  import opened HonestFinished

  /** The messages one after the other, each as a single fragment. */
  ghost function Written(ms: seq<SentMessage>): Bytes {
    if ms == [] then [] else ms[0].h.Whole() + Written(ms[1..])
  }

  lemma {:induction false} WrittenConcat(a: seq<SentMessage>, b: seq<SentMessage>)
    ensures Written(a + b) == Written(a) + Written(b)
    decreases |a|
  {
    hide RawHandshake.Whole;
    if a == [] {
      assert a + b == b;
    } else {
      assert (a + b)[1..] == a[1..] + b;
      WrittenConcat(a[1..], b);
    }
  }

  lemma WrittenOne(m: SentMessage)
    ensures Written([m]) == m.h.Whole()
  {
    hide RawHandshake.Whole;
    assert [m][1..] == [] && m.h.Whole() + [] == m.h.Whole();
  }

  /** What is predicted of drafts is what they are as messages. */
  lemma {:induction false} PredictedIsWritten(drafts: seq<Draft>, next: nat)
    requires HandshakeStates.Writable(drafts)
    ensures NumberedText(drafts, next) == Written(SentOf(drafts, next))
    decreases |drafts|
  {
    hide RawHandshake.Whole, WellFormed, Numbered;
    if drafts != [] {
      assert drafts[0] in drafts && forall d :: d in drafts[1..] ==> d in drafts;
      PredictedIsWritten(drafts[1..], next + if drafts[0].MessageDraft? then 1 else 0);
      if drafts[0].MessageDraft? {
        var m := SentMessage(Numbered(drafts[0].message, WrappedU16(next)), drafts[0].epoch);
        assert SentOf(drafts, next) == [m] + SentOf(drafts[1..], next + 1);
        assert SentOf(drafts, next)[1..] == SentOf(drafts[1..], next + 1);
      }
    }
  }

  // Flight 4

  /** The place of a message type in flight 4. */
  function Place(t: HandshakeType): nat {
    match t
    case ServerHello => 0
    case Certificate => 1
    case ServerKeyExchange => 2
    case CertificateRequest => 3
    case ServerHelloDone => 4
    case _ => 5
  }

  const SERVER_RULES: seq<Rule> := SERVER_FLIGHT_RULES[1..]

  ghost predicate InPlace(ms: seq<SentMessage>, from: nat) {
    (forall m :: m in ms ==> from <= Place(m.h.typ) < 5 && m.epoch == 0)
    && (forall i, j :: 0 <= i < j < |ms| ==> Place(ms[i].h.typ) < Place(ms[j].h.typ))
  }

  lemma PlaceOfRule(k: nat)
    requires k < 5
    ensures |SERVER_RULES| == 5
    ensures !SERVER_RULES[k].isClient && SERVER_RULES[k].epoch == 0
    ensures forall t: HandshakeType :: Place(t) == k <==> t == SERVER_RULES[k].typ
  {
    assert SERVER_RULES == [Rule(ServerHello, 0, false, false), Rule(Certificate, 0, false, false),
                            Rule(ServerKeyExchange, 0, false, false), Rule(CertificateRequest, 0, false, false),
                            Rule(ServerHelloDone, 0, false, false)];
  }

  /** Rules in the order of the messages find each message once. */
  lemma {:induction false} FoundInPlace(client: seq<SentMessage>, before: seq<SentMessage>, ms: seq<SentMessage>, k: nat)
    requires k <= 5 && |SERVER_RULES| == 5 && InPlace(ms, k)
    requires forall m :: m in before ==> Place(m.h.typ) < k || Place(m.h.typ) == 5
    ensures Text(client, before + ms, SERVER_RULES[k..]) == Written(ms)
    decreases 5 - k
  {
    hide LastOf, RawHandshake.Whole;
    if k == 5 {
      assert ms == [];
    } else {
      var r := SERVER_RULES[k];
      PlaceOfRule(k);
      assert SERVER_RULES[k..][1..] == SERVER_RULES[k + 1..];
      if ms != [] && Place(ms[0].h.typ) == k {
        var first, rest := ms[0], ms[1..];
        LastOfSnoc(before, first);
        LastOfExtended(before + [first], rest, r.typ, 0);
        assert before + ms == before + [first] + rest;
        FoundInPlace(client, before + [first], rest, k + 1);
      } else {
        LastOfNone(before + ms, r.typ, 0);
        FoundInPlace(client, before, ms, k + 1);
      }
    }
  }

  function PlaceOf(d: Draft): nat {
    match d
    case MessageDraft(_, message) => Place(message.Type())
    case ChangeCipherSpecDraft => 5
  }

  ghost predicate Ordered(drafts: seq<Draft>, low: nat, high: nat) {
    (forall d :: d in drafts ==> low <= PlaceOf(d) < high)
    && (forall i, j :: 0 <= i < j < |drafts| ==> PlaceOf(drafts[i]) < PlaceOf(drafts[j]))
  }

  lemma OrderedConcat(a: seq<Draft>, b: seq<Draft>, low: nat, middle: nat, high: nat)
    requires Ordered(a, low, middle) && Ordered(b, middle, high) && low <= middle <= high
    ensures Ordered(a + b, low, high)
  {
    hide PlaceOf;
  }

  lemma OrderedOne(d: Draft)
    ensures Ordered([d], PlaceOf(d), PlaceOf(d) + 1)
  {
  }

  lemma ShareOrdered(s: State, crypto: Crypto, certificate: LocalCertificate, scheme: SignatureHashAlgorithm)
    ensures KeyShare(s, crypto, certificate, scheme).Ok? ==> Ordered(KeyShare(s, crypto, certificate, scheme).value, 2, 3)
  {
    hide RandomBytes;
  }

  lemma CertificatesOrdered(s: State, cfg: Config, crypto: Crypto)
    ensures CertificateDrafts(s, cfg, crypto).Drafts? ==> Ordered(CertificateDrafts(s, cfg, crypto).drafts, 1, 4)
  {
    hide KeyShare, Ordered;
    if CertificateDrafts(s, cfg, crypto).Drafts? {
      var certificate := cfg.certificate.value;
      var scheme := crypto.selectScheme(cfg.signatureSchemes, certificate.privateKey).value;
      ShareOrdered(s, crypto, certificate, scheme);
      var first := [MessageDraft(0, CertificateMessage(certificate.chain))];
      var share := KeyShare(s, crypto, certificate, scheme).value;
      var request := CertificateRequestMessage([1, 64], cfg.signatureSchemes);
      OrderedOne(first[0]);
      OrderedConcat(first, share, 1, 2, 3);
      OrderedOne(MessageDraft(0, request));
      NothingOrdered(3, 4);
      OrderedConcat(first + share, if cfg.clientAuth.NoClientCert? then [] else [MessageDraft(0, request)], 1, 3, 4);
    }
  }

  lemma NothingOrdered(low: nat, high: nat)
    ensures Ordered([], low, high)
  {
  }

  lemma KeyDraftsOrdered(s: State, cfg: Config, crypto: Crypto)
    ensures ServerFlights.KeyDrafts(s, cfg, crypto).Drafts? ==> Ordered(ServerFlights.KeyDrafts(s, cfg, crypto).drafts, 1, 4)
  {
    hide CertificateDrafts;
    CertificatesOrdered(s, cfg, crypto);
  }

  lemma OfferOrdered(s: State, cfg: Config, crypto: Crypto, drafts: seq<Draft>)
    requires Flight4Generated(s, cfg, crypto).1 == Drafts(drafts)
    ensures Ordered(drafts, 0, 5)
  {
    hide ServerFlights.KeyDrafts, Ordered, ServerHelloOf;
    KeyDraftsOrdered(s, cfg, crypto);
    var middle := ServerFlights.KeyDrafts(s, cfg, crypto).drafts;
    var first, last := [MessageDraft(0, ServerHelloOf(s, cfg))], [MessageDraft(0, ServerHelloDoneMessage)];
    HelloType(s, cfg);
    OrderedOne(first[0]);
    OrderedOne(last[0]);
    OrderedConcat(first, middle, 0, 1, 4);
    OrderedConcat(first + middle, last, 0, 4, 5);
  }

  lemma HelloType(s: State, cfg: Config)
    ensures ServerHelloOf(s, cfg).Type() == ServerHello
  {
  }

  /** Flight 4 in the plan. */
  lemma OfferInPlace(plan: seq<SentMessage>, drafts: seq<Draft>)
    requires Answered(plan, drafts) && Ordered(drafts, 0, 5)
    ensures InPlace(plan[1..1 + |drafts|], 0)
  {
    hide WellFormed, Numbered, SentOf;
    SentOfMessages(drafts, 1);
    var ms := plan[1..1 + |drafts|];
    forall i | 0 <= i < |ms|
      ensures ms[i].h.typ == drafts[i].message.Type() && ms[i].epoch == 0 && Place(ms[i].h.typ) == PlaceOf(drafts[i])
    {
      NumberedAt(drafts[i].message, WrappedU16(1 + i));
    }
  }

  // The text before flight 5

  lemma LastHello(hellos: seq<SentMessage>, server: seq<SentMessage>)
    requires hellos != [] && forall m :: m in hellos ==> m.h.typ == ClientHello && m.epoch == 0
    ensures TextOf(hellos, server, CLIENT_HELLO_RULE) == hellos[|hellos| - 1].h.Whole()
  {
    hide RawHandshake.Whole;
    var last := hellos[|hellos| - 1];
    assert hellos == hellos[..|hellos| - 1] + [last] && last in hellos;
    LastOfSnoc(hellos[..|hellos| - 1], last);
  }

  /** The last hello and flight 4, in that order and whole. */
  lemma OpeningText(hellos: seq<SentMessage>, plan: seq<SentMessage>, drafts: seq<Draft>)
    requires hellos != [] && forall m :: m in hellos ==> m.h.typ == ClientHello && m.epoch == 0
    requires Answered(plan, drafts) && Ordered(drafts, 0, 5)
    ensures Text(hellos, plan[..1 + |drafts|], KEY_EXCHANGE_RULES)
         == hellos[|hellos| - 1].h.Whole() + Written(plan[1..1 + |drafts|])
  {
    hide RawHandshake.Whole, TextOf, Ordered, SentOf, Written, InPlace;
    var server := plan[..1 + |drafts|];
    OfferInPlace(plan, drafts);
    PlaceOfRule(0);
    assert server == [plan[0]] + plan[1..1 + |drafts|];
    assert SERVER_RULES[0..] == SERVER_RULES;
    FoundInPlace(hellos, [plan[0]], plan[1..1 + |drafts|], 0);
    LastHello(hellos, server);
    assert SERVER_FLIGHT_RULES[0] == CLIENT_HELLO_RULE && SERVER_FLIGHT_RULES[1..] == SERVER_RULES;
    TextOfTwo(hellos, server);
    NoKeysFound(hellos, server);
    var text := Text(hellos, server, SERVER_FLIGHT_RULES);
    assert text + ([] + []) == text;
  }

  // Whole transcripts

  ghost function Part(ms: seq<SentMessage>, from: int, to: int): seq<SentMessage> {
    if 0 <= from <= to <= |ms| then ms[from..to] else []
  }

  /** The client's last hello, all of flight 4, and then what the client says up to its message `n`. */
  ghost function MessagesUpTo(clientPlan: seq<SentMessage>, serverPlan: seq<SentMessage>, offered: nat, hellos: nat, n: int)
    : seq<SentMessage>
  {
    Part(clientPlan, hellos - 1, hellos) + Part(serverPlan, 1, 1 + offered) + Part(clientPlan, hellos, n)
  }

  /** Both plans are there, as far as flight 5 and flight 4. */
  ghost predicate PlansOk(clientPlan: seq<SentMessage>, serverPlan: seq<SentMessage>, offer: seq<Draft>, k: Keyed) {
    KeyedShape(clientPlan, k) && k.hellos >= 1 && Answered(serverPlan, offer) && Ordered(offer, 0, 5)
  }

  lemma UpToIs(clientPlan: seq<SentMessage>, serverPlan: seq<SentMessage>, offer: seq<Draft>, k: Keyed, n: nat)
    requires PlansOk(clientPlan, serverPlan, offer, k) && k.hellos <= n <= |clientPlan|
    ensures |offer| < |serverPlan|
    ensures Written(MessagesUpTo(clientPlan, serverPlan, |offer|, k.hellos, n))
         == Text(clientPlan[..k.hellos], serverPlan[..1 + |offer|], KEY_EXCHANGE_RULES) + Written(clientPlan[k.hellos..n])
  {
    hide Text, Written, SentOf, Ordered, RawHandshake.Whole, KeyShaped, TailShaped, HandshakeStates.Writable;
    HelloPart(clientPlan, k);
    var hellos := clientPlan[..k.hellos];
    OpeningText(hellos, serverPlan, offer);
    var last := [clientPlan[k.hellos - 1]];
    assert clientPlan[k.hellos - 1..k.hellos] == last && hellos[|hellos| - 1] == last[0];
    WrittenOne(last[0]);
    WrittenConcat(last, serverPlan[1..1 + |offer|]);
    WrittenConcat(last + serverPlan[1..1 + |offer|], clientPlan[k.hellos..n]);
  }

  /** What the client hashes for the session and signs. */
  lemma SessionIs(clientPlan: seq<SentMessage>, serverPlan: seq<SentMessage>, offer: seq<Draft>, k: Keyed)
    requires PlansOk(clientPlan, serverPlan, offer, k)
    ensures k.hellos <= |clientPlan| && |offer| < |serverPlan| && HandshakeStates.Writable(k.keys)
    ensures Text(clientPlan[..k.hellos], serverPlan[..1 + |offer|], KEY_EXCHANGE_RULES) + NumberedText(k.keys, k.hellos)
         == Written(MessagesUpTo(clientPlan, serverPlan, |offer|, k.hellos, k.hellos + |k.keys|))
  {
    hide Text, Written, SentOf, Ordered, NumberedText, MessagesUpTo, KeyShaped, TailShaped, Answered, TailMessage, WellFormed,
         Numbered;
    PlanParts(clientPlan, k);
    var n := k.hellos + |k.keys|;
    UpToIs(clientPlan, serverPlan, offer, k, n);
    assert clientPlan[k.hellos..n] == SentOf(k.keys, k.hellos);
    PredictedIsWritten(k.keys, k.hellos);
  }

  /** What the client's Finished vouches for: everything before it. */
  lemma VouchedIs(clientPlan: seq<SentMessage>, serverPlan: seq<SentMessage>, offer: seq<Draft>, k: Keyed)
    requires PlansOk(clientPlan, serverPlan, offer, k) && ProofShaped(k.tail)
    ensures k.hellos <= |clientPlan| && |offer| < |serverPlan| && HandshakeStates.Writable(k.keys)
    ensures Text(clientPlan[..k.hellos], serverPlan[..1 + |offer|], FINISHED_RULES) + NumberedText(k.keys, k.hellos)
            + NumberedText(ProofPart(k.tail), k.hellos + |k.keys|)
         == Written(MessagesUpTo(clientPlan, serverPlan, |offer|, k.hellos, |clientPlan| - 1))
  {
    hide Text, Written, SentOf, Ordered, NumberedText, MessagesUpTo, KeyShaped, TailShaped, Answered, TailMessage, WellFormed,
         Numbered, RawHandshake.Whole;
    SessionIs(clientPlan, serverPlan, offer, k);
    HelloPart(clientPlan, k);
    HellosProveNothing(clientPlan[..k.hellos], serverPlan[..1 + |offer|]);
    PlanParts(clientPlan, k);
    PlanEnds(clientPlan, k);
    var n, last := k.hellos + |k.keys|, |clientPlan| - 1;
    UpToIs(clientPlan, serverPlan, offer, k, n);
    UpToIs(clientPlan, serverPlan, offer, k, last);
    ProofWritten(clientPlan, k);
    assert clientPlan[k.hellos..last] == clientPlan[k.hellos..n] + clientPlan[n..last];
    WrittenConcat(clientPlan[k.hellos..n], clientPlan[n..last]);
  }

  lemma ProofWritten(plan: seq<SentMessage>, k: Keyed)
    requires KeyedShape(plan, k) && ProofShaped(k.tail)
    ensures k.hellos + |k.keys| < |plan|
    ensures NumberedText(ProofPart(k.tail), k.hellos + |k.keys|) == Written(plan[k.hellos + |k.keys|..|plan| - 1])
  {
    hide SentOf, NumberedText, KeyShaped, TailShaped, TailMessage, WellFormed, Numbered, RawHandshake.Whole, Hellos;
    PlanParts(plan, k);
    PlanEnds(plan, k);
    var n, proof := k.hellos + |k.keys|, ProofPart(k.tail);
    NoDrafts(n);
    if proof == [] {
      assert plan[n..|plan| - 1] == [];
    } else {
      assert proof[0] in proof && proof == [proof[0]];
      OneText(proof[0], n);
      var m := SentMessage(Numbered(proof[0].message, WrappedU16(n)), 0);
      assert plan[n..|plan| - 1] == [m];
      WrittenOne(m);
    }
  }

  /** What the server's Finished vouches for: the client's Finished, too. */
  lemma ClosingIs(clientPlan: seq<SentMessage>, serverPlan: seq<SentMessage>, offer: seq<Draft>, k: Keyed)
    requires PlansOk(clientPlan, serverPlan, offer, k) && ProofShaped(k.tail)
    ensures |offer| < |serverPlan|
    ensures Text(clientPlan, serverPlan[..1 + |offer|], FINISHED_RULES)
         == Written(MessagesUpTo(clientPlan, serverPlan, |offer|, k.hellos, |clientPlan|))
  {
    hide Text, Written, SentOf, Ordered, NumberedText, MessagesUpTo, KeyShaped, TailShaped, Answered, TailMessage, WellFormed,
         Numbered, RawHandshake.Whole, VouchedRules, LaterEpoch;
    VouchedIs(clientPlan, serverPlan, offer, k);
    var server := serverPlan[..1 + |offer|];
    NothingLater(server);
    VouchedText(clientPlan, server, k, 1 + |offer|);
    PlanParts(clientPlan, k);
    FinishedText(clientPlan, server);
    var n := |clientPlan| - 1;
    UpToIs(clientPlan, serverPlan, offer, k, n);
    UpToIs(clientPlan, serverPlan, offer, k, |clientPlan|);
    assert clientPlan[k.hellos..|clientPlan|] == clientPlan[k.hellos..n] + [clientPlan[n]];
    WrittenConcat(clientPlan[k.hellos..n], [clientPlan[n]]);
    WrittenOne(clientPlan[n]);
  }

  lemma NothingLater(server: seq<SentMessage>)
    ensures LaterEpoch(server[|server|..]) && server[..|server|] == server
  {
  }

  /** The last rule finds the client's Finished. */
  lemma FinishedText(plan: seq<SentMessage>, server: seq<SentMessage>)
    requires plan != [] && plan[|plan| - 1].h.typ == HandshakeType.Finished && plan[|plan| - 1].epoch == 1
    ensures Text(plan, server, FINISHED_RULES) == Text(plan, server, VouchedRules()) + plan[|plan| - 1].h.Whole()
  {
    hide RawHandshake.Whole, Text;
    assert FINISHED_RULES == VouchedRules() + [CLIENT_FINISHED_RULE];
    OneMoreRule(plan, server, VouchedRules(), CLIENT_FINISHED_RULE);
    assert plan == plan[..|plan| - 1] + [plan[|plan| - 1]];
    LastOfSnoc(plan[..|plan| - 1], plan[|plan| - 1]);
  }

  // In the handshake

  ghost function MessagesTo(h: Honest, n: int): seq<SentMessage> {
    MessagesUpTo(h.clientPlan, h.serverPlan, |h.offer.Or([])|, h.keyed.Or(UNKEYED).hellos, n)
  }

  /** The messages up to the client's key exchange. */
  ghost function SessionMessages(h: Honest): seq<SentMessage> {
    MessagesTo(h, h.keyed.Or(UNKEYED).hellos + |h.keyed.Or(UNKEYED).keys|)
  }

  /** There is a hello to begin with; the plans go as far as the transcripts do. */
  ghost predicate Complete(h: Honest) {
    var k, offered := h.keyed.Or(UNKEYED), |h.offer.Or([])|;
    1 <= k.hellos && k.hellos + |k.keys| < |h.clientPlan| && 2 <= offered < |h.serverPlan|
    && (forall m :: m in Part(h.clientPlan, 0, k.hellos) ==> m.h.typ == ClientHello && m.epoch == 0)
    && h.serverPlan[1].h.typ == ServerHello && h.serverPlan[offered].h.typ == ServerHelloDone
    && h.clientPlan[k.hellos + |k.keys| - 1].h.typ == ClientKeyExchange
    && h.clientPlan[|h.clientPlan| - 1].h.typ == HandshakeType.Finished
  }

  /** Message `i` of a plan is a Finished with this content. */
  ghost predicate IsFinished(plan: seq<SentMessage>, i: int, data: Bytes) {
    0 <= i < |plan| && plan[i].epoch == 1 && UnmarshalHandshake(plan[i].h.Whole()).Ok?
    && UnmarshalHandshake(plan[i].h.Whole()).value.message == FinishedMessage(data)
  }

  lemma PlansHold(u: Setup, h: Honest)
    requires Scripts(u, h) && h.keyed.Some?
    ensures h.offer.Some? && PlansOk(h.clientPlan, h.serverPlan, h.offer.Or([]), h.keyed.Or(UNKEYED))
    ensures ProofShaped(h.keyed.Or(UNKEYED).tail) && FirstHello(u.client, h.client.state.localRandom, h.clientPlan)
  {
    hide ServerHeard, ServerKeys, ServerDone, ClientAnswered, KeyedShape, HandshakeStates.Writable, WellFormed, Ordered,
         FirstHello, Flight4Generated, SentOf, Text, NumberedText, MasterSecret, RandomBytes, Signed, PskOk,
         ClientKeyExchangeOf, Reading.Ready, ProofShaped, VerifyOnly, Answered, TailMessage;
    PlanParts(h.clientPlan, h.keyed.Or(UNKEYED));
    OfferOrdered(h.server.state, u.server, u.crypto, h.offer.Or([]));
    SomeHello(u.client, h.client.state.localRandom, h.clientPlan, h.keyed.Or(UNKEYED));
  }

  lemma SomeHello(cfg: Config, random: HandshakeRandom, plan: seq<SentMessage>, k: Keyed)
    requires FirstHello(cfg, random, plan) && KeyedShape(plan, k)
    ensures k.hellos >= 1
  {
    hide SentOf, TailMessage, TailShaped, WellFormed, Numbered;
    if k.hellos == 0 {
      PlanParts(plan, k);
      KeySent(k.keys, 0);
      NumberedAt(HelloOf(random, [], cfg), 0);
    }
  }

  lemma HelloRandom(cfg: Config, random: HandshakeRandom, plan: seq<SentMessage>)
    requires FirstHello(cfg, random, plan)
    ensures random.Valid()
  {
  }

  lemma PlansComplete(h: Honest)
    requires PlansOk(h.clientPlan, h.serverPlan, h.offer.Or([]), h.keyed.Or(UNKEYED)) && |h.offer.Or([])| >= 2
    requires h.offer.Or([])[0].MessageDraft? && h.offer.Or([])[0].message.ServerHelloMessage?
    requires h.offer.Or([])[|h.offer.Or([])| - 1] == MessageDraft(0, ServerHelloDoneMessage)
    ensures Complete(h)
  {
    hide SentOf, TailMessage, TailShaped, WellFormed, Numbered, Ordered, HandshakeStates.Writable, Hellos;
    var k, offer := h.keyed.Or(UNKEYED), h.offer.Or([]);
    HelloPart(h.clientPlan, k);
    PlanParts(h.clientPlan, k);
    KeySent(k.keys, k.hellos);
    SentOfMessages(offer, 1);
    NumberedAt(offer[0].message, WrappedU16(1));
    NumberedAt(ServerHelloDoneMessage, WrappedU16(|offer|));
    assert h.serverPlan[1] == SentOf(offer, 1)[0] && h.serverPlan[|offer|] == SentOf(offer, 1)[|offer| - 1];
    assert h.clientPlan[k.hellos + |k.keys| - 1] == SentOf(k.keys, k.hellos)[|k.keys| - 1];
  }

  /** What the client derives its master secret from, signs, and is checked against. */
  ghost predicate SessionCovered(u: Setup, h: Honest) {
    var c, text := h.client.state, Written(SessionMessages(h));
    (if c.extendedMasterSecret then
       u.crypto.extendedMasterSecret(c.preMasterSecret, u.crypto.hash(text)) == Ok(c.masterSecret)
     else
       c.localRandom.Valid() && h.server.state.localRandom.Valid()
       && u.crypto.masterSecret(c.preMasterSecret, c.localRandom.Marshal(), h.server.state.localRandom.Marshal()) == Ok(c.masterSecret))
    && Signed(u.client, u.crypto, h.keyed.Or(UNKEYED).tail, text)
    && (h.net.server.Popped() >= h.keyed.Or(UNKEYED).hellos + |h.keyed.Or(UNKEYED).keys| ==>
          Merged(h.net.server.Cache(), KEY_EXCHANGE_RULES) == text)
  }

  ghost predicate FinishedCovered(u: Setup, h: Honest) {
    var c, s, last := h.client.state, h.server.state, |h.clientPlan| - 1;
    (exists data ::
       IsFinished(h.clientPlan, last, data)
       && u.crypto.verifyDataClient(c.masterSecret, Written(MessagesTo(h, last))) == Ok(data))
    && (|h.serverPlan| == 2 + |h.offer.Or([])| ==>
          IsFinished(h.serverPlan, 1 + |h.offer.Or([])|, s.localVerifyData)
          && u.crypto.verifyDataServer(c.masterSecret, Written(MessagesTo(h, |h.clientPlan|))) == Ok(s.localVerifyData))
  }

  /** What the honest runs keep of flight 5, without its shape. */
  lemma KeyedParts(u: Setup, h: Honest)
    requires Scripts(u, h) && h.keyed.Some?
    ensures h.offer.Some? && AnswerOk(u, h.client.state, h.offer.Or([]))
    ensures KeyedOk(u, h.client.state, h.clientPlan, h.serverPlan, h.offer.Or([]), h.keyed.Or(UNKEYED))
  {
    hide ServerScript, ServerHeard, ServerKeys, ServerDone, KeyedOk, AnswerOk, FirstHello, Hellos, KeyedShape, Reading.Ready;
  }

  lemma TextCovered(u: Setup, h: Honest)
    requires Scripts(u, h) && h.keyed.Some?
    ensures h.keyed.Or(UNKEYED).text == Written(SessionMessages(h))
  {
    hide Scripts, PlansOk, AnswerOk, HandshakeStates.Writable, MessagesUpTo, Text, NumberedText, MasterSecret, RandomBytes,
         Signed, Vouched, PskOk, ClientKeyExchangeOf, Reading.Ready, Written, KeyedShape, ProofShaped, FirstHello;
    PlansHold(u, h);
    KeyedParts(u, h);
    SessionIs(h.clientPlan, h.serverPlan, h.offer.Or([]), h.keyed.Or(UNKEYED));
  }

  predicate MarshalsTo(r: HandshakeRandom, bytes: Bytes) {
    r.Valid() && r.Marshal() == bytes
  }

  lemma RandomIs(r: HandshakeRandom)
    requires r.Valid()
    ensures RandomBytes(r) == r.Marshal()
  {
    hide HandshakeRandom.Marshal;
  }

  /** The randoms that go into the keys are those that the two sides have drawn. */
  lemma RandomsCovered(u: Setup, h: Honest)
    requires Scripts(u, h) && h.keyed.Some?
    ensures MarshalsTo(h.client.state.localRandom, RandomBytes(h.client.state.localRandom))
    ensures MarshalsTo(h.server.state.localRandom, RandomBytes(h.client.state.remoteRandom))
  {
    hide Scripts, PlansOk, KeyedOk, RandomBytes, HandshakeRandom.Marshal, HandshakeRandom.Valid, ExchangeOk, OffersExchange,
         PskOk, FirstHello, ProofShaped, ServerHelloExtensions;
    PlansHold(u, h);
    KeyedParts(u, h);
    HelloRandom(u.client, h.client.state.localRandom, h.clientPlan);
    OfferRandom(u, h);
    RandomTravels(h.server.state.localRandom);
    RandomIs(h.client.state.localRandom);
    RandomIs(h.server.state.localRandom);
  }

  lemma OfferRandom(u: Setup, h: Honest)
    requires Scripts(u, h) && h.offer.Some?
    ensures |h.offer.Or([])| >= 2 && h.offer.Or([])[0] == MessageDraft(0, ServerHelloOf(h.server.state, u.server))
    ensures h.offer.Or([])[|h.offer.Or([])| - 1] == MessageDraft(0, ServerHelloDoneMessage)
    ensures h.server.state.localRandom.Valid()
  {
    hide ClientScript, ServerHeard, ServerKeys, ServerDone, ClientAnswered, KeyedOk, SentOf, VerifyOnly,
         ServerFlights.KeyDrafts, FinishedAt;
  }

  lemma SessionHolds(u: Setup, h: Honest)
    requires SetupOk(u) && AllOk(u, h) && h.keyed.Some?
    ensures SessionCovered(u, h)
  {
    hide SetupOk, Base, Scripts, RandomBytes, HandshakeRandom.Marshal, HandshakeRandom.Valid, Merged, Written, SessionMessages,
         Signed, Text, NumberedText, Vouched, KeyedShape, PskOk, ClientKeyExchangeOf, Reading.Ready, AnswerOk;
    KeyedParts(u, h);
    TextCovered(u, h);
    RandomsCovered(u, h);
    if h.net.server.Popped() >= h.keyed.Or(UNKEYED).hellos + |h.keyed.Or(UNKEYED).keys| {
      PredictionExact(u, h);
    }
  }

  /** The content of the Finished that ends flight 5. */
  function FinishedContent(k: Keyed): Bytes {
    if k.tail != [] && k.tail[|k.tail| - 1].MessageDraft? && k.tail[|k.tail| - 1].message.FinishedMessage?
    then k.tail[|k.tail| - 1].message.verifyData else []
  }

  lemma FinishedHolds(u: Setup, h: Honest)
    requires SetupOk(u) && AllOk(u, h) && h.keyed.Some?
    ensures FinishedCovered(u, h)
  {
    hide SetupOk, Base, Scripts, RandomBytes, Written, MessagesUpTo, Signed, Text, NumberedText, KeyedShape, PskOk,
         MasterSecret, ClientKeyExchangeOf, Reading.Ready, AnswerOk, FirstHello, PlansOk, IsFinished;
    PlansHold(u, h);
    KeyedParts(u, h);
    var k := h.keyed.Or(UNKEYED);
    VouchedIs(h.clientPlan, h.serverPlan, h.offer.Or([]), k);
    ClosingIs(h.clientPlan, h.serverPlan, h.offer.Or([]), k);
    ClientEnds(h.clientPlan, k);
    if |h.serverPlan| == 2 + |h.offer.Or([])| {
      ServerEnds(u, h);
    }
  }

  lemma ClientEnds(plan: seq<SentMessage>, k: Keyed)
    requires KeyedShape(plan, k) && ProofShaped(k.tail)
    ensures IsFinished(plan, |plan| - 1, FinishedContent(k))
  {
    hide KeyedShape, SentOf, TailMessage, UnmarshalHandshake, RawHandshake.Whole, WellFormed;
    PlanParts(plan, k);
    var data := FinishedReads(plan, k);
  }

  lemma ServerEnds(u: Setup, h: Honest)
    requires Scripts(u, h) && h.offer.Some? && |h.serverPlan| == 2 + |h.offer.Or([])|
    ensures IsFinished(h.serverPlan, 1 + |h.offer.Or([])|, h.server.state.localVerifyData)
    ensures u.crypto.verifyDataServer(h.client.state.masterSecret,
                                      Text(h.clientPlan, Part(h.serverPlan, 0, 1 + |h.offer.Or([])|), FINISHED_RULES))
         == Ok(h.server.state.localVerifyData)
  {
    hide ClientScript, ServerHeard, ServerKeys, ClientAnswered, KeyedOk, UnmarshalHandshake, RawHandshake.Whole, WellFormed,
         Answered, Text, Flight4Generated, VerifyOnly, Numbered;
    NumberedReads(FinishedMessage(h.server.state.localVerifyData), WrappedU16(1 + |h.offer.Or([])|));
  }

  lemma CompleteHolds(u: Setup, h: Honest)
    requires Scripts(u, h) && h.keyed.Some?
    ensures Complete(h)
  {
    hide Scripts, PlansOk, FirstHello, ProofShaped, Complete, ServerHelloExtensions;
    PlansHold(u, h);
    OfferRandom(u, h);
    PlansComplete(h);
  }

  /** In every honest run the text that goes into the master secret and into the client's proof is the
      last hello, every message of flight 4 and the key messages, in this order and whole; each
      Finished covers all that came before it, the server's also the client's. */
  lemma TranscriptsCover(u: Setup, acts: seq<Act>, h: Honest)
    requires SetupOk(u) && HonestWorlds.Reaches(u, Begin(), acts, h) && h.keyed.Some?
    ensures Complete(h) && SessionCovered(u, h) && FinishedCovered(u, h)
  {
    hide SetupOk, Base, Scripts, HonestWorlds.Reaches, Complete, SessionCovered, FinishedCovered;
    BeginOk(u);
    RunOk(u, Begin(), acts, h);
    CompleteHolds(u, h);
    SessionHolds(u, h);
    FinishedHolds(u, h);
  }

  /** Each side's suite comes of the shared master secret and of the two randoms as drawn, the client's
      first. */
  lemma SuitesCover(u: Setup, acts: seq<Act>, h: Honest)
    requires SetupOk(u) && HonestWorlds.Reaches(u, Begin(), acts, h) && h.keyed.Some?
    ensures exists id, a, b ::
              MarshalsTo(h.client.state.localRandom, a) && MarshalsTo(h.server.state.localRandom, b)
              && SuiteFrom(u.crypto, h.client.state, id, h.client.state.masterSecret, a, b, true)
              && (Reading.Ready(h.server.state.cipherSuite) ==>
                    SuiteFrom(u.crypto, h.server.state, id, h.client.state.masterSecret, a, b, false))
  {
    hide SetupOk, Base, HonestWorlds.Reaches, RandomBytes, Text, NumberedText, KeyedShape, PskOk, Signed, Vouched,
         ClientKeyExchangeOf, AnswerOk, ServerScript, ServerHeard, ServerDone, ClientScript, MarshalsTo, ClientAnswered,
         MasterSecret;
    BeginOk(u);
    RunOk(u, Begin(), acts, h);
    RandomsCovered(u, h);
    var c := h.client.state;
    assert SuiteFrom(u.crypto, c, c.cipherSuite.value.id, c.masterSecret, RandomBytes(c.localRandom), RandomBytes(c.remoteRandom), true);
  }

  /** The suite that the library makes of these keys. */
  ghost predicate SuiteFrom(crypto: Crypto, s: State, id: U16, master: Bytes, a: Bytes, b: Bytes, isClient: bool) {
    s.cipherSuite.Some? && crypto.suite(id, master, a, b, isClient) == Ok(s.cipherSuite.value)
  }
}
