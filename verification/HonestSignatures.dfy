/** Honest sides never refuse each other's signatures: what one signs is what the other checks. */
module HonestSignatures {
  import opened Wrappers
  import opened Bytes
  import opened Headers
  import opened Messages
  import opened Handshakes
  import opened HandshakeCaches
  import opened Reassembly
  import opened Emission
  import opened TableTexts
  import opened HandshakeStates
  import opened ServerFlights
  import opened ClientFlights
  import opened Handshaking
  import opened Planning
  import opened FlightGuards
  import opened HonestWorlds
  import opened HonestSends
  import opened HonestScripts
  import opened HonestTexts
  import opened HonestAnswers
  import opened HonestKeying
  import opened HonestPulls
  import opened HonestClientReads
  import opened HonestPredictions
  import opened HonestServerKeys
  import opened HonestHandshakes
  import opened HonestFinished
  import opened HonestTranscripts
  import opened HonestPeers

  // The server's key share

  /** What the server's key signs checks with the server's certificates. */
  ghost predicate SoundServerKey(u: Setup) {
    u.server.certificate.Some? ==>
      forall cr, sr, x: ServerKeyExchangeBody ::
        u.crypto.signKey(cr, sr, x.publicKey, x.namedCurve, u.server.certificate.value.privateKey) == Ok(x.signature) ==>
          u.crypto.verifyKey(cr, sr, x, u.server.certificate.value.chain)
  }

  /** The share is signed together with both randoms, the client's first. */
  ghost predicate SignedShare(s: State, cfg: Config, crypto: Crypto, x: ServerKeyExchangeBody) {
    cfg.certificate.Some?
    && crypto.signKey(RandomBytes(s.remoteRandom), RandomBytes(s.localRandom), x.publicKey, x.namedCurve,
                      cfg.certificate.value.privateKey) == Ok(x.signature)
  }

  lemma OfferSigned(s: State, cfg: Config, crypto: Crypto, drafts: seq<Draft>)
    requires Flight4Generated(s, cfg, crypto).1 == Drafts(drafts) && cfg.psk.None?
    ensures forall x :: MessageDraft(0, ServerKeyExchangeMessage(x)) in drafts ==> SignedShare(s, cfg, crypto, x)
  {
    hide RandomBytes, ServerHelloExtensions;
  }

  ghost predicate ReadsAs(data: Bytes, message: Message) {
    UnmarshalHandshake(data).Ok? && UnmarshalHandshake(data).value.message == message
  }

  lemma OneRuleText(client: seq<SentMessage>, server: seq<SentMessage>, r: Rule, m: SentMessage)
    requires !r.isClient && LastOf(server, r.typ, r.epoch) == [m]
    ensures Text(client, server, [r]) == m.h.Whole()
  {
    hide RawHandshake.Whole, LastOf;
    assert [r][1..] == [];
    assert Text(client, server, [r]) == m.h.Whole() + [];
  }

  /** A message of this type in the plan is one of flight 4. */
  lemma OfferedAs(plan: seq<SentMessage>, offer: seq<Draft>, i: nat) returns (x: ServerKeyExchangeBody)
    requires Answered(plan, offer) && |plan| == 1 + |offer| && i < |plan| && plan[i].h.typ == ServerKeyExchange
    ensures ServerKeyExchangeMessage(x) in MessagesOf(offer) && ReadsAs(plan[i].h.Whole(), ServerKeyExchangeMessage(x))
  {
    hide WellFormed, Numbered, RawHandshake.Whole, SentOf, UnmarshalHandshake, Messages.Transmitted, HandshakeStates.Writable,
         Message.Type;
    SentOfMessages(offer, 1);
    assert plan[1..1 + |offer|][i - 1] == plan[i];
    var m := offer[i - 1].message;
    NumberedAt(m, WrappedU16(i));
    NumberedReads(m, WrappedU16(i));
    TravelsWhole(m);
    ExchangeOf(m);
    x := m.serverKeyExchange;
    assert offer[i - 1] == MessageDraft(0, m) && offer[i - 1] in offer;
  }

  /** The messages of epoch 0 among the drafts. */
  ghost function MessagesOf(drafts: seq<Draft>): iset<Message> {
    iset m | MessageDraft(0, m) in drafts
  }

  lemma ExchangeOf(m: Message)
    requires m.Type() == ServerKeyExchange
    ensures m.ServerKeyExchangeMessage?
  {
  }

  /** What a cache with all of flight 4 yields as the key exchange is the one on offer. */
  lemma ExchangeYielded(clientPlan: seq<SentMessage>, plan: seq<SentMessage>, offer: seq<Draft>) returns (x: ServerKeyExchangeBody)
    requires Answered(plan, offer) && |plan| == 1 + |offer| && OffersExchange(offer)
    ensures ServerKeyExchangeMessage(x) in MessagesOf(offer)
    ensures ReadsAs(Text(clientPlan, plan, [SERVER_KEY_EXCHANGE_RULE]), ServerKeyExchangeMessage(x))
  {
    hide WellFormed, Numbered, RawHandshake.Whole, LastOf, SentOf, ReadsAs, HandshakeStates.Writable, MessagesOf;
    TextHasExchange(clientPlan, plan, offer);
    LastOfIs(plan, ServerKeyExchange, 0);
    if LastOf(plan, ServerKeyExchange, 0) == [] {
      NoText(clientPlan, plan, SERVER_KEY_EXCHANGE_RULE);
    }
    var i :| 0 <= i < |plan| && LastOf(plan, ServerKeyExchange, 0) == [plan[i]] && plan[i].h.typ == ServerKeyExchange;
    OneRuleText(clientPlan, plan, SERVER_KEY_EXCHANGE_RULE, plan[i]);
    x := OfferedAs(plan, offer, i);
  }

  lemma NoText(client: seq<SentMessage>, server: seq<SentMessage>, r: Rule)
    requires !r.isClient && LastOf(server, r.typ, r.epoch) == []
    ensures Text(client, server, [r]) == []
  {
    hide RawHandshake.Whole, LastOf;
    assert [r][1..] == [];
  }

  /** Both randoms are the same on both sides, as bytes. */
  lemma SameRandoms(u: Setup, h: Honest)
    requires AllOk(u, h) && Peers(u, h) && h.offer.Some? && AnswerOk(u, h.client.state, h.offer.Or([]))
    ensures RandomBytes(h.client.state.localRandom) == RandomBytes(h.server.state.remoteRandom)
    ensures RandomBytes(h.client.state.remoteRandom) == RandomBytes(h.server.state.localRandom)
  {
    hide Base, ClientScript, ServerHeard, ServerKeys, ServerDone, KeyedOk, ClientAnswered, Answered, FinishedAt, VerifyOnly,
         Flight4Generated, ClientPeer, ServerHelloExtensions, RandomBytes, ExchangeOk, OffersExchange, PskOk;
    OfferShape(h.server.state, u.server, u.crypto, h.offer.Or([]));
    RandomTravels(h.client.state.localRandom);
    RandomTravels(h.server.state.localRandom);
  }

  /** Flight 5 can be refused for a bad signature only by the check of the server's key share. */
  lemma RefusedFor(s: State, cfg: Config, crypto: Crypto, cache: seq<Item>, key: nat)
    requires Flight5Generated(s, cfg, crypto, cache, key).1 == Refused(Fatal(BAD_CERTIFICATE, BadSignature))
    ensures cfg.psk.None?
    ensures var (t, exchange, failure) := ExchangeAgain(s, cfg, crypto, cache, key);
            failure.None? && !crypto.verifyKey(RandomBytes(t.localRandom), RandomBytes(t.remoteRandom), exchange, t.peerCertificates)
  {
    hide Merged, MasterSecret, RandomBytes, NumberedText, HandshakeStates.Writable, UnmarshalHandshake, ClientFlights.KeyDrafts;
  }

  /** The key exchange that the client checks is the one that the server has signed. */
  lemma ExchangeChecked(u: Setup, h: Honest, key: nat)
    requires SetupOk(u) && AllOk(u, h) && h.client.flight.Flight5? && h.client.phase == Preparing && u.client.psk.None?
    ensures h.offer.Some? && AnswerOk(u, h.client.state, h.offer.Or([]))
    ensures var (t, x, failure) := ExchangeAgain(h.client.state, u.client, u.crypto, h.net.client.Cache(), key);
            t == h.client.state && SignedShare(h.server.state, u.server, u.crypto, x)
  {
    hide Base, Scripts, AnswerOk, Hellos, ServerScript, OffersExchange, Merged, Text, UnmarshalHandshake, Answered,
         ExchangeHandled, SoundSuites, SoundExchange, KnownSuites, SignedShare;
    AllAnswered(u, h);
    ExchangeKnown(u, h.client.state, h.offer.Or([]));
    ClientText(u, h, [SERVER_KEY_EXCHANGE_RULE]);
    assert h.serverPlan[..|h.serverPlan|] == h.serverPlan;
    var x := ExchangeYielded(h.clientPlan, h.serverPlan, h.offer.Or([]));
    ExchangeCached(u, h);
    OfferGenerated(u, h);
    OfferSigned(h.server.state, u.server, u.crypto, h.offer.Or([]));
  }

  lemma OfferGenerated(u: Setup, h: Honest)
    requires ServerScript(u.server, u.crypto, h.server, h.serverPlan, h.offer) && h.offer.Some?
    ensures Flight4Generated(h.server.state, u.server, u.crypto).1 == Drafts(h.offer.Or([]))
  {
    hide Answered, Flight4Generated, VerifyOnly, FinishedAt, WellFormed;
  }

  /** An honest client never refuses an honest server's signature. */
  lemma KeyShareAccepted(u: Setup, acts: seq<Act>, h: Honest, key: nat)
    requires SetupOk(u) && SoundServerKey(u) && HonestWorlds.Reaches(u, Begin(), acts, h)
    requires h.client.flight.Flight5? && h.client.phase == Preparing
    ensures Flight5Generated(h.client.state, u.client, u.crypto, h.net.client.Cache(), key).1
         != Refused(Fatal(BAD_CERTIFICATE, BadSignature))
  {
    hide SetupOk, AllOk, Peers, HonestWorlds.Reaches, Flight5Generated, ExchangeAgain, RandomBytes, AnswerOk;
    BeginOk(u);
    BeginPeers(u);
    RunPeers(u, Begin(), acts, h);
    var s, cache := h.client.state, h.net.client.Cache();
    if Flight5Generated(s, u.client, u.crypto, cache, key).1 == Refused(Fatal(BAD_CERTIFICATE, BadSignature)) {
      RefusedFor(s, u.client, u.crypto, cache, key);
      ExchangeChecked(u, h, key);
      SameRandoms(u, h);
      SameKind(u);
      ShownServer(u, h);
      ShareChecks(u, h.server.state, ExchangeAgain(s, u.client, u.crypto, cache, key).1);
    }
  }

  lemma ShareChecks(u: Setup, s: State, x: ServerKeyExchangeBody)
    requires SoundServerKey(u) && SignedShare(s, u.server, u.crypto, x)
    ensures u.crypto.verifyKey(RandomBytes(s.remoteRandom), RandomBytes(s.localRandom), x, OwnChain(u.server))
  {
    hide RandomBytes;
  }

  lemma SameKind(u: Setup)
    requires SetupOk(u)
    ensures u.client.psk.Some? == u.server.psk.Some?
  {
    hide SoundSuites, SoundExchange, KnownSuites;
  }

  // The client's proof

  /** What the client's key signs checks with the client's certificates and the scheme chosen for it. */
  ghost predicate SoundClientKey(u: Setup) {
    u.client.certificate.Some? ==>
      var key := u.client.certificate.value.privateKey;
      forall text, algorithm, signature ::
        u.crypto.signTranscript(text, key) == Ok(signature)
        && u.crypto.selectScheme(u.client.signatureSchemes, key) == Ok(algorithm) ==>
          u.crypto.verifyTranscript(text, algorithm, signature, u.client.certificate.value.chain)
  }

  const CERTIFICATE_PULL := Rule(Certificate, 0, true, true)

  const PROOF_PULL := Rule(CertificateVerify, 0, true, true)

  /** A proof in the plan is the first message after the key messages. */
  lemma ProofIndex(plan: seq<SentMessage>, k: Keyed, i: nat)
    requires KeyedShape(plan, k) && ProofShaped(k.tail) && i < |plan| && plan[i].h.typ == CertificateVerify
    ensures ProofPart(k.tail) != [] && ReadsAs(plan[i].h.Whole(), k.tail[0].message)
    ensures i >= k.hellos + |k.keys|
  {
    hide WellFormed, Numbered, SentOf, KeyShaped, TailShaped, RawHandshake.Whole, UnmarshalHandshake, Hellos,
         Messages.Transmitted, HandshakeStates.Writable, TailMessage, Message.Type;
    PlanParts(plan, k);
    PlanEnds(plan, k);
    BeforeProof(plan, k);
    var n := k.hellos + |k.keys|;
    NotAmongFirst(plan, n, i, CertificateVerify);
    NumberedAt(k.tail[|k.tail| - 1].message, WrappedU16(n + |ProofPart(k.tail)|));
    FinishedKind(k.tail[|k.tail| - 1].message);
    assert ProofPart(k.tail) != [];
    NumberedReads(k.tail[0].message, WrappedU16(n));
    ProofKind(k.tail[0].message);
  }

  lemma NotAmongFirst(plan: seq<SentMessage>, n: nat, i: nat, t: HandshakeType)
    requires n <= |plan| && i < |plan| && forall m :: m in plan[..n] ==> m.h.typ != t
    ensures plan[i].h.typ == t ==> i >= n
  {
    if i < n {
      assert plan[..n][i] == plan[i];
    }
  }

  lemma NotAmongLast(plan: seq<SentMessage>, n: nat, i: nat, t: HandshakeType)
    requires n <= |plan| && i < |plan| && forall m :: m in plan[n..] ==> m.h.typ != t
    ensures plan[i].h.typ == t ==> i < n
  {
    if i >= n {
      assert plan[n..][i - n] == plan[i];
    }
  }

  lemma FinishedKind(m: Message)
    requires m.FinishedMessage?
    ensures m.Type() == HandshakeType.Finished
  {
  }

  lemma ProofKind(m: Message)
    requires m.CertificateVerifyMessage?
    ensures Messages.Transmitted(m) == m
  {
  }

  /** A certificate in the plan is the first of the key messages. */
  lemma CertificateIndex(plan: seq<SentMessage>, k: Keyed, i: nat)
    requires KeyedShape(plan, k) && i < |plan| && plan[i].h.typ == Certificate
    ensures |k.keys| == 2 && i == k.hellos && k.keys[0].MessageDraft? && ReadsAs(plan[i].h.Whole(), k.keys[0].message)
  {
    hide WellFormed, Numbered, SentOf, TailShaped, RawHandshake.Whole, UnmarshalHandshake, Hellos, Messages.Transmitted,
         HandshakeStates.Writable, Message.Type;
    PlanParts(plan, k);
    HelloCount(plan, k.hellos);
    KeySent(k.keys, k.hellos);
    var keys := SentOf(k.keys, k.hellos);
    NotAmongFirst(plan, k.hellos, i, Certificate);
    NotAmongLast(plan, k.hellos + |k.keys|, i, Certificate);
    assert plan[i] == keys[i - k.hellos];
    NumberedReads(k.keys[0].message, WrappedU16(k.hellos));
    CertificateKind(k.keys[0].message);
  }

  lemma CertificateKind(m: Message)
    requires m.CertificateMessage?
    ensures Messages.Transmitted(m) == m
  {
  }

  /** The certificates and the proof that were pulled are those of flight 5. */
  ghost predicate ProofPulled(k: Keyed, msgs: map<HandshakeType, Message>) {
    CertificateVerify in msgs ==>
      |k.tail| == 3 && k.tail[0].MessageDraft? && msgs[CertificateVerify] == k.tail[0].message
      && |k.keys| == 2 && k.keys[0].MessageDraft? && Gives(msgs, Certificate, k.keys[0].message)
  }

  ghost predicate CertificatePulled(k: Keyed, msgs: map<HandshakeType, Message>) {
    k.keys != [] && k.keys[0].MessageDraft? && Gives(msgs, Certificate, k.keys[0].message)
  }

  lemma CertificateFound(cache: seq<Item>, plan: seq<SentMessage>, n: nat, start: int, k: Keyed)
    requires Unique(cache) && n <= |plan| && OwnPart(cache, true, plan[..n]) && FullPulled(cache, start, CLIENT_KEY_RULES).Ok?
    requires KeyedShape(plan, k) && |k.keys| == 2 && k.hellos < n
    ensures CertificatePulled(k, MessagesPulled(cache, start, CLIENT_KEY_RULES))
  {
    hide UnmarshalHandshake, RawHandshake.Whole, Unique, OwnPart, FullPulled, IsLast, KeyedShape, Best, DistinctTypes,
         TailMessage, SentOf, WellFormed, Numbered;
    var table := plan[..n];
    ClientRulesDistinct();
    FirstKey(plan, k);
    LastExists(table, CERTIFICATE_PULL, k.hellos);
    var j := PulledFromPart(cache, table, start, CLIENT_KEY_RULES, CERTIFICATE_PULL);
    LastIs(table, CERTIFICATE_PULL, j);
    CertificateIndex(plan, k, j);
  }

  lemma FirstKey(plan: seq<SentMessage>, k: Keyed)
    requires KeyedShape(plan, k) && |k.keys| == 2
    ensures 0 <= k.hellos < |plan| && plan[k.hellos].h.typ == Certificate && plan[k.hellos].epoch == 0
  {
    hide SentOf, WellFormed, Numbered, TailShaped, TailMessage, Hellos, KeyShaped, HandshakeStates.Writable;
    PlanParts(plan, k);
    KeySent(k.keys, k.hellos);
    assert plan[k.hellos] == SentOf(k.keys, k.hellos)[0];
  }

  lemma ProofFoundIn(u: Setup, c: State, cache: seq<Item>, plan: seq<SentMessage>, n: nat, start: int, k: Keyed)
    requires Unique(cache) && n <= |plan| && OwnPart(cache, true, plan[..n]) && FullPulled(cache, start, CLIENT_KEY_RULES).Ok?
    requires KeyedShape(plan, k) && ProofShaped(k.tail) && KeysGiven(u, c, k)
    ensures ProofPulled(k, MessagesPulled(cache, start, CLIENT_KEY_RULES))
  {
    hide UnmarshalHandshake, RawHandshake.Whole, Unique, OwnPart, FullPulled, IsLast, KeyedShape, Best, ProofShaped,
         DistinctTypes, KeysGiven;
    var table := plan[..n];
    ClientRulesDistinct();
    var i := PulledFromPart(cache, table, start, CLIENT_KEY_RULES, PROOF_PULL);
    if CertificateVerify in MessagesPulled(cache, start, CLIENT_KEY_RULES) {
      LastIs(table, PROOF_PULL, i);
      ProofIndex(plan, k, i);
      ProofOnly(u, c, k);
      CertificateFound(cache, plan, n, start, k);
    }
  }

  lemma ClientRulesDistinct()
    ensures DistinctTypes(CLIENT_KEY_RULES) && CERTIFICATE_PULL in CLIENT_KEY_RULES && PROOF_PULL in CLIENT_KEY_RULES
  {
    assert CLIENT_KEY_RULES[0] == CERTIFICATE_PULL && CLIENT_KEY_RULES[2] == PROOF_PULL;
  }

  /** A proof comes only after a certificate. */
  lemma ProofOnly(u: Setup, c: State, k: Keyed)
    requires KeysGiven(u, c, k) && ProofShaped(k.tail) && ProofPart(k.tail) != []
    ensures |k.tail| == 3 && k.tail[0].MessageDraft? && |k.keys| == 2
    ensures k.keys[0] == MessageDraft(0, CertificateMessage(OwnChain(u.client)))
  {
    hide ClientKeyExchangeOf, HandshakeStates.Writable;
  }

  lemma ProofArrives(u: Setup, h: Honest)
    requires SetupOk(u) && AllOk(u, h) && Peers(u, h)
    requires FullPulled(h.net.server.Cache(), h.server.state.recvSequence, CLIENT_KEY_RULES).Ok?
    ensures h.keyed.Some? && KeysGiven(u, h.client.state, h.keyed.Or(UNKEYED)) && ProofShaped(h.keyed.Or(UNKEYED).tail)
    ensures ProofPulled(h.keyed.Or(UNKEYED), MessagesPulled(h.net.server.Cache(), h.server.state.recvSequence, CLIENT_KEY_RULES))
    ensures Merged(h.net.server.Cache(), KEY_EXCHANGE_RULES) == h.keyed.Or(UNKEYED).text
    ensures Signed(u.client, u.crypto, h.keyed.Or(UNKEYED).tail, h.keyed.Or(UNKEYED).text)
  {
    hide SetupOk, Base, Scripts, Unique, OwnPart, FullPulled, KeyedShape, ProofShaped, Shown, KeysGiven, ClientKeyExchangeOf,
         ProofPulled, Merged, Signed, Text, NumberedText, MasterSecret, RandomBytes, Vouched, PskOk, Answered, FirstHello;
    ExchangeArrives(u, h);
    PlansHold(u, h);
    KeyedParts(u, h);
    CacheParts(u, h);
    PredictionExact(u, h);
    ProofFoundIn(u, h.client.state, h.net.server.Cache(), h.clientPlan, h.net.server.Popped(), h.server.state.recvSequence,
                 h.keyed.Or(UNKEYED));
  }

  /** A proof that an honest client gives checks. */
  lemma ProofChecks(u: Setup, c: State, k: Keyed)
    requires SoundClientKey(u) && KeysGiven(u, c, k) && ProofShaped(k.tail) && |k.tail| == 3
    requires Signed(u.client, u.crypto, k.tail, k.text)
    ensures k.tail[0].MessageDraft? && k.tail[0].message.CertificateVerifyMessage? && k.keys != []
    ensures k.keys[0] == MessageDraft(0, CertificateMessage(OwnChain(u.client)))
    ensures u.crypto.verifyTranscript(k.text, k.tail[0].message.algorithm, k.tail[0].message.signature, OwnChain(u.client))
  {
    hide ClientKeyExchangeOf, HandshakeStates.Writable;
    assert k.tail[0] in k.tail;
  }

  /** An honest server never refuses an honest client's proof. */
  lemma ProofAccepted(u: Setup, acts: seq<Act>, h: Honest)
    requires SetupOk(u) && SoundClientKey(u) && HonestWorlds.Reaches(u, Begin(), acts, h)
    requires h.server.flight.Flight4? && h.server.phase == Waiting
    ensures Flight4Keyed(h.server.state, u.server, u.crypto, h.net.server.Cache()).1 != Halt(Fatal(BAD_CERTIFICATE, BadSignature))
  {
    hide SetupOk, AllOk, Peers, HonestWorlds.Reaches, Flight4Keyed, FullPulled, Merged, Signed, KeysGiven, ProofShaped,
         SoundClientKey;
    BeginOk(u);
    BeginPeers(u);
    RunPeers(u, Begin(), acts, h);
    var s, cache := h.server.state, h.net.server.Cache();
    if Flight4Keyed(s, u.server, u.crypto, cache).1 == Halt(Fatal(BAD_CERTIFICATE, BadSignature)) {
      KeysPulled(s, u.server, u.crypto, cache);
      var (next, msgs) := FullPulled(cache, s.recvSequence, CLIENT_KEY_RULES).value;
      ForgedProof(s, u.server, u.crypto, cache, next, msgs);
      ProofArrives(u, h);
      ProofChecks(u, h.client.state, h.keyed.Or(UNKEYED));
    }
  }

  lemma KeysPulled(s: State, cfg: Config, crypto: Crypto, cache: seq<Item>)
    requires Flight4Keyed(s, cfg, crypto, cache).1 == Halt(Fatal(BAD_CERTIFICATE, BadSignature))
    ensures FullPulled(cache, s.recvSequence, CLIENT_KEY_RULES).Ok?
    ensures var msgs := MessagesPulled(cache, s.recvSequence, CLIENT_KEY_RULES);
            ClientKeyExchange in msgs && msgs[ClientKeyExchange].ClientKeyExchangeMessage?
            && (Certificate in msgs ==> msgs[Certificate].CertificateMessage?)
  {
    hide FullPulled, ServerKeyed, ProofChecked;
  }
}
