/** The server reading flight 5 arrives at the client's keys. */
module HonestServerKeys {
  import opened Wrappers
  import opened Bytes
  import opened Headers
  import opened Extensions
  import opened Messages
  import opened Handshakes
  import opened HandshakeCaches
  import opened CipherSuites
  import opened Reading
  import opened IncomingRecords
  import opened Reassembly
  import opened WireRecords
  import opened Emission
  import opened TableTexts
  import opened HandshakeStates
  import opened ServerFlights
  import opened ClientFlights
  import opened Handshaking
  import opened Planning
  import opened FlightEffects
  import opened HonestWorlds
  import opened HonestSends
  import opened HonestScripts
  import opened HonestTexts
  import opened HonestPreparing
  import opened HonestAnswers
  import opened HonestKeying
  import opened HonestPulls
  import opened HonestClientReads
  import opened HonestPredictions
  import opened HonestArrivals

  /** A message of the client beyond its hellos is one of flight 5. */
  lemma KeyIndex(plan: seq<SentMessage>, keyed: Option<Keyed>, cfg: Config, m: Machine, i: nat)
    requires ClientScript(cfg, m, plan, keyed) && i < |plan|
    requires plan[i].h.typ == ClientKeyExchange || (plan[i].h.typ == HandshakeType.Finished && plan[i].epoch == 1)
    ensures keyed.Some?
    ensures plan[i].h.typ == ClientKeyExchange ==>
              var k := keyed.value;
              i == k.hellos + |k.keys| - 1 && KeyShaped(k.keys) && WellFormed(k.keys[|k.keys| - 1].message)
              && plan[i].h == Numbered(k.keys[|k.keys| - 1].message, WrappedU16(i))
    ensures plan[i].h.typ == HandshakeType.Finished && plan[i].epoch == 1 ==> i >= keyed.value.hellos + |keyed.value.keys|
  {
    hide FirstHello, WellFormed, Numbered, SentOf, KeyShaped, Writable;
    if keyed.Some? {
      var k := keyed.value;
      PlanParts(plan, k);
      KeySent(k.keys, k.hellos);
      HelloCount(plan, k.hellos);
      var keys := SentOf(k.keys, k.hellos);
      if i >= k.hellos + |k.keys| {
        assert plan[i] == plan[k.hellos + |k.keys|..][i - k.hellos - |k.keys|];
        assert TailMessage(plan[i]);
      } else if i >= k.hellos {
        assert plan[i] == keys[i - k.hellos];
      }
    }
  }

  /** The key exchange the server pulls is the client's, and it has all the client's key messages. */
  lemma ExchangeArrives(u: Setup, h: Honest)
    requires SetupOk(u) && AllOk(u, h)
    requires FullPulled(h.net.server.Cache(), h.server.state.recvSequence, CLIENT_KEY_RULES).Ok?
    ensures h.keyed.Some? && h.net.server.Popped() >= h.keyed.Or(UNKEYED).hellos + |h.keyed.Or(UNKEYED).keys|
    ensures Gives(MessagesPulled(h.net.server.Cache(), h.server.state.recvSequence, CLIENT_KEY_RULES), ClientKeyExchange,
                  ClientKeyExchangeOf(h.client.state, u.client))
  {
    hide SetupOk, Base, ClientScript, ServerScript, ServerHeard, ServerKeys, ServerDone, ClientAnswered, UnmarshalHandshake,
         RawHandshake.Whole, Unique, OwnPart, FullPulled, IsLast, WellFormed, Numbered, Messages.Transmitted, ClientKeyExchangeOf,
         KeyedShape, Best, Text, NumberedText, MasterSecret, RandomBytes, PskOk, Ready, KeyShaped;
    var cache, start := h.net.server.Cache(), h.server.state.recvSequence;
    var r := Rule(ClientKeyExchange, 0, true, false);
    CacheParts(u, h);
    assert CLIENT_KEY_RULES[1] == r;
    var table := h.clientPlan[..h.net.server.Popped()];
    var i := PulledFromPart(cache, table, start, CLIENT_KEY_RULES, r);
    LastIs(table, r, i);
    assert table[i] == h.clientPlan[i];
    KeyIndex(h.clientPlan, h.keyed, u.client, h.client, i);
    ShapedLast(h.keyed.Or(UNKEYED).keys);
    NumberedReads(h.keyed.Or(UNKEYED).keys[|h.keyed.Or(UNKEYED).keys| - 1].message, WrappedU16(i));
    ExchangeTravels(h.client.state, u.client);
  }

  lemma ShapedLast(keys: seq<Draft>)
    requires KeyShaped(keys)
    ensures keys != [] && keys[|keys| - 1].MessageDraft?
  {
  }

  lemma ExchangeTravels(s: State, cfg: Config)
    ensures Messages.Transmitted(ClientKeyExchangeOf(s, cfg)) == ClientKeyExchangeOf(s, cfg)
    ensures ClientKeyExchangeOf(s, cfg).ClientKeyExchangeMessage?
  {
  }

  // The secrets

  /** Whole seconds travel, and only they are hashed. */
  lemma RandomTravels(r: HandshakeRandom)
    ensures RandomBytes(r.Transmitted()) == RandomBytes(r)
  {
  }

  /** The server's half of the key exchange gives the client's secret. */
  lemma SecretsAgree(u: Setup, c: State, m: Machine, plan: seq<SentMessage>, offer: seq<Draft>)
    requires SetupOk(u) && AnswerOk(u, c, offer) && ServerScript(u.server, u.crypto, m, plan, Some(offer))
    requires Negotiated(u, m.state, c.localRandom) && (u.client.psk.Some? ==> PskOk(u, c))
    ensures var pre := ServerPreMaster(m.state, u.server, u.crypto, ClientKeyExchangeOf(c, u.client));
            pre.Ok? ==> pre.value == c.preMasterSecret
  {
    hide SoundSuites, KnownSuites, Answered, WellFormed, ServerHelloOf, VerifyOnly, Flight4Generated, FinishedAt;
    var s := m.state;
    var pre := ServerPreMaster(s, u.server, u.crypto, ClientKeyExchangeOf(c, u.client));
    if pre.Ok? {
      if u.client.psk.Some? {
        var hint :| u.client.psk.value(hint).Ok? && c.preMasterSecret == u.crypto.pskPreMasterSecret(u.client.psk.value(hint).value);
        var identity := ClientKeyExchangeOf(c, u.client).identityHint;
        assert u.server.psk.value(identity).Ok?;
        assert u.client.psk.value(hint) == u.server.psk.value(identity);
      } else {
        OfferExchange(u, m, offer);
        var x, key :| MessageDraft(0, ServerKeyExchangeMessage(x)) in offer
          && u.crypto.keypair(x.namedCurve, key) == Ok(c.localKeypair.value)
          && u.crypto.preMasterSecret(x.publicKey, c.localKeypair.value) == Ok(c.preMasterSecret);
        var own :| u.crypto.keypair(P256, own) == Ok(s.localKeypair.value);
        assert x.namedCurve == P256 && x.publicKey == s.localKeypair.value.publicKey;
        assert u.crypto.keypair(P256, key).Ok? && u.crypto.keypair(P256, own).Ok?;
      }
    }
  }

  /** The key exchange on offer is the server's own key. */
  lemma OfferExchange(u: Setup, m: Machine, offer: seq<Draft>)
    requires Flight4Generated(m.state, u.server, u.crypto) == (m.state, Drafts(offer))
    requires u.server.psk.None?
    ensures forall x :: MessageDraft(0, ServerKeyExchangeMessage(x)) in offer ==>
              m.state.localKeypair.Some? && x.namedCurve == m.state.namedCurve
              && x.publicKey == m.state.localKeypair.value.publicKey
  {
  }

  /** Flags, randoms and suite: what the server offered is what the client took. */
  lemma SameTerms(u: Setup, c: State, m: Machine, plan: seq<SentMessage>, offer: seq<Draft>)
    requires AnswerOk(u, c, offer) && ServerScript(u.server, u.crypto, m, plan, Some(offer))
    requires Negotiated(u, m.state, c.localRandom)
    ensures m.state.extendedMasterSecret == c.extendedMasterSecret
    ensures RandomBytes(m.state.remoteRandom) == RandomBytes(c.localRandom)
    ensures RandomBytes(m.state.localRandom) == RandomBytes(c.remoteRandom)
    ensures m.state.cipherSuite.Some? && c.cipherSuite.Some? && m.state.cipherSuite.value.id == c.cipherSuite.value.id
  {
    hide Answered, WellFormed, Flight4Generated, RandomBytes, ServerHelloExtensions, ExchangeOk, PskOk, VerifyOnly, ServerScript;
    OfferHello(u, m, plan, offer);
    RandomTravels(c.localRandom);
    RandomTravels(m.state.localRandom);
    EmsOnOffer(m.state, u.server);
  }

  lemma EmsOnOffer(s: State, cfg: Config)
    ensures UseExtendedMasterSecret(true) in ServerHelloExtensions(s, cfg)
       <==> cfg.extendedMasterSecret.Offers() && s.extendedMasterSecret
  {
  }

  lemma SameMaster(crypto: Crypto, extended: bool, pre: Bytes, text: Bytes, a: HandshakeRandom, b: HandshakeRandom,
                   c: HandshakeRandom, d: HandshakeRandom)
    requires RandomBytes(a) == RandomBytes(c) && RandomBytes(b) == RandomBytes(d)
    ensures MasterSecret(crypto, extended, pre, text, a, b) == MasterSecret(crypto, extended, pre, text, c, d)
  {
  }

  /** The keys the server derives are the client's. */
  /** After a step that derives keys: they are the client's, or there is an error. */
  ghost predicate KeysOk(u: Setup, h: Honest, s: State, t: State, failure: Option<Failure>) {
    (Ready(t.cipherSuite) ==> ServerKeys(u, h.client.state, t, h.keyed))
    && (failure.None? ==> Ready(t.cipherSuite)) && (failure.Some? ==> failure.value.error.Some?)
    && FromCrypto(u.crypto, s, t)
  }

  ghost predicate KeysTakenOk(u: Setup, h: Honest, s: State, exchange: Message) {
    exchange.ClientKeyExchangeMessage?
    && var (t, failure) := ServerKeyed(s, u.server, u.crypto, h.net.server.Cache(), exchange);
       KeysOk(u, h, s, t, failure) && (Ready(s.cipherSuite) ==> t == s)
  }

  ghost predicate PreMasterIs(u: Setup, s: State, exchange: Message, pre: Bytes) {
    exchange.ClientKeyExchangeMessage? && ServerPreMaster(s, u.server, u.crypto, exchange) == Ok(pre)
  }

  ghost predicate KeysFromOk(u: Setup, h: Honest, s: State, hinted: State, pre: Bytes) {
    hinted.cipherSuite.Some?
    && var (t, failure) := KeysFrom(hinted, u.crypto, h.net.server.Cache(), pre);
       KeysOk(u, h, s, t, failure)
  }

  lemma ReadyIs(s: State)
    requires s.cipherSuite.Some?
    ensures Ready(s.cipherSuite) <==> s.cipherSuite.value.initialized
  {
  }

  lemma KeysTaken(u: Setup, h: Honest, s: State)
    requires SetupOk(u) && AllOk(u, h) && h.server.flight.Flight4? && h.server.phase == Waiting
    requires FullPulled(h.net.server.Cache(), h.server.state.recvSequence, CLIENT_KEY_RULES).Ok?
    requires s == h.server.state.(peerCertificates := s.peerCertificates, peerCertificatesVerified := s.peerCertificatesVerified)
    ensures KeysTakenOk(u, h, s, ClientKeyExchangeOf(h.client.state, u.client))
  {
    hide SetupOk, Base, ClientScript, ServerScript, ServerDone, KeyedShape, Text, NumberedText, MasterSecret, RandomBytes, PskOk,
         Merged, KeysFrom, ServerPreMaster, AnswerOk, Negotiated, ClientKeyExchangeOf, ServerKeys, FromCrypto, FullPulled, Ready,
         SuiteOk, Scripts, Transmitted, KeyExchangeRules;
    ExchangeTravels(h.client.state, u.client);
    ExchangeArrives(u, h);
    BaseOut(u, h);
    PredictionExact(u, h);
    ServerUnkeyed(u, h, s);
    ReadyIs(s);
    var c, cache, exchange := h.client.state, h.net.server.Cache(), ClientKeyExchangeOf(h.client.state, u.client);
    if !Ready(s.cipherSuite) {
      var pre := ServerPreMaster(s, u.server, u.crypto, exchange);
      if pre.Ok? {
        KeysFollow(u, h, s, if u.server.psk.Some? then s.(identityHint := exchange.identityHint) else s, pre.value);
      } else {
        NotInitialized(u, s, ServerKeyed(s, u.server, u.crypto, cache, exchange).0);
      }
    }
  }

  lemma NotInitialized(u: Setup, s: State, t: State)
    requires t == s && !Ready(s.cipherSuite)
    ensures FromCrypto(u.crypto, s, t) && !Ready(t.cipherSuite)
  {
  }

  lemma ServerUnkeyed(u: Setup, h: Honest, s: State)
    requires SetupOk(u) && AllOk(u, h) && h.server.flight.Flight4? && h.server.phase == Waiting
    requires s == h.server.state.(peerCertificates := s.peerCertificates, peerCertificatesVerified := s.peerCertificatesVerified)
    ensures h.offer.Some? && s.cipherSuite.Some?
    ensures Negotiated(u, h.server.state, h.client.state.localRandom)
    ensures Ready(s.cipherSuite) ==> ServerKeys(u, h.client.state, s, h.keyed)
    ensures FromCrypto(u.crypto, s, s)
  {
    hide SetupOk, Base, ClientScript, KeyedOk, ServerDone, RandomBytes, Answered, Flight4Generated,
         ClientAnswered, VerifyOnly;
    SameFromCrypto(u.crypto, s, s);
  }

  lemma KeysFollow(u: Setup, h: Honest, s: State, hinted: State, pre: Bytes)
    requires SetupOk(u) && AllOk(u, h) && h.server.flight.Flight4? && h.server.phase == Waiting
    requires s == h.server.state.(peerCertificates := s.peerCertificates, peerCertificatesVerified := s.peerCertificatesVerified)
    requires hinted == s.(identityHint := hinted.identityHint) && !Ready(s.cipherSuite) && s.cipherSuite.Some?
    requires h.keyed.Some? && Merged(h.net.server.Cache(), KEY_EXCHANGE_RULES) == h.keyed.Or(UNKEYED).text
    requires PreMasterIs(u, s, ClientKeyExchangeOf(h.client.state, u.client), pre)
    ensures KeysFromOk(u, h, s, hinted, pre)
  {
    hide Base, ClientScript, ServerScript, ServerDone, KeyedShape, Text, NumberedText, MasterSecret, RandomBytes, PskOk, Merged,
         ServerPreMaster, AnswerOk, Negotiated, ClientKeyExchangeOf, SoundExchange, SharedKey, KnownSuites, Opens, WellBehaved,
         ServerHeard, Scripts;
    ServerUnkeyed(u, h, s);
    KeyedFacts(u, h);
    var c, m, k := h.client.state, h.server, h.keyed.Or(UNKEYED);
    SamePreMaster(m.state, s, u.server, u.crypto, ClientKeyExchangeOf(c, u.client));
    SecretsAgree(u, c, m, h.serverPlan, h.offer.Or([]));
    SameTerms(u, c, m, h.serverPlan, h.offer.Or([]));
    SameMaster(u.crypto, c.extendedMasterSecret, pre, k.text, s.remoteRandom, s.localRandom, c.localRandom, c.remoteRandom);
  }

  lemma SamePreMaster(s: State, t: State, cfg: Config, crypto: Crypto, exchange: Message)
    requires exchange.ClientKeyExchangeMessage? && t.localKeypair == s.localKeypair
    ensures ServerPreMaster(t, cfg, crypto, exchange) == ServerPreMaster(s, cfg, crypto, exchange)
  {
  }

  lemma KeyedFacts(u: Setup, h: Honest)
    requires Scripts(u, h) && h.keyed.Some?
    ensures h.offer.Some? && AnswerOk(u, h.client.state, h.offer.Or([])) && ServerScript(u.server, u.crypto, h.server, h.serverPlan, h.offer)
    ensures u.client.psk.Some? ==> PskOk(u, h.client.state)
    ensures MasterSecret(u.crypto, h.client.state.extendedMasterSecret, h.client.state.preMasterSecret, h.keyed.Or(UNKEYED).text,
                         h.client.state.localRandom, h.client.state.remoteRandom) == Ok(h.client.state.masterSecret)
    ensures Ready(h.client.state.cipherSuite)
  {
    hide FirstHello, Hellos, KeyedShape, ServerScript, ServerHeard, ServerKeys, ServerDone, Text, NumberedText,
         MasterSecret, RandomBytes, PskOk, AnswerOk, ClientKeyExchangeOf;
  }

  // Flight 4, first half

  /** What deriving the keys may do to the server. */
  ghost predicate KeyStep(u: Setup, h: Honest, t: State, half: Halfway) {
    var s := h.server.state;
    Kept(s, t) && t.cookie == s.cookie && SameOffer(s, t)
    && FromCrypto(u.crypto, s, t) && (Ready(s.cipherSuite) ==> t.cipherSuite == s.cipherSuite)
    && t.remoteRandom == s.remoteRandom
    && (Ready(t.cipherSuite) ==> ServerKeys(u, h.client.state, t, h.keyed))
    && (half.Continue? ==> Ready(t.cipherSuite))
  }

  lemma StayStep(u: Setup, h: Honest, half: Halfway)
    requires Ready(h.server.state.cipherSuite) ==> ServerKeys(u, h.client.state, h.server.state, h.keyed)
    requires half.Halt?
    ensures KeyStep(u, h, h.server.state, half)
  {
  }

  lemma CheckedStep(u: Setup, h: Honest, s: State, t: State, half: Halfway)
    requires SetupOk(u) && SuiteOk(u, h.server)
    requires s == h.server.state.(peerCertificates := s.peerCertificates, peerCertificatesVerified := s.peerCertificatesVerified)
    requires t == s.(masterSecret := t.masterSecret, cipherSuite := t.cipherSuite, identityHint := t.identityHint)
    requires FromCrypto(u.crypto, s, t) && (Ready(s.cipherSuite) ==> t == s)
    requires Ready(t.cipherSuite) ==> ServerKeys(u, h.client.state, t, h.keyed)
    requires half.Continue? ==> Ready(t.cipherSuite)
    ensures KeyStep(u, h, t, half)
  {
    hide WellBehaved, RandomBytes, SoundExchange, KnownSuites;
  }

  lemma ServerKeyStep(u: Setup, h: Honest)
    requires SetupOk(u) && AllOk(u, h) && h.server.flight.Flight4? && h.server.phase == Waiting
    ensures var (t, half) := Flight4Keyed(h.server.state, u.server, u.crypto, h.net.server.Cache()); KeyStep(u, h, t, half)
  {
    hide SetupOk, Base, Scripts, FullPulled, CertificatesChecked, ServerKeyed, ClientKeyExchangeOf, FromCrypto, KeyStep, Ready,
         ServerKeys, SuiteOk, SoundSuites, SoundExchange, SharedKey, Negotiated, Opens, WellBehaved, SameOffer, Transmitted;
    var s, cache := h.server.state, h.net.server.Cache();
    ServerUnkeyed(u, h, s);
    BaseOut(u, h);
    StayStep(u, h, Halt(KEEP_READING));
    StayStep(u, h, Halt(WRONG_MESSAGE));
    if FullPulled(cache, s.recvSequence, CLIENT_KEY_RULES).Ok? {
      var (next, msgs) := FullPulled(cache, s.recvSequence, CLIENT_KEY_RULES).value;
      ExchangeArrives(u, h);
      ExchangeTravels(h.client.state, u.client);
      CertificatesKeep(s, u.server, u.crypto, cache, msgs);
      var (checked, failure) := CertificatesChecked(s, u.server, u.crypto, cache, msgs);
      ServerUnkeyed(u, h, checked);
      if failure.Some? {
        CheckedStep(u, h, checked, checked, Halt(failure.value));
      } else {
        var exchange := ClientKeyExchangeOf(h.client.state, u.client);
        KeysTaken(u, h, checked);
        ServerKeyedKeeps(checked, u.server, u.crypto, cache, exchange);
        var (keyed, failed) := ServerKeyed(checked, u.server, u.crypto, cache, exchange);
        CheckedStep(u, h, checked, keyed, if failed.Some? then Halt(failed.value) else Continue(next));
      }
    }
  }

  lemma KeyedScript(u: Setup, h: Honest, t: State, half: Halfway, p: Parsed)
    requires ServerScript(u.server, u.crypto, h.server, h.serverPlan, h.offer)
    requires ServerHeard(u, h.server, h.client.state.localRandom, h.clientPlan)
    requires h.server.flight.Flight4? && h.server.phase == Waiting && KeyStep(u, h, t, half) && p.Failed?
    ensures ServerScript(u.server, u.crypto, AfterParse(h.server, t, p), h.serverPlan, h.offer)
    ensures ServerHeard(u, AfterParse(h.server, t, p), h.client.state.localRandom, h.clientPlan)
    ensures h.offer.Some? && |h.serverPlan| == 1 + |h.offer.Or([])|
  {
    hide Answered, WellFormed, ServerKeys, FromCrypto, Flight4Generated, Numbered;
    OfferKept(h.server.state, t, u.server, u.crypto, h.offer.Or([]));
  }

  /** Before flight 6 nothing of the server is protected. */
  lemma AnswerClear(u: Setup, m: Machine, plan: seq<SentMessage>, offer: seq<Draft>)
    requires ServerScript(u.server, u.crypto, m, plan, Some(offer)) && |plan| == 1 + |offer|
    ensures !Protected(plan)
  {
    hide WellFormed, Flight4Generated, Numbered, SentOf;
    SentOfMessages(offer, 1);
    forall i | 0 <= i < |plan|
      ensures plan[i].epoch == 0
    {
      if i > 0 {
        assert plan[1..1 + |offer|][i - 1] == plan[i];
      }
    }
  }

  lemma KeyedBase(u: Setup, h: Honest, t: State, half: Halfway, p: Parsed)
    requires SetupOk(u) && AllOk(u, h) && h.server.flight.Flight4? && h.server.phase == Waiting && KeyStep(u, h, t, half) && p.Failed?
    ensures Base(u, h.(server := AfterParse(h.server, t, p)))
  {
    hide SetupOk, ClientScript, ServerScript, ServerHeard, ServerKeys, ServerDone, KeyedOk, ClientAnswered, Out, FromCrypto, SuiteOk,
         Ready, SealerOf, Protected, SoundSuites, SoundExchange, SharedKey, Opens, WellBehaved, SuiteForId, AfterParse;
    var next := AfterParse(h.server, t, p);
    BaseOut(u, h);
    AfterState(h.server, t, p);
    SuiteChain(u.crypto, h.server.state, h.server.state, t, next.state);
    SuiteSound(u, h.server, next);
    KeyedScript(u, h, t, half, p);
    AnswerClear(u, h.server, h.serverPlan, h.offer.Or([]));
    ParseOut(u, h.server, h.serverPlan, h.net.server, h.net.client, h.net.fromServer, u.serverMtu, t, p);
  }

  /** The server has read what it can of flight 5, but not yet the waiting records. */
  lemma KeyedKeeps(u: Setup, h: Honest, t: State, half: Halfway, p: Parsed)
    requires SetupOk(u) && AllOk(u, h) && h.server.flight.Flight4? && h.server.phase == Waiting && KeyStep(u, h, t, half) && p.Failed?
    ensures AllOk(u, h.(server := AfterParse(h.server, t, p)))
  {
    hide Base, SetupOk, ClientScript, ServerScript, ServerHeard, KeyedOk, ClientAnswered, FromCrypto, Text, SameOffer, RandomBytes,
         ServerKeys;
    KeyedBase(u, h, t, half, p);
    KeyedScript(u, h, t, half, p);
    AfterState(h.server, t, p);
    KeptServerKeys(u, h.client.state, t, AfterParse(h.server, t, p).state, h.keyed);
  }

  lemma KeptServerKeys(u: Setup, c: State, t: State, v: State, keyed: Option<Keyed>)
    requires v == t && (Ready(t.cipherSuite) ==> ServerKeys(u, c, t, keyed))
    ensures ServerKeys(u, c, v, keyed)
  {
  }

  // Flight 4, second half

  /** A Finished of the client in the cache is the last thing the client has to say. */
  lemma FinishedArrives(u: Setup, h: Honest, start: int)
    requires SetupOk(u) && AllOk(u, h) && FullPulled(h.net.server.Cache(), start, [CLIENT_FINISHED_RULE]).Ok?
    ensures h.net.server.Popped() == |h.clientPlan|
  {
    hide SetupOk, Base, ClientScript, ServerScript, ServerHeard, ServerKeys, ServerDone, ClientAnswered, UnmarshalHandshake,
         RawHandshake.Whole, Unique, OwnPart, FullPulled, IsLast, KeyedOk, Best, WellFormed, Numbered;
    CacheParts(u, h);
    var rules := [CLIENT_FINISHED_RULE];
    var table := h.clientPlan[..h.net.server.Popped()];
    var i := PulledFromPart(h.net.server.Cache(), table, start, rules, CLIENT_FINISHED_RULE);
    LastIs(table, CLIENT_FINISHED_RULE, i);
    assert table[i] == h.clientPlan[i];
    KeyIndex(h.clientPlan, h.keyed, u.client, h.client, i);
    OnlyFinished(h.clientPlan, h.keyed.Or(UNKEYED), u.client, h.client, i);
  }

  /** The Finished is the client's last message, and its only one. */
  lemma OnlyFinished(plan: seq<SentMessage>, k: Keyed, cfg: Config, m: Machine, i: nat)
    requires ClientScript(cfg, m, plan, Some(k)) && i < |plan|
    requires plan[i].h.typ == HandshakeType.Finished && plan[i].epoch == 1
    ensures i == |plan| - 1
  {
    hide FirstHello, WellFormed, Numbered, Hellos;
    KeyIndex(plan, Some(k), cfg, m, i);
    PlanParts(plan, k);
  }

  lemma FinishedStep(s: State, cfg: Config, cache: seq<Item>, start: int)
    ensures var (t, p) := Flight4Finished(s, cfg, cache, start);
            t == s.(recvSequence := t.recvSequence)
            && (p.Next? ==> p == Next(Flight6) && FullPulled(cache, start, [CLIENT_FINISHED_RULE]).Ok?)
  {
    hide FullPulled;
  }

  lemma FinishedScript(u: Setup, h: Honest, t: State, p: Parsed)
    requires ServerScript(u.server, u.crypto, h.server, h.serverPlan, h.offer)
    requires ServerHeard(u, h.server, h.client.state.localRandom, h.clientPlan)
    requires h.server.flight.Flight4? && h.server.phase == Waiting && (p.Next? ==> p == Next(Flight6))
    requires t == h.server.state.(recvSequence := t.recvSequence)
    ensures ServerScript(u.server, u.crypto, AfterParse(h.server, t, p), h.serverPlan, h.offer)
    ensures ServerHeard(u, AfterParse(h.server, t, p), h.client.state.localRandom, h.clientPlan)
    ensures h.offer.Some? && |h.serverPlan| == 1 + |h.offer.Or([])|
  {
    hide Answered, WellFormed, Flight4Generated, Numbered;
    OfferKept(h.server.state, t, u.server, u.crypto, h.offer.Or([]));
  }

  lemma FinishedBase(u: Setup, h: Honest, t: State, p: Parsed)
    requires SetupOk(u) && AllOk(u, h) && h.server.flight.Flight4? && h.server.phase == Waiting
    requires (p.Next? ==> p == Next(Flight6)) && t == h.server.state.(recvSequence := t.recvSequence)
    ensures Base(u, h.(server := AfterParse(h.server, t, p)))
  {
    hide SetupOk, ClientScript, ServerScript, ServerHeard, ServerKeys, ServerDone, KeyedOk, ClientAnswered, Out, SuiteOk,
         Ready, SealerOf, Protected;
    var next := AfterParse(h.server, t, p);
    BaseOut(u, h);
    AfterState(h.server, t, p);
    SameSuite(u, h.server, next);
    ParseOut(u, h.server, h.serverPlan, h.net.server, h.net.client, h.net.fromServer, u.serverMtu, t, p);
  }

  lemma FinishedDone(u: Setup, c: State, m: Machine, next: Machine, clientPlan: seq<SentMessage>, plan: seq<SentMessage>,
                     offer: seq<Draft>, popped: nat)
    requires |plan| == 1 + |offer|
    requires m.state.localVerifyData == [] && next.state.localVerifyData == [] && next.state.cipherSuite == m.state.cipherSuite
    requires next.flight.Flight6? ==> Ready(m.state.cipherSuite) && popped == |clientPlan|
    ensures ServerDone(u, c, next, clientPlan, plan, Some(offer), popped)
  {
  }

  /** The server looking for the client's Finished. */
  lemma FinishedKeeps(u: Setup, h: Honest, start: int)
    requires SetupOk(u) && AllOk(u, h) && h.server.flight.Flight4? && h.server.phase == Waiting && Ready(h.server.state.cipherSuite)
    ensures var (t, p) := Flight4Finished(h.server.state, u.server, h.net.server.Cache(), start);
            AllOk(u, h.(server := AfterParse(h.server, t, p)))
  {
    hide Base, SetupOk, ClientScript, ServerScript, ServerHeard, KeyedOk, ClientAnswered, Text, Flight4Finished, ServerDone, ServerKeys,
         AfterParse, Ready, FullPulled;
    var (t, p) := Flight4Finished(h.server.state, u.server, h.net.server.Cache(), start);
    var next := AfterParse(h.server, t, p);
    FinishedStep(h.server.state, u.server, h.net.server.Cache(), start);
    FinishedBase(u, h, t, p);
    FinishedScript(u, h, t, p);
    AfterState(h.server, t, p);
    if p.Next? {
      FinishedArrives(u, h, start);
    }
    NextFlight(h.server, t, p);
    SameServerKeys(u, h.client.state, h.server.state, next.state, h.keyed);
    FinishedDone(u, h.client.state, h.server, next, h.clientPlan, h.serverPlan, h.offer.Or([]), h.net.server.Popped());
  }

  lemma NextFlight(m: Machine, t: State, p: Parsed)
    requires m.flight.Flight4?
    ensures AfterParse(m, t, p).flight.Flight6? ==> p.Next?
  {
  }

  /** The server reading in flight 4: keys, then the records that waited for them, then the Finished. */
  lemma KeyReadKeeps(u: Setup, h: Honest, key: nat)
    requires SetupOk(u) && AllOk(u, h) && h.server.flight.Flight4? && h.server.phase == Waiting
    ensures AllOk(u, ParsedBy(u, h, false, key))
  {
    hide SetupOk, AllOk, Flight4Keyed, Flight4Finished, KeyStep, HonestWorlds.Taken, Ready, FlightParsed, ServerKeys, FromCrypto;
    var m, cache := h.server, h.net.server.Cache();
    ServerKeyStep(u, h);
    match Flight4Keyed(m.state, u.server, u.crypto, cache)
    case (s, Halt(failure)) =>
      KeyedKeeps(u, h, s, Halt(failure), Failed(failure));
    case (s, Continue(next)) =>
      KeyedKeeps(u, h, s, Continue(next), Failed(KEEP_READING));
      ContinueReady(u, h, s, next);
      var keyed := h.(server := m.(state := s));
      assert AfterParse(m, s, Failed(KEEP_READING)) == m.(state := s);
      ArriveKeeps(u, keyed, false, Queue(s.cipherSuite));
      var read := keyed.(net := HonestWorlds.Taken(u, keyed, false, Queue(s.cipherSuite)));
      FinishedKeeps(u, read, next);
  }

  lemma ContinueReady(u: Setup, h: Honest, t: State, next: int)
    requires KeyStep(u, h, t, Continue(next))
    ensures Ready(t.cipherSuite)
  {
  }
}
