/** The client reading flight 4 keeps an honest handshake honest. */
module HonestClientReads {
  import opened Wrappers
  import opened Bytes
  import opened Headers
  import opened Extensions
  import opened Messages
  import opened Handshakes
  import opened HandshakeCaches
  import opened Reading
  import opened Reassembly
  import opened WireRecords
  import opened Emission
  import opened HandshakeStates
  import opened ServerFlights
  import opened ClientFlights
  import opened Handshaking
  import opened Planning
  import opened FlightEffects
  import opened HonestWorlds
  import opened HonestSends
  import opened HonestScripts
  import opened HonestTexts
  import opened HonestPreparing
  import opened HonestAnswers
  import opened HonestKeying
  import opened HonestPulls

  ghost predicate HasEms(extensions: seq<Extension>) {
    exists b :: UseExtendedMasterSecret(b) in extensions
  }

  lemma {:induction false} AnswerExtensionsTaken(s: State, cfg: Config, extensions: seq<Extension>)
    ensures var (t, failure) := AnswerExtensions(s, cfg, extensions);
            t == s.(srtpProfile := t.srtpProfile, extendedMasterSecret := t.extendedMasterSecret)
            && (failure.None? ==>
                  t.extendedMasterSecret == (s.extendedMasterSecret || (HasEms(extensions) && cfg.extendedMasterSecret.Offers())))
            && (failure.Some? ==> failure.value.error.Some?)
    decreases |extensions|
  {
    hide HasEms;
    if extensions == [] {
      assert !HasEms(extensions) by { NoEms(); }
    } else {
      var e, rest := extensions[0], extensions[1..];
      EmsFirst(extensions);
      match e
      case UseSrtp(profiles) =>
        if FirstMatch(profiles, cfg.srtpProfiles).Some? {
          AnswerExtensionsTaken(s.(srtpProfile := FirstMatch(profiles, cfg.srtpProfiles).value), cfg, rest);
        }
      case UseExtendedMasterSecret(_) =>
        AnswerExtensionsTaken(if cfg.extendedMasterSecret.Offers() then s.(extendedMasterSecret := true) else s, cfg, rest);
      case _ =>
        AnswerExtensionsTaken(s, cfg, rest);
    }
  }

  lemma NoEms()
    ensures !HasEms([])
  {
  }

  lemma EmsFirst(extensions: seq<Extension>)
    requires extensions != []
    ensures HasEms(extensions) <==> extensions[0].UseExtendedMasterSecret? || HasEms(extensions[1..])
  {
  }

  lemma ServerHelloTaken(s: State, cfg: Config, msgs: map<HandshakeType, Message>)
    requires ServerHello in msgs && msgs[ServerHello].ServerHelloMessage?
    ensures var (t, failure) := ServerHelloParsed(s, cfg, msgs);
            var hello := msgs[ServerHello].serverHello;
            t.localKeypair == s.localKeypair && t.preMasterSecret == s.preMasterSecret && t.localRandom == s.localRandom
            && (failure.None? ==>
                  t.remoteRandom == hello.random && t.cipherSuite == Some(NewSuite(hello.cipherSuite))
                  && t.extendedMasterSecret
                     == (s.extendedMasterSecret || (HasEms(hello.extensions) && cfg.extendedMasterSecret.Offers())))
            && (failure.Some? ==> failure.value.error.Some?)
  {
    hide AnswerExtensions, NewSuite;
    AnswerExtensionsTaken(s, cfg, msgs[ServerHello].serverHello.extensions);
  }

  /** What the later messages of flight 4 leave alone. */
  ghost predicate SameGreeting(s: State, t: State) {
    t.remoteRandom == s.remoteRandom && t.cipherSuite == s.cipherSuite && t.extendedMasterSecret == s.extendedMasterSecret
  }

  ghost predicate Typed(msgs: map<HandshakeType, Message>) {
    (Certificate in msgs ==> msgs[Certificate].CertificateMessage?)
    && (ServerKeyExchange in msgs ==> msgs[ServerKeyExchange].ServerKeyExchangeMessage?)
    && (CertificateRequest in msgs ==> msgs[CertificateRequest].CertificateRequestMessage?)
  }

  lemma ExchangeTaken(s: State, cfg: Config, crypto: Crypto, msgs: map<HandshakeType, Message>, key: nat)
    requires Typed(msgs)
    ensures var (t, failure) := ExchangeParsed(s, cfg, crypto, msgs, key);
            SameGreeting(s, t)
            && (failure.Some? ==> failure.value.error.Some?)
            && (failure.None? && ServerKeyExchange in msgs ==>
                  var x := msgs[ServerKeyExchange].serverKeyExchange;
                  if cfg.psk.Some? then
                    cfg.psk.value(x.identityHint).Ok?
                    && t.preMasterSecret == crypto.pskPreMasterSecret(cfg.psk.value(x.identityHint).value)
                  else
                    t.localKeypair.Some? && crypto.keypair(x.namedCurve, key) == Ok(t.localKeypair.value)
                    && crypto.preMasterSecret(x.publicKey, t.localKeypair.value) == Ok(t.preMasterSecret))
  {
  }

  /** Reading all of flight 4. */
  lemma AnswerTaken(s: State, cfg: Config, crypto: Crypto, cache: seq<Item>, key: nat)
    requires FullPulled(cache, s.recvSequence, AnswerRules(cfg)).Ok?
    requires var msgs := FullPulled(cache, s.recvSequence, AnswerRules(cfg)).value.1;
             Typed(msgs) && ServerHello in msgs && msgs[ServerHello].ServerHelloMessage?
    ensures var (t, p) := AnswerParsed(s, cfg, crypto, cache, key);
            var msgs := FullPulled(cache, s.recvSequence, AnswerRules(cfg)).value.1;
            var hello := msgs[ServerHello].serverHello;
            (p.Failed? ==> p.failure.error.Some?)
            && (p.Next? ==>
                  t.remoteRandom == hello.random && t.cipherSuite == Some(NewSuite(hello.cipherSuite))
                  && t.extendedMasterSecret
                     == (s.extendedMasterSecret || (HasEms(hello.extensions) && cfg.extendedMasterSecret.Offers()))
                  && (ServerKeyExchange in msgs ==>
                        var x := msgs[ServerKeyExchange].serverKeyExchange;
                        if cfg.psk.Some? then
                          cfg.psk.value(x.identityHint).Ok?
                          && t.preMasterSecret == crypto.pskPreMasterSecret(cfg.psk.value(x.identityHint).value)
                        else
                          t.localKeypair.Some? && crypto.keypair(x.namedCurve, key) == Ok(t.localKeypair.value)
                          && crypto.preMasterSecret(x.publicKey, t.localKeypair.value) == Ok(t.preMasterSecret)))
  {
    hide FullPulled, ServerHelloParsed, ExchangeParsed, AnswerRules, SameGreeting;
    var (next, msgs) := FullPulled(cache, s.recvSequence, AnswerRules(cfg)).value;
    var read := s.(recvSequence := next);
    ServerHelloTaken(read, cfg, msgs);
    var greeted := ServerHelloParsed(read, cfg, msgs).0;
    var shown := ServerCertificateParsed(greeted, msgs).0;
    ExchangeTaken(shown, cfg, crypto, msgs, key);
  }

  // Suites

  ghost predicate OldOrNew(s: State, t: State) {
    t.cipherSuite == s.cipherSuite || exists id :: t.cipherSuite == Some(NewSuite(id))
  }

  lemma OldOrNewOk(u: Setup, m: Machine, next: Machine)
    requires SuiteOk(u, m) && OldOrNew(m.state, next.state)
    ensures SuiteOk(u, next)
    ensures !Ready(m.state.cipherSuite) ==> !Ready(next.state.cipherSuite) && SealerOf(next) == SealerOf(m)
  {
  }

  lemma AnswerSuite(s: State, cfg: Config, crypto: Crypto, cache: seq<Item>, key: nat)
    ensures OldOrNew(s, AnswerParsed(s, cfg, crypto, cache, key).0)
  {
    hide FullPulled, AnswerRules, ServerHelloParsed, ServerCertificateParsed, ExchangeParsed, RequestParsed;
    var pulled := FullPulled(cache, s.recvSequence, AnswerRules(cfg));
    if pulled.Ok? {
      var (next, msgs) := pulled.value;
      var read := s.(recvSequence := next);
      GreetingSuite(read, cfg, msgs);
      var greeted := ServerHelloParsed(read, cfg, msgs).0;
      LaterPartsKeep(greeted, cfg, crypto, msgs, key);
      var shown := ServerCertificateParsed(greeted, msgs).0;
      LaterPartsKeep(shown, cfg, crypto, msgs, key);
      LaterPartsKeep(ExchangeParsed(shown, cfg, crypto, msgs, key).0, cfg, crypto, msgs, key);
    }
  }

  lemma GreetingSuite(s: State, cfg: Config, msgs: map<HandshakeType, Message>)
    ensures OldOrNew(s, ServerHelloParsed(s, cfg, msgs).0)
  {
    hide AnswerExtensions;
    if ServerHello in msgs && msgs[ServerHello].ServerHelloMessage? {
      AnswerExtensionsTaken(s, cfg, msgs[ServerHello].serverHello.extensions);
    }
  }

  // In the handshake

  /** What the client reads as flight 4 is flight 4. */
  ghost predicate ExchangeGiven(cfg: Config, msgs: map<HandshakeType, Message>, offer: seq<Draft>) {
    (cfg.psk.None? ==> ServerKeyExchange in msgs)
    && (ServerKeyExchange in msgs ==>
          msgs[ServerKeyExchange].ServerKeyExchangeMessage? && MessageDraft(0, msgs[ServerKeyExchange]) in offer)
    && (OffersExchange(offer) ==> ServerKeyExchange in msgs)
  }

  ghost predicate AnswerGiven(cfg: Config, msgs: map<HandshakeType, Message>, offer: seq<Draft>) {
    Typed(msgs) && offer != [] && offer[0].MessageDraft? && offer[0].message.ServerHelloMessage?
    && Gives(msgs, ServerHello, Messages.Transmitted(offer[0].message)) && ExchangeGiven(cfg, msgs, offer)
  }

  ghost predicate OthersTyped(msgs: map<HandshakeType, Message>) {
    (Certificate in msgs ==> msgs[Certificate].CertificateMessage?)
    && (CertificateRequest in msgs ==> msgs[CertificateRequest].CertificateRequestMessage?)
  }

  lemma AnswerPulled(u: Setup, h: Honest)
    requires SetupOk(u) && Base(u, h) && ServerScript(u.server, u.crypto, h.server, h.serverPlan, h.offer)
    requires FullPulled(h.net.client.Cache(), h.client.state.recvSequence, AnswerRules(u.client)).Ok?
    ensures h.offer.Some? && h.net.client.Popped() >= 1 + |h.offer.Or([])|
    ensures AnswerGiven(u.client, MessagesPulled(h.net.client.Cache(), h.client.state.recvSequence, AnswerRules(u.client)), h.offer.Or([]))
  {
    hide SetupOk, Base, ServerScript, FullPulled, DistinctTypes, OffersExchange, AnswerRules;
    var cache, start, rules := h.net.client.Cache(), h.client.state.recvSequence, AnswerRules(u.client);
    AnswerRulesList(u.client);
    AnswerRulesDistinct(u.client);
    var hello := ClientPulled(u, h, start, rules, Rule(ServerHello, 0, false, false));
    var done := ClientPulled(u, h, start, rules, Rule(ServerHelloDone, 0, false, false));
    var msgs := MessagesPulled(cache, start, rules);
    TypedHello(h.offer.Or([])[0].message);
    ExchangePulled(u, h);
    OthersPulled(u, h);
  }

  lemma AnswerRulesList(cfg: Config)
    ensures Rule(ServerHello, 0, false, false) in AnswerRules(cfg) && Rule(ServerHelloDone, 0, false, false) in AnswerRules(cfg)
    ensures Rule(ServerKeyExchange, 0, false, cfg.psk.Some?) in AnswerRules(cfg)
    ensures cfg.psk.None? ==>
              Rule(Certificate, 0, false, true) in AnswerRules(cfg) && Rule(CertificateRequest, 0, false, true) in AnswerRules(cfg)
    ensures forall r :: r in AnswerRules(cfg) ==>
              r.typ == ServerHello || r.typ == ServerHelloDone || r.typ == ServerKeyExchange
              || (cfg.psk.None? && (r.typ == Certificate || r.typ == CertificateRequest))
  {
  }

  lemma TypedHello(m: Message)
    requires m.Type() == ServerHello
    ensures m.ServerHelloMessage?
  {
  }

  lemma TypedExchange(m: Message)
    requires Messages.Transmitted(m).Type() == ServerKeyExchange
    ensures m.ServerKeyExchangeMessage? && Messages.Transmitted(m) == m
  {
  }

  lemma ExchangePulled(u: Setup, h: Honest)
    requires SetupOk(u) && Base(u, h) && ServerScript(u.server, u.crypto, h.server, h.serverPlan, h.offer)
    requires h.offer.Some? && h.net.client.Popped() >= 1 + |h.offer.Or([])|
    requires FullPulled(h.net.client.Cache(), h.client.state.recvSequence, AnswerRules(u.client)).Ok?
    ensures ExchangeGiven(u.client, MessagesPulled(h.net.client.Cache(), h.client.state.recvSequence, AnswerRules(u.client)),
                          h.offer.Or([]))
  {
    hide SetupOk, Base, ServerScript, FullPulled, DistinctTypes, AnswerRules, OwnPart, Unique, IsLast, Messages.Transmitted,
         UnmarshalHandshake, RawHandshake.Whole, Best, Message.Type;
    var cache, start, rules := h.net.client.Cache(), h.client.state.recvSequence, AnswerRules(u.client);
    AnswerRulesList(u.client);
    AnswerRulesDistinct(u.client);
    var r := Rule(ServerKeyExchange, 0, false, u.client.psk.Some?);
    var i := ClientPulled(u, h, start, rules, r);
    var msgs := MessagesPulled(cache, start, rules);
    if ServerKeyExchange in msgs {
      TypedExchange(h.offer.Or([])[i].message);
      assert h.offer.Or([])[i] == MessageDraft(0, msgs[ServerKeyExchange]);
      assert h.offer.Or([])[i] in h.offer.Or([]);
    }
    if OffersExchange(h.offer.Or([])) {
      CacheParts(u, h);
      var table := h.serverPlan[..h.net.client.Popped()];
      var x :| MessageDraft(0, ServerKeyExchangeMessage(x)) in h.offer.Or([]);
      var j :| 0 <= j < |h.offer.Or([])| && h.offer.Or([])[j] == MessageDraft(0, ServerKeyExchangeMessage(x));
      ExchangeType(x);
      OfferedLast(u, h, r, j);
      var _ := PulledFromPart(cache, table, start, rules, r);
    }
  }

  lemma ExchangeType(x: ServerKeyExchangeBody)
    ensures ServerKeyExchangeMessage(x).Type() == ServerKeyExchange
  {
  }

  ghost predicate OffersAt(offer: seq<Draft>, t: HandshakeType, i: int) {
    0 <= i < |offer| && offer[i].MessageDraft? && offer[i].message.Type() == t
  }

  /** A message on offer that has been popped is found. */
  ghost predicate HasLast(plan: seq<SentMessage>, n: nat, r: Rule) {
    n <= |plan| && exists j: nat :: IsLast(plan[..n], r, j)
  }

  lemma OfferedLast(u: Setup, h: Honest, r: Rule, i: nat)
    requires SetupOk(u) && Base(u, h) && ServerScript(u.server, u.crypto, h.server, h.serverPlan, h.offer)
    requires h.offer.Some? && h.net.client.Popped() >= 1 + |h.offer.Or([])| && OffersAt(h.offer.Or([]), r.typ, i) && r.epoch == 0
    ensures HasLast(h.serverPlan, h.net.client.Popped(), r)
  {
    hide SetupOk, Base, OwnPart, Unique, WellFormed, Numbered, Flight4Generated, SentOf, RawHandshake.Whole, IsLast,
         HandshakeRandom.Valid, Size, MarshalAll, Writable, ClientHelloWellFormed, ServerKeyExchangeWellFormed;
    CacheParts(u, h);
    var plan, offer := h.serverPlan, h.offer.Or([]);
    var table := plan[..h.net.client.Popped()];
    SentOfMessages(offer, 1);
    assert plan[1..1 + |offer|][i] == table[1 + i];
    NumberedAt(offer[i].message, WrappedU16(1 + i));
    LastExists(table, r, 1 + i);
  }

  lemma {:induction false} LastExists(sent: seq<SentMessage>, r: Rule, i: nat)
    requires i < |sent| && sent[i].h.typ == r.typ && sent[i].epoch == r.epoch
    ensures exists j: nat :: IsLast(sent, r, j)
    decreases |sent| - i
  {
    if k :| i < k < |sent| && sent[k].h.typ == r.typ && sent[k].epoch == r.epoch {
      LastExists(sent, r, k);
    } else {
      assert IsLast(sent, r, i);
    }
  }

  lemma OthersPulled(u: Setup, h: Honest)
    requires SetupOk(u) && Base(u, h) && ServerScript(u.server, u.crypto, h.server, h.serverPlan, h.offer)
    requires FullPulled(h.net.client.Cache(), h.client.state.recvSequence, AnswerRules(u.client)).Ok?
    ensures OthersTyped(MessagesPulled(h.net.client.Cache(), h.client.state.recvSequence, AnswerRules(u.client)))
  {
    hide SetupOk, Base, ServerScript, FullPulled, DistinctTypes, AnswerRules, Messages.Transmitted, Option.Or;
    var start, rules := h.client.state.recvSequence, AnswerRules(u.client);
    AnswerRulesList(u.client);
    AnswerRulesDistinct(u.client);
    if u.client.psk.None? {
      var i := ClientPulled(u, h, start, rules, Rule(Certificate, 0, false, true));
      var j := ClientPulled(u, h, start, rules, Rule(CertificateRequest, 0, false, true));
    } else {
      PulledTypes(h.net.client.Cache(), start, rules);
    }
  }

  lemma PulledTypes(cache: seq<Item>, start: int, rules: seq<Rule>)
    requires FullPulled(cache, start, rules).Ok?
    ensures forall t :: t in FullPulled(cache, start, rules).value.1 ==> exists r :: r in rules && r.typ == t
  {
    hide UnmarshalHandshake, Best, InSequence, Collected;
    InSequenceMessages(rules, Collected(cache, rules, map[]).value, start, map[]);
  }

  lemma OfferedEms(s: State, cfg: Config)
    ensures HasEms(ServerHelloExtensions(s, cfg)) <==> UseExtendedMasterSecret(true) in ServerHelloExtensions(s, cfg)
  {
  }

  lemma OfferHello(u: Setup, m: Machine, plan: seq<SentMessage>, offer: seq<Draft>)
    requires ServerScript(u.server, u.crypto, m, plan, Some(offer))
    ensures offer != [] && offer[0].MessageDraft? && offer[0].message == ServerHelloOf(m.state, u.server)
    ensures HasEms(offer[0].message.serverHello.extensions)
       <==> UseExtendedMasterSecret(true) in offer[0].message.serverHello.extensions
  {
    hide Answered, WellFormed, Flight4Generated, ServerHelloExtensions, Numbered, VerifyOnly;
    OfferShape(m.state, u.server, u.crypto, offer);
    assert offer[0] in offer;
    OfferedEms(m.state, u.server);
  }

  /** Going on to flight 5, the client has taken over what flight 4 says. */
  /** Without an error, a failed read leaves the state as it was. */
  ghost predicate FailsSafely(p: Parsed, s: State, t: State) {
    p.Failed? ==> p.failure.error.Some? || t == s
  }

  lemma ClientTakes(u: Setup, h: Honest, key: nat)
    requires SetupOk(u) && AllOk(u, h) && h.client.phase == Waiting && (h.client.flight.Flight1? || h.client.flight.Flight3?)
    ensures var (t, p) := AnswerParsed(h.client.state, u.client, u.crypto, h.net.client.Cache(), key);
            FailsSafely(p, h.client.state, t)
            && (p.Next? ==> p == Next(Flight5) && h.offer.Some? && h.net.client.Popped() >= 1 + |h.offer.Or([])|
                            && AnswerOk(u, t, h.offer.Or([])))
  {
    hide Base, FullPulled, ServerScript, ServerHeard, KeyedOk, ServerKeys, ServerDone, SetupOk, FirstHello,
         Hellos, AnswerParsed, Typed, HasEms, AnswerRules, ClientAnswered;
    var s, cache := h.client.state, h.net.client.Cache();
    AnswerEffect(s, u.client, u.crypto, cache, key);
    if FullPulled(cache, s.recvSequence, AnswerRules(u.client)).Ok? {
      AnswerPulled(u, h);
      AnswerTaken(s, u.client, u.crypto, cache, key);
      OfferHello(u, h.server, h.serverPlan, h.offer.Or([]));
      if AnswerParsed(s, u.client, u.crypto, cache, key).1.Next? {
        TakenOk(u, h, key);
      }
    } else {
      NotPulled(s, u.client, u.crypto, cache, key);
    }
  }

  lemma NotPulled(s: State, cfg: Config, crypto: Crypto, cache: seq<Item>, key: nat)
    requires FullPulled(cache, s.recvSequence, AnswerRules(cfg)).Err?
    ensures AnswerParsed(s, cfg, crypto, cache, key) == (s, Failed(KEEP_READING))
  {
    hide FullPulled;
  }

  lemma TakenOk(u: Setup, h: Honest, key: nat)
    requires h.offer.Some? && h.offer.Or([]) != [] && h.offer.Or([])[0].MessageDraft? && h.offer.Or([])[0].message.ServerHelloMessage?
    requires HasEms(h.offer.Or([])[0].message.serverHello.extensions)
        <==> UseExtendedMasterSecret(true) in h.offer.Or([])[0].message.serverHello.extensions
    requires FullPulled(h.net.client.Cache(), h.client.state.recvSequence, AnswerRules(u.client)).Ok?
    requires !h.client.state.extendedMasterSecret
    requires var msgs := FullPulled(h.net.client.Cache(), h.client.state.recvSequence, AnswerRules(u.client)).value.1;
             ServerHello in msgs && msgs[ServerHello] == Messages.Transmitted(h.offer.Or([])[0].message)
             && Typed(msgs)
             && (u.client.psk.None? ==> ServerKeyExchange in msgs)
             && (ServerKeyExchange in msgs ==> MessageDraft(0, msgs[ServerKeyExchange]) in h.offer.Or([]))
             && (OffersExchange(h.offer.Or([])) ==> ServerKeyExchange in msgs)
    requires AnswerParsed(h.client.state, u.client, u.crypto, h.net.client.Cache(), key).1.Next?
    ensures AnswerOk(u, AnswerParsed(h.client.state, u.client, u.crypto, h.net.client.Cache(), key).0, h.offer.Or([]))
  {
    hide FullPulled, AnswerParsed, HasEms, AnswerRules;
    var s, cache := h.client.state, h.net.client.Cache();
    AnswerTaken(s, u.client, u.crypto, cache, key);
    var msgs := FullPulled(cache, s.recvSequence, AnswerRules(u.client)).value.1;
    var t := AnswerParsed(s, u.client, u.crypto, cache, key).0;
    if ServerKeyExchange in msgs {
      var x := msgs[ServerKeyExchange].serverKeyExchange;
      assert MessageDraft(0, ServerKeyExchangeMessage(x)) in h.offer.Or([]);
      if u.client.psk.None? {
        assert u.crypto.keypair(x.namedCurve, key) == Ok(t.localKeypair.value);
      } else {
        HintKnown(u, t, x.identityHint);
      }
    }
  }

  lemma HintKnown(u: Setup, t: State, hint: Bytes)
    requires u.client.psk.Some? && u.client.psk.value(hint).Ok?
    requires t.preMasterSecret == u.crypto.pskPreMasterSecret(u.client.psk.value(hint).value)
    ensures PskOk(u, t)
  {
  }

  /** What reading flights 2 and 4 may do to the client. */
  ghost predicate ClientStep(u: Setup, h: Honest, t: State, p: Parsed) {
    Kept(h.client.state, t) && OldOrNew(h.client.state, t)
    && match p
       case Failed(failure) => failure.error.Some? || t == h.client.state
       case Next(flight) =>
         (flight.Flight3? && t == h.client.state.(cookie := t.cookie, recvSequence := t.recvSequence))
         || (flight.Flight5? && h.offer.Some? && h.net.client.Popped() >= 1 + |h.offer.Or([])| && AnswerOk(u, t, h.offer.Or([])))
  }

  lemma VerifyStep(u: Setup, h: Honest, request: Message, next: int)
    ensures var (t, p) := VerifyRequested(h.client.state, request, next); ClientStep(u, h, t, p)
  {
    hide AnswerOk;
  }

  lemma AnswerStep(u: Setup, h: Honest, key: nat)
    requires SetupOk(u) && AllOk(u, h) && h.client.phase == Waiting && (h.client.flight.Flight1? || h.client.flight.Flight3?)
    ensures var (t, p) := AnswerParsed(h.client.state, u.client, u.crypto, h.net.client.Cache(), key); ClientStep(u, h, t, p)
  {
    hide SetupOk, AllOk, AnswerParsed, OldOrNew, AnswerOk;
    ClientTakes(u, h, key);
    AnswerEffect(h.client.state, u.client, u.crypto, h.net.client.Cache(), key);
    AnswerSuite(h.client.state, u.client, u.crypto, h.net.client.Cache(), key);
  }

  lemma ClientParsed(u: Setup, h: Honest, key: nat)
    requires SetupOk(u) && AllOk(u, h) && h.client.phase == Waiting && (h.client.flight.Flight1? || h.client.flight.Flight3?)
    ensures var (t, p) := FlightParsed(h.client.flight, h.client.state, u.client, u.crypto, h.net.client.Cache(), key);
            ClientStep(u, h, t, p)
  {
    hide SetupOk, AllOk, AnswerParsed, FullPulled, VerifyRequested, ClientStep, AnswerOk, Flight4Keyed, Flight0Parsed, Flight5Parsed,
         Flight4Finished;
    var s, cache := h.client.state, h.net.client.Cache();
    AnswerStep(u, h, key);
    Unread(u, h);
    var again := FullPulled(cache, s.recvSequence, [VERIFY_RULE]);
    if again.Ok? && HelloVerifyRequest in again.value.1 {
      VerifyStep(u, h, again.value.1[HelloVerifyRequest], again.value.0);
    }
    var first := FullPulled(cache, s.recvSequence, FIRST_ANSWER_RULES);
    if first.Ok? && HelloVerifyRequest in first.value.1 {
      VerifyStep(u, h, first.value.1[HelloVerifyRequest], first.value.0);
    }
  }

  lemma Unread(u: Setup, h: Honest)
    ensures ClientStep(u, h, h.client.state, Failed(KEEP_READING)) && ClientStep(u, h, h.client.state, Failed(WRONG_MESSAGE))
  {
    hide AnswerOk, NewSuite;
  }

  lemma ClientReadScript(u: Setup, h: Honest, t: State, p: Parsed)
    requires ClientScript(u.client, h.client, h.clientPlan, h.keyed) && h.client.phase == Waiting
    requires h.client.flight.Flight1? || h.client.flight.Flight3?
    requires ClientStep(u, h, t, p)
    ensures ClientScript(u.client, AfterParse(h.client, t, p), h.clientPlan, h.keyed)
    ensures ClientAnswered(u, AfterParse(h.client, t, p), h.offer, h.keyed, h.net.client.Popped())
    ensures h.keyed.None? && t.localRandom == h.client.state.localRandom
    ensures !Ready(h.client.state.cipherSuite) && !Ready(t.cipherSuite)
  {
    hide FirstHello, Hellos, AnswerOk, KeyedShape;
  }

  /** The client reading in flights 1 and 3. */
  lemma ClientReadKeeps(u: Setup, h: Honest, key: nat)
    requires SetupOk(u) && AllOk(u, h) && h.client.phase == Waiting && (h.client.flight.Flight1? || h.client.flight.Flight3?)
    ensures AllOk(u, ParsedBy(u, h, true, key))
  {
    hide WellFormed, UnmarshalHandshake, Taken, Flight4Keyed, Numbered, Base, SetupOk, ClientScript, ServerScript, ServerHeard,
         ServerKeys, ServerDone, KeyedOk, Ready, AnswerOk, ClientAnswered, FlightParsed, ClientStep, AfterParse, Flight4Finished;
    ClientParsed(u, h, key);
    var (t, p) := FlightParsed(h.client.flight, h.client.state, u.client, u.crypto, h.net.client.Cache(), key);
    var next := AfterParse(h.client, t, p);
    ClientReadBase(u, h, t, p);
    ClientReadScript(u, h, t, p);
    NotKeyed(u, h.client.state, next.state, h.server, h.clientPlan, h.clientPlan, h.serverPlan, h.offer, h.net.server.Popped());
    AfterState(h.client, t, p);
    StillHeard(u, h.server, h.client.state.localRandom, h.clientPlan, next.state.localRandom, h.clientPlan);
    assert ParsedBy(u, h, true, key) == h.(client := next);
  }

  lemma AfterState(m: Machine, t: State, p: Parsed)
    ensures AfterParse(m, t, p).state == t && AfterParse(m, t, p).flights == m.flights
  {
  }

  lemma ClientReadBase(u: Setup, h: Honest, t: State, p: Parsed)
    requires SetupOk(u) && AllOk(u, h) && h.client.phase == Waiting && (h.client.flight.Flight1? || h.client.flight.Flight3?)
    requires ClientStep(u, h, t, p)
    ensures Base(u, h.(client := AfterParse(h.client, t, p)))
  {
    hide SetupOk, ServerScript, ServerHeard, ServerKeys, ServerDone, KeyedOk, AnswerOk, ClientAnswered, Out, OldOrNew, SuiteOk,
         FirstHello, Hellos, Ready, SealerOf, Protected, ClientScript, WellBehaved;
    var next := AfterParse(h.client, t, p);
    BaseOut(u, h);
    AfterState(h.client, t, p);
    SameOldOrNew(h.client.state, t, next.state);
    OldOrNewOk(u, h.client, next);
    ClientReadScript(u, h, t, p);
    ParseOut(u, h.client, h.clientPlan, h.net.client, h.net.server, h.net.fromClient, u.clientMtu, t, p);
  }

  lemma SameOldOrNew(s: State, t: State, v: State)
    requires OldOrNew(s, t) && v == t
    ensures OldOrNew(s, v)
  {
  }
}
