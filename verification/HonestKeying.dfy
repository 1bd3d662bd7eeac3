/** Preparing flight 5 keeps an honest handshake honest: what the client predicts of its own messages
    is what it will send. */
module HonestKeying {
  import opened Wrappers
  import opened Bytes
  import opened Headers
  import opened Messages
  import opened Handshakes
  import opened HandshakeCaches
  import opened CipherSuites
  import opened Reading
  import opened Reassembly
  import opened WireRecords
  import opened Emission
  import opened Network
  import opened TableTexts
  import opened HandshakeStates
  import opened ServerFlights
  import opened ClientFlights
  import opened Handshaking
  import opened Planning
  import opened FlightEffects
  import opened HonestWorlds
  import opened HonestSends
  import opened HonestScripts
  import opened HonestTexts
  import opened HonestPreparing
  import opened HonestAnswers

  // What flight 5 computes

  /** The key exchange is read once more; without one, the shared key is looked up. */
  lemma ExchangeResult(s: State, cfg: Config, crypto: Crypto, cache: seq<Item>, key: nat)
    ensures var (t, _, failure) := ExchangeAgain(s, cfg, crypto, cache, key);
            var data := Merged(cache, [SERVER_KEY_EXCHANGE_RULE]);
            (data != [] ==> t == s)
            && (data == [] && cfg.psk.Some? && failure.None? ==>
                  cfg.psk.value([]).Ok? && t.preMasterSecret == crypto.pskPreMasterSecret(cfg.psk.value([]).value))
  {
    hide UnmarshalHandshake, Pulled, MergedData;
  }

  lemma KeyedResult(s: State, cfg: Config, crypto: Crypto, cache: seq<Item>, exchange: ServerKeyExchangeBody, sending: Bytes)
    requires s.cipherSuite.Some? && !s.cipherSuite.value.initialized
    ensures var (t, failure) := ClientKeyed(s, cfg, crypto, cache, exchange, sending);
            failure.None? ==>
              MasterSecret(crypto, s.extendedMasterSecret, s.preMasterSecret, Merged(cache, KEY_EXCHANGE_RULES) + sending,
                           s.localRandom, s.remoteRandom) == Ok(t.masterSecret)
              && t.cipherSuite.Some?
              && crypto.suite(s.cipherSuite.value.id, t.masterSecret, RandomBytes(s.localRandom), RandomBytes(s.remoteRandom), true)
                 == Ok(t.cipherSuite.value)
  {
  }

  /** What follows the key messages in flight 5. */
  lemma TailIs(s: State, cfg: Config, crypto: Crypto, cache: seq<Item>, keys: seq<Draft>, sending: Bytes)
    ensures var g := Flight5Finished(s, cfg, crypto, cache, keys, sending).1;
            var proof := ProofDrafts(s, cfg, crypto, cache, sending);
            g.Drafts? ==>
              proof.Drafts? && HandshakeStates.Writable(proof.drafts)
              && var data := FinishedData(s, crypto, cache, sending + NumberedText(proof.drafts, s.sendSequence + |keys|));
                 data.Ok? && g.drafts == keys + (proof.drafts + [ChangeCipherSpecDraft, MessageDraft(1, FinishedMessage(data.value))])
  {
    hide NumberedText, HandshakeStates.Writable, ProofDrafts, FinishedData;
  }

  lemma ProofTail(proof: seq<Draft>, data: Bytes, keys: seq<Draft>)
    requires |proof| <= 1 && HandshakeStates.Writable(proof)
    requires forall d :: d in proof ==> d.MessageDraft? && d.epoch == 0 && d.message.CertificateVerifyMessage?
    ensures var tail := proof + [ChangeCipherSpecDraft, MessageDraft(1, FinishedMessage(data))];
            && ProofShaped(tail) && ProofPart(tail) == proof && tail[|tail| - 1] == MessageDraft(1, FinishedMessage(data))
            && keys <= keys + tail && (keys + tail)[|keys|..] == tail
  {
    hide HandshakeStates.Writable;
    var tail := proof + [ChangeCipherSpecDraft, MessageDraft(1, FinishedMessage(data))];
    assert ProofPart(tail) == proof;
  }

  lemma TailVouched(s: State, cfg: Config, crypto: Crypto, cache: seq<Item>, keys: seq<Draft>, sending: Bytes)
    requires s.cipherSuite.Some? && s.localVerifyData == []
    ensures var g := Flight5Finished(s, cfg, crypto, cache, keys, sending).1;
            g.Drafts? ==> keys <= g.drafts
                          && Vouched(crypto, s.masterSecret, g.drafts[|keys|..], Merged(cache, FINISHED_RULES) + sending,
                                     s.sendSequence + |keys|)
  {
    hide Merged, NumberedText, HandshakeStates.Writable, ProofDrafts, Flight5Finished, ProofShaped, ProofPart, KeyExchangeRules,
         FinishedRules;
    TailIs(s, cfg, crypto, cache, keys, sending);
    ProofShape(s, cfg, crypto, cache, sending);
    var proof := ProofDrafts(s, cfg, crypto, cache, sending);
    var g := Flight5Finished(s, cfg, crypto, cache, keys, sending).1;
    if g.Drafts? {
      var more := NumberedText(proof.drafts, s.sendSequence + |keys|);
      var data := FinishedData(s, crypto, cache, sending + more);
      ProofTail(proof.drafts, data.value, keys);
      assert Merged(cache, FINISHED_RULES) + (sending + more) == Merged(cache, FINISHED_RULES) + sending + more;
    }
  }

  lemma TailResult(s: State, cfg: Config, crypto: Crypto, cache: seq<Item>, keys: seq<Draft>, sending: Bytes)
    ensures var g := Flight5Finished(s, cfg, crypto, cache, keys, sending).1;
            g.Drafts? ==> keys <= g.drafts && TailShaped(g.drafts[|keys|..])
                          && Signed(cfg, crypto, g.drafts[|keys|..], Merged(cache, KEY_EXCHANGE_RULES) + sending)
  {
    hide Merged, NumberedText, HandshakeStates.Writable, ProofDrafts, FinishedData, Flight5Finished;
    TailIs(s, cfg, crypto, cache, keys, sending);
    ProofShape(s, cfg, crypto, cache, sending);
    var proof := ProofDrafts(s, cfg, crypto, cache, sending);
    var g := Flight5Finished(s, cfg, crypto, cache, keys, sending).1;
    if g.Drafts? {
      var data := FinishedData(s, crypto, cache, sending + NumberedText(proof.drafts, s.sendSequence + |keys|));
      var tail := proof.drafts + [ChangeCipherSpecDraft, MessageDraft(1, FinishedMessage(data.value))];
      assert g.drafts[|keys|..] == tail;
      assert tail[..|tail| - 1] == proof.drafts + [ChangeCipherSpecDraft];
    }
  }

  lemma ProofShape(s: State, cfg: Config, crypto: Crypto, cache: seq<Item>, sending: Bytes)
    ensures var proof := ProofDrafts(s, cfg, crypto, cache, sending);
            proof.Drafts? ==>
              Signed(cfg, crypto, proof.drafts, Merged(cache, KEY_EXCHANGE_RULES) + sending)
              && |proof.drafts| <= 1
              && forall d :: d in proof.drafts ==> d.MessageDraft? && d.epoch == 0 && d.message.CertificateVerifyMessage?
  {
  }

  lemma KeysShape(s: State, cfg: Config)
    ensures var keys := ClientFlights.KeyDrafts(s, cfg);
            KeyShaped(keys) && AllMessages(keys) && keys[|keys| - 1].message == ClientKeyExchangeOf(s, cfg)
  {
  }

  /** All of flight 5. */
  lemma Flight5Result(s: State, cfg: Config, crypto: Crypto, cache: seq<Item>, key: nat)
    requires s.cipherSuite.Some? && !s.cipherSuite.value.initialized
    ensures var (t, g) := Flight5Generated(s, cfg, crypto, cache, key);
            var keys := ClientFlights.KeyDrafts(s, cfg);
            var data := Merged(cache, [SERVER_KEY_EXCHANGE_RULE]);
            g.Drafts? ==>
              HandshakeStates.Writable(keys) && keys <= g.drafts && TailShaped(g.drafts[|keys|..])
              && Signed(cfg, crypto, g.drafts[|keys|..], Merged(cache, KEY_EXCHANGE_RULES) + NumberedText(keys, s.sendSequence))
              && t.localRandom == s.localRandom && t.remoteRandom == s.remoteRandom
              && t.extendedMasterSecret == s.extendedMasterSecret
              && (data != [] ==> t.localKeypair == s.localKeypair && t.preMasterSecret == s.preMasterSecret)
              && (data == [] && cfg.psk.Some? ==>
                    cfg.psk.value([]).Ok? && t.preMasterSecret == crypto.pskPreMasterSecret(cfg.psk.value([]).value))
              && MasterSecret(crypto, t.extendedMasterSecret, t.preMasterSecret,
                              Merged(cache, KEY_EXCHANGE_RULES) + NumberedText(keys, s.sendSequence), t.localRandom, t.remoteRandom)
                 == Ok(t.masterSecret)
              && t.cipherSuite.Some?
              && crypto.suite(s.cipherSuite.value.id, t.masterSecret, RandomBytes(t.localRandom), RandomBytes(t.remoteRandom), true)
                 == Ok(t.cipherSuite.value)
  {
    hide ExchangeAgain, ClientKeyed, Flight5Finished, Merged, NumberedText, HandshakeStates.Writable, TailShaped, MasterSecret,
         RandomBytes, Signed, ClientKeyExchangeOf;
    var keys := ClientFlights.KeyDrafts(s, cfg);
    KeysShape(s, cfg);
    ExchangeKeeps(s, cfg, crypto, cache, key);
    ExchangeResult(s, cfg, crypto, cache, key);
    var (handled, exchange, failure) := ExchangeAgain(s, cfg, crypto, cache, key);
    if failure.None? && HandshakeStates.Writable(keys) {
      var sending := NumberedText(keys, s.sendSequence);
      ClientKeyedKeeps(handled, cfg, crypto, cache, exchange, sending);
      KeyedResult(handled, cfg, crypto, cache, exchange, sending);
      var keyed := ClientKeyed(handled, cfg, crypto, cache, exchange, sending).0;
      Flight5FinishedKeeps(keyed, cfg, crypto, cache, keys, sending);
      TailResult(keyed, cfg, crypto, cache, keys, sending);
    }
  }

  lemma Flight5Vouched(s: State, cfg: Config, crypto: Crypto, cache: seq<Item>, key: nat)
    requires s.cipherSuite.Some? && s.localVerifyData == []
    ensures var (t, g) := Flight5Generated(s, cfg, crypto, cache, key);
            var keys := ClientFlights.KeyDrafts(s, cfg);
            g.Drafts? ==>
              HandshakeStates.Writable(keys) && keys <= g.drafts
              && Vouched(crypto, t.masterSecret, g.drafts[|keys|..],
                         Merged(cache, FINISHED_RULES) + NumberedText(keys, s.sendSequence), s.sendSequence + |keys|)
  {
    hide ExchangeAgain, ClientKeyed, Flight5Finished, Merged, NumberedText, HandshakeStates.Writable, Vouched, FinishedRules,
         ClientKeyExchangeOf;
    var keys := ClientFlights.KeyDrafts(s, cfg);
    KeysShape(s, cfg);
    ExchangeKeeps(s, cfg, crypto, cache, key);
    var (handled, exchange, failure) := ExchangeAgain(s, cfg, crypto, cache, key);
    if failure.None? && HandshakeStates.Writable(keys) {
      var sending := NumberedText(keys, s.sendSequence);
      ClientKeyedKeeps(handled, cfg, crypto, cache, exchange, sending);
      var keyed := ClientKeyed(handled, cfg, crypto, cache, exchange, sending).0;
      Flight5FinishedKeeps(keyed, cfg, crypto, cache, keys, sending);
      TailVouched(keyed, cfg, crypto, cache, keys, sending);
    }
  }

  // In the handshake

  /** When flight 5 is about to be prepared, the client has all of flight 4 and nothing after it. */
  lemma AllAnswered(u: Setup, h: Honest)
    requires SetupOk(u) && AllOk(u, h) && h.client.flight.Flight5? && h.client.phase == Preparing
    ensures h.keyed.None? && h.offer.Some? && |h.serverPlan| == 1 + |h.offer.Or([])|
    ensures h.net.client.Popped() == |h.serverPlan| && h.net.client.sent == h.clientPlan
    ensures AnswerOk(u, h.client.state, h.offer.Or([])) && Answered(h.serverPlan, h.offer.Or([]))
    ensures !Ready(h.client.state.cipherSuite) && Hellos(h.clientPlan, |h.clientPlan|)
    ensures h.client.state.sendSequence == |h.clientPlan| && h.client.state.localVerifyData == []
    ensures ServerScript(u.server, u.crypto, h.server, h.serverPlan, h.offer)
  {
    hide SetupOk, Base, Hellos, FirstHello, ServerScript, ServerHeard, ServerKeys, ServerDone, AnswerOk, Ready, KeyedOk, Answered,
         OwnPart, WellFormed, Numbered, Flight4Generated, SuiteOk, RandomBytes, Text;
    NotKeyed(u, h.client.state, h.client.state, h.server, h.clientPlan, h.clientPlan, h.serverPlan, h.offer, h.net.server.Popped());
    CacheParts(u, h);
    ScriptAnswered(u, h.server, h.serverPlan, h.offer);
    BaseOut(u, h);
  }

  lemma ScriptAnswered(u: Setup, m: Machine, plan: seq<SentMessage>, offer: Option<seq<Draft>>)
    requires ServerScript(u.server, u.crypto, m, plan, offer) && offer.Some?
    ensures Answered(plan, offer.value)
  {
    hide Answered, Flight4Generated, WellFormed, Numbered, VerifyOnly, FinishedAt;
  }

  lemma BaseOut(u: Setup, h: Honest)
    requires SetupOk(u) && Base(u, h)
    ensures !h.client.phase.Errored? ==> h.client.state.sendSequence == |h.clientPlan|
    ensures !h.client.phase.Errored? && h.client.phase != Phase.Sending ==> h.net.client.sent == h.clientPlan
    ensures !h.server.phase.Errored? && h.server.phase != Phase.Sending ==> h.net.server.sent == h.serverPlan
    ensures SuiteOk(u, h.client) && SuiteOk(u, h.server)
  {
    hide HalfOk, SuiteOk, PacketsOk, SetupOk, AllInTurn, Planned, Protected, Table;
  }

  /** A key exchange on offer is in the client's cache. */
  lemma ExchangeCached(u: Setup, h: Honest)
    requires SetupOk(u) && AllOk(u, h) && h.client.flight.Flight5? && h.client.phase == Preparing
    ensures h.offer.Some?
    ensures Merged(h.net.client.Cache(), [SERVER_KEY_EXCHANGE_RULE]) == [] ==> !OffersExchange(h.offer.Or([]))
  {
    hide SetupOk, Base, Scripts, AnswerOk, Answered, Merged, Text, Hellos, ServerScript;
    AllAnswered(u, h);
    ClientText(u, h, [SERVER_KEY_EXCHANGE_RULE]);
    assert h.serverPlan[..|h.serverPlan|] == h.serverPlan;
    if OffersExchange(h.offer.Or([])) {
      TextHasExchange(h.clientPlan, h.serverPlan, h.offer.Or([]));
    }
  }

  lemma TextHasExchange(clientPlan: seq<SentMessage>, plan: seq<SentMessage>, offer: seq<Draft>)
    requires Answered(plan, offer) && OffersExchange(offer)
    ensures Text(clientPlan, plan, [SERVER_KEY_EXCHANGE_RULE]) != []
  {
    hide WellFormed, Numbered, LastOf, RawHandshake.Whole, HandshakeRandom.Valid, Size, ClientHelloWellFormed,
         ServerKeyExchangeWellFormed, ServerHelloWellFormed;
    var x :| MessageDraft(0, ServerKeyExchangeMessage(x)) in offer;
    var i :| 0 <= i < |offer| && offer[i] == MessageDraft(0, ServerKeyExchangeMessage(x));
    SentOfMessages(offer, 1);
    var m := plan[1 + i];
    assert plan[1..1 + |offer|][i] == m;
    NumberedAt(offer[i].message, WrappedU16(1 + i));
    assert m in plan && m.h.typ == ServerKeyExchange && m.epoch == 0;
    LastOfIs(plan, ServerKeyExchange, 0);
    LastOfIn(plan, ServerKeyExchange, 0);
    assert [SERVER_KEY_EXCHANGE_RULE][1..] == [];
  }

  lemma SentCount(drafts: seq<Draft>, next: nat)
    requires HandshakeStates.Writable(drafts) && AllMessages(drafts)
    ensures |SentOf(drafts, next)| == |drafts|
  {
    hide WellFormed;
  }

  lemma ShapeOf(plan: seq<SentMessage>, more: seq<SentMessage>, k: Keyed)
    requires KeyShaped(k.keys) && TailShaped(k.tail) && HandshakeStates.Writable(k.keys) && HandshakeStates.Writable(k.tail)
    requires k.hellos == |plan| && Hellos(plan, |plan|)
    requires more == SentOf(k.keys, k.hellos) + SentOf(k.tail, k.hellos + |k.keys|)
    ensures KeyedShape(plan + more, k)
  {
    hide SentOf, TailShaped, Writable, KeyShaped;
  }

  lemma KeyedShapes(plan: seq<SentMessage>, keys: seq<Draft>, tail: seq<Draft>, text: Bytes)
    requires HandshakeStates.Writable(keys) && HandshakeStates.Writable(tail) && KeyShaped(keys) && AllMessages(keys)
    requires TailShaped(tail) && Hellos(plan, |plan|)
    ensures HandshakeStates.Writable(keys + tail)
    ensures KeyedShape(plan + SentOf(keys + tail, |plan|), Keyed(|plan|, keys, tail, text))
  {
    hide HandshakeStates.Writable, SentOf, KeyShaped, TailShaped, Hellos, AllMessages, KeyedShape;
    SentOfConcat(keys, tail, |plan|);
    SentCount(keys, |plan|);
    ShapeOf(plan, SentOf(keys + tail, |plan|), Keyed(|plan|, keys, tail, text));
  }

  // Suites

  ghost predicate FromCrypto(crypto: Crypto, s: State, t: State) {
    t.cipherSuite == s.cipherSuite
    || (s.cipherSuite.Some? && t.cipherSuite.Some?
        && exists master, cr, sr, side ::
             crypto.suite(s.cipherSuite.value.id, master, cr, sr, side) == Ok(t.cipherSuite.value))
  }

  lemma SuiteSound(u: Setup, m: Machine, next: Machine)
    requires SetupOk(u) && SuiteOk(u, m) && FromCrypto(u.crypto, m.state, next.state)
    ensures SuiteOk(u, next)
    ensures next.state.cipherSuite != m.state.cipherSuite ==>
              Ready(next.state.cipherSuite) && next.state.cipherSuite.value.id == m.state.cipherSuite.value.id
  {
    hide WellBehaved, KnownSuites;
  }

  lemma KeyedSuite(s: State, cfg: Config, crypto: Crypto, cache: seq<Item>, exchange: ServerKeyExchangeBody, sending: Bytes)
    ensures FromCrypto(crypto, s, ClientKeyed(s, cfg, crypto, cache, exchange, sending).0)
  {
    hide ClientMaster;
  }

  lemma Flight5Suite(s: State, cfg: Config, crypto: Crypto, cache: seq<Item>, key: nat)
    ensures FromCrypto(crypto, s, Flight5Generated(s, cfg, crypto, cache, key).0)
  {
    hide ExchangeAgain, ClientKeyed, Flight5Finished, Merged, NumberedText, HandshakeStates.Writable, FromCrypto;
    var keys := ClientFlights.KeyDrafts(s, cfg);
    KeysShape(s, cfg);
    ExchangeKeeps(s, cfg, crypto, cache, key);
    var (handled, exchange, failure) := ExchangeAgain(s, cfg, crypto, cache, key);
    SameFromCrypto(crypto, s, handled);
    if failure.None? && HandshakeStates.Writable(keys) {
      var sending := NumberedText(keys, s.sendSequence);
      KeyedSuite(handled, cfg, crypto, cache, exchange, sending);
      var keyed := ClientKeyed(handled, cfg, crypto, cache, exchange, sending).0;
      Flight5FinishedKeeps(keyed, cfg, crypto, cache, keys, sending);
      SuiteChain(crypto, s, handled, keyed, Flight5Finished(keyed, cfg, crypto, cache, keys, sending).0);
    }
  }

  lemma SameFromCrypto(crypto: Crypto, s: State, t: State)
    requires t.cipherSuite == s.cipherSuite
    ensures FromCrypto(crypto, s, t)
  {
  }

  lemma SuiteChain(crypto: Crypto, s: State, a: State, b: State, t: State)
    requires a.cipherSuite == s.cipherSuite && FromCrypto(crypto, a, b) && t.cipherSuite == b.cipherSuite
    ensures FromCrypto(crypto, s, b) && FromCrypto(crypto, s, t)
  {
  }

  lemma HellosClear(plan: seq<SentMessage>)
    requires Hellos(plan, |plan|)
    ensures !Protected(plan)
  {
  }

  // The prepared flight

  lemma AnsweredSuite(u: Setup, s: State, drafts: seq<Draft>)
    requires AnswerOk(u, s, drafts)
    ensures s.cipherSuite.Some?
  {
  }

  /** Keys do not change the answer they come from. */
  lemma AnswerKept(u: Setup, s: State, t: State, drafts: seq<Draft>)
    requires AnswerOk(u, s, drafts)
    requires t.remoteRandom == s.remoteRandom && t.extendedMasterSecret == s.extendedMasterSecret
    requires t.cipherSuite.Some? && t.cipherSuite.value.id == s.cipherSuite.value.id
    requires u.client.psk.None? || OffersExchange(drafts) ==> t.localKeypair == s.localKeypair && t.preMasterSecret == s.preMasterSecret
    ensures AnswerOk(u, t, drafts)
  {
  }

  lemma ExchangeKnown(u: Setup, s: State, drafts: seq<Draft>)
    requires AnswerOk(u, s, drafts)
    ensures u.client.psk.None? ==> OffersExchange(drafts)
    ensures u.client.psk.Some? && OffersExchange(drafts) ==> PskOk(u, s)
  {
  }

  lemma EmptyHint(u: Setup, t: State)
    requires u.client.psk.Some? && u.client.psk.value([]).Ok?
    requires t.preMasterSecret == u.crypto.pskPreMasterSecret(u.client.psk.value([]).value)
    ensures PskOk(u, t)
  {
  }

  /** The state that keys the client, and the text it has hashed. */
  /** The state and the drafts of flight 5, with its keys numbered from `next`. */
  ghost predicate KeyedWith(u: Setup, s: State, cache: seq<Item>, next: int, offer: seq<Draft>, t: State, g: Generated) {
    var keys := ClientFlights.KeyDrafts(s, u.client);
    g.Drafts? && HandshakeStates.Writable(keys) && keys <= g.drafts && TailShaped(g.drafts[|keys|..])
    && Signed(u.client, u.crypto, g.drafts[|keys|..], Merged(cache, KEY_EXCHANGE_RULES) + NumberedText(keys, next))
    && AnswerOk(u, t, offer)
    && (u.client.psk.Some? ==> PskOk(u, t))
    && t.cipherSuite.Some? && t.localRandom == s.localRandom
    && MasterSecret(u.crypto, t.extendedMasterSecret, t.preMasterSecret,
                    Merged(cache, KEY_EXCHANGE_RULES) + NumberedText(keys, next), t.localRandom, t.remoteRandom)
       == Ok(t.masterSecret)
    && u.crypto.suite(t.cipherSuite.value.id, t.masterSecret, RandomBytes(t.localRandom), RandomBytes(t.remoteRandom), true)
       == Ok(t.cipherSuite.value)
    && ClientKeyExchangeOf(t, u.client) == ClientKeyExchangeOf(s, u.client)
  }

  lemma KeyedState(u: Setup, h: Honest, key: nat)
    requires SetupOk(u) && AllOk(u, h) && h.client.flight.Flight5? && h.client.phase == Preparing
    ensures h.offer.Some?
    ensures var (t, g) := Flight5Generated(h.client.state, u.client, u.crypto, h.net.client.Cache(), key);
            g.Drafts? ==> KeyedWith(u, h.client.state, h.net.client.Cache(), |h.clientPlan|, h.offer.Or([]), t, g)
  {
    hide Base, Scripts, Flight5Generated, Merged, NumberedText, HandshakeStates.Writable, TailShaped, Signed, AnswerOk, Answered,
         ServerScript, Hellos, MasterSecret, RandomBytes, OffersExchange, PskOk, SoundExchange, SharedKey,
         KnownSuites, Opens;
    AllAnswered(u, h);
    var s, cache := h.client.state, h.net.client.Cache();
    AnsweredSuite(u, s, h.offer.Or([]));
    Flight5Result(s, u.client, u.crypto, cache, key);
    ExchangeCached(u, h);
    ExchangeKnown(u, s, h.offer.Or([]));
    var (t, g) := Flight5Generated(s, u.client, u.crypto, cache, key);
    if g.Drafts? {
      AnswerKept(u, s, t, h.offer.Or([]));
      if u.client.psk.Some? {
        if OffersExchange(h.offer.Or([])) {
          SamePsk(u, s, t);
        } else if Merged(cache, [SERVER_KEY_EXCHANGE_RULE]) == [] {
          EmptyHint(u, t);
        } else {
          NoExchange(u, h);
        }
      }
    }
  }

  lemma SamePsk(u: Setup, s: State, t: State)
    requires u.client.psk.Some? && PskOk(u, s) && t.preMasterSecret == s.preMasterSecret
    ensures PskOk(u, t)
  {
  }

  /** Without a key exchange on offer there is none in the cache. */
  lemma NoExchange(u: Setup, h: Honest)
    requires SetupOk(u) && AllOk(u, h) && h.client.flight.Flight5? && h.client.phase == Preparing
    requires h.offer.Some? && !OffersExchange(h.offer.Or([]))
    ensures Merged(h.net.client.Cache(), [SERVER_KEY_EXCHANGE_RULE]) == []
  {
    hide SetupOk, Base, Scripts, AnswerOk, Merged, Text, Hellos, ServerScript, OffersExchange, Answered;
    AllAnswered(u, h);
    ClientText(u, h, [SERVER_KEY_EXCHANGE_RULE]);
    assert h.serverPlan[..|h.serverPlan|] == h.serverPlan;
    TextLacksExchange(h.clientPlan, h.serverPlan, h.offer.Or([]));
  }

  lemma TextLacksExchange(clientPlan: seq<SentMessage>, plan: seq<SentMessage>, offer: seq<Draft>)
    requires Answered(plan, offer) && !OffersExchange(offer)
    requires |plan| == 1 + |offer|
    ensures Text(clientPlan, plan, [SERVER_KEY_EXCHANGE_RULE]) == []
  {
    hide WellFormed, Numbered, RawHandshake.Whole, HandshakeRandom.Valid, Size, ClientHelloWellFormed, ServerKeyExchangeWellFormed,
         ServerHelloWellFormed, SentOf;
    SentOfMessages(offer, 1);
    forall m | m in plan
      ensures m.h.typ != ServerKeyExchange
    {
      var i :| 0 <= i < |plan| && plan[i] == m;
      if i > 0 {
        assert plan[1..1 + |offer|][i - 1] == m;
        NumberedAt(offer[i - 1].message, WrappedU16(i));
      }
    }
    LastOfNone(plan, ServerKeyExchange, 0);
    assert [SERVER_KEY_EXCHANGE_RULE][1..] == [];
  }

  /** The client's machine and plan after flight 5 has been prepared, or has failed to be. */
  /** The client has prepared flight 5, or failed to. */
  ghost predicate KeyedBy(u: Setup, h: Honest, after: Honest, t: State, g: Generated) {
    after == h.(client := after.client, clientPlan := after.clientPlan, keyed := after.keyed)
    && after.client.flight == h.client.flight
    && after.client.state == t.(sendSequence := after.client.state.sendSequence, localEpoch := after.client.state.localEpoch)
    && (if after.keyed.None? then after.client.phase.Errored? && after.clientPlan == h.clientPlan
        else after.client.phase == Phase.Sending && g.Drafts? && HandshakeStates.Writable(g.drafts)
             && after.clientPlan == h.clientPlan + SentOf(g.drafts, |h.clientPlan|)
             && Table(after.clientPlan)
             && after.keyed == Some(KeyedOf(h.client.state, u.client, h.net.client.Cache(), g.drafts, |h.clientPlan|)))
  }

  lemma KeyingPlan(u: Setup, h: Honest, draws: Draws)
    requires SetupOk(u) && AllOk(u, h) && Enabled(u, h, Prepare(true, draws)) && h.client.flight.Flight5?
    ensures h.offer.Some? && h.keyed.None? && h.client.phase == Preparing
    ensures var (t, g) := Flight5Generated(h.client.state, u.client, u.crypto, h.net.client.Cache(), draws.key);
            KeyedBy(u, h, PreparedBy(u, h, true, draws), t, g)
  {
    hide SetupOk, Base, Scripts, Planned, Prepared, Flight5Generated, Table, HalfOk, Merged, KeyedOf, SentOf, HandshakeStates.Writable,
         AnswerOk, Answered, ServerScript, Hellos, NumberedText, VerifyOnly, Flight4Generated, Flight6Generated, Draws.Valid,
         Flight1Generated, Flight3Generated, Flight0Generated, Flight2Generated, SealerOf;
    NotErrored(u, h, Prepare(true, draws));
    AllAnswered(u, h);
    BaseWorld(u, h);
    PreparedPlan(h.client, h.clientPlan, u.client, u.crypto, h.net.client.Cache(), draws);
    var after := PreparedBy(u, h, true, draws);
    assert FlightGenerated(h.client.flight, h.client.state, u.client, u.crypto, h.net.client.Cache(), draws)
        == Flight5Generated(h.client.state, u.client, u.crypto, h.net.client.Cache(), draws.key);
  }

  lemma KeyingOut(u: Setup, h: Honest, draws: Draws)
    requires SetupOk(u) && AllOk(u, h) && Enabled(u, h, Prepare(true, draws)) && h.client.flight.Flight5?
    ensures Base(u, PreparedBy(u, h, true, draws))
    ensures PreparedBy(u, h, true, draws).keyed.Some? ==> Ready(PreparedBy(u, h, true, draws).client.state.cipherSuite)
  {
    hide SetupOk, Scripts, Planned, Prepared, Flight5Generated, HalfOk, Merged, KeyedOf, SentOf, FromCrypto, SuiteOk, Out,
         HandshakeStates.Writable, AnswerOk, Answered, ServerScript, Hellos, NumberedText, MasterSecret, RandomBytes, Protected, Table,
         VerifyOnly, SoundSuites, SoundExchange, FlightGenerated, Draws.Valid, Frames, SharedKey, OpensToSameHeader, Opens, Signed,
         PskOk;
    var s, cache := h.client.state, h.net.client.Cache();
    KeyingPlan(u, h, draws);
    AllAnswered(u, h);
    KeyedState(u, h, draws.key);
    HellosClear(h.clientPlan);
    Flight5Suite(s, u.client, u.crypto, cache, draws.key);
    var after := PreparedBy(u, h, true, draws);
    SuiteChain(u.crypto, s, s, Flight5Generated(s, u.client, u.crypto, cache, draws.key).0, after.client.state);
    BaseOut(u, h);
    SuiteSound(u, h.client, after.client);
    if after.keyed.Some? {
      KeyedReady(u, after.client.state);
    }
    PrepareOut(u, h.client, h.clientPlan, h.net.client, h.net.server, h.net.fromClient, u.clientMtu, u.client, draws);
  }

  lemma KeyedReady(u: Setup, t: State)
    requires SetupOk(u) && t.cipherSuite.Some?
    requires u.crypto.suite(t.cipherSuite.value.id, t.masterSecret, RandomBytes(t.localRandom), RandomBytes(t.remoteRandom), true)
             == Ok(t.cipherSuite.value)
    ensures Ready(t.cipherSuite)
  {
  }

  /** The record of flight 5 is what the client has keyed itself with. */
  lemma KeyingRecord(u: Setup, h: Honest, draws: Draws)
    requires SetupOk(u) && AllOk(u, h) && Enabled(u, h, Prepare(true, draws)) && h.client.flight.Flight5?
    requires PreparedBy(u, h, true, draws).keyed.Some?
    ensures h.offer.Some?
    ensures var after := PreparedBy(u, h, true, draws);
            |h.serverPlan| > |h.offer.Or([])|
            && KeyedOk(u, after.client.state, after.clientPlan, h.serverPlan, h.offer.Or([]), after.keyed.Or(UNKEYED))
            && AnswerOk(u, after.client.state, h.offer.Or([]))
            && after.client.state.localRandom == h.client.state.localRandom
            && h.clientPlan <= after.clientPlan
  {
    hide SetupOk, Base, Scripts, Flight5Generated, Merged, SentOf, Prepared, PreparedBy, Enabled, PskOk, OffersExchange, Signed,
         HandshakeStates.Writable, AnswerOk, Answered, ServerScript, Hellos, NumberedText, MasterSecret, RandomBytes, TailShaped,
         KeyShaped, KeyedShape, Text, Table, ClientKeyExchangeOf, ClientFlights.KeyDrafts, Vouched, WellFormed,
         HandshakeRandom.Transmitted, ExchangeOk;
    var s, cache := h.client.state, h.net.client.Cache();
    KeyingPlan(u, h, draws);
    AllAnswered(u, h);
    KeyedState(u, h, draws.key);
    KeyingOut(u, h, draws);
    var after := PreparedBy(u, h, true, draws);
    var (t, g) := Flight5Generated(s, u.client, u.crypto, cache, draws.key);
    var keys := ClientFlights.KeyDrafts(s, u.client);
    var tail := g.drafts[|keys|..];
    var k := after.keyed.Or(UNKEYED);
    KeysShape(s, u.client);
    SubWritable(g.drafts, |keys|);
    assert g.drafts == keys + tail;
    AnsweredSuite(u, s, h.offer.Or([]));
    Flight5Vouched(s, u.client, u.crypto, cache, draws.key);
    ClientText(u, h, FINISHED_RULES);
    KeyedShapes(h.clientPlan, keys, tail, k.text);
    assert k == Keyed(|h.clientPlan|, keys, tail, k.text);
    ClientText(u, h, KEY_EXCHANGE_RULES);
    assert after.clientPlan[..|h.clientPlan|] == h.clientPlan;
    assert h.serverPlan[..|h.serverPlan|] == h.serverPlan;
    AnswerKept(u, t, after.client.state, h.offer.Or([]));
    SameExchange(u, t, after.client.state);
  }

  lemma SubWritable(drafts: seq<Draft>, n: nat)
    requires HandshakeStates.Writable(drafts) && n <= |drafts|
    ensures HandshakeStates.Writable(drafts[n..])
  {
  }

  lemma SameExchange(u: Setup, s: State, t: State)
    requires t == s.(sendSequence := t.sendSequence, localEpoch := t.localEpoch)
    ensures ClientKeyExchangeOf(t, u.client) == ClientKeyExchangeOf(s, u.client)
    ensures u.client.psk.Some? && PskOk(u, s) ==> PskOk(u, t)
  {
  }

  lemma Flight5Random(s: State, cfg: Config, crypto: Crypto, cache: seq<Item>, key: nat)
    ensures Flight5Generated(s, cfg, crypto, cache, key).0.localRandom == s.localRandom
  {
    hide ExchangeAgain, ClientKeyed, Flight5Finished, Merged, NumberedText, HandshakeStates.Writable;
    var keys := ClientFlights.KeyDrafts(s, cfg);
    KeysShape(s, cfg);
    ExchangeKeeps(s, cfg, crypto, cache, key);
    var (handled, exchange, failure) := ExchangeAgain(s, cfg, crypto, cache, key);
    if failure.None? && HandshakeStates.Writable(keys) {
      var sending := NumberedText(keys, s.sendSequence);
      ClientKeyedKeeps(handled, cfg, crypto, cache, exchange, sending);
      Flight5FinishedKeeps(ClientKeyed(handled, cfg, crypto, cache, exchange, sending).0, cfg, crypto, cache, keys, sending);
    }
  }

  lemma KeyingScript(u: Setup, h: Honest, draws: Draws)
    requires SetupOk(u) && AllOk(u, h) && Enabled(u, h, Prepare(true, draws)) && h.client.flight.Flight5?
    ensures var after := PreparedBy(u, h, true, draws);
            ClientScript(u.client, after.client, after.clientPlan, after.keyed) && h.clientPlan <= after.clientPlan
            && h.clientPlan != []
            && after.client.state.localRandom == h.client.state.localRandom
  {
    hide SetupOk, Base, Flight5Generated, Merged, SentOf, Prepared, PreparedBy, Enabled, KeyedShape, Text, ServerDone,
         HandshakeStates.Writable, AnswerOk, Answered, ServerScript, Hellos, NumberedText, Table, FirstHello, KeyedOf, ServerHeard,
         ServerKeys, WellFormed, Numbered, KeyedOk, RandomBytes, Signed, PskOk, ProofShaped, HelloOf, MasterSecret;
    KeyingPlan(u, h, draws);
    var after := PreparedBy(u, h, true, draws);
    Flight5Random(h.client.state, u.client, u.crypto, h.net.client.Cache(), draws.key);
    if after.keyed.Some? {
      KeyingRecord(u, h, draws);
      ShapeKept(u, after.client.state, after.clientPlan, h.serverPlan, h.offer.Or([]), after.keyed.Or(UNKEYED));
      FirstKept(u.client, h.client.state.localRandom, h.clientPlan, after.clientPlan);
    }
  }

  lemma ShapeKept(u: Setup, c: State, clientPlan: seq<SentMessage>, serverPlan: seq<SentMessage>, drafts: seq<Draft>, k: Keyed)
    requires |serverPlan| > |drafts|
    requires KeyedOk(u, c, clientPlan, serverPlan, drafts, k)
    ensures KeyedShape(clientPlan, k) && Ready(c.cipherSuite)
  {
    hide Writable, Numbered, RandomBytes, RawHandshake.Whole, Vouched, Text, Signed, PskOk, MasterSecret;
  }

  lemma FirstKept(cfg: Config, random: HandshakeRandom, plan: seq<SentMessage>, more: seq<SentMessage>)
    requires FirstHello(cfg, random, plan) && plan <= more
    ensures FirstHello(cfg, random, more)
  {
    hide WellFormed, Numbered, HelloOf;
  }

  lemma KeyedVacuous(u: Setup, d: State, m: Machine, more: seq<SentMessage>, serverPlan: seq<SentMessage>,
                     offer: Option<seq<Draft>>, keyed: Option<Keyed>, popped: nat)
    requires !Ready(m.state.cipherSuite) && !m.flight.Flight6?
    requires offer.Some? ==> |serverPlan| == 1 + |offer.value|
    ensures ServerKeys(u, d, m.state, keyed) && ServerDone(u, d, m, more, serverPlan, offer, popped)
  {
  }

  /** Preparing flight 5. */
  lemma KeyingKeeps(u: Setup, h: Honest, draws: Draws)
    requires SetupOk(u) && AllOk(u, h) && Enabled(u, h, Prepare(true, draws)) && h.client.flight.Flight5?
    ensures AllOk(u, PreparedBy(u, h, true, draws))
  {
    hide WellFormed, Numbered, Flight4Generated, Base, SetupOk, PreparedBy, ClientScript, ServerScript, ServerHeard, ServerKeys,
         ServerDone, KeyedOk, Ready, AnswerOk, Enabled, Answered, Flight5Generated, SentOf, HandshakeStates.Writable, KeyedOf, Hellos,
         Table, Text;
    KeyingPlan(u, h, draws);
    KeyingOut(u, h, draws);
    KeyingScript(u, h, draws);
    AllAnswered(u, h);
    var after := PreparedBy(u, h, true, draws);
    if after.keyed.Some? {
      KeyingRecord(u, h, draws);
    }
    NotKeyed(u, h.client.state, after.client.state, h.server, h.clientPlan, after.clientPlan, h.serverPlan, h.offer, h.net.server.Popped());
    KeyedVacuous(u, after.client.state, h.server, after.clientPlan, h.serverPlan, h.offer, after.keyed, h.net.server.Popped());
    StillHeard(u, h.server, h.client.state.localRandom, h.clientPlan, after.client.state.localRandom, after.clientPlan);
  }
}
