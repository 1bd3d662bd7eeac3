/** What each flight does to the state, and what it must have read to go on. */
module FlightEffects {
  import opened Wrappers
  import opened Bytes
  import opened Headers
  import opened Messages
  import opened Handshakes
  import opened HandshakeCaches
  import opened HandshakeStates
  import opened ServerFlights
  import opened ClientFlights
  import opened Handshaking

  // What one flight does to the state

  /** Reading never touches the numbers of outgoing messages, the local epoch, random or Finished. */
  predicate Kept(s: State, t: State) {
    t.isClient == s.isClient && t.sendSequence == s.sendSequence && t.localEpoch == s.localEpoch
    && t.localRandom == s.localRandom && t.localVerifyData == s.localVerifyData
  }

  ghost predicate Reads(cache: seq<Item>, r: Rule, message: Message) {
    exists c :: c in cache && Matches(c, r) && UnmarshalHandshake(c.data).Ok? && UnmarshalHandshake(c.data).value.message == message
  }

  /** A hello has come in with this cookie, and the cookie is not empty. */
  ghost predicate CookieSeen(cache: seq<Item>, cookie: Bytes) {
    exists hello ::
      Reads(cache, CLIENT_HELLO_RULE, ClientHelloMessage(hello))
      && hello.version == PROTOCOL_VERSION1_2 && hello.cookie == cookie && cookie != []
  }

  /** The client's Finished has come in, in epoch 1. */
  ghost predicate FinishedSeen(cache: seq<Item>) {
    exists data :: Reads(cache, CLIENT_FINISHED_RULE, FinishedMessage(data))
  }

  /** The server's Finished has come in, in epoch 1, and was what the client computed itself over the
      transcript it had then. */
  ghost predicate ServerVerified(s: State, crypto: Crypto, cache: seq<Item>) {
    exists n: nat, data ::
      n <= |cache| && Reads(cache[..n], SERVER_FINISHED_RULE, FinishedMessage(data))
      && crypto.verifyDataServer(s.masterSecret, Merged(cache[..n], FINISHED_RULES)) == Ok(data)
  }

  lemma PulledReads(cache: seq<Item>, start: int, rules: seq<Rule>, r: Rule)
    requires DistinctTypes(rules) && r in rules && FullPulled(cache, start, rules).Ok?
    ensures var msgs := FullPulled(cache, start, rules).value.1;
            (!r.optional ==> r.typ in msgs) && (r.typ in msgs ==> Reads(cache, r, msgs[r.typ]))
  {
    hide UnmarshalHandshake, Best, FullPulled;
    FullPulledMessages(cache, start, rules, r);
    BestMatches(cache, r);
  }

  lemma HelloExtensionKeeps(s: State, cfg: Config, e: Extensions.Extension)
    ensures var (t, failure) := HelloExtension(s, cfg, e);
            Kept(s, t) && t.cookie == s.cookie && (failure.Some? ==> failure.value.error.Some?)
  {
  }

  lemma {:induction false} HelloExtensionsKeep(s: State, cfg: Config, extensions: seq<Extensions.Extension>)
    ensures var (t, failure) := HelloExtensions(s, cfg, extensions);
            Kept(s, t) && t.cookie == s.cookie && (failure.Some? ==> failure.value.error.Some?)
    decreases |extensions|
  {
    hide HelloExtension;
    if extensions != [] {
      HelloExtensionKeeps(s, cfg, extensions[0]);
      if HelloExtension(s, cfg, extensions[0]).1.None? {
        HelloExtensionsKeep(HelloExtension(s, cfg, extensions[0]).0, cfg, extensions[1..]);
      }
    }
  }

  lemma KeypairKeeps(s: State, cfg: Config, crypto: Crypto, key: nat)
    ensures var (t, p) := KeypairReady(s, cfg, crypto, key);
            Kept(s, t) && t.cookie == s.cookie && (p.Next? ==> p == Next(Flight2))
  {
  }

  lemma HelloEffect(s: State, cfg: Config, crypto: Crypto, hello: ClientHelloBody, key: nat)
    ensures var (t, p) := HelloParsed(s, cfg, crypto, hello, key);
            Kept(s, t) && t.cookie == s.cookie && (p.Next? ==> p == Next(Flight2))
  {
    hide HelloExtensions, KeypairReady, SuiteForId;
    if FirstMatch(hello.cipherSuites, cfg.cipherSuites).Some? {
      var id := FirstMatch(hello.cipherSuites, cfg.cipherSuites).value;
      var greeted := s.(remoteRandom := hello.random);
      var suited := if SuiteForId(id).Ok? then greeted.(cipherSuite := Some(SuiteForId(id).value)) else greeted;
      HelloExtensionsKeep(suited, cfg, hello.extensions);
      KeypairKeeps(HelloExtensions(suited, cfg, hello.extensions).0, cfg, crypto, key);
    }
  }

  lemma Flight0Effect(s: State, cfg: Config, crypto: Crypto, cache: seq<Item>, key: nat)
    ensures var (t, p) := Flight0Parsed(s, cfg, crypto, cache, key);
            Kept(s, t) && t.cookie == s.cookie && (p.Next? ==> p == Next(Flight2))
  {
    hide FullPulled, HelloParsed;
    var pulled := FullPulled(cache, 0, [CLIENT_HELLO_RULE]);
    if pulled.Ok? && ClientHello in pulled.value.1 && pulled.value.1[ClientHello].ClientHelloMessage? {
      HelloEffect(s.(recvSequence := pulled.value.0), cfg, crypto, pulled.value.1[ClientHello].clientHello, key);
    }
  }

  lemma Flight2Effect(s: State, cfg: Config, crypto: Crypto, cache: seq<Item>, key: nat)
    ensures var (t, p) := Flight2Parsed(s, cfg, crypto, cache, key);
            Kept(s, t) && t.cookie == s.cookie
            && (p.Next? ==> p == Next(Flight2) || (p == Next(Flight4) && CookieSeen(cache, s.cookie)))
  {
    hide FullPulled, Flight0Parsed, Reads;
    Flight0Effect(s, cfg, crypto, cache, key);
    var rules := [CLIENT_HELLO_RULE];
    if FullPulled(cache, s.recvSequence, rules).Ok? {
      PulledReads(cache, s.recvSequence, rules, CLIENT_HELLO_RULE);
    }
  }

  lemma CertificatesKeep(s: State, cfg: Config, crypto: Crypto, cache: seq<Item>, msgs: map<HandshakeType, Message>)
    ensures var t := CertificatesChecked(s, cfg, crypto, cache, msgs).0;
            t == s.(peerCertificates := t.peerCertificates, peerCertificatesVerified := t.peerCertificatesVerified)
  {
    hide ProofChecked;
    if CertificateVerify in msgs && (Certificate in msgs ==> msgs[Certificate].CertificateMessage?) {
      var shown := if Certificate in msgs then s.(peerCertificates := msgs[Certificate].certificates) else s;
      ProofKeeps(shown, cfg, crypto, cache, msgs[CertificateVerify]);
    }
  }

  lemma ProofKeeps(s: State, cfg: Config, crypto: Crypto, cache: seq<Item>, proof: Message)
    ensures var t := ProofChecked(s, cfg, crypto, cache, proof).0;
            t == s.(peerCertificatesVerified := t.peerCertificatesVerified)
  {
    hide Merged;
  }

  lemma KeysFromKeeps(s: State, crypto: Crypto, cache: seq<Item>, pre: Bytes)
    requires s.cipherSuite.Some?
    ensures var t := KeysFrom(s, crypto, cache, pre).0;
            t == s.(masterSecret := t.masterSecret, cipherSuite := t.cipherSuite)
  {
    hide Merged, MasterSecret, RandomBytes, KeyExchangeRules;
  }

  lemma ServerKeyedKeeps(s: State, cfg: Config, crypto: Crypto, cache: seq<Item>, exchange: Message)
    requires exchange.ClientKeyExchangeMessage?
    ensures var t := ServerKeyed(s, cfg, crypto, cache, exchange).0;
            t == s.(masterSecret := t.masterSecret, cipherSuite := t.cipherSuite, identityHint := t.identityHint)
  {
    hide KeysFrom, ServerPreMaster;
    if s.cipherSuite.Some? && ServerPreMaster(s, cfg, crypto, exchange).Ok? {
      KeysFromKeeps(if cfg.psk.Some? then s.(identityHint := exchange.identityHint) else s, crypto, cache,
                    ServerPreMaster(s, cfg, crypto, exchange).value);
    }
  }

  lemma Flight4Effect(s: State, cfg: Config, crypto: Crypto, cache: seq<Item>)
    ensures var t := Flight4Keyed(s, cfg, crypto, cache).0; Kept(s, t) && t.cookie == s.cookie
  {
    hide FullPulled, CertificatesChecked, ServerKeyed;
    var pulled := FullPulled(cache, s.recvSequence, CLIENT_KEY_RULES);
    if pulled.Ok? && ClientKeyExchange in pulled.value.1 && pulled.value.1[ClientKeyExchange].ClientKeyExchangeMessage? {
      var msgs := pulled.value.1;
      CertificatesKeep(s, cfg, crypto, cache, msgs);
      ServerKeyedKeeps(CertificatesChecked(s, cfg, crypto, cache, msgs).0, cfg, crypto, cache, msgs[ClientKeyExchange]);
    }
  }

  lemma Flight4FinishedEffect(s: State, cfg: Config, cache: seq<Item>, start: int)
    ensures var (t, p) := Flight4Finished(s, cfg, cache, start);
            Kept(s, t) && t.cookie == s.cookie && (p.Next? ==> p == Next(Flight6) && FinishedSeen(cache))
  {
    hide FullPulled, Reads;
    var rules := [CLIENT_FINISHED_RULE];
    if FullPulled(cache, start, rules).Ok? {
      PulledReads(cache, start, rules, CLIENT_FINISHED_RULE);
    }
  }

  lemma {:induction false} AnswerExtensionsKeep(s: State, cfg: Config, extensions: seq<Extensions.Extension>)
    ensures Kept(s, AnswerExtensions(s, cfg, extensions).0)
    decreases |extensions|
  {
    if extensions != [] {
      match extensions[0]
      case UseSrtp(profiles) =>
        var profile := FirstMatch(profiles, cfg.srtpProfiles);
        if profile.Some? {
          AnswerExtensionsKeep(s.(srtpProfile := profile.value), cfg, extensions[1..]);
        }
      case UseExtendedMasterSecret(_) =>
        AnswerExtensionsKeep(if cfg.extendedMasterSecret.Offers() then s.(extendedMasterSecret := true) else s, cfg, extensions[1..]);
      case _ =>
        AnswerExtensionsKeep(s, cfg, extensions[1..]);
    }
  }

  lemma ServerHelloEffect(s: State, cfg: Config, msgs: map<HandshakeType, Message>)
    ensures var (t, failure) := ServerHelloParsed(s, cfg, msgs);
            Kept(s, t) && (failure.None? && ServerHello in msgs ==> t.cipherSuite.Some?)
  {
    hide AnswerExtensions;
    if ServerHello in msgs && msgs[ServerHello].ServerHelloMessage? {
      AnswerExtensionsKeep(s, cfg, msgs[ServerHello].serverHello.extensions);
    }
  }

  lemma AnswerRulesDistinct(cfg: Config)
    ensures DistinctTypes(AnswerRules(cfg)) && Rule(ServerHello, 0, false, false) in AnswerRules(cfg)
  {
  }

  lemma ExchangeHandledKeeps(s: State, cfg: Config, crypto: Crypto, exchange: ServerKeyExchangeBody, key: nat)
    ensures var (t, failure) := ExchangeHandled(s, cfg, crypto, exchange, key);
            t == s.(identityHint := t.identityHint, preMasterSecret := t.preMasterSecret, localKeypair := t.localKeypair)
            && (failure.Some? ==> failure.value.error.Some?)
  {
  }

  lemma LaterPartsKeep(s: State, cfg: Config, crypto: Crypto, msgs: map<HandshakeType, Message>, key: nat)
    ensures var t := ServerCertificateParsed(s, msgs).0; Kept(s, t) && t.cipherSuite == s.cipherSuite
    ensures var t := ExchangeParsed(s, cfg, crypto, msgs, key).0; Kept(s, t) && t.cipherSuite == s.cipherSuite
    ensures var (t, p) := RequestParsed(s, msgs);
            Kept(s, t) && t.cipherSuite == s.cipherSuite && (p.Next? ==> p == Next(Flight5))
  {
    hide ExchangeHandled;
    if ServerKeyExchange in msgs && msgs[ServerKeyExchange].ServerKeyExchangeMessage? {
      ExchangeHandledKeeps(s, cfg, crypto, msgs[ServerKeyExchange].serverKeyExchange, key);
    }
  }

  lemma AnswerEffect(s: State, cfg: Config, crypto: Crypto, cache: seq<Item>, key: nat)
    ensures var (t, p) := AnswerParsed(s, cfg, crypto, cache, key);
            Kept(s, t) && (p.Next? ==> p == Next(Flight5) && t.cipherSuite.Some?)
  {
    hide FullPulled, ServerHelloParsed, ServerCertificateParsed, ExchangeParsed, RequestParsed, Reads, DistinctTypes, AnswerRules;
    AnswerRulesDistinct(cfg);
    var pulled := FullPulled(cache, s.recvSequence, AnswerRules(cfg));
    if pulled.Ok? {
      PulledReads(cache, s.recvSequence, AnswerRules(cfg), Rule(ServerHello, 0, false, false));
      var msgs := pulled.value.1;
      ServerHelloEffect(s.(recvSequence := pulled.value.0), cfg, msgs);
      var greeted := ServerHelloParsed(s.(recvSequence := pulled.value.0), cfg, msgs).0;
      LaterPartsKeep(greeted, cfg, crypto, msgs, key);
      var shown := ServerCertificateParsed(greeted, msgs).0;
      LaterPartsKeep(shown, cfg, crypto, msgs, key);
      LaterPartsKeep(ExchangeParsed(shown, cfg, crypto, msgs, key).0, cfg, crypto, msgs, key);
    }
  }

  lemma Flight3Effect(s: State, cfg: Config, crypto: Crypto, cache: seq<Item>, key: nat)
    ensures var (t, p) := Flight3Parsed(s, cfg, crypto, cache, key);
            Kept(s, t) && (p.Next? ==> p == Next(Flight3) || (p == Next(Flight5) && t.cipherSuite.Some?))
  {
    hide FullPulled, AnswerParsed;
    AnswerEffect(s, cfg, crypto, cache, key);
  }

  lemma Flight1Effect(s: State, cfg: Config, crypto: Crypto, cache: seq<Item>, key: nat)
    ensures var (t, p) := Flight1Parsed(s, cfg, crypto, cache, key);
            Kept(s, t) && (p.Next? ==> p == Next(Flight3) || (p == Next(Flight5) && t.cipherSuite.Some?))
  {
    hide FullPulled, Flight3Parsed;
    Flight3Effect(s, cfg, crypto, cache, key);
  }

  lemma Flight5Effect(s: State, crypto: Crypto, cache: seq<Item>)
    ensures var p := Flight5Parsed(s, crypto, cache);
            p.Next? ==> p == Next(Flight5) && (s.cipherSuite.Some? ==> ServerVerified(s, crypto, cache))
  {
    hide FullPulled, Reads, Merged;
    var rules := [SERVER_FINISHED_RULE];
    if FullPulled(cache, s.recvSequence, rules).Ok? {
      PulledReads(cache, s.recvSequence, rules, SERVER_FINISHED_RULE);
      assert cache[..|cache|] == cache;
    }
  }

  // What preparing a flight does

  ghost predicate OfEpoch(drafts: seq<Draft>, epoch: U16) {
    forall d :: d in drafts && d.MessageDraft? ==> d.epoch == epoch
  }

  /** The last flight of a side ends with a Finished of epoch 1; everything else is of epoch 0. */
  ghost predicate EndsInFinished(drafts: seq<Draft>) {
    && |drafts| >= 2 && OfEpoch(drafts[..|drafts| - 1], 0)
    && drafts[|drafts| - 1].MessageDraft? && drafts[|drafts| - 1].epoch == 1
    && drafts[|drafts| - 1].message.FinishedMessage?
  }

  ghost predicate GeneratedOk(flight: Flight, s: State, t: State, g: Generated, draws: Draws) {
    t.isClient == s.isClient
    && t.sendSequence == (if flight.Flight2? then 0 else s.sendSequence)
    && t.localEpoch == (if flight.Flight0? || flight.Flight1? then 0 else s.localEpoch)
    && t.cookie == (if flight.Flight0? then draws.cookie else if flight.Flight1? then [] else s.cookie)
    && (t.cipherSuite.Some? <==> s.cipherSuite.Some?)
    && match g
       case Refused(failure) => failure.error.Some?
       case Drafts(drafts) =>
         if flight.Flight5? || flight.Flight6? then EndsInFinished(drafts)
         else OfEpoch(drafts, 0) && (flight.Flight0? ==> drafts == [])
              && (flight.Flight1? || flight.Flight2? || flight.Flight3? ==> |drafts| == 1 && drafts[0].MessageDraft?)
  }

  lemma Flight4Prepared(s: State, cfg: Config, crypto: Crypto, draws: Draws)
    ensures var (t, g) := Flight4Generated(s, cfg, crypto); GeneratedOk(Flight4, s, t, g, draws)
  {
    hide EndsInFinished;
  }

  lemma ExchangeKeeps(s: State, cfg: Config, crypto: Crypto, cache: seq<Item>, key: nat)
    ensures var (t, _, failure) := ExchangeAgain(s, cfg, crypto, cache, key);
            Kept(s, t) && t.cookie == s.cookie && t.cipherSuite == s.cipherSuite && t.recvSequence == s.recvSequence
            && t.extendedMasterSecret == s.extendedMasterSecret && t.remoteRandom == s.remoteRandom
            && t.masterSecret == s.masterSecret
            && t.remoteRequestedCertificate == s.remoteRequestedCertificate
            && (failure.Some? ==> failure.value.error.Some?)
  {
    hide UnmarshalHandshake, Merged, ExchangeHandled;
    ExchangeHandledKeeps(s, cfg, crypto, NO_EXCHANGE, key);
  }

  lemma ClientKeyedKeeps(s: State, cfg: Config, crypto: Crypto, cache: seq<Item>, exchange: ServerKeyExchangeBody, sending: Bytes)
    ensures var (t, failure) := ClientKeyed(s, cfg, crypto, cache, exchange, sending);
            t == s.(masterSecret := t.masterSecret, cipherSuite := t.cipherSuite)
            && (t.cipherSuite.Some? <==> s.cipherSuite.Some?)
            && (failure.Some? ==> failure.value.error.Some?)
  {
    hide MasterSecret, Merged, ClientMaster;
  }

  lemma Flight5FinishedKeeps(s: State, cfg: Config, crypto: Crypto, cache: seq<Item>, drafts: seq<Draft>, sending: Bytes)
    requires OfEpoch(drafts, 0)
    ensures var (t, g) := Flight5Finished(s, cfg, crypto, cache, drafts, sending);
            t == s.(localVerifyData := t.localVerifyData)
            && match g
               case Refused(failure) => failure.error.Some?
               case Drafts(all) => EndsInFinished(all)
  {
    hide Merged, NumberedText, Writable;
    var proof := ProofDrafts(s, cfg, crypto, cache, sending);
    if proof.Drafts? {
      var (t, g) := Flight5Finished(s, cfg, crypto, cache, drafts, sending);
      if g.Drafts? {
        assert g.drafts[..|g.drafts| - 1] == drafts + proof.drafts + [ChangeCipherSpecDraft];
      }
    }
  }

  lemma Flight5Prepared(s: State, cfg: Config, crypto: Crypto, cache: seq<Item>, draws: Draws)
    ensures var (t, g) := Flight5Generated(s, cfg, crypto, cache, draws.key); GeneratedOk(Flight5, s, t, g, draws)
  {
    hide ExchangeAgain, ClientKeyed, Flight5Finished, Merged, NumberedText, Writable, EndsInFinished;
    ExchangeKeeps(s, cfg, crypto, cache, draws.key);
    var (handled, exchange, failure) := ExchangeAgain(s, cfg, crypto, cache, draws.key);
    var drafts := ClientFlights.KeyDrafts(s, cfg);
    if failure.None? && Writable(drafts) {
      var sending := NumberedText(drafts, s.sendSequence);
      ClientKeyedKeeps(handled, cfg, crypto, cache, exchange, sending);
      Flight5FinishedKeeps(ClientKeyed(handled, cfg, crypto, cache, exchange, sending).0, cfg, crypto, cache, drafts, sending);
    }
  }

  lemma FlightPrepared(flight: Flight, s: State, cfg: Config, crypto: Crypto, cache: seq<Item>, draws: Draws)
    ensures var (t, g) := FlightGenerated(flight, s, cfg, crypto, cache, draws); GeneratedOk(flight, s, t, g, draws)
  {
    hide Flight4Generated, Flight5Generated, Merged, FinishedRules;
    match flight
    case Flight4 => Flight4Prepared(s, cfg, crypto, draws);
    case Flight5 => Flight5Prepared(s, cfg, crypto, cache, draws);
    case Flight6 =>
      var (t, g) := Flight6Generated(s, crypto, cache);
      assert g.Drafts? ==> g.drafts[..1] == [ChangeCipherSpecDraft];
    case _ =>
  }
}
