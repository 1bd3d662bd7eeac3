/** What each flight insists on before it goes on: the policies of its side, and the proofs of its peer. */
module FlightGuards {
  import opened Wrappers
  import opened Bytes
  import opened Headers
  import opened Extensions
  import opened Messages
  import opened Handshakes
  import opened HandshakeCaches
  import opened HandshakeStates
  import opened ServerFlights
  import opened ClientFlights
  import opened FlightEffects

  // Policies

  /** Deriving keys does not change the suite. */
  ghost predicate KeepsIds(crypto: Crypto) {
    forall id, master, cr, sr, side ::
      crypto.suite(id, master, cr, sr, side).Ok? ==> crypto.suite(id, master, cr, sr, side).value.id == id
  }

  /** Nothing has been settled that the configuration does not offer. */
  ghost predicate Within(cfg: Config, crypto: Crypto, s: State) {
    (s.srtpProfile == UNSUPPORTED_SRTP_PROFILE || s.srtpProfile in cfg.srtpProfiles)
    && (s.extendedMasterSecret ==> cfg.extendedMasterSecret != Disable)
    && (KeepsIds(crypto) && s.cipherSuite.Some? ==> s.cipherSuite.value.id in cfg.cipherSuites)
  }

  /** A step that stays within the configuration. */
  ghost predicate Stays(cfg: Config, crypto: Crypto, s: State, t: State) {
    (Within(cfg, crypto, s) ==> Within(cfg, crypto, t)) && (s.extendedMasterSecret ==> t.extendedMasterSecret)
  }

  ghost predicate Unkeyed(s: State) {
    s.cipherSuite.Some? && !s.cipherSuite.value.initialized
  }

  predicate Extended(cfg: Config, s: State) {
    cfg.extendedMasterSecret == Require ==> s.extendedMasterSecret
  }

  predicate Profiled(cfg: Config, s: State) {
    cfg.srtpProfiles != [] ==> s.srtpProfile != UNSUPPORTED_SRTP_PROFILE
  }

  // Hellos

  const SERVER_HELLO_RULE := Rule(ServerHello, 0, false, false)

  predicate HelloWith(m: Message, random: HandshakeRandom) {
    match m
    case ClientHelloMessage(hello) => hello.version == PROTOCOL_VERSION1_2 && hello.random == random
    case ServerHelloMessage(hello) => hello.version == PROTOCOL_VERSION1_2 && hello.random == random
    case _ => false
  }

  /** A hello of version 1.2 with this random has come in. */
  ghost predicate Heard(cache: seq<Item>, r: Rule, random: HandshakeRandom) {
    exists m :: Reads(cache, r, m) && HelloWith(m, random)
  }

  /** This cookie has come in, in a HelloVerifyRequest of either version. */
  ghost predicate VerifyHeard(cache: seq<Item>, cookie: Bytes) {
    exists version ::
      Reads(cache, VERIFY_RULE, HelloVerifyRequestMessage(version, cookie))
      && (version == PROTOCOL_VERSION1_0 || version == PROTOCOL_VERSION1_2)
  }

  lemma {:induction false} HelloExtensionsStay(s: State, cfg: Config, crypto: Crypto, extensions: seq<Extension>)
    ensures Stays(cfg, crypto, s, HelloExtensions(s, cfg, extensions).0)
    ensures HelloExtensions(s, cfg, extensions).0.remoteRandom == s.remoteRandom
    decreases |extensions|
  {
    hide HelloExtension, Within;
    if extensions != [] {
      HelloExtensionStays(s, cfg, crypto, extensions[0]);
      HelloExtensionsStay(HelloExtension(s, cfg, extensions[0]).0, cfg, crypto, extensions[1..]);
    }
  }

  lemma HelloExtensionStays(s: State, cfg: Config, crypto: Crypto, e: Extension)
    ensures Stays(cfg, crypto, s, HelloExtension(s, cfg, e).0) && HelloExtension(s, cfg, e).0.remoteRandom == s.remoteRandom
  {
    hide KeepsIds, FirstKnownCurve;
  }

  lemma SuitesKnown(id: U16)
    ensures SuiteForId(id).Ok? ==> SuiteForId(id).value.id == id && !SuiteForId(id).value.initialized
  {
  }

  lemma HelloStays(s: State, cfg: Config, crypto: Crypto, hello: ClientHelloBody, key: nat)
    ensures var (t, p) := HelloParsed(s, cfg, crypto, hello, key);
            Stays(cfg, crypto, s, t) && (p.Next? ==> Extended(cfg, t))
            && (t.remoteRandom == s.remoteRandom || HelloWith(ClientHelloMessage(hello), t.remoteRandom))
            && (p.Next? ==> HelloWith(ClientHelloMessage(hello), t.remoteRandom))
  {
    hide HelloExtensions, SuiteForId, KeepsIds;
    if FirstMatch(hello.cipherSuites, cfg.cipherSuites).Some? {
      var id := FirstMatch(hello.cipherSuites, cfg.cipherSuites).value;
      SuitesKnown(id);
      var greeted := s.(remoteRandom := hello.random);
      var suited := if SuiteForId(id).Ok? then greeted.(cipherSuite := Some(SuiteForId(id).value)) else greeted;
      HelloExtensionsStay(suited, cfg, crypto, hello.extensions);
    }
  }

  lemma Flight0Stays(s: State, cfg: Config, crypto: Crypto, cache: seq<Item>, key: nat)
    ensures var (t, p) := Flight0Parsed(s, cfg, crypto, cache, key);
            Stays(cfg, crypto, s, t) && (p.Next? ==> Extended(cfg, t) && Heard(cache, CLIENT_HELLO_RULE, t.remoteRandom))
            && (t.remoteRandom == s.remoteRandom || Heard(cache, CLIENT_HELLO_RULE, t.remoteRandom))
  {
    hide FullPulled, HelloParsed, KeepsIds, Reads, HelloWith;
    var rules := [CLIENT_HELLO_RULE];
    var pulled := FullPulled(cache, 0, rules);
    if pulled.Ok? && ClientHello in pulled.value.1 && pulled.value.1[ClientHello].ClientHelloMessage? {
      PulledReads(cache, 0, rules, CLIENT_HELLO_RULE);
      HelloStays(s.(recvSequence := pulled.value.0), cfg, crypto, pulled.value.1[ClientHello].clientHello, key);
    }
  }

  lemma Flight2Stays(s: State, cfg: Config, crypto: Crypto, cache: seq<Item>, key: nat)
    ensures var (t, p) := Flight2Parsed(s, cfg, crypto, cache, key);
            Stays(cfg, crypto, s, t) && (p == Next(Flight2) ==> Extended(cfg, t))
            && (t.remoteRandom == s.remoteRandom || Heard(cache, CLIENT_HELLO_RULE, t.remoteRandom))
  {
    hide FullPulled, Flight0Parsed, KeepsIds, Heard;
    Flight0Stays(s, cfg, crypto, cache, key);
  }

  lemma {:induction false} AnswerExtensionsStay(s: State, cfg: Config, crypto: Crypto, extensions: seq<Extension>)
    ensures Stays(cfg, crypto, s, AnswerExtensions(s, cfg, extensions).0)
    ensures AnswerExtensions(s, cfg, extensions).0.cookie == s.cookie
    decreases |extensions|
  {
    hide KeepsIds;
    if extensions != [] {
      match extensions[0]
      case UseSrtp(profiles) =>
        var profile := FirstMatch(profiles, cfg.srtpProfiles);
        if profile.Some? {
          AnswerExtensionsStay(s.(srtpProfile := profile.value), cfg, crypto, extensions[1..]);
        }
      case UseExtendedMasterSecret(_) =>
        AnswerExtensionsStay(if cfg.extendedMasterSecret.Offers() then s.(extendedMasterSecret := true) else s, cfg, crypto,
                             extensions[1..]);
      case _ =>
        AnswerExtensionsStay(s, cfg, crypto, extensions[1..]);
    }
  }

  ghost predicate Greeted(cfg: Config, t: State) {
    Unkeyed(t) && Extended(cfg, t) && Profiled(cfg, t)
  }

  lemma ServerHelloStays(s: State, cfg: Config, crypto: Crypto, msgs: map<HandshakeType, Message>)
    ensures var (t, failure) := ServerHelloParsed(s, cfg, msgs);
            Stays(cfg, crypto, s, t) && t.cookie == s.cookie
            && (failure.None? && ServerHello in msgs ==> Greeted(cfg, t) && HelloWith(msgs[ServerHello], t.remoteRandom))
  {
    hide AnswerExtensions, SuiteForId, KeepsIds;
    if ServerHello in msgs && msgs[ServerHello].ServerHelloMessage? {
      AnswerExtensionsStay(s, cfg, crypto, msgs[ServerHello].serverHello.extensions);
      SuitesKnown(msgs[ServerHello].serverHello.cipherSuite);
    }
  }

  /** The settled fields are the same. */
  ghost predicate Settled(s: State, t: State) {
    t.srtpProfile == s.srtpProfile && t.extendedMasterSecret == s.extendedMasterSecret && t.cipherSuite == s.cipherSuite
    && t.remoteRandom == s.remoteRandom && t.cookie == s.cookie
  }

  lemma LaterPartsSettled(s: State, cfg: Config, crypto: Crypto, msgs: map<HandshakeType, Message>, key: nat)
    ensures Settled(s, ServerCertificateParsed(s, msgs).0)
    ensures Settled(s, ExchangeParsed(s, cfg, crypto, msgs, key).0)
    ensures Settled(s, RequestParsed(s, msgs).0)
  {
    hide ExchangeHandled;
    if ServerKeyExchange in msgs && msgs[ServerKeyExchange].ServerKeyExchangeMessage? {
      ExchangeHandledKeeps(s, cfg, crypto, msgs[ServerKeyExchange].serverKeyExchange, key);
    }
  }

  lemma AnswerStays(s: State, cfg: Config, crypto: Crypto, cache: seq<Item>, key: nat)
    ensures var (t, p) := AnswerParsed(s, cfg, crypto, cache, key);
            Stays(cfg, crypto, s, t) && t.cookie == s.cookie
            && (p.Next? ==> Greeted(cfg, t) && Heard(cache, SERVER_HELLO_RULE, t.remoteRandom))
  {
    hide FullPulled, ServerHelloParsed, ServerCertificateParsed, ExchangeParsed, RequestParsed, Reads, DistinctTypes,
         AnswerRules, KeepsIds, HelloWith;
    AnswerRulesDistinct(cfg);
    var pulled := FullPulled(cache, s.recvSequence, AnswerRules(cfg));
    if pulled.Ok? {
      PulledReads(cache, s.recvSequence, AnswerRules(cfg), SERVER_HELLO_RULE);
      var msgs := pulled.value.1;
      ServerHelloStays(s.(recvSequence := pulled.value.0), cfg, crypto, msgs);
      var greeted := ServerHelloParsed(s.(recvSequence := pulled.value.0), cfg, msgs).0;
      LaterPartsSettled(greeted, cfg, crypto, msgs, key);
      var shown := ServerCertificateParsed(greeted, msgs).0;
      LaterPartsSettled(shown, cfg, crypto, msgs, key);
      LaterPartsSettled(ExchangeParsed(shown, cfg, crypto, msgs, key).0, cfg, crypto, msgs, key);
    }
  }

  /** What leads a client on. */
  ghost predicate ClientLed(cfg: Config, cache: seq<Item>, s: State, t: State, p: Parsed) {
    (p == Next(Flight5) ==> Greeted(cfg, t) && Heard(cache, SERVER_HELLO_RULE, t.remoteRandom))
    && (if p == Next(Flight3) then VerifyHeard(cache, t.cookie) else t.cookie == s.cookie)
  }

  lemma VerifyPulled(s: State, cfg: Config, crypto: Crypto, cache: seq<Item>, rules: seq<Rule>)
    requires DistinctTypes(rules) && VERIFY_RULE in rules
    ensures var pulled := FullPulled(cache, s.recvSequence, rules);
            pulled.Ok? && HelloVerifyRequest in pulled.value.1 ==>
              var (t, p) := VerifyRequested(s, pulled.value.1[HelloVerifyRequest], pulled.value.0);
              Stays(cfg, crypto, s, t) && ClientLed(cfg, cache, s, t, p)
  {
    hide FullPulled, Reads, KeepsIds;
    if FullPulled(cache, s.recvSequence, rules).Ok? {
      PulledReads(cache, s.recvSequence, rules, VERIFY_RULE);
    }
  }

  lemma Flight3Stays(s: State, cfg: Config, crypto: Crypto, cache: seq<Item>, key: nat)
    ensures var (t, p) := Flight3Parsed(s, cfg, crypto, cache, key);
            Stays(cfg, crypto, s, t) && ClientLed(cfg, cache, s, t, p)
  {
    hide FullPulled, AnswerParsed, KeepsIds, Heard, VerifyHeard, VerifyRequested, Greeted, DistinctTypes;
    AnswerStays(s, cfg, crypto, cache, key);
    AnswerEffect(s, cfg, crypto, cache, key);
    FirstRules();
    VerifyPulled(s, cfg, crypto, cache, [VERIFY_RULE]);
  }

  lemma Flight1Stays(s: State, cfg: Config, crypto: Crypto, cache: seq<Item>, key: nat)
    ensures var (t, p) := Flight1Parsed(s, cfg, crypto, cache, key);
            Stays(cfg, crypto, s, t) && ClientLed(cfg, cache, s, t, p)
  {
    hide FullPulled, Flight3Parsed, KeepsIds, Heard, VerifyHeard, VerifyRequested, Greeted, DistinctTypes;
    Flight3Stays(s, cfg, crypto, cache, key);
    FirstRules();
    VerifyPulled(s, cfg, crypto, cache, FIRST_ANSWER_RULES);
  }

  lemma FirstRules()
    ensures DistinctTypes([VERIFY_RULE]) && DistinctTypes(FIRST_ANSWER_RULES) && VERIFY_RULE in FIRST_ANSWER_RULES
  {
    assert FIRST_ANSWER_RULES[0] == VERIFY_RULE;
  }

  // The client's proof

  const PROOF_RULE := Rule(CertificateVerify, 0, true, true)

  /** A signature by the holder of these certificates, of a text, with a scheme the server lists. */
  ghost predicate Proves(cfg: Config, crypto: Crypto, cache: seq<Item>, proof: Message, certificates: seq<Bytes>) {
    proof.CertificateVerifyMessage? && certificates != [] && proof.algorithm in cfg.signatureSchemes
    && crypto.verifyTranscript(Merged(cache, KEY_EXCHANGE_RULES), proof.algorithm, proof.signature, certificates)
    && crypto.trustClient(cfg.clientAuth, certificates)
  }

  /** The certificates that the server goes by. */
  function CertificatesShown(s: State, msgs: map<HandshakeType, Message>): seq<Bytes> {
    if Certificate in msgs && msgs[Certificate].CertificateMessage? then msgs[Certificate].certificates else s.peerCertificates
  }

  ghost predicate Proven(s: State, cfg: Config, crypto: Crypto, cache: seq<Item>, msgs: map<HandshakeType, Message>) {
    if CertificateVerify in msgs then Proves(cfg, crypto, cache, msgs[CertificateVerify], CertificatesShown(s, msgs))
    else CertificatesShown(s, msgs) == []
  }

  ghost predicate KeysCome(s: State, cfg: Config, crypto: Crypto, cache: seq<Item>, msgs: map<HandshakeType, Message>) {
    ClientKeyExchange in msgs && msgs[ClientKeyExchange].ClientKeyExchangeMessage?
    && (Certificate in msgs ==> msgs[Certificate].CertificateMessage?)
    && ServerKeyed(s, cfg, crypto, cache, msgs[ClientKeyExchange]).1.None?
  }

  lemma KeyedWhoever(s: State, t: State, cfg: Config, crypto: Crypto, cache: seq<Item>, exchange: Message)
    requires exchange.ClientKeyExchangeMessage?
    requires t == s.(peerCertificates := t.peerCertificates, peerCertificatesVerified := t.peerCertificatesVerified)
    ensures ServerKeyed(t, cfg, crypto, cache, exchange).1 == ServerKeyed(s, cfg, crypto, cache, exchange).1
  {
    hide KeysFrom, ServerPreMaster;
    SamePreMaster(s, t, cfg, crypto, exchange);
    if s.cipherSuite.Some? && ServerPreMaster(s, cfg, crypto, exchange).Ok? {
      var pre := ServerPreMaster(s, cfg, crypto, exchange).value;
      SameKeysFrom(s, t, crypto, cache, pre);
      SameKeysFrom(s.(identityHint := exchange.identityHint), t.(identityHint := exchange.identityHint), crypto, cache, pre);
    }
  }

  lemma SamePreMaster(s: State, t: State, cfg: Config, crypto: Crypto, exchange: Message)
    requires exchange.ClientKeyExchangeMessage? && t.localKeypair == s.localKeypair
    ensures ServerPreMaster(t, cfg, crypto, exchange) == ServerPreMaster(s, cfg, crypto, exchange)
  {
  }

  lemma SameKeysFrom(s: State, t: State, crypto: Crypto, cache: seq<Item>, pre: Bytes)
    requires s.cipherSuite.Some? && t == s.(peerCertificates := t.peerCertificates, peerCertificatesVerified := t.peerCertificatesVerified)
    ensures KeysFrom(t, crypto, cache, pre).1 == KeysFrom(s, crypto, cache, pre).1
  {
    hide Merged, MasterSecret, RandomBytes;
  }

  lemma KeyedFailure(s: State, cfg: Config, crypto: Crypto, cache: seq<Item>, exchange: Message)
    requires exchange.ClientKeyExchangeMessage?
    ensures ServerKeyed(s, cfg, crypto, cache, exchange).1 != Some(Fatal(BAD_CERTIFICATE, BadSignature))
  {
    hide Merged, MasterSecret, RandomBytes, ServerPreMaster;
  }

  predicate Verifies(auth: ClientAuth) {
    auth == VerifyClientCertIfGiven || auth == RequireAndVerifyClientCert
  }

  /** The server takes the client's keys exactly if it is shown no certificate and no proof, or a proof
      that holds for the certificates shown. */
  lemma KeyedIff(s: State, cfg: Config, crypto: Crypto, cache: seq<Item>, next: int, msgs: map<HandshakeType, Message>)
    requires FullPulled(cache, s.recvSequence, CLIENT_KEY_RULES) == Ok((next, msgs))
    ensures Flight4Keyed(s, cfg, crypto, cache).1.Continue?
       <==> KeysCome(s, cfg, crypto, cache, msgs) && Proven(s, cfg, crypto, cache, msgs)
    ensures Flight4Keyed(s, cfg, crypto, cache).1.Continue? ==>
              Flight4Keyed(s, cfg, crypto, cache).0.peerCertificates == CertificatesShown(s, msgs)
              && (CertificateVerify in msgs ==> Flight4Keyed(s, cfg, crypto, cache).0.peerCertificatesVerified == Verifies(cfg.clientAuth))
  {
    hide FullPulled, ServerKeyed, Merged;
    if ClientKeyExchange in msgs && msgs[ClientKeyExchange].ClientKeyExchangeMessage? {
      var checked := CertificatesChecked(s, cfg, crypto, cache, msgs).0;
      CertificatesKeep(s, cfg, crypto, cache, msgs);
      KeyedWhoever(s, checked, cfg, crypto, cache, msgs[ClientKeyExchange]);
      ServerKeyedKeeps(checked, cfg, crypto, cache, msgs[ClientKeyExchange]);
    }
  }

  /** A forged proof is answered with an alert, and with no other failure can it be confused. */
  lemma ForgedProof(s: State, cfg: Config, crypto: Crypto, cache: seq<Item>, next: int, msgs: map<HandshakeType, Message>)
    requires FullPulled(cache, s.recvSequence, CLIENT_KEY_RULES) == Ok((next, msgs)) && ClientKeyExchange in msgs
    requires msgs[ClientKeyExchange].ClientKeyExchangeMessage? && (Certificate in msgs ==> msgs[Certificate].CertificateMessage?)
    ensures Flight4Keyed(s, cfg, crypto, cache).1 == Halt(Fatal(BAD_CERTIFICATE, BadSignature))
       <==> CertificateVerify in msgs && msgs[CertificateVerify].CertificateVerifyMessage? && CertificatesShown(s, msgs) != []
            && msgs[CertificateVerify].algorithm in cfg.signatureSchemes
            && !crypto.verifyTranscript(Merged(cache, KEY_EXCHANGE_RULES), msgs[CertificateVerify].algorithm,
                                        msgs[CertificateVerify].signature, CertificatesShown(s, msgs))
  {
    hide FullPulled, ServerKeyed, Merged;
    KeyedFailure(CertificatesChecked(s, cfg, crypto, cache, msgs).0, cfg, crypto, cache, msgs[ClientKeyExchange]);
  }

  /** The server has read a proof for the certificates it goes by. */
  ghost predicate ProofRead(cfg: Config, crypto: Crypto, cache: seq<Item>, certificates: seq<Bytes>) {
    exists n: nat, proof ::
      n <= |cache| && Reads(cache[..n], PROOF_RULE, proof) && Proves(cfg, crypto, cache[..n], proof, certificates)
  }

  predicate Demands(auth: ClientAuth) {
    auth == RequireAnyClientCert || auth == RequireAndVerifyClientCert
  }

  /** The client has shown that it holds the keys of its certificates, or it has none and needs none. */
  ghost predicate ClientAuthentic(cfg: Config, crypto: Crypto, s: State, cache: seq<Item>) {
    if s.peerCertificates == [] then !Demands(cfg.clientAuth) else ProofRead(cfg, crypto, cache, s.peerCertificates)
  }

  lemma KeyedProven(s: State, cfg: Config, crypto: Crypto, cache: seq<Item>)
    requires Flight4Keyed(s, cfg, crypto, cache).1.Continue?
    ensures var t := Flight4Keyed(s, cfg, crypto, cache).0;
            t.peerCertificates == [] || ProofRead(cfg, crypto, cache, t.peerCertificates)
  {
    hide FullPulled, Flight4Keyed, KeysCome, Reads, Merged;
    var pulled := FullPulled(cache, s.recvSequence, CLIENT_KEY_RULES);
    KeyedPulled(s, cfg, crypto, cache);
    var (next, msgs) := pulled.value;
    KeyedIff(s, cfg, crypto, cache, next, msgs);
    if CertificateVerify in msgs {
      PulledReads(cache, s.recvSequence, CLIENT_KEY_RULES, PROOF_RULE);
      assert cache[..|cache|] == cache;
    }
  }

  lemma KeyedPulled(s: State, cfg: Config, crypto: Crypto, cache: seq<Item>)
    requires Flight4Keyed(s, cfg, crypto, cache).1.Continue?
    ensures FullPulled(cache, s.recvSequence, CLIENT_KEY_RULES).Ok?
  {
    hide FullPulled, ServerKeyed, CertificatesChecked;
  }

  lemma KeysFromStays(s: State, cfg: Config, crypto: Crypto, cache: seq<Item>, pre: Bytes)
    requires s.cipherSuite.Some?
    ensures Stays(cfg, crypto, s, KeysFrom(s, crypto, cache, pre).0)
  {
    hide Merged, MasterSecret, RandomBytes;
  }

  lemma ServerKeyedStays(s: State, cfg: Config, crypto: Crypto, cache: seq<Item>, exchange: Message)
    requires exchange.ClientKeyExchangeMessage?
    ensures Stays(cfg, crypto, s, ServerKeyed(s, cfg, crypto, cache, exchange).0)
  {
    hide KeysFrom, ServerPreMaster, KeepsIds;
    if s.cipherSuite.Some? && ServerPreMaster(s, cfg, crypto, exchange).Ok? {
      KeysFromStays(if cfg.psk.Some? then s.(identityHint := exchange.identityHint) else s, cfg, crypto, cache,
                    ServerPreMaster(s, cfg, crypto, exchange).value);
    }
  }

  lemma Flight4Stays(s: State, cfg: Config, crypto: Crypto, cache: seq<Item>)
    ensures Stays(cfg, crypto, s, Flight4Keyed(s, cfg, crypto, cache).0)
    ensures Flight4Keyed(s, cfg, crypto, cache).0.remoteRandom == s.remoteRandom
  {
    hide FullPulled, CertificatesChecked, ServerKeyed, KeepsIds;
    var pulled := FullPulled(cache, s.recvSequence, CLIENT_KEY_RULES);
    if pulled.Ok? && ClientKeyExchange in pulled.value.1 && pulled.value.1[ClientKeyExchange].ClientKeyExchangeMessage? {
      var msgs := pulled.value.1;
      CertificatesKeep(s, cfg, crypto, cache, msgs);
      ServerKeyedStays(CertificatesChecked(s, cfg, crypto, cache, msgs).0, cfg, crypto, cache, msgs[ClientKeyExchange]);
      ServerKeyedKeeps(CertificatesChecked(s, cfg, crypto, cache, msgs).0, cfg, crypto, cache, msgs[ClientKeyExchange]);
    }
  }

  lemma {:induction false} ProofGrows(cfg: Config, crypto: Crypto, cache: seq<Item>, more: seq<Item>, certificates: seq<Bytes>)
    requires ProofRead(cfg, crypto, cache, certificates) && cache <= more
    ensures ProofRead(cfg, crypto, more, certificates)
  {
    hide Reads, Proves;
    var n: nat, proof :|
      n <= |cache| && Reads(cache[..n], PROOF_RULE, proof) && Proves(cfg, crypto, cache[..n], proof, certificates);
    assert more[..n] == cache[..n];
  }

  /** Once the waiting records are read, the Finished lets the server go on only with such a client. */
  lemma Flight4Authentic(s: State, cfg: Config, crypto: Crypto, cache: seq<Item>, start: int)
    requires s.peerCertificates == [] || ProofRead(cfg, crypto, cache, s.peerCertificates)
    ensures var (t, p) := Flight4Finished(s, cfg, cache, start);
            Settled(s, t) && (p.Next? ==> ClientAuthentic(cfg, crypto, t, cache))
  {
    hide FullPulled, ProofRead;
  }

  // The server's proof

  ghost predicate ExchangeHeld(cache: seq<Item>, exchange: ServerKeyExchangeBody) {
    exchange == NO_EXCHANGE || Reads(cache, SERVER_KEY_EXCHANGE_RULE, ServerKeyExchangeMessage(exchange))
  }

  /** A key share of the server, with a scheme the client lists, a signature that holds for the two
      randoms and the server's certificates, and trust in them. */
  ghost predicate ServerAuthentic(cfg: Config, crypto: Crypto, s: State, cache: seq<Item>) {
    exists exchange ::
      ExchangeHeld(cache, exchange) && exchange.algorithm in cfg.signatureSchemes
      && crypto.verifyKey(RandomBytes(s.localRandom), RandomBytes(s.remoteRandom), exchange, s.peerCertificates)
      && crypto.trustServer(s.peerCertificates)
  }

  lemma ExchangeFound(s: State, cfg: Config, crypto: Crypto, cache: seq<Item>, key: nat)
    ensures var (t, exchange, failure) := ExchangeAgain(s, cfg, crypto, cache, key);
            ExchangeHeld(cache, exchange) && Settled(s, t) && t.peerCertificates == s.peerCertificates
            && t.localRandom == s.localRandom && t.remoteRandom == s.remoteRandom
  {
    hide UnmarshalHandshake, Best, ExchangeHandled;
    ExchangeHandledKeeps(s, cfg, crypto, NO_EXCHANGE, key);
    BestMatches(cache, SERVER_KEY_EXCHANGE_RULE);
    MergedSingle(cache, SERVER_KEY_EXCHANGE_RULE);
  }

  lemma MergedSingle(cache: seq<Item>, r: Rule)
    ensures Merged(cache, [r]) == match Best(cache, r) case Some(item) => item.data case None => []
  {
    hide Best;
    var found := BestOnly(cache, r);
    assert [r][1..] == [] && Pulled(cache, [r]) == found;
    if found != [] {
      assert found == [found[0]] && found[1..] == [];
      assert MergedData(found) == found[0].data + MergedData(found[1..]);
    }
  }

  lemma ClientKeyedStays(s: State, cfg: Config, crypto: Crypto, cache: seq<Item>, exchange: ServerKeyExchangeBody, sending: Bytes)
    ensures var (t, failure) := ClientKeyed(s, cfg, crypto, cache, exchange, sending);
            Stays(cfg, crypto, s, t)
            && (failure.None? && Unkeyed(s) && cfg.psk.None? ==>
                  exchange.algorithm in cfg.signatureSchemes
                  && crypto.verifyKey(RandomBytes(t.localRandom), RandomBytes(t.remoteRandom), exchange, t.peerCertificates)
                  && crypto.trustServer(t.peerCertificates))
  {
    hide MasterSecret, Merged, ClientMaster, RandomBytes;
  }

  lemma Flight5Stays(s: State, cfg: Config, crypto: Crypto, cache: seq<Item>, key: nat)
    ensures var (t, g) := Flight5Generated(s, cfg, crypto, cache, key);
            Stays(cfg, crypto, s, t) && t.srtpProfile == s.srtpProfile && t.remoteRandom == s.remoteRandom
            && (g.Drafts? && Unkeyed(s) && cfg.psk.None? ==> ServerAuthentic(cfg, crypto, t, cache))
  {
    hide ExchangeAgain, ClientKeyed, Flight5Finished, Merged, NumberedText, Writable, KeepsIds, RandomBytes, EndsInFinished,
         ExchangeHeld;
    ExchangeFound(s, cfg, crypto, cache, key);
    var (handled, exchange, failure) := ExchangeAgain(s, cfg, crypto, cache, key);
    var drafts := ClientFlights.KeyDrafts(s, cfg);
    if failure.None? && Writable(drafts) {
      var sending := NumberedText(drafts, s.sendSequence);
      ClientKeyedStays(handled, cfg, crypto, cache, exchange, sending);
      ClientKeyedKeeps(handled, cfg, crypto, cache, exchange, sending);
      ClientDraftsPlain(s, cfg);
      Flight5FinishedKeeps(ClientKeyed(handled, cfg, crypto, cache, exchange, sending).0, cfg, crypto, cache, drafts, sending);
    }
  }

  lemma ClientDraftsPlain(s: State, cfg: Config)
    ensures OfEpoch(ClientFlights.KeyDrafts(s, cfg), 0)
  {
  }
}
