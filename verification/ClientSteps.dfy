/** Flights 1, 3 and 5 as the client takes them, one assignment at a time. */
module ClientSteps {
  import opened Wrappers
  import opened Bytes
  import opened Headers
  import opened Extensions
  import opened Messages
  import opened Handshakes
  import opened HandshakeCaches
  import opened HandshakeStates
  import opened ClientFlights
  import opened HandshakeContexts
  import Reading

  // Flights 1 and 3

  method GenerateFlight1(c: HandshakeContext, draws: Draws) returns (r: Generated)
    modifies c
    ensures (c.state, r) == Flight1Generated(old(c.state), c.cfg, draws)
  {
    c.state := c.state.(localEpoch := 0);
    c.state := c.state.(namedCurve := DEFAULT_NAMED_CURVE);
    c.state := c.state.(cookie := []);
    c.state := c.state.(localRandom := draws.random);
    var extensions := OfferedExtensions(c);
    return Drafts([MessageDraft(0, ClientHelloMessage(
                                     ClientHelloBody(PROTOCOL_VERSION1_2, c.state.localRandom, c.state.cookie, c.cfg.cipherSuites,
                                                     [NULL_COMPRESSION], extensions)))]);
  }

  method GenerateFlight3(c: HandshakeContext) returns (r: Generated)
    ensures (c.state, r) == Flight3Generated(c.state, c.cfg)
  {
    var extensions := OfferedExtensions(c);
    return Drafts([MessageDraft(0, ClientHelloMessage(
                                     ClientHelloBody(PROTOCOL_VERSION1_2, c.state.localRandom, c.state.cookie, c.cfg.cipherSuites,
                                                     [NULL_COMPRESSION], extensions)))]);
  }

  method OfferedExtensions(c: HandshakeContext) returns (extensions: seq<Extension>)
    ensures extensions == ClientHelloExtensions(c.cfg)
  {
    extensions := [SupportedSignatureAlgorithms(c.cfg.signatureSchemes), RenegotiationInfo(0)];
    if c.cfg.psk.None? {
      extensions := extensions + [SupportedEllipticCurves([0x17, 0x1d, 0x18]), SupportedPointFormats([0])];
    }
    if c.cfg.srtpProfiles != [] {
      extensions := extensions + [UseSrtp(c.cfg.srtpProfiles)];
    }
    if c.cfg.extendedMasterSecret == Request || c.cfg.extendedMasterSecret == Require {
      extensions := extensions + [UseExtendedMasterSecret(true)];
    }
    if c.cfg.serverName != [] {
      extensions := extensions + [ServerName(c.cfg.serverName)];
    }
  }

  method TakeVerifyRequest(c: HandshakeContext, request: Message, next: int) returns (r: Parsed)
    modifies c
    ensures (c.state, r) == VerifyRequested(old(c.state), request, next)
  {
    if !request.HelloVerifyRequestMessage? {
      return Failed(WRONG_MESSAGE);
    }
    if request.version != PROTOCOL_VERSION1_0 && request.version != PROTOCOL_VERSION1_2 {
      return Failed(Fatal(PROTOCOL_VERSION, Error.UnsupportedProtocolVersion));
    }
    c.state := c.state.(cookie := request.cookie);
    c.state := c.state.(recvSequence := next);
    return Next(Flight3);
  }

  method ParseFlight1(c: HandshakeContext, key: nat) returns (r: Parsed)
    modifies c
    ensures (c.state, r) == Flight1Parsed(old(c.state), c.cfg, c.crypto, c.cache.cache, key)
  {
    hide FullPulled, Flight3Parsed, VerifyRequested;
    var pulled := c.cache.FullPullMap(c.state.recvSequence, FIRST_ANSWER_RULES);
    if pulled.Err? {
      return Failed(KEEP_READING);
    }
    var (next, msgs) := pulled.value;
    if ServerHello in msgs {
      // Flights 1 and 2 were skipped.
      r := ParseFlight3(c, key);
    } else if HelloVerifyRequest in msgs {
      r := TakeVerifyRequest(c, msgs[HelloVerifyRequest], next);
    } else {
      r := Failed(WRONG_MESSAGE);
    }
  }

  method ParseFlight3(c: HandshakeContext, key: nat) returns (r: Parsed)
    modifies c
    ensures (c.state, r) == Flight3Parsed(old(c.state), c.cfg, c.crypto, c.cache.cache, key)
  {
    hide FullPulled, AnswerParsed, VerifyRequested;
    var again := c.cache.FullPullMap(c.state.recvSequence, [VERIFY_RULE]);
    if again.Ok? && HelloVerifyRequest in again.value.1 {
      r := TakeVerifyRequest(c, again.value.1[HelloVerifyRequest], again.value.0);
    } else {
      r := ParseAnswer(c, key);
    }
  }

  method ParseAnswer(c: HandshakeContext, key: nat) returns (r: Parsed)
    modifies c
    ensures (c.state, r) == AnswerParsed(old(c.state), c.cfg, c.crypto, c.cache.cache, key)
  {
    hide FullPulled, ServerHelloParsed, ExchangeHandled;
    var pulled := c.cache.FullPullMap(c.state.recvSequence, AnswerRules(c.cfg));
    if pulled.Err? {
      return Failed(KEEP_READING);
    }
    var (next, msgs) := pulled.value;
    c.state := c.state.(recvSequence := next);
    var failure := ReadServerHello(c, msgs);
    if failure.Some? {
      return Failed(failure.value);
    }
    if Certificate in msgs {
      if !msgs[Certificate].CertificateMessage? {
        return Failed(WRONG_MESSAGE);
      }
      c.state := c.state.(peerCertificates := msgs[Certificate].certificates);
    }
    if ServerKeyExchange in msgs {
      if !msgs[ServerKeyExchange].ServerKeyExchangeMessage? {
        return Failed(WRONG_MESSAGE);
      }
      failure := HandleServerKeyExchange(c, msgs[ServerKeyExchange].serverKeyExchange, key);
      if failure.Some? {
        return Failed(failure.value);
      }
    }
    if CertificateRequest in msgs {
      if !msgs[CertificateRequest].CertificateRequestMessage? {
        return Failed(WRONG_MESSAGE);
      }
      c.state := c.state.(remoteRequestedCertificate := true);
    }
    return Next(Flight5);
  }

  method ReadServerHello(c: HandshakeContext, msgs: map<HandshakeType, Message>) returns (failure: Option<Failure>)
    modifies c
    ensures (c.state, failure) == ServerHelloParsed(old(c.state), c.cfg, msgs)
  {
    hide AnswerExtensions;
    if ServerHello !in msgs {
      return None;
    }
    if !msgs[ServerHello].ServerHelloMessage? {
      return Some(WRONG_MESSAGE);
    }
    var hello := msgs[ServerHello].serverHello;
    if hello.version != PROTOCOL_VERSION1_2 {
      return Some(Fatal(PROTOCOL_VERSION, Error.UnsupportedProtocolVersion));
    }
    failure := ReadAnswerExtensions(c, hello.extensions);
    if failure.Some? {
      return;
    }
    if c.cfg.extendedMasterSecret == Require && !c.state.extendedMasterSecret {
      return Some(Fatal(INSUFFICIENT_SECURITY, NoExtendedMasterSecret));
    }
    if c.cfg.srtpProfiles != [] && c.state.srtpProfile == UNSUPPORTED_SRTP_PROFILE {
      return Some(Fatal(INSUFFICIENT_SECURITY, RequestedButNoSrtpExtension));
    }
    var id := FindMatching([hello.cipherSuite], c.cfg.cipherSuites);
    if id.None? {
      return Some(Fatal(INSUFFICIENT_SECURITY, CipherSuiteNoIntersection));
    }
    var suite := SuiteForId(hello.cipherSuite);
    if suite.Err? {
      return Some(Fatal(INSUFFICIENT_SECURITY, suite.error));
    }
    c.state := c.state.(cipherSuite := Some(suite.value));
    c.state := c.state.(remoteRandom := hello.random);
    return None;
  }

  method ReadAnswerExtensions(c: HandshakeContext, extensions: seq<Extension>) returns (failure: Option<Failure>)
    modifies c
    ensures (c.state, failure) == AnswerExtensions(old(c.state), c.cfg, extensions)
  {
    hide FirstMatch;
    assert extensions[0..] == extensions;
    for i := 0 to |extensions|
      invariant AnswerExtensions(old(c.state), c.cfg, extensions) == AnswerExtensions(c.state, c.cfg, extensions[i..])
    {
      assert extensions[i..][0] == extensions[i] && extensions[i..][1..] == extensions[i + 1..];
      match extensions[i] {
        case UseSrtp(profiles) =>
          var profile := FindMatching(profiles, c.cfg.srtpProfiles);
          if profile.None? {
            return Some(Fatal(ILLEGAL_PARAMETER, NoMatchingSrtpProfile));
          }
          c.state := c.state.(srtpProfile := profile.value);
        case UseExtendedMasterSecret(_) =>
          if c.cfg.extendedMasterSecret != Disable {
            c.state := c.state.(extendedMasterSecret := true);
          }
        case _ =>
      }
    }
    return None;
  }

  method HandleServerKeyExchange(c: HandshakeContext, exchange: ServerKeyExchangeBody, key: nat) returns (failure: Option<Failure>)
    modifies c
    ensures (c.state, failure) == ExchangeHandled(old(c.state), c.cfg, c.crypto, exchange, key)
  {
    if c.cfg.psk.Some? {
      var psk := c.cfg.psk.value(exchange.identityHint);
      if psk.Err? {
        return Some(Fatal(INTERNAL_ERROR, psk.error));
      }
      c.state := c.state.(identityHint := exchange.identityHint);
      c.state := c.state.(preMasterSecret := c.crypto.pskPreMasterSecret(psk.value));
      return None;
    }
    var keypair := c.crypto.keypair(exchange.namedCurve, key);
    if keypair.Err? {
      return Some(Fatal(INTERNAL_ERROR, keypair.error));
    }
    var shared := c.crypto.preMasterSecret(exchange.publicKey, keypair.value);
    if shared.Err? {
      return Some(Fatal(INTERNAL_ERROR, shared.error));
    }
    c.state := c.state.(preMasterSecret := shared.value);
    c.state := c.state.(localKeypair := Some(keypair.value));
    return None;
  }

  // Flight 5

  method GenerateFlight5(c: HandshakeContext, key: nat) returns (r: Generated)
    modifies c
    ensures (c.state, r) == Flight5Generated(old(c.state), c.cfg, c.crypto, c.cache.cache, key)
  {
    hide ExchangeAgain, ClientKeyed, Flight5Finished, NumberedText, Writable, KeyDrafts;
    var pkts := FirstPackets(c);
    var exchange, failure := ReadExchangeAgain(c, key);
    if failure.Some? {
      return Refused(failure.value);
    }
    if !Writable(pkts) {
      return Refused(UNWRITABLE);
    }
    AgainKeepsNumbers(old(c.state), c.cfg, c.crypto, c.cache.cache, key);
    var merged := AppendNotYetSent(pkts, c.state.sendSequence);
    failure := InitializeClientSuite(c, exchange, merged);
    if failure.Some? {
      return Refused(failure.value);
    }
    r := FinishFlight5(c, pkts, merged);
  }

  lemma AgainKeepsNumbers(s: State, cfg: Config, crypto: Crypto, cache: seq<Item>, key: nat)
    ensures ExchangeAgain(s, cfg, crypto, cache, key).0.sendSequence == s.sendSequence
  {
    hide UnmarshalHandshake, Merged;
  }

  method FirstPackets(c: HandshakeContext) returns (pkts: seq<Draft>)
    ensures pkts == KeyDrafts(c.state, c.cfg) && forall p :: p in pkts ==> p.MessageDraft?
  {
    pkts := [];
    if c.state.remoteRequestedCertificate {
      var chain := if c.cfg.certificate.Some? then c.cfg.certificate.value.chain else [];
      pkts := pkts + [MessageDraft(0, CertificateMessage(chain))];
    }
    var identityHint, publicKey := [], [];
    if c.cfg.psk.None? {
      if c.state.localKeypair.Some? {
        publicKey := c.state.localKeypair.value.publicKey;
      }
    } else if c.cfg.pskHint.Some? {
      identityHint := c.cfg.pskHint.value;
    }
    pkts := pkts + [MessageDraft(0, ClientKeyExchangeMessage(identityHint, publicKey))];
  }

  method ReadExchangeAgain(c: HandshakeContext, key: nat) returns (exchange: ServerKeyExchangeBody, failure: Option<Failure>)
    modifies c
    ensures (c.state, exchange, failure) == ExchangeAgain(old(c.state), c.cfg, c.crypto, c.cache.cache, key)
  {
    hide Merged, ExchangeHandled, UnmarshalHandshake;
    var data := c.cache.PullAndMerge([SERVER_KEY_EXCHANGE_RULE]);
    exchange := NO_EXCHANGE;
    if data == [] {
      failure := HandleServerKeyExchange(c, exchange, key);
      return;
    }
    var rawHandshake := UnmarshalHandshake(data);
    if rawHandshake.Err? {
      return exchange, Some(Fatal(Reading.UNEXPECTED_MESSAGE, rawHandshake.error));
    }
    if !rawHandshake.value.message.ServerKeyExchangeMessage? {
      return exchange, Some(Fatal(Reading.UNEXPECTED_MESSAGE, InvalidContentType));
    }
    return rawHandshake.value.message.serverKeyExchange, None;
  }

  lemma FirstText(pkts: seq<Draft>, next: int)
    requires Writable(pkts) && pkts != [] && pkts[0].MessageDraft?
    ensures Writable(pkts[1..]) && WellFormed(pkts[0].message)
    ensures NumberedText(pkts, next)
         == Numbered(pkts[0].message, WrappedU16(next)).Whole() + NumberedText(pkts[1..], next + 1)
  {
    hide WellFormed, RawHandshake.Whole, Numbered, UnmarshalHandshake, MarshalHandshake, NewHandshake, Transmitted;
    assert pkts[0] in pkts && forall d :: d in pkts[1..] ==> d in pkts;
    HandshakeRoundTrip(pkts[0].message, WrappedU16(next));
  }

  /** What the messages about to be sent will look like in the cache: numbered ahead of time. */
  method AppendNotYetSent(pkts: seq<Draft>, next: int) returns (merged: Bytes)
    requires Writable(pkts) && forall p :: p in pkts ==> p.MessageDraft?
    ensures merged == NumberedText(pkts, next)
  {
    hide WellFormed, Numbered, Writable, NumberedText, RawHandshake.Whole;
    merged := [];
    assert pkts[0..] == pkts;
    var predicted := next;
    for i := 0 to |pkts|
      invariant Writable(pkts[i..])
      invariant NumberedText(pkts, next) == merged + NumberedText(pkts[i..], predicted)
    {
      assert pkts[i] in pkts && pkts[i..][0] == pkts[i] && pkts[i..][1..] == pkts[i + 1..];
      FirstText(pkts[i..], predicted);
      var raw := Numbered(pkts[i].message, WrappedU16(predicted)).Whole();
      predicted := predicted + 1;
      merged := merged + raw;
    }
    NoText(predicted);
    assert pkts[|pkts|..] == [];
  }

  lemma NoText(next: int)
    ensures Writable([]) && NumberedText([], next) == []
  {
  }

  method InitializeClientSuite(c: HandshakeContext, exchange: ServerKeyExchangeBody, sending: Bytes) returns (failure: Option<Failure>)
    modifies c
    ensures (c.state, failure) == ClientKeyed(old(c.state), c.cfg, c.crypto, c.cache.cache, exchange, sending)
  {
    hide Merged, RandomBytes;
    if c.state.cipherSuite.Some? && c.state.cipherSuite.value.initialized {
      return None;
    }
    var clientRandom, serverRandom := RandomBytes(c.state.localRandom), RandomBytes(c.state.remoteRandom);
    if c.state.cipherSuite.Some? {
      var master := DeriveMasterSecret(c, c.state.preMasterSecret, sending, clientRandom, serverRandom);
      if master.Err? {
        return Some(Fatal(if c.state.extendedMasterSecret then ILLEGAL_PARAMETER else INTERNAL_ERROR, master.error));
      }
      c.state := c.state.(masterSecret := master.value);
    }
    if c.cfg.psk.None? {
      if exchange.algorithm !in c.cfg.signatureSchemes {
        return Some(Fatal(INSUFFICIENT_SECURITY, NoAvailableSignatureSchemes));
      }
      if !c.crypto.verifyKey(clientRandom, serverRandom, exchange, c.state.peerCertificates) {
        return Some(Fatal(BAD_CERTIFICATE, BadSignature));
      }
      if !c.crypto.trustServer(c.state.peerCertificates) {
        return Some(Fatal(BAD_CERTIFICATE, InvalidCertificate));
      }
    }
    if c.state.cipherSuite.Some? {
      var suite := c.crypto.suite(c.state.cipherSuite.value.id, c.state.masterSecret, clientRandom, serverRandom, true);
      if suite.Err? {
        return Some(Fatal(INTERNAL_ERROR, suite.error));
      }
      c.state := c.state.(cipherSuite := Some(suite.value));
    }
    return None;
  }

  /** The proof of possession, if one is due, the switch of keys and the client's Finished. */
  method FinishFlight5(c: HandshakeContext, first: seq<Draft>, sending: Bytes) returns (r: Generated)
    requires forall p :: p in first ==> p.MessageDraft?
    modifies c
    ensures (c.state, r) == Flight5Finished(old(c.state), c.cfg, c.crypto, c.cache.cache, first, sending)
  {
    hide ProofDrafts, FinishedData, NumberedText, Writable;
    var pkts, merged := first, sending;
    var proof := GenerateProof(c, sending);
    if proof.Refused? {
      return proof;
    }
    if !Writable(proof.drafts) {
      return Refused(UNWRITABLE);
    }
    var raw := AppendNotYetSent(proof.drafts, c.state.sendSequence + |first|);
    merged := merged + raw;
    pkts := pkts + proof.drafts;
    pkts := pkts + [ChangeCipherSpecDraft];
    var data := ComputeVerifyData(c, merged);
    if data.Err? {
      return Refused(Fatal(INTERNAL_ERROR, data.error));
    }
    c.state := c.state.(localVerifyData := data.value);
    pkts := pkts + [MessageDraft(1, FinishedMessage(c.state.localVerifyData))];
    assert pkts == first + proof.drafts + [ChangeCipherSpecDraft, MessageDraft(1, FinishedMessage(data.value))];
    return Drafts(pkts);
  }

  method GenerateProof(c: HandshakeContext, sending: Bytes) returns (r: Generated)
    ensures r == ProofDrafts(c.state, c.cfg, c.crypto, c.cache.cache, sending)
    ensures r.Drafts? ==> forall p :: p in r.drafts ==> p.MessageDraft?
  {
    hide Merged;
    if !c.state.remoteRequestedCertificate || c.cfg.certificate.None? {
      return Drafts([]);
    }
    var plainText := c.cache.PullAndMerge(KEY_EXCHANGE_RULES);
    plainText := plainText + sending;
    var key := c.cfg.certificate.value.privateKey;
    var scheme := c.crypto.selectScheme(c.cfg.signatureSchemes, key);
    if scheme.Err? {
      return Refused(Fatal(INSUFFICIENT_SECURITY, scheme.error));
    }
    var signature := c.crypto.signTranscript(plainText, key);
    if signature.Err? {
      return Refused(Fatal(INTERNAL_ERROR, signature.error));
    }
    return Drafts([MessageDraft(0, CertificateVerifyMessage(scheme.value, signature.value))]);
  }

  method ComputeVerifyData(c: HandshakeContext, sending: Bytes) returns (data: Result<Bytes>)
    ensures data == FinishedData(c.state, c.crypto, c.cache.cache, sending)
  {
    hide Merged;
    if c.state.localVerifyData == [] {
      var plainText := c.cache.PullAndMerge(FINISHED_RULES);
      plainText := plainText + sending;
      if c.state.cipherSuite.Some? {
        return c.crypto.verifyDataClient(c.state.masterSecret, plainText);
      }
    }
    return Ok(c.state.localVerifyData);
  }

  method ParseFlight5(c: HandshakeContext) returns (r: Parsed)
    ensures r == Flight5Parsed(c.state, c.crypto, c.cache.cache)
  {
    hide FullPulled, Merged;
    var pulled := c.cache.FullPullMap(c.state.recvSequence, [SERVER_FINISHED_RULE]);
    if pulled.Err? {
      return Failed(KEEP_READING);
    }
    var (_, msgs) := pulled.value;
    if Finished !in msgs || !msgs[Finished].FinishedMessage? {
      return Failed(WRONG_MESSAGE);
    }
    var plainText := c.cache.PullAndMerge(FINISHED_RULES);
    if c.state.cipherSuite.Some? {
      var expected := c.crypto.verifyDataServer(c.state.masterSecret, plainText);
      if expected.Err? {
        return Failed(Fatal(INSUFFICIENT_SECURITY, expected.error));
      }
      if expected.value != msgs[Finished].verifyData {
        return Failed(Fatal(HANDSHAKE_FAILURE, VerifyDataMismatch));
      }
    }
    return Next(Flight5);
  }
}
