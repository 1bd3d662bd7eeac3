/** Flights 0, 2, 4 and 6 as the server takes them, one assignment at a time. */
module ServerSteps {
  import opened Wrappers
  import opened Bytes
  import opened Headers
  import opened Extensions
  import opened Messages
  import opened HandshakeCaches
  import opened HandshakeStates
  import opened ServerFlights
  import opened HandshakeContexts

  // Flight 0

  method GenerateFlight0(c: HandshakeContext, draws: Draws) returns (r: Generated)
    modifies c
    ensures (c.state, r) == Flight0Generated(old(c.state), draws)
  {
    c.state := c.state.(cookie := draws.cookie);
    c.state := c.state.(localEpoch := 0);
    c.state := c.state.(namedCurve := DEFAULT_NAMED_CURVE);
    c.state := c.state.(localRandom := draws.random);
    return Drafts([]);
  }

  method ParseFlight0(c: HandshakeContext, key: nat) returns (r: Parsed)
    modifies c
    ensures (c.state, r) == Flight0Parsed(old(c.state), c.cfg, c.crypto, c.cache.cache, key)
  {
    hide HelloExtensions, FullPulled;
    var pulled := c.cache.FullPullMap(0, [CLIENT_HELLO_RULE]);
    if pulled.Err? {
      return Failed(KEEP_READING);
    }
    var (next, msgs) := pulled.value;
    c.state := c.state.(recvSequence := next);
    if ClientHello !in msgs || !msgs[ClientHello].ClientHelloMessage? {
      return Failed(WRONG_MESSAGE);
    }
    var hello := msgs[ClientHello].clientHello;
    if hello.version != PROTOCOL_VERSION1_2 {
      return Failed(Fatal(PROTOCOL_VERSION, Error.UnsupportedProtocolVersion));
    }
    c.state := c.state.(remoteRandom := hello.random);
    var id := FindMatching(hello.cipherSuites, c.cfg.cipherSuites);
    if id.None? {
      return Failed(Fatal(INSUFFICIENT_SECURITY, CipherSuiteNoIntersection));
    }
    var suite := SuiteForId(id.value);
    if suite.Ok? {
      c.state := c.state.(cipherSuite := Some(suite.value));
    }
    var failure := ReadExtensions(c, hello.extensions);
    if failure.Some? {
      return Failed(failure.value);
    }
    if c.cfg.extendedMasterSecret == Require && !c.state.extendedMasterSecret {
      return Failed(Fatal(INSUFFICIENT_SECURITY, NoExtendedMasterSecret));
    }
    if c.state.localKeypair.None? {
      var keypair := c.crypto.keypair(c.state.namedCurve, key);
      if keypair.Err? {
        return Failed(Fatal(ILLEGAL_PARAMETER, keypair.error));
      }
      c.state := c.state.(localKeypair := Some(keypair.value));
    }
    return Next(Flight2);
  }

  method ReadExtensions(c: HandshakeContext, extensions: seq<Extension>) returns (failure: Option<Failure>)
    modifies c
    ensures (c.state, failure) == HelloExtensions(old(c.state), c.cfg, extensions)
  {
    hide FirstMatch, FirstKnownCurve;
    assert extensions[0..] == extensions;
    for i := 0 to |extensions|
      invariant HelloExtensions(old(c.state), c.cfg, extensions) == HelloExtensions(c.state, c.cfg, extensions[i..])
    {
      assert extensions[i..][0] == extensions[i] && extensions[i..][1..] == extensions[i + 1..];
      match extensions[i] {
        case SupportedEllipticCurves(curves) =>
          // Codes of curves nobody here knows are skipped.
          var curve := FirstKnownCurve(curves);
          if curve.None? {
            return Some(Fatal(INSUFFICIENT_SECURITY, NoSupportedEllipticCurves));
          }
          c.state := c.state.(namedCurve := curve.value);
        case UseSrtp(profiles) =>
          var profile := FindMatching(profiles, c.cfg.srtpProfiles);
          if profile.None? {
            return Some(Fatal(INSUFFICIENT_SECURITY, NoMatchingSrtpProfile));
          }
          c.state := c.state.(srtpProfile := profile.value);
        case UseExtendedMasterSecret(_) =>
          if c.cfg.extendedMasterSecret != Disable {
            c.state := c.state.(extendedMasterSecret := true);
          }
        case ServerName(name) =>
          c.state := c.state.(serverName := name);
        case _ =>
      }
    }
    return None;
  }

  // Flight 2

  method GenerateFlight2(c: HandshakeContext) returns (r: Generated)
    modifies c
    ensures (c.state, r) == Flight2Generated(old(c.state))
  {
    c.state := c.state.(sendSequence := 0);
    return Drafts([MessageDraft(0, HelloVerifyRequestMessage(PROTOCOL_VERSION1_2, c.state.cookie))]);
  }

  method ParseFlight2(c: HandshakeContext, key: nat) returns (r: Parsed)
    modifies c
    ensures (c.state, r) == Flight2Parsed(old(c.state), c.cfg, c.crypto, c.cache.cache, key)
  {
    hide FullPulled, Flight0Parsed;
    var pulled := c.cache.FullPullMap(c.state.recvSequence, [CLIENT_HELLO_RULE]);
    if pulled.Err? {
      r := ParseFlight0(c, key);
      return;
    }
    var (next, msgs) := pulled.value;
    c.state := c.state.(recvSequence := next);
    if ClientHello !in msgs || !msgs[ClientHello].ClientHelloMessage? {
      return Failed(WRONG_MESSAGE);
    }
    var hello := msgs[ClientHello].clientHello;
    if hello.version != PROTOCOL_VERSION1_2 {
      return Failed(Fatal(PROTOCOL_VERSION, Error.UnsupportedProtocolVersion));
    }
    if hello.cookie == [] {
      return Failed(KEEP_READING);
    }
    if c.state.cookie != hello.cookie {
      return Failed(Fatal(ACCESS_DENIED, CookieMismatch));
    }
    return Next(Flight4);
  }

  // Flight 4

  method GenerateFlight4(c: HandshakeContext) returns (r: Generated)
    ensures (c.state, r) == Flight4Generated(c.state, c.cfg, c.crypto)
  {
    var extensions := [RenegotiationInfo(0)];
    if (c.cfg.extendedMasterSecret == Request || c.cfg.extendedMasterSecret == Require) && c.state.extendedMasterSecret {
      extensions := extensions + [UseExtendedMasterSecret(true)];
    }
    if c.state.srtpProfile != UNSUPPORTED_SRTP_PROFILE {
      extensions := extensions + [UseSrtp([c.state.srtpProfile])];
    }
    if c.cfg.psk.None? {
      extensions := extensions + [SupportedEllipticCurves([0x17, 0x1d, 0x18]), SupportedPointFormats([0])];
    }
    assert extensions == ServerHelloExtensions(c.state, c.cfg);
    var id := if c.state.cipherSuite.Some? then c.state.cipherSuite.value.id else UNSUPPORTED_CIPHER_SUITE;
    var pkts := [MessageDraft(0, ServerHelloMessage(
                                   ServerHelloBody(PROTOCOL_VERSION1_2, c.state.localRandom, id, NULL_COMPRESSION, extensions)))];
    var keys := GenerateKeys(c);
    if keys.Refused? {
      return keys;
    }
    return Drafts(pkts + keys.drafts + [MessageDraft(0, ServerHelloDoneMessage)]);
  }

  method GenerateKeys(c: HandshakeContext) returns (r: Generated)
    ensures r == KeyDrafts(c.state, c.cfg, c.crypto)
  {
    if c.cfg.psk.Some? {
      // With a pre-shared key there is a key exchange only if there is a hint to give.
      if c.cfg.pskHint.None? {
        return Drafts([]);
      }
      return Drafts([MessageDraft(0, ServerKeyExchangeMessage(NO_EXCHANGE.(identityHint := c.cfg.pskHint.value)))]);
    }
    if c.cfg.certificate.None? {
      return Refused(Fatal(HANDSHAKE_FAILURE, NoCertificates));
    }
    var certificate := c.cfg.certificate.value;
    var pkts := [MessageDraft(0, CertificateMessage(certificate.chain))];
    var scheme := c.crypto.selectScheme(c.cfg.signatureSchemes, certificate.privateKey);
    if scheme.Err? {
      return Refused(Fatal(INSUFFICIENT_SECURITY, scheme.error));
    }
    if c.state.localKeypair.Some? {
      var keypair := c.state.localKeypair.value;
      var signature := c.crypto.signKey(RandomBytes(c.state.remoteRandom), RandomBytes(c.state.localRandom), keypair.publicKey,
                                        c.state.namedCurve, certificate.privateKey);
      if signature.Err? {
        return Refused(Fatal(INTERNAL_ERROR, signature.error));
      }
      var exchange := ServerKeyExchangeBody([], NAMED_CURVE_TYPE, c.state.namedCurve, keypair.publicKey, scheme.value, signature.value);
      pkts := pkts + [MessageDraft(0, ServerKeyExchangeMessage(exchange))];
    }
    if c.cfg.clientAuth != NoClientCert {
      pkts := pkts + [MessageDraft(0, CertificateRequestMessage([1, 64], c.cfg.signatureSchemes))];
    }
    return Drafts(pkts);
  }

  /** The first half, up to the point where the records waiting for keys are read. */
  method ParseFlight4Keys(c: HandshakeContext) returns (r: Halfway)
    modifies c
    ensures (c.state, r) == Flight4Keyed(old(c.state), c.cfg, c.crypto, c.cache.cache)
  {
    hide FullPulled, CertificatesChecked, ServerKeyed;
    var pulled := c.cache.FullPullMap(c.state.recvSequence, CLIENT_KEY_RULES);
    if pulled.Err? {
      return Halt(KEEP_READING);
    }
    var (next, msgs) := pulled.value;
    if ClientKeyExchange !in msgs || !msgs[ClientKeyExchange].ClientKeyExchangeMessage? {
      return Halt(WRONG_MESSAGE);
    }
    var failure := CheckCertificates(c, msgs);
    if failure.None? {
      failure := InitializeServerSuite(c, msgs[ClientKeyExchange]);
    }
    return if failure.Some? then Halt(failure.value) else Continue(next);
  }

  method CheckCertificates(c: HandshakeContext, msgs: map<HandshakeType, Message>) returns (failure: Option<Failure>)
    modifies c
    ensures (c.state, failure) == CertificatesChecked(old(c.state), c.cfg, c.crypto, c.cache.cache, msgs)
  {
    hide Merged;
    if Certificate in msgs {
      if !msgs[Certificate].CertificateMessage? {
        return Some(WRONG_MESSAGE);
      }
      c.state := c.state.(peerCertificates := msgs[Certificate].certificates);
    }
    if CertificateVerify !in msgs {
      // Without the proof of possession the server keeps reading.
      return if c.state.peerCertificates != [] then Some(KEEP_READING) else None;
    }
    var proof := msgs[CertificateVerify];
    if !proof.CertificateVerifyMessage? {
      return Some(WRONG_MESSAGE);
    }
    if c.state.peerCertificates == [] {
      return Some(Fatal(NO_CERTIFICATE, CertificateVerifyNoCertificate));
    }
    var plainText := c.cache.PullAndMerge(KEY_EXCHANGE_RULES);
    if proof.algorithm !in c.cfg.signatureSchemes {
      return Some(Fatal(INSUFFICIENT_SECURITY, NoAvailableSignatureSchemes));
    }
    if !c.crypto.verifyTranscript(plainText, proof.algorithm, proof.signature, c.state.peerCertificates) {
      return Some(Fatal(BAD_CERTIFICATE, BadSignature));
    }
    if !c.crypto.trustClient(c.cfg.clientAuth, c.state.peerCertificates) {
      return Some(Fatal(BAD_CERTIFICATE, InvalidCertificate));
    }
    var verified := c.cfg.clientAuth == VerifyClientCertIfGiven || c.cfg.clientAuth == RequireAndVerifyClientCert;
    c.state := c.state.(peerCertificatesVerified := verified);
    return None;
  }

  method DeriveServerKeys(c: HandshakeContext, preMasterSecret: Bytes) returns (failure: Option<Failure>)
    requires c.state.cipherSuite.Some?
    modifies c
    ensures (c.state, failure) == KeysFrom(old(c.state), c.crypto, c.cache.cache, preMasterSecret)
  {
    hide Merged, RandomBytes;
    assert Merged(c.cache.cache, KEY_EXCHANGE_RULES) + [] == Merged(c.cache.cache, KEY_EXCHANGE_RULES);
    var serverRandom, clientRandom := RandomBytes(c.state.localRandom), RandomBytes(c.state.remoteRandom);
    var master := DeriveMasterSecret(c, preMasterSecret, [], clientRandom, serverRandom);
    if master.Err? {
      return Some(Fatal(INTERNAL_ERROR, master.error));
    }
    c.state := c.state.(masterSecret := master.value);
    var suite := c.crypto.suite(c.state.cipherSuite.value.id, c.state.masterSecret, clientRandom, serverRandom, false);
    if suite.Err? {
      return Some(Fatal(INTERNAL_ERROR, suite.error));
    }
    c.state := c.state.(cipherSuite := Some(suite.value));
    return None;
  }

  method InitializeServerSuite(c: HandshakeContext, exchange: Message) returns (failure: Option<Failure>)
    requires exchange.ClientKeyExchangeMessage?
    modifies c
    ensures (c.state, failure) == ServerKeyed(old(c.state), c.cfg, c.crypto, c.cache.cache, exchange)
  {
    hide KeysFrom;
    if c.state.cipherSuite.None? || c.state.cipherSuite.value.initialized {
      return None;
    }
    var preMasterSecret := [];
    if c.cfg.psk.Some? {
      var psk := c.cfg.psk.value(exchange.identityHint);
      if psk.Err? {
        return Some(Fatal(INTERNAL_ERROR, psk.error));
      }
      c.state := c.state.(identityHint := exchange.identityHint);
      preMasterSecret := c.crypto.pskPreMasterSecret(psk.value);
    } else if c.state.localKeypair.Some? {
      var shared := c.crypto.preMasterSecret(exchange.publicKey, c.state.localKeypair.value);
      if shared.Err? {
        return Some(Fatal(ILLEGAL_PARAMETER, shared.error));
      }
      preMasterSecret := shared.value;
    }
    failure := DeriveServerKeys(c, preMasterSecret);
  }

  /** The second half: the client's Finished must be there by now. */
  method ParseFlight4Finished(c: HandshakeContext, start: int) returns (r: Parsed)
    modifies c
    ensures (c.state, r) == Flight4Finished(old(c.state), c.cfg, c.cache.cache, start)
  {
    hide FullPulled;
    var pulled := c.cache.FullPullMap(start, [CLIENT_FINISHED_RULE]);
    if pulled.Err? {
      return Failed(KEEP_READING);
    }
    var (next, msgs) := pulled.value;
    c.state := c.state.(recvSequence := next);
    if Finished !in msgs || !msgs[Finished].FinishedMessage? {
      return Failed(WRONG_MESSAGE);
    }
    match c.cfg.clientAuth {
      case RequireAnyClientCert =>
        if c.state.peerCertificates == [] {
          return Failed(Fatal(NO_CERTIFICATE, ClientCertificateRequired));
        }
      case VerifyClientCertIfGiven =>
        if c.state.peerCertificates != [] && !c.state.peerCertificatesVerified {
          return Failed(Fatal(BAD_CERTIFICATE, ClientCertificateNotVerified));
        }
      case RequireAndVerifyClientCert =>
        if c.state.peerCertificates == [] {
          return Failed(Fatal(NO_CERTIFICATE, ClientCertificateRequired));
        }
        if !c.state.peerCertificatesVerified {
          return Failed(Fatal(BAD_CERTIFICATE, ClientCertificateNotVerified));
        }
      case _ =>
    }
    return Next(Flight6);
  }

  // Flight 6

  method GenerateFlight6(c: HandshakeContext) returns (r: Generated)
    modifies c
    ensures (c.state, r) == Flight6Generated(old(c.state), c.crypto, c.cache.cache)
  {
    hide Merged;
    var pkts := [ChangeCipherSpecDraft];
    if c.state.localVerifyData == [] {
      var plainText := c.cache.PullAndMerge(FINISHED_RULES);
      if c.state.cipherSuite.Some? {
        var data := c.crypto.verifyDataServer(c.state.masterSecret, plainText);
        if data.Err? {
          return Refused(Fatal(INTERNAL_ERROR, data.error));
        }
        c.state := c.state.(localVerifyData := data.value);
      }
    }
    var finished := MessageDraft(1, FinishedMessage(c.state.localVerifyData));
    pkts := pkts + [finished];
    assert pkts == [ChangeCipherSpecDraft, finished];
    return Drafts(pkts);
  }

  method ParseFlight6(c: HandshakeContext) returns (r: Parsed)
    ensures r == Flight6Parsed(c.state, c.cache.cache)
  {
    hide FullPulled;
    var pulled := c.cache.FullPullMap(c.state.recvSequence - 1, [CLIENT_FINISHED_RULE]);
    if pulled.Err? {
      return Failed(KEEP_READING);
    }
    var (_, msgs) := pulled.value;
    if Finished in msgs && !msgs[Finished].FinishedMessage? {
      return Failed(WRONG_MESSAGE);
    }
    // The other party repeated its last flight.
    return Next(Flight6);
  }
}
