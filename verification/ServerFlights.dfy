/** Flights 0, 2, 4 and 6: what the server reads and what it answers. */
module ServerFlights {
  import opened Wrappers
  import opened Bytes
  import opened Headers
  import opened Extensions
  import opened Messages
  import opened HandshakeCaches
  import opened HandshakeStates

  const CLIENT_HELLO_RULE := Rule(ClientHello, 0, true, false)

  const CLIENT_FINISHED_RULE := Rule(Finished, 1, true, false)

  const CLIENT_KEY_RULES := [
    Rule(Certificate, 0, true, true),
    Rule(ClientKeyExchange, 0, true, false),
    Rule(CertificateVerify, 0, true, true)]

  // Flight 0

  function Flight0Generated(s: State, draws: Draws): (State, Generated) {
    (s.(cookie := draws.cookie, localEpoch := 0, namedCurve := DEFAULT_NAMED_CURVE, localRandom := draws.random),
     Drafts([]))
  }

  function Flight0Parsed(s: State, cfg: Config, crypto: Crypto, cache: seq<Item>, key: nat): (State, Parsed) {
    match FullPulled(cache, 0, [CLIENT_HELLO_RULE])
    case Err(_) => (s, Failed(KEEP_READING))
    case Ok((next, msgs)) =>
      var read := s.(recvSequence := next);
      if ClientHello in msgs && msgs[ClientHello].ClientHelloMessage? then
        HelloParsed(read, cfg, crypto, msgs[ClientHello].clientHello, key)
      else
        (read, Failed(WRONG_MESSAGE))
  }

  function HelloParsed(s: State, cfg: Config, crypto: Crypto, hello: ClientHelloBody, key: nat): (State, Parsed) {
    if hello.version != PROTOCOL_VERSION1_2 then
      (s, Failed(Fatal(PROTOCOL_VERSION, Error.UnsupportedProtocolVersion)))
    else
      var greeted := s.(remoteRandom := hello.random);
      match FirstMatch(hello.cipherSuites, cfg.cipherSuites)
      case None => (greeted, Failed(Fatal(INSUFFICIENT_SECURITY, CipherSuiteNoIntersection)))
      case Some(id) =>
        var suited := if SuiteForId(id).Ok? then greeted.(cipherSuite := Some(SuiteForId(id).value)) else greeted;
        match HelloExtensions(suited, cfg, hello.extensions)
        case (extended, Some(failure)) => (extended, Failed(failure))
        case (extended, None) => KeypairReady(extended, cfg, crypto, key)
  }

  function KeypairReady(s: State, cfg: Config, crypto: Crypto, key: nat): (State, Parsed) {
    if cfg.extendedMasterSecret == Require && !s.extendedMasterSecret then
      (s, Failed(Fatal(INSUFFICIENT_SECURITY, NoExtendedMasterSecret)))
    else if s.localKeypair.Some? then
      (s, Next(Flight2))
    else
      match crypto.keypair(s.namedCurve, key)
      case Err(error) => (s, Failed(Fatal(ILLEGAL_PARAMETER, error)))
      case Ok(keypair) => (s.(localKeypair := Some(keypair)), Next(Flight2))
  }

  function HelloExtensions(s: State, cfg: Config, extensions: seq<Extension>): (State, Option<Failure>)
    decreases |extensions|
  {
    if extensions == [] then
      (s, None)
    else
      match HelloExtension(s, cfg, extensions[0])
      case (next, Some(failure)) => (next, Some(failure))
      case (next, None) => HelloExtensions(next, cfg, extensions[1..])
  }

  function HelloExtension(s: State, cfg: Config, e: Extension): (State, Option<Failure>) {
    match e
    case SupportedEllipticCurves(curves) =>
      // Codes of curves nobody here knows are skipped.
      (match FirstKnownCurve(curves)
       case None => (s, Some(Fatal(INSUFFICIENT_SECURITY, NoSupportedEllipticCurves)))
       case Some(curve) => (s.(namedCurve := curve), None))
    case UseSrtp(profiles) =>
      (match FirstMatch(profiles, cfg.srtpProfiles)
       case None => (s, Some(Fatal(INSUFFICIENT_SECURITY, NoMatchingSrtpProfile)))
       case Some(profile) => (s.(srtpProfile := profile), None))
    case UseExtendedMasterSecret(_) =>
      (if cfg.extendedMasterSecret.Offers() then s.(extendedMasterSecret := true) else s, None)
    case ServerName(name) => (s.(serverName := name), None)
    case _ => (s, None)
  }

  // Flight 2

  function Flight2Generated(s: State): (State, Generated) {
    (s.(sendSequence := 0), Drafts([MessageDraft(0, HelloVerifyRequestMessage(PROTOCOL_VERSION1_2, s.cookie))]))
  }

  /** A client that lost the HelloVerifyRequest repeats its first hello, which is read as in flight 0. */
  function Flight2Parsed(s: State, cfg: Config, crypto: Crypto, cache: seq<Item>, key: nat): (State, Parsed) {
    match FullPulled(cache, s.recvSequence, [CLIENT_HELLO_RULE])
    case Err(_) => Flight0Parsed(s, cfg, crypto, cache, key)
    case Ok((next, msgs)) =>
      var read := s.(recvSequence := next);
      (read,
       if ClientHello in msgs && msgs[ClientHello].ClientHelloMessage? then CookieChecked(s.cookie, msgs[ClientHello].clientHello)
       else Failed(WRONG_MESSAGE))
  }

  function CookieChecked(cookie: Bytes, hello: ClientHelloBody): Parsed {
    if hello.version != PROTOCOL_VERSION1_2 then
      Failed(Fatal(PROTOCOL_VERSION, Error.UnsupportedProtocolVersion))
    else if hello.cookie == [] then
      Failed(KEEP_READING)
    else if cookie != hello.cookie then
      Failed(Fatal(ACCESS_DENIED, CookieMismatch))
    else
      Next(Flight4)
  }

  // Flight 4

  function ServerHelloExtensions(s: State, cfg: Config): seq<Extension> {
    [RenegotiationInfo(0)]
    + (if cfg.extendedMasterSecret.Offers() && s.extendedMasterSecret then [UseExtendedMasterSecret(true)] else [])
    + (if s.srtpProfile != UNSUPPORTED_SRTP_PROFILE then [UseSrtp([s.srtpProfile])] else [])
    + (if cfg.psk.None? then [SupportedEllipticCurves([0x17, 0x1d, 0x18]), SupportedPointFormats([0])] else [])
  }

  function ServerHelloOf(s: State, cfg: Config): Message {
    var id := if s.cipherSuite.Some? then s.cipherSuite.value.id else UNSUPPORTED_CIPHER_SUITE;
    ServerHelloMessage(ServerHelloBody(PROTOCOL_VERSION1_2, s.localRandom, id, NULL_COMPRESSION, ServerHelloExtensions(s, cfg)))
  }

  const NAMED_CURVE_TYPE: Byte := 3

  /** The certificate, the signed key share and perhaps a request for the client's certificate. */
  function CertificateDrafts(s: State, cfg: Config, crypto: Crypto): Generated {
    match cfg.certificate
    case None => Refused(Fatal(HANDSHAKE_FAILURE, NoCertificates))
    case Some(certificate) =>
      match crypto.selectScheme(cfg.signatureSchemes, certificate.privateKey)
      case Err(error) => Refused(Fatal(INSUFFICIENT_SECURITY, error))
      case Ok(scheme) =>
        match KeyShare(s, crypto, certificate, scheme)
        case Err(error) => Refused(Fatal(INTERNAL_ERROR, error))
        case Ok(share) =>
          Drafts([MessageDraft(0, CertificateMessage(certificate.chain))] + share
                 + if cfg.clientAuth.NoClientCert? then []
                   else [MessageDraft(0, CertificateRequestMessage([1, 64], cfg.signatureSchemes))])
  }

  function KeyShare(s: State, crypto: Crypto, certificate: LocalCertificate, scheme: SignatureHashAlgorithm): Result<seq<Draft>> {
    match s.localKeypair
    case None => Ok([])
    case Some(keypair) =>
      var signature :- crypto.signKey(RandomBytes(s.remoteRandom), RandomBytes(s.localRandom), keypair.publicKey,
                                      s.namedCurve, certificate.privateKey);
      Ok([MessageDraft(0, ServerKeyExchangeMessage(
                            ServerKeyExchangeBody([], NAMED_CURVE_TYPE, s.namedCurve, keypair.publicKey, scheme, signature)))])
  }

  /** With a pre-shared key there is a key exchange only if there is a hint to give. */
  function KeyDrafts(s: State, cfg: Config, crypto: Crypto): Generated {
    if cfg.psk.None? then
      CertificateDrafts(s, cfg, crypto)
    else
      match cfg.pskHint
      case None => Drafts([])
      case Some(hint) => Drafts([MessageDraft(0, ServerKeyExchangeMessage(NO_EXCHANGE.(identityHint := hint)))])
  }

  function Flight4Generated(s: State, cfg: Config, crypto: Crypto): (State, Generated) {
    match KeyDrafts(s, cfg, crypto)
    case Refused(failure) => (s, Refused(failure))
    case Drafts(drafts) =>
      (s, Drafts([MessageDraft(0, ServerHelloOf(s, cfg))] + drafts + [MessageDraft(0, ServerHelloDoneMessage)]))
  }

  /** How far flight 4 gets before the records waiting for keys are read. */
  datatype Halfway = Continue(next: int) | Halt(failure: Failure)

  function Flight4Keyed(s: State, cfg: Config, crypto: Crypto, cache: seq<Item>): (State, Halfway) {
    match FullPulled(cache, s.recvSequence, CLIENT_KEY_RULES)
    case Err(_) => (s, Halt(KEEP_READING))
    case Ok((next, msgs)) =>
      if ClientKeyExchange !in msgs || !msgs[ClientKeyExchange].ClientKeyExchangeMessage? then
        (s, Halt(WRONG_MESSAGE))
      else
        match CertificatesChecked(s, cfg, crypto, cache, msgs)
        case (checked, Some(failure)) => (checked, Halt(failure))
        case (checked, None) =>
          match ServerKeyed(checked, cfg, crypto, cache, msgs[ClientKeyExchange])
          case (keyed, Some(failure)) => (keyed, Halt(failure))
          case (keyed, None) => (keyed, Continue(next))
  }

  /** The client's certificate, and its proof that it has the key. Without the proof the server
      keeps waiting. */
  function CertificatesChecked(s: State, cfg: Config, crypto: Crypto, cache: seq<Item>, msgs: map<HandshakeType, Message>)
    : (State, Option<Failure>)
  {
    if Certificate in msgs && !msgs[Certificate].CertificateMessage? then
      (s, Some(WRONG_MESSAGE))
    else
      var shown := if Certificate in msgs then s.(peerCertificates := msgs[Certificate].certificates) else s;
      if CertificateVerify in msgs then
        ProofChecked(shown, cfg, crypto, cache, msgs[CertificateVerify])
      else
        (shown, if shown.peerCertificates != [] then Some(KEEP_READING) else None)
  }

  function ProofChecked(s: State, cfg: Config, crypto: Crypto, cache: seq<Item>, proof: Message): (State, Option<Failure>) {
    if !proof.CertificateVerifyMessage? then
      (s, Some(WRONG_MESSAGE))
    else if s.peerCertificates == [] then
      (s, Some(Fatal(NO_CERTIFICATE, CertificateVerifyNoCertificate)))
    else if proof.algorithm !in cfg.signatureSchemes then
      (s, Some(Fatal(INSUFFICIENT_SECURITY, NoAvailableSignatureSchemes)))
    else if !crypto.verifyTranscript(Merged(cache, KEY_EXCHANGE_RULES), proof.algorithm, proof.signature, s.peerCertificates) then
      (s, Some(Fatal(BAD_CERTIFICATE, BadSignature)))
    else if !crypto.trustClient(cfg.clientAuth, s.peerCertificates) then
      (s, Some(Fatal(BAD_CERTIFICATE, InvalidCertificate)))
    else
      (s.(peerCertificatesVerified := cfg.clientAuth.VerifyClientCertIfGiven? || cfg.clientAuth.RequireAndVerifyClientCert?), None)
  }

  function ServerPreMaster(s: State, cfg: Config, crypto: Crypto, exchange: Message): Result<Bytes>
    requires exchange.ClientKeyExchangeMessage?
  {
    if cfg.psk.Some? then
      var psk :- cfg.psk.value(exchange.identityHint);
      Ok(crypto.pskPreMasterSecret(psk))
    else if s.localKeypair.Some? then
      crypto.preMasterSecret(exchange.publicKey, s.localKeypair.value)
    else
      Ok([])
  }

  /** Derives the keys, once. */
  function ServerKeyed(s: State, cfg: Config, crypto: Crypto, cache: seq<Item>, exchange: Message): (State, Option<Failure>)
    requires exchange.ClientKeyExchangeMessage?
  {
    if s.cipherSuite.None? || s.cipherSuite.value.initialized then
      (s, None)
    else
      match ServerPreMaster(s, cfg, crypto, exchange)
      case Err(error) => (s, Some(Fatal(if cfg.psk.Some? then INTERNAL_ERROR else ILLEGAL_PARAMETER, error)))
      case Ok(pre) =>
        KeysFrom(if cfg.psk.Some? then s.(identityHint := exchange.identityHint) else s, crypto, cache, pre)
  }

  function KeysFrom(s: State, crypto: Crypto, cache: seq<Item>, pre: Bytes): (State, Option<Failure>)
    requires s.cipherSuite.Some?
  {
    match MasterSecret(crypto, s.extendedMasterSecret, pre, Merged(cache, KEY_EXCHANGE_RULES), s.remoteRandom, s.localRandom)
    case Err(error) => (s, Some(Fatal(INTERNAL_ERROR, error)))
    case Ok(master) =>
      var secret := s.(masterSecret := master);
      match crypto.suite(s.cipherSuite.value.id, master, RandomBytes(s.remoteRandom), RandomBytes(s.localRandom), false)
      case Err(error) => (secret, Some(Fatal(INTERNAL_ERROR, error)))
      case Ok(suite) => (secret.(cipherSuite := Some(suite)), None)
  }

  /** After the waiting records have been read: the client's Finished must be there. Its content is
      not looked at. */
  function Flight4Finished(s: State, cfg: Config, cache: seq<Item>, start: int): (State, Parsed) {
    match FullPulled(cache, start, [CLIENT_FINISHED_RULE])
    case Err(_) => (s, Failed(KEEP_READING))
    case Ok((next, msgs)) =>
      var read := s.(recvSequence := next);
      (read,
       if Finished in msgs && msgs[Finished].FinishedMessage? then ClientAuthChecked(s, cfg) else Failed(WRONG_MESSAGE))
  }

  function ClientAuthChecked(s: State, cfg: Config): Parsed {
    match cfg.clientAuth
    case RequireAnyClientCert =>
      if s.peerCertificates == [] then Failed(Fatal(NO_CERTIFICATE, ClientCertificateRequired)) else Next(Flight6)
    case VerifyClientCertIfGiven =>
      if s.peerCertificates != [] && !s.peerCertificatesVerified then
        Failed(Fatal(BAD_CERTIFICATE, ClientCertificateNotVerified))
      else
        Next(Flight6)
    case RequireAndVerifyClientCert =>
      if s.peerCertificates == [] then
        Failed(Fatal(NO_CERTIFICATE, ClientCertificateRequired))
      else if !s.peerCertificatesVerified then
        Failed(Fatal(BAD_CERTIFICATE, ClientCertificateNotVerified))
      else
        Next(Flight6)
    case _ => Next(Flight6)
  }

  // Flight 6

  function Flight6Generated(s: State, crypto: Crypto, cache: seq<Item>): (State, Generated) {
    if s.localVerifyData != [] || s.cipherSuite.None? then
      (s, Drafts([ChangeCipherSpecDraft, MessageDraft(1, FinishedMessage(s.localVerifyData))]))
    else
      match crypto.verifyDataServer(s.masterSecret, Merged(cache, FINISHED_RULES))
      case Err(error) => (s, Refused(Fatal(INTERNAL_ERROR, error)))
      case Ok(data) =>
        (s.(localVerifyData := data), Drafts([ChangeCipherSpecDraft, MessageDraft(1, FinishedMessage(data))]))
  }

  /** A repeated Finished asks for this flight again. */
  function Flight6Parsed(s: State, cache: seq<Item>): Parsed {
    match FullPulled(cache, s.recvSequence - 1, [CLIENT_FINISHED_RULE])
    case Err(_) => Failed(KEEP_READING)
    case Ok((_, msgs)) =>
      if Finished in msgs && !msgs[Finished].FinishedMessage? then Failed(WRONG_MESSAGE) else Next(Flight6)
  }
}
