/** Flights 1, 3 and 5: what the client sends and how it reads the answers. */
module ClientFlights {
  import opened Wrappers
  import opened Bytes
  import opened Headers
  import opened Extensions
  import opened Messages
  import opened Handshakes
  import opened HandshakeCaches
  import opened HandshakeStates
  import Reading

  const VERIFY_RULE := Rule(HelloVerifyRequest, 0, false, true)

  const SERVER_FINISHED_RULE := Rule(Finished, 1, false, false)

  const SERVER_KEY_EXCHANGE_RULE := Rule(ServerKeyExchange, 0, false, false)

  const FIRST_ANSWER_RULES := [VERIFY_RULE, Rule(ServerHello, 0, false, true)]

  function AnswerRules(cfg: Config): seq<Rule> {
    if cfg.psk.Some? then
      [Rule(ServerHello, 0, false, false), Rule(ServerKeyExchange, 0, false, true), Rule(ServerHelloDone, 0, false, false)]
    else
      [Rule(ServerHello, 0, false, false), Rule(Certificate, 0, false, true), Rule(ServerKeyExchange, 0, false, false),
       Rule(CertificateRequest, 0, false, true), Rule(ServerHelloDone, 0, false, false)]
  }

  // Flights 1 and 3: the two hellos differ in their cookie only.

  function ClientHelloExtensions(cfg: Config): seq<Extension> {
    [SupportedSignatureAlgorithms(cfg.signatureSchemes), RenegotiationInfo(0)]
    + (if cfg.psk.None? then [SupportedEllipticCurves([0x17, 0x1d, 0x18]), SupportedPointFormats([0])] else [])
    + (if cfg.srtpProfiles != [] then [UseSrtp(cfg.srtpProfiles)] else [])
    + (if cfg.extendedMasterSecret.Offers() then [UseExtendedMasterSecret(true)] else [])
    + (if cfg.serverName != [] then [ServerName(cfg.serverName)] else [])
  }

  function HelloOf(random: HandshakeRandom, cookie: Bytes, cfg: Config): Message {
    ClientHelloMessage(ClientHelloBody(PROTOCOL_VERSION1_2, random, cookie, cfg.cipherSuites, [NULL_COMPRESSION],
                                       ClientHelloExtensions(cfg)))
  }

  function Flight1Generated(s: State, cfg: Config, draws: Draws): (State, Generated) {
    (s.(localEpoch := 0, namedCurve := DEFAULT_NAMED_CURVE, cookie := [], localRandom := draws.random),
     Drafts([MessageDraft(0, HelloOf(draws.random, [], cfg))]))
  }

  function Flight3Generated(s: State, cfg: Config): (State, Generated) {
    (s, Drafts([MessageDraft(0, HelloOf(s.localRandom, s.cookie, cfg))]))
  }

  /** A HelloVerifyRequest may come from a server of either version (RFC 6347, section 4.2.1). */
  function VerifyRequested(s: State, request: Message, next: int): (State, Parsed) {
    if !request.HelloVerifyRequestMessage? then
      (s, Failed(WRONG_MESSAGE))
    else if request.version != PROTOCOL_VERSION1_0 && request.version != PROTOCOL_VERSION1_2 then
      (s, Failed(Fatal(PROTOCOL_VERSION, Error.UnsupportedProtocolVersion)))
    else
      (s.(cookie := request.cookie, recvSequence := next), Next(Flight3))
  }

  /** A server may skip the HelloVerifyRequest; its answer is then read as in flight 3. */
  function Flight1Parsed(s: State, cfg: Config, crypto: Crypto, cache: seq<Item>, key: nat): (State, Parsed) {
    match FullPulled(cache, s.recvSequence, FIRST_ANSWER_RULES)
    case Err(_) => (s, Failed(KEEP_READING))
    case Ok((next, msgs)) =>
      if ServerHello in msgs then
        Flight3Parsed(s, cfg, crypto, cache, key)
      else if HelloVerifyRequest in msgs then
        VerifyRequested(s, msgs[HelloVerifyRequest], next)
      else
        (s, Failed(WRONG_MESSAGE))
  }

  /** A further HelloVerifyRequest is answered with a further hello. */
  function Flight3Parsed(s: State, cfg: Config, crypto: Crypto, cache: seq<Item>, key: nat): (State, Parsed) {
    var again := FullPulled(cache, s.recvSequence, [VERIFY_RULE]);
    if again.Ok? && HelloVerifyRequest in again.value.1 then
      VerifyRequested(s, again.value.1[HelloVerifyRequest], again.value.0)
    else
      AnswerParsed(s, cfg, crypto, cache, key)
  }

  function AnswerParsed(s: State, cfg: Config, crypto: Crypto, cache: seq<Item>, key: nat): (State, Parsed) {
    match FullPulled(cache, s.recvSequence, AnswerRules(cfg))
    case Err(_) => (s, Failed(KEEP_READING))
    case Ok((next, msgs)) =>
      match ServerHelloParsed(s.(recvSequence := next), cfg, msgs)
      case (greeted, Some(failure)) => (greeted, Failed(failure))
      case (greeted, None) =>
        match ServerCertificateParsed(greeted, msgs)
        case (shown, Some(failure)) => (shown, Failed(failure))
        case (shown, None) =>
          match ExchangeParsed(shown, cfg, crypto, msgs, key)
          case (keyed, Some(failure)) => (keyed, Failed(failure))
          case (keyed, None) => RequestParsed(keyed, msgs)
  }

  function ServerHelloParsed(s: State, cfg: Config, msgs: map<HandshakeType, Message>): (State, Option<Failure>) {
    if ServerHello !in msgs then
      (s, None)
    else if !msgs[ServerHello].ServerHelloMessage? then
      (s, Some(WRONG_MESSAGE))
    else
      var hello := msgs[ServerHello].serverHello;
      if hello.version != PROTOCOL_VERSION1_2 then
        (s, Some(Fatal(PROTOCOL_VERSION, Error.UnsupportedProtocolVersion)))
      else
        match AnswerExtensions(s, cfg, hello.extensions)
        case (extended, Some(failure)) => (extended, Some(failure))
        case (extended, None) => ServerHelloChosen(extended, cfg, hello)
  }

  function AnswerExtensions(s: State, cfg: Config, extensions: seq<Extension>): (State, Option<Failure>)
    decreases |extensions|
  {
    if extensions == [] then
      (s, None)
    else
      match extensions[0]
      case UseSrtp(profiles) =>
        (match FirstMatch(profiles, cfg.srtpProfiles)
         case None => (s, Some(Fatal(ILLEGAL_PARAMETER, NoMatchingSrtpProfile)))
         case Some(profile) => AnswerExtensions(s.(srtpProfile := profile), cfg, extensions[1..]))
      case UseExtendedMasterSecret(_) =>
        AnswerExtensions(if cfg.extendedMasterSecret.Offers() then s.(extendedMasterSecret := true) else s, cfg, extensions[1..])
      case _ => AnswerExtensions(s, cfg, extensions[1..])
  }

  function ServerHelloChosen(s: State, cfg: Config, hello: ServerHelloBody): (State, Option<Failure>) {
    if cfg.extendedMasterSecret == Require && !s.extendedMasterSecret then
      (s, Some(Fatal(INSUFFICIENT_SECURITY, NoExtendedMasterSecret)))
    else if cfg.srtpProfiles != [] && s.srtpProfile == UNSUPPORTED_SRTP_PROFILE then
      (s, Some(Fatal(INSUFFICIENT_SECURITY, RequestedButNoSrtpExtension)))
    else if FirstMatch([hello.cipherSuite], cfg.cipherSuites).None? then
      (s, Some(Fatal(INSUFFICIENT_SECURITY, CipherSuiteNoIntersection)))
    else
      match SuiteForId(hello.cipherSuite)
      case Err(error) => (s, Some(Fatal(INSUFFICIENT_SECURITY, error)))
      case Ok(suite) => (s.(cipherSuite := Some(suite), remoteRandom := hello.random), None)
  }

  function ServerCertificateParsed(s: State, msgs: map<HandshakeType, Message>): (State, Option<Failure>) {
    if Certificate !in msgs then (s, None)
    else if !msgs[Certificate].CertificateMessage? then (s, Some(WRONG_MESSAGE))
    else (s.(peerCertificates := msgs[Certificate].certificates), None)
  }

  function ExchangeParsed(s: State, cfg: Config, crypto: Crypto, msgs: map<HandshakeType, Message>, key: nat): (State, Option<Failure>) {
    if ServerKeyExchange !in msgs then (s, None)
    else if !msgs[ServerKeyExchange].ServerKeyExchangeMessage? then (s, Some(WRONG_MESSAGE))
    else ExchangeHandled(s, cfg, crypto, msgs[ServerKeyExchange].serverKeyExchange, key)
  }

  function RequestParsed(s: State, msgs: map<HandshakeType, Message>): (State, Parsed) {
    if CertificateRequest !in msgs then (s, Next(Flight5))
    else if !msgs[CertificateRequest].CertificateRequestMessage? then (s, Failed(WRONG_MESSAGE))
    else (s.(remoteRequestedCertificate := true), Next(Flight5))
  }

  /** The pre-master secret, from the shared key or from a fresh key pair of the server's curve. */
  function ExchangeHandled(s: State, cfg: Config, crypto: Crypto, exchange: ServerKeyExchangeBody, key: nat): (State, Option<Failure>) {
    match cfg.psk
    case Some(psk) =>
      (match psk(exchange.identityHint)
       case Err(error) => (s, Some(Fatal(INTERNAL_ERROR, error)))
       case Ok(secret) =>
         (s.(identityHint := exchange.identityHint, preMasterSecret := crypto.pskPreMasterSecret(secret)), None))
    case None =>
      match crypto.keypair(exchange.namedCurve, key)
      case Err(error) => (s, Some(Fatal(INTERNAL_ERROR, error)))
      case Ok(keypair) =>
        match crypto.preMasterSecret(exchange.publicKey, keypair)
        case Err(error) => (s, Some(Fatal(INTERNAL_ERROR, error)))
        case Ok(pre) => (s.(preMasterSecret := pre, localKeypair := Some(keypair)), None)
  }

  // Flight 5

  function KeyDrafts(s: State, cfg: Config): seq<Draft> {
    (if s.remoteRequestedCertificate then
       [MessageDraft(0, CertificateMessage(if cfg.certificate.Some? then cfg.certificate.value.chain else []))]
     else
       [])
    + [MessageDraft(0, ClientKeyExchangeOf(s, cfg))]
  }

  function ClientKeyExchangeOf(s: State, cfg: Config): Message {
    if cfg.psk.None? then
      ClientKeyExchangeMessage([], if s.localKeypair.Some? then s.localKeypair.value.publicKey else [])
    else
      ClientKeyExchangeMessage(if cfg.pskHint.Some? then cfg.pskHint.value else [], [])
  }

  /** The server's key exchange once more, from the cache; with a shared key it may be missing. */
  function ExchangeAgain(s: State, cfg: Config, crypto: Crypto, cache: seq<Item>, key: nat)
    : (State, ServerKeyExchangeBody, Option<Failure>)
  {
    var data := Merged(cache, [SERVER_KEY_EXCHANGE_RULE]);
    if data == [] then
      var (handled, failure) := ExchangeHandled(s, cfg, crypto, NO_EXCHANGE, key);
      (handled, NO_EXCHANGE, failure)
    else
      match UnmarshalHandshake(data)
      case Err(error) => (s, NO_EXCHANGE, Some(Fatal(Reading.UNEXPECTED_MESSAGE, error)))
      case Ok(h) =>
        if h.message.ServerKeyExchangeMessage? then (s, h.message.serverKeyExchange, None)
        else (s, NO_EXCHANGE, Some(Fatal(Reading.UNEXPECTED_MESSAGE, InvalidContentType)))
  }

  /** Derives the keys, once; `sending` is the text of the messages about to be sent. */
  function ClientKeyed(s: State, cfg: Config, crypto: Crypto, cache: seq<Item>, exchange: ServerKeyExchangeBody, sending: Bytes)
    : (State, Option<Failure>)
  {
    if s.cipherSuite.Some? && s.cipherSuite.value.initialized then
      (s, None)
    else
      match ClientMaster(s, crypto, cache, sending)
      case Err(error) =>
        (s, Some(Fatal(if s.extendedMasterSecret then ILLEGAL_PARAMETER else INTERNAL_ERROR, error)))
      case Ok(master) =>
        var secret := s.(masterSecret := master);
        match if cfg.psk.None? then ServerRefused(s, cfg, crypto, exchange) else None
        case Some(failure) => (secret, Some(failure))
        case None => ClientSuite(secret, crypto)
  }

  function ClientMaster(s: State, crypto: Crypto, cache: seq<Item>, sending: Bytes): Result<Bytes> {
    if s.cipherSuite.None? then
      Ok(s.masterSecret)
    else
      MasterSecret(crypto, s.extendedMasterSecret, s.preMasterSecret, Merged(cache, KEY_EXCHANGE_RULES) + sending,
                   s.localRandom, s.remoteRandom)
  }

  function ClientSuite(s: State, crypto: Crypto): (State, Option<Failure>) {
    if s.cipherSuite.None? then
      (s, None)
    else
      match crypto.suite(s.cipherSuite.value.id, s.masterSecret, RandomBytes(s.localRandom), RandomBytes(s.remoteRandom), true)
      case Err(error) => (s, Some(Fatal(INTERNAL_ERROR, error)))
      case Ok(suite) => (s.(cipherSuite := Some(suite)), None)
  }

  /** Why the server's key share or certificate is not acceptable, if it is not. */
  function ServerRefused(s: State, cfg: Config, crypto: Crypto, exchange: ServerKeyExchangeBody): Option<Failure> {
    if exchange.algorithm !in cfg.signatureSchemes then
      Some(Fatal(INSUFFICIENT_SECURITY, NoAvailableSignatureSchemes))
    else if !crypto.verifyKey(RandomBytes(s.localRandom), RandomBytes(s.remoteRandom), exchange, s.peerCertificates) then
      Some(Fatal(BAD_CERTIFICATE, BadSignature))
    else if !crypto.trustServer(s.peerCertificates) then
      Some(Fatal(BAD_CERTIFICATE, InvalidCertificate))
    else
      None
  }

  /** The proof that the client has its certificate's key: a signature of everything so far. */
  function ProofDrafts(s: State, cfg: Config, crypto: Crypto, cache: seq<Item>, sending: Bytes): Generated {
    if !s.remoteRequestedCertificate || cfg.certificate.None? then
      Drafts([])
    else
      var key := cfg.certificate.value.privateKey;
      match crypto.selectScheme(cfg.signatureSchemes, key)
      case Err(error) => Refused(Fatal(INSUFFICIENT_SECURITY, error))
      case Ok(scheme) =>
        match crypto.signTranscript(Merged(cache, KEY_EXCHANGE_RULES) + sending, key)
        case Err(error) => Refused(Fatal(INTERNAL_ERROR, error))
        case Ok(signature) => Drafts([MessageDraft(0, CertificateVerifyMessage(scheme, signature))])
  }

  function FinishedData(s: State, crypto: Crypto, cache: seq<Item>, sending: Bytes): Result<Bytes> {
    if s.localVerifyData != [] || s.cipherSuite.None? then Ok(s.localVerifyData)
    else crypto.verifyDataClient(s.masterSecret, Merged(cache, FINISHED_RULES) + sending)
  }

  const UNWRITABLE := Fatal(INTERNAL_ERROR, InvalidPacketLength)

  function Flight5Generated(s: State, cfg: Config, crypto: Crypto, cache: seq<Item>, key: nat): (State, Generated) {
    var drafts := KeyDrafts(s, cfg);
    match ExchangeAgain(s, cfg, crypto, cache, key)
    case (handled, _, Some(failure)) => (handled, Refused(failure))
    case (handled, exchange, None) =>
      if !Writable(drafts) then
        (handled, Refused(UNWRITABLE))
      else
        var sending := NumberedText(drafts, s.sendSequence);
        match ClientKeyed(handled, cfg, crypto, cache, exchange, sending)
        case (keyed, Some(failure)) => (keyed, Refused(failure))
        case (keyed, None) => Flight5Finished(keyed, cfg, crypto, cache, drafts, sending)
  }

  function Flight5Finished(s: State, cfg: Config, crypto: Crypto, cache: seq<Item>, drafts: seq<Draft>, sending: Bytes)
    : (State, Generated)
  {
    match ProofDrafts(s, cfg, crypto, cache, sending)
    case Refused(failure) => (s, Refused(failure))
    case Drafts(proof) =>
      if !Writable(proof) then
        (s, Refused(UNWRITABLE))
      else
        match FinishedData(s, crypto, cache, sending + NumberedText(proof, s.sendSequence + |drafts|))
        case Err(error) => (s, Refused(Fatal(INTERNAL_ERROR, error)))
        case Ok(data) =>
          (s.(localVerifyData := data),
           Drafts(drafts + proof + [ChangeCipherSpecDraft, MessageDraft(1, FinishedMessage(data))]))
  }

  /** The server's Finished must be what the client computes over its own transcript. */
  function Flight5Parsed(s: State, crypto: Crypto, cache: seq<Item>): Parsed {
    match FullPulled(cache, s.recvSequence, [SERVER_FINISHED_RULE])
    case Err(_) => Failed(KEEP_READING)
    case Ok((_, msgs)) =>
      if Finished !in msgs || !msgs[Finished].FinishedMessage? then
        Failed(WRONG_MESSAGE)
      else if s.cipherSuite.None? then
        Next(Flight5)
      else
        match crypto.verifyDataServer(s.masterSecret, Merged(cache, FINISHED_RULES))
        case Err(error) => Failed(Fatal(INSUFFICIENT_SECURITY, error))
        case Ok(expected) =>
          if expected != msgs[Finished].verifyData then Failed(Fatal(HANDSHAKE_FAILURE, VerifyDataMismatch))
          else Next(Flight5)
  }
}
