/** What a side keeps between flights, and what it needs from the outside. */
module HandshakeStates {
  import opened Wrappers
  import opened Bytes
  import opened Extensions
  import opened Messages
  import opened Handshakes
  import opened HandshakeCaches
  import opened CipherSuites

  datatype Flight = Flight0 | Flight1 | Flight2 | Flight3 | Flight4 | Flight5 | Flight6 {

    function Number(): nat {
      match this
      case Flight0 => 0
      case Flight1 => 1
      case Flight2 => 2
      case Flight3 => 3
      case Flight4 => 4
      case Flight5 => 5
      case Flight6 => 6
    }

    predicate IsLastSendFlight() {
      Flight6?
    }

    predicate IsLastRecvFlight() {
      Flight5?
    }

    predicate HasRetransmit() {
      !Flight2?
    }
  }

  datatype Keypair = Keypair(curve: U16, publicKey: Bytes, privateKey: Bytes)

  datatype LocalCertificate = LocalCertificate(chain: seq<Bytes>, privateKey: Bytes)

  datatype Policy = Request | Require | Disable {
    predicate Offers() {
      !Disable?
    }
  }

  datatype ClientAuth =
    NoClientCert | RequestClientCert | RequireAnyClientCert | VerifyClientCertIfGiven | RequireAndVerifyClientCert

  /** `certificate` is the one that the name lookup selects; there is none if none are configured. */
  datatype Config = Config(
    psk: Option<Bytes -> Result<Bytes>>,
    pskHint: Option<Bytes>,
    cipherSuites: seq<U16>,
    signatureSchemes: seq<SignatureHashAlgorithm>,
    extendedMasterSecret: Policy,
    srtpProfiles: seq<U16>,
    serverName: Bytes,
    clientAuth: ClientAuth,
    certificate: Option<LocalCertificate>)

  /** The cryptographic libraries, as functions. A key pair depends on a draw of randomness. The
      two `trust` functions stand for certificate chains and the application's own check. */
  datatype Crypto = Crypto(
    keypair: (U16, nat) -> Result<Keypair>,
    preMasterSecret: (Bytes, Keypair) -> Result<Bytes>,
    pskPreMasterSecret: Bytes -> Bytes,
    hash: Bytes -> Bytes,
    extendedMasterSecret: (Bytes, Bytes) -> Result<Bytes>,
    masterSecret: (Bytes, Bytes, Bytes) -> Result<Bytes>,
    verifyDataClient: (Bytes, Bytes) -> Result<Bytes>,
    verifyDataServer: (Bytes, Bytes) -> Result<Bytes>,
    selectScheme: (seq<SignatureHashAlgorithm>, Bytes) -> Result<SignatureHashAlgorithm>,
    signKey: (Bytes, Bytes, Bytes, U16, Bytes) -> Result<Bytes>,
    verifyKey: (Bytes, Bytes, ServerKeyExchangeBody, seq<Bytes>) -> bool,
    signTranscript: (Bytes, Bytes) -> Result<Bytes>,
    verifyTranscript: (Bytes, SignatureHashAlgorithm, Bytes, seq<Bytes>) -> bool,
    trustServer: seq<Bytes> -> bool,
    trustClient: (ClientAuth, seq<Bytes>) -> bool,
    suite: (U16, Bytes, Bytes, Bytes, bool) -> Result<CipherSuite>)

  const COOKIE_LENGTH := 20

  const X25519: U16 := 0x1d

  const DEFAULT_NAMED_CURVE := X25519

  const UNSUPPORTED_SRTP_PROFILE: U16 := 9

  const ZERO_RANDOM := HandshakeRandom(0, 0, [0, 0, 0, 0, 0, 0, 0, 0, 0, 0, 0, 0, 0, 0, 0, 0, 0, 0, 0, 0, 0, 0, 0, 0, 0, 0, 0, 0])

  datatype State = State(
    isClient: bool,
    localEpoch: U16,
    localRandom: HandshakeRandom,
    remoteRandom: HandshakeRandom,
    masterSecret: Bytes,
    cipherSuite: Option<CipherSuite>,
    srtpProfile: U16,
    peerCertificates: seq<Bytes>,
    peerCertificatesVerified: bool,
    identityHint: Bytes,
    preMasterSecret: Bytes,
    extendedMasterSecret: bool,
    namedCurve: U16,
    localKeypair: Option<Keypair>,
    cookie: Bytes,
    sendSequence: int,
    recvSequence: int,
    serverName: Bytes,
    remoteRequestedCertificate: bool,
    localVerifyData: Bytes)

  function DefaultState(isClient: bool): State {
    State(isClient, 0, ZERO_RANDOM, ZERO_RANDOM, [], None, UNSUPPORTED_SRTP_PROFILE, [], false, [], [], false,
          DEFAULT_NAMED_CURVE, None, [], 0, 0, [], false, [])
  }

  /** What a step takes from the random number generator. */
  datatype Draws = Draws(cookie: Bytes, random: HandshakeRandom, key: nat) {
    predicate Valid() {
      |cookie| == COOKIE_LENGTH && random.Valid()
    }
  }

  // Failures: a fatal alert to send, and an error that ends the handshake. With neither, the
  // handshake keeps reading.

  const ILLEGAL_PARAMETER: Byte := 47
  const ACCESS_DENIED: Byte := 49
  const HANDSHAKE_FAILURE: Byte := 40
  const NO_CERTIFICATE: Byte := 41
  const BAD_CERTIFICATE: Byte := 42
  const PROTOCOL_VERSION: Byte := 70
  const INSUFFICIENT_SECURITY: Byte := 71
  const INTERNAL_ERROR: Byte := 80

  datatype Failure = Failure(alert: Option<Byte>, error: Option<Error>)

  const KEEP_READING := Failure(None, None)

  const WRONG_MESSAGE := Failure(Some(INTERNAL_ERROR), None)

  function Fatal(alert: Byte, error: Error): Failure {
    Failure(Some(alert), Some(error))
  }

  datatype Parsed = Next(flight: Flight) | Failed(failure: Failure)

  /** A message or a ChangeCipherSpec, not yet numbered. */
  datatype Draft = MessageDraft(epoch: U16, message: Message) | ChangeCipherSpecDraft

  datatype Generated = Drafts(drafts: seq<Draft>) | Refused(failure: Failure)

  // Choices

  /** The first of `a` that is also in `b`. */
  function FirstMatch(a: seq<U16>, b: seq<U16>): (r: Option<U16>)
    ensures r.Some? <==> exists x :: x in a && x in b
    ensures r.Some? ==> r.value in a && r.value in b
  {
    if a == [] then None else if a[0] in b then Some(a[0]) else FirstMatch(a[1..], b)
  }

  const UNSUPPORTED_CIPHER_SUITE: U16 := 0x00a9

  predicate IsPskSuite(id: U16) {
    id in {0xc0a4, 0xc0a8, 0x00a8}
  }

  /** A suite that has no keys yet protects and opens nothing. */
  function NewSuite(id: U16): CipherSuite {
    CipherSuite.CipherSuite(id, false, IsPskSuite(id), (_, _) => Err(CipherSuiteUnset), _ => Err(CipherSuiteUnset))
  }

  function SuiteForId(id: U16): Result<CipherSuite> {
    if CipherSuiteOf(id) == id && id != UNSUPPORTED_CIPHER_SUITE then Ok(NewSuite(id)) else Err(InvalidCipherSuite)
  }

  /** A key exchange with all its fields at their defaults. */
  const NO_EXCHANGE := ServerKeyExchangeBody([], UNSUPPORTED_CURVE_TYPE, UNSUPPORTED_CURVE, [], UNSUPPORTED_ALGORITHM, [])

  function FirstKnownCurve(curves: seq<U16>): Option<U16> {
    if curves == [] then None
    else if curves[0] != UNSUPPORTED_CURVE then Some(curves[0])
    else FirstKnownCurve(curves[1..])
  }

  function RandomBytes(r: HandshakeRandom): Bytes {
    if r.Valid() then r.Marshal() else []
  }

  /** The master secret from the pre-master secret and, extended (RFC 7627, section 4), the hash of
      the session text. */
  function MasterSecret(crypto: Crypto, extended: bool, pre: Bytes, text: Bytes, clientRandom: HandshakeRandom,
                        serverRandom: HandshakeRandom): Result<Bytes> {
    if extended then
      crypto.extendedMasterSecret(pre, crypto.hash(text))
    else
      crypto.masterSecret(pre, RandomBytes(clientRandom), RandomBytes(serverRandom))
  }

  // Numbering

  predicate Writable(drafts: seq<Draft>) {
    forall d :: d in drafts && d.MessageDraft? ==> WellFormed(d.message)
  }

  /** Messages one after the other, numbered from `next`, each as a single fragment. */
  function NumberedText(drafts: seq<Draft>, next: int): Bytes
    requires Writable(drafts)
  {
    if drafts == [] then
      []
    else
      assert forall d :: d in drafts[1..] ==> d in drafts;
      match drafts[0]
      case MessageDraft(_, message) =>
        assert drafts[0] in drafts;
        Messages.BodyRoundTrip(message);
        Numbered(message, WrappedU16(next)).Whole() + NumberedText(drafts[1..], next + 1)
      case ChangeCipherSpecDraft => NumberedText(drafts[1..], next)
  }
}
