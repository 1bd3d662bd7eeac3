/** The ten handshake messages: how each is written, how long it says it is, and how it is read. */
module Messages {
  import opened Wrappers
  import opened Bytes
  import opened Readers
  import opened Headers
  import opened Extensions

  const RANDOM_BYTES_LENGTH := 28

  const NULL_COMPRESSION: Byte := 0

  /** The clock has finer than second resolution; only whole seconds travel. */
  datatype HandshakeRandom = HandshakeRandom(seconds: nat, nanos: nat, randomBytes: Bytes) {

    predicate Valid() {
      |randomBytes| == RANDOM_BYTES_LENGTH
    }

    predicate WholeSeconds() {
      seconds < 0x1_0000_0000 && nanos == 0
    }

    function Transmitted(): (r: HandshakeRandom)
      ensures r == this <==> WholeSeconds()
    {
      HandshakeRandom(seconds % 0x1_0000_0000, 0, randomBytes)
    }

    function Marshal(): (s: Bytes)
      requires Valid()
      ensures |s| == 32
    {
      var low := seconds % 0x1_0000_0000;
      EncodeU16(low / 0x1_0000) + (EncodeU16(low % 0x1_0000) + randomBytes)
    }

    static function Take(s: Bytes): Result<(HandshakeRandom, Bytes)> {
      var (high, s1) :- TakeU16(s);
      var (low, s2) :- TakeU16(s1);
      var (randomBytes, s3) :- TakeBytes(s2, RANDOM_BYTES_LENGTH);
      Ok((HandshakeRandom(high * 0x1_0000 + low, 0, randomBytes), s3))
    }
  }

  lemma TakeRandomAfter(r: HandshakeRandom, rest: Bytes)
    requires r.Valid()
    ensures HandshakeRandom.Take(r.Marshal() + rest) == Ok((r.Transmitted(), rest))
  {
    var low := r.seconds % 0x1_0000_0000;
    var s2 := r.randomBytes + rest;
    var s1 := EncodeU16(low % 0x1_0000) + s2;
    assert r.Marshal() + rest == EncodeU16(low / 0x1_0000) + s1;
    TakeU16After(low / 0x1_0000, s1);
    TakeU16After(low % 0x1_0000, s2);
    TakeBytesAfter(r.randomBytes, rest);
  }

  function CipherSuiteOf(code: U16): U16 {
    if code in {0xc0ac, 0xc0ae, 0xc02b, 0xc02f, 0xc00a, 0xc014, 0xc0a4, 0xc0a8, 0x00a8} then code else 0x00a9
  }

  function CurveTypeOf(code: Byte): Byte {
    if code == 3 then 3 else 4
  }

  const UNSUPPORTED_CURVE_TYPE: Byte := 4

  const UNSUPPORTED_ALGORITHM := SignatureHashAlgorithm(9, 8)

  function CertificateTypeOf(code: Byte): Byte {
    if code in {1, 64} then code else 65
  }

  function MapBytes(codes: Bytes, of: Byte -> Byte): (r: Bytes)
    ensures |r| == |codes|
    ensures (forall i :: 0 <= i < |codes| ==> of(codes[i]) == codes[i]) ==> r == codes
  {
    if codes == [] then [] else [of(codes[0])] + MapBytes(codes[1..], of)
  }

  /** Compression methods the reader does not know are dropped. */
  function KnownCompression(ids: Bytes): Bytes {
    if ids == [] then
      []
    else if ids[0] == NULL_COMPRESSION then
      [ids[0]] + KnownCompression(ids[1..])
    else
      KnownCompression(ids[1..])
  }

  lemma {:induction false} AllCompressionKnown(ids: Bytes)
    requires forall id :: id in ids ==> id == NULL_COMPRESSION
    ensures KnownCompression(ids) == ids
  {
    if ids != [] {
      assert ids[0] in ids;
      assert forall id :: id in ids[1..] ==> id in ids;
      AllCompressionKnown(ids[1..]);
      assert ids == [ids[0]] + ids[1..];
    }
  }

  function CompressionOf(code: Byte): Byte {
    if code == 0 then 0 else 1
  }

  datatype ClientHelloBody = ClientHelloBody(
    version: ProtocolVersion,
    random: HandshakeRandom,
    cookie: Bytes,
    cipherSuites: seq<U16>,
    compressionMethods: Bytes,
    extensions: seq<Extension>)

  datatype ServerHelloBody = ServerHelloBody(
    version: ProtocolVersion,
    random: HandshakeRandom,
    cipherSuite: U16,
    compressionMethod: Byte,
    extensions: seq<Extension>)

  datatype ServerKeyExchangeBody = ServerKeyExchangeBody(
    identityHint: Bytes,
    curveType: Byte,
    namedCurve: U16,
    publicKey: Bytes,
    algorithm: SignatureHashAlgorithm,
    signature: Bytes)

  datatype Message =
    | ClientHelloMessage(clientHello: ClientHelloBody)
    | ServerHelloMessage(serverHello: ServerHelloBody)
    | HelloVerifyRequestMessage(version: ProtocolVersion, cookie: Bytes)
    | CertificateMessage(certificates: seq<Bytes>)
    | ServerKeyExchangeMessage(serverKeyExchange: ServerKeyExchangeBody)
    | CertificateRequestMessage(certificateTypes: Bytes, algorithms: seq<SignatureHashAlgorithm>)
    | ServerHelloDoneMessage
    | CertificateVerifyMessage(algorithm: SignatureHashAlgorithm, signature: Bytes)
    | ClientKeyExchangeMessage(identityHint: Bytes, publicKey: Bytes)
    | FinishedMessage(verifyData: Bytes)
  {
    function Type(): (t: HandshakeType)
      ensures t != InvalidType && t != HelloRequest
    {
      match this
      case ClientHelloMessage(_) => ClientHello
      case ServerHelloMessage(_) => ServerHello
      case HelloVerifyRequestMessage(_, _) => HelloVerifyRequest
      case CertificateMessage(_) => Certificate
      case ServerKeyExchangeMessage(_) => ServerKeyExchange
      case CertificateRequestMessage(_, _) => CertificateRequest
      case ServerHelloDoneMessage => ServerHelloDone
      case CertificateVerifyMessage(_, _) => CertificateVerify
      case ClientKeyExchangeMessage(_, _) => ClientKeyExchange
      case FinishedMessage(_) => Finished
    }
  }

  // ClientHello

  function ClientHelloSize(m: ClientHelloBody): nat {
    2 + 32 + 1 + (1 + |m.cookie|) + (2 + 2 * |m.cipherSuites|) + (1 + |m.compressionMethods|)
    + (2 + SizeOfAll(m.extensions))
  }

  predicate ClientHelloWellFormed(m: ClientHelloBody) {
    m.random.Valid()
    && |m.cookie| < 0x100
    && 2 * |m.cipherSuites| < 0x1_0000
    && (forall i :: 0 <= i < |m.cipherSuites| ==> CipherSuiteOf(m.cipherSuites[i]) == m.cipherSuites[i])
    && |m.compressionMethods| < 0x100
    && (forall id :: id in m.compressionMethods ==> id == NULL_COMPRESSION)
    && (forall e :: e in m.extensions ==> e.WellFormed())
    && |MarshalAll(m.extensions)| < 0x1_0000
  }

  // Both hellos open with the version and the random.

  function Opening(version: ProtocolVersion, random: HandshakeRandom): Bytes
    requires random.Valid()
  {
    [version.major] + ([version.minor] + random.Marshal())
  }

  function TakeOpening(s: Bytes): Result<(ProtocolVersion, HandshakeRandom, Bytes)> {
    var (major, s1) :- TakeU8(s);
    var (minor, s2) :- TakeU8(s1);
    var (random, s3) :- HandshakeRandom.Take(s2);
    Ok((ProtocolVersion(major, minor), random, s3))
  }

  lemma TakeOpeningAfter(version: ProtocolVersion, random: HandshakeRandom, rest: Bytes)
    requires random.Valid()
    ensures TakeOpening(Opening(version, random) + rest) == Ok((version, random.Transmitted(), rest))
  {
    hide TakeU8, HandshakeRandom.Take, HandshakeRandom.Marshal, HandshakeRandom.Transmitted;
    var s2 := random.Marshal() + rest;
    assert Opening(version, random) + rest == [version.major] + ([version.minor] + s2);
    TakeU8After(version.major, [version.minor] + s2);
    TakeU8After(version.minor, s2);
    TakeRandomAfter(random, rest);
  }

  // Bytes behind a one-byte count.

  function Counted(b: Bytes): Bytes {
    [AsU8(|b|)] + b
  }

  function TakeCounted(s: Bytes): Result<(Bytes, Bytes)> {
    var (n, s1) :- TakeU8(s);
    TakeBytes(s1, n)
  }

  lemma TakeCountedAfter(b: Bytes, rest: Bytes)
    requires |b| < 0x100
    ensures TakeCounted(Counted(b) + rest) == Ok((b, rest))
  {
    hide TakeU8, TakeBytes;
    assert Counted(b) + rest == [|b|] + (b + rest);
    TakeU8After(|b|, b + rest);
    TakeBytesAfter(b, rest);
  }

  function Suites(suites: seq<U16>): Bytes {
    EncodeU16(AsU16(2 * |suites|)) + EncodeU16s(suites)
  }

  function TakeSuites(s: Bytes): Result<(seq<U16>, Bytes)> {
    var (n, s1) :- TakeU16(s);
    var (suites, s2) :- TakeU16s(s1, n / 2);
    Ok((MapCodes(suites, c => CipherSuiteOf(c)), s2))
  }

  lemma TakeSuitesAfter(suites: seq<U16>, rest: Bytes)
    requires 2 * |suites| < 0x1_0000
    requires forall i :: 0 <= i < |suites| ==> CipherSuiteOf(suites[i]) == suites[i]
    ensures TakeSuites(Suites(suites) + rest) == Ok((suites, rest))
  {
    hide TakeU16, TakeU16s, EncodeU16s, CipherSuiteOf;
    CountedRead(2 * |suites|, EncodeU16s(suites), rest);
    TakeU16sAfter(suites, rest);
  }

  lemma Regroup(a: Bytes, b: Bytes, c: Bytes, d: Bytes)
    ensures a + (b + c) + d == a + (b + (c + d))
    ensures a + b + c == a + (b + c)
  {
  }

  function MarshalClientHello(m: ClientHelloBody): Result<Bytes>
    requires m.random.Valid()
  {
    if |m.cookie| > 255 then
      Err(CookieTooLong)
    else
      Ok(Opening(m.version, m.random) + ([0] + ClientHelloTail(m)))
  }

  function ClientHelloTail(m: ClientHelloBody): Bytes {
    Counted(m.cookie) + (Suites(m.cipherSuites) + (Counted(m.compressionMethods) + ExtensionBlock(m.extensions)))
  }

  function ExtensionBlock(extensions: seq<Extension>): Bytes {
    EncodeU16(AsU16(|MarshalAll(extensions)|)) + MarshalAll(extensions)
  }

  function TakeExtensionBlock(s: Bytes): Result<seq<Extension>> {
    var (n, s1) :- TakeU16(s);
    var (buffer, _) :- TakeBytes(s1, n);
    ParsedBlock(buffer)
  }

  /** The session identifier's length is read but the identifier itself is not skipped. */
  function UnmarshalClientHello(s: Bytes): Result<ClientHelloBody> {
    var (version, random, s1) :- TakeOpening(s);
    var (_, s2) :- TakeU8(s1);
    var (cookie, suites, compression, extensions) :- TakeClientHelloTail(s2);
    Ok(ClientHelloBody(version, random, cookie, suites, compression, extensions))
  }

  function TakeClientHelloTail(s: Bytes): Result<(Bytes, seq<U16>, Bytes, seq<Extension>)> {
    var (cookie, s1) :- TakeCounted(s);
    var (suites, s2) :- TakeSuites(s1);
    var (ids, s3) :- TakeCounted(s2);
    var extensions :- TakeExtensionBlock(s3);
    Ok((cookie, suites, KnownCompression(ids), extensions))
  }

  lemma TakeExtensionBlockAfter(extensions: seq<Extension>, rest: Bytes)
    requires forall e :: e in extensions ==> e.WellFormed()
    requires |MarshalAll(extensions)| < 0x1_0000
    ensures TakeExtensionBlock(ExtensionBlock(extensions) + rest) == Ok(extensions)
  {
    hide ParsedBlock, MarshalAll, Extension.WellFormed, TakeU16, TakeBytes;
    var buffer := MarshalAll(extensions);
    assert ExtensionBlock(extensions) + rest == EncodeU16(|buffer|) + (buffer + rest);
    TakeU16After(|buffer|, buffer + rest);
    TakeBytesAfter(buffer, rest);
    EmptyBlock();
    BlockRoundTrip(extensions, []);
    assert buffer + [] == buffer && extensions + [] == extensions;
  }

  lemma ClientHelloTailRead(m: ClientHelloBody, rest: Bytes)
    requires ClientHelloWellFormed(m)
    ensures TakeClientHelloTail(ClientHelloTail(m) + rest)
         == Ok((m.cookie, m.cipherSuites, m.compressionMethods, m.extensions))
  {
    hide TakeCounted, Counted, TakeSuites, Suites, TakeExtensionBlock, ExtensionBlock, Extension.WellFormed, CipherSuiteOf;
    var s3 := ExtensionBlock(m.extensions) + rest;
    var s2 := Counted(m.compressionMethods) + s3;
    var s1 := Suites(m.cipherSuites) + s2;
    Regroup(Counted(m.cookie), Suites(m.cipherSuites), Counted(m.compressionMethods) + ExtensionBlock(m.extensions), rest);
    Regroup(Counted(m.compressionMethods), ExtensionBlock(m.extensions), rest, []);
    TakeCountedAfter(m.cookie, s1);
    TakeSuitesAfter(m.cipherSuites, s2);
    TakeCountedAfter(m.compressionMethods, s3);
    AllCompressionKnown(m.compressionMethods);
    TakeExtensionBlockAfter(m.extensions, rest);
  }

  /** Reading a written ClientHello gives it back, up to the fraction of a second in its random. */
  lemma ClientHelloRoundTrip(m: ClientHelloBody, rest: Bytes)
    requires ClientHelloWellFormed(m)
    ensures MarshalClientHello(m).Ok?
    ensures UnmarshalClientHello(MarshalClientHello(m).value + rest) == Ok(m.(random := m.random.Transmitted()))
    ensures |MarshalClientHello(m).value| == ClientHelloSize(m)
  {
    hide TakeOpening, TakeU8, TakeClientHelloTail, HandshakeRandom.Transmitted, CipherSuiteOf, Extension.WellFormed;
    MarshalledSizeOfAll(m.extensions);
    ClientHelloTailRead(m, rest);
    Regroup(Opening(m.version, m.random), [0], ClientHelloTail(m), rest);
    TakeOpeningAfter(m.version, m.random, [0] + (ClientHelloTail(m) + rest));
    TakeU8After(0, ClientHelloTail(m) + rest);
  }

  // ServerHello

  function ServerHelloSize(m: ServerHelloBody): nat {
    2 + 32 + 1 + 2 + 1 + (2 + SizeOfAll(m.extensions))
  }

  predicate ServerHelloWellFormed(m: ServerHelloBody) {
    m.random.Valid()
    && CipherSuiteOf(m.cipherSuite) == m.cipherSuite
    && CompressionOf(m.compressionMethod) == m.compressionMethod
    && (forall e :: e in m.extensions ==> e.WellFormed())
    && |MarshalAll(m.extensions)| < 0x1_0000
  }

  function MarshalServerHello(m: ServerHelloBody): Bytes
    requires m.random.Valid()
  {
    Opening(m.version, m.random) + ([0] + ServerHelloTail(m))
  }

  function ServerHelloTail(m: ServerHelloBody): Bytes {
    EncodeU16(m.cipherSuite) + ([m.compressionMethod] + ExtensionBlock(m.extensions))
  }

  function UnmarshalServerHello(s: Bytes): Result<ServerHelloBody> {
    var (version, random, s1) :- TakeOpening(s);
    var (_, s2) :- TakeCounted(s1);
    var (suite, s3) :- TakeU16(s2);
    var (compression, s4) :- TakeU8(s3);
    var extensions :- TakeExtensionBlock(s4);
    Ok(ServerHelloBody(version, random, CipherSuiteOf(suite), CompressionOf(compression), extensions))
  }

  /** The same for a ServerHello. */
  lemma ServerHelloRoundTrip(m: ServerHelloBody, rest: Bytes)
    requires ServerHelloWellFormed(m)
    ensures UnmarshalServerHello(MarshalServerHello(m) + rest) == Ok(m.(random := m.random.Transmitted()))
    ensures |MarshalServerHello(m)| == ServerHelloSize(m)
  {
    MarshalledSizeOfAll(m.extensions);
    hide TakeOpening, TakeCounted, TakeU8, TakeU16, TakeExtensionBlock, HandshakeRandom.Transmitted, Extension.WellFormed;
    var s4 := ExtensionBlock(m.extensions) + rest;
    var s3 := [m.compressionMethod] + s4;
    var s2 := EncodeU16(m.cipherSuite) + s3;
    Regroup(Opening(m.version, m.random), [0], ServerHelloTail(m), rest);
    Regroup(EncodeU16(m.cipherSuite), [m.compressionMethod], ExtensionBlock(m.extensions), rest);
    TakeOpeningAfter(m.version, m.random, [0] + s2);
    TakeCountedAfter([], s2);
    assert Counted([]) == [0];
    TakeU16After(m.cipherSuite, s3);
    TakeU8After(m.compressionMethod, s4);
    TakeExtensionBlockAfter(m.extensions, rest);
  }

  /** A hello reads back exactly as it was written if and only if its clock stands at a whole second
      that fits thirty-two bits. */
  lemma HellosReadBackIff(c: ClientHelloBody, s: ServerHelloBody, rest: Bytes)
    requires ClientHelloWellFormed(c) && ServerHelloWellFormed(s)
    ensures MarshalClientHello(c).Ok?
    ensures UnmarshalClientHello(MarshalClientHello(c).value + rest) == Ok(c) <==> c.random.WholeSeconds()
    ensures UnmarshalServerHello(MarshalServerHello(s) + rest) == Ok(s) <==> s.random.WholeSeconds()
  {
    hide MarshalClientHello, UnmarshalClientHello, MarshalServerHello, UnmarshalServerHello, ClientHelloWellFormed, ServerHelloWellFormed;
    ClientHelloRoundTrip(c, rest);
    ServerHelloRoundTrip(s, rest);
  }

  /** Half a second past the epoch is lost on the way. */
  lemma FractionLost() returns (c: ClientHelloBody, s: ServerHelloBody)
    ensures ClientHelloWellFormed(c) && ServerHelloWellFormed(s) && MarshalClientHello(c).Ok?
    ensures UnmarshalClientHello(MarshalClientHello(c).value).Ok? && UnmarshalClientHello(MarshalClientHello(c).value) != Ok(c)
    ensures UnmarshalServerHello(MarshalServerHello(s)).Ok? && UnmarshalServerHello(MarshalServerHello(s)) != Ok(s)
  {
    hide MarshalClientHello, UnmarshalClientHello, MarshalServerHello, UnmarshalServerHello;
    var random := HandshakeRandom(0, 500_000_000, seq(RANDOM_BYTES_LENGTH, _ => 0));
    c := ClientHelloBody(PROTOCOL_VERSION1_2, random, [], [], [NULL_COMPRESSION], []);
    s := ServerHelloBody(PROTOCOL_VERSION1_2, random, 0x00a8, NULL_COMPRESSION, []);
    ClientHelloRoundTrip(c, []);
    ServerHelloRoundTrip(s, []);
    assert MarshalClientHello(c).value + [] == MarshalClientHello(c).value && MarshalServerHello(s) + [] == MarshalServerHello(s);
  }

  // HelloVerifyRequest

  function MarshalHelloVerifyRequest(version: ProtocolVersion, cookie: Bytes): Result<Bytes> {
    if |cookie| > 255 then
      Err(CookieTooLong)
    else
      Ok([version.major] + ([version.minor] + ([AsU8(|cookie|)] + cookie)))
  }

  /** The cookie is everything that follows its length field. */
  function UnmarshalHelloVerifyRequest(s: Bytes): Result<Message> {
    var (major, s1) :- TakeU8(s);
    var (minor, s2) :- TakeU8(s1);
    var (n, s3) :- TakeU8(s2);
    if |s3| < n then Err(BufferTooSmall) else Ok(HelloVerifyRequestMessage(ProtocolVersion(major, minor), s3))
  }

  // Certificate

  function CertificatesSize(certificates: seq<Bytes>): nat {
    if certificates == [] then 0 else 3 + |certificates[0]| + CertificatesSize(certificates[1..])
  }

  function EncodeCertificates(certificates: seq<Bytes>): (s: Bytes)
    requires CertificatesSize(certificates) < 0x100_0000
    ensures |s| == CertificatesSize(certificates)
  {
    if certificates == [] then
      []
    else
      EncodeU24(|certificates[0]|) + (certificates[0] + EncodeCertificates(certificates[1..]))
  }

  function MarshalCertificate(certificates: seq<Bytes>): (s: Bytes)
    requires CertificatesSize(certificates) < 0x100_0000
    ensures |s| == 3 + CertificatesSize(certificates)
  {
    EncodeU24(CertificatesSize(certificates)) + EncodeCertificates(certificates)
  }

  /** Certificates until `payload` bytes have been read; the last one may run past them. */
  function TakeCertificates(s: Bytes, payload: int): Result<seq<Bytes>>
    decreases |s|
  {
    if payload <= 0 then
      Ok([])
    else
      var (n, s1) :- TakeU24(s);
      var (certificate, s2) :- TakeBytes(s1, n);
      var rest :- TakeCertificates(s2, payload - 3 - n);
      Ok([certificate] + rest)
  }

  function UnmarshalCertificate(s: Bytes): Result<seq<Bytes>> {
    var (payload, s1) :- TakeU24(s);
    TakeCertificates(s1, payload)
  }

  method ReadCertificates(s: Bytes) returns (r: Result<seq<Bytes>>)
    ensures r == UnmarshalCertificate(s)
  {
    hide TakeU24, TakeBytes;
    var certificates: seq<Bytes> := [];
    var header := TakeU24(s);
    if header.Err? {
      return Err(header.error);
    }
    var payloadSize: nat, reader := header.value.0, header.value.1;
    var offset: nat := 0;
    ghost var all := TakeCertificates(reader, payloadSize);
    assert all.Ok? ==> certificates + all.value == all.value;
    while offset < payloadSize
      invariant 0 <= offset
      invariant all == var more := TakeCertificates(reader, payloadSize - offset);
                       if more.Ok? then Ok(certificates + more.value) else more
      decreases payloadSize - offset
    {
      var length := TakeU24(reader);
      if length.Err? {
        return Err(length.error);
      }
      var certificate := TakeBytes(length.value.1, length.value.0);
      if certificate.Err? {
        return Err(certificate.error);
      }
      var n: nat := length.value.0;
      ghost var more := TakeCertificates(certificate.value.1, payloadSize - offset - 3 - n);
      assert more.Ok? ==> certificates + ([certificate.value.0] + more.value)
                          == certificates + [certificate.value.0] + more.value;
      offset := offset + 3;
      offset := offset + n;
      reader := certificate.value.1;
      certificates := certificates + [certificate.value.0];
    }
    assert certificates + [] == certificates;
    return Ok(certificates);
  }

  method WriteCertificates(certificates: seq<Bytes>) returns (s: Bytes)
    requires CertificatesSize(certificates) < 0x100_0000
    ensures s == MarshalCertificate(certificates)
  {
    var payloadSize := 0;
    for i := 0 to |certificates|
      invariant payloadSize + CertificatesSize(certificates[i..]) == CertificatesSize(certificates)
    {
      assert certificates[i..][1..] == certificates[i + 1..];
      payloadSize := payloadSize + (3 + |certificates[i]|);
    }
    s := EncodeU24(payloadSize);
    assert certificates[0..] == certificates;
    for i := 0 to |certificates|
      invariant CertificatesSize(certificates[i..]) < 0x100_0000
      invariant s + EncodeCertificates(certificates[i..]) == MarshalCertificate(certificates)
    {
      assert certificates[i..][1..] == certificates[i + 1..];
      s := s + EncodeU24(|certificates[i]|);
      s := s + certificates[i];
    }
  }

  lemma TakeOneCertificate(first: Bytes, tail: Bytes, payload: int)
    requires |first| < 0x100_0000 && payload > 0
    ensures TakeCertificates(EncodeU24(|first|) + (first + tail), payload)
         == var rest := TakeCertificates(tail, payload - 3 - |first|); if rest.Ok? then Ok([first] + rest.value) else rest
  {
  }

  lemma {:induction false} TakeCertificatesAfter(certificates: seq<Bytes>, rest: Bytes)
    requires CertificatesSize(certificates) < 0x100_0000
    ensures TakeCertificates(EncodeCertificates(certificates) + rest, CertificatesSize(certificates)) == Ok(certificates)
  {
    hide TakeU24, TakeBytes, EncodeU24, TakeCertificates;
    if certificates == [] {
      NoCertificateLeft(EncodeCertificates(certificates) + rest);
    } else {
      var first, others := certificates[0], certificates[1..];
      var tail := EncodeCertificates(others) + rest;
      assert EncodeCertificates(certificates) + rest == EncodeU24(|first|) + (first + tail);
      TakeOneCertificate(first, tail, CertificatesSize(certificates));
      TakeCertificatesAfter(others, rest);
      assert [first] + others == certificates;
    }
  }

  lemma NoCertificateLeft(s: Bytes)
    ensures TakeCertificates(s, 0) == Ok([])
  {
  }

  lemma CertificateRoundTrip(certificates: seq<Bytes>, rest: Bytes)
    requires CertificatesSize(certificates) < 0x100_0000
    ensures UnmarshalCertificate(MarshalCertificate(certificates) + rest) == Ok(certificates)
  {
    hide TakeU24, TakeCertificates;
    var tail := EncodeCertificates(certificates) + rest;
    assert MarshalCertificate(certificates) + rest == EncodeU24(CertificatesSize(certificates)) + tail;
    TakeU24After(CertificatesSize(certificates), tail);
    TakeCertificatesAfter(certificates, rest);
  }

  // Key exchanges: each has a pre-shared-key form and a public-key form, told apart by length.

  function MarshalClientKeyExchange(identityHint: Bytes, publicKey: Bytes): Result<Bytes> {
    if (identityHint == []) == (publicKey == []) then
      Err(InvalidClientKeyExchange)
    else if publicKey != [] then
      Ok([AsU8(|publicKey|)] + publicKey)
    else
      Ok(EncodeU16(AsU16(|identityHint|)) + identityHint)
  }

  function ClientKeyExchangeSize(identityHint: Bytes, publicKey: Bytes): nat {
    if publicKey != [] then 1 + |publicKey| else 2 + |identityHint|
  }

  /** Fewer than two bytes, where the source panics, is the error BufferTooSmall. */
  function UnmarshalClientKeyExchange(data: Bytes): Result<Message> {
    if |data| < 2 then
      Err(BufferTooSmall)
    else if |data| == ReadU16(data, 0) + 2 then
      Ok(ClientKeyExchangeMessage(data[2..], []))
    else if |data| != data[0] as int + 1 then
      Err(BufferTooSmall)
    else
      Ok(ClientKeyExchangeMessage([], data[1..]))
  }

  /** The pre-shared-key test never takes a public key, so both forms come back as sent; the
      lengths their length fields can hold are exactly the ones that do. */
  lemma ClientKeyExchangeRoundTrip(identityHint: Bytes, publicKey: Bytes)
    requires (identityHint == []) != (publicKey == [])
    ensures var data := MarshalClientKeyExchange(identityHint, publicKey).value;
            |data| == ClientKeyExchangeSize(identityHint, publicKey)
            && (UnmarshalClientKeyExchange(data) == Ok(ClientKeyExchangeMessage(identityHint, publicKey))
                <==> |publicKey| < 0x100 && |identityHint| < 0x1_0000)
  {
    hide EncodeU16;
  }

  function MarshalServerKeyExchange(m: ServerKeyExchangeBody): Bytes {
    if m.identityHint != [] then
      EncodeU16(AsU16(|m.identityHint|)) + m.identityHint
    else
      [m.curveType] + (EncodeU16(m.namedCurve) + ([AsU8(|m.publicKey|)] + (m.publicKey
      + ([m.algorithm.hash] + ([m.algorithm.signature] + (EncodeU16(AsU16(|m.signature|)) + m.signature))))))
  }

  function ServerKeyExchangeSize(m: ServerKeyExchangeBody): nat {
    if m.identityHint != [] then
      2 + |m.identityHint|
    else
      1 + 2 + 1 + |m.publicKey| + 2 + 2 + |m.signature|
  }

  /** Fewer than two bytes, where the source panics, is the error BufferTooSmall. */
  function UnmarshalServerKeyExchange(data: Bytes): Result<ServerKeyExchangeBody> {
    if |data| < 2 then
      Err(BufferTooSmall)
    else if |data| == ReadU16(data, 0) + 2 then
      Ok(ServerKeyExchangeBody(data[2..], UNSUPPORTED_CURVE_TYPE, UNSUPPORTED_CURVE, [], UNSUPPORTED_ALGORITHM, []))
    else
      UnmarshalNamedCurveExchange(data)
  }

  function UnmarshalNamedCurveExchange(data: Bytes): Result<ServerKeyExchangeBody>
    requires |data| >= 2
  {
    if |data| < 4 then
      Err(BufferTooSmall)
    else
      var keyEnd: nat := 4 + data[3] as int;
      if |data| < keyEnd + 4 then
        Err(BufferTooSmall)
      else
        var signatureEnd: nat := keyEnd + 4 + ReadU16(data, keyEnd + 2);
        if |data| < signatureEnd then
          Err(BufferTooSmall)
        else
          Ok(ServerKeyExchangeBody([], CurveTypeOf(data[0]), NamedCurveOf(ReadU16(data, 1)), data[4..keyEnd],
                                   SignatureHashAlgorithm(HashAlgorithmOf(data[keyEnd]), SignatureAlgorithmOf(data[keyEnd + 1])),
                                   data[keyEnd + 4..signatureEnd]))
  }

  /** A message with a hint carries nothing else; one without has a known curve and fits its fields. */
  predicate ServerKeyExchangeWellFormed(m: ServerKeyExchangeBody) {
    if m.identityHint != [] then
      |m.identityHint| < 0x1_0000
      && m == ServerKeyExchangeBody(m.identityHint, UNSUPPORTED_CURVE_TYPE, UNSUPPORTED_CURVE, [], UNSUPPORTED_ALGORITHM, [])
    else
      CurveTypeOf(m.curveType) == m.curveType && NamedCurveOf(m.namedCurve) == m.namedCurve
      && |m.publicKey| < 0x100 && |m.signature| < 0x1_0000 && m.algorithm.Valid()
  }

  /** The only length at which a named-curve message reads as a hint: its first two bytes are the
      curve type and the high half of the curve, and every known curve has a zero high half. */
  function AmbiguousLength(m: ServerKeyExchangeBody): nat {
    m.curveType as int * 0x100 + 2
  }

  function ExchangeHead(m: ServerKeyExchangeBody): (s: Bytes)
    ensures |s| == 4
  {
    [m.curveType] + (EncodeU16(m.namedCurve) + [AsU8(|m.publicKey|)])
  }

  function ExchangeTail(m: ServerKeyExchangeBody): (s: Bytes)
    ensures |s| == 4 + |m.signature|
  {
    [m.algorithm.hash] + ([m.algorithm.signature] + (EncodeU16(AsU16(|m.signature|)) + m.signature))
  }

  lemma ExchangeParts(m: ServerKeyExchangeBody)
    requires m.identityHint == []
    ensures MarshalServerKeyExchange(m) == ExchangeHead(m) + m.publicKey + ExchangeTail(m)
    ensures ReadU16(ExchangeHead(m), 1) == m.namedCurve
    ensures ReadU16(ExchangeTail(m), 2) == AsU16(|m.signature|)
    ensures ExchangeTail(m)[4..] == m.signature
  {
  }

  lemma NamedCurveExchangeRead(m: ServerKeyExchangeBody)
    requires ServerKeyExchangeWellFormed(m) && m.identityHint == []
    ensures |MarshalServerKeyExchange(m)| == ServerKeyExchangeSize(m)
    ensures ReadU16(MarshalServerKeyExchange(m), 0) == m.curveType as int * 0x100
    ensures UnmarshalNamedCurveExchange(MarshalServerKeyExchange(m)) == Ok(m)
  {
    hide MarshalServerKeyExchange, UnmarshalNamedCurveExchange;
    ExchangeParts(m);
    assert ExchangeHead(m)[1] == m.namedCurve / 0x100 == 0;
    ReadThreeParts(ExchangeHead(m), m.publicKey, ExchangeTail(m));
    ThreeParts(ExchangeHead(m), m.publicKey, ExchangeTail(m));
  }

  lemma ReadThreeParts(head: Bytes, key: Bytes, tail: Bytes)
    requires |head| == 4 && |key| == head[3] && |tail| >= 4 && |tail| == 4 + ReadU16(tail, 2)
    ensures UnmarshalNamedCurveExchange(head + key + tail)
         == Ok(ServerKeyExchangeBody([], CurveTypeOf(head[0]), NamedCurveOf(ReadU16(head, 1)), key,
                                     SignatureHashAlgorithm(HashAlgorithmOf(tail[0]), SignatureAlgorithmOf(tail[1])),
                                     tail[4..]))
  {
    hide ReadU16;
    ThreeParts(head, key, tail);
  }

  lemma ThreeParts(head: Bytes, key: Bytes, tail: Bytes)
    requires |head| == 4 && |tail| >= 4
    ensures var data := head + key + tail;
            && data[0] == head[0] && data[1] == head[1] && data[3] == head[3]
            && ReadU16(data, 0) == ReadU16(head, 0) && ReadU16(data, 1) == ReadU16(head, 1)
            && data[4..4 + |key|] == key
            && data[4 + |key|] == tail[0] && data[5 + |key|] == tail[1]
            && ReadU16(data, 6 + |key|) == ReadU16(tail, 2)
            && data[8 + |key|..] == tail[4..]
            && data[8 + |key|..|data|] == tail[4..]
  {
  }

  /** A well-formed message comes back as sent, except at the one ambiguous length (770 for a
      named curve). */
  lemma ServerKeyExchangeRoundTrip(m: ServerKeyExchangeBody)
    requires ServerKeyExchangeWellFormed(m)
    ensures |MarshalServerKeyExchange(m)| == ServerKeyExchangeSize(m)
    ensures UnmarshalServerKeyExchange(MarshalServerKeyExchange(m)) == Ok(m)
       <==> m.identityHint != [] || ServerKeyExchangeSize(m) != AmbiguousLength(m)
  {
    hide EncodeU16;
    var data := MarshalServerKeyExchange(m);
    if m.identityHint != [] {
      assert data[2..] == m.identityHint;
      assert data[..2] == EncodeU16(|m.identityHint|);
      assert ReadU16(data, 0) == ReadU16(data[..2], 0);
    } else {
      NamedCurveExchangeRead(m);
      hide UnmarshalNamedCurveExchange, MarshalServerKeyExchange;
      if ServerKeyExchangeSize(m) == AmbiguousLength(m) {
        assert UnmarshalServerKeyExchange(data).value.identityHint == data[2..];
        assert |data[2..]| == ServerKeyExchangeSize(m) - 2;
      }
    }
  }

  /** A key of 32 bytes and a signature of 730 make such a message: it is read as a hint. */
  lemma ExchangeMisread() returns (m: ServerKeyExchangeBody)
    ensures ServerKeyExchangeWellFormed(m) && m.identityHint == [] && |m.publicKey| == 32
    ensures |MarshalServerKeyExchange(m)| == 770
    ensures UnmarshalServerKeyExchange(MarshalServerKeyExchange(m)) != Ok(m)
  {
    hide MarshalServerKeyExchange, UnmarshalServerKeyExchange;
    m := ServerKeyExchangeBody([], 3, 0x1d, seq(32, _ => 1), SignatureHashAlgorithm(4, 3), seq(730, _ => 1));
    ServerKeyExchangeRoundTrip(m);
  }

  // CertificateRequest and CertificateVerify

  function MarshalCertificateRequest(certificateTypes: Bytes, algorithms: seq<SignatureHashAlgorithm>): Bytes {
    [AsU8(|certificateTypes|)] + (certificateTypes + (EncodeU16(AsU16(2 * |algorithms|)) + (EncodeAlgorithms(algorithms) + [0, 0])))
  }

  function UnmarshalCertificateRequest(s: Bytes): Result<Message> {
    var (n, s1) :- TakeU8(s);
    var (types, s2) :- TakeBytes(s1, n);
    var (length, s3) :- TakeU16(s2);
    var (algorithms, _) :- TakeAlgorithms(s3, (length + 1) / 2);
    Ok(CertificateRequestMessage(MapBytes(types, c => CertificateTypeOf(c)), algorithms))
  }

  function MarshalCertificateVerify(algorithm: SignatureHashAlgorithm, signature: Bytes): Bytes {
    [algorithm.hash] + ([algorithm.signature] + (EncodeU16(AsU16(|signature|)) + signature))
  }

  function UnmarshalCertificateVerify(s: Bytes): Result<Message> {
    var (algorithm, s1) :- TakeAlgorithm(s);
    var (n, s2) :- TakeU16(s1);
    var (signature, _) :- TakeBytes(s2, n);
    Ok(CertificateVerifyMessage(algorithm, signature))
  }

  lemma CertificateRequestRoundTrip(m: Message)
    requires m.CertificateRequestMessage? && WellFormed(m)
    ensures UnmarshalCertificateRequest(MarshalCertificateRequest(m.certificateTypes, m.algorithms)) == Ok(m)
  {
    hide TakeU8, TakeBytes, TakeU16, TakeAlgorithms, EncodeAlgorithms, Extension.Unmarshal, Size, IsUtf8, Extension.Body,
         ClientHelloWellFormed, ServerHelloWellFormed, ServerKeyExchangeWellFormed, SignatureHashAlgorithm.Valid;
    var s3 := EncodeAlgorithms(m.algorithms) + [0, 0];
    var s2 := EncodeU16(2 * |m.algorithms|) + s3;
    TakeU8After(|m.certificateTypes|, m.certificateTypes + s2);
    TakeBytesAfter(m.certificateTypes, s2);
    TakeU16After(2 * |m.algorithms|, s3);
    TakeAlgorithmsAfter(m.algorithms, [0, 0]);
  }

  lemma CertificateVerifyRoundTrip(m: Message)
    requires m.CertificateVerifyMessage? && WellFormed(m)
    ensures UnmarshalCertificateVerify(MarshalCertificateVerify(m.algorithm, m.signature)) == Ok(m)
  {
    hide TakeAlgorithm, TakeBytes, TakeU16, EncodeU16;
    TakeAlgorithmAfter(m.algorithm, EncodeU16(|m.signature|) + m.signature);
    TakeU16After(|m.signature|, m.signature);
    TakeBytesAfter(m.signature, []);
    assert m.signature + [] == m.signature;
  }

  // All messages

  predicate WellFormed(m: Message) {
    Size(m) < 0x100_0000
    && match m
       case ClientHelloMessage(h) => ClientHelloWellFormed(h)
       case ServerHelloMessage(h) => ServerHelloWellFormed(h)
       case HelloVerifyRequestMessage(_, cookie) => |cookie| < 0x100
       case CertificateMessage(_) => true
       case ServerKeyExchangeMessage(x) =>
         ServerKeyExchangeWellFormed(x) && (x.identityHint != [] || ServerKeyExchangeSize(x) != AmbiguousLength(x))
       case CertificateRequestMessage(types, algorithms) =>
         |types| < 0x100 && (forall i :: 0 <= i < |types| ==> CertificateTypeOf(types[i]) == types[i])
         && 2 * |algorithms| < 0x1_0000 && (forall a :: a in algorithms ==> a.Valid())
       case ServerHelloDoneMessage => true
       case CertificateVerifyMessage(algorithm, signature) => algorithm.Valid() && |signature| < 0x1_0000
       case ClientKeyExchangeMessage(hint, key) =>
         (hint == []) != (key == []) && |key| < 0x100 && |hint| < 0x1_0000
       case FinishedMessage(_) => true
  }

  function Size(m: Message): nat {
    match m
    case ClientHelloMessage(h) => ClientHelloSize(h)
    case ServerHelloMessage(h) => ServerHelloSize(h)
    case HelloVerifyRequestMessage(_, cookie) => 1 + 1 + 1 + |cookie|
    case CertificateMessage(certificates) => 3 + CertificatesSize(certificates)
    case ServerKeyExchangeMessage(x) => ServerKeyExchangeSize(x)
    case CertificateRequestMessage(types, algorithms) => 1 + |types| + 2 + |algorithms| * 2 + 2
    case ServerHelloDoneMessage => 0
    case CertificateVerifyMessage(_, signature) => 1 + 1 + 2 + |signature|
    case ClientKeyExchangeMessage(hint, key) => ClientKeyExchangeSize(hint, key)
    case FinishedMessage(verifyData) => |verifyData|
  }

  function Marshal(m: Message): Bytes
    requires WellFormed(m)
  {
    match m
    case ClientHelloMessage(h) => MarshalClientHello(h).value
    case ServerHelloMessage(h) => MarshalServerHello(h)
    case HelloVerifyRequestMessage(version, cookie) => MarshalHelloVerifyRequest(version, cookie).value
    case CertificateMessage(certificates) => MarshalCertificate(certificates)
    case ServerKeyExchangeMessage(x) => MarshalServerKeyExchange(x)
    case CertificateRequestMessage(types, algorithms) => MarshalCertificateRequest(types, algorithms)
    case ServerHelloDoneMessage => []
    case CertificateVerifyMessage(algorithm, signature) => MarshalCertificateVerify(algorithm, signature)
    case ClientKeyExchangeMessage(hint, key) => MarshalClientKeyExchange(hint, key).value
    case FinishedMessage(verifyData) => verifyData
  }

  function UnmarshalBody(t: HandshakeType, s: Bytes): Result<Message> {
    match t
    case ClientHello => (var h :- UnmarshalClientHello(s); Ok(ClientHelloMessage(h)))
    case ServerHello => (var h :- UnmarshalServerHello(s); Ok(ServerHelloMessage(h)))
    case HelloVerifyRequest => UnmarshalHelloVerifyRequest(s)
    case Certificate => (var certificates :- UnmarshalCertificate(s); Ok(CertificateMessage(certificates)))
    case ServerKeyExchange => (var x :- UnmarshalServerKeyExchange(s); Ok(ServerKeyExchangeMessage(x)))
    case CertificateRequest => UnmarshalCertificateRequest(s)
    case ServerHelloDone => Ok(ServerHelloDoneMessage)
    case CertificateVerify => UnmarshalCertificateVerify(s)
    case ClientKeyExchange => UnmarshalClientKeyExchange(s)
    case Finished => Ok(FinishedMessage(s))
    case HelloRequest => Err(NotImplemented)
    case InvalidType => Err(NotImplemented)
  }

  /** The message the peer sees: a hello's random arrives without its fraction of a second. */
  function Transmitted(m: Message): Message {
    match m
    case ClientHelloMessage(h) => ClientHelloMessage(h.(random := h.random.Transmitted()))
    case ServerHelloMessage(h) => ServerHelloMessage(h.(random := h.random.Transmitted()))
    case _ => m
  }

  lemma SmallBodyRoundTrip(m: Message)
    requires WellFormed(m) && (m.HelloVerifyRequestMessage? || m.ServerHelloDoneMessage? || m.FinishedMessage?)
    ensures UnmarshalBody(m.Type(), Marshal(m)) == Ok(m) && |Marshal(m)| == Size(m)
  {
    hide Extension.Unmarshal, UnmarshalClientHello, UnmarshalServerHello, UnmarshalCertificateRequest, UnmarshalCertificate,
         UnmarshalCertificateVerify;
  }

  lemma HelloRoundTrip(m: Message)
    requires WellFormed(m) && (m.ClientHelloMessage? || m.ServerHelloMessage?)
    ensures UnmarshalBody(m.Type(), Marshal(m)) == Ok(Transmitted(m)) && |Marshal(m)| == Size(m)
  {
    hide UnmarshalClientHello, UnmarshalServerHello, UnmarshalCertificateRequest;
    if m.ClientHelloMessage? {
      ClientHelloRoundTrip(m.clientHello, []);
      assert Marshal(m) + [] == Marshal(m);
    } else {
      ServerHelloRoundTrip(m.serverHello, []);
      assert Marshal(m) + [] == Marshal(m);
    }
  }

  /** Every well-formed message: what is written is as long as announced and reads back as sent. */
  lemma BodyRoundTrip(m: Message)
    requires WellFormed(m)
    ensures |Marshal(m)| == Size(m)
    ensures UnmarshalBody(m.Type(), Marshal(m)) == Ok(Transmitted(m))
  {
    hide UnmarshalClientHello, MarshalClientHello, UnmarshalServerHello, MarshalServerHello, ClientHelloWellFormed,
         ServerHelloWellFormed, UnmarshalCertificate, MarshalCertificate, UnmarshalServerKeyExchange, MarshalServerKeyExchange,
         ServerKeyExchangeWellFormed, UnmarshalClientKeyExchange, UnmarshalCertificateRequest, UnmarshalCertificateVerify,
         UnmarshalHelloVerifyRequest, MarshalHelloVerifyRequest, Extension.WellFormed, SizeOfAll;
    match m
    case ClientHelloMessage(_) => HelloRoundTrip(m);
    case ServerHelloMessage(_) => HelloRoundTrip(m);
    case CertificateMessage(certificates) =>
      CertificateRoundTrip(certificates, []);
      assert MarshalCertificate(certificates) + [] == MarshalCertificate(certificates);
    case ServerKeyExchangeMessage(x) => ServerKeyExchangeRoundTrip(x);
    case CertificateRequestMessage(types, algorithms) => CertificateRequestRoundTrip(m);
    case CertificateVerifyMessage(algorithm, signature) => CertificateVerifyRoundTrip(m);
    case ClientKeyExchangeMessage(hint, key) => ClientKeyExchangeRoundTrip(hint, key);
    case _ => SmallBodyRoundTrip(m);
  }
}
