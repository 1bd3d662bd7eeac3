/** The seven hello extensions, and the loop that reads a block of extensions. Enumerations are
    their wire codes; reading maps a code nobody knows to the enumeration's `Unsupported` code. */
module Extensions {
  import opened Wrappers
  import opened Bytes
  import opened Readers

  const SERVER_NAME: U16 := 0
  const SUPPORTED_ELLIPTIC_CURVES: U16 := 10
  const SUPPORTED_POINT_FORMATS: U16 := 11
  const SUPPORTED_SIGNATURE_ALGORITHMS: U16 := 13
  const USE_SRTP: U16 := 14
  const USE_EXTENDED_MASTER_SECRET: U16 := 23
  const RENEGOTIATION_INFO: U16 := 65281

  const DNS_HOST_NAME: Byte := 0

  const UNSUPPORTED_CURVE: U16 := 0

  predicate KnownType(code: U16) {
    code in {SERVER_NAME, SUPPORTED_ELLIPTIC_CURVES, SUPPORTED_POINT_FORMATS, SUPPORTED_SIGNATURE_ALGORITHMS,
             USE_SRTP, USE_EXTENDED_MASTER_SECRET, RENEGOTIATION_INFO}
  }

  function NamedCurveOf(code: U16): U16 {
    if code in {0x17, 0x18, 0x1d} then code else UNSUPPORTED_CURVE
  }

  function SrtpProfileOf(code: U16): U16 {
    if code in {1, 2, 7, 8} then code else 9
  }

  function HashAlgorithmOf(code: Byte): Byte {
    if code in {0, 1, 2, 3, 4, 5, 6, 8} then code else 9
  }

  function SignatureAlgorithmOf(code: Byte): Byte {
    if code in {1, 3, 7} then code else 8
  }

  datatype SignatureHashAlgorithm = SignatureHashAlgorithm(hash: Byte, signature: Byte) {
    predicate Valid() {
      HashAlgorithmOf(hash) == hash && SignatureAlgorithmOf(signature) == signature
    }
  }

  function EncodeAlgorithms(algorithms: seq<SignatureHashAlgorithm>): (s: Bytes)
    ensures |s| == 2 * |algorithms|
  {
    if algorithms == [] then
      []
    else
      [algorithms[0].hash] + ([algorithms[0].signature] + EncodeAlgorithms(algorithms[1..]))
  }

  function TakeAlgorithms(s: Bytes, count: nat): Result<(seq<SignatureHashAlgorithm>, Bytes)> {
    if count == 0 then
      Ok(([], s))
    else
      var (first, s1) :- TakeAlgorithm(s);
      var (rest, s2) :- TakeAlgorithms(s1, count - 1);
      Ok(([first] + rest, s2))
  }

  function TakeAlgorithm(s: Bytes): Result<(SignatureHashAlgorithm, Bytes)> {
    var (hash, s1) :- TakeU8(s);
    var (signature, s2) :- TakeU8(s1);
    Ok((SignatureHashAlgorithm(HashAlgorithmOf(hash), SignatureAlgorithmOf(signature)), s2))
  }

  lemma TakeAlgorithmAfter(a: SignatureHashAlgorithm, rest: Bytes)
    requires a.Valid()
    ensures TakeAlgorithm([a.hash] + ([a.signature] + rest)) == Ok((a, rest))
  {
  }

  lemma {:induction false} TakeAlgorithmsAfter(algorithms: seq<SignatureHashAlgorithm>, rest: Bytes)
    requires forall a :: a in algorithms ==> a.Valid()
    ensures TakeAlgorithms(EncodeAlgorithms(algorithms) + rest, |algorithms|) == Ok((algorithms, rest))
  {
    hide TakeAlgorithm, SignatureHashAlgorithm.Valid;
    if algorithms == [] {
      assert EncodeAlgorithms(algorithms) + rest == rest;
    } else {
      assert algorithms[0] in algorithms;
      var tail := EncodeAlgorithms(algorithms[1..]) + rest;
      var a := algorithms[0];
      assert EncodeAlgorithms(algorithms) + rest == [a.hash] + ([a.signature] + tail);
      TakeAlgorithmAfter(a, tail);
      TakeAlgorithmsAfter(algorithms[1..], rest);
      assert [a] + algorithms[1..] == algorithms;
    }
  }

  function MapCodes(codes: seq<U16>, of: U16 -> U16): (r: seq<U16>)
    ensures |r| == |codes|
    ensures (forall i :: 0 <= i < |codes| ==> of(codes[i]) == codes[i]) ==> r == codes
  {
    if codes == [] then [] else [of(codes[0])] + MapCodes(codes[1..], of)
  }

  datatype Extension =
    | ServerName(name: Bytes)
    | SupportedEllipticCurves(curves: seq<U16>)
    | SupportedPointFormats(formats: Bytes)
    | SupportedSignatureAlgorithms(algorithms: seq<SignatureHashAlgorithm>)
    | UseSrtp(profiles: seq<U16>)
    | UseExtendedMasterSecret(supported: bool)
    | RenegotiationInfo(connection: Byte)
  {
    function ExtensionValue(): U16 {
      match this
      case ServerName(_) => SERVER_NAME
      case SupportedEllipticCurves(_) => SUPPORTED_ELLIPTIC_CURVES
      case SupportedPointFormats(_) => SUPPORTED_POINT_FORMATS
      case SupportedSignatureAlgorithms(_) => SUPPORTED_SIGNATURE_ALGORITHMS
      case UseSrtp(_) => USE_SRTP
      case UseExtendedMasterSecret(_) => USE_EXTENDED_MASTER_SECRET
      case RenegotiationInfo(_) => RENEGOTIATION_INFO
    }

    function Size(): nat {
      match this
      case ServerName(name) => 2 + (2 + 2 + 1 + 2 + |name|)
      case SupportedEllipticCurves(curves) => 2 + (2 + 2 + |curves| * 2)
      case SupportedPointFormats(formats) => 2 + (2 + 1 + |formats|)
      case SupportedSignatureAlgorithms(algorithms) => 2 + (2 + 2 + |algorithms| * 2)
      case UseSrtp(profiles) => 2 + (2 + 2 + |profiles| * 2 + 1)
      case UseExtendedMasterSecret(_) => 2 + 2
      case RenegotiationInfo(_) => 2 + 3
    }

    /** What the sixteen-bit length field announces. */
    function BodyLength(): nat {
      match this
      case ServerName(name) => 2 + 1 + 2 + |name|
      case SupportedEllipticCurves(curves) => 2 + 2 * |curves|
      case SupportedPointFormats(formats) => 1 + |formats|
      case SupportedSignatureAlgorithms(algorithms) => 2 + 2 * |algorithms|
      case UseSrtp(profiles) => 2 + 1 + 2 * |profiles|
      case UseExtendedMasterSecret(_) => 0
      case RenegotiationInfo(_) => 1
    }

    function Body(): Bytes {
      match this
      case ServerName(name) => EncodeU16(AsU16(1 + 2 + |name|)) + ([DNS_HOST_NAME] + (EncodeU16(AsU16(|name|)) + name))
      case SupportedEllipticCurves(curves) => EncodeU16(AsU16(2 * |curves|)) + EncodeU16s(curves)
      case SupportedPointFormats(formats) => [AsU8(|formats|)] + formats
      case SupportedSignatureAlgorithms(algorithms) =>
        EncodeU16(AsU16(2 * |algorithms|)) + EncodeAlgorithms(algorithms)
      case UseSrtp(profiles) => EncodeU16(AsU16(2 * |profiles|)) + (EncodeU16s(profiles) + [0])
      case UseExtendedMasterSecret(_) => []
      case RenegotiationInfo(connection) => [connection]
    }

    function Marshal(): Bytes {
      EncodeU16(ExtensionValue()) + (EncodeU16(AsU16(BodyLength())) + Body())
    }

    predicate WellFormed() {
      Size() < 0x1_0000
      && match this
         case ServerName(name) => IsUtf8(name)
         case SupportedEllipticCurves(curves) => forall i :: 0 <= i < |curves| ==> NamedCurveOf(curves[i]) == curves[i]
         case SupportedPointFormats(formats) => |formats| < 0x100
         case SupportedSignatureAlgorithms(algorithms) => forall a :: a in algorithms ==> a.Valid()
         case UseSrtp(profiles) => forall i :: 0 <= i < |profiles| ==> SrtpProfileOf(profiles[i]) == profiles[i]
         case UseExtendedMasterSecret(supported) => supported
         case RenegotiationInfo(_) => true
    }

    /** The reader may run past the announced body; nothing stops it at the body's end. */
    static function Unmarshal(s: Bytes): Result<Extension> {
      var (code, s1) :- TakeU16(s);
      if !KnownType(code) then
        Err(InvalidExtensionType)
      else
        var (length, s2) :- TakeU16(s1);
        UnmarshalBody(code, length, s2)
    }

    static function UnmarshalBody(code: U16, length: U16, s: Bytes): Result<Extension>
      requires KnownType(code)
    {
      if code == SERVER_NAME then
        UnmarshalServerName(s)
      else if code == SUPPORTED_ELLIPTIC_CURVES then
        var (n, s1) :- TakeU16(s);
        var (curves, _) :- TakeU16s(s1, n / 2);
        Ok(SupportedEllipticCurves(MapCodes(curves, c => NamedCurveOf(c))))
      else if code == SUPPORTED_POINT_FORMATS then
        var (n, s1) :- TakeU8(s);
        var (formats, _) :- TakeBytes(s1, n);
        Ok(SupportedPointFormats(formats))
      else if code == SUPPORTED_SIGNATURE_ALGORITHMS then
        var (n, s1) :- TakeU16(s);
        var (algorithms, _) :- TakeAlgorithms(s1, n / 2);
        Ok(SupportedSignatureAlgorithms(algorithms))
      else if code == USE_SRTP then
        UnmarshalUseSrtp(s)
      else if code == USE_EXTENDED_MASTER_SECRET then
        Ok(UseExtendedMasterSecret(true))
      else if length != 1 then
        Err(InvalidPacketLength)
      else
        var (connection, _) :- TakeU8(s);
        Ok(RenegotiationInfo(connection))
    }

    static function UnmarshalServerName(s: Bytes): Result<Extension> {
      var (_, s1) :- TakeU16(s);
      var (nameType, s2) :- TakeU8(s1);
      if nameType != DNS_HOST_NAME then
        Err(InvalidSniFormat)
      else
        var (n, s3) :- TakeU16(s2);
        var (name, _) :- TakeBytes(s3, n);
        if IsUtf8(name) then Ok(ServerName(name)) else Err(Utf8Error)
    }

    static function UnmarshalUseSrtp(s: Bytes): Result<Extension> {
      var (n, s1) :- TakeU16(s);
      var (profiles, s2) :- TakeU16s(s1, n / 2);
      var (_, _) :- TakeU8(s2);
      Ok(UseSrtp(MapCodes(profiles, p => SrtpProfileOf(p))))
    }
  }

  lemma MarshalledSize(e: Extension)
    ensures |e.Marshal()| == e.Size() == 4 + e.BodyLength() && |e.Body()| == e.BodyLength()
  {
  }

  lemma ExtensionRoundTrip(e: Extension, rest: Bytes)
    requires e.WellFormed()
    ensures Extension.Unmarshal(e.Marshal() + rest) == Ok(e)
  {
    hide Extension.Unmarshal, Extension.UnmarshalBody, Extension.Body, Extension.BodyLength, Extension.Size, EncodeU16;
    MarshalledSize(e);
    BodyRoundTrip(e, rest);
    HeaderRead(e.ExtensionValue(), e.BodyLength(), e.Body(), rest);
  }

  lemma HeaderRead(code: U16, length: U16, body: Bytes, rest: Bytes)
    requires KnownType(code)
    ensures Extension.Unmarshal(EncodeU16(code) + (EncodeU16(length) + body) + rest)
         == Extension.UnmarshalBody(code, length, body + rest)
  {
    var tail := EncodeU16(length) + (body + rest);
    assert EncodeU16(code) + (EncodeU16(length) + body) + rest == EncodeU16(code) + tail;
    TakeU16After(code, tail);
    TakeU16After(length, body + rest);
  }

  lemma BodyRoundTrip(e: Extension, rest: Bytes)
    requires e.WellFormed()
    ensures Extension.UnmarshalBody(e.ExtensionValue(), e.BodyLength(), e.Body() + rest) == Ok(e)
  {
    hide Extension.UnmarshalServerName, Extension.UnmarshalUseSrtp;
    match e
    case ServerName(name) => ServerNameRoundTrip(name, rest);
    case SupportedEllipticCurves(curves) => CurvesRoundTrip(curves, rest);
    case SupportedPointFormats(formats) => PointFormatsRoundTrip(formats, rest);
    case SupportedSignatureAlgorithms(algorithms) => AlgorithmsRoundTrip(algorithms, rest);
    case UseSrtp(profiles) => UseSrtpRoundTrip(profiles, rest);
    case UseExtendedMasterSecret(_) =>
    case RenegotiationInfo(connection) => TakeU8After(connection, rest);
  }

  lemma CurvesRoundTrip(curves: seq<U16>, rest: Bytes)
    requires SupportedEllipticCurves(curves).WellFormed()
    ensures var e := SupportedEllipticCurves(curves);
            Extension.UnmarshalBody(SUPPORTED_ELLIPTIC_CURVES, e.BodyLength(), e.Body() + rest) == Ok(e)
  {
    hide TakeU16, TakeU16s, EncodeU16s, EncodeU16;
    CountedRead(2 * |curves|, EncodeU16s(curves), rest);
    TakeU16sAfter(curves, rest);
  }

  lemma PointFormatsRoundTrip(formats: Bytes, rest: Bytes)
    requires SupportedPointFormats(formats).WellFormed()
    ensures var e := SupportedPointFormats(formats);
            Extension.UnmarshalBody(SUPPORTED_POINT_FORMATS, e.BodyLength(), e.Body() + rest) == Ok(e)
  {
    assert [|formats|] + formats + rest == [|formats|] + (formats + rest);
    TakeU8After(|formats|, formats + rest);
    TakeBytesAfter(formats, rest);
  }

  lemma AlgorithmsRoundTrip(algorithms: seq<SignatureHashAlgorithm>, rest: Bytes)
    requires SupportedSignatureAlgorithms(algorithms).WellFormed()
    ensures var e := SupportedSignatureAlgorithms(algorithms);
            Extension.UnmarshalBody(SUPPORTED_SIGNATURE_ALGORITHMS, e.BodyLength(), e.Body() + rest) == Ok(e)
  {
    hide TakeU16, TakeAlgorithms, EncodeAlgorithms, SignatureHashAlgorithm.Valid;
    CountedRead(2 * |algorithms|, EncodeAlgorithms(algorithms), rest);
    TakeAlgorithmsAfter(algorithms, rest);
  }

  lemma CountedRead(n: U16, body: Bytes, rest: Bytes)
    ensures TakeU16(EncodeU16(n) + body + rest) == Ok((n, body + rest))
  {
    assert EncodeU16(n) + body + rest == EncodeU16(n) + (body + rest);
    TakeU16After(n, body + rest);
  }

  lemma ServerNameParts(name: Bytes, rest: Bytes)
    requires |name| + 3 < 0x1_0000
    ensures ServerName(name).Body() + rest
         == EncodeU16(3 + |name|) + ([DNS_HOST_NAME] + (EncodeU16(|name|) + (name + rest)))
  {
    hide EncodeU16, EncodeAlgorithms, EncodeU16s;
  }

  lemma ServerNameRoundTrip(name: Bytes, rest: Bytes)
    requires ServerName(name).WellFormed()
    ensures Extension.UnmarshalServerName(ServerName(name).Body() + rest) == Ok(ServerName(name))
  {
    hide EncodeU16, TakeU8, TakeU16, TakeBytes, IsUtf8, Extension.Body;
    var n: U16 := |name|;
    var s2 := EncodeU16(n) + (name + rest);
    var s1 := [DNS_HOST_NAME] + s2;
    ServerNameParts(name, rest);
    TakeU16After(3 + n, s1);
    TakeU8After(DNS_HOST_NAME, s2);
    TakeU16After(n, name + rest);
    TakeBytesAfter(name, rest);
  }

  lemma UseSrtpRoundTrip(profiles: seq<U16>, rest: Bytes)
    requires UseSrtp(profiles).WellFormed()
    ensures Extension.UnmarshalUseSrtp(UseSrtp(profiles).Body() + rest) == Ok(UseSrtp(profiles))
  {
    hide TakeU8, TakeU16, TakeU16s, EncodeU16s, EncodeU16;
    var n := 2 * |profiles|;
    var tail := [0] + rest;
    assert UseSrtp(profiles).Body() + rest == EncodeU16(n) + (EncodeU16s(profiles) + tail);
    TakeU16After(n, EncodeU16s(profiles) + tail);
    TakeU16sAfter(profiles, tail);
    TakeU8After(0, rest);
  }

  // Blocks of extensions

  function MarshalAll(extensions: seq<Extension>): Bytes {
    if extensions == [] then [] else extensions[0].Marshal() + MarshalAll(extensions[1..])
  }

  function SizeOfAll(extensions: seq<Extension>): nat {
    if extensions == [] then 0 else extensions[0].Size() + SizeOfAll(extensions[1..])
  }

  ghost predicate AllWellFormed(extensions: seq<Extension>) {
    forall e :: e in extensions ==> e.WellFormed()
  }

  function From(buffer: Bytes, offset: nat): Bytes {
    if offset < |buffer| then buffer[offset..] else []
  }

  function Extended(extensions: seq<Extension>, more: Result<seq<Extension>>): Result<seq<Extension>> {
    if more.Ok? then Ok(extensions + more.value) else more
  }

  function Found(s: Bytes): seq<Extension> {
    var e := Extension.Unmarshal(s);
    if e.Ok? then [e.value] else []
  }

  /** The extensions found in `buffer`. An extension that cannot be read is skipped by its
      announced length. Reading a type or a length beyond the end of the buffer, where the
      source panics, is the error BufferTooSmall. */
  function ParsedBlock(buffer: Bytes): Result<seq<Extension>>
    decreases |buffer|
  {
    if buffer == [] then
      Ok([])
    else if |buffer| < 4 then
      Err(BufferTooSmall)
    else
      Extended(Found(buffer), ParsedBlock(From(buffer, 4 + ReadU16(buffer, 2))))
  }

  method UnmarshalBlock(buffer: Bytes) returns (r: Result<seq<Extension>>)
    ensures r == ParsedBlock(buffer)
  {
    hide Extension.Unmarshal, ParsedBlock, From, Extended, ReadU16;
    var extensions: seq<Extension> := [];
    var offset := 0;
    BlockStart(buffer);
    while offset < |buffer|
      invariant ParsedBlock(buffer) == Extended(extensions, ParsedBlock(From(buffer, offset)))
      decreases |buffer| - offset
    {
      ghost var here := From(buffer, offset);
      FromFrom(buffer, offset, 0);
      if |buffer| - offset < 4 {
        BlockTooShort(here, extensions);
        return Err(BufferTooSmall);
      }
      BlockStep(here, extensions);
      var extension := Extension.Unmarshal(buffer[offset..]);
      if extension.Ok? {
        extensions := extensions + [extension.value];
      } else {
        assert extensions + [] == extensions;
      }
      var extensionLen: nat := ReadU16(buffer, offset + 2);
      FromFrom(buffer, offset, 4 + extensionLen);
      offset := offset + (4 + extensionLen);
    }
    BlockEnd(buffer, offset, extensions);
    return Ok(extensions);
  }

  lemma BlockStart(buffer: Bytes)
    ensures ParsedBlock(buffer) == Extended([], ParsedBlock(From(buffer, 0)))
  {
    hide ParsedBlock;
    assert From(buffer, 0) == buffer;
    var all := ParsedBlock(buffer);
    assert all.Ok? ==> [] + all.value == all.value;
  }

  lemma BlockTooShort(here: Bytes, extensions: seq<Extension>)
    requires 0 < |here| < 4
    ensures Extended(extensions, ParsedBlock(here)) == Err(BufferTooSmall)
  {
  }

  lemma BlockEnd(buffer: Bytes, offset: nat, extensions: seq<Extension>)
    requires offset >= |buffer|
    ensures Extended(extensions, ParsedBlock(From(buffer, offset))) == Ok(extensions)
  {
    assert extensions + [] == extensions;
  }

  lemma BlockStep(here: Bytes, extensions: seq<Extension>)
    requires |here| >= 4
    ensures Extended(extensions, ParsedBlock(here))
         == Extended(extensions + Found(here), ParsedBlock(From(here, 4 + ReadU16(here, 2))))
  {
    hide Found, Extended;
    var more := ParsedBlock(From(here, 4 + ReadU16(here, 2)));
    ExtendedTwice(extensions, Found(here), more);
  }

  lemma FromFrom(buffer: Bytes, offset: nat, n: nat)
    requires offset < |buffer|
    ensures From(From(buffer, offset), n) == From(buffer, offset + n)
    ensures From(buffer, offset) == buffer[offset..]
    ensures |buffer| - offset >= 4 ==> ReadU16(buffer[offset..], 2) == ReadU16(buffer, offset + 2)
  {
  }

  lemma ExtendedTwice(a: seq<Extension>, b: seq<Extension>, more: Result<seq<Extension>>)
    ensures Extended(a, Extended(b, more)) == Extended(a + b, more)
  {
    assert more.Ok? ==> a + (b + more.value) == a + b + more.value;
  }

  method ExtensionsSize(extensions: seq<Extension>) returns (len: nat)
    ensures len == |MarshalAll(extensions)|
  {
    len := 0;
    for i := 0 to |extensions|
      invariant len + |MarshalAll(extensions[i..])| == |MarshalAll(extensions)|
    {
      MarshalledSize(extensions[i]);
      assert extensions[i..][1..] == extensions[i + 1..];
      len := len + extensions[i].Size();
    }
  }

  lemma {:induction false} MarshalledSizeOfAll(extensions: seq<Extension>)
    ensures |MarshalAll(extensions)| == SizeOfAll(extensions)
  {
    if extensions != [] {
      MarshalledSize(extensions[0]);
      MarshalledSizeOfAll(extensions[1..]);
    }
  }

  /** One extension of a type the reader does not know, with any body. */
  function UnknownExtension(code: U16, body: Bytes): Bytes {
    EncodeU16(code) + (EncodeU16(AsU16(|body|)) + body)
  }

  lemma StepOver(code: U16, length: U16, body: Bytes, rest: Bytes)
    requires |body| == length
    ensures var buffer := EncodeU16(code) + (EncodeU16(length) + body) + rest;
            ParsedBlock(buffer) == Extended(Found(buffer), ParsedBlock(rest))
  {
    hide Extension.Unmarshal, Found, Extended;
    var buffer := EncodeU16(code) + (EncodeU16(length) + body) + rest;
    assert buffer[2..4] == EncodeU16(length);
    assert ReadU16(buffer, 2) == ReadU16(buffer[2..4], 0);
    assert From(buffer, 4 + length as int) == rest;
  }

  lemma StepKnown(e: Extension, rest: Bytes)
    requires e.WellFormed() && ParsedBlock(rest).Ok?
    ensures ParsedBlock(e.Marshal() + rest) == Ok([e] + ParsedBlock(rest).value)
  {
    hide Extension.Unmarshal, Extension.Body, Extension.BodyLength, ParsedBlock;
    MarshalledSize(e);
    ExtensionRoundTrip(e, rest);
    StepOver(e.ExtensionValue(), e.BodyLength(), e.Body(), rest);
  }

  lemma StepUnknown(code: U16, body: Bytes, rest: Bytes)
    requires !KnownType(code) && |body| < 0x1_0000 && ParsedBlock(rest).Ok?
    ensures ParsedBlock(UnknownExtension(code, body) + rest) == ParsedBlock(rest)
  {
    hide ParsedBlock;
    var length: U16 := |body|;
    var tail := EncodeU16(length) + (body + rest);
    assert UnknownExtension(code, body) + rest == EncodeU16(code) + tail;
    TakeU16After(code, tail);
    StepOver(code, length, body, rest);
    assert [] + ParsedBlock(rest).value == ParsedBlock(rest).value;
  }

  lemma {:induction false} BlockRoundTrip(extensions: seq<Extension>, rest: Bytes)
    requires AllWellFormed(extensions) && ParsedBlock(rest).Ok?
    ensures ParsedBlock(MarshalAll(extensions) + rest) == Ok(extensions + ParsedBlock(rest).value)
  {
    hide Extension.Marshal, Extension.WellFormed, ParsedBlock;
    if extensions == [] {
      assert MarshalAll(extensions) + rest == rest;
      assert extensions + ParsedBlock(rest).value == ParsedBlock(rest).value;
    } else {
      var first, others := extensions[0], extensions[1..];
      assert first in extensions;
      assert AllWellFormed(others) by {
        forall e | e in others ensures e.WellFormed() { assert e in extensions; }
      }
      BlockRoundTrip(others, rest);
      StepKnown(first, MarshalAll(others) + rest);
      BlockCons(first, others, rest);
      assert [first] + (others + ParsedBlock(rest).value) == extensions + ParsedBlock(rest).value;
    }
  }

  lemma BlockCons(first: Extension, others: seq<Extension>, rest: Bytes)
    ensures MarshalAll([first] + others) + rest == first.Marshal() + (MarshalAll(others) + rest)
  {
    assert ([first] + others)[1..] == others;
  }

  lemma EmptyBlock()
    ensures ParsedBlock([]) == Ok([])
  {
  }

  /** An extension of unknown type between any two others changes nothing that is read. */
  lemma UnknownExtensionIgnored(before: seq<Extension>, code: U16, body: Bytes, after: seq<Extension>)
    requires AllWellFormed(before + after) && !KnownType(code) && |body| < 0x1_0000
    ensures ParsedBlock(MarshalAll(before) + UnknownExtension(code, body) + MarshalAll(after)) == Ok(before + after)
    ensures ParsedBlock(MarshalAll(before + after)) == Ok(before + after)
  {
    hide ParsedBlock, Extension.WellFormed, MarshalAll, UnknownExtension;
    EmptyBlock();
    assert forall e :: e in before ==> e in before + after;
    assert forall e :: e in after ==> e in before + after;
    BlockRoundTrip(after, []);
    assert MarshalAll(after) + [] == MarshalAll(after);
    assert after + [] == after;
    StepUnknown(code, body, MarshalAll(after));
    BlockRoundTrip(before, UnknownExtension(code, body) + MarshalAll(after));
    assert MarshalAll(before) + UnknownExtension(code, body) + MarshalAll(after)
        == MarshalAll(before) + (UnknownExtension(code, body) + MarshalAll(after));
    BlockRoundTrip(before + after, []);
    assert MarshalAll(before + after) + [] == MarshalAll(before + after);
    assert before + after + [] == before + after;
  }
}
