/** The headers and the two hellos as they are written and read: field after field, through a writer
    and a reader. */
module Codecs {
  import opened Wrappers
  import opened Bytes
  import opened Readers
  import opened Headers
  import opened Extensions
  import opened Messages

  class ByteWriter {
    var written: Bytes

    constructor ()
      ensures written == []
    {
      written := [];
    }

    method WriteU8(v: Byte)
      modifies this
      ensures written == old(written) + [v]
    {
      written := written + [v];
    }

    method WriteU16(v: U16)
      modifies this
      ensures written == old(written) + EncodeU16(v)
    {
      written := written + EncodeU16(v);
    }

    method WriteU24(v: U24)
      modifies this
      ensures written == old(written) + EncodeU24(v)
    {
      written := written + EncodeU24(v);
    }

    method WriteAll(b: Bytes)
      modifies this
      ensures written == old(written) + b
    {
      written := written + b;
    }
  }

  /** `rest` is what has not been read yet. A read that fails is the last one. */
  class ByteReader {
    var rest: Bytes

    constructor (s: Bytes)
      ensures rest == s
    {
      rest := s;
    }

    method NextU8() returns (r: Result<Byte>)
      modifies this
      ensures match TakeU8(old(rest)) case Err(error) => r == Err(error) case Ok((v, left)) => r == Ok(v) && rest == left
    {
      if |rest| < 1 {
        return Err(UnexpectedEof);
      }
      r := Ok(rest[0]);
      rest := rest[1..];
    }

    method NextU16() returns (r: Result<U16>)
      modifies this
      ensures match TakeU16(old(rest)) case Err(error) => r == Err(error) case Ok((v, left)) => r == Ok(v) && rest == left
    {
      if |rest| < 2 {
        return Err(UnexpectedEof);
      }
      r := Ok(ReadU16(rest, 0));
      rest := rest[2..];
    }

    method NextU24() returns (r: Result<U24>)
      modifies this
      ensures match TakeU24(old(rest)) case Err(error) => r == Err(error) case Ok((v, left)) => r == Ok(v) && rest == left
    {
      if |rest| < 3 {
        return Err(UnexpectedEof);
      }
      r := Ok(ReadU24(rest, 0));
      rest := rest[3..];
    }

    method NextBytes(n: nat) returns (r: Result<Bytes>)
      modifies this
      ensures match TakeBytes(old(rest), n) case Err(error) => r == Err(error) case Ok((b, left)) => r == Ok(b) && rest == left
    {
      if |rest| < n {
        return Err(UnexpectedEof);
      }
      r := Ok(rest[..n]);
      rest := rest[n..];
    }
  }

  // Headers

  method WriteRecordLayerHeader(h: RecordLayerHeader, writer: ByteWriter)
    modifies writer
    ensures writer.written == old(writer.written) + h.Marshal()
  {
    writer.WriteU8(h.contentType.Code());
    writer.WriteU8(h.protocolVersion.major);
    writer.WriteU8(h.protocolVersion.minor);
    writer.WriteU16(h.epoch);
    writer.WriteAll(EncodeU48(h.sequenceNumber));
    writer.WriteU16(h.contentLen);
  }

  method ReadRecordLayerHeader(s: Bytes) returns (r: Result<RecordLayerHeader>)
    ensures r == RecordLayerHeader.Unmarshal(s)
  {
    var reader := new ByteReader(s);
    var contentType :- reader.NextU8();
    var major :- reader.NextU8();
    var minor :- reader.NextU8();
    var epoch :- reader.NextU16();
    var be :- reader.NextBytes(6);
    var sequenceNumber := ReadU48(be, 0);
    var version := ProtocolVersion(major, minor);
    if version != PROTOCOL_VERSION1_0 && version != PROTOCOL_VERSION1_2 {
      return Err(Error.UnsupportedProtocolVersion);
    }
    var contentLen :- reader.NextU16();
    return Ok(RecordLayerHeader(ContentTypeOf(contentType), version, epoch, sequenceNumber, contentLen));
  }

  method WriteHandshakeHeader(h: HandshakeHeader, writer: ByteWriter)
    modifies writer
    ensures writer.written == old(writer.written) + h.Marshal()
  {
    writer.WriteU8(h.handshakeType.Code());
    writer.WriteU24(h.length);
    writer.WriteU16(h.messageSequence);
    writer.WriteU24(h.fragmentOffset);
    writer.WriteU24(h.fragmentLength);
  }

  method ReadHandshakeHeader(s: Bytes) returns (r: Result<HandshakeHeader>)
    ensures r == HandshakeHeader.Unmarshal(s)
  {
    var reader := new ByteReader(s);
    var handshakeType :- reader.NextU8();
    var length :- reader.NextU24();
    var messageSequence :- reader.NextU16();
    var fragmentOffset :- reader.NextU24();
    var fragmentLength :- reader.NextU24();
    return Ok(HandshakeHeader(HandshakeTypeOf(handshakeType), length, messageSequence, fragmentOffset, fragmentLength));
  }

  // What both hellos share

  method WriteOpening(version: ProtocolVersion, random: HandshakeRandom, writer: ByteWriter)
    requires random.Valid()
    modifies writer
    ensures writer.written == old(writer.written) + Opening(version, random)
  {
    writer.WriteU8(version.major);
    writer.WriteU8(version.minor);
    writer.WriteAll(random.Marshal());
  }

  method ReadOpening(reader: ByteReader) returns (r: Result<(ProtocolVersion, HandshakeRandom)>)
    modifies reader
    ensures match TakeOpening(old(reader.rest))
            case Err(error) => r == Err(error)
            case Ok((version, random, left)) => r == Ok((version, random)) && reader.rest == left
  {
    var major :- reader.NextU8();
    var minor :- reader.NextU8();
    var high :- reader.NextU16();
    var low :- reader.NextU16();
    var randomBytes :- reader.NextBytes(RANDOM_BYTES_LENGTH);
    return Ok((ProtocolVersion(major, minor), HandshakeRandom(high as int * 0x1_0000 + low as int, 0, randomBytes)));
  }

  method WriteExtensions(extensions: seq<Extension>, writer: ByteWriter)
    modifies writer
    ensures writer.written == old(writer.written) + ExtensionBlock(extensions)
  {
    hide Extension.Marshal;
    var buffer := [];
    assert extensions[0..] == extensions;
    for i := 0 to |extensions|
      invariant buffer + MarshalAll(extensions[i..]) == MarshalAll(extensions)
      invariant writer.written == old(writer.written)
    {
      assert extensions[i..][0] == extensions[i] && extensions[i..][1..] == extensions[i + 1..];
      buffer := buffer + extensions[i].Marshal();
    }
    writer.WriteU16(AsU16(|buffer|));
    writer.WriteAll(buffer);
  }

  method ReadExtensionBlock(reader: ByteReader) returns (r: Result<seq<Extension>>)
    modifies reader
    ensures r == TakeExtensionBlock(old(reader.rest))
  {
    hide ParsedBlock;
    var length :- reader.NextU16();
    var buffer :- reader.NextBytes(length);
    r := UnmarshalBlock(buffer);
  }

  // ClientHello

  method WriteClientHello(m: ClientHelloBody, writer: ByteWriter) returns (r: Result<()>)
    requires m.random.Valid()
    modifies writer
    ensures match MarshalClientHello(m)
            case Err(error) => r == Err(error) && writer.written == old(writer.written)
            case Ok(bytes) => r == Ok(()) && writer.written == old(writer.written) + bytes
  {
    hide Opening, ExtensionBlock, EncodeU16s;
    if |m.cookie| > 255 {
      return Err(CookieTooLong);
    }
    ghost var start := writer.written;
    WriteOpening(m.version, m.random, writer);
    // The session identifier is empty.
    writer.WriteU8(0);
    writer.WriteU8(AsU8(|m.cookie|));
    writer.WriteAll(m.cookie);
    WriteSuites(m.cipherSuites, writer);
    writer.WriteU8(AsU8(|m.compressionMethods|));
    writer.WriteAll(m.compressionMethods);
    WriteExtensions(m.extensions, writer);
    ghost var compression, block := [AsU8(|m.compressionMethods|)] + m.compressionMethods, ExtensionBlock(m.extensions);
    ghost var cookie := [AsU8(|m.cookie|)] + m.cookie;
    assert writer.written
        == start + (Opening(m.version, m.random) + ([0] + (cookie + (Suites(m.cipherSuites) + (compression + block)))));
    return Ok(());
  }

  method WriteSuites(suites: seq<U16>, writer: ByteWriter)
    modifies writer
    ensures writer.written == old(writer.written) + Suites(suites)
  {
    hide EncodeU16;
    ghost var count := EncodeU16(AsU16(2 * |suites|));
    ghost var before := writer.written;
    writer.WriteU16(AsU16(2 * |suites|));
    ghost var start := writer.written;
    assert suites[0..] == suites;
    for i := 0 to |suites|
      invariant writer.written + EncodeU16s(suites[i..]) == start + EncodeU16s(suites)
    {
      assert suites[i..][0] == suites[i] && suites[i..][1..] == suites[i + 1..];
      writer.WriteU16(suites[i]);
    }
    assert suites[|suites|..] == [] && before + count + EncodeU16s(suites) == before + (count + EncodeU16s(suites));
  }

  /** The session identifier's length is read, but not the identifier. */
  method ReadClientHello(s: Bytes) returns (r: Result<ClientHelloBody>)
    ensures r == UnmarshalClientHello(s)
  {
    hide TakeOpening, TakeExtensionBlock, TakeU8, TakeU16, TakeBytes, TakeSuites;
    var reader := new ByteReader(s);
    var opening :- ReadOpening(reader);
    var _ :- reader.NextU8();
    var cookieLen :- reader.NextU8();
    var cookie :- reader.NextBytes(cookieLen);
    var suites :- ReadSuites(reader);
    var idsLen :- reader.NextU8();
    var ids :- reader.NextBytes(idsLen);
    var extensions :- ReadExtensionBlock(reader);
    return Ok(ClientHelloBody(opening.0, opening.1, cookie, suites, KnownCompression(ids), extensions));
  }

  method ReadSuites(reader: ByteReader) returns (r: Result<seq<U16>>)
    modifies reader
    ensures match TakeSuites(old(reader.rest))
            case Err(error) => r == Err(error)
            case Ok((suites, left)) => r == Ok(suites) && reader.rest == left
  {
    hide CipherSuiteOf, TakeU16;
    var length :- reader.NextU16();
    var count := length / 2;
    var codes: seq<U16> := [];
    var suites: seq<U16> := [];
    ghost var all := TakeU16s(reader.rest, count);
    assert all.Ok? ==> [] + all.value.0 == all.value.0;
    for i := 0 to count
      invariant suites == MapCodes(codes, c => CipherSuiteOf(c))
      invariant all == var more := TakeU16s(reader.rest, count - i);
                       if more.Ok? then Ok((codes + more.value.0, more.value.1)) else more
    {
      ghost var more := TakeU16s(reader.rest, count - i);
      var id := reader.NextU16();
      if id.Err? {
        return Err(id.error);
      }
      ghost var rest := TakeU16s(reader.rest, count - i - 1);
      assert rest.Ok? ==> codes + ([id.value] + rest.value.0) == codes + [id.value] + rest.value.0;
      MapCodesSnoc(codes, id.value, c => CipherSuiteOf(c));
      codes := codes + [id.value];
      suites := suites + [CipherSuiteOf(id.value)];
    }
    assert codes + [] == codes;
    return Ok(suites);
  }

  lemma {:induction false} MapCodesSnoc(codes: seq<U16>, code: U16, of: U16 -> U16)
    ensures MapCodes(codes + [code], of) == MapCodes(codes, of) + [of(code)]
  {
    if codes == [] {
      assert [code][1..] == [];
    } else {
      assert (codes + [code])[1..] == codes[1..] + [code];
      MapCodesSnoc(codes[1..], code, of);
    }
  }

  // ServerHello

  method WriteServerHello(m: ServerHelloBody, writer: ByteWriter)
    requires m.random.Valid()
    modifies writer
    ensures writer.written == old(writer.written) + MarshalServerHello(m)
  {
    hide Opening, ExtensionBlock;
    ghost var start := writer.written;
    WriteOpening(m.version, m.random, writer);
    writer.WriteU8(0);
    writer.WriteU16(m.cipherSuite);
    writer.WriteU8(m.compressionMethod);
    WriteExtensions(m.extensions, writer);
    assert writer.written
        == start + (Opening(m.version, m.random)
                    + ([0] + (EncodeU16(m.cipherSuite) + ([m.compressionMethod] + ExtensionBlock(m.extensions)))));
  }

  method ReadServerHello(s: Bytes) returns (r: Result<ServerHelloBody>)
    ensures r == UnmarshalServerHello(s)
  {
    hide TakeOpening, TakeExtensionBlock, TakeU8, TakeU16, TakeBytes;
    var reader := new ByteReader(s);
    var opening :- ReadOpening(reader);
    var sessionIdLen :- reader.NextU8();
    var _ :- reader.NextBytes(sessionIdLen);
    var cipherSuite :- reader.NextU16();
    var compressionMethod :- reader.NextU8();
    var extensions :- ReadExtensionBlock(reader);
    return Ok(ServerHelloBody(opening.0, opening.1, CipherSuiteOf(cipherSuite), CompressionOf(compressionMethod), extensions));
  }

  // Key exchanges

  method WriteServerKeyExchange(m: ServerKeyExchangeBody, writer: ByteWriter)
    modifies writer
    ensures writer.written == old(writer.written) + MarshalServerKeyExchange(m)
  {
    if m.identityHint != [] {
      writer.WriteU16(AsU16(|m.identityHint|));
      writer.WriteAll(m.identityHint);
      return;
    }
    ghost var start := writer.written;
    writer.WriteU8(m.curveType);
    writer.WriteU16(m.namedCurve);
    writer.WriteU8(AsU8(|m.publicKey|));
    writer.WriteAll(m.publicKey);
    writer.WriteU8(m.algorithm.hash);
    writer.WriteU8(m.algorithm.signature);
    writer.WriteU16(AsU16(|m.signature|));
    writer.WriteAll(m.signature);
    assert writer.written
        == start + ([m.curveType] + (EncodeU16(m.namedCurve) + ([AsU8(|m.publicKey|)] + (m.publicKey
                 + ([m.algorithm.hash] + ([m.algorithm.signature] + (EncodeU16(AsU16(|m.signature|)) + m.signature)))))));
  }

  /** Every length is checked just before the field behind it is read. */
  method ReadServerKeyExchange(data: Bytes) returns (r: Result<ServerKeyExchangeBody>)
    ensures r == UnmarshalServerKeyExchange(data)
  {
    if |data| < 2 {
      return Err(BufferTooSmall);
    }
    if |data| == ReadU16(data, 0) + 2 {
      return Ok(ServerKeyExchangeBody(data[2..], UNSUPPORTED_CURVE_TYPE, UNSUPPORTED_CURVE, [], UNSUPPORTED_ALGORITHM, []));
    }
    var curveType := CurveTypeOf(data[0]);
    if |data[1..]| < 2 {
      return Err(BufferTooSmall);
    }
    var namedCurve := NamedCurveOf(ReadU16(data, 1));
    if |data| < 4 {
      return Err(BufferTooSmall);
    }
    var offset: nat := 4 + data[3] as int;
    if |data| < offset {
      return Err(BufferTooSmall);
    }
    var publicKey := data[4..offset];
    if |data| <= offset {
      return Err(BufferTooSmall);
    }
    var hash := HashAlgorithmOf(data[offset]);
    offset := offset + 1;
    if |data| <= offset {
      return Err(BufferTooSmall);
    }
    var signatureAlgorithm := SignatureAlgorithmOf(data[offset]);
    offset := offset + 1;
    if |data| < offset + 2 {
      return Err(BufferTooSmall);
    }
    var signatureLength: nat := ReadU16(data, offset);
    offset := offset + 2;
    if |data| < offset + signatureLength {
      return Err(BufferTooSmall);
    }
    var signature := data[offset..offset + signatureLength];
    return Ok(ServerKeyExchangeBody([], curveType, namedCurve, publicKey, SignatureHashAlgorithm(hash, signatureAlgorithm), signature));
  }
}
