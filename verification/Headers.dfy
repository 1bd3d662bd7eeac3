/** The 13-byte record header and the 12-byte handshake header. */
module Headers {
  import opened Wrappers
  import opened Bytes

  const RECORD_LAYER_HEADER_SIZE := 13

  const HANDSHAKE_HEADER_LENGTH := 12

  const MAX_SEQUENCE_NUMBER := 0xFFFF_FFFF_FFFF

  datatype ProtocolVersion = ProtocolVersion(major: Byte, minor: Byte)

  const PROTOCOL_VERSION1_0 := ProtocolVersion(0xfe, 0xff)

  const PROTOCOL_VERSION1_2 := ProtocolVersion(0xfe, 0xfd)

  datatype ContentType = ChangeCipherSpec | Alert | Handshake | ApplicationData | Invalid {

    /** The discriminant that is written on the wire; `Invalid` follows `ApplicationData`. */
    function Code(): Byte {
      match this
      case ChangeCipherSpec => 20
      case Alert => 21
      case Handshake => 22
      case ApplicationData => 23
      case Invalid => 24
    }
  }

  function ContentTypeOf(code: Byte): (t: ContentType)
    ensures t != Invalid <==> t.Code() == code && code != 24
  {
    match code
    case 20 => ChangeCipherSpec
    case 21 => Alert
    case 22 => Handshake
    case 23 => ApplicationData
    case _ => Invalid
  }

  datatype HandshakeType =
    | HelloRequest
    | ClientHello
    | ServerHello
    | HelloVerifyRequest
    | Certificate
    | ServerKeyExchange
    | CertificateRequest
    | ServerHelloDone
    | CertificateVerify
    | ClientKeyExchange
    | Finished
    | InvalidType
  {
    function Code(): Byte {
      match this
      case HelloRequest => 0
      case ClientHello => 1
      case ServerHello => 2
      case HelloVerifyRequest => 3
      case Certificate => 11
      case ServerKeyExchange => 12
      case CertificateRequest => 13
      case ServerHelloDone => 14
      case CertificateVerify => 15
      case ClientKeyExchange => 16
      case Finished => 20
      case InvalidType => 21
    }
  }

  function HandshakeTypeOf(code: Byte): (t: HandshakeType)
    ensures t != InvalidType <==> t.Code() == code && code != 21
  {
    match code
    case 0 => HelloRequest
    case 1 => ClientHello
    case 2 => ServerHello
    case 3 => HelloVerifyRequest
    case 11 => Certificate
    case 12 => ServerKeyExchange
    case 13 => CertificateRequest
    case 14 => ServerHelloDone
    case 15 => CertificateVerify
    case 16 => ClientKeyExchange
    case 20 => Finished
    case _ => InvalidType
  }

  datatype RecordLayerHeader = RecordLayerHeader(
    contentType: ContentType,
    protocolVersion: ProtocolVersion,
    epoch: U16,
    sequenceNumber: U48,
    contentLen: U16)
  {
    predicate SupportedVersion() {
      protocolVersion == PROTOCOL_VERSION1_0 || protocolVersion == PROTOCOL_VERSION1_2
    }

    function Marshal(): (s: Bytes)
      ensures |s| == RECORD_LAYER_HEADER_SIZE
    {
      [contentType.Code(), protocolVersion.major, protocolVersion.minor]
      + EncodeU16(epoch) + EncodeU48(sequenceNumber) + EncodeU16(contentLen)
    }

    /** Fields are read in order, so a short input is reported before a bad version only when
        it ends before the sequence number does. */
    static function Unmarshal(s: Bytes): Result<RecordLayerHeader> {
      if |s| < 11 then
        Err(UnexpectedEof)
      else
        var version := ProtocolVersion(s[1], s[2]);
        if version != PROTOCOL_VERSION1_0 && version != PROTOCOL_VERSION1_2 then
          Err(Error.UnsupportedProtocolVersion)
        else if |s| < 13 then
          Err(UnexpectedEof)
        else
          Ok(RecordLayerHeader(ContentTypeOf(s[0]), version, ReadU16(s, 3), ReadU48(s, 5), ReadU16(s, 11)))
    }
  }

  datatype HandshakeHeader = HandshakeHeader(
    handshakeType: HandshakeType,
    length: U24,
    messageSequence: U16,
    fragmentOffset: U24,
    fragmentLength: U24)
  {
    function Marshal(): (s: Bytes)
      ensures |s| == HANDSHAKE_HEADER_LENGTH
    {
      [handshakeType.Code()] + EncodeU24(length) + EncodeU16(messageSequence)
      + EncodeU24(fragmentOffset) + EncodeU24(fragmentLength)
    }

    static function Unmarshal(s: Bytes): Result<HandshakeHeader> {
      if |s| < HANDSHAKE_HEADER_LENGTH then
        Err(UnexpectedEof)
      else
        Ok(HandshakeHeader(HandshakeTypeOf(s[0]), ReadU24(s, 1), ReadU16(s, 4), ReadU24(s, 6), ReadU24(s, 9)))
    }
  }

  /** Reading back what was written, whatever follows the header in the buffer. */
  lemma RecordHeaderRoundTrip(h: RecordLayerHeader, rest: Bytes)
    requires h.SupportedVersion()
    ensures RecordLayerHeader.Unmarshal(h.Marshal() + rest) == Ok(h)
  {
  }

  /** The same for the handshake header. */
  lemma HandshakeHeaderRoundTrip(h: HandshakeHeader, rest: Bytes)
    ensures HandshakeHeader.Unmarshal(h.Marshal() + rest) == Ok(h)
  {
  }
}
