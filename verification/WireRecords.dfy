/** What an honest peer's records look like on the wire, and what the reader makes of each. */
module WireRecords {
  import opened Wrappers
  import opened Bytes
  import opened Headers
  import opened Handshakes
  import opened Framing
  import opened Fragmenting
  import opened FragmentBuffers
  import opened CipherSuites
  import opened Reading
  import opened Reassembly
  import opened IncomingRecords

  // RFC 5246, section 6.2.1
  const MAX_PLAINTEXT := 0x4000

  /** How many bytes a record may have before protection. */
  function RecordLimit(mtu: Mtu): nat {
    RECORD_LAYER_HEADER_SIZE + if HANDSHAKE_HEADER_LENGTH + mtu > MAX_PLAINTEXT then HANDSHAKE_HEADER_LENGTH + mtu else MAX_PLAINTEXT
  }

  /** `record` carries piece `p` of `m`, protected unless the message belongs to epoch 0. */
  ghost predicate FragmentRecord(record: Bytes, m: SentMessage, mtu: Mtu, sealer: CipherSuite, p: Piece, header: RecordLayerHeader) {
    p in Pieces(m.h.content, mtu) && PieceOf(m.h.content, p)
    && header.contentType == ContentType.Handshake && header.epoch == m.epoch && header.SupportedVersion()
    && header.contentLen == (HANDSHAKE_HEADER_LENGTH + |p.data|) % 0x1_0000
    && Sealed(Some(sealer), m.epoch != 0, header, header.Marshal() + FragmentBytes(m.h, p)) == Ok(record)
  }

  predicate OtherRecord(record: Bytes) {
    |record| >= RECORD_LAYER_HEADER_SIZE && ContentTypeOf(record[0]) != ContentType.Handshake
  }

  ghost predicate WireRecord(record: Bytes, sent: seq<SentMessage>, mtu: Mtu, sealer: CipherSuite) {
    OtherRecord(record)
    || exists i, p, header :: 0 <= i < |sent| && FragmentRecord(record, sent[i], mtu, sealer, p, header)
  }

  ghost predicate AllWire(records: seq<Bytes>, sent: seq<SentMessage>, mtu: Mtu, sealer: CipherSuite) {
    forall r :: r in records ==> WireRecord(r, sent, mtu, sealer)
  }

  ghost predicate Protected(sent: seq<SentMessage>) {
    exists i :: 0 <= i < |sent| && sent[i].epoch != 0
  }

  /** The receiver's suite, once it is ready, keeps headers, and opens what the peer sealed as soon
      as the peer has sealed a message. */
  ghost predicate Fitting(sealer: CipherSuite, suite: Option<CipherSuite>, sent: seq<SentMessage>, mtu: Mtu) {
    KeepsHeader(sealer)
    && (Ready(suite) ==> OpensToSameHeader(suite.value))
    && (Ready(suite) && Protected(sent) ==> Opens(sealer, suite.value, RecordLimit(mtu)))
  }

  // Reading a fragment record

  lemma HeaderKept(record: Bytes, header: RecordLayerHeader)
    requires header.SupportedVersion()
    requires |record| >= RECORD_LAYER_HEADER_SIZE && record[..11] == header.Marshal()[..11]
    ensures RecordLayerHeader.Unmarshal(record) == Ok(header.(contentLen := ReadU16(record, 11)))
  {
  }

  lemma LengthTail(a: RecordLayerHeader)
    ensures a.Marshal()[11..] == EncodeU16(a.contentLen)
    ensures ReadU16(a.Marshal(), 11) == a.contentLen
  {
  }

  lemma RawHead(header: RecordLayerHeader, body: Bytes)
    ensures (header.Marshal() + body)[..11] == header.Marshal()[..11]
    ensures ReadU16(header.Marshal() + body, 11) == ReadU16(header.Marshal(), 11)
  {
  }

  /** On the wire: a framed record of handshake type in the message's epoch. */
  lemma FragmentOnWire(record: Bytes, m: SentMessage, mtu: Mtu, sealer: CipherSuite, p: Piece, header: RecordLayerHeader)
    requires mtu + HANDSHAKE_HEADER_LENGTH < 0x1_0000
    requires m.epoch != 0 ==> Frames(sealer, RecordLimit(mtu))
    requires FragmentRecord(record, m, mtu, sealer, p, header)
    ensures FramedNonEmpty(record)
    ensures RecordLayerHeader.Unmarshal(record) == Ok(header.(contentLen := ReadU16(record, 11)))
  {
    hide FragmentBytes, RecordLayerHeader.Marshal, Pieces, RecordLayerHeader.Unmarshal, ReadU16;
    PiecesBelong(m.h.content, mtu);
    var body := FragmentBytes(m.h, p);
    var raw := header.Marshal() + body;
    RawHead(header, body);
    LengthTail(header);
    if m.epoch != 0 {
      assert sealer.encrypt(header, raw) == Ok(record);
    }
    HeaderKept(record, header);
  }

  /** Opened: a header of the same type and epoch, then the fragment. */
  lemma FragmentOpened(record: Bytes, m: SentMessage, mtu: Mtu, sealer: CipherSuite, p: Piece, header: RecordLayerHeader,
                       suite: Option<CipherSuite>, h: RecordLayerHeader)
      returns (plain: Bytes)
    requires mtu + HANDSHAKE_HEADER_LENGTH < 0x1_0000
    requires m.epoch == 0 || (Ready(suite) && Opens(sealer, suite.value, RecordLimit(mtu)))
    requires FragmentRecord(record, m, mtu, sealer, p, header)
    requires RecordLayerHeader.Unmarshal(record) == Ok(h) && h.epoch == m.epoch
    ensures PlainOf(suite, h, record) == Ok(plain)
    ensures |plain| >= RECORD_LAYER_HEADER_SIZE && plain[RECORD_LAYER_HEADER_SIZE..] == FragmentBytes(m.h, p)
    ensures RecordLayerHeader.Unmarshal(plain).Ok?
    ensures RecordLayerHeader.Unmarshal(plain).value.contentType == ContentType.Handshake
    ensures RecordLayerHeader.Unmarshal(plain).value.epoch == m.epoch
  {
    hide FragmentBytes, RecordLayerHeader.Marshal, Pieces, RecordLayerHeader.Unmarshal;
    PiecesBelong(m.h.content, mtu);
    var body := FragmentBytes(m.h, p);
    var raw := header.Marshal() + body;
    assert raw[RECORD_LAYER_HEADER_SIZE..] == body;
    if m.epoch == 0 {
      plain := record;
      HeaderKept(plain, header);
    } else {
      assert sealer.encrypt(header, raw) == Ok(record);
      plain := record[..RECORD_LAYER_HEADER_SIZE] + body;
      assert plain[..11] == record[..11] == raw[..11] == header.Marshal()[..11];
      HeaderKept(plain, header);
    }
  }

  /** Pushed into the buffer: one fragment more, or no room and no change. */
  lemma PushedPlain(b: Buffer, plain: Bytes, h: RawHandshake, p: Piece)
    requires p.offset + |p.data| <= |h.content|
    requires |plain| >= RECORD_LAYER_HEADER_SIZE && plain[RECORD_LAYER_HEADER_SIZE..] == FragmentBytes(h, p)
    requires RecordLayerHeader.Unmarshal(plain).Ok?
    requires RecordLayerHeader.Unmarshal(plain).value.contentType == ContentType.Handshake
    ensures FragmentBuffers.Pushed(b, plain)
         == (if Size(b.cache) + |plain| >= FRAGMENT_BUFFER_MAX_SIZE then (b, Err(FragmentBufferOverflow))
             else (b.(cache := Added(b.cache, Fragment(RecordLayerHeader.Unmarshal(plain).value, FragmentHeader(h, p), p.data))), Ok(true)))
  {
    hide Size, FragmentBytes, Added, RecordLayerHeader.Unmarshal, PushedBody;
    PushedFragment(b.cache, RecordLayerHeader.Unmarshal(plain).value, h, p);
  }

  // Reading any other record

  lemma OtherPushed(b: Buffer, plain: Bytes)
    requires OtherRecord(plain)
    ensures FragmentBuffers.Pushed(b, plain).0 == b
    ensures FragmentBuffers.Pushed(b, plain).1.Err? || FragmentBuffers.Pushed(b, plain).1 == Ok(false)
  {
  }

  /** A record of another type touches neither the buffer nor the cache, and leaves only itself in
      the queue. */
  lemma OtherOpened(r: Reader, suite: Option<CipherSuite>, h: RecordLayerHeader, plain: Bytes, enqueue: bool)
    requires |r.detectors| > h.epoch && OtherRecord(plain)
    ensures var s := Opened(r, suite, h, plain, enqueue).0;
            s.buffer == r.buffer && s.cache == r.cache && s.isClient == r.isClient
            && (s.encrypted == r.encrypted || s.encrypted == r.encrypted + [plain])
    ensures !Opened(r, suite, h, plain, enqueue).1.handshake
  {
    hide FragmentBuffers.Pushed, RecordLayerHeader.Unmarshal, ContentTypeOf, Drained;
    OtherPushed(r.buffer, plain);
  }

  lemma OtherOpens(record: Bytes, suite: Option<CipherSuite>, h: RecordLayerHeader)
    requires OtherRecord(record) && PlainOf(suite, h, record).Ok?
    requires Ready(suite) ==> OpensToSameHeader(suite.value)
    ensures OtherRecord(PlainOf(suite, h, record).value)
  {
  }
}
