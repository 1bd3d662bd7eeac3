/** The record protection as a pair of functions. Fresh randomness in a ciphertext is a function of
    the record header, which no two records share (RecordNumbers.NumbersNeverReused). */
module CipherSuites {
  import opened Wrappers
  import opened Bytes
  import opened Headers

  datatype CipherSuite = CipherSuite(
    id: U16,
    initialized: bool,
    isPsk: bool,
    encrypt: (RecordLayerHeader, Bytes) -> Result<Bytes>,
    decrypt: Bytes -> Result<Bytes>)

  /** The protected record starts with the record header up to its length field. */
  ghost predicate KeepsHeader(suite: CipherSuite) {
    forall header, raw ::
      |raw| >= RECORD_LAYER_HEADER_SIZE && suite.encrypt(header, raw).Ok? ==>
        |suite.encrypt(header, raw).value| >= RECORD_LAYER_HEADER_SIZE
        && suite.encrypt(header, raw).value[..11] == raw[..11]
  }

  ghost predicate OpensToSameHeader(suite: CipherSuite) {
    forall raw ::
      |raw| >= RECORD_LAYER_HEADER_SIZE && suite.decrypt(raw).Ok? ==>
        |suite.decrypt(raw).value| >= RECORD_LAYER_HEADER_SIZE
        && suite.decrypt(raw).value[..RECORD_LAYER_HEADER_SIZE] == raw[..RECORD_LAYER_HEADER_SIZE]
  }

  /** Protecting at most `limit` bytes gives a record whose length field fits it. */
  ghost predicate Frames(sender: CipherSuite, limit: nat) {
    KeepsHeader(sender)
    && forall header, raw ::
         RECORD_LAYER_HEADER_SIZE < |raw| <= limit && sender.encrypt(header, raw).Ok? ==>
           var sealed := sender.encrypt(header, raw).value;
           |sealed| > RECORD_LAYER_HEADER_SIZE && |sealed| == RECORD_LAYER_HEADER_SIZE + ReadU16(sealed, 11)
  }

  /** `receiver` undoes `sender` on records of at most `limit` bytes: what was protected opens to its
      own header and the body that went in. */
  ghost predicate Opens(sender: CipherSuite, receiver: CipherSuite, limit: nat) {
    Frames(sender, limit)
    && OpensToSameHeader(receiver)
    && forall header, raw ::
         RECORD_LAYER_HEADER_SIZE < |raw| <= limit && sender.encrypt(header, raw).Ok? ==>
           var sealed := sender.encrypt(header, raw).value;
           receiver.decrypt(sealed) == Ok(sealed[..RECORD_LAYER_HEADER_SIZE] + raw[RECORD_LAYER_HEADER_SIZE..])
  }

  function Sealed(suite: Option<CipherSuite>, shouldEncrypt: bool, header: RecordLayerHeader, raw: Bytes): Result<Bytes> {
    if shouldEncrypt && suite.Some? then suite.value.encrypt(header, raw) else Ok(raw)
  }
}
