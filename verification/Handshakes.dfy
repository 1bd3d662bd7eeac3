/** A handshake message with its header, as written, cached and read back. */
module Handshakes {
  import opened Wrappers
  import opened Bytes
  import opened Headers
  import opened Messages

  /** Its length is written in 24 bits. */
  type MessageBody = s: Bytes | |s| < 0x100_0000

  /** A numbered message as the transport sees it: only the bytes of its body matter. */
  datatype RawHandshake = RawHandshake(typ: HandshakeType, sequence: U16, content: MessageBody) {

    /** The encoding as a single fragment, which is what transcripts are made of. */
    function Whole(): (s: Bytes)
      ensures |s| == HANDSHAKE_HEADER_LENGTH + |content|
    {
      HandshakeHeader(typ, |content|, sequence, 0, |content|).Marshal() + content
    }
  }

  datatype Handshake = Handshake(header: HandshakeHeader, message: Message)

  /** A fresh message claims one fragment of its own size; its number is assigned later. */
  function NewHandshake(m: Message): Handshake
    requires WellFormed(m)
  {
    Handshake.Handshake(HandshakeHeader(m.Type(), Size(m), 0, 0, Size(m)), m)
  }

  function MarshalHandshake(h: Handshake): Bytes
    requires WellFormed(h.message)
  {
    h.header.Marshal() + Marshal(h.message)
  }

  function UnmarshalHandshake(s: Bytes): Result<Handshake> {
    var header :- HandshakeHeader.Unmarshal(s);
    var message :- UnmarshalBody(header.handshakeType, s[HANDSHAKE_HEADER_LENGTH..]);
    Ok(Handshake.Handshake(header, message))
  }

  /** The message `m` once it has been given the number `sequence`. */
  function Numbered(m: Message, sequence: U16): (r: RawHandshake)
    requires WellFormed(m)
  {
    BodyRoundTrip(m);
    RawHandshake(m.Type(), sequence, Marshal(m))
  }

  /** A numbered fresh message is written as one whole fragment, its length field is right, and it
      reads back as the message sent. */
  lemma HandshakeRoundTrip(m: Message, sequence: U16)
    requires WellFormed(m)
    ensures var h := NewHandshake(m).(header := NewHandshake(m).header.(messageSequence := sequence));
            MarshalHandshake(h) == Numbered(m, sequence).Whole()
            && UnmarshalHandshake(Numbered(m, sequence).Whole()) == Ok(h.(message := Transmitted(m)))
  {
    hide HandshakeHeader.Unmarshal;
    BodyRoundTrip(m);
    hide UnmarshalBody, Marshal, WellFormed, Messages.Transmitted, Size;
    var header := HandshakeHeader(m.Type(), Size(m), sequence, 0, Size(m));
    HandshakeHeaderRoundTrip(header, Marshal(m));
    var s := header.Marshal() + Marshal(m);
    assert s[HANDSHAKE_HEADER_LENGTH..] == Marshal(m);
  }
}
