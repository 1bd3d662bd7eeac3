/** What the server makes of the client's Finished: it must be there, in turn, and nothing more. */
module ClientFinished {
  import opened Wrappers
  import opened Bytes
  import opened Headers
  import opened Messages
  import opened Handshakes
  import opened HandshakeCaches
  import opened HandshakeStates
  import opened ServerFlights

  /** The Finished that the server finds: the client's latest of epoch 1, with its number and content. */
  ghost predicate HasFinished(cache: seq<Item>, number: int, data: Bytes) {
    match Best(cache, CLIENT_FINISHED_RULE)
    case None => false
    case Some(item) =>
      match UnmarshalHandshake(item.data)
      case Err(_) => false
      case Ok(h) => h.header.messageSequence == number && h.message == FinishedMessage(data)
  }

  /** The policy that decides once the Finished is there. */
  predicate ClientAuthPasses(s: State, cfg: Config) {
    match cfg.clientAuth
    case RequireAnyClientCert => s.peerCertificates != []
    case VerifyClientCertIfGiven => s.peerCertificates == [] || s.peerCertificatesVerified
    case RequireAndVerifyClientCert => s.peerCertificates != [] && s.peerCertificatesVerified
    case NoClientCert => true
    case RequestClientCert => true
  }

  lemma OnePulled(cache: seq<Item>, start: int, r: Rule)
    requires !r.optional
    ensures FullPulled(cache, start, [r])
         == match Best(cache, r)
            case None => Err(MissingMandatoryMessage)
            case Some(item) =>
              match HandshakeCaches.InTurn(item, start)
              case Err(error) => Err(error)
              case Ok(message) => Ok((start + 1, map[r.typ := message]))
  {
    hide Best, HandshakeCaches.InTurn;
    assert [r][1..] == [];
    match Best(cache, r)
    case None =>
    case Some(item) =>
      var ci: map<HandshakeType, Item> := map[r.typ := item];
      assert Collected(cache, [r], map[]) == Collected(cache, [], ci) == Ok(ci);
      var message := HandshakeCaches.InTurn(item, start);
      if message.Ok? {
        assert InSequence([r], ci, start, map[]) == InSequence([], ci, start + 1, map[r.typ := message.value]);
      }
  }

  /** The server goes on to its last flight exactly if a Finished with the expected number is there and
      the client authentication policy is content. */
  lemma PassesIff(s: State, cfg: Config, cache: seq<Item>, start: int)
    ensures Flight4Finished(s, cfg, cache, start).1 == Next(Flight6)
       <==> (exists data :: HasFinished(cache, WrappedU16(start), data)) && ClientAuthPasses(s, cfg)
  {
    hide Best, UnmarshalHandshake, FullPulled;
    OnePulled(cache, start, CLIENT_FINISHED_RULE);
    var best := Best(cache, CLIENT_FINISHED_RULE);
    if best.Some? && UnmarshalHandshake(best.value.data).Ok? && UnmarshalHandshake(best.value.data).value.message.FinishedMessage? {
      var h := UnmarshalHandshake(best.value.data).value;
      assert HasFinished(cache, h.header.messageSequence, h.message.verifyData);
    }
  }

  /** The content of the Finished has no influence: with two caches that differ in it as much as they
      like, the server does the same. */
  lemma ContentIgnored(s: State, cfg: Config, one: seq<Item>, other: seq<Item>, start: int, number: U16, a: Bytes, b: Bytes)
    requires HasFinished(one, number, a) && HasFinished(other, number, b)
    ensures Flight4Finished(s, cfg, one, start) == Flight4Finished(s, cfg, other, start)
  {
    hide Best, UnmarshalHandshake, FullPulled, ClientAuthChecked;
    OnePulled(one, start, CLIENT_FINISHED_RULE);
    OnePulled(other, start, CLIENT_FINISHED_RULE);
  }

  /** A server in its last flight repeats it exactly if the client's latest Finished is still the one it
      has gone on from. */
  lemma RepeatsIff(s: State, cache: seq<Item>)
    ensures Flight6Parsed(s, cache) == Next(Flight6)
       <==> match Best(cache, CLIENT_FINISHED_RULE)
            case None => false
            case Some(item) =>
              match UnmarshalHandshake(item.data)
              case Err(_) => false
              case Ok(h) => h.header.messageSequence == WrappedU16(s.recvSequence - 1) && h.message.FinishedMessage?
  {
    hide Best, UnmarshalHandshake, FullPulled;
    OnePulled(cache, s.recvSequence - 1, CLIENT_FINISHED_RULE);
  }

  /** So what took it there asks for the flight again. */
  lemma FinishedRepeats(s: State, cfg: Config, cache: seq<Item>, start: int)
    requires Flight4Finished(s, cfg, cache, start).1 == Next(Flight6)
    ensures Flight6Parsed(Flight4Finished(s, cfg, cache, start).0, cache) == Next(Flight6)
  {
    hide Best, UnmarshalHandshake, FullPulled, ClientAuthChecked;
    OnePulled(cache, start, CLIENT_FINISHED_RULE);
  }
}
