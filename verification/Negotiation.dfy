/** What the server takes from a hello, whoever sends it: suite, curve, profile, extended master secret. */
module Negotiation {
  import opened Wrappers
  import opened Bytes
  import opened Headers
  import opened Readers
  import opened Extensions
  import opened Messages
  import opened Handshakes
  import opened HandshakeCaches
  import opened HandshakeStates
  import opened ServerFlights
  import opened FlightEffects
  import opened FragmentBuffers

  // Curves

  predicate Known(code: U16) {
    code == 0x17 || code == 0x18 || code == 0x1d
  }

  ghost predicate NoneKnown(codes: seq<U16>) {
    forall i :: 0 <= i < |codes| ==> !Known(codes[i])
  }

  ghost predicate FirstKnown(codes: seq<U16>, curve: U16) {
    Known(curve) && exists i :: 0 <= i < |codes| && codes[i] == curve && forall j :: 0 <= j < i ==> !Known(codes[j])
  }

  /** As read from the wire, codes that nobody here knows have become one. */
  ghost predicate Decoded(e: Extension) {
    e.SupportedEllipticCurves? ==> forall i :: 0 <= i < |e.curves| ==> Known(e.curves[i]) || e.curves[i] == UNSUPPORTED_CURVE
  }

  lemma {:induction false} CurveFound(curves: seq<U16>)
    requires Decoded(SupportedEllipticCurves(curves))
    ensures match FirstKnownCurve(curves)
            case Some(curve) => FirstKnown(curves, curve) && !NoneKnown(curves)
            case None => NoneKnown(curves)
  {
    if curves != [] && !Known(curves[0]) {
      CurveFound(curves[1..]);
      if FirstKnownCurve(curves[1..]).Some? {
        var curve := FirstKnownCurve(curves[1..]).value;
        var i :| 0 <= i < |curves| - 1 && curves[1..][i] == curve && forall j :: 0 <= j < i ==> !Known(curves[1..][j]);
        assert forall j :: 1 <= j <= i ==> curves[j] == curves[1..][j - 1];
        assert curves[i + 1] == curve;
      } else {
        assert forall j :: 1 <= j < |curves| ==> curves[j] == curves[1..][j - 1];
      }
    }
  }

  lemma {:induction false} CodesRead(codes: seq<U16>)
    ensures var read := MapCodes(codes, c => NamedCurveOf(c));
            forall i :: 0 <= i < |codes| ==> read[i] == NamedCurveOf(codes[i])
  {
    if codes != [] {
      CodesRead(codes[1..]);
    }
  }

  lemma CurvesRead(codes: seq<U16>, rest: Bytes)
    requires 2 + 2 * |codes| < 0x1_0000
    ensures Extension.Unmarshal(SupportedEllipticCurves(codes).Marshal() + rest)
         == Ok(SupportedEllipticCurves(MapCodes(codes, c => NamedCurveOf(c))))
  {
    hide TakeU16, TakeU16s, EncodeU16s, EncodeU16, Extension.Unmarshal;
    var e := SupportedEllipticCurves(codes);
    MarshalledSize(e);
    HeaderRead(SUPPORTED_ELLIPTIC_CURVES, e.BodyLength(), e.Body(), rest);
    CountedRead(2 * |codes|, EncodeU16s(codes), rest);
    TakeU16sAfter(codes, rest);
  }

  /** Whatever codes a client sends, in whatever order: the server takes the first of them that it
      knows, and refuses only a list without any. */
  lemma OfferedCurveTaken(s: State, cfg: Config, codes: seq<U16>, rest: Bytes)
    requires 2 + 2 * |codes| < 0x1_0000
    ensures var read := Extension.Unmarshal(SupportedEllipticCurves(codes).Marshal() + rest);
            read.Ok? && Decoded(read.value)
            && match HelloExtension(s, cfg, read.value)
               case (t, None) => FirstKnown(codes, t.namedCurve) && t == s.(namedCurve := t.namedCurve)
               case (t, failure) =>
                 NoneKnown(codes) && t == s && failure == Some(Fatal(INSUFFICIENT_SECURITY, NoSupportedEllipticCurves))
  {
    hide FirstKnownCurve, Extension.Unmarshal, Extension.Marshal;
    CurvesRead(codes, rest);
    CodesRead(codes);
    CurveFound(MapCodes(codes, c => NamedCurveOf(c)));
  }

  /** What is read out of a block of extensions is decoded. */
  lemma {:induction false} BlockDecoded(buffer: Bytes)
    ensures ParsedBlock(buffer).Ok? ==> forall e :: e in ParsedBlock(buffer).value ==> Decoded(e)
    decreases |buffer|
  {
    hide Extension.Unmarshal, Decoded;
    if |buffer| >= 4 {
      FoundDecoded(buffer);
      BlockDecoded(From(buffer, 4 + ReadU16(buffer, 2)));
    }
  }

  lemma FoundDecoded(s: Bytes)
    ensures forall e :: e in Found(s) ==> Decoded(e)
  {
    hide TakeU16, TakeU16s, TakeAlgorithms, TakeBytes, TakeU8, IsUtf8, Decoded, Extension.UnmarshalServerName,
         Extension.UnmarshalUseSrtp, Extension.UnmarshalBody;
    if Extension.Unmarshal(s).Ok? {
      var (code, s1) := TakeU16(s).value;
      var (length, s2) := TakeU16(s1).value;
      BodyDecoded(code, length, s2);
    }
  }

  lemma BodyDecoded(code: U16, length: U16, s: Bytes)
    requires KnownType(code) && Extension.UnmarshalBody(code, length, s).Ok?
    ensures Decoded(Extension.UnmarshalBody(code, length, s).value)
  {
    hide TakeU16, TakeU16s, TakeAlgorithms, TakeBytes, TakeU8, IsUtf8;
    if code == SUPPORTED_ELLIPTIC_CURVES {
      var (n, s1) := TakeU16(s).value;
      CodesRead(TakeU16s(s1, n / 2).value.0);
    }
  }

  // Whole lists

  /** `x` is the first of `a` that is also in `b`. */
  ghost predicate FirstShared(a: seq<U16>, b: seq<U16>, x: U16) {
    x in b && exists i :: 0 <= i < |a| && a[i] == x && forall j :: 0 <= j < i ==> a[j] !in b
  }

  ghost predicate Disjoint(a: seq<U16>, b: seq<U16>) {
    forall i :: 0 <= i < |a| ==> a[i] !in b
  }

  lemma {:induction false} MatchFound(a: seq<U16>, b: seq<U16>)
    ensures match FirstMatch(a, b)
            case Some(x) => FirstShared(a, b, x) && !Disjoint(a, b)
            case None => Disjoint(a, b)
  {
    if a != [] && a[0] !in b {
      MatchFound(a[1..], b);
      if FirstMatch(a, b).Some? {
        var i :| 0 <= i < |a| - 1 && a[1..][i] == FirstMatch(a, b).value && forall j :: 0 <= j < i ==> a[1..][j] !in b;
        assert forall j :: 1 <= j <= i ==> a[j] == a[1..][j - 1];
        assert a[i + 1] == FirstMatch(a, b).value;
      } else {
        assert forall j :: 1 <= j < |a| ==> a[j] == a[1..][j - 1];
      }
    }
  }

  ghost predicate Acceptable(cfg: Config, e: Extension) {
    match e
    case SupportedEllipticCurves(curves) => !NoneKnown(curves)
    case UseSrtp(profiles) => !Disjoint(profiles, cfg.srtpProfiles)
    case _ => true
  }

  /** The last list of curves, if there is one. */
  function LastCurves(extensions: seq<Extension>): Option<seq<U16>> {
    if extensions == [] then
      None
    else
      match LastCurves(extensions[1..])
      case Some(curves) => Some(curves)
      case None => if extensions[0].SupportedEllipticCurves? then Some(extensions[0].curves) else None
  }

  function LastProfiles(extensions: seq<Extension>): Option<seq<U16>> {
    if extensions == [] then
      None
    else
      match LastProfiles(extensions[1..])
      case Some(profiles) => Some(profiles)
      case None => if extensions[0].UseSrtp? then Some(extensions[0].profiles) else None
  }

  ghost predicate CurveSettled(extensions: seq<Extension>, before: U16, after: U16) {
    match LastCurves(extensions)
    case Some(curves) => FirstKnown(curves, after)
    case None => after == before
  }

  ghost predicate ProfileTaken(cfg: Config, extensions: seq<Extension>, before: U16, after: U16) {
    match LastProfiles(extensions)
    case Some(profiles) => FirstShared(profiles, cfg.srtpProfiles, after)
    case None => after == before
  }

  /** The last name that is given, or the one before. */
  function LastName(extensions: seq<Extension>, before: Bytes): Bytes {
    if extensions == [] then before
    else LastName(extensions[1..], if extensions[0].ServerName? then extensions[0].name else before)
  }

  ghost predicate OffersExtended(extensions: seq<Extension>) {
    exists e :: e in extensions && e.UseExtendedMasterSecret?
  }

  /** What reading a list without a bad extension takes from it. */
  ghost predicate Taken(cfg: Config, extensions: seq<Extension>, s: State, t: State) {
    CurveSettled(extensions, s.namedCurve, t.namedCurve)
    && ProfileTaken(cfg, extensions, s.srtpProfile, t.srtpProfile)
    && t.extendedMasterSecret == (s.extendedMasterSecret || (cfg.extendedMasterSecret != Disable && OffersExtended(extensions)))
    && t == s.(namedCurve := t.namedCurve, srtpProfile := t.srtpProfile, extendedMasterSecret := t.extendedMasterSecret,
               serverName := LastName(extensions, s.serverName))
  }

  /** The first extension that offers nothing acceptable ends the reading. */
  ghost predicate RefusedAt(cfg: Config, extensions: seq<Extension>, i: int, failure: Failure) {
    0 <= i < |extensions| && !Acceptable(cfg, extensions[i]) && (forall j :: 0 <= j < i ==> Acceptable(cfg, extensions[j]))
    && failure == Fatal(INSUFFICIENT_SECURITY,
                        if extensions[i].SupportedEllipticCurves? then NoSupportedEllipticCurves else NoMatchingSrtpProfile)
  }

  lemma OneTaken(s: State, cfg: Config, e: Extension)
    requires Decoded(e)
    ensures match HelloExtension(s, cfg, e)
            case (t, None) => Acceptable(cfg, e) && Taken(cfg, [e], s, t)
            case (_, Some(failure)) => RefusedAt(cfg, [e], 0, failure)
  {
    hide FirstKnownCurve, FirstMatch, FirstKnown, FirstShared;
    JustOne(e);
    match e
    case SupportedEllipticCurves(curves) => CurveFound(curves);
    case UseSrtp(profiles) => MatchFound(profiles, cfg.srtpProfiles);
    case _ =>
  }

  lemma JustOne(e: Extension)
    ensures LastCurves([e]) == if e.SupportedEllipticCurves? then Some(e.curves) else None
    ensures LastProfiles([e]) == if e.UseSrtp? then Some(e.profiles) else None
    ensures OffersExtended([e]) == e.UseExtendedMasterSecret?
    ensures forall before :: LastName([e], before) == if e.ServerName? then e.name else before
  {
    assert [e][1..] == [] && e in [e];
  }

  lemma TakenOn(cfg: Config, extensions: seq<Extension>, s: State, t: State, u: State)
    requires extensions != [] && Taken(cfg, [extensions[0]], s, t) && Taken(cfg, extensions[1..], t, u)
    ensures Taken(cfg, extensions, s, u)
  {
    hide FirstKnown, FirstShared;
    JustOne(extensions[0]);
    assert forall e :: e in extensions <==> e == extensions[0] || e in extensions[1..];
  }

  /** Reading goes through exactly if each extension offers something acceptable. Then the last list of
      curves and of profiles decide, each by the first entry that this side knows or wants. */
  lemma {:induction false} ExtensionsTaken(s: State, cfg: Config, extensions: seq<Extension>)
    requires forall e :: e in extensions ==> Decoded(e)
    ensures match HelloExtensions(s, cfg, extensions)
            case (t, None) => (forall e :: e in extensions ==> Acceptable(cfg, e)) && Taken(cfg, extensions, s, t)
            case (_, Some(failure)) => exists i :: RefusedAt(cfg, extensions, i, failure)
    decreases |extensions|
  {
    hide HelloExtension, Acceptable, Decoded, Taken, RefusedAt;
    if extensions == [] {
      NothingTaken(cfg, s);
    } else {
      var e := extensions[0];
      OneTaken(s, cfg, e);
      var (t, refused) := HelloExtension(s, cfg, e);
      if refused.Some? {
        assert [e][0] == e;
        FirstRefused(cfg, extensions, refused.value);
        assert HelloExtensions(s, cfg, extensions) == (t, refused);
      } else {
        ExtensionsTaken(t, cfg, extensions[1..]);
        var (u, failure) := HelloExtensions(t, cfg, extensions[1..]);
        if failure.None? {
          TakenOn(cfg, extensions, s, t, u);
        } else {
          var i :| RefusedAt(cfg, extensions[1..], i, failure.value);
          LaterRefused(cfg, extensions, i, failure.value);
          assert HelloExtensions(s, cfg, extensions) == (u, failure);
        }
      }
    }
  }

  lemma FirstRefused(cfg: Config, extensions: seq<Extension>, failure: Failure)
    requires extensions != [] && RefusedAt(cfg, [extensions[0]], 0, failure)
    ensures RefusedAt(cfg, extensions, 0, failure)
  {
    hide Acceptable;
  }

  lemma LaterRefused(cfg: Config, extensions: seq<Extension>, i: int, failure: Failure)
    requires extensions != [] && Acceptable(cfg, extensions[0]) && RefusedAt(cfg, extensions[1..], i, failure)
    ensures RefusedAt(cfg, extensions, i + 1, failure)
  {
    hide Acceptable;
    assert extensions[1..][i] == extensions[i + 1];
    assert forall j :: 1 <= j <= i ==> extensions[j] == extensions[1..][j - 1];
  }

  lemma NothingTaken(cfg: Config, s: State)
    ensures Taken(cfg, [], s, s)
  {
  }

  // Hellos

  lemma BlockTaken(s: Bytes)
    ensures TakeExtensionBlock(s).Ok? ==> forall e :: e in TakeExtensionBlock(s).value ==> Decoded(e)
  {
    hide TakeU16, TakeBytes, ParsedBlock, Decoded;
    if TakeExtensionBlock(s).Ok? {
      var (n, s1) := TakeU16(s).value;
      BlockDecoded(TakeBytes(s1, n).value.0);
    }
  }

  lemma TailTaken(s: Bytes)
    ensures TakeClientHelloTail(s).Ok? ==> forall e :: e in TakeClientHelloTail(s).value.3 ==> Decoded(e)
  {
    hide TakeCounted, TakeSuites, KnownCompression, TakeExtensionBlock, Decoded;
    if TakeClientHelloTail(s).Ok? {
      var (_, s1) := TakeCounted(s).value;
      var (_, s2) := TakeSuites(s1).value;
      var (_, s3) := TakeCounted(s2).value;
      BlockTaken(s3);
    }
  }

  lemma HelloType(t: HandshakeType, s: Bytes)
    requires UnmarshalBody(t, s).Ok? && UnmarshalBody(t, s).value.ClientHelloMessage?
    ensures t == HandshakeType.ClientHello
  {
    hide UnmarshalClientHello, UnmarshalServerHello, UnmarshalCertificate, UnmarshalServerKeyExchange, TakeU8, TakeU16,
         TakeBytes;
  }

  /** A hello that has been read has decoded extensions. */
  lemma HelloDecoded(data: Bytes, hello: ClientHelloBody)
    requires UnmarshalHandshake(data).Ok? && UnmarshalHandshake(data).value.message == ClientHelloMessage(hello)
    ensures forall e :: e in hello.extensions ==> Decoded(e)
  {
    hide TakeOpening, TakeU8, TakeClientHelloTail, Decoded, HandshakeHeader.Unmarshal, UnmarshalBody;
    HeaderNeedsTwelve(data);
    var body := data[HANDSHAKE_HEADER_LENGTH..];
    HelloType(HandshakeHeader.Unmarshal(data).value.handshakeType, body);
    BodyOfHello(body);
    var (_, _, s1) := TakeOpening(body).value;
    var (_, s2) := TakeU8(s1).value;
    TailTaken(s2);
  }

  lemma BodyOfHello(s: Bytes)
    ensures UnmarshalBody(HandshakeType.ClientHello, s)
         == match UnmarshalClientHello(s) case Ok(h) => Ok(ClientHelloMessage(h)) case Err(error) => Err(error)
  {
    hide UnmarshalClientHello;
  }

  /** What the server goes on with after a hello. */
  ghost predicate Chosen(cfg: Config, crypto: Crypto, hello: ClientHelloBody, s: State, t: State, key: nat) {
    hello.version == PROTOCOL_VERSION1_2 && t.remoteRandom == hello.random
    && SuiteChosen(cfg, hello, s, t)
    && (forall e :: e in hello.extensions ==> Acceptable(cfg, e))
    && CurveSettled(hello.extensions, s.namedCurve, t.namedCurve)
    && ProfileTaken(cfg, hello.extensions, s.srtpProfile, t.srtpProfile)
    && t.extendedMasterSecret == ExtendedAfter(cfg, hello, s) && t.serverName == LastName(hello.extensions, s.serverName)
    && (cfg.extendedMasterSecret == Require ==> t.extendedMasterSecret)
    && (if s.localKeypair.Some? then t.localKeypair == s.localKeypair
        else t.localKeypair.Some? && crypto.keypair(t.namedCurve, key) == Ok(t.localKeypair.value))
  }

  ghost predicate ExtendedAfter(cfg: Config, hello: ClientHelloBody, s: State) {
    s.extendedMasterSecret || (cfg.extendedMasterSecret != Disable && OffersExtended(hello.extensions))
  }

  /** The client's first suite that the server wants, not yet keyed. */
  ghost predicate SuiteChosen(cfg: Config, hello: ClientHelloBody, s: State, t: State) {
    exists id ::
      FirstShared(hello.cipherSuites, cfg.cipherSuites, id)
      && t.cipherSuite == if SuiteForId(id).Ok? then Some(NewSuite(id)) else s.cipherSuite
  }

  lemma HelloChosen(s: State, cfg: Config, crypto: Crypto, hello: ClientHelloBody, key: nat)
    requires forall e :: e in hello.extensions ==> Decoded(e)
    ensures var (t, p) := HelloParsed(s, cfg, crypto, hello, key);
            p == Next(Flight2) ==> Chosen(cfg, crypto, hello, s, t, key)
  {
    hide HelloExtensions, FirstMatch, FirstShared, CurveSettled, ProfileTaken, Acceptable, OffersExtended, Decoded, LastName;
    MatchFound(hello.cipherSuites, cfg.cipherSuites);
    var greeted := s.(remoteRandom := hello.random);
    if FirstMatch(hello.cipherSuites, cfg.cipherSuites).Some? {
      var id := FirstMatch(hello.cipherSuites, cfg.cipherSuites).value;
      var suited := if SuiteForId(id).Ok? then greeted.(cipherSuite := Some(SuiteForId(id).value)) else greeted;
      ExtensionsTaken(suited, cfg, hello.extensions);
      assert SuiteForId(id).Ok? ==> SuiteForId(id).value == NewSuite(id);
    }
  }

  lemma OneCurve(codes: seq<U16>, a: U16, b: U16)
    requires FirstKnown(codes, a) && FirstKnown(codes, b)
    ensures a == b
  {
  }

  /** A key pair is there already, or comes of the curve that the hello settles. */
  ghost predicate KeypairComes(crypto: Crypto, hello: ClientHelloBody, s: State, key: nat) {
    s.localKeypair.Some? || exists curve :: CurveSettled(hello.extensions, s.namedCurve, curve) && crypto.keypair(curve, key).Ok?
  }

  /** A server goes on exactly from a hello that shares a suite, offers something acceptable in each
      extension and meets the server's policy, if it can have a key pair. */
  lemma HelloPassesIff(s: State, cfg: Config, crypto: Crypto, hello: ClientHelloBody, key: nat)
    requires forall e :: e in hello.extensions ==> Decoded(e)
    ensures HelloParsed(s, cfg, crypto, hello, key).1 == Next(Flight2)
       <==> hello.version == PROTOCOL_VERSION1_2 && !Disjoint(hello.cipherSuites, cfg.cipherSuites)
            && (forall e :: e in hello.extensions ==> Acceptable(cfg, e))
            && (cfg.extendedMasterSecret == Require ==> ExtendedAfter(cfg, hello, s))
            && KeypairComes(crypto, hello, s, key)
  {
    hide HelloExtensions, FirstMatch, FirstShared, FirstKnown, ProfileTaken, Acceptable, OffersExtended, Decoded, Disjoint,
         LastName;
    MatchFound(hello.cipherSuites, cfg.cipherSuites);
    var greeted := s.(remoteRandom := hello.random);
    if FirstMatch(hello.cipherSuites, cfg.cipherSuites).Some? {
      var id := FirstMatch(hello.cipherSuites, cfg.cipherSuites).value;
      var suited := if SuiteForId(id).Ok? then greeted.(cipherSuite := Some(SuiteForId(id).value)) else greeted;
      ExtensionsTaken(suited, cfg, hello.extensions);
      var (t, refused) := HelloExtensions(suited, cfg, hello.extensions);
      forall curve | refused.None? && CurveSettled(hello.extensions, s.namedCurve, curve)
        ensures curve == t.namedCurve
      {
        if LastCurves(hello.extensions).Some? {
          OneCurve(LastCurves(hello.extensions).value, curve, t.namedCurve);
        }
      }
    }
  }

  /** A server that goes on to flight 2 has read such a hello from the client. */
  lemma FirstHelloChosen(s: State, cfg: Config, crypto: Crypto, cache: seq<Item>, key: nat)
    ensures var (t, p) := Flight0Parsed(s, cfg, crypto, cache, key);
            p == Next(Flight2) ==>
              exists hello :: Reads(cache, CLIENT_HELLO_RULE, ClientHelloMessage(hello)) && Chosen(cfg, crypto, hello, s, t, key)
  {
    hide FullPulled, HelloParsed, Chosen, UnmarshalHandshake, Decoded;
    var rules := [CLIENT_HELLO_RULE];
    var pulled := FullPulled(cache, 0, rules);
    if pulled.Ok? && ClientHello in pulled.value.1 && pulled.value.1[ClientHello].ClientHelloMessage? {
      PulledReads(cache, 0, rules, CLIENT_HELLO_RULE);
      var hello := pulled.value.1[ClientHello].clientHello;
      var c :| c in cache && Matches(c, CLIENT_HELLO_RULE) && UnmarshalHandshake(c.data).Ok?
        && UnmarshalHandshake(c.data).value.message == ClientHelloMessage(hello);
      HelloDecoded(c.data, hello);
      HelloChosen(s.(recvSequence := pulled.value.0), cfg, crypto, hello, key);
      SameChoice(s, s.(recvSequence := pulled.value.0), cfg, crypto, hello, key);
      assert Flight0Parsed(s, cfg, crypto, cache, key) == HelloParsed(s.(recvSequence := pulled.value.0), cfg, crypto, hello, key);
    }
  }

  lemma SameChoice(s: State, read: State, cfg: Config, crypto: Crypto, hello: ClientHelloBody, key: nat)
    requires read == s.(recvSequence := read.recvSequence)
    ensures forall t :: Chosen(cfg, crypto, hello, read, t, key) ==> Chosen(cfg, crypto, hello, s, t, key)
  {
    hide FirstShared, CurveSettled, ProfileTaken, Acceptable, OffersExtended, LastName;
  }
}
