/** What the client of an honest handshake knows of the server, and how it answers: the profile, the
    certificates, the request for its own. */
module HonestPeers {
  import opened Wrappers
  import opened Bytes
  import opened Headers
  import opened Extensions
  import opened Messages
  import opened Handshakes
  import opened HandshakeCaches
  import opened Reassembly
  import opened TableTexts
  import opened Emission
  import opened HandshakeStates
  import opened ServerFlights
  import opened ClientFlights
  import opened Handshaking
  import opened Planning
  import opened FlightEffects
  import opened Negotiation
  import opened FlightGuards
  import opened HonestWorlds
  import opened HonestSends
  import opened HonestScripts
  import opened HonestTexts
  import opened HonestPreparing
  import opened HonestAnswers
  import opened HonestKeying
  import opened HonestPulls
  import opened HonestClientReads
  import opened HonestHandshakes

  // What the client takes from flight 4

  lemma {:induction false} AnswerProfile(s: State, cfg: Config, extensions: seq<Extension>)
    ensures var (t, failure) := AnswerExtensions(s, cfg, extensions);
            t.peerCertificates == s.peerCertificates && t.remoteRequestedCertificate == s.remoteRequestedCertificate
            && (failure.None? ==> ProfileTaken(cfg, extensions, s.srtpProfile, t.srtpProfile))
    decreases |extensions|
  {
    hide FirstShared;
    if extensions != [] {
      match extensions[0]
      case UseSrtp(profiles) =>
        MatchFound(profiles, cfg.srtpProfiles);
        if FirstMatch(profiles, cfg.srtpProfiles).Some? {
          AnswerProfile(s.(srtpProfile := FirstMatch(profiles, cfg.srtpProfiles).value), cfg, extensions[1..]);
        }
      case UseExtendedMasterSecret(_) =>
        AnswerProfile(if cfg.extendedMasterSecret.Offers() then s.(extendedMasterSecret := true) else s, cfg, extensions[1..]);
      case _ =>
        AnswerProfile(s, cfg, extensions[1..]);
    }
  }

  lemma HelloProfile(s: State, cfg: Config, msgs: map<HandshakeType, Message>)
    requires ServerHello in msgs && msgs[ServerHello].ServerHelloMessage?
    ensures var (t, failure) := ServerHelloParsed(s, cfg, msgs);
            t.peerCertificates == s.peerCertificates && t.remoteRequestedCertificate == s.remoteRequestedCertificate
            && (failure.None? ==> ProfileTaken(cfg, msgs[ServerHello].serverHello.extensions, s.srtpProfile, t.srtpProfile))
  {
    hide AnswerExtensions, ProfileTaken, SuiteForId;
    AnswerProfile(s, cfg, msgs[ServerHello].serverHello.extensions);
  }

  /** What the messages that were read show. */
  ghost predicate ShownBy(cfg: Config, msgs: map<HandshakeType, Message>, s: State, t: State) {
    ServerHello in msgs && msgs[ServerHello].ServerHelloMessage?
    && ProfileTaken(cfg, msgs[ServerHello].serverHello.extensions, s.srtpProfile, t.srtpProfile)
    && (if Certificate in msgs then msgs[Certificate] == CertificateMessage(t.peerCertificates)
        else t.peerCertificates == s.peerCertificates)
    && t.remoteRequestedCertificate == (s.remoteRequestedCertificate || CertificateRequest in msgs)
  }

  lemma AnswerShown(s: State, cfg: Config, crypto: Crypto, cache: seq<Item>, key: nat)
    requires ServerHello in MessagesPulled(cache, s.recvSequence, AnswerRules(cfg))
    ensures var (t, p) := AnswerParsed(s, cfg, crypto, cache, key);
            p.Next? ==> ShownBy(cfg, MessagesPulled(cache, s.recvSequence, AnswerRules(cfg)), s, t)
  {
    hide FullPulled, ServerHelloParsed, ExchangeHandled, AnswerRules, ProfileTaken;
    var msgs := MessagesPulled(cache, s.recvSequence, AnswerRules(cfg));
    var read := s.(recvSequence := FullPulled(cache, s.recvSequence, AnswerRules(cfg)).value.0);
    HelloMustBe(read, cfg, msgs);
    if msgs[ServerHello].ServerHelloMessage? {
      HelloProfile(read, cfg, msgs);
    }
    var shown := ServerCertificateParsed(ServerHelloParsed(read, cfg, msgs).0, msgs).0;
    if ServerKeyExchange in msgs && msgs[ServerKeyExchange].ServerKeyExchangeMessage? {
      ExchangeHandledKeeps(shown, cfg, crypto, msgs[ServerKeyExchange].serverKeyExchange, key);
    }
  }

  lemma HelloMustBe(s: State, cfg: Config, msgs: map<HandshakeType, Message>)
    requires ServerHello in msgs
    ensures ServerHelloParsed(s, cfg, msgs).1.None? ==> msgs[ServerHello].ServerHelloMessage?
  {
    hide AnswerExtensions, ServerHelloChosen;
  }

  // Flight 4, message by message

  ghost predicate Offers(offer: seq<Draft>, t: HandshakeType) {
    exists i :: OffersAt(offer, t, i)
  }

  /** The message that was found, if any, is the one on offer. */
  ghost predicate FoundOffered(msgs: map<HandshakeType, Message>, offer: seq<Draft>, t: HandshakeType) {
    (t in msgs <==> Offers(offer, t)) && (t in msgs ==> MessageDraft(0, msgs[t]) in offer)
  }

  /** A message of these types travels as it is. */
  lemma TravelsWhole(m: Message)
    ensures Messages.Transmitted(m).Type() == m.Type()
    ensures m.Type() != ClientHello && m.Type() != ServerHello ==> Messages.Transmitted(m) == m
  {
  }

  /** The client finds a message of flight 4 exactly if it was offered. */
  lemma OfferedFound(u: Setup, h: Honest, r: Rule)
    requires SetupOk(u) && Base(u, h) && ServerScript(u.server, u.crypto, h.server, h.serverPlan, h.offer)
    requires FullPulled(h.net.client.Cache(), h.client.state.recvSequence, AnswerRules(u.client)).Ok?
    requires h.offer.Some? && h.net.client.Popped() >= 1 + |h.offer.Or([])|
    requires r in AnswerRules(u.client) && (r.typ == Certificate || r.typ == CertificateRequest)
    ensures FoundOffered(MessagesPulled(h.net.client.Cache(), h.client.state.recvSequence, AnswerRules(u.client)),
                         h.offer.Or([]), r.typ)
  {
    hide SetupOk, Base, ServerScript, FullPulled, DistinctTypes, AnswerRules, OwnPart, Unique, IsLast, Messages.Transmitted,
         UnmarshalHandshake, RawHandshake.Whole, Best, Message.Type;
    var cache, start, rules := h.net.client.Cache(), h.client.state.recvSequence, AnswerRules(u.client);
    AnswerRulesList(u.client);
    AnswerRulesDistinct(u.client);
    var i := ClientPulled(u, h, start, rules, r);
    if r.typ in MessagesPulled(cache, start, rules) {
      TravelsWhole(h.offer.Or([])[i].message);
      assert h.offer.Or([])[i] in h.offer.Or([]) && OffersAt(h.offer.Or([]), r.typ, i);
    }
    if Offers(h.offer.Or([]), r.typ) {
      var j :| OffersAt(h.offer.Or([]), r.typ, j);
      CacheParts(u, h);
      OfferedLast(u, h, r, j);
      var _ := PulledFromPart(cache, h.serverPlan[..h.net.client.Popped()], start, rules, r);
    }
  }

  /** What the client knows of the server once it has read flight 4. */
  ghost predicate Shown(u: Setup, c: State, offer: seq<Draft>) {
    offer != [] && offer[0].MessageDraft? && offer[0].message.ServerHelloMessage?
    && ProfileTaken(u.client, offer[0].message.serverHello.extensions, UNSUPPORTED_SRTP_PROFILE, c.srtpProfile)
    && (if u.client.psk.None? && Offers(offer, Certificate) then MessageDraft(0, CertificateMessage(c.peerCertificates)) in offer
        else c.peerCertificates == [])
    && (c.remoteRequestedCertificate <==> u.client.psk.None? && Offers(offer, CertificateRequest))
  }

  /** A client that has read nothing of the server yet. */
  predicate Blank(c: State) {
    c.srtpProfile == UNSUPPORTED_SRTP_PROFILE && c.peerCertificates == [] && !c.remoteRequestedCertificate
  }

  lemma CertificatesFound(u: Setup, h: Honest)
    requires SetupOk(u) && Base(u, h) && ServerScript(u.server, u.crypto, h.server, h.serverPlan, h.offer)
    requires FullPulled(h.net.client.Cache(), h.client.state.recvSequence, AnswerRules(u.client)).Ok?
    requires h.offer.Some? && h.net.client.Popped() >= 1 + |h.offer.Or([])|
    ensures var msgs := MessagesPulled(h.net.client.Cache(), h.client.state.recvSequence, AnswerRules(u.client));
            if u.client.psk.None? then FoundOffered(msgs, h.offer.Or([]), Certificate) && FoundOffered(msgs, h.offer.Or([]), CertificateRequest)
            else Certificate !in msgs && CertificateRequest !in msgs
  {
    hide SetupOk, Base, ServerScript, FullPulled, AnswerRules, FoundOffered;
    AnswerRulesList(u.client);
    if u.client.psk.None? {
      OfferedFound(u, h, Rule(Certificate, 0, false, true));
      OfferedFound(u, h, Rule(CertificateRequest, 0, false, true));
    } else {
      PulledTypes(h.net.client.Cache(), h.client.state.recvSequence, AnswerRules(u.client));
    }
  }

  lemma ClientShown(u: Setup, h: Honest, key: nat)
    requires SetupOk(u) && AllOk(u, h) && Blank(h.client.state)
    ensures var (t, p) := AnswerParsed(h.client.state, u.client, u.crypto, h.net.client.Cache(), key);
            p.Next? ==> Shown(u, t, h.offer.Or([]))
  {
    hide SetupOk, Base, ClientScript, ServerScript, ServerHeard, ServerKeys, ServerDone, ClientAnswered, KeyedOk, FullPulled,
         AnswerRules, AnswerParsed, ProfileTaken, Offers, ExchangeGiven;
    var s, cache := h.client.state, h.net.client.Cache();
    if FullPulled(cache, s.recvSequence, AnswerRules(u.client)).Ok? {
      AnswerPulled(u, h);
      CertificatesFound(u, h);
      AnswerShown(s, u.client, u.crypto, cache, key);
      SameExtensions(h.offer.Or([])[0].message);
    } else {
      NotPulled(s, u.client, u.crypto, cache, key);
    }
  }

  lemma SameExtensions(m: Message)
    requires m.ServerHelloMessage?
    ensures Messages.Transmitted(m).ServerHelloMessage?
    ensures Messages.Transmitted(m).serverHello.extensions == m.serverHello.extensions
  {
  }

  // How the client answers

  /** A proof if and only if one was asked for and there is a certificate, made with the scheme that the
      client selects for its key. */
  ghost predicate ProofGiven(u: Setup, c: State, tail: seq<Draft>) {
    if c.remoteRequestedCertificate && u.client.certificate.Some? then
      |tail| == 3 && tail[0].MessageDraft? && tail[0].message.CertificateVerifyMessage?
      && u.crypto.selectScheme(u.client.signatureSchemes, u.client.certificate.value.privateKey) == Ok(tail[0].message.algorithm)
    else
      |tail| == 2
  }

  ghost predicate KeysGiven(u: Setup, c: State, k: Keyed) {
    k.keys == ClientFlights.KeyDrafts(c, u.client) && ProofGiven(u, c, k.tail)
  }

  ghost predicate SameView(s: State, t: State) {
    t.srtpProfile == s.srtpProfile && t.peerCertificates == s.peerCertificates
    && t.remoteRequestedCertificate == s.remoteRequestedCertificate
  }

  lemma TailGiven(u: Setup, s: State, cache: seq<Item>, keys: seq<Draft>, sending: Bytes)
    ensures var g := Flight5Finished(s, u.client, u.crypto, cache, keys, sending).1;
            g.Drafts? ==> keys <= g.drafts && ProofGiven(u, s, g.drafts[|keys|..])
  {
    hide Merged, NumberedText, HandshakeStates.Writable, FinishedData, Flight5Finished;
    TailIs(s, u.client, u.crypto, cache, keys, sending);
    var g := Flight5Finished(s, u.client, u.crypto, cache, keys, sending).1;
    if g.Drafts? {
      var proof := ProofDrafts(s, u.client, u.crypto, cache, sending).drafts;
      var data := FinishedData(s, u.crypto, cache, sending + NumberedText(proof, s.sendSequence + |keys|));
      assert g.drafts[|keys|..] == proof + [ChangeCipherSpecDraft, MessageDraft(1, FinishedMessage(data.value))];
    }
  }

  lemma Flight5Given(u: Setup, s: State, cache: seq<Item>, key: nat)
    ensures var (t, g) := Flight5Generated(s, u.client, u.crypto, cache, key);
            var keys := ClientFlights.KeyDrafts(s, u.client);
            SameView(s, t) && (g.Drafts? ==> keys <= g.drafts && ProofGiven(u, t, g.drafts[|keys|..]))
  {
    hide ExchangeAgain, ClientKeyed, Flight5Finished, Merged, NumberedText, HandshakeStates.Writable, ProofGiven,
         EndsInFinished, ExchangeHeld, RandomBytes, ClientKeyExchangeOf;
    var keys := ClientFlights.KeyDrafts(s, u.client);
    KeysShape(s, u.client);
    ExchangeFound(s, u.client, u.crypto, cache, key);
    ExchangeKeeps(s, u.client, u.crypto, cache, key);
    var (handled, exchange, failure) := ExchangeAgain(s, u.client, u.crypto, cache, key);
    if failure.None? && HandshakeStates.Writable(keys) {
      var sending := NumberedText(keys, s.sendSequence);
      ClientKeyedKeeps(handled, u.client, u.crypto, cache, exchange, sending);
      var keyed := ClientKeyed(handled, u.client, u.crypto, cache, exchange, sending).0;
      Flight5FinishedKeeps(keyed, u.client, u.crypto, cache, keys, sending);
      TailGiven(u, keyed, cache, keys, sending);
      SameProof(u, keyed, Flight5Finished(keyed, u.client, u.crypto, cache, keys, sending).0);
    }
  }

  lemma SameProof(u: Setup, s: State, t: State)
    requires t.remoteRequestedCertificate == s.remoteRequestedCertificate
    ensures forall tail :: ProofGiven(u, s, tail) <==> ProofGiven(u, t, tail)
  {
  }

  // Every run

  ghost predicate ClientPeer(u: Setup, m: Machine, offer: Option<seq<Draft>>, keyed: Option<Keyed>) {
    (!m.phase.Errored? && !m.flight.Flight5? ==> Blank(m.state))
    && (m.flight.Flight5? && (keyed.Some? || !m.phase.Errored?) ==> offer.Some? && Shown(u, m.state, offer.value))
    && (keyed.Some? ==> KeysGiven(u, m.state, keyed.value))
  }

  /** Once it has answered, the server has the client's random, as it travels. */
  ghost predicate ServerPeer(s: State, c: State, clientPlan: seq<SentMessage>, offer: Option<seq<Draft>>) {
    offer.Some? ==> clientPlan != [] && s.remoteRandom == c.localRandom.Transmitted()
  }

  ghost predicate Peers(u: Setup, h: Honest) {
    ClientPeer(u, h.client, h.offer, h.keyed) && ServerPeer(h.server.state, h.client.state, h.clientPlan, h.offer)
  }

  lemma SameShown(u: Setup, s: State, t: State, offer: seq<Draft>)
    requires SameView(s, t)
    ensures Shown(u, s, offer) <==> Shown(u, t, offer)
  {
    hide ProfileTaken;
  }

  lemma SameGiven(u: Setup, s: State, t: State, k: Keyed)
    requires SameView(s, t) && ClientKeyExchangeOf(s, u.client) == ClientKeyExchangeOf(t, u.client)
    ensures KeysGiven(u, s, k) <==> KeysGiven(u, t, k)
  {
  }

  /** Steps that leave what the sides know as it is. */
  lemma StillPeers(u: Setup, h: Honest, next: Honest)
    requires Peers(u, h) && next.offer == h.offer && next.keyed == h.keyed && h.clientPlan == next.clientPlan
    requires next.client.state == h.client.state && next.client.flight == h.client.flight
    requires next.client.phase.Errored? || !h.client.phase.Errored?
    requires next.server.state.remoteRandom == h.server.state.remoteRandom
    ensures Peers(u, next)
  {
    hide Shown, KeysGiven, Blank;
  }

  /** Only an answer leads to flight 5. */
  lemma LeadsOn(flight: Flight, s: State, cfg: Config, crypto: Crypto, cache: seq<Item>, key: nat)
    requires flight.Flight1? || flight.Flight3?
    ensures var (t, p) := FlightParsed(flight, s, cfg, crypto, cache, key);
            p.Next? ==> p == Next(Flight3) || (t, p) == AnswerParsed(s, cfg, crypto, cache, key)
  {
    hide AnswerParsed, FullPulled;
    ClientParses(s, cfg, crypto, cache, key);
  }

  lemma ClientReadsOn(u: Setup, h: Honest, key: nat)
    requires SetupOk(u) && AllOk(u, h) && Peers(u, h) && h.client.phase == Waiting
    requires h.client.flight.Flight1? || h.client.flight.Flight3?
    ensures Peers(u, ParsedBy(u, h, true, key))
  {
    hide SetupOk, AllOk, AnswerParsed, Shown, FlightParsed, Flight4Keyed, KeysGiven, AnswerOk, OldOrNew;
    NotYetKeyed(u, h);
    ClientParsed(u, h, key);
    ClientShown(u, h, key);
    LeadsOn(h.client.flight, h.client.state, u.client, u.crypto, h.net.client.Cache(), key);
  }

  lemma NotYetKeyed(u: Setup, h: Honest)
    requires AllOk(u, h) && !h.client.flight.Flight5?
    ensures h.keyed.None?
  {
    hide Base, ServerScript, ServerHeard, ServerKeys, ServerDone, KeyedOk, ClientAnswered, FirstHello, Hellos, KeyedShape;
  }

  lemma KeyingPeers(u: Setup, h: Honest, draws: Draws)
    requires SetupOk(u) && AllOk(u, h) && Peers(u, h) && Enabled(u, h, Prepare(true, draws)) && h.client.flight.Flight5?
    ensures Peers(u, PreparedBy(u, h, true, draws))
  {
    hide SetupOk, Base, Scripts, PreparedBy, Enabled, Shown, ProofGiven, Flight5Generated, SentOf, HandshakeStates.Writable,
         Table, ClientKeyExchangeOf, Merged, NumberedText, KeyedShape, AnswerOk;
    var after := PreparedBy(u, h, true, draws);
    KeyingPlan(u, h, draws);
    Flight5Random(h.client.state, u.client, u.crypto, h.net.client.Cache(), draws.key);
    Flight5Given(u, h.client.state, h.net.client.Cache(), draws.key);
    SameShown(u, h.client.state, after.client.state, h.offer.Or([]));
    var (t, g) := Flight5Generated(h.client.state, u.client, u.crypto, h.net.client.Cache(), draws.key);
    SameProof(u, t, after.client.state);
    if after.keyed.Some? {
      KeyingRecord(u, h, draws);
      RecordedExchange(u, after, h.offer.Or([]));
      KeysShape(h.client.state, u.client);
      SameGiven(u, h.client.state, after.client.state, after.keyed.Or(UNKEYED));
    }
  }

  predicate EndsInExchange(keys: seq<Draft>, exchange: Message) {
    keys != [] && keys[|keys| - 1].MessageDraft? && keys[|keys| - 1].message == exchange
  }

  lemma RecordedExchange(u: Setup, after: Honest, offer: seq<Draft>)
    requires KeyedOk(u, after.client.state, after.clientPlan, after.serverPlan, offer, after.keyed.Or(UNKEYED))
    ensures EndsInExchange(after.keyed.Or(UNKEYED).keys, ClientKeyExchangeOf(after.client.state, u.client))
  {
    hide Text, NumberedText, MasterSecret, RandomBytes, Signed, Vouched, PskOk, ClientKeyExchangeOf, SentOf, TailShaped, Hellos,
         HandshakeStates.Writable;
  }

  lemma HelloView(u: Setup, h: Honest, draws: Draws)
    requires SetupOk(u) && AllOk(u, h) && Peers(u, h) && Enabled(u, h, Prepare(true, draws))
    requires h.client.flight.Flight1? || h.client.flight.Flight3?
    ensures Peers(u, PreparedBy(u, h, true, draws))
  {
    hide SetupOk, Base, Scripts, PreparedBy, Enabled, Shown, KeysGiven, ClientScript, HelloOf;
    HelloOut(u, h, draws);
    HelloBlank(u, h, draws);
  }

  lemma HelloBlank(u: Setup, h: Honest, draws: Draws)
    requires h.client.flight.Flight1? || h.client.flight.Flight3?
    ensures SameView(h.client.state, PreparedBy(u, h, true, draws).client.state)
    ensures Enabled(u, h, Prepare(true, draws)) ==> h.client.phase == Preparing
  {
    hide HelloOf, KeyedOf, Planned, NumberedPackets, TopEpoch, MessageCount, Flight5Generated, Writable;
    ClientGenerates(h.client.state, u.client, u.crypto, h.net.client.Cache(), draws);
  }

  /** The server has heard the client's hello when it answers. */
  lemma AnswerPeers(u: Setup, h: Honest, draws: Draws)
    requires SetupOk(u) && AllOk(u, h) && Peers(u, h) && Enabled(u, h, Prepare(false, draws))
    requires h.server.flight.Flight0? || h.server.flight.Flight2? || h.server.flight.Flight4?
    ensures Peers(u, PreparedBy(u, h, false, draws))
  {
    hide SetupOk, Base, ClientScript, ServerScript, ServerKeys, ServerDone, KeyedOk, PreparedBy, Enabled, Shown, KeysGiven,
         AnswerOk, Reading.Ready;
    AnswerOut(u, h, draws);
    NotErrored(u, h, Prepare(false, draws));
    OfferedLater(u, h, draws);
  }

  lemma OfferedLater(u: Setup, h: Honest, draws: Draws)
    ensures PreparedBy(u, h, false, draws).offer.Some? ==> h.offer.Some? || h.server.flight.Flight4?
  {
    hide Prepared, FlightGenerated, Planned;
  }

  lemma FinishPeers(u: Setup, h: Honest, draws: Draws)
    requires SetupOk(u) && AllOk(u, h) && Peers(u, h) && Enabled(u, h, Prepare(false, draws)) && h.server.flight.Flight6?
    ensures Peers(u, PreparedBy(u, h, false, draws))
  {
    hide SetupOk, AllOk, PreparedBy, Enabled, Peers;
    FinishOut(u, h, draws);
    StillPeers(u, h, PreparedBy(u, h, false, draws));
  }

  lemma PrepareView(u: Setup, h: Honest, byClient: bool, draws: Draws)
    requires SetupOk(u) && AllOk(u, h) && Peers(u, h) && Enabled(u, h, Prepare(byClient, draws))
    ensures Peers(u, PreparedBy(u, h, byClient, draws))
  {
    hide SetupOk, AllOk, PreparedBy, Enabled, Peers;
    ScriptSides(u, h);
    if byClient {
      if h.client.flight.Flight5? {
        KeyingPeers(u, h, draws);
      } else {
        HelloView(u, h, draws);
      }
    } else if h.server.flight.Flight6? {
      FinishPeers(u, h, draws);
    } else {
      AnswerPeers(u, h, draws);
    }
  }

  /** What the client knows and has said is the same, and so is what the server has of it. */
  ghost predicate OnlyServerMoves(h: Honest, next: Honest) {
    next.client == h.client && next.clientPlan == h.clientPlan && next.offer == h.offer && next.keyed == h.keyed
    && (next.offer.Some? ==> next.server.state.remoteRandom == h.server.state.remoteRandom)
  }

  lemma ServerMoves(u: Setup, h: Honest, next: Honest)
    requires Peers(u, h) && OnlyServerMoves(h, next)
    ensures Peers(u, next)
  {
    hide ClientPeer;
  }

  lemma HelloRead(u: Setup, h: Honest, key: nat)
    requires h.offer.None? && !h.server.flight.Flight4?
    ensures OnlyServerMoves(h, ParsedBy(u, h, false, key))
  {
    hide FlightParsed, AfterParse, Flight4Keyed, Flight4Finished, HonestWorlds.Taken;
  }

  lemma KeysRead(u: Setup, h: Honest, key: nat)
    requires h.server.flight.Flight4?
    ensures OnlyServerMoves(h, ParsedBy(u, h, false, key))
  {
    hide FlightParsed, Flight4Keyed, HonestWorlds.Taken, FullPulled, Stays;
    Flight4Stays(h.server.state, u.server, u.crypto, h.net.server.Cache());
  }

  lemma NothingOffered(u: Setup, h: Honest)
    requires AllOk(u, h) && (h.server.flight.Flight0? || h.server.flight.Flight2?)
    ensures h.offer.None?
  {
    hide Base, ClientScript, ServerHeard, ServerKeys, ServerDone, KeyedOk, ClientAnswered, Answered, Flight4Generated,
         VerifyOnly, FinishedAt;
  }

  lemma ServerReadsOn(u: Setup, h: Honest, key: nat)
    requires SetupOk(u) && AllOk(u, h) && Peers(u, h) && h.server.phase == Waiting
    ensures Peers(u, ParsedBy(u, h, false, key))
  {
    hide SetupOk, AllOk, Peers, ParsedBy, OnlyServerMoves;
    ScriptSides(u, h);
    if h.server.flight.Flight4? {
      KeysRead(u, h, key);
    } else {
      NothingOffered(u, h);
      HelloRead(u, h, key);
    }
    ServerMoves(u, h, ParsedBy(u, h, false, key));
  }

  lemma ParseView(u: Setup, h: Honest, byClient: bool, key: nat)
    requires SetupOk(u) && AllOk(u, h) && Peers(u, h) && MachineOf(h, byClient).phase == Waiting
    ensures Peers(u, ParsedBy(u, h, byClient, key))
  {
    hide SetupOk, AllOk, ParsedBy, Peers;
    ScriptSides(u, h);
    if byClient {
      if h.client.flight.Flight5? {
        FinishView(u, h, key);
      } else {
        ClientReadsOn(u, h, key);
      }
    } else {
      ServerReadsOn(u, h, key);
    }
  }

  lemma FinishView(u: Setup, h: Honest, key: nat)
    requires Peers(u, h) && h.client.flight.Flight5? && h.client.phase == Waiting
    ensures Peers(u, ParsedBy(u, h, true, key))
  {
    hide Peers, Flight5Parsed, FlightParsed, Flight4Keyed;
    ClientParses(h.client.state, u.client, u.crypto, h.net.client.Cache(), key);
    Flight5Effect(h.client.state, u.crypto, h.net.client.Cache());
    StillPeers(u, h, ParsedBy(u, h, true, key));
  }

  lemma OtherView(u: Setup, h: Honest, act: Act)
    requires Peers(u, h) && Enabled(u, h, act) && !act.Prepare? && !act.Parse?
    ensures Peers(u, Acted(u, h, act))
  {
    hide Peers, Emitted, HonestWorlds.Taken, PreparedBy, ParsedBy, IsAlert, Prepared;
    StillPeers(u, h, Acted(u, h, act));
  }

  lemma ActView(u: Setup, h: Honest, act: Act)
    requires SetupOk(u) && AllOk(u, h) && Peers(u, h) && Enabled(u, h, act)
    ensures Peers(u, Acted(u, h, act))
  {
    hide SetupOk, AllOk, PreparedBy, ParsedBy, Peers, Emitted, HonestWorlds.Taken, Prepared;
    match act
    case Prepare(byClient, draws) => PrepareView(u, h, byClient, draws);
    case Parse(byClient, key) => ParseView(u, h, byClient, key);
    case _ => OtherView(u, h, act);
  }

  lemma {:induction false} RunPeers(u: Setup, h: Honest, acts: seq<Act>, end: Honest)
    requires SetupOk(u) && AllOk(u, h) && Peers(u, h) && HonestWorlds.Reaches(u, h, acts, end)
    ensures AllOk(u, end) && Peers(u, end)
    decreases |acts|
  {
    hide SetupOk, AllOk, Acted, Enabled, Peers;
    if acts != [] {
      ActKeeps(u, h, acts[0]);
      ActView(u, h, acts[0]);
      RunPeers(u, Acted(u, h, acts[0]), acts[1..], end);
    }
  }

  // What it means

  lemma BeginPeers(u: Setup)
    ensures Peers(u, Begin())
  {
    hide Shown, KeysGiven;
  }

  predicate Asks(cfg: Config) {
    cfg.psk.None? && cfg.clientAuth != NoClientCert
  }

  /** The certificates, the request and the hint among these drafts. */
  ghost predicate Credentials(cfg: Config, drafts: seq<Draft>) {
    (forall x :: MessageDraft(0, CertificateMessage(x)) in drafts ==> cfg.certificate.Some? && x == cfg.certificate.value.chain)
    && (Offers(drafts, Certificate) <==> cfg.psk.None?)
    && (Offers(drafts, CertificateRequest) <==> Asks(cfg))
    && (cfg.psk.Some? ==>
          (Offers(drafts, ServerKeyExchange) <==> cfg.pskHint.Some?)
          && forall x :: MessageDraft(0, ServerKeyExchangeMessage(x)) in drafts ==> cfg.pskHint == Some(x.identityHint))
  }

  lemma OffersEither(a: seq<Draft>, b: seq<Draft>, t: HandshakeType)
    ensures Offers(a + b, t) <==> Offers(a, t) || Offers(b, t)
  {
    hide Message.Type;
    forall i | OffersAt(a, t, i)
      ensures OffersAt(a + b, t, i)
    {
    }
    forall i | OffersAt(b, t, i)
      ensures OffersAt(a + b, t, |a| + i)
    {
    }
    forall i | OffersAt(a + b, t, i)
      ensures OffersAt(a, t, i) || OffersAt(b, t, i - |a|)
    {
    }
  }

  lemma OffersOne(m: Message, t: HandshakeType)
    ensures Offers([MessageDraft(0, m)], t) <==> m.Type() == t
  {
    hide Message.Type;
    assert m.Type() == t ==> OffersAt([MessageDraft(0, m)], t, 0);
  }

  lemma OffersNothing(t: HandshakeType)
    ensures !Offers([], t)
  {
  }

  lemma ShareOffers(s: State, crypto: Crypto, certificate: LocalCertificate, scheme: SignatureHashAlgorithm)
    requires KeyShare(s, crypto, certificate, scheme).Ok?
    ensures var share := KeyShare(s, crypto, certificate, scheme).value;
            !Offers(share, Certificate) && !Offers(share, CertificateRequest)
            && forall d :: d in share ==> d.MessageDraft? && !d.message.CertificateMessage?
  {
    hide RandomBytes;
  }

  lemma CertificateCredentials(s: State, cfg: Config, crypto: Crypto)
    requires CertificateDrafts(s, cfg, crypto).Drafts? && cfg.psk.None?
    ensures Credentials(cfg, CertificateDrafts(s, cfg, crypto).drafts)
  {
    hide KeyShare, Offers, Message.Type;
    var certificate := cfg.certificate.value;
    var scheme := crypto.selectScheme(cfg.signatureSchemes, certificate.privateKey).value;
    ShareOffers(s, crypto, certificate, scheme);
    var chain, request := CertificateMessage(certificate.chain), CertificateRequestMessage([1, 64], cfg.signatureSchemes);
    var first, share := [MessageDraft(0, chain)], KeyShare(s, crypto, certificate, scheme).value;
    var last := if cfg.clientAuth.NoClientCert? then [] else [MessageDraft(0, request)];
    CredentialTypes(certificate.chain, [1, 64], cfg.signatureSchemes);
    forall t | t == Certificate || t == CertificateRequest
      ensures Offers(first + share + last, t) <==> chain.Type() == t || (Asks(cfg) && request.Type() == t)
    {
      OffersEither(first + share, last, t);
      OffersEither(first, share, t);
      OffersOne(chain, t);
      OffersOne(request, t);
      OffersNothing(t);
    }
  }

  lemma CredentialTypes(chain: seq<Bytes>, types: Bytes, schemes: seq<SignatureHashAlgorithm>)
    ensures CertificateMessage(chain).Type() == Certificate
    ensures CertificateRequestMessage(types, schemes).Type() == CertificateRequest
  {
  }

  lemma KeyCredentials(s: State, cfg: Config, crypto: Crypto)
    requires ServerFlights.KeyDrafts(s, cfg, crypto).Drafts?
    ensures Credentials(cfg, ServerFlights.KeyDrafts(s, cfg, crypto).drafts)
  {
    hide CertificateDrafts;
    if cfg.psk.None? {
      CertificateCredentials(s, cfg, crypto);
    } else {
      HintCredentials(s, cfg, crypto);
    }
  }

  lemma HintCredentials(s: State, cfg: Config, crypto: Crypto)
    requires cfg.psk.Some? && ServerFlights.KeyDrafts(s, cfg, crypto).Drafts?
    ensures Credentials(cfg, ServerFlights.KeyDrafts(s, cfg, crypto).drafts)
  {
    hide Offers;
    var drafts := ServerFlights.KeyDrafts(s, cfg, crypto).drafts;
    forall t: HandshakeType
      ensures Offers(drafts, t) <==> cfg.pskHint.Some? && t == ServerKeyExchange
    {
      OffersNothing(t);
      OffersOne(ServerKeyExchangeMessage(NO_EXCHANGE.(identityHint := cfg.pskHint.Or([]))), t);
    }
  }

  lemma OfferCredentials(s: State, cfg: Config, crypto: Crypto, drafts: seq<Draft>)
    requires Flight4Generated(s, cfg, crypto).1 == Drafts(drafts)
    ensures Credentials(cfg, drafts)
  {
    hide ServerFlights.KeyDrafts, Offers, ServerHelloExtensions;
    KeyCredentials(s, cfg, crypto);
    var hello, keys := ServerHelloOf(s, cfg), ServerFlights.KeyDrafts(s, cfg, crypto).drafts;
    forall t | t == Certificate || t == CertificateRequest || t == ServerKeyExchange
      ensures Offers(drafts, t) <==> Offers(keys, t)
    {
      OffersEither([MessageDraft(0, hello)] + keys, [MessageDraft(0, ServerHelloDoneMessage)], t);
      OffersEither([MessageDraft(0, hello)], keys, t);
      OffersOne(hello, t);
      OffersOne(ServerHelloDoneMessage, t);
    }
  }

  lemma {:induction false} LastOfBoth(a: seq<Extension>, b: seq<Extension>)
    ensures LastProfiles(a + b) == if LastProfiles(b).Some? then LastProfiles(b) else LastProfiles(a)
    decreases |a|
  {
    if a == [] {
      assert a + b == b;
    } else {
      assert (a + b)[1..] == a[1..] + b;
      LastOfBoth(a[1..], b);
    }
  }

  /** The server's hello carries its profile, and only that. */
  lemma ProfileOnOffer(s: State, cfg: Config)
    ensures LastProfiles(ServerHelloExtensions(s, cfg))
         == if s.srtpProfile != UNSUPPORTED_SRTP_PROFILE then Some([s.srtpProfile]) else None
  {
    hide LastProfiles;
    var first := [RenegotiationInfo(0)];
    var extended := if cfg.extendedMasterSecret.Offers() && s.extendedMasterSecret then [UseExtendedMasterSecret(true)] else [];
    var srtp := if s.srtpProfile != UNSUPPORTED_SRTP_PROFILE then [UseSrtp([s.srtpProfile])] else [];
    var curves, formats := [SupportedEllipticCurves([0x17, 0x1d, 0x18])], [SupportedPointFormats([0])];
    JustOne(first[0]);
    JustOne(UseExtendedMasterSecret(true));
    JustOne(UseSrtp([s.srtpProfile]));
    JustOne(curves[0]);
    JustOne(formats[0]);
    NoProfiles();
    LastOfBoth(first, extended);
    LastOfBoth(first + extended, srtp);
    LastOfBoth(curves, formats);
    assert curves + formats == [curves[0], formats[0]];
    LastOfBoth(first + extended + srtp, if cfg.psk.None? then curves + formats else []);
  }

  lemma NoProfiles()
    ensures LastProfiles([]) == None
  {
  }

  lemma OneProfile(cfg: Config, extensions: seq<Extension>, s: State, after: U16)
    requires LastProfiles(extensions) == if s.srtpProfile != UNSUPPORTED_SRTP_PROFILE then Some([s.srtpProfile]) else None
    requires ProfileTaken(cfg, extensions, UNSUPPORTED_SRTP_PROFILE, after)
    ensures after == s.srtpProfile
  {
    hide LastProfiles;
  }

  /** The certificates that a server with this configuration shows. */
  predicate Shows(cfg: Config, certificates: seq<Bytes>) {
    if cfg.psk.Some? then certificates == [] else cfg.certificate.Some? && certificates == cfg.certificate.value.chain
  }

  /** A client that has read flight 4 uses the server's SRTP profile, holds the server's own certificates
      unless there is a shared key, and knows whether the server asks for its own. */
  lemma ServerKnown(u: Setup, acts: seq<Act>, h: Honest)
    requires SetupOk(u) && HonestWorlds.Reaches(u, Begin(), acts, h)
    requires h.client.flight.Flight5? && (h.keyed.Some? || !h.client.phase.Errored?)
    ensures h.client.state.srtpProfile == h.server.state.srtpProfile && Shows(u.server, h.client.state.peerCertificates)
    ensures h.client.state.remoteRequestedCertificate <==> Asks(u.server)
    ensures Credentials(u.server, h.offer.Or([]))
  {
    hide SetupOk, AllOk, Peers, HonestWorlds.Reaches;
    BeginOk(u);
    BeginPeers(u);
    RunPeers(u, Begin(), acts, h);
    ShownServer(u, h);
  }

  lemma ShownServer(u: Setup, h: Honest)
    requires SetupOk(u) && AllOk(u, h) && Peers(u, h)
    requires h.client.flight.Flight5? && (h.keyed.Some? || !h.client.phase.Errored?)
    ensures h.client.state.srtpProfile == h.server.state.srtpProfile && Shows(u.server, h.client.state.peerCertificates)
    ensures h.client.state.remoteRequestedCertificate <==> Asks(u.server)
    ensures Credentials(u.server, h.offer.Or([]))
  {
    hide Base, ClientScript, ServerHeard, ServerKeys, ServerDone, KeyedOk, ClientAnswered, Answered, FinishedAt, VerifyOnly,
         Flight4Generated, KeysGiven, ProfileTaken, ServerHelloExtensions, Offers, SoundSuites, SoundExchange, KnownSuites;
    var s, offer := h.server.state, h.offer.Or([]);
    OfferShape(s, u.server, u.crypto, offer);
    OfferCredentials(s, u.server, u.crypto, offer);
    ProfileOnOffer(s, u.server);
    OneProfile(u.client, ServerHelloExtensions(s, u.server), s, h.client.state.srtpProfile);
  }

  /** The client's certificates, or none if it has none. */
  function OwnChain(cfg: Config): seq<Bytes> {
    if cfg.certificate.Some? then cfg.certificate.value.chain else []
  }

  /** With a shared key the client names its identity, otherwise its public key. */
  function KeyMessage(cfg: Config, keypair: Option<Keypair>): Message {
    if cfg.psk.Some? then ClientKeyExchangeMessage(cfg.pskHint.Or([]), [])
    else ClientKeyExchangeMessage([], match keypair case Some(own) => own.publicKey case None => [])
  }

  function KeyMessages(asked: bool, chain: seq<Bytes>, exchange: Message): seq<Draft> {
    (if asked then [MessageDraft(0, CertificateMessage(chain))] else []) + [MessageDraft(0, exchange)]
  }

  ghost predicate GivesProof(drafts: seq<Draft>) {
    exists d :: d in drafts && d.MessageDraft? && d.message.CertificateVerifyMessage?
  }

  /** Asked for a certificate the client sends what it has, before its key exchange, and proves that it
      holds the key if it has one; otherwise it sends neither. */
  lemma RequestAnswered(u: Setup, acts: seq<Act>, h: Honest)
    requires SetupOk(u) && HonestWorlds.Reaches(u, Begin(), acts, h) && h.keyed.Some?
    ensures h.keyed.Or(UNKEYED).keys == KeyMessages(Asks(u.server), OwnChain(u.client), KeyMessage(u.client, h.client.state.localKeypair))
    ensures GivesProof(h.keyed.Or(UNKEYED).tail) <==> Asks(u.server) && u.client.certificate.Some?
  {
    hide SetupOk, AllOk, HonestWorlds.Reaches, Shown;
    BeginOk(u);
    BeginPeers(u);
    RunPeers(u, Begin(), acts, h);
    KeyedFlight(u, h);
    ShownServer(u, h);
    TailProves(u, h.client.state, h.keyed.Or(UNKEYED).tail);
  }

  lemma KeyedFlight(u: Setup, h: Honest)
    requires AllOk(u, h) && h.keyed.Some?
    ensures h.client.flight.Flight5? && ProofShaped(h.keyed.Or(UNKEYED).tail)
  {
    hide Base, ServerScript, ServerHeard, ServerKeys, ServerDone, ClientAnswered, KeyedShape, FirstHello, ProofShaped, Text,
         NumberedText, MasterSecret, RandomBytes, Signed, PskOk, ClientKeyExchangeOf, Reading.Ready;
  }

  lemma TailProves(u: Setup, c: State, tail: seq<Draft>)
    requires ProofGiven(u, c, tail) && ProofShaped(tail)
    ensures GivesProof(tail) <==> c.remoteRequestedCertificate && u.client.certificate.Some?
  {
    hide HandshakeStates.Writable;
    if |tail| == 3 {
      assert tail[0] in tail;
    }
  }
}
