/** What the two sides of an honest handshake have said and agreed on, at any moment. */
module HonestScripts {
  import opened Wrappers
  import opened Bytes
  import opened Headers
  import opened Extensions
  import opened Messages
  import opened Handshakes
  import opened HandshakeCaches
  import opened Reading
  import opened Reassembly
  import opened TableTexts
  import opened HandshakeStates
  import opened ServerFlights
  import opened ClientFlights
  import opened Handshaking
  import opened Planning
  import opened HonestWorlds
  import opened HonestSends

  // The client's messages

  ghost predicate Hellos(plan: seq<SentMessage>, n: int) {
    0 <= n <= |plan| && forall i :: 0 <= i < n ==> plan[i].h.typ == ClientHello && plan[i].epoch == 0
  }

  ghost predicate FirstHello(cfg: Config, random: HandshakeRandom, plan: seq<SentMessage>) {
    plan != [] && WellFormed(HelloOf(random, [], cfg))
    && plan[0] == SentMessage(Numbered(HelloOf(random, [], cfg), 0), 0)
  }

  /** Perhaps a certificate, and a key exchange. */
  ghost predicate KeyShaped(keys: seq<Draft>) {
    1 <= |keys| <= 2
    && keys[|keys| - 1].MessageDraft? && keys[|keys| - 1].epoch == 0 && keys[|keys| - 1].message.ClientKeyExchangeMessage?
    && (|keys| == 2 ==> keys[0].MessageDraft? && keys[0].epoch == 0 && keys[0].message.CertificateMessage?)
  }

  /** Perhaps a proof, the change of epoch, and last the Finished. */
  ghost predicate TailShaped(tail: seq<Draft>) {
    tail != []
    && (forall d :: d in tail[..|tail| - 1] && d.MessageDraft? ==> d.epoch == 0 && d.message.CertificateVerifyMessage?)
    && tail[|tail| - 1].MessageDraft? && tail[|tail| - 1].epoch == 1 && tail[|tail| - 1].message.FinishedMessage?
  }

  ghost predicate KeyedShape(plan: seq<SentMessage>, k: Keyed) {
    KeyShaped(k.keys) && TailShaped(k.tail) && HandshakeStates.Writable(k.keys) && HandshakeStates.Writable(k.tail)
    && Hellos(plan, k.hellos)
    && plan[k.hellos..] == SentOf(k.keys, k.hellos) + SentOf(k.tail, k.hellos + |k.keys|)
  }

  ghost predicate ClientScript(cfg: Config, m: Machine, plan: seq<SentMessage>, keyed: Option<Keyed>) {
    (if plan == [] then m.phase.Errored? || (m.flight.Flight1? && m.phase == Preparing)
     else FirstHello(cfg, m.state.localRandom, plan) && !(m.flight.Flight1? && m.phase == Preparing))
    && (m.flight.Flight1? || m.flight.Flight3? || m.flight.Flight5?)
    && match keyed
       case None =>
         Hellos(plan, |plan|) && (m.flight.Flight5? ==> m.phase == Preparing || m.phase.Errored?)
         && (!m.phase.Errored? ==> !Ready(m.state.cipherSuite) && m.state.localVerifyData == [])
         && (!m.phase.Errored? && !m.flight.Flight5? ==> !m.state.extendedMasterSecret)
       case Some(k) => m.flight.Flight5? && m.phase != Preparing && KeyedShape(plan, k)
  }

  // The server's messages

  ghost predicate AllMessages(drafts: seq<Draft>) {
    forall d :: d in drafts ==> d.MessageDraft? && d.epoch == 0
  }

  ghost function FinishedAt(data: Bytes, n: nat): SentMessage
    requires WellFormed(FinishedMessage(data))
  {
    SentMessage(Numbered(FinishedMessage(data), WrappedU16(n)), 1)
  }

  /** The HelloVerifyRequest and flight 4. */
  ghost predicate Answered(plan: seq<SentMessage>, drafts: seq<Draft>) {
    HandshakeStates.Writable(drafts) && AllMessages(drafts)
    && |plan| > |drafts| && plan[0].h.typ == HelloVerifyRequest && plan[0].epoch == 0
    && plan[1..1 + |drafts|] == SentOf(drafts, 1)
  }

  ghost predicate ServerScript(cfg: Config, crypto: Crypto, m: Machine, plan: seq<SentMessage>, offer: Option<seq<Draft>>) {
    (m.flight.Flight0? || m.flight.Flight2? || m.flight.Flight4? || m.flight.Flight6?)
    && match offer
       case None =>
         VerifyOnly(plan, m.state.cookie) && !m.flight.Flight6?
         && (m.flight.Flight4? ==> (m.phase == Preparing && plan != []) || m.phase.Errored?)
         && (m.flight.Flight0? ==> plan == [])
         && (m.flight.Flight2? && plan == [] ==> m.phase == Preparing || m.phase.Errored?)
       case Some(drafts) =>
         ((m.flight.Flight6? && m.phase != Waiting) || (m.flight.Flight4? && m.phase != Preparing))
         && Answered(plan, drafts)
         && Flight4Generated(m.state, cfg, crypto) == (m.state, Drafts(drafts))
         && (|plan| == 1 + |drafts|
             || (|plan| == 2 + |drafts| && m.flight.Flight6? && m.phase != Preparing
                 && WellFormed(FinishedMessage(m.state.localVerifyData))
                 && plan[1 + |drafts|] == FinishedAt(m.state.localVerifyData, 1 + |drafts|)))
         && (!m.phase.Errored? ==>
               (m.flight.Flight6? && m.phase != Preparing <==> |plan| == 2 + |drafts|))
  }

  // What they have agreed on

  const P256: U16 := 0x17

  /** What the server has taken from the client's first hello. */
  ghost predicate Negotiated(u: Setup, s: State, random: HandshakeRandom) {
    s.remoteRandom == random.Transmitted()
    && s.extendedMasterSecret == (u.client.extendedMasterSecret.Offers() && u.server.extendedMasterSecret.Offers())
    && s.cipherSuite.Some?
    && (u.client.psk.None? ==>
          s.namedCurve == P256 && s.localKeypair.Some?
          && exists key :: u.crypto.keypair(P256, key) == Ok(s.localKeypair.value))
  }

  ghost predicate ServerHeard(u: Setup, m: Machine, random: HandshakeRandom, clientPlan: seq<SentMessage>) {
    !m.phase.Errored? ==>
      if m.flight.Flight0? then
        !m.state.extendedMasterSecret && m.state.cipherSuite.None? && m.state.localKeypair.None?
      else
        clientPlan != [] && Negotiated(u, m.state, random) && (m.flight.Flight2? ==> !Ready(m.state.cipherSuite))
  }

  /** What the client has taken from flight 4. */
  ghost predicate AnswerOk(u: Setup, c: State, drafts: seq<Draft>) {
    drafts != [] && drafts[0].MessageDraft? && drafts[0].message.ServerHelloMessage?
    && var hello := drafts[0].message.serverHello;
       c.remoteRandom == hello.random.Transmitted()
       && c.cipherSuite.Some? && c.cipherSuite.value.id == hello.cipherSuite
       && c.extendedMasterSecret == (UseExtendedMasterSecret(true) in hello.extensions && u.client.extendedMasterSecret.Offers())
       && (u.client.psk.None? ==> ExchangeOk(u.crypto, c, drafts))
       && (u.client.psk.Some? && OffersExchange(drafts) ==> PskOk(u, c))
  }

  ghost predicate OffersExchange(drafts: seq<Draft>) {
    exists x :: MessageDraft(0, ServerKeyExchangeMessage(x)) in drafts
  }

  /** The pre-master secret comes from the shared key. */
  ghost predicate PskOk(u: Setup, c: State)
    requires u.client.psk.Some?
  {
    exists hint ::
      u.client.psk.value(hint).Ok? && c.preMasterSecret == u.crypto.pskPreMasterSecret(u.client.psk.value(hint).value)
  }

  ghost predicate ExchangeOk(crypto: Crypto, c: State, drafts: seq<Draft>) {
    c.localKeypair.Some?
    && exists x, key ::
         MessageDraft(0, ServerKeyExchangeMessage(x)) in drafts
         && crypto.keypair(x.namedCurve, key) == Ok(c.localKeypair.value)
         && crypto.preMasterSecret(x.publicKey, c.localKeypair.value) == Ok(c.preMasterSecret)
  }

  ghost predicate ClientAnswered(u: Setup, m: Machine, offer: Option<seq<Draft>>, keyed: Option<Keyed>, popped: nat) {
    m.flight.Flight5? && (keyed.Some? || !m.phase.Errored?) ==>
      offer.Some? && popped >= 1 + |offer.value| && AnswerOk(u, m.state, offer.value)
  }

  /** A proof is a signature of the text. */
  ghost predicate Signed(cfg: Config, crypto: Crypto, drafts: seq<Draft>, text: Bytes) {
    forall d :: d in drafts && d.MessageDraft? && d.message.CertificateVerifyMessage? ==>
      cfg.certificate.Some? && crypto.signTranscript(text, cfg.certificate.value.privateKey) == Ok(d.message.signature)
  }

  /** What comes between the key messages and the change of epoch: perhaps a proof. */
  function ProofPart(tail: seq<Draft>): seq<Draft>
    requires |tail| >= 2
  {
    tail[..|tail| - 2]
  }

  ghost predicate ProofShaped(tail: seq<Draft>) {
    2 <= |tail| <= 3
    && (forall d :: d in ProofPart(tail) ==> d.MessageDraft? && d.epoch == 0 && d.message.CertificateVerifyMessage?)
    && HandshakeStates.Writable(ProofPart(tail)) && tail[|tail| - 2].ChangeCipherSpecDraft?
    && tail[|tail| - 1].MessageDraft? && tail[|tail| - 1].epoch == 1 && tail[|tail| - 1].message.FinishedMessage?
  }

  /** The Finished vouches for `text`, which precedes the proof, and for the proof. */
  ghost predicate Vouched(crypto: Crypto, master: Bytes, tail: seq<Draft>, text: Bytes, next: int) {
    ProofShaped(tail)
    && crypto.verifyDataClient(master, text + NumberedText(ProofPart(tail), next)) == Ok(tail[|tail| - 1].message.verifyData)
  }

  /** What the client hashes, signs and keys itself with when it prepares flight 5. */
  ghost predicate KeyedOk(u: Setup, c: State, clientPlan: seq<SentMessage>, serverPlan: seq<SentMessage>, drafts: seq<Draft>, k: Keyed) {
    |serverPlan| > |drafts| && KeyedShape(clientPlan, k)
    && k.text == Text(clientPlan[..k.hellos], serverPlan[..1 + |drafts|], KEY_EXCHANGE_RULES) + NumberedText(k.keys, k.hellos)
    && Ready(c.cipherSuite)
    && MasterSecret(u.crypto, c.extendedMasterSecret, c.preMasterSecret, k.text, c.localRandom, c.remoteRandom) == Ok(c.masterSecret)
    && u.crypto.suite(c.cipherSuite.value.id, c.masterSecret, RandomBytes(c.localRandom), RandomBytes(c.remoteRandom), true)
       == Ok(c.cipherSuite.value)
    && k.keys[|k.keys| - 1].message == ClientKeyExchangeOf(c, u.client)
    && Signed(u.client, u.crypto, k.tail, k.text)
    && Vouched(u.crypto, c.masterSecret, k.tail,
               Text(clientPlan[..k.hellos], serverPlan[..1 + |drafts|], FINISHED_RULES) + NumberedText(k.keys, k.hellos),
               k.hellos + |k.keys|)
    && (u.client.psk.Some? ==> PskOk(u, c))
  }

  /** A server with keys has the client's keys. */
  ghost predicate ServerKeys(u: Setup, c: State, s: State, keyed: Option<Keyed>) {
    Ready(s.cipherSuite) ==>
      keyed.Some? && Ready(c.cipherSuite) && s.masterSecret == c.masterSecret
      && u.crypto.suite(c.cipherSuite.value.id, c.masterSecret, RandomBytes(c.localRandom), RandomBytes(c.remoteRandom), false)
         == Ok(s.cipherSuite.value)
  }

  /** A server in flight 6 has everything the client ever says, and its Finished is the one the
      client will compute. */
  ghost predicate ServerDone(u: Setup, c: State, m: Machine, clientPlan: seq<SentMessage>, serverPlan: seq<SentMessage>,
                             offer: Option<seq<Draft>>, popped: nat)
  {
    (m.flight.Flight6? ==> Ready(m.state.cipherSuite) && popped == |clientPlan|)
    && (m.flight.Flight6? && m.phase == Preparing ==> m.state.localVerifyData == [])
    && (offer.Some? && |serverPlan| == 2 + |offer.value| ==>
          u.crypto.verifyDataServer(c.masterSecret, Text(clientPlan, serverPlan[..1 + |offer.value|], FINISHED_RULES))
          == Ok(m.state.localVerifyData))
  }

  ghost predicate Scripts(u: Setup, h: Honest) {
    ClientScript(u.client, h.client, h.clientPlan, h.keyed)
    && ServerScript(u.server, u.crypto, h.server, h.serverPlan, h.offer)
    && ServerHeard(u, h.server, h.client.state.localRandom, h.clientPlan)
    && ClientAnswered(u, h.client, h.offer, h.keyed, h.net.client.Popped())
    && (h.keyed.Some? ==>
          h.offer.Some? && KeyedOk(u, h.client.state, h.clientPlan, h.serverPlan, h.offer.Or([]), h.keyed.Or(UNKEYED)))
    && ServerKeys(u, h.client.state, h.server.state, h.keyed)
    && ServerDone(u, h.client.state, h.server, h.clientPlan, h.serverPlan, h.offer, h.net.server.Popped())
    && (h.server.flight.Flight0? || h.server.flight.Flight2? || h.server.flight.Flight4? ==> h.server.state.localVerifyData == [])
  }

  /** Everything an honest handshake keeps. */
  ghost predicate AllOk(u: Setup, h: Honest) {
    Base(u, h) && Scripts(u, h)
  }

  lemma KeysAgree(u: Setup, c: Machine, s: Machine, keyed: Option<Keyed>)
    requires SetupOk(u) && ServerKeys(u, c.state, s.state, keyed)
    requires Ready(c.state.cipherSuite) ==>
               u.crypto.suite(c.state.cipherSuite.value.id, c.state.masterSecret, RandomBytes(c.state.localRandom),
                              RandomBytes(c.state.remoteRandom), true) == Ok(c.state.cipherSuite.value)
    ensures KeysMatch(u, c, s)
  {
    hide RandomBytes, KnownSuites;
  }
}
