/** Two honest sides that shake hands over the network, with the history the properties speak of. */
module HonestWorlds {
  import opened Wrappers
  import opened Bytes
  import opened Headers
  import opened Fragmenting
  import opened HandshakeCaches
  import opened CipherSuites
  import opened Sending
  import opened Reading
  import opened IncomingRecords
  import opened Reassembly
  import opened WireRecords
  import opened Network
  import opened HandshakeStates
  import opened ServerFlights
  import opened Handshaking
  import opened Planning

  datatype Setup = Setup(client: Config, server: Config, crypto: Crypto, clientMtu: Mtu, serverMtu: Mtu, passes: Detector)

  /** Flight 5 as prepared: after how many hellos, the key messages, what follows them, and the text
      that the client hashed for the session and signed. */
  datatype Keyed = Keyed(hellos: nat, keys: seq<Draft>, tail: seq<Draft>, text: Bytes)

  const UNKEYED := Keyed(0, [], [], [])

  /** The plans are all messages numbered so far; `offer` is flight 4 and `keyed` flight 5, once
      prepared. */
  datatype Honest = Honest(
    net: World,
    client: Machine,
    server: Machine,
    clientPlan: seq<SentMessage>,
    serverPlan: seq<SentMessage>,
    offer: Option<seq<Draft>>,
    keyed: Option<Keyed>)

  datatype Act =
    | Prepare(byClient: bool, draws: Draws)
    | Send(byClient: bool)
    | Expire(byClient: bool)
    | Parse(byClient: bool, key: nat)
    | Notify(byClient: bool, alert: Packet)
    | Arrive(byClient: bool, buf: Bytes)

  // What is asked of the outside

  ghost predicate WellBehaved(suite: CipherSuite, limit: nat) {
    Frames(suite, limit) && OpensToSameHeader(suite)
  }

  /** Suites with the same keys open each other's records. */
  ghost predicate SoundSuites(crypto: Crypto, limit: nat) {
    (forall id, master, cr, sr, side ::
       crypto.suite(id, master, cr, sr, side).Ok? ==>
         var suite := crypto.suite(id, master, cr, sr, side).value;
         suite.id == id && suite.initialized && WellBehaved(suite, limit))
    && (forall id, master, cr, sr, side ::
          crypto.suite(id, master, cr, sr, side).Ok? && crypto.suite(id, master, cr, sr, !side).Ok? ==>
            Opens(crypto.suite(id, master, cr, sr, side).value, crypto.suite(id, master, cr, sr, !side).value, limit))
  }

  /** Two key pairs of one curve agree on a secret. */
  ghost predicate SoundExchange(crypto: Crypto) {
    forall curve, i, j ::
      crypto.keypair(curve, i).Ok? && crypto.keypair(curve, j).Ok? ==>
        var a, b := crypto.keypair(curve, i).value, crypto.keypair(curve, j).value;
        crypto.preMasterSecret(a.publicKey, b).Ok? && crypto.preMasterSecret(b.publicKey, a).Ok? ==>
          crypto.preMasterSecret(a.publicKey, b) == crypto.preMasterSecret(b.publicKey, a)
  }

  /** With a pre-shared key, both sides look up the same one. */
  ghost predicate SharedKey(client: Config, server: Config) {
    client.psk.Some? == server.psk.Some?
    && (client.psk.Some? ==>
          forall hint, identity ::
            client.psk.value(hint).Ok? && server.psk.value(identity).Ok? ==>
              client.psk.value(hint) == server.psk.value(identity))
  }

  ghost predicate KnownSuites(cfg: Config) {
    forall id :: id in cfg.cipherSuites ==> SuiteForId(id).Ok?
  }

  ghost predicate SetupOk(u: Setup) {
    u.clientMtu + HANDSHAKE_HEADER_LENGTH < 0x1_0000
    && u.serverMtu + HANDSHAKE_HEADER_LENGTH < 0x1_0000
    && SoundSuites(u.crypto, RecordLimit(u.clientMtu)) && SoundSuites(u.crypto, RecordLimit(u.serverMtu))
    && SoundExchange(u.crypto)
    && SharedKey(u.client, u.server)
    && KnownSuites(u.client) && KnownSuites(u.server)
  }

  // These can all be met: records that are framed but not hidden, one key pair for everybody.

  function PlainEncrypt(raw: Bytes): Result<Bytes> {
    if |raw| < RECORD_LAYER_HEADER_SIZE || |raw| - RECORD_LAYER_HEADER_SIZE >= 0x1_0000 then
      Err(InvalidPacketLength)
    else
      Ok(raw[..11] + EncodeU16(|raw| - RECORD_LAYER_HEADER_SIZE) + raw[RECORD_LAYER_HEADER_SIZE..])
  }

  /** Verify data has twelve bytes (RFC 5246, section 7.4.9). */
  function Shortened(s: Bytes): Bytes {
    if |s| <= 12 then s else s[..12]
  }

  function PlainSuite(id: U16): CipherSuite {
    CipherSuite.CipherSuite(id, true, IsPskSuite(id), (_, raw) => PlainEncrypt(raw), raw => Ok(raw))
  }

  const PLAIN_CRYPTO := Crypto(
    (curve: U16, _) => Ok(Keypair(curve, [1], [1])),
    (_, _) => Ok([1]),
    psk => psk,
    text => text,
    (pre, hash) => Ok(pre + hash),
    (pre, clientRandom, serverRandom) => Ok(pre + clientRandom + serverRandom),
    (master, text) => Ok(Shortened(master + text)),
    (master, text) => Ok(Shortened(master + text)),
    (_, _) => Err(NoAvailableSignatureSchemes),
    (_, _, _, _, _) => Ok([1]),
    (_, _, _, _) => true,
    (_, _) => Ok([1]),
    (_, _, _, _) => true,
    _ => true,
    (_, _) => true,
    (id: U16, _, _, _, _) => Ok(PlainSuite(id)))

  lemma PlainSuiteOpens(id: U16, limit: nat)
    ensures WellBehaved(PlainSuite(id), limit) && Opens(PlainSuite(id), PlainSuite(id), limit)
  {
  }

  /** Whatever the two configurations, as long as they know their suites and share their key. */
  lemma SetupExists(client: Config, server: Config, clientMtu: Mtu, serverMtu: Mtu, passes: Detector)
    requires clientMtu + HANDSHAKE_HEADER_LENGTH < 0x1_0000
    requires serverMtu + HANDSHAKE_HEADER_LENGTH < 0x1_0000
    requires SharedKey(client, server) && KnownSuites(client) && KnownSuites(server)
    ensures SetupOk(Setup(client, server, PLAIN_CRYPTO, clientMtu, serverMtu, passes))
  {
    hide WellBehaved, Opens, SharedKey, KnownSuites, Frames;
    forall id
      ensures WellBehaved(PlainSuite(id), RecordLimit(clientMtu)) && WellBehaved(PlainSuite(id), RecordLimit(serverMtu))
      ensures Opens(PlainSuite(id), PlainSuite(id), RecordLimit(clientMtu))
      ensures Opens(PlainSuite(id), PlainSuite(id), RecordLimit(serverMtu))
    {
      PlainSuiteOpens(id, RecordLimit(clientMtu));
      PlainSuiteOpens(id, RecordLimit(serverMtu));
    }
  }

  // Steps

  const NO_SUITE := NewSuite(0)

  /** What protects the later epochs of a side. */
  function SealerOf(m: Machine): CipherSuite {
    if Ready(m.state.cipherSuite) then m.state.cipherSuite.value else NO_SUITE
  }

  function ToServer(u: Setup, client: Machine): Link {
    Link(u.clientMtu, SealerOf(client))
  }

  function ToClient(u: Setup, server: Machine): Link {
    Link(u.serverMtu, SealerOf(server))
  }

  predicate IsAlert(p: Packet) {
    p.version == PROTOCOL_VERSION1_2 && p.content.OtherContent? && p.content.contentType == ContentType.Alert && |p.content.body| == 2
  }

  function MachineOf(h: Honest, client: bool): Machine {
    if client then h.client else h.server
  }

  function SideOf(h: Honest, client: bool): Side {
    if client then h.net.client else h.net.server
  }

  function PlanOf(h: Honest, client: bool): seq<SentMessage> {
    if client then h.clientPlan else h.serverPlan
  }

  function ConfigOf(u: Setup, client: bool): Config {
    if client then u.client else u.server
  }

  ghost predicate Enabled(u: Setup, h: Honest, act: Act) {
    var m := MachineOf(h, act.byClient);
    match act
    case Prepare(byClient, draws) =>
      m.phase == Preparing && draws.Valid()
      && |PlanOf(h, byClient)| + |Packets(Prepared(m, ConfigOf(u, byClient), u.crypto, SideOf(h, byClient).Cache(), draws))| < 0xFFFF
    case Send(_) => m.phase == Phase.Sending
    case Expire(_) => m.phase == Waiting
    case Parse(_, _) => m.phase == Waiting
    case Notify(_, alert) => IsAlert(alert)
    case Arrive(byClient, buf) => MayArrive(buf, if byClient then h.net.fromServer else h.net.fromClient)
  }

  ghost function WithMachine(h: Honest, client: bool, m: Machine): Honest {
    if client then h.(client := m) else h.(server := m)
  }

  /** A side sends packets under the suite it has. */
  ghost function Emitted(u: Setup, h: Honest, byClient: bool, pkts: seq<Packet>): (World, Result<seq<Bytes>>) {
    var suite := MachineOf(h, byClient).state.cipherSuite;
    if byClient then
      var (side, datagrams) := Network.Transmitted(h.net.client, suite, u.clientMtu, pkts);
      (h.net.(client := side, fromClient := Added(h.net.fromClient, datagrams)), datagrams)
    else
      var (side, datagrams) := Network.Transmitted(h.net.server, suite, u.serverMtu, pkts);
      (h.net.(server := side, fromServer := Added(h.net.fromServer, datagrams)), datagrams)
  }

  /** A side works through a datagram or its queue. */
  ghost function Taken(u: Setup, h: Honest, byClient: bool, event: Event): World {
    if byClient then
      h.net.(client := Received(h.net.client, u.passes, event, h.net.server.sent, ToClient(u, h.server)))
    else
      h.net.(server := Received(h.net.server, u.passes, event, h.net.client.sent, ToServer(u, h.client)))
  }

  ghost function PreparedBy(u: Setup, h: Honest, byClient: bool, draws: Draws): Honest {
    var m, cfg, cache := MachineOf(h, byClient), ConfigOf(u, byClient), SideOf(h, byClient).Cache();
    var next := Prepared(m, cfg, u.crypto, cache, draws);
    var plan := Planned(PlanOf(h, byClient), Packets(next));
    var generated := FlightGenerated(m.flight, m.state, cfg, u.crypto, cache, draws).1;
    if byClient then
      h.(client := next, clientPlan := plan,
         keyed := if m.flight.Flight5? && next.phase == Phase.Sending && generated.Drafts?
                  then Some(KeyedOf(m.state, cfg, cache, generated.drafts, |h.clientPlan|)) else h.keyed)
    else
      h.(server := next, serverPlan := plan,
         offer := if m.flight.Flight4? && next.phase == Phase.Sending && generated.Drafts? then Some(generated.drafts) else h.offer)
  }

  ghost function KeyedOf(s: State, cfg: Config, cache: seq<Item>, drafts: seq<Draft>, hellos: nat): Keyed {
    var keys := ClientFlights.KeyDrafts(s, cfg);
    Keyed(hellos, keys, if |keys| <= |drafts| then drafts[|keys|..] else [],
          Merged(cache, KEY_EXCHANGE_RULES) + if HandshakeStates.Writable(keys) then NumberedText(keys, s.sendSequence) else [])
  }

  /** Flight 4 lets the records that waited for keys be read before it looks for the Finished. */
  ghost function ParsedBy(u: Setup, h: Honest, byClient: bool, key: nat): Honest {
    var m, cfg, cache := MachineOf(h, byClient), ConfigOf(u, byClient), SideOf(h, byClient).Cache();
    if m.flight.Flight4? then
      match Flight4Keyed(m.state, cfg, u.crypto, cache)
      case (s, Halt(failure)) => WithMachine(h, byClient, AfterParse(m, s, Failed(failure)))
      case (s, Continue(next)) =>
        var keyed := WithMachine(h, byClient, m.(state := s));
        var read := keyed.(net := Taken(u, keyed, byClient, Queue(s.cipherSuite)));
        var (t, parsed) := Flight4Finished(s, cfg, SideOf(read, byClient).Cache(), next);
        WithMachine(read, byClient, AfterParse(m, t, parsed))
    else
      var (s, parsed) := FlightParsed(m.flight, m.state, cfg, u.crypto, cache, key);
      WithMachine(h, byClient, AfterParse(m, s, parsed))
  }

  ghost function Acted(u: Setup, h: Honest, act: Act): Honest {
    var m := MachineOf(h, act.byClient);
    match act
    case Prepare(byClient, draws) => PreparedBy(u, h, byClient, draws)
    case Send(byClient) =>
      var (net, datagrams) := Emitted(u, h, byClient, Packets(m));
      WithMachine(h.(net := net), byClient, AfterSend(m, datagrams))
    case Expire(byClient) => WithMachine(h, byClient, Expired(m))
    case Parse(byClient, key) => ParsedBy(u, h, byClient, key)
    case Notify(byClient, alert) => h.(net := Emitted(u, h, byClient, [alert]).0)
    case Arrive(byClient, buf) => h.(net := Taken(u, h, byClient, Datagram(buf, m.state.cipherSuite)))
  }

  function Begin(): Honest {
    Honest(START, Started(true), Started(false), [], [], None, None)
  }

  ghost predicate Reaches(u: Setup, h: Honest, acts: seq<Act>, end: Honest)
    decreases |acts|
  {
    if acts == [] then end == h
    else Enabled(u, h, acts[0]) && Reaches(u, Acted(u, h, acts[0]), acts[1..], end)
  }
}
