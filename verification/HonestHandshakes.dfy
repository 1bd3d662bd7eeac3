/** What holds in every honest handshake, whatever the network loses, repeats or reorders. */
module HonestHandshakes {
  import opened Wrappers
  import opened Headers
  import opened Messages
  import opened Handshakes
  import opened HandshakeCaches
  import opened Reading
  import opened IncomingRecords
  import opened Reassembly
  import opened Emission
  import opened Network
  import opened Transcripts
  import opened TableTexts
  import opened HandshakeStates
  import opened ServerFlights
  import opened ClientFlights
  import opened Handshaking
  import opened Planning
  import opened HonestWorlds
  import opened HonestSends
  import opened HonestScripts
  import opened HonestTexts
  import opened HonestPreparing
  import opened HonestAnswers
  import opened HonestKeying
  import opened HonestPulls
  import opened HonestClientReads
  import opened HonestServerReads
  import opened HonestPredictions
  import opened HonestArrivals
  import opened HonestServerKeys

  // Every step, every run

  lemma BeginBase(u: Setup)
    requires SetupOk(u)
    ensures Base(u, Begin())
  {
    hide SoundSuites, SoundExchange, SharedKey, KnownSuites, HalfOk;
    SetupLinks(u);
    StartOk(ToServer(u, Started(true)), ToClient(u, Started(false)));
    NotProtected();
  }

  lemma BeginOk(u: Setup)
    requires SetupOk(u)
    ensures AllOk(u, Begin())
  {
    hide Base, SetupOk;
    BeginBase(u);
  }

  lemma PrepareStep(u: Setup, h: Honest, byClient: bool, draws: Draws)
    requires SetupOk(u) && AllOk(u, h) && Enabled(u, h, Prepare(byClient, draws))
    ensures AllOk(u, PreparedBy(u, h, byClient, draws))
  {
    hide SetupOk, AllOk, Enabled, PreparedBy;
    ScriptSides(u, h);
    if byClient {
      if h.client.flight.Flight5? {
        KeyingKeeps(u, h, draws);
      } else {
        HelloKeeps(u, h, draws);
      }
    } else if h.server.flight.Flight6? {
      FinishKeeps(u, h, draws);
    } else {
      AnswerKeeps(u, h, draws);
    }
  }

  lemma ScriptSides(u: Setup, h: Honest)
    requires SetupOk(u) && AllOk(u, h)
    ensures h.client.flight.Flight1? || h.client.flight.Flight3? || h.client.flight.Flight5?
    ensures h.server.flight.Flight0? || h.server.flight.Flight2? || h.server.flight.Flight4? || h.server.flight.Flight6?
    ensures h.server.flight.Flight6? ==> h.server.phase != Waiting
  {
    hide SetupOk, Base, FirstHello, Hellos, KeyedShape, Answered, Flight4Generated, ServerHeard, ServerKeys, ServerDone, KeyedOk,
         ClientAnswered, VerifyOnly, WellFormed;
  }

  lemma ParseStep(u: Setup, h: Honest, byClient: bool, key: nat)
    requires SetupOk(u) && AllOk(u, h) && MachineOf(h, byClient).phase == Waiting
    ensures AllOk(u, ParsedBy(u, h, byClient, key))
  {
    hide SetupOk, AllOk, ParsedBy;
    ScriptSides(u, h);
    if byClient {
      if h.client.flight.Flight5? {
        FinishReadStep(u, h, key);
      } else {
        ClientReadKeeps(u, h, key);
      }
    } else if h.server.flight.Flight4? {
      KeyReadKeeps(u, h, key);
    } else {
      ServerReadKeeps(u, h, key);
    }
  }

  lemma ActKeeps(u: Setup, h: Honest, act: Act)
    requires SetupOk(u) && AllOk(u, h) && Enabled(u, h, act)
    ensures AllOk(u, Acted(u, h, act))
  {
    hide SetupOk, AllOk, PreparedBy, ParsedBy, Emitted, HonestWorlds.Taken, IsAlert, Prepared;
    match act
    case Prepare(byClient, draws) => PrepareStep(u, h, byClient, draws);
    case Send(byClient) => SendStep(u, h, byClient);
    case Expire(byClient) => ExpireStep(u, h, byClient);
    case Parse(byClient, key) => ParseStep(u, h, byClient, key);
    case Notify(byClient, alert) => NotifyStep(u, h, byClient, alert);
    case Arrive(byClient, buf) => ArriveKeeps(u, h, byClient, Datagram(buf, MachineOf(h, byClient).state.cipherSuite));
  }

  lemma {:induction false} RunOk(u: Setup, h: Honest, acts: seq<Act>, end: Honest)
    requires SetupOk(u) && AllOk(u, h) && HonestWorlds.Reaches(u, h, acts, end)
    ensures AllOk(u, end)
    decreases |acts|
  {
    hide SetupOk, AllOk, Acted, Enabled;
    if acts != [] {
      ActKeeps(u, h, acts[0]);
      RunOk(u, Acted(u, h, acts[0]), acts[1..], end);
    }
  }

  // What it means

  /** Wherever both caches hold a message of the same sender and number, it is the same message. */
  lemma SameMessages(u: Setup, acts: seq<Act>, h: Honest)
    requires SetupOk(u) && HonestWorlds.Reaches(u, Begin(), acts, h)
    ensures forall c, d :: c in h.net.client.Cache() && d in h.net.server.Cache() && SameSlot(c, d) ==> c == d
  {
    hide SetupOk, Base, Scripts, HonestWorlds.Reaches, WorldOk, HalfOk, Table;
    BeginOk(u);
    RunOk(u, Begin(), acts, h);
    BaseWorld(u, h);
    SameSlotSameItem(h.net, ToServer(u, h.client), ToClient(u, h.server));
  }

  /** Once the server has the client's key messages, it hashes for the session, and checks the client's
      proof against, exactly the text the client hashed and signed before it had sent them. */
  lemma SessionTextsAgree(u: Setup, acts: seq<Act>, h: Honest)
    requires SetupOk(u) && HonestWorlds.Reaches(u, Begin(), acts, h) && h.keyed.Some?
    requires h.net.server.Popped() >= h.keyed.Or(UNKEYED).hellos + |h.keyed.Or(UNKEYED).keys|
    ensures Merged(h.net.server.Cache(), KEY_EXCHANGE_RULES) == h.keyed.Or(UNKEYED).text
    ensures MasterSecret(u.crypto, h.client.state.extendedMasterSecret, h.client.state.preMasterSecret, h.keyed.Or(UNKEYED).text,
                         h.client.state.localRandom, h.client.state.remoteRandom) == Ok(h.client.state.masterSecret)
    ensures Signed(u.client, u.crypto, h.keyed.Or(UNKEYED).tail, h.keyed.Or(UNKEYED).text)
  {
    hide SetupOk, Base, HonestWorlds.Reaches, Merged, MasterSecret, Signed, FirstHello, Hellos, KeyedShape, ServerScript, ServerHeard,
         ServerKeys, ServerDone, AnswerOk, Text, NumberedText, ClientKeyExchangeOf, PskOk, RandomBytes;
    BeginOk(u);
    RunOk(u, Begin(), acts, h);
    PredictionExact(u, h);
  }

  /** Both sides derive the same master secret, and suites that open each other's records. */
  lemma KeysAreShared(u: Setup, acts: seq<Act>, h: Honest)
    requires SetupOk(u) && HonestWorlds.Reaches(u, Begin(), acts, h) && Ready(h.server.state.cipherSuite)
    ensures Ready(h.client.state.cipherSuite) && h.server.state.masterSecret == h.client.state.masterSecret
    ensures KeysMatch(u, h.client, h.server)
  {
    hide SetupOk, Base, HonestWorlds.Reaches, FirstHello, Hellos, KeyedOk, ServerScript, ServerHeard, KeysMatch,
         ServerDone, AnswerOk, RandomBytes, Ready;
    BeginOk(u);
    RunOk(u, Begin(), acts, h);
    ScriptsMatch(u, h);
  }

  /** The server's Finished, once the client has it. */
  lemma FinishedPulled(u: Setup, h: Honest)
    requires SetupOk(u) && AllOk(u, h)
    requires FullPulled(h.net.client.Cache(), h.client.state.recvSequence, [SERVER_FINISHED_RULE]).Ok?
    ensures h.offer.Some? && |h.serverPlan| == 2 + |h.offer.Or([])| && h.net.client.Popped() >= 1 + |h.offer.Or([])|
    ensures Gives(MessagesPulled(h.net.client.Cache(), h.client.state.recvSequence, [SERVER_FINISHED_RULE]), HandshakeType.Finished,
                  FinishedMessage(h.server.state.localVerifyData))
  {
    hide SetupOk, Base, ClientScript, ServerScript, ServerHeard, ServerKeys, ServerDone, ClientAnswered, UnmarshalHandshake,
         RawHandshake.Whole, Unique, OwnPart, FullPulled, IsLast, KeyedOk, Best, WellFormed, Numbered;
    CacheParts(u, h);
    var rules := [SERVER_FINISHED_RULE];
    var table := h.serverPlan[..h.net.client.Popped()];
    var i := PulledFromPart(h.net.client.Cache(), table, h.client.state.recvSequence, rules, SERVER_FINISHED_RULE);
    LastIs(table, SERVER_FINISHED_RULE, i);
    assert table[i] == h.serverPlan[i];
    FinishedIndex(h.serverPlan, h.server, u.server, u.crypto, h.offer, i);
    NumberedReads(FinishedMessage(h.server.state.localVerifyData), WrappedU16(i));
  }

  lemma FinishedIndex(plan: seq<SentMessage>, m: Machine, cfg: Config, crypto: Crypto, offer: Option<seq<Draft>>, i: nat)
    requires ServerScript(cfg, crypto, m, plan, offer) && i < |plan| && plan[i].h.typ == HandshakeType.Finished && plan[i].epoch == 1
    ensures offer.Some? && i == 1 + |offer.value| && |plan| == 2 + |offer.value|
    ensures WellFormed(FinishedMessage(m.state.localVerifyData))
    ensures plan[i].h == Numbered(FinishedMessage(m.state.localVerifyData), WrappedU16(i))
  {
    hide WellFormed, Numbered, Flight4Generated, SentOf;
    if offer.None? {
      VerifyPlan(plan, m.state.cookie);
    } else {
      SentOfMessages(offer.value, 1);
      forall k | 1 <= k <= |offer.value|
        ensures plan[k].epoch == 0
      {
        assert plan[1..1 + |offer.value|][k - 1] == plan[k];
      }
    }
  }

  /** What the client computes over its transcript is what the server has sent. */
  lemma FinishedExpected(u: Setup, h: Honest)
    requires SetupOk(u) && AllOk(u, h) && h.client.phase == Waiting && h.offer.Some?
    requires |h.serverPlan| == 2 + |h.offer.Or([])| && h.net.client.Popped() >= 1 + |h.offer.Or([])|
    ensures u.crypto.verifyDataServer(h.client.state.masterSecret, Merged(h.net.client.Cache(), FINISHED_RULES))
         == Ok(h.server.state.localVerifyData)
  {
    hide SetupOk, Base, ClientScript, ServerScript, ServerHeard, ServerKeys, ClientAnswered, KeyedOk, Merged, Text, LaterEpoch, Ready,
         FinishedRules;
    var a, n := 1 + |h.offer.Or([])|, h.net.client.Popped();
    BaseOut(u, h);
    ClientText(u, h, FINISHED_RULES);
    ServerLater(h.serverPlan, h.server, u.server, u.crypto, h.offer.Or([]), n);
    FinishedTextSame(h.clientPlan, h.serverPlan[..n], a);
    assert h.serverPlan[..n][..a] == h.serverPlan[..a];
  }

  /** The client never refuses the Finished of an honest server: as soon as it is in the cache, the
      client accepts it and is done. */
  lemma FinishedAccepted(u: Setup, acts: seq<Act>, h: Honest)
    requires SetupOk(u) && HonestWorlds.Reaches(u, Begin(), acts, h)
    requires h.client.flight.Flight5? && h.client.phase == Waiting
    ensures Flight5Parsed(h.client.state, u.crypto, h.net.client.Cache())
         == if FullPulled(h.net.client.Cache(), h.client.state.recvSequence, [SERVER_FINISHED_RULE]).Ok? then Next(Flight5)
            else Failed(KEEP_READING)
  {
    hide SetupOk, AllOk, HonestWorlds.Reaches, FullPulled, Merged, Begin;
    BeginOk(u);
    RunOk(u, Begin(), acts, h);
    if FullPulled(h.net.client.Cache(), h.client.state.recvSequence, [SERVER_FINISHED_RULE]).Ok? {
      FinishedPulled(u, h);
      FinishedExpected(u, h);
    }
  }

  /** When the client is about to finish, the server is in its last flight and has heard everything the
      client ever says, and the two share their keys. */
  lemma FinishedTogether(u: Setup, acts: seq<Act>, h: Honest)
    requires SetupOk(u) && HonestWorlds.Reaches(u, Begin(), acts, h)
    requires h.client.flight.Flight5? && h.client.phase == Waiting
    requires Flight5Parsed(h.client.state, u.crypto, h.net.client.Cache()) == Next(Flight5)
    ensures h.server.flight.Flight6? && h.net.server.Popped() == |h.clientPlan|
    ensures Ready(h.client.state.cipherSuite) && Ready(h.server.state.cipherSuite)
    ensures h.server.state.masterSecret == h.client.state.masterSecret && KeysMatch(u, h.client, h.server)
  {
    hide SetupOk, Base, HonestWorlds.Reaches, FullPulled, Merged, ClientScript, ServerHeard, ClientAnswered, KeyedOk,
         KeysMatch, WellFormed, Text, Ready, RandomBytes, Answered;
    BeginOk(u);
    RunOk(u, Begin(), acts, h);
    FinishedPulled(u, h);
    ScriptsMatch(u, h);
  }
}
