/** Runs of an honest handshake in which every datagram arrives, once and in order. */
module InOrderRuns {
  import opened Wrappers
  import opened Bytes
  import opened Fragmenting
  import opened CipherSuites
  import opened Sending
  import opened Reading
  import opened IncomingRecords
  import opened Reassembly
  import opened WireRecords
  import opened Emission
  import opened Network
  import opened HandshakeStates
  import opened Handshaking
  import opened Planning
  import opened HonestWorlds
  import opened HonestSends
  import opened HonestScripts
  import opened HonestTexts
  import opened HonestHandshakes
  import opened InOrder
  import opened InOrderFlights
  import opened InOrderSides

  /** The datagrams of a send. */
  ghost function DatagramsOf(u: Setup, h: Honest, byClient: bool): seq<Bytes> {
    match Emitted(u, h, byClient, Packets(MachineOf(h, byClient))).1
    case Ok(ds) => ds
    case Err(_) => []
  }

  function Arrivals(toClient: bool, ds: seq<Bytes>): (acts: seq<Act>)
    ensures |acts| == |ds|
  {
    if ds == [] then [] else [Arrive(toClient, ds[0])] + Arrivals(toClient, ds[1..])
  }

  /** A send, and then its datagrams. */
  ghost function ExchangeOf(u: Setup, h: Honest, byClient: bool): seq<Act> {
    [Act.Send(byClient)] + Arrivals(!byClient, DatagramsOf(u, h, byClient))
  }

  ghost function NetFrom(h: Honest, client: bool): set<Bytes> {
    if client then h.net.fromClient else h.net.fromServer
  }

  ghost function WithSide(h: Honest, client: bool, side: Side): Honest {
    h.(net := if client then h.net.(client := side) else h.net.(server := side))
  }

  ghost function LinkFrom(u: Setup, h: Honest, client: bool): Link {
    if client then ToServer(u, h.client) else ToClient(u, h.server)
  }

  /** A side has worked through datagrams of the other one after the other. */
  ghost function Heard(u: Setup, h: Honest, byClient: bool, ds: seq<Bytes>): Honest {
    WithSide(h, byClient, Hearing(SideOf(h, byClient), u.passes, MachineOf(h, byClient).state.cipherSuite, ds,
                                  SideOf(h, !byClient).sent, LinkFrom(u, h, !byClient)))
  }

  /** After a send and the arrivals of its datagrams: the sender has sent, the receiver has heard. */
  ghost function Exchange(u: Setup, h: Honest, byClient: bool): Honest {
    Heard(u, Acted(u, h, Act.Send(byClient)), !byClient, DatagramsOf(u, h, byClient))
  }

  /** Each send is followed by the arrivals of exactly its datagrams, and nothing else arrives. */
  ghost predicate InOrderRun(u: Setup, h: Honest, acts: seq<Act>, end: Honest)
    decreases |acts|
  {
    if acts == [] then
      end == h
    else if acts[0].Send? then
      var first := ExchangeOf(u, h, acts[0].byClient);
      Enabled(u, h, acts[0]) && first <= acts && InOrderRun(u, Exchange(u, h, acts[0].byClient), acts[|first|..], end)
    else
      !acts[0].Arrive? && Enabled(u, h, acts[0]) && InOrderRun(u, Acted(u, h, acts[0]), acts[1..], end)
  }

  // They are runs.

  lemma {:induction false} Onwards(u: Setup, h: Honest, acts: seq<Act>, mid: Honest, rest: seq<Act>, end: Honest)
    requires HonestWorlds.Reaches(u, h, acts, mid) && HonestWorlds.Reaches(u, mid, rest, end)
    ensures HonestWorlds.Reaches(u, h, acts + rest, end)
    decreases |acts|
  {
    hide Enabled, Acted;
    if acts == [] {
      assert acts + rest == rest;
    } else {
      assert (acts + rest)[0] == acts[0] && (acts + rest)[1..] == acts[1..] + rest;
      Onwards(u, Acted(u, h, acts[0]), acts[1..], mid, rest, end);
    }
  }

  lemma {:induction false} ArriveAll(u: Setup, h: Honest, byClient: bool, ds: seq<Bytes>)
    requires forall d :: d in ds ==> d in NetFrom(h, !byClient)
    ensures HonestWorlds.Reaches(u, h, Arrivals(byClient, ds), Heard(u, h, byClient, ds))
    decreases |ds|
  {
    hide Received, SealerOf, ParsedBy, FlightGenerated, Emitted, PreparedBy, AfterSend;
    if ds == [] {
      assert WithSide(h, byClient, SideOf(h, byClient)) == h;
    } else {
      assert ds[0] in ds && forall d :: d in ds[1..] ==> d in ds;
      var next := Acted(u, h, Arrive(byClient, ds[0]));
      var side := Received(SideOf(h, byClient), u.passes, Datagram(ds[0], MachineOf(h, byClient).state.cipherSuite),
                           SideOf(h, !byClient).sent, LinkFrom(u, h, !byClient));
      assert next == WithSide(h, byClient, side);
      ArriveAll(u, next, byClient, ds[1..]);
      assert Arrivals(byClient, ds)[1..] == Arrivals(byClient, ds[1..]);
    }
  }

  ghost predicate IsSending(h: Honest, byClient: bool) {
    MachineOf(h, byClient).phase == Phase.Sending
  }

  lemma SendEnabled(u: Setup, h: Honest, byClient: bool)
    ensures Enabled(u, h, Act.Send(byClient)) <==> IsSending(h, byClient)
  {
    hide HandshakeStates.Draws.Valid, IsAlert, MayArrive, Handshaking.Prepared;
  }

  lemma DatagramsSent(u: Setup, h: Honest, byClient: bool)
    ensures forall d :: d in DatagramsOf(u, h, byClient) ==> d in NetFrom(Acted(u, h, Act.Send(byClient)), byClient)
  {
    hide Network.Transmitted, ParsedBy, PreparedBy, HonestWorlds.Taken;
  }

  lemma ExchangeReaches(u: Setup, h: Honest, byClient: bool)
    requires IsSending(h, byClient)
    ensures HonestWorlds.Reaches(u, h, ExchangeOf(u, h, byClient), Exchange(u, h, byClient))
  {
    hide Acted, Enabled, Heard, DatagramsOf;
    SendEnabled(u, h, byClient);
    DatagramsSent(u, h, byClient);
    ArriveAll(u, Acted(u, h, Act.Send(byClient)), !byClient, DatagramsOf(u, h, byClient));
    assert ExchangeOf(u, h, byClient)[1..] == Arrivals(!byClient, DatagramsOf(u, h, byClient));
  }

  lemma {:induction false} InOrderReaches(u: Setup, h: Honest, acts: seq<Act>, end: Honest)
    requires InOrderRun(u, h, acts, end)
    ensures HonestWorlds.Reaches(u, h, acts, end)
    decreases |acts|
  {
    hide Acted, Enabled, Exchange, ExchangeOf;
    if acts != [] {
      if acts[0].Send? {
        var first, mid := ExchangeOf(u, h, acts[0].byClient), Exchange(u, h, acts[0].byClient);
        SendEnabled(u, h, acts[0].byClient);
        ExchangeReaches(u, h, acts[0].byClient);
        ExchangeStarts(u, h, acts[0].byClient);
        InOrderReaches(u, mid, acts[|first|..], end);
        Onwards(u, h, first, mid, acts[|first|..], end);
        assert first + acts[|first|..] == acts;
      } else {
        InOrderReaches(u, Acted(u, h, acts[0]), acts[1..], end);
      }
    }
  }

  lemma ExchangeStarts(u: Setup, h: Honest, byClient: bool)
    ensures ExchangeOf(u, h, byClient) != [] && ExchangeOf(u, h, byClient)[0] == Act.Send(byClient)
  {
    hide DatagramsOf;
  }

  /** A run can go on with a further round. */
  lemma {:induction false} RunsOn(u: Setup, h: Honest, acts: seq<Act>, mid: Honest, more: seq<Act>, end: Honest)
    requires InOrderRun(u, h, acts, mid) && InOrderRun(u, mid, more, end)
    ensures InOrderRun(u, h, acts + more, end)
    decreases |acts|
  {
    hide Acted, Enabled, Exchange, ExchangeOf;
    if acts == [] {
      assert acts + more == more;
    } else {
      assert (acts + more)[0] == acts[0] && (acts + more)[1..] == acts[1..] + more;
      if acts[0].Send? {
        var first := ExchangeOf(u, h, acts[0].byClient);
        ExchangeStarts(u, h, acts[0].byClient);
        assert (acts + more)[|first|..] == acts[|first|..] + more;
        RunsOn(u, Exchange(u, h, acts[0].byClient), acts[|first|..], mid, more, end);
      } else {
        RunsOn(u, Acted(u, h, acts[0]), acts[1..], mid, more, end);
      }
    }
  }

  ghost predicate Reached(u: Setup, h: Honest) {
    exists acts :: InOrderRun(u, Begin(), acts, h)
  }

  lemma ReachedOk(u: Setup, h: Honest)
    requires SetupOk(u) && Reached(u, h)
    ensures AllOk(u, h)
  {
    hide SetupOk, HonestWorlds.Reaches, InOrderRun, AllOk;
    var acts :| InOrderRun(u, Begin(), acts, h);
    InOrderReaches(u, Begin(), acts, h);
    BeginOk(u);
    RunOk(u, Begin(), acts, h);
  }

  ghost predicate Moves(u: Setup, h: Honest, act: Act) {
    Enabled(u, h, act) && !act.Send? && !act.Arrive?
  }

  lemma OneMove(u: Setup, h: Honest, act: Act)
    requires Moves(u, h, act)
    ensures InOrderRun(u, h, [act], Acted(u, h, act))
  {
    hide Enabled, Acted, ExchangeOf, Exchange;
    assert [act][1..] == [];
  }

  lemma OneExchange(u: Setup, h: Honest, byClient: bool)
    requires IsSending(h, byClient)
    ensures InOrderRun(u, h, ExchangeOf(u, h, byClient), Exchange(u, h, byClient))
  {
    hide Acted, Enabled, Exchange, ExchangeOf;
    SendEnabled(u, h, byClient);
    var first := ExchangeOf(u, h, byClient);
    ExchangeStarts(u, h, byClient);
    assert first[|first|..] == [];
  }

  lemma Then(u: Setup, h: Honest, more: seq<Act>, end: Honest)
    requires Reached(u, h) && InOrderRun(u, h, more, end)
    ensures Reached(u, end)
  {
    hide InOrderRun;
    var acts :| InOrderRun(u, Begin(), acts, h);
    RunsOn(u, Begin(), acts, h, more, end);
  }

  // What the two sides keep

  /** Each side keeps up with the other; the epochs are those the server and the client read. */
  ghost predicate InTouch(u: Setup, h: Honest, serverReads: int, clientReads: int, total: int) {
    SetupOk(u) && LetsNewerThrough(u.passes) && Reached(u, h)
    && Heeds(h.net.client, h.net.server, u.clientMtu, serverReads, total)
    && Heeds(h.net.server, h.net.client, u.serverMtu, clientReads, total)
  }

  /** What is planned and not yet sent is what the machine holds. */
  ghost predicate ToSend(h: Honest, byClient: bool, pkts: seq<Packet>, more: seq<SentMessage>) {
    IsSending(h, byClient) && Packets(MachineOf(h, byClient)) == pkts && PlanOf(h, byClient) == SideOf(h, byClient).sent + more
  }

  lemma PlanSends(u: Setup, h: Honest, byClient: bool, pkts: seq<Packet>, more: seq<SentMessage>)
    requires SetupOk(u) && Reached(u, h) && ToSend(h, byClient, pkts, more)
    ensures Sends(SideOf(h, byClient), pkts, more)
  {
    hide SetupOk, Reached, Scripts, HalfOk, SuiteOk, AllInTurn, Planned, PacketsOk;
    ReachedOk(u, h);
  }

  ghost predicate Idle(h: Honest, client: bool) {
    MachineOf(h, client).phase != Phase.Sending && !MachineOf(h, client).phase.Errored?
  }

  /** Everything planned has been sent; all numbers so far are used up. */
  lemma PlanKept(u: Setup, h: Honest, client: bool)
    requires SetupOk(u) && Reached(u, h)
    ensures Table(PlanOf(h, client))
    ensures Idle(h, client) ==> SideOf(h, client).sent == PlanOf(h, client) && MachineOf(h, client).state.sendSequence == |PlanOf(h, client)|
  {
    hide SetupOk, Reached, Scripts, HalfOk, SuiteOk, AllInTurn, Planned, PacketsOk, Table;
    ReachedOk(u, h);
  }

  /** What has been got has been popped. */
  lemma Popped(u: Setup, h: Honest, byClient: bool, count: nat)
    requires SetupOk(u) && Reached(u, h) && Idle(h, byClient)
    requires GotFirst(SideOf(h, byClient), SideOf(h, !byClient), LinkFrom(u, h, byClient).mtu, count)
    ensures count <= SideOf(h, !byClient).Popped() <= |PlanOf(h, byClient)|
  {
    hide SetupOk, Reached, Scripts, HalfOk, SuiteOk, PartyOk, PlanProtected, PacketsOk, Pieces, Table, SoundSuites, OwnPart,
         SoundExchange;
    ReachedOk(u, h);
    PlanKept(u, h, byClient);
    CacheParts(u, h);
    SetupLinks(u);
    HalfProgress(SideOf(h, byClient), SideOf(h, !byClient), NetFrom(h, byClient), LinkFrom(u, h, byClient), count);
  }

  /** The exchange, once it is known what is sent. */
  lemma Exchanges(u: Setup, h: Honest, byClient: bool, pkts: seq<Packet>, more: seq<SentMessage>, s: Side, ds: seq<Bytes>) returns (f: Honest)
    requires Reached(u, h) && ToSend(h, byClient, pkts, more)
    requires Network.Transmitted(SideOf(h, byClient), MachineOf(h, byClient).state.cipherSuite, LinkFrom(u, h, byClient).mtu, pkts) == (s, Ok(ds))
    ensures Reached(u, f) && f == WithMachine(h.(net := f.net), byClient, AfterSend(MachineOf(h, byClient), Ok(ds)))
    ensures SideOf(f, byClient) == s
    ensures SideOf(f, !byClient) == Hearing(SideOf(h, !byClient), u.passes, MachineOf(h, !byClient).state.cipherSuite, ds, s.sent,
                                            LinkFrom(u, h, byClient))
  {
    hide Reached, InOrderRun, ExchangeOf, Network.Transmitted, Hearing, PreparedBy, ParsedBy, HonestWorlds.Taken, Enabled;
    OneExchange(u, h, byClient);
    f := Exchange(u, h, byClient);
    Then(u, h, ExchangeOf(u, h, byClient), f);
    assert DatagramsOf(u, h, byClient) == ds;
  }

  // Steps

  ghost predicate Prepares(u: Setup, h: Honest, byClient: bool, draws: Draws, s: State, drafts: seq<Draft>) {
    MachineOf(h, byClient).phase == Preparing && HandshakeStates.Writable(drafts) && draws.Valid()
    && FlightGenerated(MachineOf(h, byClient).flight, MachineOf(h, byClient).state, ConfigOf(u, byClient), u.crypto,
                       SideOf(h, byClient).Cache(), draws) == (s, Drafts(drafts))
  }

  /** What the drafts are called when they are numbered from `next`. */
  ghost predicate Numbers(drafts: seq<Draft>, next: int, ms: seq<SentMessage>, pkts: seq<Packet>) {
    0 <= next && next + |drafts| < 0xFFFF && HandshakeStates.Writable(drafts)
    && SentOf(drafts, next) == ms && NumberedPackets(drafts, next) == pkts
  }

  /** The state with which a machine leaves its preparation. */
  ghost predicate LeftWith(m: Machine, n: Machine, s: State, phase: Phase) {
    n.phase == phase && n.flight == m.flight
    && n.state == s.(sendSequence := n.state.sendSequence, localEpoch := n.state.localEpoch)
  }

  /** A flight is prepared: what it says is added to the plan. */
  lemma PreparesOn(u: Setup, h: Honest, byClient: bool, draws: Draws, s: State, drafts: seq<Draft>, ms: seq<SentMessage>, pkts: seq<Packet>)
      returns (f: Honest)
    requires SetupOk(u) && Reached(u, h) && Prepares(u, h, byClient, draws, s, drafts)
    requires s.sendSequence == |PlanOf(h, byClient)| && Numbers(drafts, s.sendSequence, ms, pkts)
    ensures Reached(u, f) && f.net == h.net && ToSend(f, byClient, pkts, ms) && PlanOf(f, byClient) == PlanOf(h, byClient) + ms
    ensures MachineOf(f, !byClient) == MachineOf(h, !byClient) && PlanOf(f, !byClient) == PlanOf(h, !byClient)
    ensures LeftWith(MachineOf(h, byClient), MachineOf(f, byClient), s, Phase.Sending)
  {
    hide SetupOk, Reached, InOrderRun, FlightGenerated, NumberedPackets, Planned, SentOf, TopEpoch, MessageCount,
         HandshakeStates.Writable, Table, ParsedBy, HonestWorlds.Taken, AllInTurn, Emitted;
    PlanKept(u, h, byClient);
    CountAtMost(drafts);
    FreshPlan(PlanOf(h, byClient), drafts);
    PacketCount(drafts, s.sendSequence);
    OneMove(u, h, Act.Prepare(byClient, draws));
    f := Acted(u, h, Act.Prepare(byClient, draws));
    Then(u, h, [Act.Prepare(byClient, draws)], f);
  }

  lemma {:induction false} CountAtMost(drafts: seq<Draft>)
    ensures MessageCount(drafts) <= |drafts|
  {
    if drafts != [] {
      CountAtMost(drafts[1..]);
    }
  }

  lemma PacketCount(drafts: seq<Draft>, next: int)
    requires HandshakeStates.Writable(drafts)
    ensures |NumberedPackets(drafts, next)| == |drafts|
  {
  }

  ghost predicate Parses(u: Setup, h: Honest, byClient: bool, key: nat, s: State, parsed: Parsed) {
    MachineOf(h, byClient).phase == Waiting && !MachineOf(h, byClient).flight.Flight4?
    && FlightParsed(MachineOf(h, byClient).flight, MachineOf(h, byClient).state, ConfigOf(u, byClient), u.crypto,
                    SideOf(h, byClient).Cache(), key) == (s, parsed)
  }

  /** A flight is read: any but the fourth. */
  lemma ParsesOn(u: Setup, h: Honest, byClient: bool, key: nat, s: State, parsed: Parsed) returns (f: Honest)
    requires Reached(u, h) && Parses(u, h, byClient, key, s, parsed)
    ensures Reached(u, f) && f == WithMachine(h, byClient, AfterParse(MachineOf(h, byClient), s, parsed))
  {
    hide Reached, InOrderRun, FlightParsed, AfterParse, FlightGenerated, HonestWorlds.Taken, Emitted;
    OneMove(u, h, Act.Parse(byClient, key));
    f := Acted(u, h, Act.Parse(byClient, key));
    Then(u, h, [Act.Parse(byClient, key)], f);
  }

  // Flights

  /** A flight without protection reaches the other side whole. */
  lemma Exchanged(u: Setup, h: Honest, byClient: bool, pkts: seq<Packet>, ms: seq<SentMessage>, total: nat) returns (f: Honest)
    requires InTouch(u, h, 0, 0, total) && ToSend(h, byClient, pkts, ms) && !MachineOf(h, byClient).flight.Flight6?
    requires Packed(pkts, ms) && ms != [] && total + AtMost(|ms|) <= ENOUGH
    ensures InTouch(u, f, 0, 0, total + AtMost(|ms|)) && SideOf(f, !byClient).Popped() == |PlanOf(f, byClient)|
    ensures f == WithMachine(h.(net := f.net), byClient, MachineOf(h, byClient).(phase := Waiting))
  {
    hide SetupOk, LetsNewerThrough, Reached, Heeds, Packed, Sends, Network.Transmitted, Hearing, SealerOf, GotFirst, Table, SoundSuites,
         SoundExchange, SharedKey, Opens, WellBehaved, SuiteForId, Pieces, ToSend;
    var m, a, b := MachineOf(h, byClient), SideOf(h, byClient), SideOf(h, !byClient);
    var link, back, keys := LinkFrom(u, h, byClient), LinkFrom(u, h, !byClient).mtu, MachineOf(h, !byClient).state.cipherSuite;
    SetupLinks(u);
    PlanSends(u, h, byClient, pkts, ms);
    var s, ds := ClearHeard(a, b, m.state.cipherSuite, keys, u.passes, link, ms, pkts, total);
    f := Exchanges(u, h, byClient, pkts, ms, s, ds);
    Returning(b, a, s, u.passes, keys, ds, link, back, 0, total, total + AtMost(|ms|));
    HeedsGot(s, SideOf(f, !byClient), link.mtu, 0, total + AtMost(|ms|));
    Popped(u, f, byClient, |SideOf(f, byClient).sent|);
    PlanKept(u, f, byClient);
  }

  /** The other direction, after an exchange. */
  lemma Returning(b: Side, a: Side, s: Side, passes: Detector, keys: Option<CipherSuite>, ds: seq<Bytes>, link: Link, mtu: Mtu,
                  epoch: int, total: int, more: int)
    requires Heeds(b, a, mtu, epoch, total) && total <= more
    requires s.trace.reader == a.trace.reader.(cache := s.trace.reader.cache) && s.got == a.got
    ensures Heeds(Hearing(b, passes, keys, ds, s.sent, link), s, mtu, epoch, more)
  {
    hide Heeds, Hearing;
    HearingSame(b, passes, keys, ds, s.sent, link);
    StillHeeds(b, a, s, mtu, epoch, total);
    HeedsStill(b, Hearing(b, passes, keys, ds, s.sent, link), s, mtu, epoch, total);
    HeedsMore(Hearing(b, passes, keys, ds, s.sent, link), s, mtu, epoch, total, more);
  }

  lemma {:induction false} HearingSame(b: Side, passes: Detector, keys: Option<CipherSuite>, ds: seq<Bytes>, sent: seq<SentMessage>, link: Link)
    ensures Hearing(b, passes, keys, ds, sent, link).sent == b.sent && Hearing(b, passes, keys, ds, sent, link).lsn == b.lsn
    decreases |ds|
  {
    hide Carried, Network.Taken, IncomingRecords.Reacted, EventRecords;
    if ds != [] {
      HearingSame(Received(b, passes, Datagram(ds[0], keys), sent, link), passes, keys, ds[1..], sent, link);
    }
  }

  lemma HeedsMore(a: Side, b: Side, mtu: Mtu, epoch: int, total: int, more: int)
    requires Heeds(a, b, mtu, epoch, total) && total <= more
    ensures Heeds(a, b, mtu, epoch, more)
  {
    hide GotFirst, InStep;
    StepMore(b.trace.reader, a.lsn, epoch, total, more);
  }

  lemma HeedsGot(a: Side, b: Side, mtu: Mtu, epoch: int, total: int)
    requires Heeds(a, b, mtu, epoch, total)
    ensures GotFirst(a, b, mtu, |a.sent|)
  {
  }

  /** Flight 5 reaches a server without keys: what is protected waits in its queue. */
  lemma KeysExchanged(u: Setup, h: Honest, first: SentMessage, m: SentMessage, total: nat) returns (f: Honest, n: nat, k: nat)
    requires InTouch(u, h, 0, 0, total) && ToSend(h, true, [PacketOf(first), CHANGE, PacketOf(m)], [first, m])
    requires h.client.flight.Flight5? && !Ready(h.server.state.cipherSuite)
    requires Short(first, 0) && Short(m, 1) && total + 2 * MOST + 1 <= ENOUGH
    requires CanSeal(h.client.state.cipherSuite, 1, ToServer(u, h.client)) && Frames(SealerOf(h.client), RecordLimit(u.clientMtu))
    ensures Reached(u, f) && Heeds(f.net.server, f.net.client, u.serverMtu, 0, total + 2 * MOST + 1)
    ensures PutBy(f.net.client, f.net.server, ToServer(u, f.client), m, n, k, total + 2 * MOST + 1)
    ensures f == WithMachine(h.(net := f.net), true, h.client.(phase := Waiting))
    ensures |f.clientPlan| - 1 <= f.net.server.Popped() <= |f.clientPlan|
  {
    hide SetupOk, LetsNewerThrough, Reached, Heeds, Sends, Network.Transmitted, Hearing, GotFirst, CanSeal, Frames, PutBy, Short, Table,
         Closing, SoundSuites, SoundExchange, SharedKey, Opens, WellBehaved, Pieces, ToSend;
    var a, b := h.net.client, h.net.server;
    var link, keys, pkts := ToServer(u, h.client), h.server.state.cipherSuite, [PacketOf(first), CHANGE, PacketOf(m)];
    SetupLinks(u);
    PlanSends(u, h, true, pkts, [first, m]);
    var s, ds;
    s, ds, n, k := KeysHeard(a, b, h.client.state.cipherSuite, keys, u.passes, link, first, m, total);
    f := Exchanges(u, h, true, pkts, [first, m], s, ds);
    Returning(b, a, s, u.passes, keys, ds, link, u.serverMtu, 0, total, total + 2 * MOST + 1);
    PutByGot(f.net.client, f.net.server, link, m, n, k, total + 2 * MOST + 1);
    Popped(u, f, true, |f.net.client.sent| - 1);
    PlanKept(u, f, true);
  }

  lemma PutByGot(a: Side, b: Side, link: Link, m: SentMessage, n: nat, k: nat, total: nat)
    requires PutBy(a, b, link, m, n, k, total)
    ensures a.sent != [] && GotFirst(a, b, link.mtu, |a.sent| - 1)
  {
  }

  /** Flight 6 reaches a client with keys. */
  lemma ClosingExchanged(u: Setup, h: Honest, m: SentMessage, total: nat) returns (f: Honest)
    requires InTouch(u, h, 1, 0, total) && ToSend(h, false, [CHANGE, PacketOf(m)], [m])
    requires h.server.flight.Flight6? && Short(m, 1) && total + MOST + 1 <= ENOUGH
    requires CanSeal(h.server.state.cipherSuite, 1, ToClient(u, h.server)) && HasKeys(h.client.state.cipherSuite, ToClient(u, h.server))
    ensures InTouch(u, f, 1, 1, total + MOST + 1) && f.net.client.Popped() == |f.serverPlan|
    ensures f == WithMachine(h.(net := f.net), false, h.server.(phase := Phase.Finished))
  {
    hide SetupOk, LetsNewerThrough, Reached, Heeds, Sends, Network.Transmitted, Hearing, SealerOf, GotFirst, CanSeal, HasKeys, Short,
         Table, SoundSuites, SoundExchange, SharedKey, Opens, WellBehaved, SuiteForId, Pieces;
    var a, b := h.net.server, h.net.client;
    var link, keys, pkts := ToClient(u, h.server), h.client.state.cipherSuite, [CHANGE, PacketOf(m)];
    SetupLinks(u);
    PlanSends(u, h, false, pkts, [m]);
    var s, ds := ClosingHeard(a, b, h.server.state.cipherSuite, keys, u.passes, link, m, total);
    f := Exchanges(u, h, false, pkts, [m], s, ds);
    Returning(b, a, s, u.passes, keys, ds, link, u.clientMtu, 1, total, total + MOST + 1);
    HeedsGot(s, f.net.client, link.mtu, 1, total + MOST + 1);
    Popped(u, f, false, |f.net.server.sent|);
    PlanKept(u, f, false);
  }
}
