/** Two sides and a network that may lose, repeat and reorder: it is the set of all datagrams ever
    sent, and any of them may arrive at any time. */
module Network {
  import opened Wrappers
  import opened Bytes
  import opened Headers
  import opened Handshakes
  import opened Framing
  import opened Fragmenting
  import opened FragmentBuffers
  import opened HandshakeCaches
  import opened CipherSuites
  import opened Sending
  import opened Reading
  import opened IncomingRecords
  import opened Reassembly
  import opened WireRecords
  import opened Delivery
  import opened Emission

  /** `sent` and `got` are history: the messages sent so far, and the pieces of the peer's messages
      in the handshake records this side has accepted. */
  datatype Side = Side(sent: seq<SentMessage>, lsn: seq<nat>, trace: Trace, got: set<(nat, Piece)>) {

    function IsClient(): bool {
      trace.reader.isClient
    }

    function Cache(): seq<Item> {
      trace.reader.cache
    }

    /** How many messages of the peer have been popped. */
    function Popped(): nat {
      trace.reader.buffer.current
    }
  }

  /** One direction: the MTU of its sender, and the suite that protects its later epochs. */
  datatype Link = Link(mtu: Mtu, sealer: CipherSuite) {
    predicate Valid() {
      0 < mtu && mtu + HANDSHAKE_HEADER_LENGTH < 0x1_0000
    }
  }

  datatype World = World(client: Side, server: Side, fromClient: set<Bytes>, fromServer: set<Bytes>)

  // What one direction keeps

  ghost predicate NetOk(net: set<Bytes>, sent: seq<SentMessage>, link: Link) {
    forall d :: d in net ==> Unpacked(d).Ok? && AllWire(Unpacked(d).value, sent, link.mtu, link.sealer)
  }

  ghost predicate GotAll(got: set<(nat, Piece)>, r: Reader, sent: seq<SentMessage>) {
    forall g :: g in got ==> g.0 < |sent| && Brought(r, sent[g.0], g.1)
  }

  /** From `a` to `b`. */
  ghost predicate HalfOk(a: Side, b: Side, net: set<Bytes>, link: Link) {
    a.IsClient() != b.IsClient()
    && OwnPart(a.Cache(), a.IsClient(), a.sent)
    && ReaderOk(b.trace.reader, a.sent, link.mtu, link.sealer)
    && NetOk(net, a.sent, link)
    && GotAll(b.got, b.trace.reader, a.sent)
    && FragmentBuffers.Popped(b.trace.reader.buffer).1.Err?
  }

  // Sending

  ghost function Transmitted(a: Side, suite: Option<CipherSuite>, mtu: Mtu, pkts: seq<Packet>): (Side, Result<seq<Bytes>>) {
    var s := SenderState(a.lsn, a.Cache());
    var (t, raw) := Raw(s, suite, mtu, a.IsClient(), pkts);
    (a.(sent := TableAfter(s, suite, mtu, a.IsClient(), pkts, a.sent), lsn := t.lsn,
        trace := a.trace.(reader := a.trace.reader.(cache := t.cache))),
     Sending.Sent(raw, mtu))
  }

  ghost function Added(net: set<Bytes>, datagrams: Result<seq<Bytes>>): set<Bytes> {
    match datagrams
    case Err(_) => net
    case Ok(ds) => net + set d | d in ds
  }

  lemma ItemsPrefix(sent: seq<SentMessage>, table: seq<SentMessage>, isClient: bool, n: nat)
    requires Table(sent) && Table(table) && sent <= table && n <= |sent|
    ensures ItemsOf(table, isClient)[..n] == ItemsOf(sent, isClient)[..n]
  {
    hide UnmarshalHandshake, RawHandshake.Whole;
  }

  lemma ReaderGrows(r: Reader, sent: seq<SentMessage>, table: seq<SentMessage>, mtu: Mtu, sealer: CipherSuite)
    requires ReaderOk(r, sent, mtu, sealer) && Table(table) && sent <= table
    ensures ReaderOk(r, table, mtu, sealer)
  {
    hide WireRecord, Table, AllOf, UnmarshalHandshake, RawHandshake.Whole, ItemsOf, AllWire;
    ItemsPrefix(sent, table, !r.isClient, r.buffer.current);
    StillAllWire(r.encrypted, sent, table, mtu, sealer);
  }

  lemma StillAllWire(records: seq<Bytes>, sent: seq<SentMessage>, table: seq<SentMessage>, mtu: Mtu, sealer: CipherSuite)
    requires sent <= table && AllWire(records, sent, mtu, sealer)
    ensures AllWire(records, table, mtu, sealer)
  {
  }

  lemma NetGrows(net: set<Bytes>, sent: seq<SentMessage>, table: seq<SentMessage>, link: Link)
    requires link.Valid() && NetOk(net, sent, link) && sent <= table
    ensures NetOk(net, table, link)
  {
  }

  lemma PackedOnWire(net: set<Bytes>, raw: seq<Bytes>, sent: seq<SentMessage>, link: Link)
    requires link.Valid() && NetOk(net, sent, link)
    requires forall r :: r in raw ==> OnWire(r, sent, link.mtu, link.sealer)
    ensures NetOk(Added(net, Sending.Sent(Ok(raw), link.mtu)), sent, link)
  {
    hide Unpacked, WireRecord, Datagrams, FramedNonEmpty;
    if raw != [] {
      assert AllFramedNonEmpty(raw);
      PackUnpack(raw, link.mtu);
    }
  }

  /** Sending in turn keeps the direction from the sender. */
  lemma TransmitKeeps(a: Side, b: Side, net: set<Bytes>, link: Link, suite: Option<CipherSuite>, pkts: seq<Packet>)
    requires link.Valid() && HalfOk(a, b, net, link)
    requires AllInTurn(a.sent, pkts)
    requires forall p :: p in pkts ==> Sendable(p, suite, link.mtu, link.sealer)
    ensures var (s, datagrams) := Transmitted(a, suite, link.mtu, pkts);
            HalfOk(s, b, Added(net, datagrams), link) && a.sent <= s.sent
            && SentBy(s.Cache(), !a.IsClient()) == SentBy(a.Cache(), !a.IsClient())
  {
    hide Raw, TableAfter, AllInTurn, Sendable, ReaderOk, NetOk, OnWire, FragmentBuffers.Popped, Sending.Sent, Added, Brought, Table,
         AllWire, Unpacked, SentBy;
    var before := SenderState(a.lsn, a.Cache());
    SendKeeps(before, suite, link.mtu, a.IsClient(), pkts, a.sent, link.sealer);
    var (t, raw) := Raw(before, suite, link.mtu, a.IsClient(), pkts);
    var (s, datagrams) := Transmitted(a, suite, link.mtu, pkts);
    ReaderGrows(b.trace.reader, a.sent, s.sent, link.mtu, link.sealer);
    NetGrows(net, a.sent, s.sent, link);
    AddedOk(net, raw, s.sent, link);
  }

  lemma AddedOk(net: set<Bytes>, raw: Result<seq<Bytes>>, sent: seq<SentMessage>, link: Link)
    requires link.Valid() && NetOk(net, sent, link)
    requires raw.Ok? ==> forall r :: r in raw.value ==> OnWire(r, sent, link.mtu, link.sealer)
    ensures NetOk(Added(net, Sending.Sent(raw, link.mtu)), sent, link)
  {
    hide NetOk, OnWire;
    if raw.Ok? {
      PackedOnWire(net, raw.value, sent, link);
    }
  }

  /** It does not disturb the direction to the sender. */
  lemma TransmitApart(a: Side, b: Side, net: set<Bytes>, link: Link, suite: Option<CipherSuite>, mtu: Mtu, pkts: seq<Packet>)
    requires link.Valid() && HalfOk(b, a, net, link)
    requires var s := Transmitted(a, suite, mtu, pkts).0; SentBy(s.Cache(), !a.IsClient()) == SentBy(a.Cache(), !a.IsClient())
    ensures HalfOk(b, Transmitted(a, suite, mtu, pkts).0, net, link)
  {
    hide Raw, TableAfter, Genuine, AllWire, NetOk, OwnPart, FragmentBuffers.Popped, Table;
  }

  // Receiving

  /** The handshake records accepted while `pkts` are worked through. */
  ghost function Taken(t: Trace, suite: Option<CipherSuite>, passes: Detector, pkts: seq<Bytes>, enqueue: bool): seq<Bytes>
    decreases |pkts|
  {
    if pkts == [] then
      []
    else
      var o := Handled(t.reader, suite, passes, pkts[0], enqueue).1;
      (if o.handshake then [pkts[0]] else [])
      + if Stops(o) then [] else Taken(Examined(t, suite, passes, pkts[0], enqueue), suite, passes, pkts[1..], enqueue)
  }

  ghost predicate CarriesPiece(records: seq<Bytes>, m: SentMessage, p: Piece, link: Link) {
    exists r, header :: r in records && FragmentRecord(r, m, link.mtu, link.sealer, p, header)
  }

  ghost function Carried(records: seq<Bytes>, sent: seq<SentMessage>, link: Link): set<(nat, Piece)> {
    set i, p | 0 <= i < |sent| && p in Pieces(sent[i].h.content, link.mtu) && CarriesPiece(records, sent[i], p, link) :: (i, p)
  }

  ghost function EventRecords(t: Trace, event: Event): (Trace, seq<Bytes>) {
    match event
    case Datagram(buf, _) => (t, if Unpacked(buf).Ok? then Unpacked(buf).value else [])
    case Queue(_) => (t.(reader := t.reader.(encrypted := [])), t.reader.encrypted)
  }

  /** Some of the records of a datagram. */
  ghost predicate RecordsFrom(buf: Bytes, d: Bytes) {
    Unpacked(buf).Ok? && Unpacked(d).Ok? && forall r :: r in Unpacked(buf).value ==> r in Unpacked(d).value
  }

  /** What may arrive: a datagram of the network, whole or in parts. When the keys of a side change while it is
      between two records of a datagram, it works through that datagram as through two. */
  ghost predicate MayArrive(buf: Bytes, net: set<Bytes>) {
    buf in net || exists d :: d in net && RecordsFrom(buf, d)
  }

  ghost predicate ComesFrom(event: Event, net: set<Bytes>) {
    event.Datagram? ==> MayArrive(event.buf, net)
  }

  lemma ArrivesOnWire(buf: Bytes, net: set<Bytes>, sent: seq<SentMessage>, link: Link)
    requires NetOk(net, sent, link) && MayArrive(buf, net)
    ensures Unpacked(buf).Ok? ==> AllWire(Unpacked(buf).value, sent, link.mtu, link.sealer)
  {
    hide Unpacked, WireRecord;
  }

  /** `b` works through a datagram, or through its queue, while the peer has sent `sent`. */
  ghost function Received(b: Side, passes: Detector, event: Event, sent: seq<SentMessage>, link: Link): Side {
    var (t, records) := EventRecords(b.trace, event);
    b.(trace := Reacted(b.trace, passes, event),
       got := b.got + Carried(Taken(t, event.suite, passes, records, event.Datagram?), sent, link))
  }

  lemma {:induction false} ExaminedAllDelivers(t: Trace, suite: Option<CipherSuite>, passes: Detector, pkts: seq<Bytes>, enqueue: bool,
                                               got: set<(nat, Piece)>, sent: seq<SentMessage>, link: Link)
    requires link.Valid() && ReaderOk(t.reader, sent, link.mtu, link.sealer)
    requires AllWire(pkts, sent, link.mtu, link.sealer) && Fitting(link.sealer, suite, sent, link.mtu)
    requires GotAll(got, t.reader, sent) && FragmentBuffers.Popped(t.reader.buffer).1.Err?
    ensures var u := ExaminedAll(t, suite, passes, pkts, enqueue);
            var more := Carried(Taken(t, suite, passes, pkts, enqueue), sent, link);
            ReaderOk(u.reader, sent, link.mtu, link.sealer) && OwnPartKept(t.reader, u.reader)
            && GotAll(got + more, u.reader, sent) && FragmentBuffers.Popped(u.reader.buffer).1.Err?
            && t.reader.buffer.current <= u.reader.buffer.current
    decreases |pkts|
  {
    hide Handled, Stops, ReaderOk, WireRecord, Fitting, GotAll, FragmentBuffers.Popped, Carried, OwnPartKept, SentBy,
         UnmarshalHandshake, FragmentRecord, Genuine, RawHandshake.Whole, KeyOf, Brought;
    SameOwnPart(t.reader);
    if pkts == [] {
      NothingCarried(sent, link);
      assert got + {} == got;
    } else {
      var (s, o) := Handled(t.reader, suite, passes, pkts[0], enqueue);
      var next := Examined(t, suite, passes, pkts[0], enqueue);
      var taken := if o.handshake then [pkts[0]] else [];
      assert pkts[0] in pkts;
      HandledKeeps(t.reader, sent, link.mtu, link.sealer, suite, passes, pkts[0], enqueue);
      ReaderTable(t.reader, sent, link.mtu, link.sealer);
      OneGot(t.reader, s, o, pkts[0], got, sent, link);
      var rest := if Stops(o) then [] else Taken(next, suite, passes, pkts[1..], enqueue);
      CarriedConcat(taken, rest, sent, link);
      if Stops(o) {
        NothingCarried(sent, link);
        assert got + Carried(taken, sent, link) == got + Carried(taken + rest, sent, link);
      } else {
        assert forall r :: r in pkts[1..] ==> r in pkts;
        ExaminedAllDelivers(next, suite, passes, pkts[1..], enqueue, got + Carried(taken, sent, link), sent, link);
        OwnPartTwice(t.reader, s, ExaminedAll(t, suite, passes, pkts, enqueue).reader);
        assert got + Carried(taken, sent, link) + Carried(rest, sent, link) == got + Carried(taken + rest, sent, link);
      }
    }
  }

  lemma ReaderTable(r: Reader, sent: seq<SentMessage>, mtu: Mtu, sealer: CipherSuite)
    requires ReaderOk(r, sent, mtu, sealer)
    ensures Table(sent)
  {
    hide UnmarshalHandshake, AllWire, Genuine, RawHandshake.Whole, PeerPart;
  }

  lemma SameOwnPart(r: Reader)
    ensures OwnPartKept(r, r)
  {
  }

  lemma OwnPartTwice(r: Reader, s: Reader, u: Reader)
    requires OwnPartKept(r, s) && OwnPartKept(s, u)
    ensures OwnPartKept(r, u)
  {
  }

  lemma NothingCarried(sent: seq<SentMessage>, link: Link)
    requires link.Valid()
    ensures Carried([], sent, link) == {}
  {
  }

  lemma CarriedConcat(a: seq<Bytes>, b: seq<Bytes>, sent: seq<SentMessage>, link: Link)
    requires link.Valid()
    ensures Carried(a + b, sent, link) == Carried(a, sent, link) + Carried(b, sent, link)
  {
  }

  lemma OneGot(r: Reader, s: Reader, o: Outcome, record: Bytes, got: set<(nat, Piece)>, sent: seq<SentMessage>, link: Link)
    requires link.Valid() && Table(sent) && GotAll(got, r, sent) && FragmentBuffers.Popped(r.buffer).1.Err?
    requires KeepsFragments(r, s) && Settled(s, o) && (!o.handshake ==> s.buffer == r.buffer)
    requires o.handshake ==> forall i, p, header ::
               0 <= i < |sent| && FragmentRecord(record, sent[i], link.mtu, link.sealer, p, header) ==> Brought(s, sent[i], p)
    ensures GotAll(got + Carried(if o.handshake then [record] else [], sent, link), s, sent)
    ensures FragmentBuffers.Popped(s.buffer).1.Err?
  {
    hide FragmentRecord, FragmentBuffers.Popped, FragmentsAt, UnmarshalHandshake, RawHandshake.Whole;
    var taken := if o.handshake then [record] else [];
    forall g | g in got + Carried(taken, sent, link)
      ensures g.0 < |sent| && Brought(s, sent[g.0], g.1)
    {
      if g in got {
        StillBrought(r, s, sent[g.0], g.1);
      }
    }
  }

  lemma StillBrought(r: Reader, s: Reader, m: SentMessage, p: Piece)
    requires KeepsFragments(r, s) && Brought(r, m, p)
    ensures Brought(s, m, p)
  {
  }

  /** Receiving keeps the direction to the receiver, and its own part of the cache. */
  lemma ReceiveKeeps(a: Side, b: Side, net: set<Bytes>, link: Link, passes: Detector, event: Event)
    requires link.Valid() && HalfOk(a, b, net, link)
    requires Fitting(link.sealer, event.suite, a.sent, link.mtu)
    requires ComesFrom(event, net)
    ensures HalfOk(a, Received(b, passes, event, a.sent, link), net, link)
    ensures OwnPartKept(b.trace.reader, Received(b, passes, event, a.sent, link).trace.reader)
    ensures b.Popped() <= Received(b, passes, event, a.sent, link).Popped()
  {
    hide Unpacked, ExaminedAll, Taken, WireRecord, Fitting, GotAll, FragmentBuffers.Popped, Carried, OwnPart, PeerPart,
         SentBy, Genuine, Table, Brought;
    var (t, records) := EventRecords(b.trace, event);
    if event.Datagram? {
      ArrivesOnWire(event.buf, net, a.sent, link);
    }
    SameGot(b.got, b.trace.reader, t.reader, a.sent);
    ExaminedAllDelivers(t, event.suite, passes, records, event.Datagram?, b.got, a.sent, link);
  }

  lemma SameGot(got: set<(nat, Piece)>, r: Reader, s: Reader, sent: seq<SentMessage>)
    requires GotAll(got, r, sent) && s.buffer == r.buffer
    ensures GotAll(got, s, sent)
  {
  }

  lemma ReceiveApart(a: Side, b: Side, net: set<Bytes>, link: Link, toB: Link, passes: Detector, event: Event)
    requires link.Valid() && toB.Valid() && HalfOk(b, a, net, link)
    requires OwnPartKept(b.trace.reader, Received(b, passes, event, a.sent, toB).trace.reader)
    ensures HalfOk(Received(b, passes, event, a.sent, toB), a, net, link)
  {
    hide Reacted, ReaderOk, NetOk, GotAll, FragmentBuffers.Popped, Carried, Taken, EventRecords;
  }

  // Whole runs

  ghost predicate WorldOk(w: World, toServer: Link, toClient: Link) {
    w.client.IsClient() && HalfOk(w.client, w.server, w.fromClient, toServer) && HalfOk(w.server, w.client, w.fromServer, toClient)
  }

  const NEW_READER := Reader(true, 0, [], [], EMPTY_BUFFER, [], [])

  function NewSide(isClient: bool): Side {
    Side([], [], Trace(NEW_READER.(isClient := isClient), [], multiset{}, multiset{}), {})
  }

  const START := World(NewSide(true), NewSide(false), {}, {})

  datatype Step =
    | Transmit(byClient: bool, suite: Option<CipherSuite>, pkts: seq<Packet>)
    | Receive(byClient: bool, event: Event)

  /** Steps of honest sides: messages are sent in turn, only what was sent arrives, and the suites fit. */
  ghost predicate Honest(w: World, step: Step, toServer: Link, toClient: Link) {
    match step
    case Transmit(byClient, suite, pkts) =>
      var (a, link) := if byClient then (w.client, toServer) else (w.server, toClient);
      AllInTurn(a.sent, pkts) && forall p :: p in pkts ==> Sendable(p, suite, link.mtu, link.sealer)
    case Receive(byClient, event) =>
      var (peer, net, link) := if byClient then (w.server, w.fromServer, toClient) else (w.client, w.fromClient, toServer);
      ComesFrom(event, net) && Fitting(link.sealer, event.suite, peer.sent, link.mtu)
  }

  ghost function Stepped(w: World, step: Step, passes: Detector, toServer: Link, toClient: Link): World {
    match step
    case Transmit(true, suite, pkts) =>
      var (a, datagrams) := Transmitted(w.client, suite, toServer.mtu, pkts);
      w.(client := a, fromClient := Added(w.fromClient, datagrams))
    case Transmit(false, suite, pkts) =>
      var (a, datagrams) := Transmitted(w.server, suite, toClient.mtu, pkts);
      w.(server := a, fromServer := Added(w.fromServer, datagrams))
    case Receive(true, event) => w.(client := Received(w.client, passes, event, w.server.sent, toClient))
    case Receive(false, event) => w.(server := Received(w.server, passes, event, w.client.sent, toServer))
  }

  ghost predicate Reaches(w: World, steps: seq<Step>, passes: Detector, toServer: Link, toClient: Link, end: World)
    decreases |steps|
  {
    if steps == [] then
      end == w
    else
      Honest(w, steps[0], toServer, toClient)
      && Reaches(Stepped(w, steps[0], passes, toServer, toClient), steps[1..], passes, toServer, toClient, end)
  }

  lemma StartOk(toServer: Link, toClient: Link)
    requires toServer.Valid() && toClient.Valid()
    ensures WorldOk(START, toServer, toClient)
  {
    hide ItemsOf;
  }

  lemma StepKeeps(w: World, step: Step, passes: Detector, toServer: Link, toClient: Link)
    requires toServer.Valid() && toClient.Valid() && WorldOk(w, toServer, toClient) && Honest(w, step, toServer, toClient)
    ensures WorldOk(Stepped(w, step, passes, toServer, toClient), toServer, toClient)
  {
    hide Transmitted, Received, HalfOk, AllInTurn, Sendable, Fitting, Added, OwnPartKept, SentBy, Table, AllWire, ReaderOk, Popped,
         ItemsOf, Unpacked, Brought;
    Ends(w.client, w.server, w.fromClient, toServer);
    match step
    case Transmit(true, suite, pkts) =>
      TransmitKeeps(w.client, w.server, w.fromClient, toServer, suite, pkts);
      TransmitApart(w.client, w.server, w.fromServer, toClient, suite, toServer.mtu, pkts);
      StillClient(w.client, suite, toServer.mtu, pkts);
    case Transmit(false, suite, pkts) =>
      TransmitKeeps(w.server, w.client, w.fromServer, toClient, suite, pkts);
      TransmitApart(w.server, w.client, w.fromClient, toServer, suite, toClient.mtu, pkts);
    case Receive(true, event) =>
      ReceiveKeeps(w.server, w.client, w.fromServer, toClient, passes, event);
      ReceiveApart(w.server, w.client, w.fromClient, toServer, toClient, passes, event);
      SameSide(w.client, Received(w.client, passes, event, w.server.sent, toClient));
    case Receive(false, event) =>
      ReceiveKeeps(w.client, w.server, w.fromClient, toServer, passes, event);
      ReceiveApart(w.client, w.server, w.fromServer, toClient, toServer, passes, event);
  }

  lemma Ends(a: Side, b: Side, net: set<Bytes>, link: Link)
    requires link.Valid() && HalfOk(a, b, net, link)
    ensures a.IsClient() != b.IsClient()
  {
    hide Table, AllWire, ReaderOk, Popped, OwnPart, NetOk, GotAll, Side.Cache;
  }

  lemma StillClient(a: Side, suite: Option<CipherSuite>, mtu: Mtu, pkts: seq<Packet>)
    ensures Transmitted(a, suite, mtu, pkts).0.IsClient() == a.IsClient()
  {
  }

  lemma SameSide(b: Side, c: Side)
    requires OwnPartKept(b.trace.reader, c.trace.reader)
    ensures c.IsClient() == b.IsClient()
  {
  }

  lemma {:induction false} RunKeeps(w: World, steps: seq<Step>, passes: Detector, toServer: Link, toClient: Link, end: World)
    requires toServer.Valid() && toClient.Valid() && WorldOk(w, toServer, toClient)
    requires Reaches(w, steps, passes, toServer, toClient, end)
    ensures WorldOk(end, toServer, toClient)
    decreases |steps|
  {
    hide WorldOk, Stepped, Honest;
    if steps != [] {
      StepKeeps(w, steps[0], passes, toServer, toClient);
      RunKeeps(Stepped(w, steps[0], passes, toServer, toClient), steps[1..], passes, toServer, toClient, end);
    }
  }

  // What it means

  /** Everything of `a` in `b`'s cache is a prefix of what `a` has sent: type, epoch and bytes. */
  ghost predicate PrefixDelivered(a: Side, b: Side) {
    forall c :: c in b.Cache() && c.isClient == a.IsClient() ==>
      c.messageSequence < b.Popped() <= |a.sent|
      && c == ItemOf(a.sent[c.messageSequence].h, a.sent[c.messageSequence].epoch, a.IsClient())
  }

  ghost predicate AllPopped(a: Side, b: Side) {
    b.Popped() <= |a.sent|
    && forall i :: 0 <= i < b.Popped() ==>
         ItemOf(a.sent[i].h, a.sent[i].epoch, a.IsClient()) in b.Cache()
  }

  lemma HalfDelivers(a: Side, b: Side, net: set<Bytes>, link: Link)
    requires link.Valid() && HalfOk(a, b, net, link)
    ensures PrefixDelivered(a, b) && AllPopped(a, b)
  {
    hide UnmarshalHandshake, RawHandshake.Whole, Genuine, AllWire, NetOk, GotAll, FragmentBuffers.Popped;
    var peer := a.IsClient();
    SentByMember(b.Cache(), peer);
    var items := ItemsOf(a.sent, peer);
    assert SentBy(b.Cache(), peer) == items[..b.Popped()];
    forall c | c in b.Cache() && c.isClient == peer
      ensures c.messageSequence < b.Popped() && c == items[c.messageSequence]
    {
      assert c in SentBy(b.Cache(), peer);
      var k :| 0 <= k < b.Popped() && items[k] == c;
    }
    forall i | 0 <= i < b.Popped()
      ensures items[i] in b.Cache()
    {
      assert items[..b.Popped()][i] == items[i];
      assert items[i] in SentBy(b.Cache(), peer);
    }
  }

  /** Once every piece of the first `n` messages has been accepted, they have all been popped. */
  lemma HalfProgress(a: Side, b: Side, net: set<Bytes>, link: Link, n: nat)
    requires link.Valid() && HalfOk(a, b, net, link) && n <= |a.sent|
    requires forall i, p :: 0 <= i < n && p in Pieces(a.sent[i].h.content, link.mtu) ==> (i, p) in b.got
    ensures b.Popped() >= n
  {
    hide Pieces, FragmentBuffers.Popped, FragmentsAt, Genuine, AllWire, NetOk, UnmarshalHandshake, RawHandshake.Whole;
    if b.Popped() < n {
      var i := b.Popped();
      forall p | p in Pieces(a.sent[i].h.content, link.mtu)
        ensures Reassembly.Holds(FragmentsAt(b.trace.reader.buffer.cache, i), p)
      {
        assert (i, p) in b.got;
        assert Brought(b.trace.reader, a.sent[i], p);
      }
      CompletePops(a.sent, link.mtu, b.trace.reader.buffer);
      assert false;
    }
  }

  /** In every honest run, whatever the network does: each cache holds exactly a prefix of what the
      other side has sent, byte for byte in single-fragment form; and the prefix contains every
      message up to the first one of which a piece is still missing. */
  lemma EndToEnd(steps: seq<Step>, passes: Detector, toServer: Link, toClient: Link, w: World, n: nat)
    requires toServer.Valid() && toClient.Valid() && Reaches(START, steps, passes, toServer, toClient, w)
    ensures PrefixDelivered(w.client, w.server) && PrefixDelivered(w.server, w.client)
    ensures AllPopped(w.client, w.server) && AllPopped(w.server, w.client)
    ensures n <= |w.client.sent|
            && (forall i, p :: 0 <= i < n && p in Pieces(w.client.sent[i].h.content, toServer.mtu) ==> (i, p) in w.server.got)
        ==> w.server.Popped() >= n
    ensures n <= |w.server.sent|
            && (forall i, p :: 0 <= i < n && p in Pieces(w.server.sent[i].h.content, toClient.mtu) ==> (i, p) in w.client.got)
        ==> w.client.Popped() >= n
  {
    hide HalfOk, PrefixDelivered, AllPopped, Stepped, Honest, Pieces;
    StartOk(toServer, toClient);
    RunKeeps(START, steps, passes, toServer, toClient, w);
    HalfDelivers(w.client, w.server, w.fromClient, toServer);
    HalfDelivers(w.server, w.client, w.fromServer, toClient);
    if n <= |w.client.sent|
       && forall i, p :: 0 <= i < n && p in Pieces(w.client.sent[i].h.content, toServer.mtu) ==> (i, p) in w.server.got {
      HalfProgress(w.client, w.server, w.fromClient, toServer, n);
    }
    if n <= |w.server.sent|
       && forall i, p :: 0 <= i < n && p in Pieces(w.server.sent[i].h.content, toClient.mtu) ==> (i, p) in w.client.got {
      HalfProgress(w.server, w.client, w.fromServer, toClient, n);
    }
  }
}
