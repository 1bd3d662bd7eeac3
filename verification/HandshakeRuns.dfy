/** What every run of one side keeps, whatever the peer sends, and what must have happened before it
    can finish. */
module HandshakeRuns {
  import opened Wrappers
  import opened Bytes
  import opened Headers
  import opened Messages
  import opened Handshakes
  import opened HandshakeCaches
  import opened Sending
  import opened HandshakeStates
  import opened ServerFlights
  import opened ClientFlights
  import opened Handshaking
  import opened FlightEffects

  /** A side with its history: the flights it has been in, and the numbers it has given to messages. */
  datatype Endpoint = Endpoint(machine: Machine, cache: seq<Item>, visited: seq<Flight>, numbers: seq<U16>)

  datatype Event =
    | Prepare(draws: Draws)
    | Send(cached: nat, result: Result<bool>)   // how many packets were cached before the send ended
    | Expire
    | Parse(key: nat, waiting: seq<Item>)       // what flight 4 finds in the records that waited for keys
    | Arrive(item: Item)

  function IsClient(e: Endpoint): bool {
    e.machine.state.isClient
  }

  ghost predicate Enabled(e: Endpoint, event: Event) {
    match event
    case Prepare(draws) => e.machine.phase == Preparing && draws.Valid()
    case Send(cached, result) =>
      e.machine.phase == Phase.Sending && cached <= |Packets(e.machine)| && (result.Ok? ==> cached == |Packets(e.machine)|)
    case Expire => e.machine.phase == Waiting
    case Parse(_, waiting) => e.machine.phase == Waiting && forall c :: c in waiting ==> c.isClient != IsClient(e)
    case Arrive(item) => item.isClient != IsClient(e)
  }

  function CachedAll(cache: seq<Item>, pkts: seq<Packet>, isClient: bool): seq<Item>
    decreases |pkts|
  {
    if pkts == [] then
      cache
    else
      CachedAll(CachedBefore(cache, pkts[0], isClient), pkts[1..], isClient)
  }

  function NumbersOf(pkts: seq<Packet>): seq<U16> {
    if pkts == [] then
      []
    else
      (if pkts[0].content.HandshakeContent? then [pkts[0].content.h.sequence] else []) + NumbersOf(pkts[1..])
  }

  ghost function Moved(e: Endpoint, next: Machine): Endpoint {
    e.(machine := next, visited := if next.flight == e.machine.flight then e.visited else e.visited + [next.flight])
  }

  function First<T>(s: seq<T>, n: nat): seq<T> {
    if n <= |s| then s[..n] else s
  }

  ghost function Reacted(e: Endpoint, cfg: Config, crypto: Crypto, event: Event): Endpoint {
    var m := e.machine;
    match event
    case Prepare(draws) =>
      var next := Prepared(m, cfg, crypto, e.cache, draws);
      e.(machine := next, numbers := e.numbers + NumbersOf(Packets(next)))
    case Send(cached, result) =>
      e.(machine := AfterSend(m, result), cache := CachedAll(e.cache, First(Packets(m), cached), IsClient(e)))
    case Expire => e.(machine := Expired(m))
    case Parse(key, waiting) =>
      if m.flight.Flight4? then
        match Flight4Keyed(m.state, cfg, crypto, e.cache)
        case (s, Halt(failure)) => Moved(e, AfterParse(m, s, Failed(failure)))
        case (s, Continue(next)) =>
          var cache := PushedAll(e.cache, waiting);
          var (t, parsed) := Flight4Finished(s, cfg, cache, next);
          Moved(e.(cache := cache), AfterParse(m, t, parsed))
      else
        var (s, parsed) := FlightParsed(m.flight, m.state, cfg, crypto, e.cache, key);
        Moved(e, AfterParse(m, s, parsed))
    case Arrive(item) => e.(cache := Pushed(e.cache, item))
  }

  // What every run keeps

  predicate SideOf(flight: Flight, isClient: bool) {
    if isClient then flight.Flight1? || flight.Flight3? || flight.Flight5?
    else flight.Flight0? || flight.Flight2? || flight.Flight4? || flight.Flight6?
  }

  ghost predicate VisitsOk(visited: seq<Flight>, current: Flight, isClient: bool) {
    visited != [] && visited[|visited| - 1] == current
    && (forall f :: f in visited ==> SideOf(f, isClient))
    && (forall i, j :: 0 <= i < j < |visited| ==> visited[i].Number() < visited[j].Number())
  }

  /** Numbers count up from 0, except that the first `verifies` messages, the server's
      HelloVerifyRequests, all carry 0. */
  ghost predicate Numbering(numbers: seq<U16>, verifies: nat) {
    verifies <= |numbers|
    && forall i :: 0 <= i < |numbers| ==>
         numbers[i] == WrappedU16(if verifies == 0 then i else if i < verifies then 0 else i - verifies + 1)
  }

  /** The next number, after `count` messages of which `verifies` were HelloVerifyRequests. */
  function NextNumber(count: nat, verifies: nat): int {
    if verifies == 0 then count else count - verifies + 1
  }

  ghost predicate NumbersOk(e: Endpoint) {
    var m := e.machine;
    exists verifies: nat ::
      Numbering(e.numbers, verifies)
      && (IsClient(e) ==> verifies == 0)
      && (!m.phase.Errored? ==>
            m.state.sendSequence == NextNumber(|e.numbers|, verifies)
            && (m.flight.Flight0? ==> e.numbers == [])
            && (m.flight.Flight2? ==> verifies == |e.numbers|))
  }

  /** Past this point the last flight has been prepared. */
  predicate LastFlightSent(m: Machine) {
    (m.flight.Flight5? || m.flight.Flight6?) && (m.phase == Phase.Sending || m.phase == Waiting || m.phase == Phase.Finished)
  }

  ghost predicate Progress(e: Endpoint, crypto: Crypto) {
    var m := e.machine;
    (m.flight.Flight6? ==> m.phase != Waiting)
    && (m.flight.Flight4? || m.flight.Flight6? ==> CookieSeen(e.cache, m.state.cookie))
    && (m.flight.Flight6? ==> FinishedSeen(e.cache))
    && (m.flight.Flight5? ==> m.state.cipherSuite.Some?)
    && (m.phase == Phase.Finished ==>
          if IsClient(e) then m.flight.Flight5? && ServerVerified(m.state, crypto, e.cache) else m.flight.Flight6?)
  }

  ghost predicate EndpointOk(e: Endpoint, crypto: Crypto) {
    VisitsOk(e.visited, e.machine.flight, IsClient(e))
    && NumbersOk(e)
    && Progress(e, crypto)
    && (LastFlightSent(e.machine) ==> e.machine.state.localEpoch == 1)
  }

  // Caches only grow.

  lemma ReadsGrows(cache: seq<Item>, more: seq<Item>, r: Rule, message: Message)
    requires cache <= more && Reads(cache, r, message)
    ensures Reads(more, r, message)
  {
    hide UnmarshalHandshake, Matches;
  }

  lemma {:induction false} PushedAllGrows(cache: seq<Item>, items: seq<Item>)
    ensures cache <= PushedAll(cache, items)
    decreases |items|
  {
    if items != [] {
      PushedAllGrows(Pushed(cache, items[0]), items[1..]);
    }
  }

  lemma {:induction false} CachedAllGrows(cache: seq<Item>, pkts: seq<Packet>, isClient: bool)
    ensures cache <= CachedAll(cache, pkts, isClient)
    decreases |pkts|
  {
    hide RawHandshake.Whole;
    if pkts != [] {
      assert pkts[0] in pkts && forall p :: p in pkts[1..] ==> p in pkts;
      CachedAllGrows(CachedBefore(cache, pkts[0], isClient), pkts[1..], isClient);
    }
  }

  lemma ProgressGrows(e: Endpoint, cache: seq<Item>, crypto: Crypto)
    requires Progress(e, crypto) && e.cache <= cache
    ensures Progress(e.(cache := cache), crypto)
  {
    hide Reads, Merged;
    var m := e.machine;
    if m.flight.Flight4? || m.flight.Flight6? {
      CookieGrows(e.cache, cache, m.state.cookie);
    }
    if m.flight.Flight6? {
      FinishedGrows(e.cache, cache);
    }
    if m.phase == Phase.Finished && IsClient(e) {
      VerifiedGrows(m.state, crypto, e.cache, cache);
    }
  }

  lemma CookieGrows(cache: seq<Item>, more: seq<Item>, cookie: Bytes)
    requires cache <= more && CookieSeen(cache, cookie)
    ensures CookieSeen(more, cookie)
  {
    hide Reads, UnmarshalHandshake, Matches;
    var hello :| Reads(cache, CLIENT_HELLO_RULE, ClientHelloMessage(hello))
      && hello.version == PROTOCOL_VERSION1_2 && hello.cookie == cookie && cookie != [];
    ReadsGrows(cache, more, CLIENT_HELLO_RULE, ClientHelloMessage(hello));
  }

  lemma FinishedGrows(cache: seq<Item>, more: seq<Item>)
    requires cache <= more && FinishedSeen(cache)
    ensures FinishedSeen(more)
  {
  }

  lemma VerifiedGrows(s: State, crypto: Crypto, cache: seq<Item>, more: seq<Item>)
    requires cache <= more && ServerVerified(s, crypto, cache)
    ensures ServerVerified(s, crypto, more)
  {
    hide Reads, Merged;
    var n: nat, data :| n <= |cache| && Reads(cache[..n], SERVER_FINISHED_RULE, FinishedMessage(data))
      && crypto.verifyDataServer(s.masterSecret, Merged(cache[..n], FINISHED_RULES)) == Ok(data);
    assert more[..n] == cache[..n];
  }

  // Preparing

  ghost predicate CountsUp(numbers: seq<U16>, next: int) {
    forall i :: 0 <= i < |numbers| ==> numbers[i] == WrappedU16(next + i)
  }

  lemma CountsUpFrom(numbers: seq<U16>, next: int)
    requires CountsUp(numbers, next + 1)
    ensures CountsUp([WrappedU16(next)] + numbers, next)
  {
  }

  lemma NothingCounts(next: int)
    ensures CountsUp([], next) && NumbersOf(NumberedPackets([], next)) == []
  {
  }

  lemma {:induction false} NumberedInTurn(drafts: seq<Draft>, next: int)
    requires Writable(drafts)
    ensures |NumbersOf(NumberedPackets(drafts, next))| == MessageCount(drafts)
    ensures CountsUp(NumbersOf(NumberedPackets(drafts, next)), next)
    decreases |drafts|
  {
    hide Numbered, CountsUp, WellFormed, WrappedU16, NumberedPackets, NumbersOf;
    if drafts == [] {
      NothingCounts(next);
    } else {
      assert forall d :: d in drafts[1..] ==> d in drafts;
      var step := if drafts[0].MessageDraft? then 1 else 0;
      NumberedInTurn(drafts[1..], next + step);
      FirstNumber(drafts, next);
      RestNumbered(drafts, next);
      if step == 1 {
        CountsUpFrom(NumbersOf(NumberedPackets(drafts[1..], next + step)), next);
      }
    }
  }

  lemma RestNumbered(drafts: seq<Draft>, next: int)
    requires Writable(drafts) && drafts != []
    ensures Writable(drafts[1..])
    ensures var first := NumberedPackets(drafts, next)[0];
            var rest := NumbersOf(NumberedPackets(drafts[1..], next + if drafts[0].MessageDraft? then 1 else 0));
            NumbersOf(NumberedPackets(drafts, next))
            == if first.content.HandshakeContent? then [first.content.h.sequence] + rest else rest
  {
    hide Numbered, WellFormed;
    assert forall d :: d in drafts[1..] ==> d in drafts;
    assert NumberedPackets(drafts, next)[1..]
        == NumberedPackets(drafts[1..], next + if drafts[0].MessageDraft? then 1 else 0);
  }

  lemma FirstNumber(drafts: seq<Draft>, next: int)
    requires Writable(drafts) && drafts != []
    ensures var first := NumberedPackets(drafts, next)[0];
            first.content.HandshakeContent? == drafts[0].MessageDraft?
            && (drafts[0].MessageDraft? ==> first.content.h.sequence == WrappedU16(next) && first.epoch == drafts[0].epoch)
            && (drafts[0].ChangeCipherSpecDraft? ==> first.epoch == 0)
  {
    hide WellFormed;
  }

  function EpochOf(d: Draft): U16 {
    match d
    case MessageDraft(epoch, _) => epoch
    case ChangeCipherSpecDraft => 0
  }

  lemma FirstEpoch(drafts: seq<Draft>, next: int)
    requires Writable(drafts) && drafts != []
    ensures Writable(drafts[1..])
    ensures var rest := TopEpoch(NumberedPackets(drafts[1..], next + if drafts[0].MessageDraft? then 1 else 0));
            TopEpoch(NumberedPackets(drafts, next)) == if EpochOf(drafts[0]) > rest then EpochOf(drafts[0]) else rest
  {
    hide Numbered, WellFormed;
    assert forall d :: d in drafts[1..] ==> d in drafts;
    FirstNumber(drafts, next);
    assert NumberedPackets(drafts, next)[1..]
        == NumberedPackets(drafts[1..], next + if drafts[0].MessageDraft? then 1 else 0);
  }

  lemma NoEpoch(next: int)
    ensures TopEpoch(NumberedPackets([], next)) == 0
  {
  }

  lemma {:induction false} EpochsOf(drafts: seq<Draft>, next: int)
    requires Writable(drafts) && OfEpoch(drafts, 0)
    ensures TopEpoch(NumberedPackets(drafts, next)) == 0
    decreases |drafts|
  {
    hide NumberedPackets, TopEpoch, Writable;
    if drafts == [] {
      NoEpoch(next);
    } else {
      assert drafts[0] in drafts && forall d :: d in drafts[1..] ==> d in drafts;
      FirstEpoch(drafts, next);
      EpochsOf(drafts[1..], next + if drafts[0].MessageDraft? then 1 else 0);
    }
  }

  lemma FinishedLater(drafts: seq<Draft>)
    requires EndsInFinished(drafts)
    ensures EpochOf(drafts[0]) == 0
    ensures |drafts| > 2 ==> EndsInFinished(drafts[1..])
  {
    var front := drafts[..|drafts| - 1];
    assert drafts[0] == front[0] && drafts[1..][..|drafts| - 2] == front[1..];
    assert forall d :: d in front[1..] ==> d in front;
  }

  lemma {:induction false} LastEpoch(drafts: seq<Draft>, next: int)
    requires Writable(drafts) && EndsInFinished(drafts)
    ensures TopEpoch(NumberedPackets(drafts, next)) == 1
    decreases |drafts|
  {
    hide NumberedPackets, TopEpoch, Writable, OfEpoch;
    var step := if drafts[0].MessageDraft? then 1 else 0;
    FirstEpoch(drafts, next);
    FinishedLater(drafts);
    if |drafts| == 2 {
      FirstEpoch(drafts[1..], next + step);
      NoEpoch(next + step + 1);
      assert drafts[1..][1..] == [];
    } else {
      LastEpoch(drafts[1..], next + step);
    }
  }

  lemma MoreNumbers(numbers: seq<U16>, more: seq<U16>, verifies: nat, next: int)
    requires Numbering(numbers, verifies) && next == NextNumber(|numbers|, verifies)
    requires forall i :: 0 <= i < |more| ==> more[i] == WrappedU16(next + i)
    ensures Numbering(numbers + more, verifies)
  {
  }

  lemma VerifyNumber(numbers: seq<U16>, more: seq<U16>)
    requires Numbering(numbers, |numbers|) && more == [0]
    ensures Numbering(numbers + more, |numbers| + 1)
  {
  }

  lemma LoadedOk(m: Machine, drafts: seq<Draft>)
    requires Writable(drafts)
    ensures var next := Loaded(m, drafts);
            var numbers := NumbersOf(Packets(next));
            next.phase == Phase.Sending && next.flight == m.flight
            && next.state == m.state.(sendSequence := m.state.sendSequence + |numbers|, localEpoch := next.state.localEpoch)
            && (forall i :: 0 <= i < |numbers| ==> numbers[i] == WrappedU16(m.state.sendSequence + i))
            && |numbers| == MessageCount(drafts)
            && (OfEpoch(drafts, 0) ==> next.state.localEpoch == m.state.localEpoch)
            && (EndsInFinished(drafts) ==> next.state.localEpoch == 1)
  {
    hide NumberedPackets, TopEpoch, OfEpoch, EndsInFinished, NumbersOf, Writable, MessageCount, WrappedU16;
    NumberedInTurn(drafts, m.state.sendSequence);
    if OfEpoch(drafts, 0) {
      EpochsOf(drafts, m.state.sendSequence);
    }
    if EndsInFinished(drafts) {
      LastEpoch(drafts, m.state.sendSequence);
    }
  }

  lemma PreparedNumbers(e: Endpoint, cfg: Config, crypto: Crypto, draws: Draws)
    requires NumbersOk(e) && Enabled(e, Prepare(draws)) && SideOf(e.machine.flight, IsClient(e))
    ensures NumbersOk(Reacted(e, cfg, crypto, Prepare(draws)))
  {
    hide FlightGenerated, Loaded, NumbersOf, OfEpoch, EndsInFinished, Writable, FlightParsed, FullPulled, Flight4Keyed, Draws.Valid,
         Flight4Finished, CachedAll;
    var m := e.machine;
    FlightPrepared(m.flight, m.state, cfg, crypto, e.cache, draws);
    var (s, g) := FlightGenerated(m.flight, m.state, cfg, crypto, e.cache, draws);
    var verifies: nat :| Numbering(e.numbers, verifies) && m.state.sendSequence == NextNumber(|e.numbers|, verifies)
      && (IsClient(e) ==> verifies == 0) && (m.flight.Flight0? ==> e.numbers == []) && (m.flight.Flight2? ==> verifies == |e.numbers|);
    NoNumbers();
    assert e.numbers + [] == e.numbers;
    if g.Drafts? && Writable(g.drafts) {
      var ready := m.(state := s, flights := None, retransmit := m.flight.HasRetransmit());
      LoadedOk(ready, g.drafts);
      var more := NumbersOf(Packets(Loaded(ready, g.drafts)));
      if m.flight.Flight2? {
        OneMessage(g.drafts);
        assert more == [0];
        VerifyNumber(e.numbers, more);
      } else {
        MoreNumbers(e.numbers, more, verifies, s.sendSequence);
      }
    }
  }

  lemma NoNumbers()
    ensures NumbersOf([]) == []
  {
  }

  lemma OneMessage(drafts: seq<Draft>)
    requires |drafts| == 1 && drafts[0].MessageDraft?
    ensures MessageCount(drafts) == 1
  {
  }

  lemma PrepareKeeps(e: Endpoint, cfg: Config, crypto: Crypto, draws: Draws)
    requires EndpointOk(e, crypto) && Enabled(e, Prepare(draws))
    ensures EndpointOk(Reacted(e, cfg, crypto, Prepare(draws)), crypto)
  {
    hide FlightGenerated, Loaded, NumbersOf, OfEpoch, EndsInFinished, Writable, NumbersOk, CookieSeen, FinishedSeen, ServerVerified,
         FlightParsed, FullPulled, Flight4Keyed, Draws.Valid, Flight4Finished, CachedAll;
    var m := e.machine;
    assert SideOf(m.flight, IsClient(e));
    PreparedNumbers(e, cfg, crypto, draws);
    FlightPrepared(m.flight, m.state, cfg, crypto, e.cache, draws);
    var (s, g) := FlightGenerated(m.flight, m.state, cfg, crypto, e.cache, draws);
    if g.Drafts? && Writable(g.drafts) {
      LoadedOk(m.(state := s, flights := None, retransmit := m.flight.HasRetransmit()), g.drafts);
    }
  }

  lemma SendKeeps(e: Endpoint, cfg: Config, crypto: Crypto, event: Event)
    requires EndpointOk(e, crypto) && event.Send? && Enabled(e, event)
    ensures EndpointOk(Reacted(e, cfg, crypto, event), crypto)
  {
    hide CachedAll, Numbering, CookieSeen, FinishedSeen, ServerVerified, Prepared, FlightParsed, FullPulled, Flight4Keyed,
         Flight4Finished, AfterParse;
    var pkts := First(Packets(e.machine), event.cached);
    assert forall p :: p in pkts ==> p in Packets(e.machine);
    CachedAllGrows(e.cache, pkts, IsClient(e));
    ProgressGrows(e, CachedAll(e.cache, pkts, IsClient(e)), crypto);
    assert SideOf(e.machine.flight, IsClient(e));
  }

  // Reading

  /** What reading may do: stay in the flight, or go on to one that has been earned. */
  ghost predicate ParsedOk(flight: Flight, s: State, crypto: Crypto, cache: seq<Item>, t: State, p: Parsed) {
    Kept(s, t)
    && (!s.isClient ==> t.cookie == s.cookie)
    && (flight.Flight5? ==> t == s)
    && (p.Next? ==>
          match flight
          case Flight0 => p == Next(Flight2)
          case Flight2 => p == Next(Flight2) || (p == Next(Flight4) && CookieSeen(cache, t.cookie))
          case Flight4 => p == Next(Flight6) && FinishedSeen(cache)
          case Flight5 => p == Next(Flight5) && (s.cipherSuite.Some? ==> ServerVerified(t, crypto, cache))
          case Flight6 => true
          case _ => p == Next(Flight3) || (p == Next(Flight5) && t.cipherSuite.Some?))
  }

  lemma FlightRead(flight: Flight, s: State, cfg: Config, crypto: Crypto, cache: seq<Item>, key: nat)
    requires !flight.Flight4? && SideOf(flight, s.isClient)
    ensures var (t, p) := FlightParsed(flight, s, cfg, crypto, cache, key); ParsedOk(flight, s, crypto, cache, t, p)
  {
    hide Flight0Parsed, Flight1Parsed, Flight2Parsed, Flight3Parsed, Flight5Parsed, Flight6Parsed, CookieSeen, ServerVerified,
         UnmarshalHandshake, Flight4Keyed, Flight4Finished;
    match flight
    case Flight0 => Flight0Effect(s, cfg, crypto, cache, key);
    case Flight1 => Flight1Effect(s, cfg, crypto, cache, key);
    case Flight2 => Flight2Effect(s, cfg, crypto, cache, key);
    case Flight3 => Flight3Effect(s, cfg, crypto, cache, key);
    case Flight5 => Flight5Effect(s, crypto, cache);
    case Flight6 =>
  }

  lemma VisitedNext(visited: seq<Flight>, current: Flight, next: Flight, isClient: bool)
    requires VisitsOk(visited, current, isClient) && SideOf(next, isClient) && current.Number() < next.Number()
    ensures VisitsOk(visited + [next], next, isClient)
  {
  }

  lemma MovedKeeps(e: Endpoint, crypto: Crypto, t: State, p: Parsed)
    requires EndpointOk(e, crypto) && e.machine.phase == Waiting
    requires ParsedOk(e.machine.flight, e.machine.state, crypto, e.cache, t, p)
    ensures EndpointOk(Moved(e, AfterParse(e.machine, t, p)), crypto)
  {
    hide Numbering, CookieSeen, FinishedSeen, ServerVerified, VisitsOk, NumbersOk, SideOf;
    var m := e.machine;
    CurrentSide(e.visited, m.flight, IsClient(e));
    if p.Next? && p.flight != m.flight {
      VisitedNext(e.visited, m.flight, p.flight, IsClient(e));
    }
    MovedNumbers(e, t, p);
  }

  lemma CurrentSide(visited: seq<Flight>, current: Flight, isClient: bool)
    requires VisitsOk(visited, current, isClient)
    ensures SideOf(current, isClient)
  {
  }

  lemma MovedNumbers(e: Endpoint, t: State, p: Parsed)
    requires NumbersOk(e) && !e.machine.phase.Errored? && Kept(e.machine.state, t)
    requires p.Next? && p == Next(Flight2) ==> e.machine.flight.Flight0? || e.machine.flight.Flight2?
    requires p.Next? ==> p != Next(Flight0)
    ensures NumbersOk(Moved(e, AfterParse(e.machine, t, p)))
  {
  }

  lemma ParseKeeps(e: Endpoint, cfg: Config, crypto: Crypto, event: Event)
    requires EndpointOk(e, crypto) && event.Parse? && Enabled(e, event)
    ensures EndpointOk(Reacted(e, cfg, crypto, event), crypto)
  {
    hide VisitsOk, NumbersOk, Progress, ParsedOk, FlightParsed, Flight4Keyed, Flight4Finished, AfterParse, PushedAll, Moved, Prepared,
         FinishedSeen, Draws.Valid, CachedAll;
    var m := e.machine;
    CurrentSide(e.visited, m.flight, IsClient(e));
    if m.flight.Flight4? {
      Flight4Effect(m.state, cfg, crypto, e.cache);
      match Flight4Keyed(m.state, cfg, crypto, e.cache)
      case (s, Halt(failure)) =>
        Flight4Read(m.state, crypto, e.cache, s, Failed(failure));
        MovedKeeps(e, crypto, s, Failed(failure));
      case (s, Continue(next)) =>
        var cache := PushedAll(e.cache, event.waiting);
        PushedAllGrows(e.cache, event.waiting);
        ProgressGrows(e, cache, crypto);
        Flight4FinishedEffect(s, cfg, cache, next);
        var (t, parsed) := Flight4Finished(s, cfg, cache, next);
        Flight4Read(m.state, crypto, cache, t, parsed);
        SameButCache(e, cache, crypto);
        MovedKeeps(e.(cache := cache), crypto, t, parsed);
    } else {
      FlightRead(m.flight, m.state, cfg, crypto, e.cache, event.key);
      var (s, parsed) := FlightParsed(m.flight, m.state, cfg, crypto, e.cache, event.key);
      MovedKeeps(e, crypto, s, parsed);
    }
  }

  lemma Flight4Read(s: State, crypto: Crypto, cache: seq<Item>, t: State, p: Parsed)
    requires Kept(s, t) && t.cookie == s.cookie && (p.Next? ==> p == Next(Flight6) && FinishedSeen(cache))
    ensures ParsedOk(Flight4, s, crypto, cache, t, p)
  {
    hide Reads, ServerVerified, CookieSeen;
  }

  lemma SameButCache(e: Endpoint, cache: seq<Item>, crypto: Crypto)
    requires EndpointOk(e, crypto) && Progress(e.(cache := cache), crypto)
    ensures EndpointOk(e.(cache := cache), crypto)
  {
    hide Reads, ServerVerified, Progress, VisitsOk;
  }

  lemma EventKeeps(e: Endpoint, cfg: Config, crypto: Crypto, event: Event)
    requires EndpointOk(e, crypto) && Enabled(e, event)
    ensures EndpointOk(Reacted(e, cfg, crypto, event), crypto)
  {
    hide Prepared, FlightParsed, FullPulled, Flight4Keyed, Draws.Valid, Flight4Finished, CachedAll, NumbersOk, Progress, VisitsOk,
         AfterParse;
    match event
    case Prepare(draws) => PrepareKeeps(e, cfg, crypto, draws);
    case Send(_, _) => SendKeeps(e, cfg, crypto, event);
    case Expire => ExpireKeeps(e, cfg, crypto);
    case Parse(_, _) => ParseKeeps(e, cfg, crypto, event);
    case Arrive(item) =>
      hide CookieSeen, FinishedSeen, ServerVerified;
      ProgressGrows(e, Pushed(e.cache, item), crypto);
      SameButCache(e, Pushed(e.cache, item), crypto);
  }

  lemma ExpireKeeps(e: Endpoint, cfg: Config, crypto: Crypto)
    requires EndpointOk(e, crypto) && Enabled(e, Expire)
    ensures EndpointOk(Reacted(e, cfg, crypto, Expire), crypto)
  {
    hide CookieSeen, FinishedSeen, ServerVerified, VisitsOk, Numbering, Prepared, FlightParsed, FullPulled, Flight4Keyed, Draws.Valid,
         Flight4Finished, CachedAll;
  }

  // Whole runs

  ghost predicate Reaches(e: Endpoint, cfg: Config, crypto: Crypto, events: seq<Event>, end: Endpoint)
    decreases |events|
  {
    if events == [] then end == e
    else Enabled(e, events[0]) && Reaches(Reacted(e, cfg, crypto, events[0]), cfg, crypto, events[1..], end)
  }

  function NewEndpoint(isClient: bool): Endpoint {
    var m := Started(isClient);
    Endpoint(m, [], [m.flight], [])
  }

  lemma SameStart(e: Endpoint, cfg: Config, crypto: Crypto, event: Event)
    requires Enabled(e, event)
    ensures e.visited <= Reacted(e, cfg, crypto, event).visited
  {
    hide Prepared, FlightParsed, Flight4Keyed, Flight4Finished, CachedAll, PushedAll, Enabled;
  }

  lemma SameSide(e: Endpoint, f: Endpoint, crypto: Crypto)
    requires EndpointOk(e, crypto) && EndpointOk(f, crypto) && e.visited <= f.visited
    ensures IsClient(f) == IsClient(e)
  {
    hide Progress, NumbersOk;
    assert e.visited[0] == f.visited[0] && e.visited[0] in e.visited && f.visited[0] in f.visited;
  }

  lemma {:induction false} RunKeeps(e: Endpoint, cfg: Config, crypto: Crypto, events: seq<Event>, end: Endpoint)
    requires EndpointOk(e, crypto) && Reaches(e, cfg, crypto, events, end)
    ensures EndpointOk(end, crypto) && IsClient(end) == IsClient(e)
    decreases |events|
  {
    hide EndpointOk, Reacted, Enabled;
    if events != [] {
      EventKeeps(e, cfg, crypto, events[0]);
      SameStart(e, cfg, crypto, events[0]);
      SameSide(e, Reacted(e, cfg, crypto, events[0]), crypto);
      RunKeeps(Reacted(e, cfg, crypto, events[0]), cfg, crypto, events[1..], end);
    }
  }

  lemma StartOk(isClient: bool, crypto: Crypto)
    ensures EndpointOk(NewEndpoint(isClient), crypto)
  {
    hide Reads, ServerVerified;
    assert Numbering([], 0);
  }

  /** A side that has finished: what it has read, and the epoch it now writes in. */
  ghost predicate Completed(e: Endpoint, crypto: Crypto) {
    e.machine.state.localEpoch == 1
    && if IsClient(e) then ServerVerified(e.machine.state, crypto, e.cache)
       else CookieSeen(e.cache, e.machine.state.cookie) && FinishedSeen(e.cache)
  }

  /** Whatever arrives and whenever timers fire: a client only goes through flights 1, 3, 5 and a
      server through 0, 2, 4, 6, never back; messages are numbered one after the other, only a
      server's HelloVerifyRequests share the number 0; a side that finishes writes in epoch 1, the
      client after a Finished that matches its own transcript, the server after a hello with its own
      cookie and a Finished of epoch 1. */
  lemma EveryRun(isClient: bool, cfg: Config, crypto: Crypto, events: seq<Event>, e: Endpoint)
    requires Reaches(NewEndpoint(isClient), cfg, crypto, events, e)
    ensures forall f :: f in e.visited ==> SideOf(f, isClient)
    ensures forall i, j :: 0 <= i < j < |e.visited| ==> e.visited[i].Number() < e.visited[j].Number()
    ensures exists verifies: nat :: Numbering(e.numbers, verifies) && (isClient ==> verifies == 0)
    ensures e.machine.phase == Phase.Finished ==> Completed(e, crypto)
  {
    hide Reaches, Reacted, CookieSeen, FinishedSeen, ServerVerified, Numbering;
    StartOk(isClient, crypto);
    RunKeeps(NewEndpoint(isClient), cfg, crypto, events, e);
    CurrentSide(e.visited, e.machine.flight, isClient);
  }
}
