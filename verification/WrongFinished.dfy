/** A run in which a server completes its handshake with a Finished that vouches for nothing. */
module WrongFinished {
  import opened Wrappers
  import opened Bytes
  import opened Messages
  import opened Handshakes
  import opened HandshakeCaches
  import opened Sending
  import opened Reassembly
  import opened Delivery
  import opened HandshakeStates
  import opened ServerFlights
  import opened Handshaking
  import opened ClientFinished
  import opened HandshakeRuns
  import opened PskFlights
  import HonestFinished

  ghost predicate Reached(e: Endpoint) {
    exists events :: Reaches(NewEndpoint(false), SERVER, CRYPTO, events, e)
  }

  lemma {:induction false} ReachesOn(e: Endpoint, events: seq<Event>, end: Endpoint, event: Event)
    requires Reaches(e, SERVER, CRYPTO, events, end) && Enabled(end, event)
    ensures Reaches(e, SERVER, CRYPTO, events + [event], Reacted(end, SERVER, CRYPTO, event))
    decreases |events|
  {
    hide Enabled, Reacted;
    if events == [] {
      assert events + [event] == [event] && [event][1..] == [];
      assert Reaches(Reacted(e, SERVER, CRYPTO, event), SERVER, CRYPTO, [], Reacted(e, SERVER, CRYPTO, event));
    } else {
      ReachesOn(Reacted(e, SERVER, CRYPTO, events[0]), events[1..], end, event);
      assert (events + [event])[0] == events[0] && (events + [event])[1..] == events[1..] + [event];
    }
  }

  lemma Then(e: Endpoint, event: Event)
    requires Reached(e) && Enabled(e, event)
    ensures Reached(Reacted(e, SERVER, CRYPTO, event))
  {
    hide Reaches, Enabled, Reacted;
    var events :| Reaches(NewEndpoint(false), SERVER, CRYPTO, events, e);
    ReachesOn(NewEndpoint(false), events, e, event);
  }

  lemma HasMore(cache: seq<Item>, plan: seq<SentMessage>, m: SentMessage)
    requires Has(cache, true, plan) && forall p :: p in plan ==> p.h.sequence != m.h.sequence
    ensures Has(Pushed(cache, ItemOf(m.h, m.epoch, true)), true, plan + [m])
  {
    hide RawHandshake.Whole;
    var item := ItemOf(m.h, m.epoch, true);
    forall i | 0 <= i < |cache|
      ensures !SameSlot(cache[i], item)
    {
      assert cache[i].isClient ==> cache[i] in ItemsOf(plan, true);
    }
    assert Pushed(cache, item) == cache + [item];
    assert ItemsOf(plan + [m], true) == ItemsOf(plan, true) + [item];
  }

  lemma {:induction false} HasOwn(cache: seq<Item>, plan: seq<SentMessage>, pkts: seq<Packet>)
    requires Has(cache, true, plan)
    ensures Has(CachedAll(cache, pkts, false), true, plan)
    decreases |pkts|
  {
    hide RawHandshake.Whole, ItemsOf;
    if pkts != [] {
      HasOwn(CachedBefore(cache, pkts[0], false), plan, pkts[1..]);
    }
  }

  // Steps

  /** Where the run stands: what the server waits for next, and what it has of the client. */
  ghost predicate At(e: Endpoint, flight: Flight, phase: Phase, plan: seq<SentMessage>, recv: int) {
    Reached(e) && e.machine.flight == flight && e.machine.phase == phase && Has(e.cache, true, plan) && ServerAt(e.machine.state, recv)
  }

  /** The flight that has been prepared is sent in full. */
  lemma SendsAll(e: Endpoint, plan: seq<SentMessage>) returns (f: Endpoint)
    requires Reached(e) && e.machine.phase == Phase.Sending && !IsClient(e) && Has(e.cache, true, plan)
    ensures Reached(f) && Has(f.cache, true, plan)
    ensures f.machine == e.machine.(phase := if e.machine.flight.Flight6? then Phase.Finished else Waiting)
  {
    hide Reached, Reaches, Has, CachedAll, Prepared, FlightParsed, FullPulled, Flight4Keyed, Flight4Finished;
    var event := Event.Send(|Packets(e.machine)|, Ok(true));
    Then(e, event);
    f := Reacted(e, SERVER, CRYPTO, event);
    assert First(Packets(e.machine), |Packets(e.machine)|) == Packets(e.machine);
    HasOwn(e.cache, plan, Packets(e.machine));
  }

  lemma Sends(e: Endpoint, flight: Flight, plan: seq<SentMessage>, recv: int) returns (f: Endpoint)
    requires At(e, flight, Phase.Sending, plan, recv) && !flight.Flight6?
    ensures At(f, flight, Waiting, plan, recv) && f.machine.state == e.machine.state
  {
    hide Reached, Reaches, Has;
    f := SendsAll(e, plan);
  }

  lemma Hears(e: Endpoint, flight: Flight, plan: seq<SentMessage>, recv: int, m: SentMessage) returns (f: Endpoint)
    requires At(e, flight, Waiting, plan, recv) && forall p :: p in plan ==> p.h.sequence != m.h.sequence
    ensures At(f, flight, Waiting, plan + [m], recv) && f.machine == e.machine
  {
    hide Reached, Reaches, Has, Pushed, Prepared, FlightParsed, FullPulled, Flight4Keyed, Flight4Finished, RawHandshake.Whole;
    var event := Event.Arrive(ItemOf(m.h, m.epoch, true));
    Then(e, event);
    f := Reacted(e, SERVER, CRYPTO, event);
    HasMore(e.cache, plan, m);
  }

  lemma Prepares(e: Endpoint, flight: Flight, plan: seq<SentMessage>, recv: int, s: State, drafts: seq<Draft>) returns (f: Endpoint)
    requires At(e, flight, Preparing, plan, recv) && Writable(drafts)
    requires FlightGenerated(flight, e.machine.state, SERVER, CRYPTO, e.cache, DRAWS) == (s, Drafts(drafts)) && !s.isClient
    ensures Reached(f) && Has(f.cache, true, plan) && f.machine.phase == Phase.Sending && f.machine.flight == flight
    ensures f.machine.state == s.(sendSequence := f.machine.state.sendSequence, localEpoch := f.machine.state.localEpoch)
  {
    hide Reached, Reaches, Has, FlightGenerated, NumberedPackets, MessageCount, TopEpoch, NumbersOf, Writable, FlightParsed, FullPulled,
         Flight4Keyed, Flight4Finished, CachedAll;
    Then(e, Event.Prepare(DRAWS));
    f := Reacted(e, SERVER, CRYPTO, Event.Prepare(DRAWS));
  }

  lemma Parses(e: Endpoint, flight: Flight, plan: seq<SentMessage>, recv: int, s: State, next: Flight) returns (f: Endpoint)
    requires At(e, flight, Waiting, plan, recv) && !flight.Flight4? && !next.Flight5?
    requires FlightParsed(flight, e.machine.state, SERVER, CRYPTO, e.cache, DRAWS.key) == (s, Next(next)) && ServerAt(s, recv + 1)
    ensures At(f, next, Preparing, plan, recv + 1) && f.machine.state == s
  {
    hide Reached, Reaches, Has, FlightParsed, PushedAll, Prepared, FullPulled, Flight4Keyed, Flight4Finished;
    Then(e, Event.Parse(DRAWS.key, []));
    f := Reacted(e, SERVER, CRYPTO, Event.Parse(DRAWS.key, []));
  }

  // The run

  lemma Begins() returns (e: Endpoint)
    ensures At(e, Flight0, Waiting, [], 0) && e.machine.state.localKeypair.None?
  {
    hide Reached, FlightParsed, Flight4Keyed, Flight4Finished, FlightGenerated, Flight2Generated, Flight4Generated, Flight6Generated, CachedAll,
         AfterParse, Reaches;
    e := NewEndpoint(false);
    StartReached(e);
    ServerGenerates(e.machine.state, SERVER, CRYPTO, e.cache, DRAWS);
    Then(e, Event.Prepare(DRAWS));
    var prepared := Reacted(e, SERVER, CRYPTO, Event.Prepare(DRAWS));
    assert At(prepared, Flight0, Phase.Sending, [], 0);
    e := Sends(prepared, Flight0, [], 0);
  }

  lemma StartReached(e: Endpoint)
    requires e == NewEndpoint(false)
    ensures Reached(e)
  {
    hide Enabled, Reacted;
    assert Reaches(e, SERVER, CRYPTO, [], e);
  }

  /** The first hello: the server picks the suite and asks for the cookie. */
  lemma Greeted() returns (e: Endpoint)
    ensures At(e, Flight2, Waiting, [Greeting()], 1) && Unkeyed(e.machine.state)
  {
    hide Reached, Reaches, Has, Writable, FlightParsed, FlightGenerated, Flight0Parsed, Flight2Parsed, Flight0Generated, Flight2Generated,
         Flight4Generated, Flight6Generated, Greeting;
    e := Begins();
    e := Hears(e, Flight0, [], 0, Greeting());
    assert [] + [Greeting()] == [Greeting()];
    var s := ReadsHello(e.machine.state, e.cache);
    ServerParses(e.machine.state, SERVER, CRYPTO, e.cache, DRAWS.key);
    e := Parses(e, Flight0, [Greeting()], 0, s, Flight2);
    FlightTwo(e.machine.state);
    ServerGenerates(e.machine.state, SERVER, CRYPTO, e.cache, DRAWS);
    e := Prepares(e, Flight2, [Greeting()], 1, e.machine.state.(sendSequence := 0), [MessageDraft(0, VERIFY)]);
    e := Sends(e, Flight2, [Greeting()], 1);
  }

  /** The second hello brings the cookie back; flight 4 is sent. */
  lemma Answered() returns (e: Endpoint)
    ensures At(e, Flight4, Waiting, [Greeting(), Return()], 2) && Unkeyed(e.machine.state)
  {
    hide Reached, Reaches, Has, Writable, FlightParsed, FlightGenerated, Flight0Parsed, Flight2Parsed, Flight0Generated,
         Flight2Generated, Flight4Generated, Flight6Generated, Greeting, Return, KeysSent, MessageAt;
    SentTypes([]);
    SentAre();
    e := Greeted();
    e := Hears(e, Flight2, [Greeting()], 1, Return());
    assert [Greeting()] + [Return()] == [Greeting(), Return()];
    ReadsCookie(e.machine.state, e.cache);
    ServerParses(e.machine.state, SERVER, CRYPTO, e.cache, DRAWS.key);
    e := Parses(e, Flight2, [Greeting(), Return()], 1, e.machine.state.(recvSequence := 2), Flight4);
    FlightFour(e.machine.state);
    ServerGenerates(e.machine.state, SERVER, CRYPTO, e.cache, DRAWS);
    e := Prepares(e, Flight4, [Greeting(), Return()], 2, e.machine.state, [MessageDraft(0, ANSWER), MessageDraft(0, ServerHelloDoneMessage)]);
    e := Sends(e, Flight4, [Greeting(), Return()], 2);
  }

  lemma SentAre()
    ensures KeysSent() == [Greeting(), Return(), Keys()]
  {
  }

  /** The key exchange and a Finished with whatever content arrive. */
  lemma Closed(data: MessageBody) returns (e: Endpoint)
    ensures At(e, Flight4, Waiting, KeysSent() + [Last(data)], 2) && Unkeyed(e.machine.state)
  {
    hide Reached, Reaches, Has, Greeting, Return, Keys, Last, KeysSent;
    SentTypes(data);
    SentAre();
    e := Answered();
    e := Hears(e, Flight4, [Greeting(), Return()], 2, Keys());
    assert [Greeting(), Return()] + [Keys()] == KeysSent();
    e := Hears(e, Flight4, KeysSent(), 2, Last(data));
  }

  lemma ReadsKeys(e: Endpoint, data: MessageBody) returns (f: Endpoint)
    requires At(e, Flight4, Waiting, KeysSent() + [Last(data)], 2) && Unkeyed(e.machine.state)
    ensures At(f, Flight6, Preparing, KeysSent() + [Last(data)], 4) && f.machine.state.masterSecret != [] && f.machine.state.cipherSuite.Some?
  {
    hide Reached, Reaches, Has, Flight4Keyed, Flight4Finished, KeysSent, Last, HonestWorlds.PlainSuite, HasFinished, Prepared,
         FlightParsed, CachedAll;
    var s := TakesKeys(e.machine.state, e.cache, data);
    FinishedHeld(s, e.cache, data);
    Then(e, Event.Parse(DRAWS.key, []));
    f := Reacted(e, SERVER, CRYPTO, Event.Parse(DRAWS.key, []));
    assert PushedAll(e.cache, []) == e.cache;
  }

  /** Whatever a client puts into its Finished, there is a run in which the server completes with it. */
  lemma AnyFinishedCompletes(data: MessageBody) returns (events: seq<Event>, e: Endpoint)
    ensures Reaches(NewEndpoint(false), SERVER, CRYPTO, events, e)
    ensures e.machine.phase == Phase.Finished && HasFinished(e.cache, 3, data) && e.machine.state.masterSecret != []
  {
    hide Reaches, Has, HasFinished, KeysSent, Last, FlightGenerated, Flight0Generated, Flight2Generated, Flight4Generated, Flight6Generated,
         Writable, Flight4Finished;
    e := Closed(data);
    e := ReadsKeys(e, data);
    var s := FlightSix(e.machine.state, e.cache);
    ServerGenerates(e.machine.state, SERVER, CRYPTO, e.cache, DRAWS);
    e := Prepares(e, Flight6, KeysSent() + [Last(data)], 4, s, ClosingDrafts(s.localVerifyData));
    e := SendsAll(e, KeysSent() + [Last(data)]);
    FinishedHeld(s, e.cache, data);
    events :| Reaches(NewEndpoint(false), SERVER, CRYPTO, events, e);
  }

  /** In particular one that is not what the server's keys make of the transcript. */
  lemma WrongFinishedCompletes() returns (events: seq<Event>, e: Endpoint, data: Bytes)
    ensures Reaches(NewEndpoint(false), SERVER, CRYPTO, events, e)
    ensures e.machine.phase == Phase.Finished && HasFinished(e.cache, 3, data)
    ensures CRYPTO.verifyDataClient(e.machine.state.masterSecret, Merged(e.cache, HonestFinished.VouchedRules())) != Ok(data)
  {
    hide Reaches, HasFinished, Merged;
    data := [];
    events, e := AnyFinishedCompletes(data);
  }
}
