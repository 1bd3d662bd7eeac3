/** The registry of live relays: one FFmpeg process per key, kept while anybody watches. */
module LiveStreams {
  import opened Wrappers

  type Key = string

  type TimerId = nat

  datatype Entry = Entry(subscriberCount: nat, idleTimer: Option<TimerId>)

  type EntryMap = map<Key, Entry>

  // Keys

  const MPEGTS_SUFFIX := ['\0', 'm', 'p', 'e', 'g', 't', 's']

  /** The two modes of one URL run side by side. */
  function StreamKey(url: string, mpegts: bool): string {
    if mpegts then url + MPEGTS_SUFFIX else url
  }

  /** Two streams share a key exactly when they are the same, or one URL is the other's key in
      MPEG-TS mode, which takes a NUL character in a URL. */
  lemma KeysClashIff(a: string, m: bool, b: string, n: bool)
    ensures StreamKey(a, m) == StreamKey(b, n)
       <==> (a == b && m == n) || (m && !n && b == a + MPEGTS_SUFFIX) || (n && !m && a == b + MPEGTS_SUFFIX)
    ensures '\0' !in a && '\0' !in b && StreamKey(a, m) == StreamKey(b, n) ==> a == b && m == n
  {
  }

  // The lock sections

  /** Joining a running relay, if there is one; its stored timer is to be aborted. */
  function AfterJoin(streams: EntryMap, key: Key): (EntryMap, Option<Option<TimerId>>) {
    if key in streams then
      (streams[key := Entry(streams[key].subscriberCount + 1, None)], Some(streams[key].idleTimer))
    else
      (streams, None)
  }

  /** The second check: join a relay that has appeared meanwhile, or insert one's own. */
  function AfterStart(streams: EntryMap, key: Key): (EntryMap, Option<Option<TimerId>>) {
    if key in streams then AfterJoin(streams, key) else (streams[key := Entry(1, None)], None)
  }

  function AfterLeave(streams: EntryMap, key: Key): (EntryMap, Option<nat>) {
    if key !in streams then
      (streams, None)
    else
      var left := if streams[key].subscriberCount == 0 then 0 else streams[key].subscriberCount - 1;
      (streams[key := streams[key].(subscriberCount := left)], Some(left))
  }

  function AfterStore(streams: EntryMap, key: Key, timer: TimerId): EntryMap {
    if key in streams then streams[key := streams[key].(idleTimer := Some(timer))] else streams
  }

  function AfterFire(streams: EntryMap, key: Key): EntryMap {
    if key in streams && streams[key].subscriberCount == 0 then streams - {key} else streams
  }

  class LiveManager {
    var streams: EntryMap

    constructor ()
      ensures streams == map[]
    {
      streams := map[];
    }

    method Join(key: Key) returns (timer: Option<Option<TimerId>>)
      modifies this
      ensures (streams, timer) == AfterJoin(old(streams), key)
    {
      if key !in streams {
        return None;
      }
      var e := streams[key];
      timer := Some(e.idleTimer);
      e := e.(idleTimer := None);
      e := e.(subscriberCount := e.subscriberCount + 1);
      streams := streams[key := e];
    }

    method Start(key: Key) returns (timer: Option<Option<TimerId>>)
      modifies this
      ensures (streams, timer) == AfterStart(old(streams), key)
    {
      timer := Join(key);
      if timer.None? {
        streams := streams[key := Entry(1, None)];
      }
    }

    method Leave(key: Key) returns (left: Option<nat>)
      modifies this
      ensures (streams, left) == AfterLeave(old(streams), key)
    {
      if key !in streams {
        return None;
      }
      var e := streams[key];
      if e.subscriberCount > 0 {
        e := e.(subscriberCount := e.subscriberCount - 1);
      }
      streams := streams[key := e];
      return Some(e.subscriberCount);
    }

    method StoreTimer(key: Key, timer: TimerId)
      modifies this
      ensures streams == AfterStore(old(streams), key, timer)
    {
      if key in streams {
        streams := streams[key := streams[key].(idleTimer := Some(timer))];
      }
    }

    method FireTimer(key: Key)
      modifies this
      ensures streams == AfterFire(old(streams), key)
    {
      if key in streams && streams[key].subscriberCount == 0 {
        streams := streams - {key};
      }
    }
  }

  // Interleavings

  /** The registry and every operation under way.
      `starting`: relays being started; `subs`: subscriptions not yet released; `spawning` and
      `storing`: releases about to start, or to store, a timer; `timers`: timers that run, aborted or
      not yet stored ones included. */
  datatype Registry = Registry(
    streams: EntryMap,
    starting: multiset<Key>,
    subs: multiset<Key>,
    spawning: multiset<Key>,
    storing: multiset<(Key, TimerId)>,
    timers: map<TimerId, Key>,
    started: nat)

  datatype Event =
    | Subscribe(key: Key)
    | GiveUp(key: Key)
    | Started(key: Key)
    | Unsubscribe(key: Key)
    | Spawn(key: Key)
    | Store(key: Key, timer: TimerId)
    | Fire(timer: TimerId)

  predicate Possible(r: Registry, e: Event) {
    match e
    case Subscribe(_) => true
    case GiveUp(key) => key in r.starting
    case Started(key) => key in r.starting
    case Unsubscribe(key) => key in r.subs
    case Spawn(key) => key in r.spawning
    case Store(key, timer) => (key, timer) in r.storing
    case Fire(timer) => timer in r.timers
  }

  function Aborted(timers: map<TimerId, Key>, timer: Option<Option<TimerId>>): map<TimerId, Key> {
    if timer.Some? && timer.value.Some? then timers - {timer.value.value} else timers
  }

  function Happened(r: Registry, e: Event): Registry
    requires Possible(r, e)
  {
    match e
    case Subscribe(key) =>
      if key in r.streams then
        var (streams, timer) := AfterJoin(r.streams, key);
        r.(streams := streams, timers := Aborted(r.timers, timer), subs := r.subs + multiset{key})
      else
        r.(starting := r.starting + multiset{key})
    case GiveUp(key) => r.(starting := r.starting - multiset{key})
    case Started(key) =>
      var (streams, timer) := AfterStart(r.streams, key);
      r.(streams := streams, timers := Aborted(r.timers, timer), starting := r.starting - multiset{key},
         subs := r.subs + multiset{key})
    case Unsubscribe(key) =>
      (match AfterLeave(r.streams, key)
       case (_, None) => r.(subs := r.subs - multiset{key})
       case (streams, Some(left)) =>
         r.(streams := streams, subs := r.subs - multiset{key},
            spawning := if left == 0 then r.spawning + multiset{key} else r.spawning))
    case Spawn(key) =>
      r.(spawning := r.spawning - multiset{key}, timers := r.timers[r.started := key], started := r.started + 1,
         storing := r.storing + multiset{(key, r.started)})
    case Store(key, timer) =>
      r.(storing := r.storing - multiset{(key, timer)}, streams := AfterStore(r.streams, key, timer))
    case Fire(timer) => r.(timers := r.timers - {timer}, streams := AfterFire(r.streams, r.timers[timer]))
  }

  /** Each count is the number of viewers, and without an entry there is none. */
  ghost predicate CountsExact(r: Registry) {
    CountsMatch(r.streams, r.subs)
  }

  ghost predicate CountsMatch(streams: EntryMap, subs: multiset<Key>) {
    forall key :: subs[key] == if key in streams then streams[key].subscriberCount else 0
  }

  lemma CountsSections(streams: EntryMap, subs: multiset<Key>, key: Key, timer: TimerId)
    requires CountsMatch(streams, subs)
    ensures key in streams ==> CountsMatch(AfterJoin(streams, key).0, subs + multiset{key})
    ensures CountsMatch(AfterStart(streams, key).0, subs + multiset{key})
    ensures AfterLeave(streams, key).1.Some? && key in subs ==> CountsMatch(AfterLeave(streams, key).0, subs - multiset{key})
    ensures CountsMatch(AfterStore(streams, key, timer), subs) && CountsMatch(AfterFire(streams, key), subs)
    ensures key in subs ==> AfterLeave(streams, key).1.Some?
  {
  }

  lemma CountsKept(r: Registry, e: Event)
    requires CountsExact(r) && Possible(r, e)
    ensures CountsExact(Happened(r, e))
  {
    hide CountsMatch, AfterJoin, AfterStart, AfterLeave, AfterStore, AfterFire, Aborted;
    match e
    case Subscribe(key) => CountsSections(r.streams, r.subs, key, 0);
    case Started(key) => CountsSections(r.streams, r.subs, key, 0);
    case Unsubscribe(key) => CountsSections(r.streams, r.subs, key, 0);
    case Store(key, timer) => CountsSections(r.streams, r.subs, key, timer);
    case Fire(timer) => CountsSections(r.streams, r.subs, r.timers[timer], timer);
    case _ =>
  }

  // Timers

  ghost predicate HasTimer(r: Registry, key: Key) {
    (exists t :: t in r.timers && r.timers[t] == key) || key in r.spawning
  }

  /** An entry without viewers is going to be removed. */
  ghost predicate TimersLive(r: Registry) {
    forall key :: key in r.streams && r.streams[key].subscriberCount == 0 ==> HasTimer(r, key)
  }

  /** A stored timer belongs to its entry. */
  ghost predicate StoredNamed(streams: EntryMap, timers: map<TimerId, Key>, started: nat) {
    forall key :: key in streams && streams[key].idleTimer.Some? ==>
      var t := streams[key].idleTimer.value; t < started && (t in timers ==> timers[t] == key)
  }

  /** So does one that is about to be stored. */
  ghost predicate TimersNamed(r: Registry) {
    (forall t :: t in r.timers ==> t < r.started)
    && (forall key, t :: (key, t) in r.storing ==> t < r.started && (t in r.timers ==> r.timers[t] == key))
    && StoredNamed(r.streams, r.timers, r.started)
  }

  ghost predicate NoNewTimers(streams: EntryMap, more: EntryMap) {
    forall key :: key in more && more[key].idleTimer.Some? ==> key in streams && more[key].idleTimer == streams[key].idleTimer
  }

  lemma SectionsQuiet(streams: EntryMap, key: Key)
    ensures NoNewTimers(streams, AfterJoin(streams, key).0) && NoNewTimers(streams, AfterStart(streams, key).0)
    ensures NoNewTimers(streams, AfterLeave(streams, key).0) && NoNewTimers(streams, AfterFire(streams, key))
    ensures NoNewTimers(streams, streams)
  {
  }

  lemma FewerTimers(timers: map<TimerId, Key>, timer: Option<Option<TimerId>>, fired: TimerId)
    ensures forall t :: t in Aborted(timers, timer) ==> t in timers && Aborted(timers, timer)[t] == timers[t]
    ensures forall t :: t in timers - {fired} ==> t in timers && (timers - {fired})[t] == timers[t]
  {
  }

  lemma QuietStored(streams: EntryMap, timers: map<TimerId, Key>, started: nat, more: EntryMap, fewer: map<TimerId, Key>)
    requires StoredNamed(streams, timers, started) && NoNewTimers(streams, more)
    requires forall t :: t in fewer ==> t in timers && fewer[t] == timers[t]
    ensures StoredNamed(more, fewer, started)
  {
  }

  lemma QuietNamed(r: Registry, e: Event)
    requires TimersNamed(r) && Possible(r, e) && !e.Spawn? && !e.Store?
    ensures TimersNamed(Happened(r, e))
  {
    hide NoNewTimers, StoredNamed, AfterJoin, AfterStart, AfterLeave, AfterFire, Aborted;
    var s := Happened(r, e);
    SectionsQuiet(r.streams, "");
    match e {
      case Subscribe(key) =>
        SectionsQuiet(r.streams, key);
        FewerTimers(r.timers, AfterJoin(r.streams, key).1, 0);
      case Started(key) =>
        SectionsQuiet(r.streams, key);
        FewerTimers(r.timers, AfterStart(r.streams, key).1, 0);
      case Unsubscribe(key) => SectionsQuiet(r.streams, key);
      case Fire(timer) =>
        SectionsQuiet(r.streams, r.timers[timer]);
        FewerTimers(r.timers, None, timer);
      case _ =>
    }
    QuietStored(r.streams, r.timers, r.started, s.streams, s.timers);
  }

  lemma NamesKept(r: Registry, e: Event)
    requires TimersNamed(r) && Possible(r, e)
    ensures TimersNamed(Happened(r, e))
  {
    hide NoNewTimers;
    match e
    case Spawn(_) =>
    case Store(_, _) =>
    case _ => QuietNamed(r, e);
  }

  lemma AbortSpares(timers: map<TimerId, Key>, timer: Option<Option<TimerId>>, owner: Key, key: Key)
    requires timer.Some? && timer.value.Some? && timer.value.value in timers ==> timers[timer.value.value] == owner
    requires key != owner
    ensures forall t :: t in timers && timers[t] == key ==> t in Aborted(timers, timer) && Aborted(timers, timer)[t] == key
  {
  }

  lemma TimerOrPromise(r: Registry, s: Registry, key: Key)
    requires HasTimer(r, key)
    requires forall t :: t in r.timers && r.timers[t] == key ==> t in s.timers && s.timers[t] == key
    requires key in r.spawning ==> key in s.spawning || exists t :: t in s.timers && s.timers[t] == key
    ensures HasTimer(s, key)
  {
    if t :| t in r.timers && r.timers[t] == key {
      assert t in s.timers && s.timers[t] == key;
    }
  }

  lemma StaysWhenJoined(r: Registry, e: Event, key: Key)
    requires TimersNamed(r) && Possible(r, e) && (e.Subscribe? || e.Started?) && HasTimer(r, key)
    requires var s := Happened(r, e); key in s.streams && s.streams[key].subscriberCount == 0
    ensures key in r.streams && r.streams[key].subscriberCount == 0 && HasTimer(Happened(r, e), key)
  {
    hide HasTimer, Aborted;
    if e.key in r.streams {
      AbortSpares(r.timers, AfterJoin(r.streams, e.key).1, e.key, key);
    } else {
      assert Aborted(r.timers, None) == r.timers by { FewerTimers(r.timers, None, 0); NothingAborted(r.timers); }
    }
    TimerOrPromise(r, Happened(r, e), key);
  }

  lemma NothingAborted(timers: map<TimerId, Key>)
    ensures Aborted(timers, None) == timers
  {
  }

  lemma StaysWhenFired(r: Registry, e: Event, key: Key)
    requires Possible(r, e) && e.Fire? && HasTimer(r, key)
    requires var s := Happened(r, e); key in s.streams && s.streams[key].subscriberCount == 0
    ensures HasTimer(Happened(r, e), key)
  {
    hide HasTimer;
    TimerOrPromise(r, Happened(r, e), key);
  }

  lemma StaysWhenSpawned(r: Registry, e: Event, key: Key)
    requires TimersNamed(r) && Possible(r, e) && e.Spawn? && HasTimer(r, key)
    ensures HasTimer(Happened(r, e), key)
  {
    hide HasTimer;
    assert Happened(r, e).timers[r.started] == e.key;
    TimerOrPromise(r, Happened(r, e), key);
  }

  lemma StaysOtherwise(r: Registry, e: Event, key: Key)
    requires Possible(r, e) && HasTimer(r, key) && !e.Subscribe? && !e.Started? && !e.Fire? && !e.Spawn?
    ensures HasTimer(Happened(r, e), key)
  {
    hide HasTimer, AfterLeave, AfterStore;
    TimerOrPromise(r, Happened(r, e), key);
  }

  lemma TimerStays(r: Registry, e: Event, key: Key)
    requires TimersNamed(r) && Possible(r, e) && HasTimer(r, key)
    requires var s := Happened(r, e); key in s.streams && s.streams[key].subscriberCount == 0
    ensures HasTimer(Happened(r, e), key)
  {
    hide HasTimer, Happened, Possible, TimersNamed;
    match e
    case Subscribe(_) => StaysWhenJoined(r, e, key);
    case Started(_) => StaysWhenJoined(r, e, key);
    case Fire(_) => StaysWhenFired(r, e, key);
    case Spawn(_) => StaysWhenSpawned(r, e, key);
    case _ => StaysOtherwise(r, e, key);
  }

  predicate EmptyAt(streams: EntryMap, key: Key) {
    key in streams && streams[key].subscriberCount == 0
  }

  lemma SectionsEmpty(streams: EntryMap, key: Key, timer: TimerId, x: Key)
    ensures EmptyAt(AfterJoin(streams, key).0, x) || EmptyAt(AfterStart(streams, key).0, x) ==> EmptyAt(streams, x)
    ensures EmptyAt(AfterStore(streams, key, timer), x) || EmptyAt(AfterFire(streams, key), x) ==> EmptyAt(streams, x)
    ensures EmptyAt(AfterLeave(streams, key).0, x) ==> EmptyAt(streams, x) || (x == key && AfterLeave(streams, key).1 == Some(0))
  {
  }

  /** Only the last viewer's release empties an entry, and promises a timer. */
  lemma EmptiedByRelease(r: Registry, e: Event, key: Key)
    requires Possible(r, e) && !EmptyAt(r.streams, key) && EmptyAt(Happened(r, e).streams, key)
    ensures key in Happened(r, e).spawning
  {
    hide Aborted, EmptyAt, AfterJoin, AfterStart, AfterLeave, AfterStore, AfterFire;
    match e
    case Subscribe(owner) => SectionsEmpty(r.streams, owner, 0, key);
    case Started(owner) => SectionsEmpty(r.streams, owner, 0, key);
    case Unsubscribe(owner) => SectionsEmpty(r.streams, owner, 0, key);
    case Store(owner, timer) => SectionsEmpty(r.streams, owner, timer, key);
    case Fire(timer) => SectionsEmpty(r.streams, r.timers[timer], timer, key);
    case _ =>
  }

  lemma TimersKept(r: Registry, e: Event)
    requires TimersLive(r) && TimersNamed(r) && Possible(r, e)
    ensures TimersLive(Happened(r, e))
  {
    hide Happened, Possible, TimersNamed;
    var s := Happened(r, e);
    forall key | key in s.streams && s.streams[key].subscriberCount == 0
      ensures HasTimer(s, key)
    {
      if key in r.streams && r.streams[key].subscriberCount == 0 {
        TimerStays(r, e, key);
      } else {
        EmptiedByRelease(r, e, key);
      }
    }
  }

  ghost predicate Reaches(r: Registry, events: seq<Event>, end: Registry)
    decreases |events|
  {
    if events == [] then end == r else Possible(r, events[0]) && Reaches(Happened(r, events[0]), events[1..], end)
  }

  const EMPTY := Registry(map[], multiset{}, multiset{}, multiset{}, multiset{}, map[], 0)

  lemma {:induction false} RunKeeps(r: Registry, events: seq<Event>, end: Registry)
    requires CountsExact(r) && TimersLive(r) && TimersNamed(r) && Reaches(r, events, end)
    ensures CountsExact(end) && TimersLive(end)
    decreases |events|
  {
    hide CountsExact, Happened, TimersLive, TimersNamed;
    if events != [] {
      CountsKept(r, events[0]);
      TimersKept(r, events[0]);
      NamesKept(r, events[0]);
      RunKeeps(Happened(r, events[0]), events[1..], end);
    }
  }

  /** Under every interleaving, lost creation races and timers left over from an earlier entry
      included: counts are exact; releasing a subscription finds its entry with a positive count; a
      timer that fires, whichever, never takes a relay from a viewer; and a relay without viewers is
      going to be stopped. */
  lemma EveryInterleaving(events: seq<Event>, r: Registry)
    requires Reaches(EMPTY, events, r)
    ensures forall key :: key in r.streams ==> r.streams[key].subscriberCount == r.subs[key]
    ensures forall key :: key in r.subs ==> key in r.streams && r.streams[key].subscriberCount > 0
    ensures forall timer :: timer in r.timers ==>
              forall key :: key in r.subs ==>
                key in AfterFire(r.streams, r.timers[timer]) && AfterFire(r.streams, r.timers[timer])[key] == r.streams[key]
    ensures forall key :: key in r.streams && r.streams[key].subscriberCount == 0 ==> HasTimer(r, key)
  {
    hide Reaches, HasTimer;
    assert CountsExact(EMPTY) && TimersLive(EMPTY) && TimersNamed(EMPTY);
    RunKeeps(EMPTY, events, r);
    assert forall key :: key in r.subs ==> r.subs[key] > 0;
  }
}
