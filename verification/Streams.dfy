/** The registry of pulled streams: reference counts, idle timers and creation races, with each lock
    section as one step. */
module Streams {
  import opened Wrappers

  type Url = string

  type StreamId = string

  type TimerId = nat

  datatype Active = Active(url: Url, count: nat, idleTimer: Option<TimerId>)

  type StreamMap = map<StreamId, Active>

  // The lock sections

  datatype Refusal = NotFound | LimitReached

  datatype Subscribed = Accepted(aborted: Option<TimerId>) | Refused(refusal: Refusal)

  predicate HasUrl(streams: StreamMap, url: Url) {
    exists id :: id in streams && streams[id].url == url
  }

  function AfterInsert(streams: StreamMap, url: Url, id: StreamId): StreamMap {
    if HasUrl(streams, url) then streams else streams[id := Active(url, 0, None)]
  }

  function AfterSubscribe(streams: StreamMap, id: StreamId, maxPerStream: nat): (StreamMap, Subscribed) {
    if id !in streams then
      (streams, Refused(NotFound))
    else if streams[id].count >= maxPerStream then
      (streams, Refused(LimitReached))
    else
      (streams[id := Active(streams[id].url, streams[id].count + 1, None)], Accepted(streams[id].idleTimer))
  }

  function SaturatingPred(n: nat): nat {
    if n == 0 then 0 else n - 1
  }

  /** The count that is left, if the stream is still there. */
  function AfterUnsubscribe(streams: StreamMap, id: StreamId): (StreamMap, Option<nat>) {
    if id !in streams then
      (streams, None)
    else
      var left := SaturatingPred(streams[id].count);
      (streams[id := streams[id].(count := left)], Some(left))
  }

  function AfterStore(streams: StreamMap, id: StreamId, timer: TimerId): StreamMap {
    if id in streams then streams[id := streams[id].(idleTimer := Some(timer))] else streams
  }

  function AfterFire(streams: StreamMap, id: StreamId): StreamMap {
    if id in streams && streams[id].count == 0 then streams - {id} else streams
  }

  class StreamManager {
    var streams: StreamMap
    var totalPeers: int

    constructor ()
      ensures streams == map[] && totalPeers == 0
    {
      streams := map[];
      totalPeers := 0;
    }

    method FindByUrl(url: Url) returns (found: Option<StreamId>)
      ensures found.Some? <==> HasUrl(streams, url)
      ensures found.Some? ==> found.value in streams && streams[found.value].url == url
    {
      var ids := streams.Keys;
      found := None;
      while ids != {}
        invariant ids <= streams.Keys && found == None
        invariant forall id :: id in streams && id !in ids ==> streams[id].url != url
        decreases |ids|
      {
        var id :| id in ids;
        if streams[id].url == url {
          return Some(id);
        }
        ids := ids - {id};
      }
    }

    /** The second check: a stream that appeared while the puller was starting is reused. */
    method InsertStream(url: Url, sid: StreamId) returns (id: StreamId)
      modifies this`streams
      ensures streams == AfterInsert(old(streams), url, sid)
      ensures id in streams && streams[id].url == url
      ensures !HasUrl(old(streams), url) ==> id == sid
    {
      var existing := FindByUrl(url);
      if existing.Some? {
        return existing.value;
      }
      streams := streams[sid := Active(url, 0, None)];
      return sid;
    }

    method SubscribeExisting(id: StreamId, maxPerStream: nat) returns (r: Subscribed)
      modifies this
      ensures (streams, r) == AfterSubscribe(old(streams), id, maxPerStream)
      ensures totalPeers == old(totalPeers) + if r.Accepted? then 1 else 0
    {
      if id !in streams {
        return Refused(NotFound);
      }
      var active := streams[id];
      if active.count >= maxPerStream {
        return Refused(LimitReached);
      }
      var timer := active.idleTimer;
      active := active.(idleTimer := None);
      active := active.(count := active.count + 1);
      streams := streams[id := active];
      totalPeers := totalPeers + 1;
      return Accepted(timer);
    }

    /** The first section of `unsubscribe`; the total is corrected after the lock is released. */
    method Leave(id: StreamId) returns (left: Option<nat>)
      modifies this`streams
      ensures (streams, left) == AfterUnsubscribe(old(streams), id)
    {
      if id !in streams {
        return None;
      }
      var active := streams[id];
      active := active.(count := SaturatingPred(active.count));
      streams := streams[id := active];
      return Some(active.count);
    }

    method StoreTimer(id: StreamId, timer: TimerId)
      modifies this`streams
      ensures streams == AfterStore(old(streams), id, timer)
    {
      if id in streams {
        streams := streams[id := streams[id].(idleTimer := Some(timer))];
      }
    }

    method FireTimer(id: StreamId)
      modifies this`streams
      ensures streams == AfterFire(old(streams), id)
    {
      if id in streams {
        if streams[id].count == 0 {
          streams := streams - {id};
        }
      }
    }

    method RemoveStream(id: StreamId) returns (aborted: Option<TimerId>, ok: bool)
      modifies this`streams
      ensures ok <==> id in old(streams)
      ensures streams == old(streams) - {id}
      ensures aborted == if ok then old(streams)[id].idleTimer else None
    {
      ok := id in streams;
      aborted := None;
      if ok {
        aborted := streams[id].idleTimer;
      }
      streams := streams - {id};
    }
  }

  // Sums over the map

  ghost function SumCounts(m: StreamMap): nat
    decreases |m|
  {
    if m == map[] then
      0
    else
      var k :| k in m;
      SmallerWithout(m, k);
      m[k].count + SumCounts(m - {k})
  }

  lemma SmallerWithout(m: StreamMap, k: StreamId)
    requires k in m
    ensures |m - {k}| < |m|
  {
  }

  lemma {:induction false} SumWithout(m: StreamMap, k: StreamId)
    requires k in m
    ensures SumCounts(m) == m[k].count + SumCounts(m - {k})
    decreases |m|
  {
    var j :| j in m && SumCounts(m) == m[j].count + SumCounts(m - {j});
    if j != k {
      SmallerWithout(m, j);
      SumWithout(m - {j}, k);
      SumWithout(m - {k}, j) by { SmallerWithout(m, k); }
      assert m - {j} - {k} == m - {k} - {j};
    }
  }

  lemma SumUpdate(m: StreamMap, k: StreamId, a: Active)
    ensures SumCounts(m[k := a]) == a.count + SumCounts(m - {k})
  {
    SumWithout(m[k := a], k);
    assert m[k := a] - {k} == m - {k};
  }

  // Interleavings

  /** The shared registry and every operation under way.
      `creators`: pullers being started; `subs`: subscriptions not yet released; `leaving`: releases
      between the lock and the correction of the total, and whether they left the stream empty;
      `spawning`: about to start a timer; `storing`: about to store a timer that runs; `timers`: timers
      that run; `used`: all ids ever given out; `dropped`: streams that have had a subscriber;
      `lost`: subscribers of streams that were removed by force. */
  datatype Registry = Registry(
    streams: StreamMap,
    total: int,
    creators: multiset<Url>,
    subs: multiset<StreamId>,
    leaving: multiset<(StreamId, bool)>,
    spawning: multiset<StreamId>,
    storing: multiset<(StreamId, TimerId)>,
    timers: map<TimerId, StreamId>,
    started: nat,
    used: set<StreamId>,
    dropped: set<StreamId>,
    lost: nat)

  datatype Event =
    | Look(url: Url)
    | GiveUp(url: Url)
    | Insert(url: Url, id: StreamId)
    | Subscribe(id: StreamId)
    | Unsubscribe(id: StreamId)
    | Decrement(id: StreamId, empty: bool)
    | Spawn(id: StreamId)
    | Store(id: StreamId, timer: TimerId)
    | Fire(timer: TimerId)
    | Remove(id: StreamId)

  function Aborted(timers: map<TimerId, StreamId>, timer: Option<TimerId>): map<TimerId, StreamId> {
    if timer.Some? then timers - {timer.value} else timers
  }

  /** A fresh id is one that has never been given out; a subscription is released at most once. */
  predicate Possible(r: Registry, e: Event) {
    match e
    case Look(_) => true
    case GiveUp(url) => url in r.creators
    case Insert(url, id) => url in r.creators && id !in r.used
    case Subscribe(_) => true
    case Unsubscribe(id) => id in r.subs
    case Decrement(id, empty) => (id, empty) in r.leaving
    case Spawn(id) => id in r.spawning
    case Store(id, timer) => (id, timer) in r.storing
    case Fire(timer) => timer in r.timers
    case Remove(_) => true
  }

  function Happened(r: Registry, maxPerStream: nat, e: Event): Registry
    requires Possible(r, e)
  {
    match e
    case Look(url) => if HasUrl(r.streams, url) then r else r.(creators := r.creators + multiset{url})
    case GiveUp(url) => r.(creators := r.creators - multiset{url})
    case Insert(url, id) =>
      r.(creators := r.creators - multiset{url}, streams := AfterInsert(r.streams, url, id), used := r.used + {id})
    case Subscribe(id) =>
      (match AfterSubscribe(r.streams, id, maxPerStream)
       case (streams, Refused(_)) => r
       case (streams, Accepted(timer)) =>
         r.(streams := streams, total := r.total + 1, subs := r.subs + multiset{id}, timers := Aborted(r.timers, timer),
            dropped := r.dropped + {id}))
    case Unsubscribe(id) =>
      (match AfterUnsubscribe(r.streams, id)
       case (_, None) => r.(subs := r.subs - multiset{id})
       case (streams, Some(left)) =>
         r.(streams := streams, subs := r.subs - multiset{id}, leaving := r.leaving + multiset{(id, left == 0)}))
    case Decrement(id, empty) =>
      r.(total := r.total - 1, leaving := r.leaving - multiset{(id, empty)},
         spawning := if empty then r.spawning + multiset{id} else r.spawning)
    case Spawn(id) =>
      r.(spawning := r.spawning - multiset{id}, timers := r.timers[r.started := id], started := r.started + 1,
         storing := r.storing + multiset{(id, r.started)})
    case Store(id, timer) =>
      r.(storing := r.storing - multiset{(id, timer)}, streams := AfterStore(r.streams, id, timer))
    case Fire(timer) =>
      r.(timers := r.timers - {timer}, streams := AfterFire(r.streams, r.timers[timer]))
    case Remove(id) =>
      if id in r.streams then
        r.(streams := r.streams - {id}, timers := Aborted(r.timers, r.streams[id].idleTimer), lost := r.lost + r.streams[id].count)
      else
        r
  }

  // What every interleaving keeps

  ghost predicate UniqueUrls(streams: StreamMap) {
    forall a, b :: a in streams && b in streams && streams[a].url == streams[b].url ==> a == b
  }

  ghost predicate CountsMatch(streams: StreamMap, subs: multiset<StreamId>, maxPerStream: nat) {
    forall id :: id in streams ==> streams[id].count == subs[id] && streams[id].count <= maxPerStream
  }

  ghost predicate CountsExact(r: Registry, maxPerStream: nat) {
    CountsMatch(r.streams, r.subs, maxPerStream)
  }

  /** The total counts every subscriber, every release still to be corrected, and every subscriber of
      a stream that was removed by force, for ever. */
  ghost predicate TotalExact(r: Registry) {
    r.total == SumCounts(r.streams) + |r.leaving| + r.lost
  }

  ghost predicate HasTimer(r: Registry, id: StreamId) {
    (exists t :: t in r.timers && r.timers[t] == id) || id in r.spawning || (id, true) in r.leaving
  }

  /** An empty stream that has been used is going to be removed. */
  ghost predicate TimersLive(r: Registry) {
    forall id :: id in r.streams && r.streams[id].count == 0 && id in r.dropped ==> HasTimer(r, id)
  }

  /** A stored timer belongs to its stream. */
  ghost predicate StoredNamed(streams: StreamMap, timers: map<TimerId, StreamId>, started: nat) {
    forall id :: id in streams && streams[id].idleTimer.Some? ==>
      var t := streams[id].idleTimer.value; t < started && (t in timers ==> timers[t] == id)
  }

  /** So does one that is about to be stored. */
  ghost predicate TimersNamed(r: Registry) {
    (forall t :: t in r.timers ==> t < r.started)
    && (forall id, t :: (id, t) in r.storing ==> t < r.started && (t in r.timers ==> r.timers[t] == id))
    && StoredNamed(r.streams, r.timers, r.started)
  }

  ghost predicate IdsUsed(r: Registry) {
    (forall id :: id in r.streams ==> id in r.used) && (forall id :: id in r.subs ==> id in r.used)
    && (forall id :: id in r.dropped ==> id in r.used)
  }

  ghost predicate RegistryOk(r: Registry, maxPerStream: nat) {
    UniqueUrls(r.streams) && CountsExact(r, maxPerStream) && TotalExact(r) && TimersLive(r) && TimersNamed(r) && IdsUsed(r)
  }

  const EMPTY := Registry(map[], 0, multiset{}, multiset{}, multiset{}, multiset{}, multiset{}, map[], 0, {}, {}, 0)

  lemma EmptyOk(maxPerStream: nat)
    ensures RegistryOk(EMPTY, maxPerStream)
  {
  }

  lemma SumChanged(m: StreamMap, k: StreamId, a: Active)
    requires k in m
    ensures SumCounts(m[k := a]) == SumCounts(m) - m[k].count + a.count
  {
    SumUpdate(m, k, a);
    SumWithout(m, k);
  }

  lemma SumAdded(m: StreamMap, k: StreamId, a: Active)
    requires k !in m
    ensures SumCounts(m[k := a]) == SumCounts(m) + a.count
  {
    SumUpdate(m, k, a);
    assert m - {k} == m;
  }

  lemma InsertSums(streams: StreamMap, url: Url, id: StreamId)
    requires id !in streams
    ensures SumCounts(AfterInsert(streams, url, id)) == SumCounts(streams)
  {
    hide HasUrl;
    SumAdded(streams, id, Active(url, 0, None));
  }

  lemma SubscribeSums(streams: StreamMap, id: StreamId, maxPerStream: nat)
    ensures SumCounts(AfterSubscribe(streams, id, maxPerStream).0)
         == SumCounts(streams) + (if AfterSubscribe(streams, id, maxPerStream).1.Accepted? then 1 else 0)
  {
    if id in streams {
      SumChanged(streams, id, Active(streams[id].url, streams[id].count + 1, None));
    }
  }

  lemma UnsubscribeSums(streams: StreamMap, id: StreamId)
    requires id in streams ==> streams[id].count > 0
    ensures SumCounts(AfterUnsubscribe(streams, id).0) == SumCounts(streams) - (if AfterUnsubscribe(streams, id).1.Some? then 1 else 0)
  {
    if id in streams {
      SumChanged(streams, id, streams[id].(count := SaturatingPred(streams[id].count)));
    }
  }

  lemma StoreSums(streams: StreamMap, id: StreamId, timer: TimerId)
    ensures SumCounts(AfterStore(streams, id, timer)) == SumCounts(streams)
  {
    if id in streams {
      SumChanged(streams, id, streams[id].(idleTimer := Some(timer)));
    }
  }

  lemma FireSums(streams: StreamMap, id: StreamId)
    ensures SumCounts(AfterFire(streams, id)) == SumCounts(streams)
    ensures id in streams ==> SumCounts(streams - {id}) == SumCounts(streams) - streams[id].count
  {
    if id in streams {
      SumWithout(streams, id);
    }
  }

  lemma SubscribersCounted(r: Registry, maxPerStream: nat, id: StreamId)
    requires CountsExact(r, maxPerStream) && id in r.subs
    ensures id in r.streams ==> r.streams[id].count > 0
  {
  }

  lemma TotalSections(r: Registry, maxPerStream: nat, e: Event)
    requires TotalExact(r) && Possible(r, e) && (e.Subscribe? || e.Store? || e.Fire? || e.Remove?)
    ensures TotalExact(Happened(r, maxPerStream, e))
  {
    hide HasUrl, AfterSubscribe, SumCounts, AfterStore, AfterFire, Aborted;
    match e
    case Subscribe(id) => SubscribeSums(r.streams, id, maxPerStream);
    case Store(id, timer) => StoreSums(r.streams, id, timer);
    case Fire(timer) => FireSums(r.streams, r.timers[timer]);
    case Remove(id) => FireSums(r.streams, id);
  }

  lemma TotalReleased(r: Registry, maxPerStream: nat, id: StreamId)
    requires TotalExact(r) && CountsExact(r, maxPerStream) && id in r.subs
    ensures TotalExact(Happened(r, maxPerStream, Unsubscribe(id)))
  {
    hide CountsMatch, AfterUnsubscribe, SumCounts;
    SubscribersCounted(r, maxPerStream, id);
    UnsubscribeSums(r.streams, id);
  }

  lemma TotalCorrected(r: Registry, maxPerStream: nat, e: Event)
    requires TotalExact(r) && e.Decrement? && Possible(r, e)
    ensures TotalExact(Happened(r, maxPerStream, e))
  {
    hide SumCounts;
  }

  lemma TotalInserted(r: Registry, maxPerStream: nat, e: Event)
    requires TotalExact(r) && IdsUsed(r) && e.Insert? && Possible(r, e)
    ensures TotalExact(Happened(r, maxPerStream, e))
  {
    hide HasUrl, SumCounts, AfterInsert;
    InsertSums(r.streams, e.url, e.id);
  }

  lemma TotalKept(r: Registry, maxPerStream: nat, e: Event)
    requires TotalExact(r) && CountsExact(r, maxPerStream) && IdsUsed(r) && Possible(r, e)
    ensures TotalExact(Happened(r, maxPerStream, e))
  {
    hide IdsUsed, CountsExact, HasUrl, SumCounts, AfterInsert, AfterSubscribe, AfterUnsubscribe, AfterStore, AfterFire, Aborted;
    match e
    case Insert(_, _) => TotalInserted(r, maxPerStream, e);
    case Unsubscribe(id) => TotalReleased(r, maxPerStream, id);
    case Decrement(_, _) => TotalCorrected(r, maxPerStream, e);
    case Look(_) =>
    case GiveUp(_) =>
    case Spawn(_) =>
    case _ => TotalSections(r, maxPerStream, e);
  }

  lemma CountsSections(streams: StreamMap, subs: multiset<StreamId>, id: StreamId, maxPerStream: nat)
    requires CountsMatch(streams, subs, maxPerStream)
    ensures var (joined, r) := AfterSubscribe(streams, id, maxPerStream);
            r.Accepted? ==> CountsMatch(joined, subs + multiset{id}, maxPerStream)
    ensures id in subs ==> CountsMatch(AfterUnsubscribe(streams, id).0, subs - multiset{id}, maxPerStream)
    ensures CountsMatch(AfterFire(streams, id), subs, maxPerStream)
    ensures CountsMatch(streams - {id}, subs, maxPerStream)
  {
  }

  lemma CountsStoreInsert(streams: StreamMap, subs: multiset<StreamId>, id: StreamId, url: Url, timer: TimerId, maxPerStream: nat)
    requires CountsMatch(streams, subs, maxPerStream)
    ensures CountsMatch(AfterStore(streams, id, timer), subs, maxPerStream)
    ensures id !in subs ==> CountsMatch(AfterInsert(streams, url, id), subs, maxPerStream)
  {
  }

  lemma CountsKept(r: Registry, maxPerStream: nat, e: Event)
    requires CountsExact(r, maxPerStream) && IdsUsed(r) && Possible(r, e)
    ensures CountsExact(Happened(r, maxPerStream, e), maxPerStream)
  {
    hide CountsMatch, AfterFire, AfterStore, AfterInsert, HasUrl, AfterSubscribe;
    match e
    case Insert(url, id) => CountsStoreInsert(r.streams, r.subs, id, url, 0, maxPerStream);
    case Subscribe(id) => CountsSections(r.streams, r.subs, id, maxPerStream);
    case Unsubscribe(id) =>
      CountsSections(r.streams, r.subs, id, maxPerStream);
      assert id !in r.streams ==> AfterUnsubscribe(r.streams, id).0 == r.streams;
    case Store(id, timer) => CountsStoreInsert(r.streams, r.subs, id, "", timer, maxPerStream);
    case Fire(timer) => CountsSections(r.streams, r.subs, r.timers[timer], maxPerStream);
    case Remove(id) => CountsSections(r.streams, r.subs, id, maxPerStream);
    case _ =>
  }

  /** No stream of `more` is new or pulls another URL than before. */
  ghost predicate UrlsFrom(streams: StreamMap, more: StreamMap) {
    forall id :: id in more ==> id in streams && more[id].url == streams[id].url
  }

  lemma UrlsStay(streams: StreamMap, more: StreamMap)
    requires UniqueUrls(streams) && UrlsFrom(streams, more)
    ensures UniqueUrls(more)
  {
  }

  lemma UrlsSections(streams: StreamMap, id: StreamId, timer: TimerId, maxPerStream: nat)
    ensures UrlsFrom(streams, AfterSubscribe(streams, id, maxPerStream).0)
    ensures UrlsFrom(streams, AfterUnsubscribe(streams, id).0) && UrlsFrom(streams, AfterStore(streams, id, timer))
    ensures UrlsFrom(streams, AfterFire(streams, id)) && UrlsFrom(streams, streams - {id}) && UrlsFrom(streams, streams)
  {
  }

  lemma UrlsInsert(streams: StreamMap, url: Url, id: StreamId)
    requires UniqueUrls(streams)
    ensures UniqueUrls(AfterInsert(streams, url, id))
  {
  }

  lemma UrlsKept(r: Registry, maxPerStream: nat, e: Event)
    requires UniqueUrls(r.streams) && Possible(r, e)
    ensures UniqueUrls(Happened(r, maxPerStream, e).streams)
  {
    hide UniqueUrls, UrlsFrom, AfterInsert, AfterStore, AfterFire, HasUrl, AfterSubscribe, AfterUnsubscribe;
    match e
    case Insert(url, id) => UrlsInsert(r.streams, url, id);
    case Subscribe(id) =>
      UrlsSections(r.streams, id, 0, maxPerStream);
      UrlsStay(r.streams, AfterSubscribe(r.streams, id, maxPerStream).0);
    case Unsubscribe(id) =>
      UrlsSections(r.streams, id, 0, maxPerStream);
      UrlsStay(r.streams, AfterUnsubscribe(r.streams, id).0);
    case Store(id, timer) =>
      UrlsSections(r.streams, id, timer, maxPerStream);
      UrlsStay(r.streams, AfterStore(r.streams, id, timer));
    case Fire(timer) =>
      UrlsSections(r.streams, r.timers[timer], timer, maxPerStream);
      UrlsStay(r.streams, AfterFire(r.streams, r.timers[timer]));
    case Remove(id) =>
      UrlsSections(r.streams, id, 0, maxPerStream);
      UrlsStay(r.streams, r.streams - {id});
    case _ =>
  }

  lemma EmptiedByInsert(r: Registry, maxPerStream: nat, e: Event, id: StreamId)
    requires IdsUsed(r) && Possible(r, e) && e.Insert?
    requires var s := Happened(r, maxPerStream, e); id in s.streams && s.streams[id].count == 0 && id in s.dropped
    ensures id in r.streams && r.streams[id].count == 0 && id in r.dropped
  {
  }

  lemma EmptiedBySubscribe(r: Registry, maxPerStream: nat, e: Event, id: StreamId)
    requires Possible(r, e) && e.Subscribe?
    requires var s := Happened(r, maxPerStream, e); id in s.streams && s.streams[id].count == 0 && id in s.dropped
    ensures id in r.streams && r.streams[id].count == 0 && id in r.dropped
  {
  }

  lemma EmptiedByUnsubscribe(r: Registry, maxPerStream: nat, e: Event, id: StreamId)
    requires Possible(r, e) && e.Unsubscribe?
    requires var s := Happened(r, maxPerStream, e); id in s.streams && s.streams[id].count == 0 && id in s.dropped
    ensures id in r.dropped
    ensures (id in r.streams && r.streams[id].count == 0) || (id, true) in Happened(r, maxPerStream, e).leaving
  {
  }

  lemma SectionsEmpty(streams: StreamMap, id: StreamId, timer: TimerId, x: StreamId)
    ensures x in AfterStore(streams, id, timer) ==> x in streams && AfterStore(streams, id, timer)[x].count == streams[x].count
    ensures x in AfterFire(streams, id) ==> x in streams && AfterFire(streams, id)[x] == streams[x]
  {
  }

  lemma EmptiedOtherwise(r: Registry, maxPerStream: nat, e: Event, id: StreamId)
    requires Possible(r, e) && !e.Insert? && !e.Subscribe? && !e.Unsubscribe?
    requires var s := Happened(r, maxPerStream, e); id in s.streams && s.streams[id].count == 0 && id in s.dropped
    ensures id in r.streams && r.streams[id].count == 0 && id in r.dropped
  {
    hide HasUrl, Aborted, AfterStore, AfterFire;
    match e
    case Store(owner, timer) => SectionsEmpty(r.streams, owner, timer, id);
    case Fire(timer) => SectionsEmpty(r.streams, r.timers[timer], timer, id);
    case _ =>
  }

  /** Only a release empties a stream. */
  lemma EmptiedByRelease(r: Registry, maxPerStream: nat, e: Event, id: StreamId)
    requires IdsUsed(r) && Possible(r, e)
    requires var s := Happened(r, maxPerStream, e); id in s.streams && s.streams[id].count == 0 && id in s.dropped
    ensures id in r.dropped
    ensures (id in r.streams && r.streams[id].count == 0) || (id, true) in Happened(r, maxPerStream, e).leaving
  {
    hide Happened, Possible, IdsUsed;
    match e
    case Insert(_, _) => EmptiedByInsert(r, maxPerStream, e, id);
    case Subscribe(_) => EmptiedBySubscribe(r, maxPerStream, e, id);
    case Unsubscribe(_) => EmptiedByUnsubscribe(r, maxPerStream, e, id);
    case _ => EmptiedOtherwise(r, maxPerStream, e, id);
  }

  lemma TimersKept(r: Registry, maxPerStream: nat, e: Event)
    requires CountsExact(r, maxPerStream) && TimersLive(r) && TimersNamed(r) && IdsUsed(r) && Possible(r, e)
    ensures TimersLive(Happened(r, maxPerStream, e))
  {
    hide SumCounts, Happened, Possible, IdsUsed, CountsExact, TimersNamed;
    var s := Happened(r, maxPerStream, e);
    forall id | id in s.streams && s.streams[id].count == 0 && id in s.dropped
      ensures HasTimer(s, id)
    {
      EmptiedByRelease(r, maxPerStream, e, id);
      if id in r.streams && r.streams[id].count == 0 {
        TimerStays(r, maxPerStream, e, id);
      }
    }
  }

  lemma TimerOrPromise(r: Registry, s: Registry, id: StreamId)
    requires HasTimer(r, id)
    requires forall t :: t in r.timers && r.timers[t] == id ==> t in s.timers && s.timers[t] == id
    requires id in r.spawning ==> id in s.spawning || exists t :: t in s.timers && s.timers[t] == id
    requires (id, true) in r.leaving ==> (id, true) in s.leaving || id in s.spawning
    ensures HasTimer(s, id)
  {
  }

  /** A timer that is aborted belongs to the stream that has just been joined or removed. */
  lemma AbortSpares(timers: map<TimerId, StreamId>, timer: Option<TimerId>, owner: StreamId, id: StreamId)
    requires timer.Some? && timer.value in timers ==> timers[timer.value] == owner
    requires id != owner
    ensures forall t :: t in timers && timers[t] == id ==> t in Aborted(timers, timer) && Aborted(timers, timer)[t] == id
  {
  }

  /** A stream that stays empty keeps a timer, or the promise of one. */
  lemma TimerStays(r: Registry, maxPerStream: nat, e: Event, id: StreamId)
    requires TimersNamed(r) && Possible(r, e) && id in r.streams && r.streams[id].count == 0 && HasTimer(r, id)
    requires var s := Happened(r, maxPerStream, e); id in s.streams && s.streams[id].count == 0
    ensures HasTimer(Happened(r, maxPerStream, e), id)
  {
    hide HasTimer, Happened, Possible, TimersNamed;
    match e
    case Subscribe(_) => StaysWhenJoined(r, maxPerStream, e, id);
    case Remove(_) => StaysWhenRemoved(r, maxPerStream, e, id);
    case Decrement(_, _) => StaysWhenLeft(r, maxPerStream, e, id);
    case Spawn(_) => StaysWhenSpawned(r, maxPerStream, e, id);
    case Fire(_) => StaysWhenFired(r, maxPerStream, e, id);
    case _ => StaysOtherwise(r, maxPerStream, e, id);
  }

  lemma StaysWhenJoined(r: Registry, maxPerStream: nat, e: Event, id: StreamId)
    requires TimersNamed(r) && Possible(r, e) && e.Subscribe? && id in r.streams && HasTimer(r, id)
    requires var s := Happened(r, maxPerStream, e); id in s.streams && s.streams[id].count == 0
    ensures HasTimer(Happened(r, maxPerStream, e), id)
  {
    hide HasTimer;
    if e.id in r.streams && e.id != id {
      AbortSpares(r.timers, r.streams[e.id].idleTimer, e.id, id);
    }
    TimerOrPromise(r, Happened(r, maxPerStream, e), id);
  }

  lemma StaysWhenRemoved(r: Registry, maxPerStream: nat, e: Event, id: StreamId)
    requires TimersNamed(r) && Possible(r, e) && e.Remove? && id in r.streams && HasTimer(r, id)
    requires id in Happened(r, maxPerStream, e).streams
    ensures HasTimer(Happened(r, maxPerStream, e), id)
  {
    hide HasTimer;
    if e.id in r.streams {
      AbortSpares(r.timers, r.streams[e.id].idleTimer, e.id, id);
    }
    TimerOrPromise(r, Happened(r, maxPerStream, e), id);
  }

  lemma StaysWhenLeft(r: Registry, maxPerStream: nat, e: Event, id: StreamId)
    requires Possible(r, e) && e.Decrement? && HasTimer(r, id)
    ensures HasTimer(Happened(r, maxPerStream, e), id)
  {
  }

  lemma StaysWhenSpawned(r: Registry, maxPerStream: nat, e: Event, id: StreamId)
    requires TimersNamed(r) && Possible(r, e) && e.Spawn? && HasTimer(r, id)
    ensures HasTimer(Happened(r, maxPerStream, e), id)
  {
    hide HasTimer;
    assert Happened(r, maxPerStream, e).timers[r.started] == e.id;
    TimerOrPromise(r, Happened(r, maxPerStream, e), id);
  }

  lemma StaysWhenFired(r: Registry, maxPerStream: nat, e: Event, id: StreamId)
    requires Possible(r, e) && e.Fire? && id in r.streams && r.streams[id].count == 0 && HasTimer(r, id)
    requires id in Happened(r, maxPerStream, e).streams
    ensures HasTimer(Happened(r, maxPerStream, e), id)
  {
    hide HasTimer;
    assert r.timers[e.timer] != id;
    TimerOrPromise(r, Happened(r, maxPerStream, e), id);
  }

  lemma StaysOtherwise(r: Registry, maxPerStream: nat, e: Event, id: StreamId)
    requires Possible(r, e) && HasTimer(r, id)
    requires !e.Subscribe? && !e.Remove? && !e.Decrement? && !e.Spawn? && !e.Fire?
    ensures HasTimer(Happened(r, maxPerStream, e), id)
  {
  }

  lemma NamesKept(r: Registry, maxPerStream: nat, e: Event)
    requires TimersNamed(r) && Possible(r, e)
    ensures TimersNamed(Happened(r, maxPerStream, e))
  {
    var s := Happened(r, maxPerStream, e);
    if e.Spawn? {
      SpawnNamed(r, maxPerStream, e);
    } else if e.Store? {
      StoreNamed(r, maxPerStream, e);
    } else {
      QuietNamed(r, maxPerStream, e);
    }
  }

  lemma SpawnNamed(r: Registry, maxPerStream: nat, e: Event)
    requires TimersNamed(r) && Possible(r, e) && e.Spawn?
    ensures TimersNamed(Happened(r, maxPerStream, e))
  {
  }

  lemma StoreNamed(r: Registry, maxPerStream: nat, e: Event)
    requires TimersNamed(r) && Possible(r, e) && e.Store?
    ensures TimersNamed(Happened(r, maxPerStream, e))
  {
  }

  /** No stream has a stored timer that it did not have. */
  ghost predicate NoNewTimers(streams: StreamMap, more: StreamMap) {
    forall id :: id in more && more[id].idleTimer.Some? ==> id in streams && more[id].idleTimer == streams[id].idleTimer
  }

  lemma SectionsQuiet(streams: StreamMap, url: Url, id: StreamId, maxPerStream: nat)
    ensures NoNewTimers(streams, AfterInsert(streams, url, id))
    ensures NoNewTimers(streams, AfterSubscribe(streams, id, maxPerStream).0)
    ensures NoNewTimers(streams, AfterUnsubscribe(streams, id).0)
    ensures NoNewTimers(streams, AfterFire(streams, id))
    ensures NoNewTimers(streams, streams - {id}) && NoNewTimers(streams, streams)
  {
  }

  lemma QuietNamed(r: Registry, maxPerStream: nat, e: Event)
    requires TimersNamed(r) && Possible(r, e) && !e.Spawn? && !e.Store?
    ensures TimersNamed(Happened(r, maxPerStream, e))
  {
    hide NoNewTimers, StoredNamed, Happened;
    var s := Happened(r, maxPerStream, e);
    SameStarted(r, maxPerStream, e);
    QuietStored(r.streams, r.timers, r.started, s.streams, s.timers);
  }

  lemma QuietStored(streams: StreamMap, timers: map<TimerId, StreamId>, started: nat, more: StreamMap, fewer: map<TimerId, StreamId>)
    requires StoredNamed(streams, timers, started) && NoNewTimers(streams, more)
    requires forall t :: t in fewer ==> t in timers && fewer[t] == timers[t]
    ensures StoredNamed(more, fewer, started)
  {
  }

  lemma SameTimers(r: Registry, maxPerStream: nat, e: Event)
    requires Possible(r, e) && !e.Spawn? && !e.Store?
    ensures var s := Happened(r, maxPerStream, e);
            forall t :: t in s.timers ==> t in r.timers && s.timers[t] == r.timers[t]
  {
    hide Possible;
  }

  lemma SameStarted(r: Registry, maxPerStream: nat, e: Event)
    requires Possible(r, e) && !e.Spawn? && !e.Store?
    ensures var s := Happened(r, maxPerStream, e);
            s.started == r.started && s.storing == r.storing && NoNewTimers(r.streams, s.streams)
            && (forall t :: t in s.timers ==> t in r.timers && s.timers[t] == r.timers[t])
  {
    hide HasUrl, NoNewTimers, AfterInsert, AfterSubscribe, AfterUnsubscribe, AfterFire, Aborted;
    SameTimers(r, maxPerStream, e);
    match e
    case Insert(url, id) => SectionsQuiet(r.streams, url, id, maxPerStream);
    case Subscribe(id) => SectionsQuiet(r.streams, "", id, maxPerStream);
    case Unsubscribe(id) => SectionsQuiet(r.streams, "", id, maxPerStream);
    case Fire(timer) => SectionsQuiet(r.streams, "", r.timers[timer], maxPerStream);
    case Remove(id) => SectionsQuiet(r.streams, "", id, maxPerStream);
    case _ => SectionsQuiet(r.streams, "", "", maxPerStream);
  }

  ghost predicate NoNewIds(streams: StreamMap, more: StreamMap) {
    forall id :: id in more ==> id in streams
  }

  lemma SectionsIds(streams: StreamMap, id: StreamId, timer: TimerId, maxPerStream: nat)
    ensures NoNewIds(streams, AfterSubscribe(streams, id, maxPerStream).0)
    ensures AfterSubscribe(streams, id, maxPerStream).1.Accepted? ==> id in streams
    ensures NoNewIds(streams, AfterUnsubscribe(streams, id).0) && NoNewIds(streams, AfterStore(streams, id, timer))
    ensures NoNewIds(streams, AfterFire(streams, id)) && NoNewIds(streams, streams - {id}) && NoNewIds(streams, streams)
  {
  }

  lemma IdsInsert(r: Registry, maxPerStream: nat, e: Event)
    requires IdsUsed(r) && Possible(r, e) && e.Insert?
    ensures IdsUsed(Happened(r, maxPerStream, e))
  {
  }

  lemma IdsSubscribe(r: Registry, maxPerStream: nat, e: Event)
    requires IdsUsed(r) && Possible(r, e) && e.Subscribe?
    ensures IdsUsed(Happened(r, maxPerStream, e))
  {
  }

  lemma IdsUnsubscribe(r: Registry, maxPerStream: nat, e: Event)
    requires IdsUsed(r) && Possible(r, e) && e.Unsubscribe?
    ensures IdsUsed(Happened(r, maxPerStream, e))
  {
  }

  lemma IdsFewer(r: Registry, maxPerStream: nat, e: Event)
    requires Possible(r, e) && !e.Insert? && !e.Subscribe? && !e.Unsubscribe?
    ensures var s := Happened(r, maxPerStream, e);
            NoNewIds(r.streams, s.streams) && s.subs == r.subs && s.dropped == r.dropped && s.used == r.used
  {
    hide HasUrl, Aborted, AfterStore, AfterFire, NoNewIds;
    SectionsIds(r.streams, "", 0, maxPerStream);
    match e
    case Store(id, timer) => SectionsIds(r.streams, id, timer, maxPerStream);
    case Fire(timer) => SectionsIds(r.streams, r.timers[timer], timer, maxPerStream);
    case Remove(id) => SectionsIds(r.streams, id, 0, maxPerStream);
    case _ =>
  }

  lemma IdsKept(r: Registry, maxPerStream: nat, e: Event)
    requires IdsUsed(r) && Possible(r, e)
    ensures IdsUsed(Happened(r, maxPerStream, e))
  {
    hide Happened, Possible;
    if e.Insert? {
      IdsInsert(r, maxPerStream, e);
    } else if e.Subscribe? {
      IdsSubscribe(r, maxPerStream, e);
    } else if e.Unsubscribe? {
      IdsUnsubscribe(r, maxPerStream, e);
    } else {
      IdsFewer(r, maxPerStream, e);
    }
  }

  lemma EventKeeps(r: Registry, maxPerStream: nat, e: Event)
    requires RegistryOk(r, maxPerStream) && Possible(r, e)
    ensures RegistryOk(Happened(r, maxPerStream, e), maxPerStream)
  {
    hide UniqueUrls, CountsExact, TotalExact, TimersLive, TimersNamed, IdsUsed, Happened;
    UrlsKept(r, maxPerStream, e);
    CountsKept(r, maxPerStream, e);
    TotalKept(r, maxPerStream, e);
    TimersKept(r, maxPerStream, e);
    NamesKept(r, maxPerStream, e);
    IdsKept(r, maxPerStream, e);
  }

  ghost predicate Reaches(r: Registry, maxPerStream: nat, events: seq<Event>, end: Registry)
    decreases |events|
  {
    if events == [] then end == r
    else Possible(r, events[0]) && Reaches(Happened(r, maxPerStream, events[0]), maxPerStream, events[1..], end)
  }

  lemma {:induction false} RunKeeps(r: Registry, maxPerStream: nat, events: seq<Event>, end: Registry)
    requires RegistryOk(r, maxPerStream) && Reaches(r, maxPerStream, events, end)
    ensures RegistryOk(end, maxPerStream)
    decreases |events|
  {
    hide RegistryOk, Happened;
    if events != [] {
      EventKeeps(r, maxPerStream, events[0]);
      RunKeeps(Happened(r, maxPerStream, events[0]), maxPerStream, events[1..], end);
    }
  }

  /** Under every interleaving: no two streams pull the same URL; each count is the number of its
      subscribers and within the limit; the total is the sum of the counts, the releases still to be
      corrected and the subscribers of streams removed by force; it never underflows; and an empty
      stream that has been used is going to be removed. */
  lemma EveryInterleaving(maxPerStream: nat, events: seq<Event>, r: Registry)
    requires Reaches(EMPTY, maxPerStream, events, r)
    ensures UniqueUrls(r.streams)
    ensures forall id :: id in r.streams ==> r.streams[id].count == r.subs[id] && r.streams[id].count <= maxPerStream
    ensures r.total == SumCounts(r.streams) + |r.leaving| + r.lost
    ensures forall id, empty :: (id, empty) in r.leaving ==> r.total > 0
    ensures forall id :: id in r.streams && r.streams[id].count == 0 && id in r.dropped ==> HasTimer(r, id)
  {
    hide SumCounts, HasTimer, UniqueUrls;
    EmptyOk(maxPerStream);
    RunKeeps(EMPTY, maxPerStream, events, r);
    forall id, empty | (id, empty) in r.leaving
      ensures r.total > 0
    {
      assert |r.leaving| == |r.leaving - multiset{(id, empty)}| + 1;
    }
  }

  /** A timer that fires never takes a stream from its subscribers. */
  lemma FiringSparesSubscribers(maxPerStream: nat, events: seq<Event>, r: Registry, timer: TimerId)
    requires Reaches(EMPTY, maxPerStream, events, r) && timer in r.timers
    ensures var s := Happened(r, maxPerStream, Fire(timer));
            forall id :: id in r.streams && (id in r.subs || id != r.timers[timer]) ==>
              id in s.streams && s.streams[id] == r.streams[id]
  {
    hide SumCounts, HasTimer, UniqueUrls, TimersNamed, TimersLive, Reaches, IdsUsed;
    EmptyOk(maxPerStream);
    RunKeeps(EMPTY, maxPerStream, events, r);
  }

  lemma {:induction false} LostNeverFalls(r: Registry, maxPerStream: nat, events: seq<Event>, end: Registry)
    requires Reaches(r, maxPerStream, events, end)
    ensures r.lost <= end.lost
    decreases |events|
  {
    if events != [] {
      LostNeverFalls(Happened(r, maxPerStream, events[0]), maxPerStream, events[1..], end);
    }
  }

  lemma {:induction false} ReachesOn(r: Registry, maxPerStream: nat, events: seq<Event>, middle: Registry, more: seq<Event>, end: Registry)
    requires Reaches(r, maxPerStream, events, middle) && Reaches(middle, maxPerStream, more, end)
    ensures Reaches(r, maxPerStream, events + more, end)
    decreases |events|
  {
    hide Happened, Possible;
    if events == [] {
      assert events + more == more;
    } else {
      ReachesOn(Happened(r, maxPerStream, events[0]), maxPerStream, events[1..], middle, more, end);
      assert (events + more)[1..] == events[1..] + more;
    }
  }

  lemma RemovalLoses(r: Registry, maxPerStream: nat, id: StreamId)
    requires id in r.streams
    ensures Possible(r, Remove(id)) && Happened(r, maxPerStream, Remove(id)).lost == r.lost + r.streams[id].count
  {
    hide Aborted;
  }

  /** A stream removed by force takes its subscribers' places with it: however the run goes on, the
      total never falls below their number. */
  lemma ForcedRemovalLeaks(maxPerStream: nat, events: seq<Event>, r: Registry, id: StreamId, more: seq<Event>, end: Registry)
    requires Reaches(EMPTY, maxPerStream, events, r) && id in r.streams
    requires Reaches(Happened(r, maxPerStream, Remove(id)), maxPerStream, more, end)
    ensures end.total >= r.streams[id].count
  {
    hide SumCounts, HasTimer, UniqueUrls, Happened, Reaches;
    var removed := Happened(r, maxPerStream, Remove(id));
    RemovalLoses(r, maxPerStream, id);
    LostNeverFalls(removed, maxPerStream, more, end);
    OneEvent(r, maxPerStream, Remove(id));
    ReachesOn(EMPTY, maxPerStream, events, r, [Remove(id)], removed);
    ReachesOn(EMPTY, maxPerStream, events + [Remove(id)], removed, more, end);
    EveryInterleaving(maxPerStream, events + [Remove(id)] + more, end);
  }

  /** The total is exactly the subscribers there are and the releases still to be corrected. */
  ghost predicate Accurate(r: Registry) {
    r.total == SumCounts(r.streams) + |r.leaving|
  }

  /** Every removal by force in the run met a stream that nobody was subscribed to, or none. */
  ghost predicate RemovesIdle(r: Registry, maxPerStream: nat, events: seq<Event>)
    decreases |events|
  {
    events == []
    || (Possible(r, events[0])
        && (events[0].Remove? && events[0].id in r.streams ==> r.streams[events[0].id].count == 0)
        && RemovesIdle(Happened(r, maxPerStream, events[0]), maxPerStream, events[1..]))
  }

  lemma {:induction false} LostIff(r: Registry, maxPerStream: nat, events: seq<Event>, end: Registry)
    requires Reaches(r, maxPerStream, events, end)
    ensures end.lost == r.lost <==> RemovesIdle(r, maxPerStream, events)
    decreases |events|
  {
    hide Possible;
    if events != [] {
      var next := Happened(r, maxPerStream, events[0]);
      LostIff(next, maxPerStream, events[1..], end);
      LostNeverFalls(next, maxPerStream, events[1..], end);
    }
  }

  /** The total stays accurate exactly in the runs whose forced removals all met idle streams. */
  lemma AccurateIff(maxPerStream: nat, events: seq<Event>, r: Registry)
    requires Reaches(EMPTY, maxPerStream, events, r)
    ensures Accurate(r) <==> RemovesIdle(EMPTY, maxPerStream, events)
  {
    hide SumCounts, HasTimer, UniqueUrls, RemovesIdle;
    LostIff(EMPTY, maxPerStream, events, r);
    EveryInterleaving(maxPerStream, events, r);
  }

  /** The guard of one removal: an accurate total stays accurate exactly if nobody is subscribed. */
  lemma RemovalAccurateIff(maxPerStream: nat, events: seq<Event>, r: Registry, id: StreamId)
    requires Reaches(EMPTY, maxPerStream, events, r) && Accurate(r) && id in r.streams
    ensures Accurate(Happened(r, maxPerStream, Remove(id))) <==> r.streams[id].count == 0
  {
    hide UniqueUrls, HasTimer;
    SumWithout(r.streams, id);
  }

  lemma OneEvent(r: Registry, maxPerStream: nat, e: Event)
    requires Possible(r, e)
    ensures Reaches(r, maxPerStream, [e], Happened(r, maxPerStream, e))
  {
    hide Happened, Possible;
    assert [e][1..] == [];
    assert Reaches(Happened(r, maxPerStream, e), maxPerStream, [], Happened(r, maxPerStream, e));
  }

  lemma Joined(url: Url, id: StreamId, maxPerStream: nat)
    requires maxPerStream > 0
    ensures Possible(EMPTY, Look(url))
    ensures var looked := Happened(EMPTY, maxPerStream, Look(url));
            Possible(looked, Insert(url, id))
            && Happened(Happened(looked, maxPerStream, Insert(url, id)), maxPerStream, Subscribe(id)).streams
               == map[id := Active(url, 1, None)]
  {
    var looked := Happened(EMPTY, maxPerStream, Look(url));
    var inserted := Happened(looked, maxPerStream, Insert(url, id));
    assert inserted.streams == map[id := Active(url, 0, None)];
  }

  /** A removal that makes the total wrong can happen, in a registry of any positive limit. */
  lemma RemovalCanMislead(maxPerStream: nat, url: Url, id: StreamId) returns (events: seq<Event>, r: Registry)
    requires maxPerStream > 0
    ensures Reaches(EMPTY, maxPerStream, events, r) && Accurate(r)
    ensures id in r.streams && r.streams[id].count == 1 && !Accurate(Happened(r, maxPerStream, Remove(id)))
  {
    hide Happened, Accurate, RemovesIdle, Reaches;
    Joined(url, id, maxPerStream);
    var looked := Happened(EMPTY, maxPerStream, Look(url));
    var inserted := Happened(looked, maxPerStream, Insert(url, id));
    r := Happened(inserted, maxPerStream, Subscribe(id));
    events := [Look(url)] + [Insert(url, id)] + [Subscribe(id)];
    OneEvent(EMPTY, maxPerStream, Look(url));
    OneEvent(looked, maxPerStream, Insert(url, id));
    OneEvent(inserted, maxPerStream, Subscribe(id));
    ReachesOn(EMPTY, maxPerStream, [Look(url)], looked, [Insert(url, id)], inserted);
    ReachesOn(EMPTY, maxPerStream, [Look(url)] + [Insert(url, id)], inserted, [Subscribe(id)], r);
    NoRemoval(maxPerStream, url, id);
    AccurateIff(maxPerStream, events, r);
    RemovalAccurateIff(maxPerStream, events, r, id);
  }

  lemma NoRemoval(maxPerStream: nat, url: Url, id: StreamId)
    requires maxPerStream > 0
    ensures RemovesIdle(EMPTY, maxPerStream, [Look(url)] + [Insert(url, id)] + [Subscribe(id)])
  {
    hide Happened;
    Joined(url, id, maxPerStream);
    var events := [Look(url)] + [Insert(url, id)] + [Subscribe(id)];
    var looked := Happened(EMPTY, maxPerStream, Look(url));
    var inserted := Happened(looked, maxPerStream, Insert(url, id));
    assert events[1..] == [Insert(url, id), Subscribe(id)] && events[1..][1..] == [Subscribe(id)];
    assert RemovesIdle(inserted, maxPerStream, [Subscribe(id)]) by { assert [Subscribe(id)][1..] == []; }
    assert RemovesIdle(looked, maxPerStream, events[1..]);
  }
}
