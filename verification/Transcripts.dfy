/** Both sides hash the same bytes (RFC 6347, section 4.2.6). */
module Transcripts {
  import opened Wrappers
  import opened Bytes
  import opened Handshakes
  import opened HandshakeCaches
  import opened Reading
  import opened Reassembly
  import opened WireRecords
  import opened Delivery
  import opened Network

  ghost predicate Distinct(items: seq<Item>) {
    forall i, j :: 0 <= i < j < |items| ==> items[i].messageSequence != items[j].messageSequence
  }

  lemma {:induction false} PartsUnique(cache: seq<Item>)
    requires Distinct(SentBy(cache, true)) && Distinct(SentBy(cache, false))
    ensures Unique(cache)
  {
    if cache != [] {
      var n := |cache| - 1;
      var last := cache[n];
      var before := SentBy(cache[..n], last.isClient);
      assert SentBy(cache, last.isClient) == before + [last];
      assert before == SentBy(cache, last.isClient)[..|before|];
      PartsUnique(cache[..n]);
      SentByMember(cache[..n], last.isClient);
      forall i | 0 <= i < n
        ensures !SameSlot(cache[i], last)
      {
        if cache[i].isClient == last.isClient {
          assert cache[i] == cache[..n][i];
          assert cache[i] in before;
          var k :| 0 <= k < |before| && before[k] == cache[i];
          assert SentBy(cache, last.isClient)[k].messageSequence != SentBy(cache, last.isClient)[|before|].messageSequence;
        }
      }
      forall i, j | 0 <= i < j < |cache|
        ensures !SameSlot(cache[i], cache[j])
      {
        if j < n {
          assert !SameSlot(cache[..n][i], cache[..n][j]);
        }
      }
    }
  }

  lemma HalfUnique(a: Side, b: Side, net: set<Bytes>, link: Link)
    requires link.Valid() && HalfOk(a, b, net, link)
    ensures Distinct(SentBy(a.Cache(), a.IsClient())) && Distinct(SentBy(b.Cache(), a.IsClient()))
  {
    hide UnmarshalHandshake, RawHandshake.Whole, Genuine, AllWire, NetOk, GotAll, FragmentBuffers.Popped, SentBy;
    var items := ItemsOf(a.sent, a.IsClient());
    assert forall i :: 0 <= i < |items| ==> items[i].messageSequence == i;
  }

  /** A cache as it stands in some honest run. */
  lemma CachesUnique(w: World, toServer: Link, toClient: Link)
    requires toServer.Valid() && toClient.Valid() && WorldOk(w, toServer, toClient)
    ensures Unique(w.client.Cache()) && Unique(w.server.Cache())
  {
    hide HalfOk, SentBy, Distinct, Table, AllWire, ReaderOk, ItemsOf, Brought;
    Ends(w.client, w.server, w.fromClient, toServer);
    HalfUnique(w.client, w.server, w.fromClient, toServer);
    HalfUnique(w.server, w.client, w.fromServer, toClient);
    PartsUnique(w.client.Cache());
    PartsUnique(w.server.Cache());
  }

  /** What the peer has of a side's messages, the side has itself. */
  ghost predicate OwnerHas(owner: seq<Item>, other: seq<Item>, ownerIsClient: bool) {
    forall c :: c in other && c.isClient == ownerIsClient ==> c in owner
  }

  lemma HalfOwnerHas(a: Side, b: Side, net: set<Bytes>, link: Link)
    requires link.Valid() && HalfOk(a, b, net, link)
    ensures OwnerHas(a.Cache(), b.Cache(), a.IsClient())
  {
    hide ReaderOk, NetOk, GotAll, FragmentBuffers.Popped, UnmarshalHandshake, RawHandshake.Whole;
    HalfDelivers(a, b, net, link);
    SentByMember(a.Cache(), a.IsClient());
    forall c | c in b.Cache() && c.isClient == a.IsClient()
      ensures c in a.Cache()
    {
      assert ItemsOf(a.sent, a.IsClient())[c.messageSequence] == c;
    }
  }

  /** Two items that claim the same sender and number are the same, wherever they are cached. */
  lemma SameSlotSameItem(w: World, toServer: Link, toClient: Link)
    requires toServer.Valid() && toClient.Valid() && WorldOk(w, toServer, toClient)
    ensures forall c, d :: c in w.client.Cache() && d in w.server.Cache() && SameSlot(c, d) ==> c == d
  {
    hide HalfOk, SentBy, Table, AllWire, ReaderOk, ItemsOf, Brought;
    Ends(w.client, w.server, w.fromClient, toServer);
    CachesUnique(w, toServer, toClient);
    HalfOwnerHas(w.client, w.server, w.fromClient, toServer);
    HalfOwnerHas(w.server, w.client, w.fromServer, toClient);
    forall c, d | c in w.client.Cache() && d in w.server.Cache() && SameSlot(c, d)
      ensures c == d
    {
      if c.isClient {
        UniqueMember(w.client.Cache(), c, d);
      } else {
        UniqueMember(w.server.Cache(), c, d);
      }
    }
  }

  lemma UniqueMember(cache: seq<Item>, c: Item, d: Item)
    requires Unique(cache) && c in cache && d in cache && SameSlot(c, d)
    ensures c == d
  {
  }

  /** The receiver of a rule's messages holds the one the sender would pull. */
  ghost predicate BestHeld(client: seq<Item>, server: seq<Item>, r: Rule) {
    var (owner, other) := if r.isClient then (client, server) else (server, client);
    Best(owner, r).Some? ==> Best(owner, r).value in other
  }

  lemma BestAgrees(owner: seq<Item>, other: seq<Item>, r: Rule)
    requires Unique(owner) && Unique(other) && OwnerHas(owner, other, r.isClient)
    requires Best(owner, r).Some? ==> Best(owner, r).value in other
    ensures Best(other, r) == Best(owner, r)
  {
    BestIff(owner, r);
    BestIff(other, r);
    var best := Best(owner, r);
    if best.Some? {
      assert Best(other, r) == Some(best.value);
    }
  }

  lemma {:induction false} PulledAgree(client: seq<Item>, server: seq<Item>, rules: seq<Rule>)
    requires Unique(client) && Unique(server) && OwnerHas(client, server, true) && OwnerHas(server, client, false)
    requires forall r :: r in rules ==> BestHeld(client, server, r)
    ensures Pulled(client, rules) == Pulled(server, rules)
  {
    hide Best, Unique, OwnerHas;
    if rules != [] {
      var r := rules[0];
      assert r in rules && forall q :: q in rules[1..] ==> q in rules;
      if r.isClient {
        BestAgrees(client, server, r);
      } else {
        BestAgrees(server, client, r);
      }
      PulledAgree(client, server, rules[1..]);
    }
  }

  /** Once each side holds the peer's messages that a rule list pulls, both sides pull the same bytes. */
  lemma TranscriptsAgree(steps: seq<Step>, passes: Detector, toServer: Link, toClient: Link, w: World, rules: seq<Rule>)
    requires toServer.Valid() && toClient.Valid() && Reaches(START, steps, passes, toServer, toClient, w)
    requires forall r :: r in rules ==> BestHeld(w.client.Cache(), w.server.Cache(), r)
    ensures Merged(w.client.Cache(), rules) == Merged(w.server.Cache(), rules)
  {
    hide HalfOk, Pulled, BestHeld, Stepped, Honest, Table, AllWire, ReaderOk, ItemsOf, Brought;
    StartOk(toServer, toClient);
    RunKeeps(START, steps, passes, toServer, toClient, w);
    Ends(w.client, w.server, w.fromClient, toServer);
    CachesUnique(w, toServer, toClient);
    HalfOwnerHas(w.client, w.server, w.fromClient, toServer);
    HalfOwnerHas(w.server, w.client, w.fromServer, toClient);
    PulledAgree(w.client.Cache(), w.server.Cache(), rules);
  }
}
