/** The cache of sent and received handshake messages, and the transcripts pulled from it. */
module HandshakeCaches {
  import opened Wrappers
  import opened Bytes
  import opened Headers
  import opened Messages
  import opened Handshakes

  datatype Item = Item(typ: HandshakeType, isClient: bool, epoch: U16, messageSequence: U16, data: Bytes)

  datatype Rule = Rule(typ: HandshakeType, epoch: U16, isClient: bool, optional: bool)

  predicate SameSlot(a: Item, b: Item) {
    a.messageSequence == b.messageSequence && a.isClient == b.isClient
  }

  // Push

  /** The first message of a sender with a given number is the one that stays. */
  function Pushed(cache: seq<Item>, item: Item): seq<Item> {
    if exists i :: 0 <= i < |cache| && SameSlot(cache[i], item) then cache else cache + [item]
  }

  ghost predicate Unique(cache: seq<Item>) {
    forall i, j :: 0 <= i < j < |cache| ==> !SameSlot(cache[i], cache[j])
  }

  function PushedAll(cache: seq<Item>, items: seq<Item>): seq<Item>
    decreases |items|
  {
    if items == [] then cache else PushedAll(Pushed(cache, items[0]), items[1..])
  }

  // Pull

  predicate Matches(c: Item, r: Rule) {
    c.typ == r.typ && c.isClient == r.isClient && c.epoch == r.epoch
  }

  /** The matching item with the highest number; of two with the same number, the older one. */
  function Best(cache: seq<Item>, r: Rule): Option<Item> {
    if cache == [] then
      None
    else
      var c := cache[|cache| - 1];
      var item := Best(cache[..|cache| - 1], r);
      if Matches(c, r) && (item.None? || item.value.messageSequence < c.messageSequence) then Some(c) else item
  }

  function BestOnly(cache: seq<Item>, r: Rule): seq<Item> {
    match Best(cache, r) case None => [] case Some(item) => [item]
  }

  function Pulled(cache: seq<Item>, rules: seq<Rule>): seq<Item> {
    if rules == [] then [] else BestOnly(cache, rules[0]) + Pulled(cache, rules[1..])
  }

  function MergedData(items: seq<Item>): Bytes {
    if items == [] then [] else items[0].data + MergedData(items[1..])
  }

  function Merged(cache: seq<Item>, rules: seq<Rule>): Bytes {
    MergedData(Pulled(cache, rules))
  }

  // full_pull_map

  /** The items by type; a later rule of the same type takes the place of an earlier one. */
  function Collected(cache: seq<Item>, rules: seq<Rule>, ci: map<HandshakeType, Item>): Result<map<HandshakeType, Item>> {
    if rules == [] then
      Ok(ci)
    else
      match Best(cache, rules[0])
      case None =>
        if rules[0].optional then Collected(cache, rules[1..], ci) else Err(MissingMandatoryMessage)
      case Some(item) => Collected(cache, rules[1..], ci[rules[0].typ := item])
  }

  /** A signed count cast to sixteen bits. */
  function WrappedU16(n: int): U16 {
    n % 0x1_0000
  }

  function InSequence(rules: seq<Rule>, ci: map<HandshakeType, Item>, sequence: int, out: map<HandshakeType, Message>)
    : Result<(int, map<HandshakeType, Message>)>
  {
    if rules == [] then
      Ok((sequence, out))
    else if rules[0].typ !in ci then
      InSequence(rules[1..], ci, sequence, out)
    else
      var message :- InTurn(ci[rules[0].typ], sequence);
      InSequence(rules[1..], ci, sequence + 1, out[rules[0].typ := message])
  }

  /** The message of an item whose header carries the number `sequence`. */
  function InTurn(item: Item, sequence: int): Result<Message> {
    var h :- UnmarshalHandshake(item.data);
    // There is a gap. Some messages are not arrived.
    if WrappedU16(sequence) != h.header.messageSequence then Err(MessageGap) else Ok(h.message)
  }

  function FullPulled(cache: seq<Item>, start: int, rules: seq<Rule>): Result<(int, map<HandshakeType, Message>)> {
    var ci :- Collected(cache, rules, map[]);
    InSequence(rules, ci, start, map[])
  }

  /** The messages of a pull; none if it fails. */
  function MessagesPulled(cache: seq<Item>, start: int, rules: seq<Rule>): map<HandshakeType, Message> {
    match FullPulled(cache, start, rules)
    case Ok((_, msgs)) => msgs
    case Err(_) => map[]
  }

  predicate Gives(msgs: map<HandshakeType, Message>, t: HandshakeType, message: Message) {
    t in msgs && msgs[t] == message
  }

  // Transcripts

  function ServerFlightRules(epoch: U16): seq<Rule> {
    [Rule(ClientHello, epoch, true, false),
     Rule(ServerHello, epoch, false, false),
     Rule(Certificate, epoch, false, false),
     Rule(ServerKeyExchange, epoch, false, false),
     Rule(CertificateRequest, epoch, false, false),
     Rule(ServerHelloDone, epoch, false, false)]
  }

  /** The messages up to the client's key exchange. */
  function KeyExchangeRules(epoch: U16): seq<Rule> {
    ServerFlightRules(epoch) + [Rule(Certificate, epoch, true, false), Rule(ClientKeyExchange, epoch, true, false)]
  }

  /** The messages up to the client's Finished, which travels in the next epoch. */
  function FinishedRules(epoch: U16): seq<Rule>
    requires epoch < 0xFFFF
  {
    KeyExchangeRules(epoch) + [Rule(CertificateVerify, epoch, true, false), Rule(Finished, epoch + 1, true, false)]
  }

  // Before the Finished, everything belongs to epoch 0.

  const SERVER_FLIGHT_RULES := ServerFlightRules(0)

  const KEY_EXCHANGE_RULES := KeyExchangeRules(0)

  const FINISHED_RULES := FinishedRules(0)

  class HandshakeCache {
    var cache: seq<Item>

    constructor ()
      ensures cache == []
    {
      cache := [];
    }

    method Push(data: Bytes, epoch: U16, messageSequence: U16, typ: HandshakeType, isClient: bool) returns (added: bool)
      modifies this
      ensures cache == Pushed(old(cache), Item(typ, isClient, epoch, messageSequence, data))
      ensures added <==> cache != old(cache)
    {
      var item := Item(typ, isClient, epoch, messageSequence, data);
      for i := 0 to |cache|
        invariant forall j :: 0 <= j < i ==> !SameSlot(cache[j], item)
        invariant cache == old(cache)
      {
        if cache[i].messageSequence == messageSequence && cache[i].isClient == isClient {
          assert SameSlot(cache[i], item);
          return false;
        }
      }
      cache := cache + [item];
      return true;
    }

    method Find(r: Rule) returns (item: Option<Item>)
      ensures item == Best(cache, r)
    {
      item := None;
      for i := 0 to |cache|
        invariant item == Best(cache[..i], r)
      {
        var c := cache[i];
        assert cache[..i + 1][..i] == cache[..i];
        if c.typ == r.typ && c.isClient == r.isClient && c.epoch == r.epoch {
          if item.Some? {
            if item.value.messageSequence < c.messageSequence {
              item := Some(c);
            }
          } else {
            item := Some(c);
          }
        }
      }
      assert cache[..|cache|] == cache;
    }

    method Pull(rules: seq<Rule>) returns (out: seq<Item>)
      ensures out == Pulled(cache, rules)
    {
      out := [];
      assert rules[0..] == rules;
      for i := 0 to |rules|
        invariant Pulled(cache, rules) == out + Pulled(cache, rules[i..])
      {
        var item := Find(rules[i]);
        assert rules[i..][1..] == rules[i + 1..];
        if item.Some? {
          out := out + [item.value];
        }
      }
    }

    method FullPullMap(start: int, rules: seq<Rule>) returns (r: Result<(int, map<HandshakeType, Message>)>)
      ensures r == FullPulled(cache, start, rules)
    {
      hide UnmarshalHandshake, Best;
      var ci: map<HandshakeType, Item> := map[];
      assert rules[0..] == rules;
      for i := 0 to |rules|
        invariant Collected(cache, rules, map[]) == Collected(cache, rules[i..], ci)
      {
        var item := Find(rules[i]);
        assert rules[i..][1..] == rules[i + 1..];
        if !rules[i].optional && item.None? {
          return Err(MissingMandatoryMessage);
        }
        if item.Some? {
          ci := ci[rules[i].typ := item.value];
        }
      }
      var out: map<HandshakeType, Message> := map[];
      var sequence := start;
      for i := 0 to |rules|
        invariant InSequence(rules, ci, start, map[]) == InSequence(rules[i..], ci, sequence, out)
      {
        var t := rules[i].typ;
        assert rules[i..][1..] == rules[i + 1..];
        if t in ci {
          var rawHandshake := UnmarshalHandshake(ci[t].data);
          if rawHandshake.Err? {
            return Err(rawHandshake.error);
          }
          if WrappedU16(sequence) != rawHandshake.value.header.messageSequence {
            return Err(MessageGap);
          }
          sequence := sequence + 1;
          out := out[t := rawHandshake.value.message];
        }
      }
      return Ok((sequence, out));
    }

    method PullAndMerge(rules: seq<Rule>) returns (merged: Bytes)
      ensures merged == Merged(cache, rules)
    {
      var items := Pull(rules);
      merged := [];
      assert items[0..] == items;
      for i := 0 to |items|
        invariant merged + MergedData(items[i..]) == MergedData(items)
      {
        assert items[i..][1..] == items[i + 1..];
        merged := merged + items[i].data;
      }
    }

    method SessionHash(hash: Bytes -> Bytes, epoch: U16, additional: Bytes) returns (h: Bytes)
      ensures h == hash(Merged(cache, KeyExchangeRules(epoch)) + additional)
    {
      var merged := PullAndMerge(KeyExchangeRules(epoch));
      merged := merged + additional;
      return hash(merged);
    }
  }

  // What pulling means

  lemma {:induction false} PushedUnique(cache: seq<Item>, items: seq<Item>)
    requires Unique(cache)
    ensures Unique(PushedAll(cache, items))
    decreases |items|
  {
    if items != [] {
      PushedUnique(Pushed(cache, items[0]), items[1..]);
    }
  }

  /** In a cache without two items in one slot, a pull finds exactly the matching item with the
      highest number. */
  lemma {:induction false} BestIff(cache: seq<Item>, r: Rule)
    requires Unique(cache)
    ensures forall c :: Best(cache, r) == Some(c) <==>
              c in cache && Matches(c, r) && forall d :: d in cache && Matches(d, r) ==> d.messageSequence <= c.messageSequence
    ensures Best(cache, r).None? <==> forall d :: d in cache ==> !Matches(d, r)
  {
    if cache != [] {
      var n := |cache| - 1;
      var before, last := cache[..n], cache[n];
      BestIff(before, r);
      assert cache == before + [last];
      forall d | d in before && Matches(d, r) && Matches(last, r)
        ensures d.messageSequence != last.messageSequence
      {
        var i :| 0 <= i < n && cache[i] == d;
        assert !SameSlot(cache[i], cache[n]);
      }
    }
  }

  ghost predicate SameItems(a: seq<Item>, b: seq<Item>) {
    forall item :: item in a <==> item in b
  }

  /** A pull depends on which items the cache keeps, not on the order they came in. */
  lemma {:induction false} PulledSame(a: seq<Item>, b: seq<Item>, rules: seq<Rule>)
    requires Unique(a) && Unique(b) && SameItems(a, b)
    ensures Pulled(a, rules) == Pulled(b, rules)
  {
    if rules != [] {
      BestIff(a, rules[0]);
      BestIff(b, rules[0]);
      var best := Best(a, rules[0]);
      if best.Some? {
        assert best.value in b;
        assert Best(b, rules[0]) == Some(best.value);
      }
      PulledSame(a, b, rules[1..]);
    }
  }

  /** Items that are copies of each other whenever they claim the same slot. */
  ghost predicate Faithful(items: seq<Item>) {
    forall a, b :: a in items && b in items && SameSlot(a, b) ==> a == b
  }

  lemma {:induction false} PushedAllKeeps(cache: seq<Item>, items: seq<Item>)
    requires Faithful(cache + items)
    ensures SameItems(PushedAll(cache, items), cache + items)
    decreases |items|
  {
    if items == [] {
      assert cache + items == cache;
    } else {
      var next := Pushed(cache, items[0]);
      assert items[0] in cache + items;
      assert forall x :: x in next + items[1..] <==> x in cache + items by {
        forall x
          ensures x in next + items[1..] <==> x in cache + items
        {
          assert x in items <==> x == items[0] || x in items[1..];
          if exists i :: 0 <= i < |cache| && SameSlot(cache[i], items[0]) {
            var i :| 0 <= i < |cache| && SameSlot(cache[i], items[0]);
            assert cache[i] in cache + items;
            assert cache[i] == items[0];
          }
        }
      }
      assert Faithful(next + items[1..]);
      PushedAllKeeps(next, items[1..]);
    }
  }

  /** Arrival order and retransmitted copies never change a transcript. */
  lemma OrderIndependent(arrivals: seq<Item>, others: seq<Item>, rules: seq<Rule>)
    requires Faithful(arrivals) && SameItems(arrivals, others)
    ensures Unique(PushedAll([], arrivals)) && Unique(PushedAll([], others))
    ensures Merged(PushedAll([], arrivals), rules) == Merged(PushedAll([], others), rules)
  {
    assert [] + arrivals == arrivals && [] + others == others;
    PushedUnique([], arrivals);
    PushedUnique([], others);
    PushedAllKeeps([], arrivals);
    PushedAllKeeps([], others);
    PulledSame(PushedAll([], arrivals), PushedAll([], others), rules);
  }

  // What full_pull_map means

  ghost predicate DistinctTypes(rules: seq<Rule>) {
    forall i, j :: 0 <= i < j < |rules| ==> rules[i].typ != rules[j].typ
  }

  ghost predicate MandatoryPresent(cache: seq<Item>, rules: seq<Rule>) {
    forall r :: r in rules && !r.optional ==> Best(cache, r).Some?
  }

  /** The items read back, and the k-th of them carries number `start + k`. */
  ghost predicate Consecutive(items: seq<Item>, start: int) {
    forall k :: 0 <= k < |items| ==> InTurn(items[k], start + k).Ok?
  }

  /** The messages of consecutive items, by type. */
  ghost function MessagesOf(items: seq<Item>, start: int, out: map<HandshakeType, Message>): map<HandshakeType, Message>
    requires Consecutive(items, start)
    decreases |items|
  {
    if items == [] then
      out
    else
      assert InTurn(items[0], start + 0).Ok?;
      LaterConsecutive(items, start);
      MessagesOf(items[1..], start + 1, out[items[0].typ := InTurn(items[0], start).value])
  }

  lemma LaterConsecutive(items: seq<Item>, start: int)
    requires items != []
    ensures Consecutive(items, start) <==> InTurn(items[0], start).Ok? && Consecutive(items[1..], start + 1)
  {
    hide InTurn;
  }

  /** `ci` holds the best item of every rule that has one. */
  ghost predicate Holds(cache: seq<Item>, rules: seq<Rule>, ci: map<HandshakeType, Item>) {
    forall r :: r in rules ==>
      (r.typ in ci <==> Best(cache, r).Some?) && (Best(cache, r).Some? ==> ci[r.typ] == Best(cache, r).value)
  }

  lemma {:induction false} CollectedIff(cache: seq<Item>, rules: seq<Rule>, ci: map<HandshakeType, Item>)
    requires DistinctTypes(rules)
    requires forall r :: r in rules ==> r.typ !in ci
    ensures Collected(cache, rules, ci).Ok? <==> MandatoryPresent(cache, rules)
    ensures Collected(cache, rules, ci).Ok? ==> Holds(cache, rules, Collected(cache, rules, ci).value)
    ensures Collected(cache, rules, ci).Ok? ==>
              forall t :: t in ci ==> t in Collected(cache, rules, ci).value && Collected(cache, rules, ci).value[t] == ci[t]
    ensures Collected(cache, rules, ci).Ok? ==>
              forall t :: t in Collected(cache, rules, ci).value ==> t in ci || exists r :: r in rules && r.typ == t
    decreases |rules|
  {
    if rules != [] {
      hide Best;
      var first, rest := rules[0], rules[1..];
      assert forall r :: r in rules <==> r == first || r in rest;
      forall r | r in rest
        ensures r.typ != first.typ
      {
        var i :| 0 <= i < |rest| && rest[i] == r;
        assert rules[i + 1] == r;
      }
      var next := match Best(cache, first) case None => ci case Some(item) => ci[first.typ := item];
      CollectedIff(cache, rest, next);
    }
  }

  /** Checking the numbers item by item, with the rules out of the way. */
  function ItemsInSequence(items: seq<Item>, sequence: int, out: map<HandshakeType, Message>)
    : Result<(int, map<HandshakeType, Message>)>
    decreases |items|
  {
    if items == [] then
      Ok((sequence, out))
    else
      var message :- InTurn(items[0], sequence);
      ItemsInSequence(items[1..], sequence + 1, out[items[0].typ := message])
  }

  lemma {:induction false} InSequenceOfItems(cache: seq<Item>, rules: seq<Rule>, ci: map<HandshakeType, Item>,
                                             start: int, out: map<HandshakeType, Message>)
    requires Holds(cache, rules, ci)
    ensures InSequence(rules, ci, start, out) == ItemsInSequence(Pulled(cache, rules), start, out)
    decreases |rules|
  {
    if rules != [] {
      hide Best, InTurn;
      var first, rest := rules[0], rules[1..];
      assert first in rules;
      assert Holds(cache, rest, ci) by {
        assert forall r :: r in rest ==> r in rules;
      }
      if Best(cache, first).None? {
        assert [] + Pulled(cache, rest) == Pulled(cache, rest);
        InSequenceOfItems(cache, rest, ci, start, out);
      } else {
        var item := Best(cache, first).value;
        BestMatches(cache, first);
        assert ([item] + Pulled(cache, rest))[1..] == Pulled(cache, rest);
        var message := InTurn(item, start);
        if message.Ok? {
          InSequenceOfItems(cache, rest, ci, start + 1, out[first.typ := message.value]);
        }
      }
    }
  }

  lemma {:induction false} BestMatches(cache: seq<Item>, r: Rule)
    ensures Best(cache, r).Some? ==> Best(cache, r).value in cache && Matches(Best(cache, r).value, r)
  {
    if cache != [] {
      BestMatches(cache[..|cache| - 1], r);
    }
  }

  lemma {:induction false} ItemsInSequenceIff(items: seq<Item>, start: int, out: map<HandshakeType, Message>)
    ensures ItemsInSequence(items, start, out).Ok? <==> Consecutive(items, start)
    ensures Consecutive(items, start)
        ==> ItemsInSequence(items, start, out) == Ok((start + |items|, MessagesOf(items, start, out)))
    decreases |items|
  {
    hide InTurn;
    if items != [] {
      LaterConsecutive(items, start);
      var message := InTurn(items[0], start);
      if message.Ok? {
        ItemsInSequenceIff(items[1..], start + 1, out[items[0].typ := message.value]);
      }
    }
  }

  /** For rules of distinct types the pull succeeds exactly when every mandatory message is cached
      and the pulled messages read back with consecutive numbers from `start`; it then returns the
      next number and the messages. */
  lemma FullPulledIff(cache: seq<Item>, start: int, rules: seq<Rule>)
    requires DistinctTypes(rules)
    ensures FullPulled(cache, start, rules).Ok?
       <==> MandatoryPresent(cache, rules) && Consecutive(Pulled(cache, rules), start)
    ensures FullPulled(cache, start, rules).Ok?
        ==> FullPulled(cache, start, rules).value
            == (start + |Pulled(cache, rules)|, MessagesOf(Pulled(cache, rules), start, map[]))
  {
    hide Consecutive, Best, InTurn;
    CollectedIff(cache, rules, map[]);
    if MandatoryPresent(cache, rules) {
      InSequenceOfItems(cache, rules, Collected(cache, rules, map[]).value, start, map[]);
      ItemsInSequenceIff(Pulled(cache, rules), start, map[]);
    }
  }

  lemma {:induction false} InSequenceMessages(rules: seq<Rule>, ci: map<HandshakeType, Item>, sequence: int, out: map<HandshakeType, Message>)
    requires InSequence(rules, ci, sequence, out).Ok?
    ensures var found := InSequence(rules, ci, sequence, out).value.1;
            (forall t :: t in out ==> t in found)
            && (forall t :: t in found ==> t in out || (t in ci && exists r :: r in rules && r.typ == t))
            && (forall r :: r in rules && r.typ in ci ==>
                  r.typ in found && UnmarshalHandshake(ci[r.typ].data).Ok?
                  && found[r.typ] == UnmarshalHandshake(ci[r.typ].data).value.message)
            && (forall t :: t in out && (forall r :: r in rules ==> r.typ != t) ==> found[t] == out[t])
    decreases |rules|
  {
    hide UnmarshalHandshake;
    if rules != [] {
      var first, rest := rules[0], rules[1..];
      assert forall r :: r in rules <==> r == first || r in rest;
      if first.typ in ci {
        var message := InTurn(ci[first.typ], sequence).value;
        InSequenceMessages(rest, ci, sequence + 1, out[first.typ := message]);
      } else {
        InSequenceMessages(rest, ci, sequence, out);
      }
    }
  }

  /** A successful pull gives, for each rule, the message of the best item, if there is one. */
  lemma FullPulledMessages(cache: seq<Item>, start: int, rules: seq<Rule>, r: Rule)
    requires DistinctTypes(rules) && r in rules && FullPulled(cache, start, rules).Ok?
    ensures var msgs := FullPulled(cache, start, rules).value.1;
            (r.typ in msgs <==> Best(cache, r).Some?)
            && (!r.optional ==> r.typ in msgs)
            && (r.typ in msgs ==>
                  UnmarshalHandshake(Best(cache, r).value.data).Ok?
                  && msgs[r.typ] == UnmarshalHandshake(Best(cache, r).value.data).value.message)
  {
    hide UnmarshalHandshake, Best, InSequence, Consecutive;
    FullPulledIff(cache, start, rules);
    CollectedIff(cache, rules, map[]);
    InSequenceMessages(rules, Collected(cache, rules, map[]).value, start, map[]);
  }
}
