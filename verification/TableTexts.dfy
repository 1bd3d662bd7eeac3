/** Transcripts as a function of the two message tables: what a cache yields is the text of the parts
    of the tables it holds. */
module TableTexts {
  import opened Wrappers
  import opened Bytes
  import opened Headers
  import opened Handshakes
  import opened HandshakeCaches
  import opened Sending
  import opened Reassembly
  import opened Delivery
  import opened Emission

  /** The last message of a type and epoch, if there is one. */
  function LastOf(sent: seq<SentMessage>, t: HandshakeType, epoch: U16): seq<SentMessage> {
    if sent == [] then
      []
    else
      var m := sent[|sent| - 1];
      if m.h.typ == t && m.epoch == epoch then [m] else LastOf(sent[..|sent| - 1], t, epoch)
  }

  function WholeOf(ms: seq<SentMessage>): Bytes {
    if ms == [] then [] else ms[0].h.Whole()
  }

  lemma {:induction false} LastOfIn(sent: seq<SentMessage>, t: HandshakeType, epoch: U16)
    ensures |LastOf(sent, t, epoch)| <= 1
    ensures forall m :: m in LastOf(sent, t, epoch) ==> m in sent
  {
    if sent != [] {
      LastOfIn(sent[..|sent| - 1], t, epoch);
    }
  }

  /** The messages a rule list pulls out of the client's table and the server's table. */
  ghost function Text(client: seq<SentMessage>, server: seq<SentMessage>, rules: seq<Rule>): Bytes {
    if rules == [] then
      []
    else
      TextOf(client, server, rules[0]) + Text(client, server, rules[1..])
  }

  ghost function TextOf(client: seq<SentMessage>, server: seq<SentMessage>, r: Rule): Bytes {
    var sent := if r.isClient then client else server;
    LastOfIn(sent, r.typ, r.epoch);
    WholeOf(LastOf(sent, r.typ, r.epoch))
  }

  lemma {:induction false} TextConcat(client: seq<SentMessage>, server: seq<SentMessage>, a: seq<Rule>, b: seq<Rule>)
    ensures Text(client, server, a + b) == Text(client, server, a) + Text(client, server, b)
    decreases |a|
  {
    hide TextOf;
    if a == [] {
      assert a + b == b;
    } else {
      assert (a + b)[1..] == a[1..] + b;
      TextConcat(client, server, a[1..], b);
    }
  }

  lemma {:induction false} TextSame(client: seq<SentMessage>, server: seq<SentMessage>, client2: seq<SentMessage>,
                                    server2: seq<SentMessage>, rules: seq<Rule>)
    requires forall r :: r in rules ==> TextOf(client, server, r) == TextOf(client2, server2, r)
    ensures Text(client, server, rules) == Text(client2, server2, rules)
  {
    hide TextOf;
    if rules != [] {
      assert rules[0] in rules && forall r :: r in rules[1..] ==> r in rules;
      TextSame(client, server, client2, server2, rules[1..]);
    }
  }

  /** Messages of other types or epochs do not change what a rule finds. */
  lemma {:induction false} LastOfExtended(sent: seq<SentMessage>, more: seq<SentMessage>, t: HandshakeType, epoch: U16)
    requires forall m :: m in more ==> m.h.typ != t || m.epoch != epoch
    ensures LastOf(sent + more, t, epoch) == LastOf(sent, t, epoch)
    decreases |more|
  {
    if more == [] {
      assert sent + more == sent;
    } else {
      var n := |more| - 1;
      assert more[n] in more && forall m :: m in more[..n] ==> m in more;
      LastOfExtended(sent, more[..n], t, epoch);
      assert (sent + more)[..|sent + more| - 1] == sent + more[..n];
    }
  }

  lemma {:induction false} LastOfNone(sent: seq<SentMessage>, t: HandshakeType, epoch: U16)
    requires forall m :: m in sent ==> m.h.typ != t || m.epoch != epoch
    ensures LastOf(sent, t, epoch) == []
  {
    LastOfExtended([], sent, t, epoch);
    assert [] + sent == sent;
  }

  lemma LastOfSnoc(sent: seq<SentMessage>, m: SentMessage)
    ensures LastOf(sent + [m], m.h.typ, m.epoch) == [m]
  {
  }

  lemma {:induction false} LastOfIs(sent: seq<SentMessage>, t: HandshakeType, epoch: U16)
    ensures LastOf(sent, t, epoch) == [] ==> forall m :: m in sent ==> m.h.typ != t || m.epoch != epoch
    ensures LastOf(sent, t, epoch) != [] ==>
              exists i :: 0 <= i < |sent| && LastOf(sent, t, epoch) == [sent[i]] && sent[i].h.typ == t && sent[i].epoch == epoch
                && forall j :: i < j < |sent| ==> sent[j].h.typ != t || sent[j].epoch != epoch
  {
    if sent != [] {
      var n := |sent| - 1;
      LastOfIs(sent[..n], t, epoch);
      if sent[n].h.typ == t && sent[n].epoch == epoch {
        assert LastOf(sent, t, epoch) == [sent[n]];
      } else if LastOf(sent, t, epoch) == [] {
        assert forall m :: m in sent ==> m == sent[n] || m in sent[..n];
      } else {
        var i :| 0 <= i < n && LastOf(sent[..n], t, epoch) == [sent[..n][i]] && sent[..n][i].h.typ == t
          && sent[..n][i].epoch == epoch && forall j :: i < j < n ==> sent[..n][j].h.typ != t || sent[..n][j].epoch != epoch;
        assert forall j :: i < j < n ==> sent[..n][j] == sent[j];
      }
    }
  }

  lemma BestOfPart(cache: seq<Item>, sent: seq<SentMessage>, r: Rule)
    requires Unique(cache) && OwnPart(cache, r.isClient, sent)
    ensures LastOf(sent, r.typ, r.epoch) == [] ==> Best(cache, r).None?
    ensures LastOf(sent, r.typ, r.epoch) != [] ==>
              var m := LastOf(sent, r.typ, r.epoch)[0];
              m in sent && Best(cache, r) == Some(ItemOf(m.h, m.epoch, r.isClient))
  {
    hide UnmarshalHandshake, RawHandshake.Whole, Best, LastOf, ItemsOf;
    BestIff(cache, r);
    SentByMember(cache, r.isClient);
    LastOfIs(sent, r.typ, r.epoch);
    var items := ItemsOf(sent, r.isClient);
    forall c | c in cache && Matches(c, r)
      ensures exists k :: 0 <= k < |sent| && items[k] == c && sent[k].h.typ == r.typ && sent[k].epoch == r.epoch && c.messageSequence == k
    {
      assert c in SentBy(cache, r.isClient);
      var k :| 0 <= k < |sent| && items[k] == c;
    }
    if LastOf(sent, r.typ, r.epoch) != [] {
      var i :| 0 <= i < |sent| && LastOf(sent, r.typ, r.epoch) == [sent[i]] && sent[i].h.typ == r.typ && sent[i].epoch == r.epoch
        && forall j :: i < j < |sent| ==> sent[j].h.typ != r.typ || sent[j].epoch != r.epoch;
      assert items[i] in SentBy(cache, r.isClient);
      assert Matches(items[i], r);
    }
  }

  /** A cache yields the text of its parts. */
  lemma {:induction false} MergedIsText(cache: seq<Item>, client: seq<SentMessage>, server: seq<SentMessage>, rules: seq<Rule>)
    requires Unique(cache) && OwnPart(cache, true, client) && OwnPart(cache, false, server)
    ensures Merged(cache, rules) == Text(client, server, rules)
  {
    hide Best, OwnPart, LastOf, RawHandshake.Whole, Unique;
    if rules != [] {
      var r := rules[0];
      var sent := if r.isClient then client else server;
      BestOfPart(cache, sent, r);
      MergedIsText(cache, client, server, rules[1..]);
      LastOfIn(sent, r.typ, r.epoch);
      MergedConcat(BestOnly(cache, r), Pulled(cache, rules[1..]));
      MergedOne(BestOnly(cache, r));
    }
  }

  lemma {:induction false} MergedConcat(a: seq<Item>, b: seq<Item>)
    ensures MergedData(a + b) == MergedData(a) + MergedData(b)
    decreases |a|
  {
    if a == [] {
      assert a + b == b;
    } else {
      assert (a + b)[1..] == a[1..] + b;
      MergedConcat(a[1..], b);
    }
  }

  lemma MergedOne(items: seq<Item>)
    requires |items| <= 1
    ensures MergedData(items) == if items == [] then [] else items[0].data
  {
  }
}
