/** From a prepared flight to the table of numbered messages: what a side plans is what it sends. */
module Planning {
  import opened Wrappers
  import opened Bytes
  import opened Headers
  import opened Messages
  import opened Handshakes
  import opened HandshakeCaches
  import opened CipherSuites
  import opened Fragmenting
  import opened Sending
  import opened Reassembly
  import opened WireRecords
  import opened Emission
  import opened HandshakeStates
  import opened Handshaking

  /** The messages of a flight, numbered from `next`. */
  ghost function SentOf(drafts: seq<Draft>, next: nat): seq<SentMessage>
    requires Writable(drafts)
  {
    if drafts == [] then
      []
    else
      assert drafts[0] in drafts && forall d :: d in drafts[1..] ==> d in drafts;
      match drafts[0]
      case MessageDraft(epoch, message) =>
        [SentMessage(Numbered(message, WrappedU16(next)), epoch)] + SentOf(drafts[1..], next + 1)
      case ChangeCipherSpecDraft => SentOf(drafts[1..], next)
  }

  /** The table once all of `pkts` have been sent. */
  ghost function Planned(sent: seq<SentMessage>, pkts: seq<Packet>): seq<SentMessage>
    decreases |pkts|
  {
    if pkts == [] then sent else Planned(Extended(sent, pkts[0]), pkts[1..])
  }

  lemma NumberedReads(message: Message, number: U16)
    requires WellFormed(message)
    ensures UnmarshalHandshake(Numbered(message, number).Whole()).Ok?
    ensures UnmarshalHandshake(Numbered(message, number).Whole()).value.message == Messages.Transmitted(message)
  {
    hide UnmarshalHandshake, WellFormed, RawHandshake.Whole, Numbered, Messages.Transmitted;
    HandshakeRoundTrip(message, number);
  }

  lemma OneMore(sent: seq<SentMessage>, message: Message, epoch: U16)
    requires Table(sent) && |sent| < 0xFFFF && WellFormed(message)
    ensures Table(sent + [SentMessage(Numbered(message, |sent|), epoch)])
  {
    hide UnmarshalHandshake, RawHandshake.Whole, WellFormed, Marshal;
    NumberedReads(message, |sent|);
  }

  lemma NumberedAt(message: Message, number: U16)
    requires WellFormed(message)
    ensures Numbered(message, number).sequence == number && Numbered(message, number).typ == message.Type()
  {
  }

  lemma NextInTurn(sent: seq<SentMessage>, message: Message, epoch: U16, p: Packet)
    requires |sent| < 0xFFFF && WellFormed(message)
    requires p == Packet(PROTOCOL_VERSION1_2, epoch, HandshakeContent(Numbered(message, |sent|)), epoch != 0)
    ensures Emission.InTurn(sent, p) && Extended(sent, p) == sent + [SentMessage(Numbered(message, |sent|), epoch)]
  {
    hide UnmarshalHandshake, RawHandshake.Whole, WellFormed, Numbered;
    NumberedReads(message, |sent|);
    NumberedAt(message, |sent|);
  }

  lemma FirstMessage(sent: seq<SentMessage>, drafts: seq<Draft>)
    requires |sent| < 0xFFFF && Writable(drafts) && drafts != [] && drafts[0].MessageDraft?
    ensures forall d :: d in drafts[1..] ==> d in drafts
    ensures WellFormed(drafts[0].message)
    ensures var pkts := NumberedPackets(drafts, |sent|);
            var m := SentMessage(Numbered(drafts[0].message, |sent|), drafts[0].epoch);
            Emission.InTurn(sent, pkts[0]) && Extended(sent, pkts[0]) == sent + [m]
            && pkts[1..] == NumberedPackets(drafts[1..], |sent| + 1)
            && SentOf(drafts, |sent|) == [m] + SentOf(drafts[1..], |sent| + 1)
  {
    hide WellFormed, Numbered, Emission.InTurn, Extended;
    assert drafts[0] in drafts;
    assert WrappedU16(|sent|) == |sent|;
    NextInTurn(sent, drafts[0].message, drafts[0].epoch, NumberedPackets(drafts, |sent|)[0]);
  }

  lemma FirstChange(sent: seq<SentMessage>, drafts: seq<Draft>)
    requires Writable(drafts) && drafts != [] && drafts[0].ChangeCipherSpecDraft?
    ensures forall d :: d in drafts[1..] ==> d in drafts
    ensures var pkts := NumberedPackets(drafts, |sent|);
            Emission.InTurn(sent, pkts[0]) && Extended(sent, pkts[0]) == sent
            && pkts[1..] == NumberedPackets(drafts[1..], |sent|)
            && SentOf(drafts, |sent|) == SentOf(drafts[1..], |sent|)
  {
    hide UnmarshalHandshake, WellFormed;
  }

  /** A fresh flight, numbered from the end of the table, is in turn and extends it by its messages. */
  lemma {:induction false} FreshPlan(sent: seq<SentMessage>, drafts: seq<Draft>)
    requires Table(sent) && Writable(drafts) && |sent| + MessageCount(drafts) < 0xFFFF
    ensures AllInTurn(sent, NumberedPackets(drafts, |sent|))
    ensures Planned(sent, NumberedPackets(drafts, |sent|)) == sent + SentOf(drafts, |sent|)
    ensures Table(sent + SentOf(drafts, |sent|)) && |SentOf(drafts, |sent|)| == MessageCount(drafts)
    decreases |drafts|
  {
    hide WellFormed, Table, Numbered, Emission.InTurn, Extended, UnmarshalHandshake, RawHandshake.Whole;
    if drafts == [] {
      assert sent + [] == sent;
    } else if drafts[0].MessageDraft? {
      FirstMessage(sent, drafts);
      OneMore(sent, drafts[0].message, drafts[0].epoch);
      var m := SentMessage(Numbered(drafts[0].message, |sent|), drafts[0].epoch);
      hide NumberedPackets, SentOf, Writable;
      FreshPlan(sent + [m], drafts[1..]);
      PlanStep(sent, NumberedPackets(drafts, |sent|));
      Regroup(sent, m, SentOf(drafts[1..], |sent| + 1));
    } else {
      FirstChange(sent, drafts);
      hide NumberedPackets, SentOf, Writable;
      FreshPlan(sent, drafts[1..]);
      PlanStep(sent, NumberedPackets(drafts, |sent|));
    }
  }

  lemma PlanStep(sent: seq<SentMessage>, pkts: seq<Packet>)
    requires pkts != []
    ensures Planned(sent, pkts) == Planned(Extended(sent, pkts[0]), pkts[1..])
    ensures AllInTurn(sent, pkts) <==> Emission.InTurn(sent, pkts[0]) && AllInTurn(Extended(sent, pkts[0]), pkts[1..])
  {
    hide Emission.InTurn, Extended;
  }

  lemma Regroup(sent: seq<SentMessage>, m: SentMessage, rest: seq<SentMessage>)
    ensures sent + [m] + rest == sent + ([m] + rest)
  {
  }

  /** Messages the table already holds. */
  ghost predicate Known(sent: seq<SentMessage>, pkts: seq<Packet>) {
    forall p :: p in pkts && p.content.HandshakeContent? ==>
      p.content.h.sequence < |sent| && sent[p.content.h.sequence] == SentMessage(p.content.h, p.epoch)
  }

  lemma {:induction false} AgainInTurn(sent: seq<SentMessage>, pkts: seq<Packet>)
    requires Known(sent, pkts)
    ensures AllInTurn(sent, pkts) && Planned(sent, pkts) == sent
    decreases |pkts|
  {
    if pkts != [] {
      assert pkts[0] in pkts && forall p :: p in pkts[1..] ==> p in pkts;
      AgainInTurn(sent, pkts[1..]);
    }
  }

  lemma {:induction false} PlanKnown(sent: seq<SentMessage>, pkts: seq<Packet>)
    requires AllInTurn(sent, pkts)
    ensures sent <= Planned(sent, pkts) && Known(Planned(sent, pkts), pkts)
    decreases |pkts|
  {
    hide UnmarshalHandshake, RawHandshake.Whole;
    if pkts != [] {
      PlanKnown(Extended(sent, pkts[0]), pkts[1..]);
      var plan := Planned(sent, pkts);
      forall p | p in pkts && p.content.HandshakeContent?
        ensures p.content.h.sequence < |plan| && plan[p.content.h.sequence] == SentMessage(p.content.h, p.epoch)
      {
        assert p == pkts[0] || p in pkts[1..];
      }
    }
  }

  /** A send that succeeds has sent the whole plan; one that fails, a part of it. */
  lemma {:induction false} SentIsPlanned(s: SenderState, suite: Option<CipherSuite>, mtu: Mtu, isClient: bool,
                                         pkts: seq<Packet>, sent: seq<SentMessage>)
    requires AllInTurn(sent, pkts)
    ensures TableAfter(s, suite, mtu, isClient, pkts, sent) <= Planned(sent, pkts)
    ensures Raw(s, suite, mtu, isClient, pkts).1.Ok? ==> TableAfter(s, suite, mtu, isClient, pkts, sent) == Planned(sent, pkts)
    decreases |pkts|
  {
    hide RecordsOf, BodiesOf, CachedBefore, Emission.InTurn;
    if pkts != [] {
      assert pkts[0] in pkts && forall p :: p in pkts[1..] ==> p in pkts;
      var (lsn, first) := RecordsOf(s.lsn, suite, pkts[0], TypeOf(pkts[0]), BodiesOf(pkts[0], mtu));
      var table := Extended(sent, pkts[0]);
      PlanGrows(table, pkts[1..]);
      if first.Ok? {
        SentIsPlanned(SenderState(lsn, CachedBefore(s.cache, pkts[0], isClient)), suite, mtu, isClient, pkts[1..], table);
      }
    }
  }

  lemma {:induction false} PlanGrows(sent: seq<SentMessage>, pkts: seq<Packet>)
    ensures sent <= Planned(sent, pkts)
    decreases |pkts|
  {
    if pkts != [] {
      PlanGrows(Extended(sent, pkts[0]), pkts[1..]);
    }
  }

  lemma {:induction false} SentOfConcat(a: seq<Draft>, b: seq<Draft>, next: nat)
    requires Writable(a) && Writable(b)
    ensures Writable(a + b)
    ensures SentOf(a + b, next) == SentOf(a, next) + SentOf(b, next + |SentOf(a, next)|)
    decreases |a|
  {
    hide WellFormed, Numbered;
    assert forall d :: d in a + b <==> d in a || d in b;
    if a == [] {
      assert a + b == b;
    } else {
      assert (a + b)[1..] == a[1..] + b;
      assert a[0] in a && forall d :: d in a[1..] ==> d in a;
      SentOfConcat(a[1..], b, next + if a[0].MessageDraft? then 1 else 0);
    }
  }

  /** A prepared flight can be put on the wire. */
  lemma {:induction false} PacketsSendable(drafts: seq<Draft>, next: int, suite: Option<CipherSuite>, mtu: Mtu, sealer: CipherSuite)
    requires Writable(drafts)
    requires suite.Some? ==> Frames(suite.value, RecordLimit(mtu))
    requires (exists d :: d in drafts && d.MessageDraft? && d.epoch != 0) ==> suite == Some(sealer)
    ensures forall p :: p in NumberedPackets(drafts, next) ==> Sendable(p, suite, mtu, sealer)
    decreases |drafts|
  {
    hide WellFormed, Numbered, Frames, UnmarshalHandshake, Transmitted, RawHandshake.Whole;
    if drafts != [] {
      assert drafts[0] in drafts && forall d :: d in drafts[1..] ==> d in drafts;
      var step := if drafts[0].MessageDraft? then 1 else 0;
      PacketsSendable(drafts[1..], next + step, suite, mtu, sealer);
      if drafts[0].MessageDraft? {
        NumberedReads(drafts[0].message, WrappedU16(next));
      }
      var pkts := NumberedPackets(drafts, next);
      assert pkts == [pkts[0]] + NumberedPackets(drafts[1..], next + step);
    }
  }
}
