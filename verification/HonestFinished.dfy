/** The client's Finished in an honest handshake: it vouches for the transcript that the server has, so
    the comparison that the server leaves out would succeed. */
module HonestFinished {
  import opened Wrappers
  import opened Bytes
  import opened Headers
  import opened Messages
  import opened Handshakes
  import opened HandshakeCaches
  import opened Sending
  import opened Reassembly
  import opened Emission
  import opened TableTexts
  import opened HandshakeStates
  import opened ServerFlights
  import opened ClientFlights
  import opened Planning
  import opened ClientFinished
  import opened HonestWorlds
  import opened HonestSends
  import opened HonestScripts
  import opened HonestTexts
  import opened HonestPreparing
  import opened HonestPredictions
  import opened HonestServerKeys
  import opened HonestHandshakes

  const PROOF_RULE := Rule(CertificateVerify, 0, true, false)

  /** Everything up to the client's Finished. */
  function VouchedRules(): seq<Rule> {
    KEY_EXCHANGE_RULES + [PROOF_RULE]
  }

  // The text

  lemma HellosProveNothing(hellos: seq<SentMessage>, server: seq<SentMessage>)
    requires forall m :: m in hellos ==> m.h.typ == ClientHello && m.epoch == 0
    ensures Text(hellos, server, FINISHED_RULES) == Text(hellos, server, KEY_EXCHANGE_RULES)
  {
    hide LastOf;
    var last := [PROOF_RULE, CLIENT_FINISHED_RULE];
    LastOfNone(hellos, CertificateVerify, 0);
    LastOfNone(hellos, HandshakeType.Finished, 1);
    assert FINISHED_RULES == KEY_EXCHANGE_RULES + last;
    TextConcat(hellos, server, KEY_EXCHANGE_RULES, last);
    assert last[1..] == [CLIENT_FINISHED_RULE] && [CLIENT_FINISHED_RULE][1..] == [];
    NothingTwice(hellos, server, last);
  }

  lemma NothingTwice(hellos: seq<SentMessage>, server: seq<SentMessage>, rules: seq<Rule>)
    requires |rules| == 2
    requires TextOf(hellos, server, rules[0]) == [] && TextOf(hellos, server, rules[1]) == []
    ensures Text(hellos, server, rules) == []
  {
    hide TextOf;
    assert rules[1..] == [rules[1]] && rules[1..][1..] == [];
    assert Text(hellos, server, rules[1..]) == TextOf(hellos, server, rules[1]) + Text(hellos, server, []);
  }

  /** The client's plan ends with perhaps the proof, and the Finished. */
  lemma PlanEnds(plan: seq<SentMessage>, k: Keyed)
    requires KeyedShape(plan, k) && ProofShaped(k.tail)
    ensures var n, proof, last := k.hellos + |k.keys|, ProofPart(k.tail), k.tail[|k.tail| - 1];
            && n <= |plan| && WellFormed(last.message) && (proof != [] ==> WellFormed(proof[0].message))
            && plan == plan[..n] + (if proof == [] then [] else [SentMessage(Numbered(proof[0].message, WrappedU16(n)), 0)])
                       + [SentMessage(Numbered(last.message, WrappedU16(n + |proof|)), 1)]
  {
    hide WellFormed, Numbered, SentOf, Hellos, TailMessage, KeyShaped, TailShaped, Writable;
    PlanParts(plan, k);
    var n, proof, last := k.hellos + |k.keys|, ProofPart(k.tail), k.tail[|k.tail| - 1];
    assert k.tail == proof + [ChangeCipherSpecDraft] + [last];
    TailParts(proof, last, n);
    assert plan[k.hellos..] == SentOf(k.keys, k.hellos) + SentOf(k.tail, n);
    assert plan[n..] == SentOf(k.tail, n);
    assert plan == plan[..n] + plan[n..];
  }

  /** In the client's plan the rule of the proof finds exactly what is predicted of it. */
  lemma ProofFound(plan: seq<SentMessage>, server: seq<SentMessage>, k: Keyed)
    requires KeyedShape(plan, k) && ProofShaped(k.tail)
    ensures TextOf(plan, server, PROOF_RULE) == NumberedText(ProofPart(k.tail), k.hellos + |k.keys|)
  {
    hide WellFormed, Numbered, RawHandshake.Whole, SentOf, Hellos, NumberedText, LastOf, KeyedShape;
    PlanEnds(plan, k);
    BeforeProof(plan, k);
    var n, proof, last := k.hellos + |k.keys|, ProofPart(k.tail), plan[|plan| - 1];
    var before := plan[..n];
    NumberedAt(k.tail[|k.tail| - 1].message, WrappedU16(n + |proof|));
    LastOfNone(before, CertificateVerify, 0);
    NoDrafts(n);
    if proof == [] {
      LastOfExtended(before, [last], CertificateVerify, 0);
      assert plan == before + [last];
    } else {
      assert proof[0] in proof && proof == [proof[0]];
      OneText(proof[0], n);
      NumberedAt(proof[0].message, WrappedU16(n));
      var proven := SentMessage(Numbered(proof[0].message, WrappedU16(n)), 0);
      assert plan == before + [proven] + [last];
      LastOfSnoc(before, proven);
      LastOfExtended(before + [proven], [last], CertificateVerify, 0);
    }
  }

  lemma BeforeProof(plan: seq<SentMessage>, k: Keyed)
    requires KeyedShape(plan, k) && k.hellos + |k.keys| <= |plan|
    ensures forall m :: m in plan[..k.hellos + |k.keys|] ==> m.h.typ != CertificateVerify
  {
    hide WellFormed, Numbered, SentOf, KeyShaped, TailShaped;
    HelloCount(plan, k.hellos);
    KeySent(k.keys, k.hellos);
    PlanParts(plan, k);
    var n := k.hellos + |k.keys|;
    forall m | m in plan[..n]
      ensures m.h.typ != CertificateVerify
    {
      var i :| 0 <= i < n && plan[i] == m;
      if i < k.hellos {
        assert m == plan[..k.hellos][i];
      } else {
        assert m == SentOf(k.keys, k.hellos)[i - k.hellos];
      }
    }
  }

  /** The messages of the tail: perhaps the proof, then the Finished; and the proof's text. */
  lemma TailParts(proof: seq<Draft>, last: Draft, n: nat)
    requires |proof| <= 1 && HandshakeStates.Writable(proof + [ChangeCipherSpecDraft] + [last]) && HandshakeStates.Writable(proof)
    requires forall d :: d in proof ==> d.MessageDraft? && d.epoch == 0 && d.message.CertificateVerifyMessage?
    requires last.MessageDraft?
    ensures WellFormed(last.message)
    ensures proof != [] ==>
              WellFormed(proof[0].message)
    ensures SentOf(proof + [ChangeCipherSpecDraft] + [last], n)
         == (if proof == [] then [] else [SentMessage(Numbered(proof[0].message, WrappedU16(n)), 0)])
            + [SentMessage(Numbered(last.message, WrappedU16(n + |proof|)), last.epoch)]
  {
    hide WellFormed, Numbered, SentOf;
    FrontWritable(proof + [ChangeCipherSpecDraft], last);
    FrontSent(proof, n);
    TailSent(proof + [ChangeCipherSpecDraft], last, n);
  }

  lemma NoDrafts(n: nat)
    ensures NumberedText([], n) == [] && SentOf([], n) == []
    ensures SentOf([ChangeCipherSpecDraft], n) == []
  {
    assert [ChangeCipherSpecDraft][1..] == [];
  }

  lemma FrontSent(proof: seq<Draft>, n: nat)
    requires |proof| <= 1 && HandshakeStates.Writable(proof) && forall d :: d in proof ==> d.MessageDraft? && d.epoch == 0
    ensures HandshakeStates.Writable(proof + [ChangeCipherSpecDraft])
    ensures proof != [] ==> WellFormed(proof[0].message)
    ensures SentOf(proof + [ChangeCipherSpecDraft], n)
         == if proof == [] then [] else [SentMessage(Numbered(proof[0].message, WrappedU16(n)), 0)]
  {
    hide WellFormed, Numbered, SentOf, NumberedText;
    var m := if proof == [] then n else n + 1;
    NoDrafts(m);
    if proof == [] {
      assert proof + [ChangeCipherSpecDraft] == [ChangeCipherSpecDraft];
    } else {
      assert proof[0] in proof && proof == [proof[0]];
      SentOfOne(proof[0], n);
      SentOfConcat(proof, [ChangeCipherSpecDraft], n);
    }
  }

  /** What the server's cache yields up to the Finished is what the client has vouched for. */
  lemma VouchedText(plan: seq<SentMessage>, server: seq<SentMessage>, k: Keyed, a: nat)
    requires KeyedShape(plan, k) && ProofShaped(k.tail)
    requires a <= |server| && LaterEpoch(server[a..])
    ensures k.hellos <= |plan|
    ensures Text(plan, server, VouchedRules())
         == Text(plan[..k.hellos], server[..a], FINISHED_RULES) + NumberedText(k.keys, k.hellos)
            + NumberedText(ProofPart(k.tail), k.hellos + |k.keys|)
  {
    hide KeyedShape, Text, TextOf, NumberedText, LaterEpoch, HandshakeStates.Writable, ProofShaped;
    ProofFound(plan, server, k);
    KeysInside(plan, k);
    PredictedText(plan, server, k, |plan|, a);
    assert plan[..|plan|] == plan;
    HelloPart(plan, k);
    HellosProveNothing(plan[..k.hellos], server[..a]);
    OneMoreRule(plan, server, KEY_EXCHANGE_RULES, PROOF_RULE);
  }

  lemma KeysInside(plan: seq<SentMessage>, k: Keyed)
    requires KeyedShape(plan, k)
    ensures k.hellos + |k.keys| <= |plan|
  {
    hide KeyedShape, SentOf, TailMessage;
    PlanParts(plan, k);
  }

  lemma OneMoreRule(client: seq<SentMessage>, server: seq<SentMessage>, rules: seq<Rule>, r: Rule)
    ensures Text(client, server, rules + [r]) == Text(client, server, rules) + TextOf(client, server, r)
  {
    hide TextOf;
    TextConcat(client, server, rules, [r]);
    assert [r][1..] == [];
    assert TextOf(client, server, r) + [] == TextOf(client, server, r);
  }

  // In the handshake

  /** A Finished of the client in the server's cache is the client's last message. */
  /** The client's Finished in the cache is the last message of the plan. */
  ghost predicate LastHeld(cache: seq<Item>, plan: seq<SentMessage>) {
    plan != [] && var m := plan[|plan| - 1]; Best(cache, CLIENT_FINISHED_RULE) == Some(ItemOf(m.h, m.epoch, true))
  }

  lemma FinishedIn(u: Setup, h: Honest)
    requires SetupOk(u) && AllOk(u, h) && Best(h.net.server.Cache(), CLIENT_FINISHED_RULE).Some?
    ensures h.keyed.Some? && h.net.server.Popped() == |h.clientPlan| && LastHeld(h.net.server.Cache(), h.clientPlan)
  {
    hide SetupOk, Base, ClientScript, ServerScript, ServerHeard, ServerKeys, ServerDone, ClientAnswered, UnmarshalHandshake,
         RawHandshake.Whole, Unique, OwnPart, KeyedOk, Best, LastOf, WellFormed, Numbered, KeyShaped, ItemOf;
    CacheParts(u, h);
    var table := h.clientPlan[..h.net.server.Popped()];
    BestOfPart(h.net.server.Cache(), table, CLIENT_FINISHED_RULE);
    LastOfIs(table, HandshakeType.Finished, 1);
    var i :| 0 <= i < |table| && LastOf(table, HandshakeType.Finished, 1) == [table[i]]
      && table[i].h.typ == HandshakeType.Finished && table[i].epoch == 1;
    assert table[i] == h.clientPlan[i];
    KeyIndex(h.clientPlan, h.keyed, u.client, h.client, i);
    OnlyFinished(h.clientPlan, h.keyed.Or(UNKEYED), u.client, h.client, i);
  }

  /** What the client has vouched for when it prepared flight 5. */
  lemma KeyedVouches(u: Setup, h: Honest)
    requires Scripts(u, h) && h.keyed.Some?
    ensures h.offer.Some? && |h.serverPlan| > |h.offer.Or([])|
    ensures var k, server := h.keyed.Or(UNKEYED), h.serverPlan[..1 + |h.offer.Or([])|];
            && KeyedShape(h.clientPlan, k) && k.hellos <= |h.clientPlan| && HandshakeStates.Writable(k.keys)
            && Vouched(u.crypto, h.client.state.masterSecret, k.tail,
                       Text(h.clientPlan[..k.hellos], server, FINISHED_RULES) + NumberedText(k.keys, k.hellos),
                       k.hellos + |k.keys|)
  {
    hide ClientScript, ServerScript, ServerHeard, ServerKeys, ServerDone, ClientAnswered, Text, NumberedText, MasterSecret, RandomBytes,
         ClientKeyExchangeOf, PskOk, Signed, Reading.Ready, Writable, SentOf;
  }

  /** The Finished the server finds carries what the client computes over the transcript that the
      server's cache yields. */
  lemma FoundIsVouched(u: Setup, h: Honest) returns (data: Bytes)
    requires SetupOk(u) && AllOk(u, h) && Best(h.net.server.Cache(), CLIENT_FINISHED_RULE).Some?
    ensures HasFinished(h.net.server.Cache(), WrappedU16(|h.clientPlan| - 1), data)
    ensures u.crypto.verifyDataClient(h.client.state.masterSecret, Merged(h.net.server.Cache(), VouchedRules())) == Ok(data)
  {
    hide SetupOk, Base, Scripts, UnmarshalHandshake, RawHandshake.Whole, Best, KeyedShape, Merged, Text,
         NumberedText, WellFormed, Numbered, VouchedRules, ProofShaped;
    FinishedIn(u, h);
    KeyedVouches(u, h);
    ServerYields(u, h);
    data := FinishedReads(h.clientPlan, h.keyed.Or(UNKEYED));
  }

  /** What the cache yields up to the Finished: what the client vouched for. */
  ghost predicate Yields(cache: seq<Item>, clientPlan: seq<SentMessage>, serverPlan: seq<SentMessage>, offer: seq<Draft>, k: Keyed) {
    |serverPlan| > |offer| && KeyedShape(clientPlan, k) && ProofShaped(k.tail) && k.hellos <= |clientPlan|
    && Merged(cache, VouchedRules())
       == Text(clientPlan[..k.hellos], serverPlan[..1 + |offer|], FINISHED_RULES) + NumberedText(k.keys, k.hellos)
          + NumberedText(ProofPart(k.tail), k.hellos + |k.keys|)
  }

  lemma ServerYields(u: Setup, h: Honest)
    requires SetupOk(u) && AllOk(u, h) && h.keyed.Some? && h.net.server.Popped() == |h.clientPlan|
    ensures h.offer.Some? && |h.serverPlan| > |h.offer.Or([])|
    ensures Yields(h.net.server.Cache(), h.clientPlan, h.serverPlan, h.offer.Or([]), h.keyed.Or(UNKEYED))
  {
    hide SetupOk, Base, ClientScript, ServerHeard, ServerKeys, ServerDone, ClientAnswered, KeyedOk, Unique, OwnPart, ServerScript,
         KeyedShape, Merged, Text, NumberedText, LaterEpoch, VouchedRules, ProofShaped, AnswerOk, Table, Writable;
    KeyedVouches(u, h);
    var k, a, n := h.keyed.Or(UNKEYED), 1 + |h.offer.Or([])|, |h.net.server.sent|;
    CacheParts(u, h);
    BaseWorld(u, h);
    KeyedAnswered(u, h);
    var server := h.serverPlan[..n];
    assert h.net.server.sent == server;
    assert h.clientPlan[..|h.clientPlan|] == h.clientPlan;
    MergedIsText(h.net.server.Cache(), h.clientPlan, server, VouchedRules());
    ServerLater(h.serverPlan, h.server, u.server, u.crypto, h.offer.Or([]), n);
    assert server[..a] == h.serverPlan[..a];
    VouchedText(h.clientPlan, server, k, a);
  }

  lemma FinishedReads(plan: seq<SentMessage>, k: Keyed) returns (data: Bytes)
    requires KeyedShape(plan, k) && ProofShaped(k.tail)
    ensures data == k.tail[|k.tail| - 1].message.verifyData
    ensures plan != [] && UnmarshalHandshake(plan[|plan| - 1].h.Whole()).Ok?
    ensures var read := UnmarshalHandshake(plan[|plan| - 1].h.Whole()).value;
            read.header.messageSequence == WrappedU16(|plan| - 1) && read.message == FinishedMessage(data)
  {
    hide WellFormed, Numbered, UnmarshalHandshake, RawHandshake.Whole, KeyedShape, MarshalHandshake;
    data := k.tail[|k.tail| - 1].message.verifyData;
    PlanEnds(plan, k);
    HandshakeRoundTrip(k.tail[|k.tail| - 1].message, WrappedU16(|plan| - 1));
  }

  /** As soon as a Finished of an honest client is in the server's cache, it is what the client's keys
      make of the transcript that this cache yields up to it. */
  lemma FinishedVouches(u: Setup, acts: seq<Act>, h: Honest)
    requires SetupOk(u) && HonestWorlds.Reaches(u, Begin(), acts, h)
    requires Best(h.net.server.Cache(), CLIENT_FINISHED_RULE).Some?
    ensures exists number, data ::
              HasFinished(h.net.server.Cache(), number, data)
              && u.crypto.verifyDataClient(h.client.state.masterSecret, Merged(h.net.server.Cache(), VouchedRules())) == Ok(data)
  {
    hide SetupOk, AllOk, HonestWorlds.Reaches, Merged, Best, HasFinished;
    BeginOk(u);
    RunOk(u, Begin(), acts, h);
    var data := FoundIsVouched(u, h);
  }

  /** A server that has left flight 4 has an honest client's Finished, and the comparison it has left
      out would have succeeded, under its own master secret and over its own transcript. */
  lemma ComparisonWouldSucceed(u: Setup, acts: seq<Act>, h: Honest)
    requires SetupOk(u) && HonestWorlds.Reaches(u, Begin(), acts, h) && h.server.flight.Flight6?
    ensures exists number, data ::
              HasFinished(h.net.server.Cache(), number, data)
              && u.crypto.verifyDataClient(h.server.state.masterSecret, Merged(h.net.server.Cache(), VouchedRules())) == Ok(data)
  {
    hide SetupOk, AllOk, HonestWorlds.Reaches, Merged, Best, HasFinished;
    BeginOk(u);
    RunOk(u, Begin(), acts, h);
    LastFlightHeard(u, h);
    var data := FoundIsVouched(u, h);
  }

  lemma LastFlightHeard(u: Setup, h: Honest)
    requires SetupOk(u) && AllOk(u, h) && h.server.flight.Flight6?
    ensures h.server.state.masterSecret == h.client.state.masterSecret
    ensures Best(h.net.server.Cache(), CLIENT_FINISHED_RULE).Some?
  {
    hide SetupOk, Base, ClientScript, ServerScript, ServerHeard, ClientAnswered, RawHandshake.Whole, Unique, OwnPart, Best, LastOf,
         KeyedShape, Text, NumberedText, MasterSecret, RandomBytes, Reading.Ready, WellFormed, Numbered, Vouched,
         Signed, ClientKeyExchangeOf, PskOk;
    CacheParts(u, h);
    assert h.clientPlan[..|h.clientPlan|] == h.clientPlan;
    FinishedPlanned(h.clientPlan, h.keyed.Or(UNKEYED));
    BestOfPart(h.net.server.Cache(), h.clientPlan, CLIENT_FINISHED_RULE);
  }

  lemma FinishedPlanned(plan: seq<SentMessage>, k: Keyed)
    requires KeyedShape(plan, k)
    ensures LastOf(plan, HandshakeType.Finished, 1) != []
  {
    hide KeyedShape, SentOf, TailMessage;
    PlanParts(plan, k);
  }
}
