/** What a side reads out of its cache in an honest handshake is what the peer has said. */
module HonestPulls {
  import opened Wrappers
  import opened Bytes
  import opened Headers
  import opened Messages
  import opened Handshakes
  import opened HandshakeCaches
  import opened Sending
  import opened Reassembly
  import opened Emission
  import opened TableTexts
  import opened HandshakeStates
  import opened ServerFlights
  import opened Handshaking
  import opened Planning
  import opened HonestWorlds
  import opened HonestSends
  import opened HonestScripts
  import opened HonestTexts
  import opened HonestAnswers

  /** Message `i` of a table is the last one that matches the rule. */
  ghost predicate IsLast(sent: seq<SentMessage>, r: Rule, i: nat) {
    i < |sent| && sent[i].h.typ == r.typ && sent[i].epoch == r.epoch
    && forall j :: i < j < |sent| ==> sent[j].h.typ != r.typ || sent[j].epoch != r.epoch
  }

  /** A pull yields, for a rule, the last message of the table that matches it. */
  lemma PulledFromPart(cache: seq<Item>, sent: seq<SentMessage>, start: int, rules: seq<Rule>, r: Rule) returns (i: nat)
    requires Unique(cache) && OwnPart(cache, r.isClient, sent) && DistinctTypes(rules) && r in rules
    requires FullPulled(cache, start, rules).Ok?
    ensures (exists j: nat :: IsLast(sent, r, j)) ==> r.typ in FullPulled(cache, start, rules).value.1
    ensures !r.optional ==> r.typ in FullPulled(cache, start, rules).value.1
    ensures r.typ in FullPulled(cache, start, rules).value.1 ==>
              IsLast(sent, r, i) && UnmarshalHandshake(sent[i].h.Whole()).Ok?
              && FullPulled(cache, start, rules).value.1[r.typ] == UnmarshalHandshake(sent[i].h.Whole()).value.message
              && Best(cache, r) == Some(ItemOf(sent[i].h, sent[i].epoch, r.isClient))
  {
    hide UnmarshalHandshake, RawHandshake.Whole, Unique, OwnPart, Best, LastOf, FullPulled, DistinctTypes;
    FullPulledMessages(cache, start, rules, r);
    BestOfPart(cache, sent, r);
    LastOfIs(sent, r.typ, r.epoch);
    if LastOf(sent, r.typ, r.epoch) != [] {
      i :| 0 <= i < |sent| && LastOf(sent, r.typ, r.epoch) == [sent[i]] && sent[i].h.typ == r.typ && sent[i].epoch == r.epoch
        && forall j :: i < j < |sent| ==> sent[j].h.typ != r.typ || sent[j].epoch != r.epoch;
    } else {
      i := 0;
    }
  }

  // What the client reads of the server

  /** The last message of flight 4 ends what the server says in epoch 0. */
  lemma OfferIndex(plan: seq<SentMessage>, m: Machine, cfg: Config, crypto: Crypto, offer: Option<seq<Draft>>, t: HandshakeType, i: nat)
    requires ServerScript(cfg, crypto, m, plan, offer) && i < |plan| && plan[i].h.typ == t && plan[i].epoch == 0
    requires t != HelloVerifyRequest
    ensures offer.Some? && 1 <= i <= |offer.value| && HandshakeStates.Writable(offer.value) && AllMessages(offer.value)
    ensures WellFormed(offer.value[i - 1].message) && offer.value[i - 1].message.Type() == t
    ensures plan[i].h == Numbered(offer.value[i - 1].message, WrappedU16(i))
    ensures t == ServerHello ==> i == 1
    ensures t == ServerHelloDone ==> i == |offer.value|
  {
    hide WellFormed, Numbered, Flight4Generated, SentOf, ServerHelloOf, WrappedU16, HandshakeRandom.Valid, Size;
    if offer.None? {
      VerifyPlan(plan, m.state.cookie);
    } else {
      SentOfMessages(offer.value, 1);
      OfferShape(m.state, cfg, crypto, offer.value);
      FinishedIs(m.state.localVerifyData, 1 + |offer.value|);
      assert plan[1..1 + |offer.value|][i - 1] == plan[i];
      NumberedAt(offer.value[i - 1].message, WrappedU16(i));
      OfferTypes(offer.value, m.state, cfg, i - 1);
    }
  }

  lemma FinishedIs(data: Bytes, n: nat)
    ensures WellFormed(FinishedMessage(data)) ==> FinishedAt(data, n).h.typ == HandshakeType.Finished && FinishedAt(data, n).epoch == 1
  {
  }

  lemma OfferTypes(drafts: seq<Draft>, s: State, cfg: Config, k: nat)
    requires AllMessages(drafts) && |drafts| >= 2 && k < |drafts| && drafts[0].message == ServerHelloOf(s, cfg)
    requires drafts[|drafts| - 1].message == ServerHelloDoneMessage
    requires forall i :: 0 < i < |drafts| - 1 ==>
               drafts[i].message.CertificateMessage? || drafts[i].message.ServerKeyExchangeMessage? || drafts[i].message.CertificateRequestMessage?
    ensures drafts[k].message.Type() == ServerHello <==> k == 0
    ensures drafts[k].message.Type() == ServerHelloDone <==> k == |drafts| - 1
  {
  }

  /** The message of type `t` is the one at `i` of flight 4. */
  ghost predicate OfferedAt(h: Honest, msgs: map<HandshakeType, Message>, t: HandshakeType, i: nat) {
    h.offer.Some? && i < |h.offer.Or([])| && h.offer.Or([])[i].MessageDraft? && h.offer.Or([])[i].epoch == 0
    && Gives(msgs, t, Messages.Transmitted(h.offer.Or([])[i].message)) && Messages.Transmitted(h.offer.Or([])[i].message).Type() == t
    && h.net.client.Popped() >= 2 + i
    && (t == ServerHello ==> i == 0) && (t == ServerHelloDone ==> i == |h.offer.Or([])| - 1)
  }

  /** A message the client has pulled is a message of flight 4, as it travels. */
  lemma ClientPulled(u: Setup, h: Honest, start: int, rules: seq<Rule>, r: Rule) returns (i: nat)
    requires SetupOk(u) && Base(u, h) && ServerScript(u.server, u.crypto, h.server, h.serverPlan, h.offer)
    requires DistinctTypes(rules) && r in rules && !r.isClient && r.epoch == 0 && r.typ != HelloVerifyRequest
    requires FullPulled(h.net.client.Cache(), start, rules).Ok?
    ensures !r.optional ==> r.typ in MessagesPulled(h.net.client.Cache(), start, rules)
    ensures r.typ in MessagesPulled(h.net.client.Cache(), start, rules) ==>
              OfferedAt(h, MessagesPulled(h.net.client.Cache(), start, rules), r.typ, i)
  {
    hide SetupOk, Base, ServerScript, UnmarshalHandshake, RawHandshake.Whole, Unique, OwnPart, FullPulled, DistinctTypes, IsLast,
         WellFormed, Numbered, Messages.Transmitted, AllMessages;
    CacheParts(u, h);
    var table := h.serverPlan[..h.net.client.Popped()];
    var at := PulledFromPart(h.net.client.Cache(), table, start, rules, r);
    i := 0;
    if r.typ in MessagesPulled(h.net.client.Cache(), start, rules) {
      LastIs(table, r, at);
      OfferIndex(h.serverPlan, h.server, u.server, u.crypto, h.offer, r.typ, at);
      i := at - 1;
      MessagesOnly(h.offer.Or([]), i);
      NumberedReads(h.offer.Or([])[i].message, WrappedU16(at));
      TransmittedType(h.offer.Or([])[i].message);
    }
  }

  lemma LastIs(sent: seq<SentMessage>, r: Rule, i: nat)
    requires IsLast(sent, r, i)
    ensures i < |sent| && sent[i].h.typ == r.typ && sent[i].epoch == r.epoch
  {
  }

  lemma MessagesOnly(drafts: seq<Draft>, i: nat)
    requires AllMessages(drafts) && i < |drafts|
    ensures drafts[i].MessageDraft? && drafts[i].epoch == 0
  {
  }

  lemma TransmittedType(m: Message)
    ensures Messages.Transmitted(m).Type() == m.Type()
  {
  }
}
