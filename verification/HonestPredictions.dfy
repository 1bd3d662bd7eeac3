/** The client's prediction is exact: the text it hashes and signs before flight 5 is sent is the text
    the server's cache yields once it has the messages (sections 3 and 4 of RFC 7627). */
module HonestPredictions {
  import opened Wrappers
  import opened Headers
  import opened Messages
  import opened Handshakes
  import opened HandshakeCaches
  import Reading
  import opened Reassembly
  import opened Emission
  import opened TableTexts
  import opened HandshakeStates
  import opened ServerFlights
  import opened ClientFlights
  import opened Handshaking
  import opened Planning
  import opened HonestWorlds
  import opened HonestSends
  import opened HonestScripts
  import opened HonestTexts
  import opened HonestPreparing
  import opened HonestAnswers
  import opened HonestPulls

  // The parts of the client's plan

  ghost predicate TailMessage(m: SentMessage) {
    (m.h.typ == CertificateVerify && m.epoch == 0) || (m.h.typ == HandshakeType.Finished && m.epoch == 1)
  }

  lemma {:induction false} ProofTypes(proof: seq<Draft>, next: nat)
    requires HandshakeStates.Writable(proof)
    requires forall d :: d in proof && d.MessageDraft? ==> d.epoch == 0 && d.message.CertificateVerifyMessage?
    ensures forall m :: m in SentOf(proof, next) ==> m.h.typ == CertificateVerify && m.epoch == 0
    decreases |proof|
  {
    hide WellFormed, Numbered, HandshakeRandom.Valid, Size, ClientHelloWellFormed, ServerKeyExchangeWellFormed, ServerHelloWellFormed;
    if proof != [] {
      assert proof[0] in proof && forall d :: d in proof[1..] ==> d in proof;
      ProofTypes(proof[1..], next + if proof[0].MessageDraft? then 1 else 0);
      if proof[0].MessageDraft? {
        NumberedAt(proof[0].message, WrappedU16(next));
      }
    }
  }

  lemma TailSent(front: seq<Draft>, last: Draft, next: nat)
    requires HandshakeStates.Writable(front) && last.MessageDraft? && WellFormed(last.message)
    ensures HandshakeStates.Writable(front + [last])
    ensures SentOf(front + [last], next)
         == SentOf(front, next)
            + [SentMessage(Numbered(last.message, WrappedU16(next + |SentOf(front, next)|)), last.epoch)]
  {
    hide WellFormed, Numbered, SentOf, HandshakeRandom.Valid, Size, ClientHelloWellFormed, ServerKeyExchangeWellFormed,
         ServerHelloWellFormed;
    var n := next + |SentOf(front, next)|;
    SentOfOne(last, n);
    SentOfConcat(front, [last], next);
  }

  lemma FrontWritable(front: seq<Draft>, last: Draft)
    requires HandshakeStates.Writable(front + [last]) && last.MessageDraft?
    ensures HandshakeStates.Writable(front) && WellFormed(last.message)
  {
  }

  lemma TailTypes(tail: seq<Draft>, next: nat)
    requires HandshakeStates.Writable(tail) && TailShaped(tail)
    ensures var sent := SentOf(tail, next);
            sent != [] && sent[|sent| - 1].h.typ == HandshakeType.Finished && sent[|sent| - 1].epoch == 1
            && forall m :: m in sent[..|sent| - 1] ==> m.h.typ == CertificateVerify && m.epoch == 0
  {
    hide WellFormed, Numbered, SentOf, HandshakeStates.Writable, HandshakeRandom.Valid, Size, ClientHelloWellFormed,
         ServerKeyExchangeWellFormed, ServerHelloWellFormed;
    var front, last := tail[..|tail| - 1], tail[|tail| - 1];
    assert tail == front + [last];
    FrontWritable(front, last);
    ProofTypes(front, next);
    TailSent(front, last, next);
    NumberedAt(last.message, WrappedU16(next + |SentOf(front, next)|));
    assert SentOf(tail, next)[..|SentOf(tail, next)| - 1] == SentOf(front, next);
  }

  /** Hellos, then the key messages, then the rest, which ends with the only Finished. */
  lemma PlanParts(plan: seq<SentMessage>, k: Keyed)
    requires KeyedShape(plan, k)
    ensures k.hellos + |k.keys| < |plan|
    ensures plan == plan[..k.hellos] + SentOf(k.keys, k.hellos) + plan[k.hellos + |k.keys|..]
    ensures |SentOf(k.keys, k.hellos)| == |k.keys|
    ensures forall m :: m in plan[k.hellos + |k.keys|..] ==> TailMessage(m)
    ensures plan[|plan| - 1].h.typ == HandshakeType.Finished && plan[|plan| - 1].epoch == 1
    ensures forall i :: k.hellos + |k.keys| <= i < |plan| - 1 ==> plan[i].h.typ == CertificateVerify
  {
    hide WellFormed, Numbered, SentOf, Hellos, TailShaped, Writable;
    assert AllMessages(k.keys);
    SentOfMessages(k.keys, k.hellos);
    TailTypes(k.tail, k.hellos + |k.keys|);
    var tail := SentOf(k.tail, k.hellos + |k.keys|);
    var keys := SentOf(k.keys, k.hellos);
    assert k.hellos <= |plan| by { HelloCount(plan, k.hellos); }
    assert plan == plan[..k.hellos] + plan[k.hellos..];
    assert plan[k.hellos + |k.keys|..] == tail;
    TailKinds(tail);
    forall i | k.hellos + |k.keys| <= i < |plan| - 1
      ensures plan[i].h.typ == CertificateVerify
    {
      assert plan[i] == tail[..|tail| - 1][i - k.hellos - |k.keys|];
    }
  }

  lemma TailKinds(sent: seq<SentMessage>)
    requires sent != [] && sent[|sent| - 1].h.typ == HandshakeType.Finished && sent[|sent| - 1].epoch == 1
    requires forall m :: m in sent[..|sent| - 1] ==> m.h.typ == CertificateVerify && m.epoch == 0
    ensures forall m :: m in sent ==> TailMessage(m)
  {
  }

  lemma HelloCount(plan: seq<SentMessage>, n: nat)
    requires Hellos(plan, n)
    ensures n <= |plan| && forall m :: m in plan[..n] ==> m.h.typ == ClientHello && m.epoch == 0
  {
  }

  /** The key messages as they stand in the plan. */
  lemma KeySent(keys: seq<Draft>, n: nat)
    requires KeyShaped(keys) && HandshakeStates.Writable(keys)
    ensures |SentOf(keys, n)| == |keys|
    ensures forall i :: 0 <= i < |keys| ==>
              keys[i].MessageDraft? && WellFormed(keys[i].message)
              && SentOf(keys, n)[i] == SentMessage(Numbered(keys[i].message, WrappedU16(n + i)), 0)
              && SentOf(keys, n)[i].h.typ == (if i == |keys| - 1 then ClientKeyExchange else Certificate)
  {
    hide WellFormed, Numbered;
    assert AllMessages(keys);
    SentOfMessages(keys, n);
    forall i | 0 <= i < |keys|
      ensures SentOf(keys, n)[i].h.typ == (if i == |keys| - 1 then ClientKeyExchange else Certificate)
    {
      NumberedAt(keys[i].message, WrappedU16(n + i));
    }
  }

  /** The predicted text of the key messages is their text. */
  lemma KeyText(keys: seq<Draft>, n: nat)
    requires KeyShaped(keys) && HandshakeStates.Writable(keys)
    ensures |SentOf(keys, n)| == |keys|
    ensures NumberedText(keys, n)
         == (if |keys| == 2 then SentOf(keys, n)[0].h.Whole() else []) + SentOf(keys, n)[|keys| - 1].h.Whole()
  {
    hide WellFormed, Numbered, RawHandshake.Whole, SentOf, HandshakeRandom.Valid, Size, ClientHelloWellFormed,
         ServerKeyExchangeWellFormed, ServerHelloWellFormed;
    KeySent(keys, n);
    OneText(keys[|keys| - 1], n + |keys| - 1);
    if |keys| == 2 {
      assert keys[1..] == [keys[1]];
      var last := NumberedText([keys[1]], n + 1);
      assert NumberedText(keys, n) == Numbered(keys[0].message, WrappedU16(n)).Whole() + last;
    } else {
      assert keys == [keys[0]];
      assert [] + NumberedText(keys, n) == NumberedText(keys, n);
    }
  }

  lemma OneText(d: Draft, n: nat)
    requires d.MessageDraft? && WellFormed(d.message)
    ensures HandshakeStates.Writable([d]) && NumberedText([d], n) == Numbered(d.message, WrappedU16(n)).Whole()
  {
  }

  // Texts

  const CERTIFICATE_RULE := Rule(Certificate, 0, true, false)

  const EXCHANGE_RULE := Rule(ClientKeyExchange, 0, true, false)

  /** In a plan that holds the key messages the last two rules find exactly them. */
  lemma KeysFound(plan: seq<SentMessage>, server: seq<SentMessage>, k: Keyed, n: nat)
    requires KeyedShape(plan, k)
    requires k.hellos + |k.keys| <= n <= |plan|
    ensures TextOf(plan[..n], server, CERTIFICATE_RULE) + TextOf(plan[..n], server, EXCHANGE_RULE) == NumberedText(k.keys, k.hellos)
  {
    hide WellFormed, Numbered, RawHandshake.Whole, SentOf, Hellos, NumberedText, LastOf, TailMessage, WrappedU16, TailShaped, Writable;
    PlanParts(plan, k);
    KeySent(k.keys, k.hellos);
    KeyText(k.keys, k.hellos);
    HelloCount(plan, k.hellos);
    var keys := SentOf(k.keys, k.hellos);
    var hellos, more := plan[..k.hellos], plan[k.hellos + |k.keys|..n];
    assert plan[..n] == hellos + keys + more;
    TailTwo(plan, k.hellos + |k.keys|, n);
    LastOfExtended(hellos + keys, more, Certificate, 0);
    LastOfExtended(hellos + keys, more, ClientKeyExchange, 0);
    var last := keys[|keys| - 1];
    if |keys| == 1 {
      assert hellos + keys == hellos + [last];
      LastOfSnoc(hellos, last);
      LastOfExtended(hellos, [last], Certificate, 0);
      LastOfNone(hellos, Certificate, 0);
    } else {
      assert hellos + keys == hellos + [keys[0]] + [last];
      LastOfSnoc(hellos + [keys[0]], last);
      LastOfExtended(hellos + [keys[0]], [last], Certificate, 0);
      LastOfSnoc(hellos, keys[0]);
    }
  }

  lemma TailTwo(plan: seq<SentMessage>, from: nat, n: nat)
    requires from <= n <= |plan| && forall m :: m in plan[from..] ==> TailMessage(m)
    ensures forall m :: m in plan[from..n] ==> m.h.typ != Certificate && m.h.typ != ClientKeyExchange && m.h.typ != ClientHello
  {
    forall m | m in plan[from..n]
      ensures TailMessage(m)
    {
      assert plan[from..n] <= plan[from..];
    }
  }

  /** Before the key messages the last two rules find nothing. */
  lemma NoKeysFound(hellos: seq<SentMessage>, server: seq<SentMessage>)
    requires forall m :: m in hellos ==> m.h.typ == ClientHello && m.epoch == 0
    ensures TextOf(hellos, server, CERTIFICATE_RULE) == [] && TextOf(hellos, server, EXCHANGE_RULE) == []
  {
    LastOfNone(hellos, Certificate, 0);
    LastOfNone(hellos, ClientKeyExchange, 0);
  }

  /** Messages of a later epoch than 0 do not matter to rules of epoch 0. */
  ghost predicate LaterEpoch(more: seq<SentMessage>) {
    forall m :: m in more ==> m.epoch != 0
  }

  lemma ServerRuleSame(client: seq<SentMessage>, client2: seq<SentMessage>, server: seq<SentMessage>, n: nat, r: Rule)
    requires n <= |server|
    requires !r.isClient && r.epoch == 0 && LaterEpoch(server[n..])
    ensures TextOf(client, server, r) == TextOf(client2, server[..n], r)
  {
    hide LastOf;
    assert server == server[..n] + server[n..];
    LastOfExtended(server[..n], server[n..], r.typ, 0);
  }

  lemma HelloRuleSame(plan: seq<SentMessage>, server: seq<SentMessage>, server2: seq<SentMessage>, k: Keyed, n: nat, r: Rule)
    requires KeyedShape(plan, k)
    requires k.hellos + |k.keys| <= n <= |plan| && r.isClient && r.typ == ClientHello && r.epoch == 0
    ensures k.hellos <= |plan|
    ensures TextOf(plan[..n], server, r) == TextOf(plan[..k.hellos], server2, r)
  {
    hide SentOf, Hellos, LastOf, TailMessage, WellFormed, Numbered;
    PlanParts(plan, k);
    KeySent(k.keys, k.hellos);
    TailTwo(plan, k.hellos + |k.keys|, n);
    var keys := SentOf(k.keys, k.hellos);
    var more := keys + plan[k.hellos + |k.keys|..n];
    assert plan[..n] == plan[..k.hellos] + more;
    forall m | m in more
      ensures m.h.typ != ClientHello
    {
      if m in keys {
        var i :| 0 <= i < |keys| && keys[i] == m;
      }
    }
    LastOfExtended(plan[..k.hellos], more, ClientHello, 0);
  }

  lemma FlightTextSame(plan: seq<SentMessage>, server: seq<SentMessage>, k: Keyed, n: nat, a: nat)
    requires KeyedShape(plan, k)
    requires k.hellos + |k.keys| <= n <= |plan| && a <= |server| && LaterEpoch(server[a..])
    ensures k.hellos <= |plan|
    ensures Text(plan[..n], server, SERVER_FLIGHT_RULES) == Text(plan[..k.hellos], server[..a], SERVER_FLIGHT_RULES)
  {
    hide TextOf, KeyedShape, LaterEpoch, Writable, SentOf, Hellos;
    ClientParts(plan, k, n);
    var rules := SERVER_FLIGHT_RULES;
    forall r | r in rules
      ensures TextOf(plan[..n], server, r) == TextOf(plan[..k.hellos], server[..a], r)
    {
      if r.isClient {
        HelloRuleSame(plan, server, server[..a], k, n, r);
      } else {
        ServerRuleSame(plan[..n], plan[..k.hellos], server, a, r);
      }
    }
    TextSame(plan[..n], server, plan[..k.hellos], server[..a], rules);
  }

  lemma ClientParts(plan: seq<SentMessage>, k: Keyed, n: nat)
    requires KeyedShape(plan, k) && n <= |plan|
    ensures k.hellos <= |plan|
  {
    hide Writable, SentOf, TailShaped, KeyShaped;
  }

  lemma TextOfTwo(client: seq<SentMessage>, server: seq<SentMessage>)
    ensures Text(client, server, KEY_EXCHANGE_RULES)
         == Text(client, server, SERVER_FLIGHT_RULES) + (TextOf(client, server, CERTIFICATE_RULE) + TextOf(client, server, EXCHANGE_RULE))
  {
    hide TextOf;
    var last := [CERTIFICATE_RULE, EXCHANGE_RULE];
    assert KEY_EXCHANGE_RULES == SERVER_FLIGHT_RULES + last;
    TextConcat(client, server, SERVER_FLIGHT_RULES, last);
    assert last[1..] == [EXCHANGE_RULE] && [EXCHANGE_RULE][1..] == [];
    assert Text(client, server, [EXCHANGE_RULE]) == TextOf(client, server, EXCHANGE_RULE) + [];
  }

  /** The text of all messages up to the key exchange, from any longer pair of tables, is the text
      from the tables before flight 5 followed by what flight 5 predicts of itself. */
  lemma PredictedText(plan: seq<SentMessage>, server: seq<SentMessage>, k: Keyed, n: nat, a: nat)
    requires KeyedShape(plan, k)
    requires k.hellos + |k.keys| <= n <= |plan| && a <= |server| && LaterEpoch(server[a..])
    ensures k.hellos <= |plan|
    ensures Text(plan[..n], server, KEY_EXCHANGE_RULES)
         == Text(plan[..k.hellos], server[..a], KEY_EXCHANGE_RULES) + NumberedText(k.keys, k.hellos)
  {
    hide TextOf, KeyedShape, LaterEpoch, Text, NumberedText, Writable;
    FlightTextSame(plan, server, k, n, a);
    KeysFound(plan, server, k, n);
    HelloPart(plan, k);
    NoKeysFound(plan[..k.hellos], server[..a]);
    TextOfTwo(plan[..n], server);
    TextOfTwo(plan[..k.hellos], server[..a]);
    var text := Text(plan[..k.hellos], server[..a], SERVER_FLIGHT_RULES);
    assert text + ([] + []) == text;
  }

  lemma HelloPart(plan: seq<SentMessage>, k: Keyed)
    requires KeyedShape(plan, k)
    ensures k.hellos <= |plan| && forall m :: m in plan[..k.hellos] ==> m.h.typ == ClientHello && m.epoch == 0
  {
    hide Writable, SentOf;
  }

  /** For the Finished transcript, too, a server's later messages do not matter. */
  lemma FinishedTextSame(plan: seq<SentMessage>, server: seq<SentMessage>, a: nat)
    requires a <= |server| && LaterEpoch(server[a..])
    ensures Text(plan, server, FINISHED_RULES) == Text(plan, server[..a], FINISHED_RULES)
  {
    hide TextOf, LaterEpoch;
    var rules := FINISHED_RULES;
    forall r | r in rules
      ensures TextOf(plan, server, r) == TextOf(plan, server[..a], r)
    {
      if r.isClient {
        ClientRuleSame(plan, server, server[..a], r);
      } else {
        ServerRuleSame(plan, plan, server, a, r);
      }
    }
    TextSame(plan, server, plan, server[..a], rules);
  }

  lemma ClientRuleSame(plan: seq<SentMessage>, server: seq<SentMessage>, server2: seq<SentMessage>, r: Rule)
    requires r.isClient
    ensures TextOf(plan, server, r) == TextOf(plan, server2, r)
  {
  }

  // In the handshake

  /** After flight 4 the server has nothing more to say in epoch 0. */
  lemma ServerLater(plan: seq<SentMessage>, m: Machine, cfg: Config, crypto: Crypto, offer: seq<Draft>, n: nat)
    requires ServerScript(cfg, crypto, m, plan, Some(offer)) && n <= |plan| && 1 + |offer| <= n
    ensures LaterEpoch(plan[..n][1 + |offer|..])
  {
    hide Answered, Flight4Generated, WellFormed, FinishedAt, VerifyOnly;
    FinishedIs(m.state.localVerifyData, 1 + |offer|);
    forall x | x in plan[..n][1 + |offer|..]
      ensures x.epoch != 0
    {
      var i :| 0 <= i < |plan[..n][1 + |offer|..]| && plan[..n][1 + |offer|..][i] == x;
      assert x == plan[1 + |offer| + i];
    }
  }

  /** As soon as the server has the client's key messages, its cache yields what the client has
      hashed for the session and signed, before it had sent them. */
  lemma PredictionExact(u: Setup, h: Honest)
    requires SetupOk(u) && AllOk(u, h) && h.keyed.Some?
    requires h.net.server.Popped() >= h.keyed.Or(UNKEYED).hellos + |h.keyed.Or(UNKEYED).keys|
    ensures Merged(h.net.server.Cache(), KEY_EXCHANGE_RULES) == h.keyed.Or(UNKEYED).text
  {
    hide SetupOk, Base, ClientScript, ServerScript, ServerHeard, ServerKeys, ServerDone, AnswerOk, KeyedShape, Merged, Text,
         NumberedText, MasterSecret, RandomBytes, LaterEpoch, ClientKeyExchangeOf, PskOk, OwnPart, Unique, Signed,
         Reading.Ready, Table;
    var k, a, n := h.keyed.Or(UNKEYED), 1 + |h.offer.Or([])|, |h.net.server.sent|;
    CacheParts(u, h);
    BaseWorld(u, h);
    KeyedAnswered(u, h);
    assert h.net.server.sent == h.serverPlan[..n];
    var table := h.clientPlan[..h.net.server.Popped()];
    MergedIsText(h.net.server.Cache(), table, h.serverPlan[..n], KEY_EXCHANGE_RULES);
    ServerLater(h.serverPlan, h.server, u.server, u.crypto, h.offer.Or([]), n);
    PredictedText(h.clientPlan, h.serverPlan[..n], k, h.net.server.Popped(), a);
    assert h.serverPlan[..n][..a] == h.serverPlan[..a];
  }

  lemma KeyedAnswered(u: Setup, h: Honest)
    requires Scripts(u, h) && h.keyed.Some?
    ensures h.offer.Some? && h.net.client.Popped() >= 1 + |h.offer.Or([])|
  {
    hide FirstHello, Hellos, KeyedShape, ServerScript, ServerHeard, ServerKeys, ServerDone, AnswerOk, KeyedOk;
  }
}
