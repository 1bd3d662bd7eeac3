/** No record number is ever used twice (RFC 6347, section 4.1). */
module RecordNumbers {
  import opened Wrappers
  import opened Bytes
  import opened Headers
  import opened CipherSuites
  import opened Fragmenting
  import opened Sending

  /** The epoch and sequence number on the wire. */
  function Number(record: Bytes): (U16, U48)
    requires |record| >= 11
  {
    (ReadU16(record, 3), ReadU48(record, 5))
  }

  /** `records` use numbers of the range from `low` to `high`, in increasing order in each epoch. */
  ghost predicate NumberedBetween(records: seq<Bytes>, low: seq<nat>, high: seq<nat>) {
    (forall e: U16 :: Counter(low, e) <= Counter(high, e))
    && (forall i :: 0 <= i < |records| ==>
          |records[i]| >= 11
          && Counter(low, Number(records[i]).0) <= Number(records[i]).1 < Counter(high, Number(records[i]).0))
    && (forall i, j :: 0 <= i < j < |records| && Number(records[i]).0 == Number(records[j]).0 ==>
          Number(records[i]).1 < Number(records[j]).1)
  }

  lemma NumberedConcat(a: seq<Bytes>, b: seq<Bytes>, low: seq<nat>, middle: seq<nat>, high: seq<nat>)
    requires NumberedBetween(a, low, middle) && NumberedBetween(b, middle, high)
    ensures NumberedBetween(a + b, low, high)
  {
  }

  lemma SealedNumber(suite: Option<CipherSuite>, p: Packet, t: ContentType, sequence: U48, body: Bytes)
    requires suite.Some? ==> KeepsHeader(suite.value)
    requires SealedRecord(suite, p, t, sequence, body).Ok?
    ensures |SealedRecord(suite, p, t, sequence, body).value| >= RECORD_LAYER_HEADER_SIZE
    ensures Number(SealedRecord(suite, p, t, sequence, body).value) == (p.epoch, sequence)
  {
  }

  lemma {:induction false} RecordsNumbered(lsn: seq<nat>, suite: Option<CipherSuite>, p: Packet, t: ContentType, bodies: seq<Bytes>)
    requires suite.Some? ==> KeepsHeader(suite.value)
    ensures forall e: U16 :: Counter(lsn, e) <= Counter(RecordsOf(lsn, suite, p, t, bodies).0, e)
    ensures RecordsOf(lsn, suite, p, t, bodies).1.Ok? ==>
              NumberedBetween(RecordsOf(lsn, suite, p, t, bodies).1.value, lsn, RecordsOf(lsn, suite, p, t, bodies).0)
    decreases |bodies|
  {
    hide KeepsHeader, SealedRecord, NumberedBetween;
    if bodies == [] {
      NothingNumbered(lsn, lsn);
    } else {
      var next := Bumped(lsn, p.epoch);
      RecordsNumbered(next, suite, p, t, bodies[1..]);
      var sequence := Stamp(lsn, p.epoch);
      if sequence.Ok? {
        var record := SealedRecord(suite, p, t, sequence.value, bodies[0]);
        var (last, rest) := RecordsOf(next, suite, p, t, bodies[1..]);
        if record.Ok? && rest.Ok? {
          SealedNumber(suite, p, t, sequence.value, bodies[0]);
          OneNumbered(record.value, p.epoch, sequence.value, lsn);
          NumberedConcat([record.value], rest.value, lsn, next, last);
        }
      }
    }
  }

  lemma OneNumbered(record: Bytes, epoch: U16, sequence: U48, lsn: seq<nat>)
    requires |record| >= RECORD_LAYER_HEADER_SIZE && Number(record) == (epoch, sequence)
    requires sequence == Counter(lsn, epoch)
    ensures NumberedBetween([record], lsn, Bumped(lsn, epoch))
  {
  }

  lemma NothingNumbered(low: seq<nat>, high: seq<nat>)
    requires forall e: U16 :: Counter(low, e) <= Counter(high, e)
    ensures NumberedBetween([], low, high)
  {
  }

  lemma {:induction false} RawNumbered(s: SenderState, suite: Option<CipherSuite>, mtu: Mtu, isClient: bool, pkts: seq<Packet>)
    requires suite.Some? ==> KeepsHeader(suite.value)
    ensures forall e: U16 :: Counter(s.lsn, e) <= Counter(Raw(s, suite, mtu, isClient, pkts).0.lsn, e)
    ensures Raw(s, suite, mtu, isClient, pkts).1.Ok? ==>
              NumberedBetween(Raw(s, suite, mtu, isClient, pkts).1.value, s.lsn, Raw(s, suite, mtu, isClient, pkts).0.lsn)
    decreases |pkts|
  {
    hide KeepsHeader, RecordsOf, BodiesOf, NumberedBetween, CachedBefore;
    if pkts == [] {
      NothingNumbered(s.lsn, s.lsn);
    } else {
      assert pkts[0] in pkts;
      assert forall p :: p in pkts[1..] ==> p in pkts;
      var cache := CachedBefore(s.cache, pkts[0], isClient);
      var (lsn, first) := RecordsOf(s.lsn, suite, pkts[0], TypeOf(pkts[0]), BodiesOf(pkts[0], mtu));
      RecordsNumbered(s.lsn, suite, pkts[0], TypeOf(pkts[0]), BodiesOf(pkts[0], mtu));
      if first.Ok? {
        var next := SenderState(lsn, cache);
        RawNumbered(next, suite, mtu, isClient, pkts[1..]);
        var (last, rest) := Raw(next, suite, mtu, isClient, pkts[1..]);
        if rest.Ok? {
          NumberedConcat(first.value, rest.value, s.lsn, lsn, last.lsn);
        }
      }
    }
  }

  // Whole runs

  /** One call of the sender; retransmissions are calls with packets of an earlier call. */
  datatype Call = Call(suite: Option<CipherSuite>, pkts: seq<Packet>)

  ghost predicate Callable(call: Call) {
    call.suite.Some? ==> KeepsHeader(call.suite.value)
  }

  /** All records that leave during a run. A call that fails sends nothing. */
  ghost function RunRecords(s: SenderState, mtu: Mtu, isClient: bool, calls: seq<Call>): (SenderState, seq<Bytes>)
    decreases |calls|
  {
    if calls == [] then
      (s, [])
    else
      var (next, raw) := Raw(s, calls[0].suite, mtu, isClient, calls[0].pkts);
      var (last, rest) := RunRecords(next, mtu, isClient, calls[1..]);
      (last, (if raw.Ok? then raw.value else []) + rest)
  }

  lemma {:induction false} RunNumbered(s: SenderState, mtu: Mtu, isClient: bool, calls: seq<Call>)
    requires forall c :: c in calls ==> Callable(c)
    ensures NumberedBetween(RunRecords(s, mtu, isClient, calls).1, s.lsn, RunRecords(s, mtu, isClient, calls).0.lsn)
    decreases |calls|
  {
    hide Raw, NumberedBetween, Counter;
    if calls == [] {
      NothingNumbered(s.lsn, s.lsn);
    } else {
      assert calls[0] in calls;
      assert forall c :: c in calls[1..] ==> c in calls;
      var (next, raw) := Raw(s, calls[0].suite, mtu, isClient, calls[0].pkts);
      RawNumbered(s, calls[0].suite, mtu, isClient, calls[0].pkts);
      RunNumbered(next, mtu, isClient, calls[1..]);
      var (last, rest) := RunRecords(next, mtu, isClient, calls[1..]);
      var sent := if raw.Ok? then raw.value else [];
      if raw.Err? {
        NothingNumbered(s.lsn, next.lsn);
      }
      NumberedConcat(sent, rest, s.lsn, next.lsn, last.lsn);
    }
  }

  /** Across all sends and retransmissions no two records share epoch and sequence number; in one
      epoch the numbers increase. */
  lemma NumbersNeverReused(s: SenderState, mtu: Mtu, isClient: bool, calls: seq<Call>, i: nat, j: nat)
    requires forall c :: c in calls ==> Callable(c)
    requires i < j < |RunRecords(s, mtu, isClient, calls).1|
    ensures var records := RunRecords(s, mtu, isClient, calls).1;
            |records[i]| >= 11 && |records[j]| >= 11
            && Number(records[i]) != Number(records[j])
            && (Number(records[i]).0 == Number(records[j]).0 ==> Number(records[i]).1 < Number(records[j]).1)
  {
    RunNumbered(s, mtu, isClient, calls);
  }

  lemma BodiesExist(p: Packet, mtu: Mtu)
    ensures BodiesOf(p, mtu) != []
  {
  }

  /** Once an epoch has used all its numbers, every call with a packet of that epoch fails and sends
      nothing, and stays that way. */
  lemma {:induction false} NumberingStops(s: SenderState, suite: Option<CipherSuite>, mtu: Mtu, isClient: bool, pkts: seq<Packet>, epoch: U16)
    requires suite.Some? ==> KeepsHeader(suite.value)
    requires Counter(s.lsn, epoch) > MAX_SEQUENCE_NUMBER
    ensures Counter(Raw(s, suite, mtu, isClient, pkts).0.lsn, epoch) > MAX_SEQUENCE_NUMBER
    ensures (exists p :: p in pkts && p.epoch == epoch) ==> Raw(s, suite, mtu, isClient, pkts).1.Err?
    decreases |pkts|
  {
    hide SealedRecord, KeepsHeader, CachedBefore, Counter, BodiesOf;
    RawNumbered(s, suite, mtu, isClient, pkts);
    if pkts != [] {
      assert pkts[0] in pkts;
      assert forall p :: p in pkts <==> p == pkts[0] || p in pkts[1..];
      BodiesExist(pkts[0], mtu);
      RecordsNumbered(s.lsn, suite, pkts[0], TypeOf(pkts[0]), BodiesOf(pkts[0], mtu));
      var (lsn, first) := RecordsOf(s.lsn, suite, pkts[0], TypeOf(pkts[0]), BodiesOf(pkts[0], mtu));
      if first.Ok? {
        NumberingStops(SenderState(lsn, CachedBefore(s.cache, pkts[0], isClient)), suite, mtu, isClient, pkts[1..], epoch);
      }
    }
  }
}
