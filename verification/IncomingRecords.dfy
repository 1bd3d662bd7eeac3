/** What every run of the reader keeps: epochs, replays, and the queue. */
module IncomingRecords {
  import opened Wrappers
  import opened Bytes
  import opened Headers
  import opened Framing
  import opened CipherSuites
  import opened Reading

  /** Nothing that matters to epochs or replays has changed. */
  ghost predicate Unmoved(r: Reader, s: Reader) {
    s.remoteEpoch == r.remoteEpoch && s.delivered == r.delivered
    && (forall e: U16 :: Accepted(s.detectors, e) == Accepted(r.detectors, e))
  }

  /** The record with header `h`, never accepted before, has now been accepted. */
  ghost predicate AcceptedNow(r: Reader, s: Reader, h: RecordLayerHeader) {
    h.epoch <= r.remoteEpoch
    && h.sequenceNumber !in Accepted(r.detectors, h.epoch)
    && s.encrypted == r.encrypted
    && (forall e: U16 :: Accepted(s.detectors, e)
                      == Accepted(r.detectors, e) + (if e == h.epoch then {h.sequenceNumber} else {}))
  }

  /** The record without its protection. */
  function PlainOf(suite: Option<CipherSuite>, h: RecordLayerHeader, pkt: Bytes): Result<Bytes> {
    if h.epoch == 0 then Ok(pkt) else if Ready(suite) then suite.value.decrypt(pkt) else Err(UnexpectedEof)
  }

  predicate IsChangeCipherSpec(plain: Bytes) {
    var inner := RecordLayerHeader.Unmarshal(plain);
    inner.Ok? && inner.value.contentType == ContentType.ChangeCipherSpec
    && |plain| > RECORD_LAYER_HEADER_SIZE && plain[RECORD_LAYER_HEADER_SIZE] == 1
  }

  /** The epoch steps, by one, on a ChangeCipherSpec of the current epoch once the suite is ready. */
  ghost predicate EpochStep(r: Reader, s: Reader, suite: Option<CipherSuite>, h: RecordLayerHeader, pkt: Bytes) {
    h.epoch == r.remoteEpoch && Ready(suite)
    && PlainOf(suite, h, pkt).Ok? && IsChangeCipherSpec(PlainOf(suite, h, pkt).value)
    && s == WithAccepted(r.(detectors := PaddedDetectors(r.detectors, h.epoch)), h).(remoteEpoch := (r.remoteEpoch as int + 1) % 0x1_0000)
  }

  /** The body of the opened record is delivered, from an epoch between 1 and the current one. */
  ghost predicate Delivery(r: Reader, s: Reader, suite: Option<CipherSuite>, h: RecordLayerHeader, pkt: Bytes) {
    1 <= h.epoch <= r.remoteEpoch && s.remoteEpoch == r.remoteEpoch
    && PlainOf(suite, h, pkt).Ok? && |PlainOf(suite, h, pkt).value| >= RECORD_LAYER_HEADER_SIZE
    && s.delivered == r.delivered + [PlainOf(suite, h, pkt).value[RECORD_LAYER_HEADER_SIZE..]]
  }

  ghost predicate Effect(r: Reader, s: Reader, suite: Option<CipherSuite>, h: RecordLayerHeader, pkt: Bytes, enqueue: bool) {
    if s.encrypted != r.encrypted then
      enqueue && s.encrypted == r.encrypted + [pkt] && Unmoved(r, s) && s.buffer == r.buffer && s.cache == r.cache
    else
      || Unmoved(r, s)
      || (AcceptedNow(r, s, h)
          && (|| (s.remoteEpoch == r.remoteEpoch && s.delivered == r.delivered)
              || EpochStep(r, s, suite, h, pkt)
              || Delivery(r, s, suite, h, pkt)))
  }

  lemma AcceptedAfter(r: Reader, h: RecordLayerHeader)
    requires |r.detectors| > h.epoch
    ensures forall e: U16 :: Accepted(WithAccepted(r, h).detectors, e)
                          == Accepted(r.detectors, e) + (if e == h.epoch then {h.sequenceNumber} else {})
  {
  }

  lemma ContentEffect(r: Reader, suite: Option<CipherSuite>, h: RecordLayerHeader, pkt: Bytes, original: Bytes, enqueue: bool)
    requires |r.detectors| > h.epoch && |pkt| >= RECORD_LAYER_HEADER_SIZE
    requires h.epoch <= r.remoteEpoch && h.sequenceNumber !in Accepted(r.detectors, h.epoch)
    requires h.epoch == 0 || Ready(suite)
    requires PlainOf(suite, h, original) == Ok(pkt)
    requires h.epoch == 0 ==> pkt == original
    ensures Effect(r, Content(r, suite, h, pkt, enqueue).0, suite, h, original, enqueue)
  {
    hide RecordLayerHeader.Unmarshal, PaddedDetectors, PlainOf, Ready;
    AcceptedAfter(r, h);
    AlreadyPadded(r.detectors, h.epoch);
  }

  lemma AlreadyPadded(detectors: seq<set<U48>>, epoch: U16)
    requires |detectors| > epoch
    ensures PaddedDetectors(detectors, epoch) == detectors
  {
  }

  lemma OpenedEffect(r: Reader, suite: Option<CipherSuite>, h: RecordLayerHeader, pkt: Bytes, original: Bytes, enqueue: bool)
    requires |r.detectors| > h.epoch
    requires h.epoch <= r.remoteEpoch && h.sequenceNumber !in Accepted(r.detectors, h.epoch)
    requires h.epoch == 0 || Ready(suite)
    requires PlainOf(suite, h, original) == Ok(pkt)
    requires h.epoch == 0 ==> pkt == original
    ensures Effect(r, Opened(r, suite, h, pkt, enqueue).0, suite, h, original, enqueue)
  {
    hide Content, Drained, FragmentBuffers.Pushed;
    AcceptedAfter(r, h);
    if FragmentBuffers.Pushed(r.buffer, pkt).1 == Ok(false) {
      NotHandshakeLong(r.buffer, pkt);
      ContentEffect(r, suite, h, pkt, original, enqueue);
    }
  }

  /** Everything one record can do to the reader. */
  lemma HandledEffect(r: Reader, suite: Option<CipherSuite>, passes: Detector, pkt: Bytes, enqueue: bool)
    requires NeverTwice(passes)
    ensures var s := Handled(r, suite, passes, pkt, enqueue).0;
            match RecordLayerHeader.Unmarshal(pkt)
            case Err(_) => s == r
            case Ok(h) => Effect(r, s, suite, h, pkt, enqueue)
  {
    hide RecordLayerHeader.Unmarshal, Opened, Effect;
    match RecordLayerHeader.Unmarshal(pkt)
    case Err(_) =>
    case Ok(h) =>
      var s := Handled(r, suite, passes, pkt, enqueue).0;
      var padded := r.(detectors := PaddedDetectors(r.detectors, h.epoch));
      QuietEffect(r, r, suite, h, pkt, enqueue);
      QuietEffect(r, padded, suite, h, pkt, enqueue);
      if h.epoch <= r.remoteEpoch && passes(padded.detectors[h.epoch], h.sequenceNumber) {
        assert h.sequenceNumber !in padded.detectors[h.epoch];
        assert Accepted(padded.detectors, h.epoch) == padded.detectors[h.epoch];
        if h.epoch == 0 {
          OpenedEffect(padded, suite, h, pkt, pkt, enqueue);
          PaddedEffect(r, padded, s, suite, h, pkt, enqueue);
        } else if Ready(suite) && suite.value.decrypt(pkt).Ok? {
          OpenedEffect(padded, suite, h, suite.value.decrypt(pkt).value, pkt, enqueue);
          PaddedEffect(r, padded, s, suite, h, pkt, enqueue);
        }
      }
  }

  lemma QuietEffect(r: Reader, s: Reader, suite: Option<CipherSuite>, h: RecordLayerHeader, pkt: Bytes, enqueue: bool)
    requires s == r.(detectors := s.detectors) && forall e: U16 :: Accepted(s.detectors, e) == Accepted(r.detectors, e)
    ensures Effect(r, s, suite, h, pkt, enqueue) && Effect(r, Queued(s, pkt, enqueue), suite, h, pkt, enqueue)
  {
  }

  lemma PaddedEffect(r: Reader, padded: Reader, s: Reader, suite: Option<CipherSuite>, h: RecordLayerHeader, pkt: Bytes, enqueue: bool)
    requires padded == r.(detectors := PaddedDetectors(r.detectors, h.epoch))
    requires Effect(padded, s, suite, h, pkt, enqueue)
    ensures Effect(r, s, suite, h, pkt, enqueue)
  {
  }

  /** The epoch moves in no other case. */
  lemma EpochStepsIff(r: Reader, suite: Option<CipherSuite>, passes: Detector, pkt: Bytes, enqueue: bool, h: RecordLayerHeader)
    requires NeverTwice(passes) && RecordLayerHeader.Unmarshal(pkt) == Ok(h)
    ensures Handled(r, suite, passes, pkt, enqueue).0.remoteEpoch != r.remoteEpoch
       <==> h.epoch == r.remoteEpoch && Ready(suite)
            && passes(Accepted(r.detectors, h.epoch), h.sequenceNumber)
            && PlainOf(suite, h, pkt).Ok?
            && FragmentBuffers.Pushed(r.buffer, PlainOf(suite, h, pkt).value).1 == Ok(false)
            && IsChangeCipherSpec(PlainOf(suite, h, pkt).value)
  {
    hide Drained, FragmentBuffers.Pushed, RecordLayerHeader.Unmarshal, PaddedDetectors;
    var detectors := PaddedDetectors(r.detectors, h.epoch);
    assert Accepted(detectors, h.epoch) == detectors[h.epoch];
    if PlainOf(suite, h, pkt).Ok? && FragmentBuffers.Pushed(r.buffer, PlainOf(suite, h, pkt).value).1 == Ok(false) {
      NotHandshakeLong(r.buffer, PlainOf(suite, h, pkt).value);
    }
  }

  /** What passes the fragment buffer by, and leaves it as it is. */
  lemma PushedOther(b: FragmentBuffers.Buffer, pkt: Bytes)
    ensures FragmentBuffers.Pushed(b, pkt).1 == Ok(false)
       <==> FragmentBuffers.Size(b.cache) + |pkt| < FragmentBuffers.FRAGMENT_BUFFER_MAX_SIZE
            && match RecordLayerHeader.Unmarshal(pkt)
               case Ok(inner) => inner.contentType != ContentType.Handshake
               case Err(_) => false
    ensures FragmentBuffers.Pushed(b, pkt).1 == Ok(false) ==> |pkt| >= RECORD_LAYER_HEADER_SIZE
  {
    hide FragmentBuffers.Size, FragmentBuffers.PushedBody;
    if FragmentBuffers.Pushed(b, pkt).1 == Ok(false) {
      NotHandshakeLong(b, pkt);
    }
  }

  /** A fatal or closing alert or an error ends the work on a datagram, and on the queue. */
  predicate Stops(o: Outcome) {
    o.error.Some? || (o.alert.Some? && (o.alert.value.level == Fatal || o.alert.value.description == CLOSE_NOTIFY))
  }

  /** The record is of an epoch already reached, has passed its detector and opens to `plain`. */
  ghost predicate OpensAs(r: Reader, suite: Option<CipherSuite>, passes: Detector, pkt: Bytes, h: RecordLayerHeader, plain: Bytes) {
    h.epoch <= r.remoteEpoch && passes(Accepted(r.detectors, h.epoch), h.sequenceNumber)
    && (h.epoch == 0 || Ready(suite)) && PlainOf(suite, h, pkt) == Ok(plain)
  }

  lemma OpenedHandled(r: Reader, suite: Option<CipherSuite>, passes: Detector, pkt: Bytes, enqueue: bool, h: RecordLayerHeader, plain: Bytes)
    requires RecordLayerHeader.Unmarshal(pkt) == Ok(h) && OpensAs(r, suite, passes, pkt, h, plain)
    ensures Handled(r, suite, passes, pkt, enqueue)
         == Opened(r.(detectors := PaddedDetectors(r.detectors, h.epoch)), suite, h, plain, enqueue)
  {
    hide Opened, RecordLayerHeader.Unmarshal, PaddedDetectors;
    var detectors := PaddedDetectors(r.detectors, h.epoch);
    assert Accepted(detectors, h.epoch) == detectors[h.epoch];
  }

  /** What the content of a record must be for its number to be used up. */
  ghost predicate UsesNumber(r: Reader, suite: Option<CipherSuite>, h: RecordLayerHeader, plain: Bytes) {
    FragmentBuffers.Size(r.buffer.cache) + |plain| < FragmentBuffers.FRAGMENT_BUFFER_MAX_SIZE
    && match RecordLayerHeader.Unmarshal(plain)
       case Err(_) => false
       case Ok(inner) =>
         match inner.contentType
         case Handshake => FragmentBuffers.Pushed(r.buffer, plain).1 == Ok(true)
         case Alert => |plain| >= RECORD_LAYER_HEADER_SIZE + 2
         case ChangeCipherSpec => IsChangeCipherSpec(plain) && Ready(suite) && r.remoteEpoch == h.epoch
         case ApplicationData => h.epoch >= 1
         case Invalid => false
  }

  lemma OpenedAccepts(r: Reader, suite: Option<CipherSuite>, h: RecordLayerHeader, plain: Bytes, enqueue: bool)
    requires |r.detectors| > h.epoch
    ensures Accepted(Opened(r, suite, h, plain, enqueue).0.detectors, h.epoch)
         == Accepted(r.detectors, h.epoch) + if UsesNumber(r, suite, h, plain) then {h.sequenceNumber} else {}
  {
    hide Drained, FragmentBuffers.Pushed, FragmentBuffers.Size, RecordLayerHeader.Unmarshal;
    AcceptedAfter(r, h);
    PushedOther(r.buffer, plain);
    PushedHandshake(r.buffer, plain);
  }

  lemma PushedHandshake(b: FragmentBuffers.Buffer, pkt: Bytes)
    ensures FragmentBuffers.Pushed(b, pkt).1 == Ok(true) ==>
              FragmentBuffers.Size(b.cache) + |pkt| < FragmentBuffers.FRAGMENT_BUFFER_MAX_SIZE
              && RecordLayerHeader.Unmarshal(pkt).Ok? && RecordLayerHeader.Unmarshal(pkt).value.contentType == ContentType.Handshake
  {
    hide FragmentBuffers.Size, FragmentBuffers.PushedBody;
  }

  /** A number is used up exactly by a record that opens and has such a content; a forged or broken one
      leaves it to the real record. */
  lemma AcceptsIff(r: Reader, suite: Option<CipherSuite>, passes: Detector, pkt: Bytes, enqueue: bool, h: RecordLayerHeader)
    requires RecordLayerHeader.Unmarshal(pkt) == Ok(h)
    ensures Accepted(Handled(r, suite, passes, pkt, enqueue).0.detectors, h.epoch)
         == Accepted(r.detectors, h.epoch)
            + if exists plain :: OpensAs(r, suite, passes, pkt, h, plain) && UsesNumber(r, suite, h, plain) then {h.sequenceNumber} else {}
  {
    hide Opened, RecordLayerHeader.Unmarshal, PaddedDetectors, UsesNumber;
    var padded := r.(detectors := PaddedDetectors(r.detectors, h.epoch));
    assert Accepted(padded.detectors, h.epoch) == padded.detectors[h.epoch];
    if PlainOf(suite, h, pkt).Ok? {
      var plain := PlainOf(suite, h, pkt).value;
      OpenedAccepts(padded, suite, h, plain, enqueue);
      SameUse(r, padded, suite, h, plain);
      if OpensAs(r, suite, passes, pkt, h, plain) {
        OpenedHandled(r, suite, passes, pkt, enqueue, h, plain);
      }
    }
  }

  lemma SameUse(r: Reader, padded: Reader, suite: Option<CipherSuite>, h: RecordLayerHeader, plain: Bytes)
    requires padded == r.(detectors := padded.detectors)
    ensures UsesNumber(padded, suite, h, plain) <==> UsesNumber(r, suite, h, plain)
  {
    hide FragmentBuffers.Pushed, FragmentBuffers.Size, RecordLayerHeader.Unmarshal, Ready;
  }

  /** Records that wait: of the next epoch, or for keys that are not there yet. */
  ghost predicate Waits(r: Reader, suite: Option<CipherSuite>, passes: Detector, pkt: Bytes, h: RecordLayerHeader) {
    h.epoch == r.remoteEpoch as int + 1
    || (h.epoch <= r.remoteEpoch && !Ready(suite) && passes(Accepted(r.detectors, h.epoch), h.sequenceNumber)
        && (h.epoch >= 1 || (FragmentBuffers.Size(r.buffer.cache) + |pkt| < FragmentBuffers.FRAGMENT_BUFFER_MAX_SIZE
                             && IsChangeCipherSpec(pkt))))
  }

  /** A record goes to the queue exactly if it has to wait, and was not taken from there. */
  lemma QueuesIff(r: Reader, suite: Option<CipherSuite>, passes: Detector, pkt: Bytes, enqueue: bool, h: RecordLayerHeader)
    requires RecordLayerHeader.Unmarshal(pkt) == Ok(h)
    ensures Handled(r, suite, passes, pkt, enqueue).0.encrypted
         == if enqueue && Waits(r, suite, passes, pkt, h) then r.encrypted + [pkt] else r.encrypted
  {
    hide Drained, FragmentBuffers.Pushed, FragmentBuffers.Size, RecordLayerHeader.Unmarshal, PaddedDetectors;
    var detectors := PaddedDetectors(r.detectors, h.epoch);
    assert Accepted(detectors, h.epoch) == detectors[h.epoch];
    PushedOther(r.buffer, pkt);
  }

  /** Contents that end the work on a datagram: an alert, or something that must not be there. */
  ghost predicate EndsWork(r: Reader, h: RecordLayerHeader, plain: Bytes) {
    FragmentBuffers.Size(r.buffer.cache) + |plain| < FragmentBuffers.FRAGMENT_BUFFER_MAX_SIZE
    && match RecordLayerHeader.Unmarshal(plain)
       case Err(_) => false
       case Ok(inner) =>
         match inner.contentType
         case Handshake => false
         case ChangeCipherSpec => !IsChangeCipherSpec(plain)
         case ApplicationData => h.epoch == 0
         case Alert => true
         case Invalid => true
  }

  lemma OpenedStops(r: Reader, suite: Option<CipherSuite>, h: RecordLayerHeader, plain: Bytes, enqueue: bool)
    requires |r.detectors| > h.epoch
    ensures Stops(Opened(r, suite, h, plain, enqueue).1) <==> EndsWork(r, h, plain)
  {
    hide Drained, FragmentBuffers.Pushed, FragmentBuffers.Size, RecordLayerHeader.Unmarshal, Ready;
    PushedOther(r.buffer, plain);
  }

  /** With a pre-shared key a record that does not open ends the work, too. */
  ghost predicate BreaksKey(r: Reader, suite: Option<CipherSuite>, passes: Detector, pkt: Bytes, h: RecordLayerHeader) {
    1 <= h.epoch <= r.remoteEpoch && passes(Accepted(r.detectors, h.epoch), h.sequenceNumber)
    && Ready(suite) && suite.value.isPsk && suite.value.decrypt(pkt).Err?
  }

  lemma StopsIff(r: Reader, suite: Option<CipherSuite>, passes: Detector, pkt: Bytes, enqueue: bool, h: RecordLayerHeader)
    requires RecordLayerHeader.Unmarshal(pkt) == Ok(h)
    ensures Stops(Handled(r, suite, passes, pkt, enqueue).1)
       <==> (exists plain :: OpensAs(r, suite, passes, pkt, h, plain) && EndsWork(r, h, plain)) || BreaksKey(r, suite, passes, pkt, h)
  {
    hide Opened, RecordLayerHeader.Unmarshal, PaddedDetectors;
    var padded := r.(detectors := PaddedDetectors(r.detectors, h.epoch));
    assert Accepted(padded.detectors, h.epoch) == padded.detectors[h.epoch];
    if PlainOf(suite, h, pkt).Ok? {
      var plain := PlainOf(suite, h, pkt).value;
      OpenedStops(padded, suite, h, plain, enqueue);
      if OpensAs(r, suite, passes, pkt, h, plain) {
        OpenedHandled(r, suite, passes, pkt, enqueue, h, plain);
      }
    }
  }

  /** An alert is answered with itself, and a close_notify with a close_notify (section 7.2.1 of RFC 5246). */
  lemma AlertAnswered(r: Reader, suite: Option<CipherSuite>, passes: Detector, pkt: Bytes, enqueue: bool, h: RecordLayerHeader, plain: Bytes)
    requires RecordLayerHeader.Unmarshal(pkt) == Ok(h) && OpensAs(r, suite, passes, pkt, h, plain)
    requires FragmentBuffers.Size(r.buffer.cache) + |plain| < FragmentBuffers.FRAGMENT_BUFFER_MAX_SIZE
    requires match RecordLayerHeader.Unmarshal(plain) case Ok(inner) => inner.contentType == ContentType.Alert case Err(_) => false
    requires |plain| >= RECORD_LAYER_HEADER_SIZE + 2
    ensures var o := Handled(r, suite, passes, pkt, enqueue).1;
            o.error == Some(AlertReceived) && o.alert.Some? && o.alert.value.description == plain[RECORD_LAYER_HEADER_SIZE + 1]
            && o.alert.value.level == if plain[RECORD_LAYER_HEADER_SIZE + 1] == CLOSE_NOTIFY || plain[RECORD_LAYER_HEADER_SIZE] == 1 then Warning
                                      else if plain[RECORD_LAYER_HEADER_SIZE] == 2 then AlertLevel.Fatal else InvalidLevel
  {
    hide FragmentBuffers.Pushed, FragmentBuffers.Size, RecordLayerHeader.Unmarshal, PaddedDetectors, Handled;
    OpenedHandled(r, suite, passes, pkt, enqueue, h, plain);
    PushedOther(r.buffer, plain);
  }

  /** A fresh record of a protected epoch already reached that opens to application data. */
  ghost predicate Deliverable(r: Reader, suite: Option<CipherSuite>, passes: Detector, pkt: Bytes, h: RecordLayerHeader) {
    1 <= h.epoch <= r.remoteEpoch && Ready(suite)
    && passes(Accepted(r.detectors, h.epoch), h.sequenceNumber)
    && var plain := PlainOf(suite, h, pkt);
       plain.Ok? && |plain.value| >= RECORD_LAYER_HEADER_SIZE
       && FragmentBuffers.Size(r.buffer.cache) + |plain.value| < FragmentBuffers.FRAGMENT_BUFFER_MAX_SIZE
       && match RecordLayerHeader.Unmarshal(plain.value)
          case Ok(inner) => inner.contentType == ContentType.ApplicationData
          case Err(_) => false
  }

  /** Application data is delivered, and exactly the body of the opened record, in this case and no other. */
  lemma DeliversIff(r: Reader, suite: Option<CipherSuite>, passes: Detector, pkt: Bytes, enqueue: bool, h: RecordLayerHeader)
    requires RecordLayerHeader.Unmarshal(pkt) == Ok(h)
    ensures var s := Handled(r, suite, passes, pkt, enqueue).0;
            s.delivered == if Deliverable(r, suite, passes, pkt, h)
                           then r.delivered + [PlainOf(suite, h, pkt).value[RECORD_LAYER_HEADER_SIZE..]] else r.delivered
  {
    hide Drained, FragmentBuffers.Pushed, FragmentBuffers.Size, RecordLayerHeader.Unmarshal, PaddedDetectors;
    var detectors := PaddedDetectors(r.detectors, h.epoch);
    assert Accepted(detectors, h.epoch) == detectors[h.epoch];
    if PlainOf(suite, h, pkt).Ok? {
      PushedOther(r.buffer, PlainOf(suite, h, pkt).value);
    }
  }

  // Whole runs

  /** A run with its history: the numbers of the records delivered, all records that have arrived, and
      every look at one. */
  datatype Trace = Trace(reader: Reader, keys: seq<(U16, U48)>, examined: multiset<Bytes>, arrived: multiset<Bytes>)

  datatype Event = Datagram(buf: Bytes, suite: Option<CipherSuite>) | Queue(suite: Option<CipherSuite>)

  ghost function KeyOf(pkt: Bytes): (U16, U48) {
    match RecordLayerHeader.Unmarshal(pkt) case Err(_) => (0, 0) case Ok(h) => (h.epoch, h.sequenceNumber)
  }

  ghost function Examined(t: Trace, suite: Option<CipherSuite>, passes: Detector, pkt: Bytes, enqueue: bool): Trace {
    var s := Handled(t.reader, suite, passes, pkt, enqueue).0;
    Trace(s, if s.delivered == t.reader.delivered then t.keys else t.keys + [KeyOf(pkt)],
          t.examined + multiset{pkt}, if enqueue then t.arrived + multiset{pkt} else t.arrived)
  }

  ghost function ExaminedAll(t: Trace, suite: Option<CipherSuite>, passes: Detector, pkts: seq<Bytes>, enqueue: bool): Trace
    decreases |pkts|
  {
    if pkts == [] then
      t
    else
      var next := Examined(t, suite, passes, pkts[0], enqueue);
      if Stops(Handled(t.reader, suite, passes, pkts[0], enqueue).1) then next
      else ExaminedAll(next, suite, passes, pkts[1..], enqueue)
  }

  /** A datagram that does not unpack is dropped whole; the queue is emptied before it is worked on. */
  ghost function Reacted(t: Trace, passes: Detector, event: Event): Trace {
    match event
    case Datagram(buf, suite) =>
      (match Unpacked(buf)
       case Err(_) => t
       case Ok(pkts) => ExaminedAll(t, suite, passes, pkts, true))
    case Queue(suite) =>
      ExaminedAll(t.(reader := t.reader.(encrypted := [])), suite, passes, t.reader.encrypted, false)
  }

  ghost function RunOf(t: Trace, passes: Detector, events: seq<Event>): Trace
    decreases |events|
  {
    if events == [] then t else RunOf(Reacted(t, passes, events[0]), passes, events[1..])
  }

  ghost predicate NoReplay(t: Trace) {
    |t.keys| == |t.reader.delivered|
    && (forall i :: 0 <= i < |t.keys| ==> 1 <= t.keys[i].0 && t.keys[i].1 in Accepted(t.reader.detectors, t.keys[i].0))
    && (forall i, j :: 0 <= i < j < |t.keys| ==> t.keys[i] != t.keys[j])
  }

  /** `pending` records taken from the queue are still to be looked at. */
  ghost predicate QueueLaw(t: Trace, pending: seq<Bytes>) {
    forall pkt :: t.examined[pkt] + multiset(t.reader.encrypted)[pkt] + multiset(pending)[pkt] <= 2 * t.arrived[pkt]
  }

  lemma ExaminedKeeps(t: Trace, suite: Option<CipherSuite>, passes: Detector, pkt: Bytes, enqueue: bool)
    requires NeverTwice(passes) && NoReplay(t)
    ensures NoReplay(Examined(t, suite, passes, pkt, enqueue))
    ensures var u := Examined(t, suite, passes, pkt, enqueue);
            u.reader.encrypted == t.reader.encrypted || (enqueue && u.reader.encrypted == t.reader.encrypted + [pkt])
  {
    hide Handled, RecordLayerHeader.Unmarshal, Accepted;
    HandledEffect(t.reader, suite, passes, pkt, enqueue);
    var u := Examined(t, suite, passes, pkt, enqueue);
    if u.reader.delivered != t.reader.delivered {
      var h := RecordLayerHeader.Unmarshal(pkt).value;
      assert AcceptedNow(t.reader, u.reader, h) && Delivery(t.reader, u.reader, suite, h, pkt);
      assert KeyOf(pkt) == (h.epoch, h.sequenceNumber);
    }
  }

  /** A record that arrives may be queued; one that is taken from the queue is not queued again. */
  lemma QueueLawKept(t: Trace, u: Trace, pkt: Bytes, pending: seq<Bytes>, enqueue: bool)
    requires QueueLaw(t, if enqueue then pending else [pkt] + pending)
    requires u.examined == t.examined + multiset{pkt} && u.arrived == if enqueue then t.arrived + multiset{pkt} else t.arrived
    requires u.reader.encrypted == t.reader.encrypted || (enqueue && u.reader.encrypted == t.reader.encrypted + [pkt])
    ensures QueueLaw(u, pending)
  {
    forall p
      ensures u.examined[p] + multiset(u.reader.encrypted)[p] + multiset(pending)[p] <= 2 * u.arrived[p]
    {
      assert multiset([pkt] + pending)[p] == (if p == pkt then 1 else 0) + multiset(pending)[p];
      assert multiset(t.reader.encrypted + [pkt])[p] == multiset(t.reader.encrypted)[p] + (if p == pkt then 1 else 0);
    }
  }

  lemma FewerPending(t: Trace, pending: seq<Bytes>)
    requires QueueLaw(t, pending)
    ensures QueueLaw(t, [])
  {
    forall p
      ensures t.examined[p] + multiset(t.reader.encrypted)[p] <= 2 * t.arrived[p]
    {
      assert multiset(pending)[p] >= 0;
    }
  }

  lemma {:induction false} ExaminedAllKeeps(t: Trace, suite: Option<CipherSuite>, passes: Detector, pkts: seq<Bytes>, enqueue: bool)
    requires NeverTwice(passes) && NoReplay(t)
    requires QueueLaw(t, if enqueue then [] else pkts)
    ensures NoReplay(ExaminedAll(t, suite, passes, pkts, enqueue))
    ensures QueueLaw(ExaminedAll(t, suite, passes, pkts, enqueue), [])
    decreases |pkts|
  {
    hide Handled, NoReplay, QueueLaw;
    if pkts == [] {
      FewerPending(t, if enqueue then [] else pkts);
    } else {
      var u := Examined(t, suite, passes, pkts[0], enqueue);
      ExaminedKeeps(t, suite, passes, pkts[0], enqueue);
      assert [pkts[0]] + pkts[1..] == pkts;
      QueueLawKept(t, u, pkts[0], if enqueue then [] else pkts[1..], enqueue);
      FewerPending(u, if enqueue then [] else pkts[1..]);
      if !Stops(Handled(t.reader, suite, passes, pkts[0], enqueue).1) {
        ExaminedAllKeeps(Examined(t, suite, passes, pkts[0], enqueue), suite, passes, pkts[1..], enqueue);
      }
    }
  }

  /** In every run, from any reader that has delivered nothing: no (epoch, sequence) pair is delivered
      twice, none from epoch 0, and each record is looked at at most twice for every time it has
      arrived, its place in the queue counting as a look to come. */
  lemma {:induction false} EveryRun(t: Trace, passes: Detector, events: seq<Event>)
    requires NeverTwice(passes) && NoReplay(t) && QueueLaw(t, [])
    ensures NoReplay(RunOf(t, passes, events)) && QueueLaw(RunOf(t, passes, events), [])
    decreases |events|
  {
    hide NoReplay, ExaminedAll, QueueLaw;
    if events != [] {
      match events[0] {
        case Datagram(buf, suite) =>
          if Unpacked(buf).Ok? {
            ExaminedAllKeeps(t, suite, passes, Unpacked(buf).value, true);
          }
        case Queue(suite) =>
          EmptiedQueue(t);
          ExaminedAllKeeps(t.(reader := t.reader.(encrypted := [])), suite, passes, t.reader.encrypted, false);
      }
      EveryRun(Reacted(t, passes, events[0]), passes, events[1..]);
    }
  }

  lemma EmptiedQueue(t: Trace)
    requires NoReplay(t) && QueueLaw(t, [])
    ensures NoReplay(t.(reader := t.reader.(encrypted := [])))
    ensures QueueLaw(t.(reader := t.reader.(encrypted := [])), t.reader.encrypted)
  {
  }
}
