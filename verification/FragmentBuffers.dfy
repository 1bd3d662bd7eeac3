/** The receiver's buffer of handshake fragments: keyed by message number, released in order. */
module FragmentBuffers {
  import opened Wrappers
  import opened Bytes
  import opened Headers

  // 2 mb max buffer size
  const FRAGMENT_BUFFER_MAX_SIZE := 2_000_000

  datatype Fragment = Fragment(recordHeader: RecordLayerHeader, handshakeHeader: HandshakeHeader, data: Bytes) {

    function End(): nat {
      handshakeHeader.fragmentOffset as int + handshakeHeader.fragmentLength as int
    }

    /** A fragment that ends its chain: it reaches the declared length, or it is empty. */
    predicate Last() {
      End() == handshakeHeader.length || handshakeHeader.fragmentLength == 0
    }
  }

  type FragmentMap = map<U16, seq<Fragment>>

  datatype Buffer = Buffer(cache: FragmentMap, current: U16)

  const EMPTY_BUFFER := Buffer(map[], 0)

  function FragmentsAt(cache: FragmentMap, sequence: U16): seq<Fragment> {
    if sequence in cache then cache[sequence] else []
  }

  // Size

  function DataSize(fragments: seq<Fragment>): nat {
    if fragments == [] then 0 else |fragments[0].data| + DataSize(fragments[1..])
  }

  ghost function SizeBelow(cache: FragmentMap, bound: nat): nat
    requires bound <= 0x1_0000
  {
    if bound == 0 then 0 else SizeBelow(cache, bound - 1) + DataSize(FragmentsAt(cache, bound - 1))
  }

  /** Bytes of payload buffered. */
  ghost function Size(cache: FragmentMap): nat {
    SizeBelow(cache, 0x1_0000)
  }

  lemma {:induction false} DataSizeSnoc(fragments: seq<Fragment>, f: Fragment)
    ensures DataSize(fragments + [f]) == DataSize(fragments) + |f.data|
  {
    if fragments == [] {
      assert DataSize([f]) == |f.data| + DataSize([f][1..]);
    } else {
      assert (fragments + [f])[1..] == fragments[1..] + [f];
      DataSizeSnoc(fragments[1..], f);
    }
  }

  /** Changing one entry changes the total by as much. */
  lemma {:induction false} SizeBelowOneEntry(a: FragmentMap, b: FragmentMap, key: U16, bound: nat)
    requires bound <= 0x1_0000
    requires forall k: U16 :: k != key ==> FragmentsAt(a, k) == FragmentsAt(b, k)
    ensures key < bound ==>
              SizeBelow(b, bound) == SizeBelow(a, bound) - DataSize(FragmentsAt(a, key)) + DataSize(FragmentsAt(b, key))
    ensures key >= bound ==> SizeBelow(b, bound) == SizeBelow(a, bound)
  {
    if bound > 0 {
      SizeBelowOneEntry(a, b, key, bound - 1);
      if bound - 1 != key {
        assert FragmentsAt(a, bound - 1) == FragmentsAt(b, bound - 1);
      }
    }
  }

  lemma {:induction false} SizeBelowEmpty(bound: nat)
    requires bound <= 0x1_0000
    ensures SizeBelow(map[], bound) == 0
  {
    if bound > 0 {
      SizeBelowEmpty(bound - 1);
    }
  }

  // Push

  function Added(cache: FragmentMap, f: Fragment): FragmentMap {
    cache[f.handshakeHeader.messageSequence := FragmentsAt(cache, f.handshakeHeader.messageSequence) + [f]]
  }

  /** The fragments of a record body, each taken up to the length of its whole message or to the end
      of the record. A bad header stops the scan; what was read before it stays. */
  function PushedBody(cache: FragmentMap, recordHeader: RecordLayerHeader, buf: Bytes): (FragmentMap, Result<bool>)
    decreases |buf|
  {
    if buf == [] then
      (cache, Ok(true))
    else
      match HandshakeHeader.Unmarshal(buf)
      case Err(error) => (cache, Err(error))
      case Ok(header) =>
        var end := BodyEnd(header, buf);
        PushedBody(Added(cache, Fragment(recordHeader, header, buf[HANDSHAKE_HEADER_LENGTH..end])), recordHeader, buf[end..])
  }

  function BodyEnd(header: HandshakeHeader, buf: Bytes): (end: nat)
    requires |buf| >= HANDSHAKE_HEADER_LENGTH
    ensures HANDSHAKE_HEADER_LENGTH <= end <= |buf|
  {
    var end := HANDSHAKE_HEADER_LENGTH + header.length as int;
    if end > |buf| then |buf| else end
  }

  ghost function Pushed(b: Buffer, buf: Bytes): (Buffer, Result<bool>) {
    if Size(b.cache) + |buf| >= FRAGMENT_BUFFER_MAX_SIZE then
      (b, Err(FragmentBufferOverflow))
    else
      match RecordLayerHeader.Unmarshal(buf)
      case Err(error) => (b, Err(error))
      case Ok(header) =>
        if header.contentType != ContentType.Handshake then
          (b, Ok(false))
        else
          var (cache, result) := PushedBody(b.cache, header, buf[RECORD_LAYER_HEADER_SIZE..]);
          (b.(cache := cache), result)
  }

  lemma AddedSize(cache: FragmentMap, f: Fragment)
    ensures Size(Added(cache, f)) == Size(cache) + |f.data|
  {
    var key := f.handshakeHeader.messageSequence;
    DataSizeSnoc(FragmentsAt(cache, key), f);
    SizeBelowOneEntry(cache, Added(cache, f), key, 0x1_0000);
  }

  lemma {:induction false} PushedBodySize(cache: FragmentMap, recordHeader: RecordLayerHeader, buf: Bytes)
    ensures Size(cache) <= Size(PushedBody(cache, recordHeader, buf).0) <= Size(cache) + |buf|
    decreases |buf|
  {
    hide HandshakeHeader.Unmarshal, Size;
    if buf != [] && HandshakeHeader.Unmarshal(buf).Ok? {
      HeaderNeedsTwelve(buf);
      var header := HandshakeHeader.Unmarshal(buf).value;
      var end := BodyEnd(header, buf);
      var f := Fragment(recordHeader, header, buf[HANDSHAKE_HEADER_LENGTH..end]);
      AddedSize(cache, f);
      PushedBodySize(Added(cache, f), recordHeader, buf[end..]);
    }
  }

  lemma HeaderNeedsTwelve(buf: Bytes)
    requires HandshakeHeader.Unmarshal(buf).Ok?
    ensures |buf| >= HANDSHAKE_HEADER_LENGTH
  {
  }

  /** The payload stays below the limit after every push, also one that fails midway; only a record
      of handshake type changes anything, and the position never moves. */
  lemma PushBounded(b: Buffer, buf: Bytes)
    requires Size(b.cache) < FRAGMENT_BUFFER_MAX_SIZE
    ensures Size(b.cache) <= Size(Pushed(b, buf).0.cache) < FRAGMENT_BUFFER_MAX_SIZE
    ensures Pushed(b, buf).0.current == b.current
    ensures Pushed(b, buf).1 == Ok(false) ==> Pushed(b, buf).0 == b
  {
    hide Size, PushedBody;
    if Size(b.cache) + |buf| < FRAGMENT_BUFFER_MAX_SIZE && RecordLayerHeader.Unmarshal(buf).Ok? {
      var header := RecordLayerHeader.Unmarshal(buf).value;
      PushedBodySize(b.cache, header, buf[RECORD_LAYER_HEADER_SIZE..]);
      PushedBodyResult(b.cache, header, buf[RECORD_LAYER_HEADER_SIZE..]);
    }
  }

  lemma {:induction false} PushedBodyResult(cache: FragmentMap, recordHeader: RecordLayerHeader, buf: Bytes)
    ensures PushedBody(cache, recordHeader, buf).1 != Ok(false)
    decreases |buf|
  {
    if buf != [] && HandshakeHeader.Unmarshal(buf).Ok? {
      var header := HandshakeHeader.Unmarshal(buf).value;
      var end := BodyEnd(header, buf);
      PushedBodyResult(Added(cache, Fragment(recordHeader, header, buf[HANDSHAKE_HEADER_LENGTH..end])), recordHeader, buf[end..]);
    }
  }

  // Pop

  function FirstAt(fragments: seq<Fragment>, target: nat): (r: Option<Fragment>)
    ensures r.Some? ==> r.value in fragments && r.value.handshakeHeader.fragmentOffset == target
    ensures r.None? ==> forall f :: f in fragments ==> f.handshakeHeader.fragmentOffset != target
  {
    if fragments == [] then
      None
    else if fragments[0].handshakeHeader.fragmentOffset == target then
      Some(fragments[0])
    else
      FirstAt(fragments[1..], target)
  }

  /** The payload from `target` on, following the first fragment that starts there. Offsets and
      lengths have 24 bits, so the target grows and stays far below 2^32. */
  function Appended(target: nat, fragments: seq<Fragment>): Option<Bytes>
    decreases 0x200_0000 - target
  {
    match FirstAt(fragments, target)
    case None => None
    case Some(f) =>
      if f.Last() then
        Some(f.data)
      else
        match Appended(f.End(), fragments)
        case None => None
        case Some(rest) => Some(f.data + rest)
  }

  method AppendMessage(targetOffset: nat, fragments: seq<Fragment>, rawMessage: Bytes) returns (ok: bool, message: Bytes)
    ensures match Appended(targetOffset, fragments)
            case None => !ok && message == rawMessage
            case Some(m) => ok && message == m + rawMessage
    decreases 0x200_0000 - targetOffset
  {
    message := rawMessage;
    assert fragments[0..] == fragments;
    for i := 0 to |fragments|
      invariant message == rawMessage
      invariant FirstAt(fragments, targetOffset) == FirstAt(fragments[i..], targetOffset)
    {
      var f := fragments[i];
      assert fragments[i..][1..] == fragments[i + 1..];
      if f.handshakeHeader.fragmentOffset == targetOffset {
        var fragmentEnd := f.End();
        if fragmentEnd != f.handshakeHeader.length && f.handshakeHeader.fragmentLength != 0 {
          ok, message := AppendMessage(fragmentEnd, fragments, message);
          if !ok {
            return false, message;
          }
          ghost var rest := Appended(fragmentEnd, fragments).value;
          assert f.data + (rest + rawMessage) == f.data + rest + rawMessage;
        }
        return true, f.data + message;
      }
    }
    return false, message;
  }

  /** A chain of fragments from `target`: each is the first that starts where the one before ends,
      and only the last one ends the message. */
  ghost predicate Chain(fragments: seq<Fragment>, path: seq<Fragment>, target: nat)
    decreases |path|
  {
    path != []
    && FirstAt(fragments, target) == Some(path[0])
    && (path[0].Last() <==> |path| == 1)
    && (|path| > 1 ==> Chain(fragments, path[1..], path[0].End()))
  }

  function Payload(path: seq<Fragment>): Bytes {
    if path == [] then [] else path[0].data + Payload(path[1..])
  }

  /** Assembling succeeds exactly when there is a chain, and then returns the chain's payload. */
  lemma AppendedIffChain(target: nat, fragments: seq<Fragment>)
    ensures Appended(target, fragments).Some? <==> exists path :: Chain(fragments, path, target)
    ensures forall path :: Chain(fragments, path, target) ==> Appended(target, fragments) == Some(Payload(path))
  {
    if Appended(target, fragments).Some? {
      var path := ChainOf(target, fragments);
      assert exists p :: Chain(fragments, p, target);
    }
    forall path | Chain(fragments, path, target)
      ensures Appended(target, fragments) == Some(Payload(path))
    {
      ChainAppends(target, fragments, path);
    }
  }

  lemma {:induction false} ChainOf(target: nat, fragments: seq<Fragment>) returns (path: seq<Fragment>)
    requires Appended(target, fragments).Some?
    ensures Chain(fragments, path, target)
    decreases 0x200_0000 - target
  {
    var f := FirstAt(fragments, target).value;
    if f.Last() {
      path := [f];
    } else {
      var rest := ChainOf(f.End(), fragments);
      path := [f] + rest;
      assert path[1..] == rest;
    }
  }

  lemma {:induction false} ChainAppends(target: nat, fragments: seq<Fragment>, path: seq<Fragment>)
    requires Chain(fragments, path, target)
    ensures Appended(target, fragments) == Some(Payload(path))
    decreases |path|
  {
    if |path| == 1 {
      assert path[1..] == [];
      assert path[0].data + [] == path[0].data;
    } else {
      ChainAppends(path[0].End(), fragments, path[1..]);
    }
  }

  /** The released message: the header of the first fragment received, rewritten as one fragment. */
  function Released(fragments: seq<Fragment>, payload: Bytes): (Bytes, U16)
    requires fragments != []
  {
    var header := fragments[0].handshakeHeader;
    (header.(fragmentOffset := 0, fragmentLength := header.length).Marshal() + payload,
     fragments[0].recordHeader.epoch)
  }

  /** A pop that finds no complete message changes nothing. */
  function Popped(b: Buffer): (r: (Buffer, Result<(Bytes, U16)>))
    ensures r.1.Err? ==> r.0 == b
  {
    var fragments := FragmentsAt(b.cache, b.current);
    match Appended(0, fragments)
    case None => (b, Err(EmptyFragment))
    case Some(payload) =>
      (Buffer(b.cache - {b.current}, (b.current + 1) % 0x1_0000), Ok(Released(fragments, payload)))
  }

  class FragmentBuffer {
    var cache: FragmentMap
    var currentMessageSequenceNumber: U16

    ghost function State(): Buffer
      reads this
    {
      Buffer(cache, currentMessageSequenceNumber)
    }

    constructor ()
      ensures State() == EMPTY_BUFFER
    {
      cache := map[];
      currentMessageSequenceNumber := 0;
    }

    method BufferedSize() returns (total: nat)
      ensures total == Size(cache)
    {
      total := 0;
      var keys := cache.Keys;
      ghost var done: FragmentMap := map[];
      SizeBelowEmpty(0x1_0000);
      while keys != {}
        invariant keys <= cache.Keys
        invariant done == map k | k in cache && k !in keys :: cache[k]
        invariant total == Size(done)
        decreases |keys|
      {
        var k :| k in keys;
        total := total + DataSize(cache[k]);
        ghost var before := done;
        keys := keys - {k};
        done := map j | j in cache && j !in keys :: cache[j];
        SizeBelowOneEntry(before, done, k, 0x1_0000);
      }
      assert done == cache;
    }

    method Push(buf: Bytes) returns (r: Result<bool>)
      modifies this
      ensures (State(), r) == Pushed(old(State()), buf)
    {
      hide RecordLayerHeader.Unmarshal, HandshakeHeader.Unmarshal, Size;
      var currentSize := BufferedSize();
      if currentSize + |buf| >= FRAGMENT_BUFFER_MAX_SIZE {
        return Err(FragmentBufferOverflow);
      }
      var recordHeader := RecordLayerHeader.Unmarshal(buf);
      if recordHeader.Err? {
        return Err(recordHeader.error);
      }
      if recordHeader.value.contentType != ContentType.Handshake {
        return Ok(false);
      }
      RecordHeaderNeedsThirteen(buf);
      var rest := buf[RECORD_LAYER_HEADER_SIZE..];
      while rest != []
        invariant PushedBody(cache, recordHeader.value, rest)
               == PushedBody(old(cache), recordHeader.value, buf[RECORD_LAYER_HEADER_SIZE..])
        invariant currentMessageSequenceNumber == old(currentMessageSequenceNumber)
        decreases |rest|
      {
        var header := HandshakeHeader.Unmarshal(rest);
        if header.Err? {
          return Err(header.error);
        }
        HeaderNeedsTwelve(rest);
        var key := header.value.messageSequence;
        ghost var before := cache;
        if key !in cache {
          cache := cache[key := []];
        }
        var end := HANDSHAKE_HEADER_LENGTH + header.value.length as int;
        if end > |rest| {
          end := |rest|;
        }
        var data := rest[HANDSHAKE_HEADER_LENGTH..end];
        cache := cache[key := cache[key] + [Fragment(recordHeader.value, header.value, data)]];
        assert cache == Added(before, Fragment(recordHeader.value, header.value, data));
        rest := rest[end..];
      }
      return Ok(true);
    }

    method Pop() returns (r: Result<(Bytes, U16)>)
      modifies this
      ensures (State(), r) == Popped(old(State()))
    {
      var sequence := currentMessageSequenceNumber;
      if sequence !in cache {
        return Err(EmptyFragment);
      }
      var fragments := cache[sequence];
      var ok, rawMessage := AppendMessage(0, fragments, []);
      if !ok {
        return Err(EmptyFragment);
      }
      var firstHeader := fragments[0].handshakeHeader;
      firstHeader := firstHeader.(fragmentOffset := 0);
      firstHeader := firstHeader.(fragmentLength := firstHeader.length);
      var rawHeader := firstHeader.Marshal();
      var messageEpoch := fragments[0].recordHeader.epoch;
      cache := cache - {sequence};
      currentMessageSequenceNumber := (sequence as int + 1) % 0x1_0000;
      ghost var payload := Appended(0, fragments).value;
      assert payload + [] == payload;
      assert (rawHeader + rawMessage, messageEpoch) == Released(fragments, payload);
      return Ok((rawHeader + rawMessage, messageEpoch));
    }
  }

  lemma RecordHeaderNeedsThirteen(buf: Bytes)
    requires RecordLayerHeader.Unmarshal(buf).Ok?
    ensures |buf| >= RECORD_LAYER_HEADER_SIZE
  {
  }
}
