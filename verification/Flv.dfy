/** The incremental search for the video sequence header of an FLV stream, and the cache it freezes. */
module Flv {
  import opened Wrappers
  import opened Bytes

  // 9-byte file header and 4-byte PreviousTagSize0
  const HEADER_LENGTH := 13

  const TAG_HEADER_LENGTH := 11

  const PREVIOUS_TAG_SIZE := 4

  const VIDEO_TAG := 9

  function PayloadSize(data: Bytes, pos: nat): nat
    requires pos + TAG_HEADER_LENGTH <= |data|
  {
    ReadU24(data, pos + 1)
  }

  function TagEnd(data: Bytes, pos: nat): nat
    requires pos + TAG_HEADER_LENGTH <= |data|
  {
    pos + TAG_HEADER_LENGTH + PayloadSize(data, pos) + PREVIOUS_TAG_SIZE
  }

  predicate Complete(data: Bytes, pos: nat) {
    pos + TAG_HEADER_LENGTH <= |data| && TagEnd(data, pos) <= |data|
  }

  /** An AVC sequence header, or the start of a sequence in the enhanced format. */
  predicate StartsSequence(data: Bytes, pos: nat)
    requires Complete(data, pos)
  {
    data[pos] == VIDEO_TAG && PayloadSize(data, pos) >= 2
    && var first := data[pos + TAG_HEADER_LENGTH];
       if first < 0x80 then first == 0x17 && data[pos + TAG_HEADER_LENGTH + 1] == 0 else first % 0x10 == 0
  }

  function ScannedFrom(data: Bytes, pos: nat): Option<nat>
    decreases |data| - pos
  {
    if !Complete(data, pos) then None
    else if StartsSequence(data, pos) then Some(TagEnd(data, pos))
    else ScannedFrom(data, TagEnd(data, pos))
  }

  /** Where the first sequence header ends. */
  function SequenceHeaderEnd(data: Bytes): Option<nat> {
    ScannedFrom(data, HEADER_LENGTH)
  }

  method FlvSeqHdrEnd(data: Bytes) returns (end: Option<nat>)
    ensures end == SequenceHeaderEnd(data)
  {
    if |data| < HEADER_LENGTH {
      return None;
    }
    var pos := HEADER_LENGTH;
    while true
      invariant HEADER_LENGTH <= pos <= |data|
      invariant ScannedFrom(data, pos) == SequenceHeaderEnd(data)
      decreases |data| - pos
    {
      if pos + TAG_HEADER_LENGTH > |data| {
        return None;
      }
      var tagType := data[pos];
      var payloadSize := data[pos + 1] as int * 0x1_0000 + data[pos + 2] as int * 0x100 + data[pos + 3] as int;
      var tagEnd := pos + TAG_HEADER_LENGTH + payloadSize + PREVIOUS_TAG_SIZE;
      if tagEnd > |data| {
        return None;
      }
      if tagType == VIDEO_TAG && payloadSize >= 2 {
        var p := pos + TAG_HEADER_LENGTH;
        var first := data[p];
        if first < 0x80 {
          if first == 0x17 && data[p + 1] == 0 {
            return Some(tagEnd);
          }
        } else {
          if first % 0x10 == 0 {
            return Some(tagEnd);
          }
        }
      }
      pos := tagEnd;
    }
  }

  // The tag-by-tag reading

  /** The tags at `starts` follow each other without gap from `from`, and all are complete. */
  ghost predicate Tags(data: Bytes, starts: seq<nat>, from: nat)
    decreases |starts|
  {
    starts == []
    || (starts[0] == from && Complete(data, from) && Tags(data, starts[1..], TagEnd(data, from)))
  }

  lemma {:induction false} TagsComplete(data: Bytes, starts: seq<nat>, from: nat)
    requires Tags(data, starts, from)
    ensures forall p :: p in starts ==> Complete(data, p)
    decreases |starts|
  {
    if starts != [] {
      TagsComplete(data, starts[1..], TagEnd(data, from));
    }
  }

  /** The last tag is the first to start a sequence, and ends at `end`. */
  ghost predicate FirstStart(data: Bytes, starts: seq<nat>, from: nat, end: nat) {
    starts != [] && Tags(data, starts, from)
    && (forall p :: p in starts ==> Complete(data, p))
    && (forall i :: 0 <= i < |starts| ==> (StartsSequence(data, starts[i]) <==> i == |starts| - 1))
    && Complete(data, starts[|starts| - 1]) && end == TagEnd(data, starts[|starts| - 1])
  }

  lemma {:induction false} ScannedPath(data: Bytes, pos: nat) returns (starts: seq<nat>)
    requires ScannedFrom(data, pos).Some?
    ensures FirstStart(data, starts, pos, ScannedFrom(data, pos).value)
    decreases |data| - pos
  {
    if StartsSequence(data, pos) {
      starts := [pos];
    } else {
      var rest := ScannedPath(data, TagEnd(data, pos));
      starts := [pos] + rest;
      assert starts[1..] == rest;
      forall i | 0 <= i < |starts|
        ensures Complete(data, starts[i]) && (StartsSequence(data, starts[i]) <==> i == |starts| - 1)
      {
        if i > 0 {
          assert starts[i] == rest[i - 1] && rest[i - 1] in rest;
        }
      }
    }
  }

  lemma {:induction false} PathScanned(data: Bytes, starts: seq<nat>, pos: nat, end: nat)
    requires FirstStart(data, starts, pos, end)
    ensures ScannedFrom(data, pos) == Some(end)
    decreases |starts|
  {
    if |starts| > 1 {
      var rest := starts[1..];
      assert forall i :: 0 <= i < |rest| ==> rest[i] == starts[i + 1];
      assert !StartsSequence(data, starts[0]);
      assert forall p :: p in rest ==> p in starts;
      PathScanned(data, rest, TagEnd(data, pos), end);
    }
  }

  /** The scanner answers `end` exactly when `end` ends the first complete tag that starts a sequence. */
  lemma ScannerIff(data: Bytes, end: nat)
    ensures SequenceHeaderEnd(data) == Some(end) <==> exists starts :: FirstStart(data, starts, HEADER_LENGTH, end)
  {
    if SequenceHeaderEnd(data) == Some(end) {
      var starts := ScannedPath(data, HEADER_LENGTH);
    }
    if starts :| FirstStart(data, starts, HEADER_LENGTH, end) {
      PathScanned(data, starts, HEADER_LENGTH, end);
    }
  }

  /** An answer on a prefix is the answer on every extension. */
  lemma {:induction false} AnswerStable(data: Bytes, more: Bytes, pos: nat)
    requires data <= more && ScannedFrom(data, pos).Some?
    ensures ScannedFrom(more, pos) == ScannedFrom(data, pos) && ScannedFrom(data, pos).value <= |data|
    decreases |data| - pos
  {
    assert Complete(more, pos) && TagEnd(more, pos) == TagEnd(data, pos);
    assert StartsSequence(more, pos) == StartsSequence(data, pos);
    if !StartsSequence(data, pos) {
      AnswerStable(data, more, TagEnd(data, pos));
    }
  }

  // The cache

  class InitCache {
    var cache: Bytes
    var complete: bool

    /** An MPEG-TS stream repeats its tables, so nothing is cached. */
    constructor (mpegts: bool)
      ensures cache == [] && complete == mpegts
    {
      cache := [];
      complete := mpegts;
    }

    method Feed(data: Bytes)
      modifies this
      ensures (cache, complete) == Fed(old(cache), old(complete), data)
    {
      if !complete {
        cache := cache + data;
        var end := FlvSeqHdrEnd(cache);
        if end.Some? {
          EndsInside(cache);
          cache := cache[..end.value];
          complete := true;
        }
      }
    }
  }

  lemma EndsInside(data: Bytes)
    ensures SequenceHeaderEnd(data).Some? ==> SequenceHeaderEnd(data).value <= |data|
  {
    if SequenceHeaderEnd(data).Some? {
      AnswerStable(data, data, HEADER_LENGTH);
    }
  }

  function Fed(cache: Bytes, complete: bool, data: Bytes): (Bytes, bool) {
    if complete then
      (cache, true)
    else
      var all := cache + data;
      EndsInside(all);
      match SequenceHeaderEnd(all)
      case None => (all, false)
      case Some(end) => (all[..end], true)
  }

  function FedAll(cache: Bytes, complete: bool, chunks: seq<Bytes>): (Bytes, bool)
    decreases |chunks|
  {
    if chunks == [] then
      (cache, complete)
    else
      var (next, done) := Fed(cache, complete, chunks[0]);
      FedAll(next, done, chunks[1..])
  }

  lemma {:induction false} FrozenStays(cache: Bytes, chunks: seq<Bytes>)
    ensures FedAll(cache, true, chunks) == (cache, true)
    decreases |chunks|
  {
    if chunks != [] {
      FrozenStays(cache, chunks[1..]);
    }
  }

  lemma {:induction false} FedIs(cache: Bytes, chunks: seq<Bytes>)
    requires SequenceHeaderEnd(cache).None?
    ensures var stream := cache + Flatten(chunks);
            SequenceHeaderEnd(stream).Some? ==> SequenceHeaderEnd(stream).value <= |stream|
    ensures var stream := cache + Flatten(chunks);
            FedAll(cache, false, chunks)
            == match SequenceHeaderEnd(stream) case None => (stream, false) case Some(end) => (stream[..end], true)
    decreases |chunks|
  {
    var stream := cache + Flatten(chunks);
    EndsInside(stream);
    if chunks == [] {
      assert stream == cache;
    } else {
      var all, rest := cache + chunks[0], chunks[1..];
      assert stream == all + Flatten(rest);
      if SequenceHeaderEnd(all).Some? {
        AnswerStable(all, stream, HEADER_LENGTH);
        FrozenStays(all[..SequenceHeaderEnd(all).value], rest);
        assert stream[..SequenceHeaderEnd(all).value] == all[..SequenceHeaderEnd(all).value];
      } else {
        FedIs(all, rest);
      }
    }
  }

  /** However a stream is cut into reads, the cache ends up as the stream up to the end of its first
      sequence header, or as all of it while there is none. */
  lemma CacheIsHeader(chunks: seq<Bytes>)
    ensures var stream := Flatten(chunks);
            SequenceHeaderEnd(stream).Some? ==> SequenceHeaderEnd(stream).value <= |stream|
    ensures var stream := Flatten(chunks);
            FedAll([], false, chunks)
            == match SequenceHeaderEnd(stream) case None => (stream, false) case Some(end) => (stream[..end], true)
    ensures FedAll([], true, chunks) == ([], true)
  {
    FedIs([], chunks);
    FrozenStays([], chunks);
    assert [] + Flatten(chunks) == Flatten(chunks);
  }
}
