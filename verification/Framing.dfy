/** Packing records into datagrams and taking them apart again. */
module Framing {
  import opened Wrappers
  import opened Bytes
  import opened Headers

  /** A record whose length field says where it ends. */
  predicate Framed(record: Bytes) {
    |record| >= RECORD_LAYER_HEADER_SIZE
    && |record| == RECORD_LAYER_HEADER_SIZE + ReadU16(record, RECORD_LAYER_HEADER_SIZE - 2)
  }

  predicate FramedNonEmpty(record: Bytes) {
    Framed(record) && |record| > RECORD_LAYER_HEADER_SIZE
  }

  ghost predicate AllFramedNonEmpty(records: seq<Bytes>) {
    forall r :: r in records ==> FramedNonEmpty(r)
  }

  /** What unpacking `buf` from its first byte gives. */
  function Unpacked(buf: Bytes): Result<seq<Bytes>>
    decreases |buf|
  {
    if buf == [] then
      Ok([])
    else if |buf| <= RECORD_LAYER_HEADER_SIZE then
      Err(InvalidPacketLength)
    else
      var n := RECORD_LAYER_HEADER_SIZE + ReadU16(buf, RECORD_LAYER_HEADER_SIZE - 2);
      if n > |buf| then
        Err(InvalidPacketLength)
      else
        var rest :- Unpacked(buf[n..]);
        Ok([buf[..n]] + rest)
  }

  function Prepend(records: seq<Bytes>, more: Result<seq<Bytes>>): Result<seq<Bytes>> {
    if more.Ok? then Ok(records + more.value) else more
  }

  method UnpackDatagram(buf: Bytes) returns (r: Result<seq<Bytes>>)
    ensures r == Unpacked(buf)
  {
    var out: seq<Bytes> := [];
    var offset := 0;
    assert buf[0..] == buf;
    assert forall rest: seq<Bytes> :: out + rest == rest;
    while |buf| != offset
      invariant 0 <= offset <= |buf|
      invariant Unpacked(buf) == Prepend(out, Unpacked(buf[offset..]))
      decreases |buf| - offset
    {
      ghost var rest := buf[offset..];
      if |buf| - offset <= RECORD_LAYER_HEADER_SIZE {
        return Err(InvalidPacketLength);
      }
      var pktLen := RECORD_LAYER_HEADER_SIZE + ReadU16(buf, offset + RECORD_LAYER_HEADER_SIZE - 2);
      assert ReadU16(rest, RECORD_LAYER_HEADER_SIZE - 2) == ReadU16(buf, offset + RECORD_LAYER_HEADER_SIZE - 2);
      if offset + pktLen > |buf| {
        return Err(InvalidPacketLength);
      }
      assert rest[..pktLen] == buf[offset..offset + pktLen];
      assert rest[pktLen..] == buf[offset + pktLen..];
      ghost var tail := Unpacked(buf[offset + pktLen..]);
      assert tail.Ok? ==> out + ([buf[offset..offset + pktLen]] + tail.value)
                          == (out + [buf[offset..offset + pktLen]]) + tail.value;
      out := out + [buf[offset..offset + pktLen]];
      offset := offset + pktLen;
    }
    assert buf[offset..] == [];
    assert out + [] == out;
    return Ok(out);
  }

  /** The records a successful unpack must return: they make up the buffer, each ends where its
      length field says, and only a last record with an empty body is refused. */
  ghost predicate SplitsInto(buf: Bytes, records: seq<Bytes>) {
    Flatten(records) == buf
    && (forall r :: r in records ==> Framed(r))
    && (records != [] ==> FramedNonEmpty(records[|records| - 1]))
  }

  /** Unpacking succeeds with exactly the records the buffer is made of. */
  lemma {:induction false} UnpackedIff(buf: Bytes, records: seq<Bytes>)
    ensures Unpacked(buf) == Ok(records) <==> SplitsInto(buf, records)
    decreases |records|, |buf|
  {
    if Unpacked(buf) == Ok(records) {
      UnpackedSplits(buf, records);
    }
    if SplitsInto(buf, records) {
      SplitsUnpack(buf, records);
    }
  }

  lemma {:induction false} UnpackedSplits(buf: Bytes, records: seq<Bytes>)
    requires Unpacked(buf) == Ok(records)
    ensures SplitsInto(buf, records)
    decreases |buf|
  {
    if buf != [] {
      var n := RECORD_LAYER_HEADER_SIZE + ReadU16(buf, RECORD_LAYER_HEADER_SIZE - 2);
      var rest := Unpacked(buf[n..]).value;
      UnpackedSplits(buf[n..], rest);
      assert records[1..] == rest;
      assert buf == buf[..n] + buf[n..];
      assert forall r :: r in records ==> r == buf[..n] || r in rest;
      if rest == [] {
        assert buf[n..] == [];
      } else {
        assert records[|records| - 1] == rest[|rest| - 1];
      }
    }
  }

  lemma {:induction false} SplitsUnpack(buf: Bytes, records: seq<Bytes>)
    requires SplitsInto(buf, records)
    ensures Unpacked(buf) == Ok(records)
    decreases |records|
  {
    hide ReadU16;
    if records != [] {
      var first, rest := records[0], records[1..];
      assert first in records;
      assert forall r :: r in rest ==> r in records;
      FirstOf(buf, first, Flatten(rest));
      if rest != [] {
        assert rest[|rest| - 1] == records[|records| - 1];
        AtLeastOneRecord(rest);
      }
      SplitsUnpack(Flatten(rest), rest);
      assert [first] + rest == records;
    }
  }

  lemma FirstOf(buf: Bytes, first: Bytes, rest: Bytes)
    requires buf == first + rest && Framed(first)
    ensures buf[..|first|] == first && buf[|first|..] == rest
    ensures ReadU16(buf, RECORD_LAYER_HEADER_SIZE - 2) == ReadU16(first, RECORD_LAYER_HEADER_SIZE - 2)
  {
  }

  lemma {:induction false} AtLeastOneRecord(records: seq<Bytes>)
    requires records != [] && forall r :: r in records ==> Framed(r)
    ensures |Flatten(records)| >= RECORD_LAYER_HEADER_SIZE
  {
    assert records[0] in records;
  }

  // Packing

  /** How the packer groups `raw` when `current` is waiting to be sent. */
  ghost function Groups(raw: seq<Bytes>, current: seq<Bytes>, mtu: nat): seq<seq<Bytes>> {
    if raw == [] then
      [current]
    else if Flatten(current) != [] && |Flatten(current)| + |raw[0]| >= mtu then
      [current] + Groups(raw[1..], [raw[0]], mtu)
    else
      Groups(raw[1..], current + [raw[0]], mtu)
  }

  ghost function Joined(groups: seq<seq<Bytes>>): seq<Bytes> {
    if groups == [] then [] else [Flatten(groups[0])] + Joined(groups[1..])
  }

  ghost function Datagrams(raw: seq<Bytes>, mtu: nat): seq<Bytes> {
    Joined(Groups(raw, [], mtu))
  }

  method CompactRawPackets(rawPackets: seq<Bytes>, mtu: nat) returns (combined: seq<Bytes>)
    ensures combined == Datagrams(rawPackets, mtu)
  {
    combined := [];
    var current: Bytes := [];
    ghost var group: seq<Bytes> := [];
    for i := 0 to |rawPackets|
      invariant current == Flatten(group)
      invariant Datagrams(rawPackets, mtu) == combined + Joined(Groups(rawPackets[i..], group, mtu))
    {
      var rawPacket := rawPackets[i];
      assert rawPackets[i..][0] == rawPacket && rawPackets[i..][1..] == rawPackets[i + 1..];
      if current != [] && |current| + |rawPacket| >= mtu {
        ghost var later := Groups(rawPackets[i + 1..], [rawPacket], mtu);
        assert ([group] + later)[1..] == later;
        assert combined + ([current] + Joined(later)) == (combined + [current]) + Joined(later);
        combined := combined + [current];
        current := [];
        group := [];
      }
      assert group == [] ==> group + [rawPacket] == [rawPacket];
      FlattenSnoc(group, rawPacket);
      current := current + rawPacket;
      group := group + [rawPacket];
    }
    assert rawPackets[|rawPackets|..] == [];
    assert Joined([group]) == [Flatten(group)] + Joined([]);
    combined := combined + [current];
  }

  lemma {:induction false} GroupsKeepOrder(raw: seq<Bytes>, current: seq<Bytes>, mtu: nat)
    ensures Flatten(Groups(raw, current, mtu)) == current + raw
    decreases |raw|
  {
    if raw == [] {
      FlattenOne(current);
      assert current + raw == current;
    } else if Flatten(current) != [] && |Flatten(current)| + |raw[0]| >= mtu {
      GroupsKeepOrder(raw[1..], [raw[0]], mtu);
      FlattenCons(current, Groups(raw[1..], [raw[0]], mtu));
      assert current + ([raw[0]] + raw[1..]) == current + raw;
    } else {
      GroupsKeepOrder(raw[1..], current + [raw[0]], mtu);
      assert current + [raw[0]] + raw[1..] == current + raw;
    }
  }

  /** A datagram of two or more records stays below the MTU. */
  ghost predicate Fits(group: seq<Bytes>, mtu: nat) {
    |group| >= 2 ==> |Flatten(group)| < mtu
  }

  lemma {:induction false} GroupsFit(raw: seq<Bytes>, current: seq<Bytes>, mtu: nat)
    requires forall r :: r in raw ==> r != []
    requires forall r :: r in current ==> r != []
    requires current == [] ==> raw != []
    requires Fits(current, mtu)
    ensures forall g :: g in Groups(raw, current, mtu) ==> g != [] && Fits(g, mtu)
    ensures forall g :: g in Groups(raw, current, mtu) ==> forall r :: r in g ==> r in current || r in raw
    decreases |raw|
  {
    if raw != [] {
      assert raw[0] in raw;
      assert forall r :: r in raw[1..] ==> r in raw;
      if current != [] {
        assert current[0] in current;
      }
      if Flatten(current) != [] && |Flatten(current)| + |raw[0]| >= mtu {
        GroupsFit(raw[1..], [raw[0]], mtu);
      } else {
        FlattenSnoc(current, raw[0]);
        if current != [] {
          assert Flatten(current) != [];
        }
        GroupsFit(raw[1..], current + [raw[0]], mtu);
      }
    }
  }

  /** The packer is greedy: a datagram is closed only when the next record would reach the MTU. */
  lemma {:induction false} GroupsGreedy(raw: seq<Bytes>, current: seq<Bytes>, mtu: nat)
    requires forall r :: r in raw ==> r != []
    requires current != [] || raw != []
    ensures Groups(raw, current, mtu) != []
    ensures Groups(raw, current, mtu)[0] != []
    ensures current != [] ==> current <= Groups(raw, current, mtu)[0]
    ensures current == [] ==> raw[..1] <= Groups(raw, current, mtu)[0]
    ensures forall i :: 0 < i < |Groups(raw, current, mtu)| ==>
              Groups(raw, current, mtu)[i] != []
              && |Flatten(Groups(raw, current, mtu)[i - 1])| + |Groups(raw, current, mtu)[i][0]| >= mtu
    decreases |raw|
  {
    if raw != [] {
      assert raw[0] in raw;
      assert forall r :: r in raw[1..] ==> r in raw;
      if Flatten(current) != [] && |Flatten(current)| + |raw[0]| >= mtu {
        var later := Groups(raw[1..], [raw[0]], mtu);
        GroupsGreedy(raw[1..], [raw[0]], mtu);
        assert later[0][0] == [raw[0]][0];
        forall i | 0 < i < |Groups(raw, current, mtu)|
          ensures Groups(raw, current, mtu)[i] != []
                  && |Flatten(Groups(raw, current, mtu)[i - 1])| + |Groups(raw, current, mtu)[i][0]| >= mtu
        {
          assert Groups(raw, current, mtu)[i] == later[i - 1];
        }
      } else {
        GroupsGreedy(raw[1..], current + [raw[0]], mtu);
      }
    }
  }

  /** The records of all `datagrams` in order, if every one of them unpacks. */
  ghost function UnpackedAll(datagrams: seq<Bytes>): Result<seq<Bytes>> {
    if datagrams == [] then
      Ok([])
    else
      var first :- Unpacked(datagrams[0]);
      var rest :- UnpackedAll(datagrams[1..]);
      Ok(first + rest)
  }

  lemma {:induction false} JoinedUnpacks(groups: seq<seq<Bytes>>)
    requires forall g :: g in groups ==> AllFramedNonEmpty(g)
    ensures UnpackedAll(Joined(groups)) == Ok(Flatten(groups))
    ensures |Joined(groups)| == |groups|
    ensures forall i :: 0 <= i < |groups| ==> Joined(groups)[i] == Flatten(groups[i])
  {
    if groups != [] {
      assert groups[0] in groups;
      assert forall g :: g in groups[1..] ==> g in groups;
      JoinedUnpacks(groups[1..]);
      SplitsUnpack(Flatten(groups[0]), groups[0]);
      assert Joined(groups)[1..] == Joined(groups[1..]);
      forall i | 0 <= i < |groups|
        ensures Joined(groups)[i] == Flatten(groups[i])
      {
        if i > 0 {
          assert groups[i] == groups[1..][i - 1];
        }
      }
    }
  }

  /** Packing then unpacking is the identity on records, for every MTU, and no datagram of two or
      more records reaches the MTU. */
  lemma PackUnpack(raw: seq<Bytes>, mtu: nat)
    requires raw != [] && AllFramedNonEmpty(raw)
    ensures UnpackedAll(Datagrams(raw, mtu)) == Ok(raw)
    ensures forall d :: d in Datagrams(raw, mtu) ==>
              Unpacked(d).Ok? && Unpacked(d).value != []
              && (forall r :: r in Unpacked(d).value ==> r in raw)
              && (|Unpacked(d).value| >= 2 ==> |d| < mtu)
  {
    var groups := Groups(raw, [], mtu);
    GroupsKeepOrder(raw, [], mtu);
    GroupsFit(raw, [], mtu);
    assert [] + raw == raw;
    JoinedUnpacks(groups);
    forall d | d in Datagrams(raw, mtu)
      ensures Unpacked(d).Ok? && Unpacked(d).value != []
              && (forall r :: r in Unpacked(d).value ==> r in raw)
              && (|Unpacked(d).value| >= 2 ==> |d| < mtu)
    {
      var i :| 0 <= i < |groups| && d == Joined(groups)[i];
      assert groups[i] in groups;
      SplitsUnpack(Flatten(groups[i]), groups[i]);
    }
  }
}
