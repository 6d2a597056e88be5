/** host/data_plane/qcrate_recorder.c: the state of one shot while its packets arrive, and the passes over
    its packets, proved to compute what ShotModel says. */
module Recorder {
  import opened Crc32
  import opened Protocol
  import opened Ordering
  import opened RunFormat
  import opened ShotModel
  import opened RunModel
  import Gaps
  import Verdicts

  /** `struct shot_state`. */
  class ShotState {
    const shotId: U64
    var packets: seq<Datagram>
    var firstReceiveNs: nat
    var lastReceiveNs: nat
    var highestArrival: U64
    var highestArrivalValid: bool
    var info: Info
    var end: End
    var issues: Issues
    var datagrams: nat
    var duplicatePackets: nat
    var reorderedPackets: nat
    var conflictingPackets: nat

    function Value(): Shot
      reads this
    {
      Shot(shotId, packets, firstReceiveNs, lastReceiveNs, if highestArrivalValid then Some(highestArrival) else None,
           info, end, issues, datagrams, duplicatePackets, reorderedPackets, conflictingPackets)
    }

    ghost predicate Valid()
      reads this
    {
      Verdicts.Held(Value())
    }

    constructor (shotId: U64)
      ensures Value() == NewShot(shotId) && Valid()
    {
      this.shotId := shotId;
      packets, firstReceiveNs, lastReceiveNs := [], 0, 0;
      highestArrival, highestArrivalValid := 0, false;
      info, end, issues := NoInfo, NoEnd, NO_ISSUES;
      datagrams, duplicatePackets, reorderedPackets, conflictingPackets := 0, 0, 0, 0;
    }

    /** The scan of `add_packet` for a packet of the same sequence. */
    method Find(sequence: U64) returns (i: nat)
      ensures i <= |packets|
      ensures i < |packets| ==> packets[i].Sequence() == sequence
      ensures i == |packets| <==> !Holds(packets, sequence)
    {
      i := 0;
      while i < |packets|
        invariant i <= |packets|
        invariant forall j | 0 <= j < i :: packets[j].Sequence() != sequence
      {
        if packets[i].Sequence() == sequence {
          assert packets[i] in packets;
          return;
        }
        i := i + 1;
      }
    }

    method CountArrival(ns: nat)
      modifies this`datagrams, this`firstReceiveNs, this`lastReceiveNs
      ensures datagrams == old(datagrams) + 1 && lastReceiveNs == ns
      ensures firstReceiveNs == if old(firstReceiveNs) == 0 then ns else old(firstReceiveNs)
    {
      datagrams := datagrams + 1;
      if firstReceiveNs == 0 {
        firstReceiveNs := ns;
      }
      lastReceiveNs := ns;
    }

    method Append(d: Datagram)
      modifies this`packets, this`reorderedPackets, this`highestArrival, this`highestArrivalValid
      ensures packets == old(packets) + [d]
      ensures var late := old(highestArrivalValid) && d.Sequence() < old(highestArrival);
        && reorderedPackets == old(reorderedPackets) + (if late then 1 else 0)
        && highestArrivalValid && highestArrival == if late then old(highestArrival) else d.Sequence()
    {
      packets := packets + [d];
      if highestArrivalValid && d.Sequence() < highestArrival {
        reorderedPackets := reorderedPackets + 1;
      }
      if !highestArrivalValid || d.Sequence() > highestArrival {
        highestArrival := d.Sequence();
        highestArrivalValid := true;
      }
    }

    /** `add_packet`: 1 when the sequence was there already. */
    method AddPacket(d: Datagram, ns: nat) returns (status: int)
      requires Distinct(packets)
      modifies this
      ensures Value() == ShotModel.AddPacket(old(Value()), ns, d)
      ensures status == if Holds(old(packets), d.Sequence()) then 1 else 0
    {
      hide Distinct, Holds;
      CountArrival(ns);
      var i := Find(d.Sequence());
      if i < |packets| {
        OnlyMatch(packets, i, d);
        if packets[i] == d {
          duplicatePackets := duplicatePackets + 1;
        } else {
          conflictingPackets := conflictingPackets + 1;
          issues := issues.(conflict := true);
        }
        return 1;
      }
      Append(d);
      status := 0;
    }

    /** The library sort by sequence. */
    method SortBySequence()
      requires Valid()
      modifies this`packets
      ensures Value() == SortPackets(old(Value())) && Valid()
      ensures Sorted(BySequence, packets)
    {
      SortSorts(BySequence, packets);
      SameMembers(packets, Sort(BySequence, packets));
      DistinctPermutes(packets, Sort(BySequence, packets));
      packets := Sort(BySequence, packets);
    }

    /** `count_missing` on sorted packets. */
    method CountMissing() returns (missing: U32)
      requires Valid() && Sorted(BySequence, packets)
      ensures missing == Missing(Value())
    {
      if info.NoInfo? || end.NoEnd? || end.header.packetSequence < info.header.packetSequence {
        return 1;
      }
      SequencesIncrease(Value());
      missing := Gaps.CountMissing(Sequences(packets), info.header.packetSequence, end.header.packetSequence);
    }

    /** `shot_sequence_complete` on sorted packets. */
    method SequenceComplete() returns (complete: bool)
      requires Valid() && Sorted(BySequence, packets)
      ensures complete == SequenceIsComplete(Value())
    {
      if info.NoInfo? || end.NoEnd? || end.header.packetSequence < info.header.packetSequence {
        return false;
      }
      SequencesIncrease(Value());
      complete := Gaps.SequenceComplete(Sequences(packets), info.header.packetSequence, end.header.packetSequence);
    }
  }

  lemma OnlyMatch(packets: seq<Datagram>, i: nat, d: Datagram)
    requires Distinct(packets) && i < |packets| && packets[i].Sequence() == d.Sequence()
    ensures Holds(packets, d.Sequence()) && (d in packets <==> packets[i] == d)
  {
    assert packets[i] in packets;
  }

  lemma SequencesIncrease(s: Shot)
    requires Verdicts.Held(s) && Sorted(BySequence, s.packets)
    ensures Gaps.Increasing(Sequences(s.packets))
    ensures s.info.Info? ==> s.info.header.packetSequence in Sequences(s.packets)
  {
    if s.info.Info? {
      var j :| 0 <= j < |s.packets| && s.packets[j] == Datagram(s.info.header, InfoObject(s.info.info));
      assert Sequences(s.packets)[j] == s.info.header.packetSequence;
    }
  }

  // ----- the pass over a shot's packets -----

  lemma DataNext(format: U16, packets: seq<Datagram>, i: nat)
    requires i < |packets|
    ensures Data(format, packets[..i + 1])
         == Data(format, packets[..i]) + if Admissible(format, packets[i]) then [packets[i]] else []
  {
    assert packets[..i + 1][..i] == packets[..i];
  }

  lemma SumsNext(data: seq<Datagram>, d: Datagram)
    ensures SampleTotal(data + [d]) == SampleTotal(data) + d.header.sampleCount
    ensures Payloads(data + [d]) == Payloads(data) + SamplesOf(d)
  {
    assert (data + [d])[..|data|] == data;
  }

  lemma FlagsNext(data: seq<Datagram>, d: Datagram)
    ensures var f, g := SourceFlagsOf(data), SourceFlagsOf(data + [d]);
      && g.discontinuityBefore == (f.discontinuityBefore || d.header.flags.discontinuityBefore)
      && g.sourceOverflow == (f.sourceOverflow || d.header.flags.sourceOverflow)
      && g.senderDrop == (f.senderDrop || d.header.flags.senderDrop)
  {
    assert d in data + [d];
    assert forall x :: x in data + [d] <==> x in data || x == d;
  }

  lemma TimesNext(data: seq<Datagram>, d: Datagram)
    ensures TimestampsOk(data + [d])
         <==> TimestampsOk(data)
              && if data == [] then d.header.flags.timestampValid && d.header.timestampTicks != 0 else !Timed(d)
  {
    var next := data + [d];
    assert next[|data|] == d;
    assert forall i | 0 <= i < |data| :: next[i] == data[i];
  }

  /** The sums over the DATA packets taken so far. */
  datatype Tally = Tally(
    samples: nat, payloadBytes: nat, firstSequence: U64, lastSequence: U64, firstTimestamp: U64,
    timestampsOk: bool, sourceFlags: SourceFlags)
  {
    ghost predicate Of(data: seq<Datagram>) {
      && samples == SampleTotal(data) && payloadBytes == |Payloads(data)|
      && (data != [] ==> firstSequence == data[0].Sequence() && lastSequence == data[|data| - 1].Sequence())
      && firstTimestamp == FirstTimestamp(data)
      && timestampsOk == TimestampsOk(data) && sourceFlags == SourceFlagsOf(data)
    }
  }

  const NO_TALLY := Tally(0, 0, 0, 0, 0, true, SourceFlags(false, false, false))

  method Take(t: Tally, ghost data: seq<Datagram>, first: bool, d: Datagram) returns (r: Tally)
    requires t.Of(data) && first == (data == [])
    ensures r.Of(data + [d])
  {
    hide SampleTotal, Payloads, TimestampsOk, SourceFlagsOf, SamplesOf;
    SumsNext(data, d);
    FlagsNext(data, d);
    TimesNext(data, d);
    assert (data + [d])[|data|] == d && (data != [] ==> (data + [d])[0] == data[0]);
    r := t;
    if first {
      r := r.(firstSequence := d.Sequence(), firstTimestamp := d.header.timestampTicks,
              timestampsOk := t.timestampsOk && d.header.flags.timestampValid && d.header.timestampTicks != 0);
    } else if d.header.flags.timestampValid || d.header.timestampTicks != 0 {
      r := r.(timestampsOk := false);
    }
    r := r.(lastSequence := d.Sequence(), samples := t.samples + d.header.sampleCount,
            payloadBytes := t.payloadBytes + |SamplesOf(d)|,
            sourceFlags := SourceFlags(t.sourceFlags.discontinuityBefore || d.header.flags.discontinuityBefore,
                                       t.sourceFlags.sourceOverflow || d.header.flags.sourceOverflow,
                                       t.sourceFlags.senderDrop || d.header.flags.senderDrop));
  }

  /** The first loop of `finalize_shot`: the admissible DATA packets and what they add up to. */
  method Scan(format: U16, packets: seq<Datagram>) returns (data: seq<Datagram>, malformed: bool, t: Tally)
    ensures data == Data(format, packets)
    ensures malformed == AnyMalformed(format, packets)
    ensures t.Of(data)
  {
    data, malformed, t := [], false, NO_TALLY;
    for i := 0 to |packets|
      invariant t.Of(data)
      invariant data == Data(format, packets[..i])
      invariant malformed == AnyMalformed(format, packets[..i])
    {
      hide Data, Admissible, Malformed, AnyMalformed, Tally.Of;
      DataNext(format, packets, i);
      MalformedNext(format, packets, i);
      if Admissible(format, packets[i]) {
        t := Take(t, data, |data| == 0, packets[i]);
        data := data + [packets[i]];
      }
      malformed := malformed || Malformed(format, packets[i]);
    }
    assert packets[..|packets|] == packets;
  }

  lemma MalformedNext(format: U16, packets: seq<Datagram>, i: nat)
    requires i < |packets|
    ensures AnyMalformed(format, packets[..i + 1])
       <==> AnyMalformed(format, packets[..i]) || Malformed(format, packets[i])
  {
    hide Malformed;
    assert packets[..i + 1] == packets[..i] + [packets[i]];
  }

  // ----- the walk over the frames -----

  /** The frame checks on the first `n` packets. */
  ghost predicate TiledSoFar(ps: seq<Datagram>, n: nat, frameSamples: U32)
    requires n <= |ps|
  {
    (ps != [] ==> ps[0].header.frameId == 0) && forall i | 0 <= i < n :: Fits(ps, i, frameSamples)
  }

  /** Where the walk stands: the frame and offset after the packets seen, or the sentinels at the start. */
  ghost predicate Stands(ps: seq<Datagram>, i: nat, current: U32, expected: U32)
    requires i <= |ps|
  {
    if i == 0 then current == U32_MAX && expected == 0
    else current == ps[i - 1].header.frameId && expected == EndOffset(ps[i - 1])
  }

  /** One packet of the frame walk. */
  method WalkOne(ghost ps: seq<Datagram>, ghost i: nat, d: Datagram, frameSamples: U32, current: U32, expected: U32)
    returns (fits: bool, starts: bool, end: U32)
    requires i < |ps| && d == ps[i] && Sorted(ByFrame, ps) && Stands(ps, i, current, expected)
    ensures ps[0].header.frameId == 0 ==> fits == Fits(ps, i, frameSamples)
    ensures starts == StartsFrame(ps, i)
    ensures Stands(ps, i + 1, d.header.frameId, end)
  {
    assert i > 0 ==> Before(ByFrame, ps[i - 1], ps[i]);
    var h := d.header;
    fits, starts := true, h.frameId != current;
    end := expected;
    if starts {
      if current != U32_MAX && (h.frameId != current + 1 || end != frameSamples) {
        fits := false;
      }
      end := 0;
      if !h.flags.frameStart {
        fits := false;
      }
    }
    if h.sampleOffset != end {
      fits := false;
    }
    end := Wrap32(h.sampleOffset + h.sampleCount);
    if h.flags.frameEnd != (end == frameSamples) {
      fits := false;
    }
  }

  lemma SoFarNext(ps: seq<Datagram>, i: nat, frameSamples: U32)
    requires i < |ps|
    ensures TiledSoFar(ps, i + 1, frameSamples) <==> TiledSoFar(ps, i, frameSamples) && Fits(ps, i, frameSamples)
    ensures TiledSoFar(ps, i, frameSamples) ==> ps[0].header.frameId == 0
  {
    hide Fits;
  }

  ghost function FrameCounter(ps: seq<Datagram>, n: nat): U32
    requires n <= |ps|
  {
    FrameCount(ps, n) % 0x1_0000_0000
  }

  lemma FramesNext(ps: seq<Datagram>, i: nat)
    requires i < |ps|
    ensures FrameCounter(ps, i + 1)
         == if StartsFrame(ps, i) then Wrap32(FrameCounter(ps, i) + 1) else FrameCounter(ps, i)
  {
    hide StartsFrame;
  }

  /** The second loop: the frame checks, the frame count and the running CRC. */
  method WalkFrames(ps: seq<Datagram>, frameSamples: U32) returns (ok: bool, frames: U32, crc: bv32)
    requires Sorted(ByFrame, ps)
    ensures ok == Tiles(ps, frameSamples)
    ensures frames == FrameCount(ps, |ps|) % 0x1_0000_0000
    ensures crc == Update(INITIAL, Payloads(ps))
  {
    var current: U32, expected: U32 := U32_MAX, 0;
    ok, frames, crc := |ps| > 0 ==> ps[0].header.frameId == 0, 0, INITIAL;
    for i := 0 to |ps|
      invariant Stands(ps, i, current, expected)
      invariant ok == TiledSoFar(ps, i, frameSamples)
      invariant frames == FrameCounter(ps, i)
      invariant crc == Update(INITIAL, Payloads(ps[..i]))
    {
      hide Update, Payloads, Fits, Sorted, Stands, StartsFrame, Tiles, TiledSoFar, Wrap32, FrameCounter, SamplesOf;
      SoFarNext(ps, i, frameSamples);
      FramesNext(ps, i);
      var fits, starts, end := WalkOne(ps, i, ps[i], frameSamples, current, expected);
      ok := ok && fits;
      if starts {
        frames := Wrap32(frames + 1);
      }
      current, expected := ps[i].header.frameId, end;
      PayloadsNext(ps, i);
      UpdateConcat(INITIAL, Payloads(ps[..i]), SamplesOf(ps[i]));
      crc := Update(crc, SamplesOf(ps[i]));
    }
    if |ps| > 0 && expected != frameSamples {
      ok := false;
    }
    assert ps[..|ps|] == ps;
  }

  lemma PayloadsNext(ps: seq<Datagram>, i: nat)
    requires i < |ps|
    ensures Payloads(ps[..i + 1]) == Payloads(ps[..i]) + SamplesOf(ps[i])
  {
    assert ps[..i + 1][..i] == ps[..i];
  }

  /** The copy of a shot's samples into one buffer. */
  method Gather(ps: seq<Datagram>) returns (samples: seq<Byte>)
    ensures samples == Payloads(ps)
  {
    samples := [];
    for i := 0 to |ps|
      invariant samples == Payloads(ps[..i])
    {
      PayloadsNext(ps, i);
      samples := samples + SamplesOf(ps[i]);
    }
    assert ps[..|ps|] == ps;
  }
}
