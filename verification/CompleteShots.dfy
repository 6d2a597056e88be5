/** What a shot without issues holds, packet by packet, for whatever datagrams arrived. */
module CompleteShots {
  import opened Crc32
  import opened Protocol
  import opened Ordering
  import opened Gaps
  import opened RunFormat
  import opened ShotModel
  import opened Verdicts

  // ----- the rules -----

  /** Nothing in the header but identity, format and sequence. */
  predicate Plain(h: Header) {
    && h.frameId == 0 && h.sampleOffset == 0 && h.sampleCount == 0 && h.timestampTicks == 0
    && !h.flags.timestampValid && !h.flags.frameStart && !h.flags.frameEnd && Unblamed(h.flags)
  }

  /** Neither the sender's complaints nor bits a DATA packet has no use for. */
  predicate Unblamed(f: Flags) {
    && !f.discontinuityBefore && !f.sourceOverflow && !f.senderDrop
    && !f.payloadCrcValid && !f.endOfStream && f.others == 0
  }

  predicate IsData(d: Datagram) {
    d.payload.Raw? && d.payload.kind == DataPacket
  }

  /** Four bytes a sample, in the announced format, and an end mark exactly at the end of a frame. */
  predicate DataRule(h: Header, bytes: nat, format: U16, frameSamples: U32) {
    && h.sampleCount >= 1 && h.sampleBytes == 4 && h.payloadFormat == format && bytes == 4 * h.sampleCount
    && Unblamed(h.flags)
    && (h.flags.frameEnd <==> (h.sampleOffset + h.sampleCount) % 0x1_0000_0000 == frameSamples)
  }

  /** A packet is the STREAM_INFO, the SHOT_END or a DATA packet that follows its rule. */
  predicate PacketRule(s: Shot, d: Datagram)
    requires s.info.Info? && s.end.End?
  {
    match d.payload
    case InfoObject(info) => Plain(d.header) && s.info.header == d.header && s.info.info == info
    case EndObject(end) =>
      && Plain(d.header) && d.header.payloadFormat == 0 && d.header.sampleBytes == 0
      && s.end.header == d.header && s.end.end == end
    case Raw(kind, bytes) =>
      kind == DataPacket && DataRule(d.header, |bytes|, s.info.header.payloadFormat, s.info.info.frameSamples)
  }

  predicate ProfileRule(h: Header, i: StreamInfo) {
    && i.frameSamples >= 1 && i.sampleRateDenominator >= 1 && i.timestampRateDenominator >= 1
    && (h.payloadFormat == 1 || h.payloadFormat == 2) && h.sampleBytes == 4
  }

  predicate EndRule(e: ShotEnd) {
    var f := e.endFlags;
    && e.status == 0 && f.payloadCrcValid && !f.timestampValid && !f.frameStart && !f.frameEnd
    && !f.discontinuityBefore && !f.sourceOverflow && !f.senderDrop && f.others == 0
  }

  predicate Earliest(packets: seq<Datagram>, d: Datagram) {
    forall x | x in packets && IsData(x) :: d.Sequence() <= x.Sequence()
  }

  predicate Latest(packets: seq<Datagram>, d: Datagram) {
    forall x | x in packets && IsData(x) :: x.Sequence() <= d.Sequence()
  }

  /** Only the first DATA packet has a timestamp, and it has one. */
  predicate TimeRule(packets: seq<Datagram>) {
    forall d | d in packets && IsData(d) ::
      && (d.header.flags.timestampValid <==> Earliest(packets, d))
      && (d.header.timestampTicks > 0 <==> Earliest(packets, d))
  }

  /** The sender's totals are those of the packets held. */
  predicate TotalsRule(packets: seq<Datagram>, e: ShotEnd) {
    && |packets| >= 3 && e.totalDataPackets == |packets| - 2
    && e.totalSamples == SampleTotal(packets) && e.payloadBytes == 4 * SampleTotal(packets)
    && forall d | d in packets && IsData(d) ::
         && (d.Sequence() == e.firstPacketSequence <==> Earliest(packets, d))
         && (d.Sequence() == e.lastPacketSequence <==> Latest(packets, d))
  }

  /** All of STREAM_INFO to SHOT_END is there. */
  ghost predicate Gapless(s: Shot)
    requires s.info.Info? && s.end.End?
  {
    && s.info.header.packetSequence < s.end.header.packetSequence
    && forall q: U64 | s.info.header.packetSequence <= q <= s.end.header.packetSequence :: Holds(s.packets, q)
  }

  ghost predicate Whole(s: Shot) {
    && s.info.Info? && s.end.End? && Gapless(s)
    && (forall d | d in s.packets :: PacketRule(s, d))
    && ProfileRule(s.info.header, s.info.info) && EndRule(s.end.end)
    && TimeRule(s.packets) && TotalsRule(s.packets, s.end.end)
  }

  /** A later STREAM_INFO or SHOT_END changes neither; both conflict, and different totals break the protocol. */
  lemma LaterObjects(s: Shot, d: Datagram)
    requires s.info.Info? && s.end.End? && !d.payload.Raw?
    ensures var t := NoteObject(s, d);
      && t.info == s.info && t.end == s.end && t.packets == s.packets && t.issues.conflict
      && (t.issues.protocol <==> s.issues.protocol || (d.payload.EndObject? && d.payload.end != s.end.end))
  {
  }

  // ----- why a shot without issues follows them -----

  lemma Admits(format: U16, d: Datagram)
    requires !Malformed(format, d) && IsData(d)
    ensures var h := d.header;
      && h.sampleCount >= 1 && h.sampleBytes == 4 && h.payloadFormat == format && |d.payload.bytes| == 4 * h.sampleCount
      && !h.flags.payloadCrcValid && !h.flags.endOfStream && h.flags.others == 0
    ensures Admissible(format, d)
  {
  }

  lemma ObjectsPlain(format: U16, d: Datagram)
    requires !Malformed(format, d) && !IsData(d) && !d.payload.Raw?
    ensures Plain(d.header) && !Admissible(format, d)
    ensures d.payload.EndObject? ==> d.header.payloadFormat == 0 && d.header.sampleBytes == 0
  {
  }

  /** Frames end where they are marked to. */
  lemma EndMarks(ps: seq<Datagram>, frameSamples: U32, d: Datagram)
    requires Tiles(ps, frameSamples) && d in ps
    ensures d.header.flags.frameEnd
       <==> (d.header.sampleOffset + d.header.sampleCount) % 0x1_0000_0000 == frameSamples
  {
    var i :| 0 <= i < |ps| && ps[i] == d;
    assert Fits(ps, i, frameSamples);
  }

  // ----- the DATA packets among all -----

  lemma {:induction false} DataSorted(format: U16, ps: seq<Datagram>)
    requires Sorted(BySequence, ps)
    ensures Sorted(BySequence, Data(format, ps))
  {
    if ps != [] {
      var init, d := ps[..|ps| - 1], ps[|ps| - 1];
      DataSorted(format, init);
      forall x | x in Data(format, init)
        ensures Before(BySequence, x, d)
      {
        DataMembers(format, init, x);
        var i :| 0 <= i < |init| && init[i] == x;
        assert ps[i] == x;
      }
    }
  }

  /** What is not DATA announces no samples. */
  lemma {:induction false} DataTotal(format: U16, ps: seq<Datagram>)
    requires forall d | d in ps :: Admissible(format, d) || d.header.sampleCount == 0
    ensures SampleTotal(Data(format, ps)) == SampleTotal(ps)
  {
    if ps != [] {
      var init, d := ps[..|ps| - 1], ps[|ps| - 1];
      DataTotal(format, init);
      assert d in ps;
      hide Admissible;
      if Admissible(format, d) {
        assert Data(format, ps)[..|Data(format, init)|] == Data(format, init);
      } else {
        assert Data(format, ps) == Data(format, init);
      }
    }
  }

  /** All but two packets are DATA. */
  lemma {:induction false} DataCount(format: U16, ps: seq<Datagram>, objects: set<Datagram>)
    requires Distinct(ps) && objects <= set d | d in ps
    requires forall d | d in ps :: Admissible(format, d) <==> d !in objects
    ensures |Data(format, ps)| + |objects| == |ps|
  {
    if ps == [] {
      assert objects == {};
    } else {
      var init, d := ps[..|ps| - 1], ps[|ps| - 1];
      assert ps == init + [d] && d in ps;
      assert d !in init;
      DataCount(format, init, objects - {d});
    }
  }

  // ----- all together -----

  /** The packets of a shot without issues, whose order does not matter. */
  ghost predicate Accounted(s: Shot, sorted: seq<Datagram>, data: seq<Datagram>) {
    && sorted == Sort(BySequence, s.packets) && data == Data(Format(s), sorted)
    && (forall d :: d in data <==> d in s.packets && IsData(d))
    && Sorted(BySequence, data) && Distinct(data) && data != []
    && |data| == |s.packets| - 2 && SampleTotal(data) == SampleTotal(s.packets)
  }

  /** No issue leaves no reason for one. */
  lemma Unissued(c: Context, s: Shot)
    requires !Judge(c, s).issues.Any()
    ensures !s.issues.conflict && !s.issues.protocol
    ensures s.end.End? && EndFlagsOk(s.end.end.endFlags) && s.end.end.endFlags.payloadCrcValid
    ensures s.end.end.status == SHOT_COMPLETE
  {
    hide Sort, Data, Tiles, TotalsOk, Malformed, BadProfile, OtherProfile, TimestampsOk, SourceFlagsOf, FrameCount,
         Missing, Payloads, Checksum, EndFlagsOk;
  }

  lemma AccountedFor(s: Shot, sorted: seq<Datagram>, data: seq<Datagram>)
    requires ShotOk(s) && !s.issues.conflict && !s.issues.protocol && s.info.Info? && s.end.End? && data != []
    requires sorted == Sort(BySequence, s.packets) && data == Data(Format(s), sorted)
    requires forall d | d in sorted :: !Malformed(Format(s), d)
    ensures Accounted(s, sorted, data)
  {
    hide Sort, Data, Malformed, Sorted, Distinct;
    var info, end := Datagram(s.info.header, InfoObject(s.info.info)), Datagram(s.end.header, EndObject(s.end.end));
    SameMembers(s.packets, sorted);
    DistinctPermutes(s.packets, sorted);
    SortSorts(BySequence, s.packets);
    DataSorted(Format(s), sorted);
    DataDistinct(Format(s), sorted);
    forall d
      ensures d in data <==> d in s.packets && IsData(d)
      ensures d in sorted ==> (Admissible(Format(s), d) <==> d !in {info, end})
      ensures d in sorted ==> Admissible(Format(s), d) || d.header.sampleCount == 0
    {
      DataMembers(Format(s), sorted, d);
      if d in sorted {
        SortOfPacket(s, d);
      }
    }
    DataCount(Format(s), sorted, {info, end});
    DataTotal(Format(s), sorted);
    TotalSort(BySequence, s.packets);
  }

  /** A packet is an object the shot knows, or DATA. */
  lemma SortOfPacket(s: Shot, d: Datagram)
    requires Announced(s) && !s.issues.conflict && !s.issues.protocol && d in s.packets
    requires s.info.Info? && s.end.End? && !Malformed(Format(s), d)
    ensures if IsData(d) then Admissible(Format(s), d)
            else !Admissible(Format(s), d) && Plain(d.header)
                 && (d == Datagram(s.info.header, InfoObject(s.info.info))
                     || d == Datagram(s.end.header, EndObject(s.end.end)))
  {
    if IsData(d) {
      Admits(Format(s), d);
    } else {
      ObjectsPlain(Format(s), d);
    }
  }

  lemma PacketsMeet(s: Shot, sorted: seq<Datagram>, data: seq<Datagram>, placed: seq<Datagram>)
    requires Accounted(s, sorted, data) && placed == Sort(ByFrame, data) && Tiles(placed, FrameSamples(s))
    requires ShotOk(s) && !s.issues.conflict && !s.issues.protocol && s.info.Info? && s.end.End?
    requires forall d | d in sorted :: !Malformed(Format(s), d)
    requires SourceFlagsOf(data) == SourceFlags(false, false, false)
    ensures forall d | d in s.packets :: PacketRule(s, d)
  {
    SameMembers(s.packets, sorted);
    SameMembers(data, placed);
    hide Sort, Data, Malformed, Tiles, Sorted, Distinct, Admissible, PacketRule, SourceFlagsOf, ShotOk, SampleTotal;
    forall d | d in s.packets
      ensures PacketRule(s, d)
    {
      if IsData(d) {
        EndMarks(placed, FrameSamples(s), d);
        Uncomplained(data, d);
      }
      PacketMeets(s, d);
    }
  }

  lemma Uncomplained(data: seq<Datagram>, d: Datagram)
    requires d in data && SourceFlagsOf(data) == SourceFlags(false, false, false)
    ensures !d.header.flags.discontinuityBefore && !d.header.flags.sourceOverflow && !d.header.flags.senderDrop
  {
  }

  lemma PacketMeets(s: Shot, d: Datagram)
    requires ShotOk(s) && !s.issues.conflict && !s.issues.protocol && s.info.Info? && s.end.End?
    requires d in s.packets && !Malformed(Format(s), d)
    requires IsData(d) ==>
      var h := d.header;
      && (h.flags.frameEnd <==> (h.sampleOffset + h.sampleCount) % 0x1_0000_0000 == FrameSamples(s))
      && !h.flags.discontinuityBefore && !h.flags.sourceOverflow && !h.flags.senderDrop
    ensures PacketRule(s, d)
  {
    SortOfPacket(s, d);
    hide Announced, Belongs, Malformed, Admissible;
    if IsData(d) {
      Admits(Format(s), d);
    } else {
      ObjectsPlain(Format(s), d);
    }
  }

  lemma ProfileMeets(s: Shot)
    requires s.info.Info? && s.end.End? && !BadProfile(s)
    requires EndFlagsOk(s.end.end.endFlags) && s.end.end.endFlags.payloadCrcValid && s.end.end.status == SHOT_COMPLETE
    ensures ProfileRule(s.info.header, s.info.info) && EndRule(s.end.end)
  {
  }

  /** The first of the sorted DATA packets is the earliest and the last the latest. */
  lemma Extremes(s: Shot, sorted: seq<Datagram>, data: seq<Datagram>, i: nat)
    requires Accounted(s, sorted, data) && i < |data|
    ensures Earliest(s.packets, data[i]) <==> i == 0
    ensures Latest(s.packets, data[i]) <==> i == |data| - 1
  {
    hide Sort, Data;
    assert data[0] in data && data[i] in data && data[|data| - 1] in data;
  }

  lemma TimesMeet(s: Shot, sorted: seq<Datagram>, data: seq<Datagram>)
    requires Accounted(s, sorted, data) && TimestampsOk(data)
    ensures TimeRule(s.packets)
  {
    hide Sort, Data, Earliest, Sorted, Distinct;
    forall d | d in s.packets && IsData(d)
      ensures d.header.flags.timestampValid <==> Earliest(s.packets, d)
      ensures d.header.timestampTicks > 0 <==> Earliest(s.packets, d)
    {
      var i :| 0 <= i < |data| && data[i] == d;
      Extremes(s, sorted, data, i);
    }
  }

  lemma TotalsMeet(s: Shot, sorted: seq<Datagram>, data: seq<Datagram>, frames: U32)
    requires Accounted(s, sorted, data) && s.end.End? && TotalsOk(s.end.end, data, frames)
    requires |Payloads(data)| == 4 * SampleTotal(data)
    ensures TotalsRule(s.packets, s.end.end)
  {
    hide Sort, Data, Earliest, Latest, Sorted, Payloads, SampleTotal;
    forall d | d in s.packets && IsData(d)
      ensures d.Sequence() == s.end.end.firstPacketSequence <==> Earliest(s.packets, d)
      ensures d.Sequence() == s.end.end.lastPacketSequence <==> Latest(s.packets, d)
    {
      var i :| 0 <= i < |data| && data[i] == d;
      Extremes(s, sorted, data, i);
    }
  }

  lemma GapsMeet(s: Shot)
    requires ShotOk(s) && SequenceIsComplete(s)
    ensures Gapless(s)
  {
    var info, end := Datagram(s.info.header, InfoObject(s.info.info)), Datagram(s.end.header, EndObject(s.end.end));
    assert info in s.packets && end in s.packets && info != end;
    forall q: U64 | s.info.header.packetSequence <= q <= s.end.header.packetSequence
      ensures Holds(s.packets, q)
    {
      assert q in Interval(s.info.header.packetSequence, s.end.header.packetSequence + 1);
      assert q in Values(Sequences(s.packets));
      var j :| 0 <= j < |s.packets| && s.packets[j].Sequence() == q;
      assert s.packets[j] in s.packets;
    }
  }

  lemma RulesMet(c: Context, s: Shot)
    requires ShotOk(s) && !Judge(c, s).issues.Any()
    ensures Whole(s)
  {
    hide *;
    NoIssues(c, s);
    var sorted := Sort(BySequence, s.packets);
    var data := Judge(c, s).data;
    Unissued(c, s);
    AccountedFor(s, sorted, data);
    DataFilled(Format(s), sorted);
    PacketsMeet(s, sorted, data, Judge(c, s).placed);
    ProfileMeets(s);
    TimesMeet(s, sorted, data);
    TotalsMeet(s, sorted, data, Frames(Judge(c, s)) % 0x1_0000_0000);
    Verdicts.NothingAbsent(s);
    GapsMeet(s);
    AllMet(s);
  }

  lemma AllMet(s: Shot)
    requires s.info.Info? && s.end.End? && Gapless(s) && forall d | d in s.packets :: PacketRule(s, d)
    requires ProfileRule(s.info.header, s.info.info) && EndRule(s.end.end)
    requires TimeRule(s.packets) && TotalsRule(s.packets, s.end.end)
    ensures Whole(s)
  {
    hide PacketRule, Gapless, TimeRule, TotalsRule;
  }

  // ----- and its record -----

  /** The record of a whole shot, in what its packets say. */
  ghost predicate Names(r: IndexRecord, s: Shot)
    requires s.info.Info? && s.end.End?
  {
    var dataPackets := |s.packets| - 2;
    && r.shotId == s.shotId
    && r.firstPacketSequence == s.info.header.packetSequence && r.lastPacketSequence == s.end.header.packetSequence
    && (exists d | d in s.packets :: IsData(d) && Earliest(s.packets, d)
                                     && d.header.timestampTicks == r.firstSampleTimestamp)
    && r.extent.Extent? && r.extent.bytes == s.end.end.payloadBytes && r.payloadCrc32 == s.end.end.payloadCrc32
    && r.frameCount == s.end.end.totalFrames && r.frameSamples == s.info.info.frameSamples
    && r.dataPackets == (if dataPackets < 0x1_0000_0000 then dataPackets else 0xffff_ffff)
    && r.datagrams == s.datagrams && r.duplicatePackets == s.duplicatePackets
    && r.reorderedPackets == s.reorderedPackets
    && r.firstReceiveNs == s.firstReceiveNs && r.lastReceiveNs == s.lastReceiveNs
    && r.payloadFormat == s.info.header.payloadFormat && r.sampleBytesPerWord == s.info.header.sampleBytes
    && r.configId == s.info.info.configId
  }

  lemma RecordNames(c: Context, s: Shot, offset: nat)
    requires ShotOk(s) && !Judge(c, s).issues.Any()
    ensures Whole(s) && Names(RecordOf(s, Judge(c, s), offset), s)
  {
    hide *;
    RulesMet(c, s);
    NoIssues(c, s);
    Unissued(c, s);
    var sorted := Sort(BySequence, s.packets);
    AccountedFor(s, sorted, Judge(c, s).data);
    Extremes(s, sorted, Judge(c, s).data, 0);
    RecordFields(s, Judge(c, s), sorted, offset);
  }

  lemma RecordFields(s: Shot, v: Verdict, sorted: seq<Datagram>, offset: nat)
    requires s.info.Info? && s.end.End? && !v.issues.Any() && Accounted(s, sorted, v.data)
    requires TotalsOk(s.end.end, v.data, Frames(v) % 0x1_0000_0000)
    requires s.end.end.payloadCrc32 == Checksum(Payloads(v.placed)) && Earliest(s.packets, v.data[0])
    ensures Names(RecordOf(s, v, offset), s)
  {
    hide Sort, Data, Sorted, Distinct, Payloads, SampleTotal, Checksum, Earliest, Frames, SourceFlagsOf;
    assert v.data[0] in v.data;
  }

  /** Any record: complete without issues, the sender's complaints exactly those of its well-formed DATA packets, and
      the identity, ends and counters of the shot. */
  lemma AnyRecord(c: Context, s: Shot, offset: nat)
    ensures var r := RecordOf(s, Judge(c, s), offset);
      && r.shotId == s.shotId
      && (r.complete <==> r.issues == Issues(false, false, false, false, false, false, false, false))
      && (r.complete <==> r.extent.Extent?)
      && (s.info.Info? ==> r.firstPacketSequence == s.info.header.packetSequence)
      && (s.end.End? ==> r.lastPacketSequence == s.end.header.packetSequence)
      && r.datagrams == s.datagrams && r.duplicatePackets == s.duplicatePackets
      && r.reorderedPackets == s.reorderedPackets
      && (r.sourceFlags.discontinuityBefore
          <==> exists d | d in s.packets :: Admissible(Format(s), d) && d.header.flags.discontinuityBefore)
      && (r.sourceFlags.sourceOverflow
          <==> exists d | d in s.packets :: Admissible(Format(s), d) && d.header.flags.sourceOverflow)
      && (r.sourceFlags.senderDrop
          <==> exists d | d in s.packets :: Admissible(Format(s), d) && d.header.flags.senderDrop)
  {
    hide Sort, Data, Tiles, TotalsOk, Malformed, BadProfile, OtherProfile, TimestampsOk, FrameCount, Missing, Payloads,
         Checksum, EndFlagsOk, Admissible, BreaksContinuity, SampleTotal;
    var sorted := Sort(BySequence, s.packets);
    SameMembers(s.packets, sorted);
    forall d
      ensures d in Data(Format(s), sorted) <==> d in s.packets && Admissible(Format(s), d)
    {
      DataMembers(Format(s), sorted, d);
    }
  }
}
