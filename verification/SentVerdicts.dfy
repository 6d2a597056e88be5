/** The recorder's verdict on a shot whose packets all come from one packetized shot. */
module SentVerdicts {
  import opened Crc32
  import opened Protocol
  import opened Packetizer
  import opened Ordering
  import opened Gaps
  import opened RunFormat
  import opened ShotModel
  import opened SentShots

  function InfoOf(c: Config): Info {
    Info(InfoDatagram(c).header, StreamInfoOf(c))
  }

  function EndOf(c: Config, samples: seq<Byte>): End
    requires Accepts(c, samples)
  {
    End(EndDatagram(c, samples).header, EndDatagram(c, samples).payload.end)
  }

  /** A shot being recorded from the datagrams of a sent one: some of them, each once. */
  ghost predicate ShotFrom(s: Shot, c: Config, samples: seq<Byte>) {
    && Accepts(c, samples)
    && s.shotId == c.shotId
    && Distinct(s.packets)
    && (forall p | p in s.packets :: p in Datagrams(c, samples))
    && s.issues == NO_ISSUES && s.conflictingPackets == 0
    && s.info == (if InfoDatagram(c) in s.packets then InfoOf(c) else NoInfo)
    && s.end == (if EndDatagram(c, samples) in s.packets then EndOf(c, samples) else NoEnd)
  }

  /** The shot's packet of a given sequence. */
  lemma BySequenceUnique(c: Config, samples: seq<Byte>, p: Datagram, i: nat)
    requires Accepts(c, samples) && i < DataPackets(c) + 2
    requires p in Datagrams(c, samples) && p.Sequence() == c.initialSequence + i
    ensures p == Datagrams(c, samples)[i]
  {
    hide Accepts, Datagrams;
    var ds := Datagrams(c, samples);
    var j :| 0 <= j < |ds| && ds[j] == p;
    SequenceAt(c, samples, j);
  }

  lemma EndsKnown(s: Shot, c: Config, samples: seq<Byte>)
    requires ShotFrom(s, c, samples) && Bounded(s)
    ensures s.info == InfoOf(c) && s.end == EndOf(c, samples)
    ensures s.info.header.packetSequence == c.initialSequence
    ensures s.end.header.packetSequence == c.initialSequence + DataPackets(c) + 1
  {
    hide Accepts, Datagrams, DataPackets, Checksum;
  }

  lemma SequenceHeld(s: Shot, q: U64)
    requires SequenceIsComplete(s)
    requires s.info.header.packetSequence <= q <= s.end.header.packetSequence
    ensures exists p | p in s.packets :: p.Sequence() == q
  {
    assert q in Interval(s.info.header.packetSequence, s.end.header.packetSequence + 1);
    assert q in Values(Sequences(s.packets));
    var j :| 0 <= j < |s.packets| && s.packets[j].Sequence() == q;
    assert s.packets[j] in s.packets;
  }

  lemma AllReceived(s: Shot, c: Config, samples: seq<Byte>)
    requires ShotFrom(s, c, samples) && SequenceIsComplete(s)
    ensures forall d :: d in s.packets <==> d in Datagrams(c, samples)
    ensures s.info == InfoOf(c) && s.end == EndOf(c, samples)
  {
    hide SequenceIsComplete, Accepts, Datagrams, DataPackets, InfoOf, EndOf, InfoDatagram, EndDatagram;
    assert Bounded(s) by { CompleteBounded(s); }
    EndsKnown(s, c, samples);
    var ds := Datagrams(c, samples);
    forall d | d in ds
      ensures d in s.packets
    {
      var i :| 0 <= i < |ds| && ds[i] == d;
      SequenceAt(c, samples, i);
      SequenceHeld(s, d.Sequence());
      var p :| p in s.packets && p.Sequence() == d.Sequence();
      BySequenceUnique(c, samples, p, i);
    }
  }

  lemma CompleteBounded(s: Shot)
    requires SequenceIsComplete(s)
    ensures Bounded(s)
  {
  }

  lemma {:induction false} DistinctMultiset(a: seq<Datagram>, b: seq<Datagram>)
    requires Distinct(a) && Distinct(b)
    requires forall d :: d in a <==> d in b
    ensures multiset(a) == multiset(b)
  {
    forall d
      ensures multiset(a)[d] == multiset(b)[d]
    {
      if d in a {
        OnceIn(a, d);
        OnceIn(b, d);
      }
    }
  }

  /** Once no sequence is absent, the recorder holds the shot exactly as it was sent. */
  lemma SortedAsSent(s: Shot, c: Config, samples: seq<Byte>)
    requires ShotFrom(s, c, samples) && SequenceIsComplete(s)
    ensures Sort(BySequence, s.packets) == Datagrams(c, samples)
  {
    AllReceived(s, c, samples);
    SentInOrder(c, samples);
    hide Accepts, Datagrams, Sort;
    DistinctMultiset(s.packets, Datagrams(c, samples));
    SortSorts(BySequence, s.packets);
    SortedUnique(BySequence, Datagrams(c, samples), Sort(BySequence, s.packets));
  }

  // ----- the verdict on it -----

  lemma {:induction false} DataConcat(format: U16, a: seq<Datagram>, b: seq<Datagram>)
    ensures Data(format, a + b) == Data(format, a) + Data(format, b)
  {
    if b == [] {
      assert a + b == a;
    } else {
      assert (a + b)[..|a + b| - 1] == a + b[..|b| - 1];
      DataConcat(format, a, b[..|b| - 1]);
    }
  }

  lemma {:induction false} DataAll(format: U16, a: seq<Datagram>)
    requires forall d | d in a :: Admissible(format, d)
    ensures Data(format, a) == a
  {
    if a != [] {
      DataAll(format, a[..|a| - 1]);
      assert a == a[..|a| - 1] + [a[|a| - 1]];
    }
  }

  lemma MiddleAdmissible(c: Config, samples: seq<Byte>, p: nat)
    requires Accepts(c, samples) && p < DataPackets(c)
    ensures Admissible(c.payloadFormat, Middle(c, samples)[p])
  {
    hide Middle, Accepts, DataDatagram, Datagrams, PacketsPerFrame, PacketsBefore, Offset;
    var f, k := Packet(c, samples, p);
    Fields(c, samples, f, k);
  }

  lemma SentSplit(c: Config, samples: seq<Byte>)
    requires Accepts(c, samples)
    ensures Datagrams(c, samples) == [InfoDatagram(c)] + Middle(c, samples) + [EndDatagram(c, samples)]
  {
    SequenceAt(c, samples, 0);
    SequenceAt(c, samples, DataPackets(c) + 1);
    hide InfoDatagram, EndDatagram, Accepts;
  }

  lemma SentData(c: Config, samples: seq<Byte>)
    requires Accepts(c, samples)
    ensures Data(c.payloadFormat, Datagrams(c, samples)) == Middle(c, samples)
    ensures forall d | d in Datagrams(c, samples) :: !Malformed(c.payloadFormat, d)
  {
    hide Middle, Accepts, DataPackets, Datagrams, Checksum, Data, InfoDatagram, EndDatagram;
    SentSplit(c, samples);
    var m := Middle(c, samples);
    forall d | d in m
      ensures Admissible(c.payloadFormat, d)
    {
      var p :| 0 <= p < |m| && m[p] == d;
      MiddleAdmissible(c, samples, p);
    }
    DataAll(c.payloadFormat, m);
    DataConcat(c.payloadFormat, [InfoDatagram(c)], m);
    DataConcat(c.payloadFormat, [InfoDatagram(c)] + m, [EndDatagram(c, samples)]);
    NoData(c, samples);
  }

  lemma NoData(c: Config, samples: seq<Byte>)
    requires Accepts(c, samples)
    ensures Data(c.payloadFormat, [InfoDatagram(c)]) == [] && Data(c.payloadFormat, [EndDatagram(c, samples)]) == []
    ensures !Malformed(c.payloadFormat, InfoDatagram(c)) && !Malformed(c.payloadFormat, EndDatagram(c, samples))
  {
    hide Accepts, DataPackets, Checksum;
    var info, end := InfoDatagram(c), EndDatagram(c, samples);
    assert [info][..0] == [] && [end][..0] == [];
  }

  /** The timestamp a shot is sent with; none is zero. */
  function Time(c: Config): U64 {
    if c.firstSampleTimestampValid then c.firstSampleTimestamp else 0
  }

  predicate ContinuityOk(ctx: Context, c: Config) {
    && (ctx.expected.Some? ==> c.initialSequence == ctx.expected.value)
    && (ctx.last.Some? ==> c.shotId > ctx.last.value.shotId && Time(c) > ctx.last.value.timestamp)
  }

  predicate ProfileOk(ctx: Context, c: Config) {
    ctx.profile.Info? ==>
      && SaysProfile(ctx.profile.info, c)
      && ctx.profile.header.payloadFormat == c.payloadFormat
      && ctx.profile.header.sampleBytes == c.sampleBytes
  }

  /** The issues of a fully received shot are those of the run it arrives in, and the missing timestamp of a
      shot sent without one, or with zero. */
  lemma JudgeSent(ctx: Context, s: Shot, c: Config, samples: seq<Byte>)
    requires ShotFrom(s, c, samples) && SequenceIsComplete(s)
    ensures var v := Judge(ctx, s);
      && v.data == v.placed == Middle(c, samples) && Payloads(v.placed) == samples
      && FirstTimestamp(v.data) == Time(c)
      && v.missing == 0
      && v.issues == NO_ISSUES.(protocol := !ProfileOk(ctx, c), frame := |samples| > ctx.maxShotBytes,
                                timestamp := Time(c) == 0, continuity := !ContinuityOk(ctx, c))
  {
    hide Sort, Data, Middle, Accepts, Datagrams, Tiles, FrameCount, Missing, SequenceIsComplete, TimestampsOk,
         TotalsOk, Malformed, SourceFlagsOf, Payloads, SampleTotal, Checksum, DataPackets, BadProfile, EndFlagsOk,
         OtherProfile, ProfileOk, ContinuityOk, InfoOf, EndOf, FirstTimestamp;
    AllReceived(s, c, samples);
    SortedAsSent(s, c, samples);
    SentData(c, samples);
    MiddlePlaced(c, samples);
    MiddleTiles(c, samples);
    WholePayload(c, samples);
    SentTimestamps(c, samples);
    SentTotals(c, samples);
    NothingMissing(s);
    NotBad(c, samples);
    SentContext(ctx, s, c);
  }

  /** The COMPLETE record of a shot in the sender's terms. */
  ghost predicate RecordSays(r: IndexRecord, c: Config, samples: seq<Byte>) {
    var dataPackets := c.frameCount * ((c.frameSamples + 333) / 334);
    && r.complete && r.shotId == c.shotId
    && r.firstPacketSequence == c.initialSequence && r.lastPacketSequence == c.initialSequence + dataPackets + 1
    && r.firstSampleTimestamp == c.firstSampleTimestamp
    && r.extent.Extent? && r.extent.bytes == |samples|
    && r.frameCount == c.frameCount && r.frameSamples == c.frameSamples
    && r.dataPackets == (if dataPackets < 0x1_0000_0000 then dataPackets else 0xffff_ffff)
    && r.missingPackets == 0 && r.payloadCrc32 == Checksum(samples)
    && !r.sourceFlags.discontinuityBefore && !r.sourceFlags.sourceOverflow && !r.sourceFlags.senderDrop
    && r.payloadFormat == c.payloadFormat && r.sampleBytesPerWord == 4 && r.configId == c.configId
  }

  /** What a fully received shot without issues is recorded as. */
  lemma SentRecord(ctx: Context, s: Shot, c: Config, samples: seq<Byte>, offset: nat)
    requires ShotFrom(s, c, samples) && SequenceIsComplete(s) && !Judge(ctx, s).issues.Any()
    ensures RecordSays(RecordOf(s, Judge(ctx, s), offset), c, samples)
  {
    hide *;
    JudgeSent(ctx, s, c, samples);
    AllReceived(s, c, samples);
    FieldsOfRecord(s, Judge(ctx, s), c, samples, offset);
  }

  lemma FieldsOfRecord(s: Shot, v: Verdict, c: Config, samples: seq<Byte>, offset: nat)
    requires ShotFrom(s, c, samples) && s.info == InfoOf(c) && s.end == EndOf(c, samples)
    requires v.data == v.placed == Middle(c, samples) && Payloads(v.placed) == samples
    requires FirstTimestamp(v.data) == Time(c) && v.missing == 0 && !v.issues.Any()
    requires v.issues.timestamp == (Time(c) == 0)
    ensures RecordSays(RecordOf(s, v, offset), c, samples)
  {
    hide ShotFrom, Accepts, Middle, Payloads, Checksum, Datagrams, FrameCount, FirstTimestamp, SourceFlagsOf;
    assert Accepts(c, samples) && s.shotId == c.shotId by { FromShot(s, c, samples); }
    SentTimestamps(c, samples);
    MiddleTiles(c, samples);
    MiddleEnds(c, samples);
    ArgumentsMet(c, samples);
  }

  lemma FromShot(s: Shot, c: Config, samples: seq<Byte>)
    requires ShotFrom(s, c, samples)
    ensures Accepts(c, samples) && s.shotId == c.shotId
  {
  }

  lemma ArgumentsMet(c: Config, samples: seq<Byte>)
    requires Accepts(c, samples)
    ensures c.sampleBytes == 4 && DataPackets(c) == c.frameCount * ((c.frameSamples + 333) / 334)
  {
  }

  lemma SentContext(ctx: Context, s: Shot, c: Config)
    requires s.info == InfoOf(c)
    ensures OtherProfile(ctx, s) <==> !ProfileOk(ctx, c)
    ensures s.info.Info? && Format(s) == c.payloadFormat && FrameSamples(s) == c.frameSamples
    ensures s.info.header.packetSequence == c.initialSequence
    ensures ContinuityOk(ctx, c) <==>
            && (ctx.expected.Some? ==> c.initialSequence == ctx.expected.value)
            && (ctx.last.Some? ==> c.shotId > ctx.last.value.shotId && Time(c) > ctx.last.value.timestamp)
  {
  }

  lemma NothingMissing(s: Shot)
    requires SequenceIsComplete(s)
    ensures Missing(s) == 0
  {
  }

  lemma SentTimestamps(c: Config, samples: seq<Byte>)
    requires Accepts(c, samples)
    ensures TimestampsOk(Middle(c, samples)) <==> Time(c) != 0
    ensures FirstTimestamp(Middle(c, samples)) == Time(c)
    ensures SourceFlagsOf(Middle(c, samples)) == SourceFlags(false, false, false)
    ensures Middle(c, samples) != []
  {
    hide Middle, Accepts, DataDatagram, Datagrams, PacketsPerFrame, Offset, Count;
    var m := Middle(c, samples);
    FirstPacket(c, samples);
    Fields(c, samples, 0, 0);
    forall p | 0 <= p < |m|
      ensures p > 0 ==> !Timed(m[p])
      ensures var g := m[p].header.flags; !g.discontinuityBefore && !g.sourceOverflow && !g.senderDrop
    {
      var f, k := Packet(c, samples, p);
      Fields(c, samples, f, k);
    }
  }

  lemma SentTotals(c: Config, samples: seq<Byte>)
    requires Accepts(c, samples)
    ensures TotalsOk(EndOf(c, samples).end, Middle(c, samples), c.frameCount)
  {
    hide Middle, Accepts, Datagrams, Checksum;
    WholePayload(c, samples);
    FirstPacket(c, samples);
    SequenceAt(c, samples, 1);
    SequenceAt(c, samples, DataPackets(c));
    MiddleEnds(c, samples);
    SampleBytesOf(c, samples);
  }

  lemma MiddleEnds(c: Config, samples: seq<Byte>)
    requires Accepts(c, samples) && DataPackets(c) > 0
    ensures Middle(c, samples)[0] == Datagrams(c, samples)[1]
    ensures Middle(c, samples)[DataPackets(c) - 1] == Datagrams(c, samples)[DataPackets(c)]
  {
    hide Datagrams;
  }

  lemma SampleBytesOf(c: Config, samples: seq<Byte>)
    requires Accepts(c, samples)
    ensures SAMPLE_BYTES * TotalSamples(c) == |samples|
  {
  }

  lemma NotBad(c: Config, samples: seq<Byte>)
    requires Accepts(c, samples)
    ensures EndOf(c, samples).End?
    ensures EndFlagsOk(EndOf(c, samples).end.endFlags) && EndOf(c, samples).end.endFlags.payloadCrcValid
    ensures EndOf(c, samples).end.payloadCrc32 == Checksum(samples) && EndOf(c, samples).end.status == SHOT_COMPLETE
    ensures forall s: Shot | s.info == InfoOf(c) :: !BadProfile(s)
  {
    hide Checksum;
  }
}
