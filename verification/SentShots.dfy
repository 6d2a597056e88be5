/** How the recorder's checks see the datagrams of a packetized shot. */
module SentShots {
  import opened Crc32
  import opened Protocol
  import opened Packetizer
  import opened Ordering
  import opened ShotModel
  import T = Tiling

  /** The DATA datagrams of a shot. */
  function Middle(c: Config, samples: seq<Byte>): (ds: seq<Datagram>)
    requires Accepts(c, samples)
    ensures |ds| == DataPackets(c)
  {
    Datagrams(c, samples)[1..DataPackets(c) + 1]
  }

  lemma Packet(c: Config, samples: seq<Byte>, p: nat) returns (f: nat, k: nat)
    requires Accepts(c, samples) && p < DataPackets(c)
    ensures f < c.frameCount && k < PacketsPerFrame(c) && p == PacketsBefore(c, f) + k
    ensures Middle(c, samples)[p] == DataDatagram(c, samples, f, k) == Datagrams(c, samples)[p + 1]
    ensures k + 1 < PacketsPerFrame(c) || (k + 1 == PacketsPerFrame(c) && p + 1 == PacketsBefore(c, f + 1))
  {
    f, k := p / PacketsPerFrame(c), p % PacketsPerFrame(c);
    PacketPlace(c, p);
    NextFrame(c, f);
    hide PacketsBefore;
  }

  /** The fields of packet `k` of frame `f`. */
  lemma Fields(c: Config, samples: seq<Byte>, f: nat, k: nat)
    requires Accepts(c, samples)
    requires f < c.frameCount && k < PacketsPerFrame(c)
    ensures Offset(k) < c.frameSamples
    ensures var d := DataDatagram(c, samples, f, k);
      && d.Type() == DataPacket && d.payload.Raw?
      && d.Sequence() == c.initialSequence + 1 + PacketsBefore(c, f) + k
      && d.header.frameId == f && d.header.sampleOffset == Offset(k) && d.header.sampleCount == Count(c, k)
      && 0 < Count(c, k) <= SAMPLES_PER_PACKET
      && |d.payload.bytes| == SAMPLE_BYTES * Count(c, k)
      && d.header.payloadFormat == c.payloadFormat && d.header.sampleBytes == SAMPLE_BYTES
      && d.header.shotId == c.shotId && d.header.runId == c.runId && d.header.streamId == c.streamId
      && d.header.flags == NO_FLAGS.(timestampValid := f == 0 && k == 0 && c.firstSampleTimestampValid,
                                     frameStart := k == 0, frameEnd := k + 1 == PacketsPerFrame(c))
      && d.header.timestampTicks ==
           (if f == 0 && k == 0 && c.firstSampleTimestampValid then c.firstSampleTimestamp else 0)
      && EndOffset(d) == Offset(k) + Count(c, k)
      && EndOffset(d) == (if k + 1 == PacketsPerFrame(c) then c.frameSamples else Offset(k + 1))
  {
    NextBounds(c, samples, f, k);
    PacketFits(c, f, k);
    hide PacketsBefore, SamplesBefore, PacketsPerFrame;
  }

  lemma SequenceAt(c: Config, samples: seq<Byte>, i: nat)
    requires Accepts(c, samples) && i < DataPackets(c) + 2
    ensures Datagrams(c, samples)[i].Sequence() == c.initialSequence + i
    ensures var h := Datagrams(c, samples)[i].header;
            h.shotId == c.shotId && h.runId == c.runId && h.streamId == c.streamId
    ensures Datagrams(c, samples)[i].Length() <= MAX_DATAGRAM
    ensures Datagrams(c, samples)[i].Type() ==
            if i == 0 then StreamInfoPacket else if i <= DataPackets(c) then DataPacket else ShotEndPacket
    ensures i == 0 ==> Datagrams(c, samples)[i] == InfoDatagram(c)
    ensures i == DataPackets(c) + 1 ==> Datagrams(c, samples)[i] == EndDatagram(c, samples)
  {
    if 0 < i <= DataPackets(c) {
      var f, k := Packet(c, samples, i - 1);
      Fields(c, samples, f, k);
      hide Accepts, Datagrams, DataDatagram, PacketsBefore, DataPackets, PacketsPerFrame, Middle;
    }
  }

  lemma SentInOrder(c: Config, samples: seq<Byte>)
    requires Accepts(c, samples)
    ensures Distinct(Datagrams(c, samples)) && Sorted(BySequence, Datagrams(c, samples))
    ensures Distinct(Middle(c, samples))
  {
    hide Datagrams;
    var ds := Datagrams(c, samples);
    forall i, j | 0 <= i < j < |ds|
      ensures ds[i].Sequence() < ds[j].Sequence()
    {
      SequenceAt(c, samples, i);
      SequenceAt(c, samples, j);
    }
  }

  /** Packet `p + 1` follows packet `p`: in its frame, or at the start of the next. */
  lemma Adjacent(c: Config, samples: seq<Byte>, p: nat)
    requires Accepts(c, samples) && p + 1 < DataPackets(c)
    ensures var a, b := Middle(c, samples)[p], Middle(c, samples)[p + 1];
      if b.header.frameId == a.header.frameId then
        b.header.sampleOffset == EndOffset(a) && !b.header.flags.frameStart
        && a.header.sampleOffset < b.header.sampleOffset
      else b.header.frameId == a.header.frameId + 1 && EndOffset(a) == c.frameSamples
           && b.header.sampleOffset == 0 && b.header.flags.frameStart
    ensures EndOffset(Middle(c, samples)[p]) == c.frameSamples <==>
            Middle(c, samples)[p + 1].header.frameId != Middle(c, samples)[p].header.frameId
  {
    hide PacketsBefore, Accepts, DataDatagram, PacketsPerFrame, Datagrams, Middle, Offset, Count, EndOffset;
    var f, k := Packet(c, samples, p);
    Fields(c, samples, f, k);
    NextPacket(c, samples, f, k, p);
  }

  lemma NextPacket(c: Config, samples: seq<Byte>, f: nat, k: nat, p: nat)
    requires Accepts(c, samples) && p + 1 < DataPackets(c)
    requires f < c.frameCount && k < PacketsPerFrame(c) && p == PacketsBefore(c, f) + k
    requires k + 1 < PacketsPerFrame(c) || (k + 1 == PacketsPerFrame(c) && p + 1 == PacketsBefore(c, f + 1))
    ensures var b := Middle(c, samples)[p + 1];
      if k + 1 < PacketsPerFrame(c) then
        b.header.frameId == f && b.header.sampleOffset == Offset(k + 1) && !b.header.flags.frameStart
        && Offset(k) < Offset(k + 1) < c.frameSamples
      else b.header.frameId == f + 1 && b.header.sampleOffset == 0 && b.header.flags.frameStart
  {
    hide PacketsBefore, Accepts, DataDatagram, PacketsPerFrame, Datagrams, Count, EndOffset;
    if k + 1 < PacketsPerFrame(c) {
      ShotAt(c, samples, f, k + 1);
      MiddleAt(c, samples, p + 1);
      Fields(c, samples, f, k + 1);
    } else {
      FrameInRange(c, f);
      SomePackets(c, samples);
      ShotAt(c, samples, f + 1, 0);
      MiddleAt(c, samples, p + 1);
      Fields(c, samples, f + 1, 0);
    }
  }

  lemma MiddleAt(c: Config, samples: seq<Byte>, p: nat)
    requires Accepts(c, samples) && p < DataPackets(c)
    ensures Middle(c, samples)[p] == Datagrams(c, samples)[p + 1]
  {
    hide Datagrams;
  }

  lemma FrameInRange(c: Config, f: nat)
    requires f < c.frameCount
    ensures PacketsBefore(c, f + 1) < DataPackets(c) ==> f + 1 < c.frameCount
  {
  }

  lemma AdjacentBefore(c: Config, samples: seq<Byte>, p: nat)
    requires Accepts(c, samples) && p + 1 < DataPackets(c)
    ensures Before(ByFrame, Middle(c, samples)[p], Middle(c, samples)[p + 1])
  {
    hide Middle;
    Adjacent(c, samples, p);
  }

  lemma {:induction false} InFrameOrder(c: Config, samples: seq<Byte>, i: nat, j: nat)
    requires Accepts(c, samples) && i < j < DataPackets(c)
    ensures Before(ByFrame, Middle(c, samples)[i], Middle(c, samples)[j])
    decreases j - i
  {
    hide Before, Middle, Accepts;
    AdjacentBefore(c, samples, j - 1);
    if i < j - 1 {
      InFrameOrder(c, samples, i, j - 1);
      var m := Middle(c, samples);
      BeforeTransitive(ByFrame, m[i], m[j - 1], m[j]);
    }
  }

  /** Sending order is frame order, so sorting by frame changes nothing. */
  lemma MiddlePlaced(c: Config, samples: seq<Byte>)
    requires Accepts(c, samples)
    ensures Sort(ByFrame, Middle(c, samples)) == Middle(c, samples)
  {
    hide Before, Middle, Accepts, Distinct;
    SentInOrder(c, samples);
    var m := Middle(c, samples);
    forall i, j | 0 <= i < j < |m|
      ensures Before(ByFrame, m[i], m[j])
    {
      InFrameOrder(c, samples, i, j);
    }
    SortOfSorted(ByFrame, m);
  }

  lemma FirstPacket(c: Config, samples: seq<Byte>)
    requires Accepts(c, samples)
    ensures DataPackets(c) > 0
    ensures Middle(c, samples)[0] == DataDatagram(c, samples, 0, 0)
    ensures c.frameCount > 0 && PacketsPerFrame(c) > 0
    ensures PacketsBefore(c, 0) == 0 && Offset(0) == 0
  {
    SomePackets(c, samples);
    PacketPlace(c, 0);
  }

  lemma SomePackets(c: Config, samples: seq<Byte>)
    requires Accepts(c, samples)
    ensures DataPackets(c) > 0 && PacketsPerFrame(c) > 0
  {
    T.AtLeast(c.frameCount, PacketsPerFrame(c));
  }

  lemma MiddleFits(c: Config, samples: seq<Byte>, p: nat)
    requires Accepts(c, samples) && p < DataPackets(c)
    ensures Fits(Middle(c, samples), p, c.frameSamples)
  {
    hide Middle, Accepts, DataDatagram, PacketsBefore, PacketsPerFrame, Offset, Count, Datagrams;
    var f, k := Packet(c, samples, p);
    Fields(c, samples, f, k);
    EndsFrame(c, samples, f, k);
    if p == 0 {
      FirstPacket(c, samples);
      Fields(c, samples, 0, 0);
    } else {
      Adjacent(c, samples, p - 1);
    }
  }

  lemma EndsFrame(c: Config, samples: seq<Byte>, f: nat, k: nat)
    requires Accepts(c, samples)
    requires f < c.frameCount && k < PacketsPerFrame(c)
    ensures var d := DataDatagram(c, samples, f, k);
            d.header.flags.frameEnd <==> EndOffset(d) == c.frameSamples
  {
    Fields(c, samples, f, k);
    if k + 1 < PacketsPerFrame(c) {
      NextBounds(c, samples, f, k + 1);
    }
    hide DataDatagram, PacketsBefore, Accepts;
  }

  lemma LastPacket(c: Config, samples: seq<Byte>)
    requires Accepts(c, samples)
    ensures DataPackets(c) > 0
    ensures var last := Middle(c, samples)[DataPackets(c) - 1];
            EndOffset(last) == c.frameSamples && last.header.frameId == c.frameCount - 1
  {
    hide Middle, Accepts, DataDatagram, Offset, Count, Datagrams;
    SomePackets(c, samples);
    var f, k := Packet(c, samples, DataPackets(c) - 1);
    Fields(c, samples, f, k);
    LastIndex(c, f, k);
  }

  lemma LastIndex(c: Config, f: nat, k: nat)
    requires f < c.frameCount && k < PacketsPerFrame(c)
    requires PacketsBefore(c, f) + k == DataPackets(c) - 1
    ensures f == c.frameCount - 1 && k + 1 == PacketsPerFrame(c)
  {
    var n := PacketsPerFrame(c);
    assert f < c.frameCount - 1 ==> (f + 2) * n <= c.frameCount * n;
    assert (f + 2) * n == f * n + 2 * n;
    assert f == c.frameCount - 1 ==> c.frameCount * n == f * n + n;
  }

  /** A packetized shot passes the recorder's frame walk. */
  lemma MiddleTiles(c: Config, samples: seq<Byte>)
    requires Accepts(c, samples)
    ensures Tiles(Middle(c, samples), c.frameSamples)
    ensures FrameCount(Middle(c, samples), |Middle(c, samples)|) == c.frameCount
  {
    hide Middle, Accepts, Fits, DataDatagram, FrameCount;
    var m := Middle(c, samples);
    forall p | 0 <= p < |m|
      ensures Fits(m, p, c.frameSamples)
    {
      MiddleFits(c, samples, p);
    }
    FirstPacket(c, samples);
    Fields(c, samples, 0, 0);
    LastPacket(c, samples);
    T.FramesCounted(m, c.frameSamples, |m| - 1);
  }

  /** The samples that packet `p` of a shot ends with. */
  function EndPosition(c: Config, samples: seq<Byte>, p: nat): nat
    requires Accepts(c, samples) && p < DataPackets(c)
  {
    var h := Middle(c, samples)[p].header;
    SamplesBefore(c, h.frameId) + h.sampleOffset + h.sampleCount
  }

  lemma StartPosition(c: Config, samples: seq<Byte>, p: nat)
    requires Accepts(c, samples) && p < DataPackets(c)
    ensures var h := Middle(c, samples)[p].header;
            SamplesBefore(c, h.frameId) + h.sampleOffset == if p == 0 then 0 else EndPosition(c, samples, p - 1)
  {
    hide Middle, Accepts, DataDatagram, SamplesBefore, Datagrams, PacketsPerFrame, Count, PacketsBefore;
    if p == 0 {
      FirstPacket(c, samples);
      Fields(c, samples, 0, 0);
      FirstSample(c);
    } else {
      Adjacent(c, samples, p - 1);
      var f, k := Packet(c, samples, p - 1);
      Fields(c, samples, f, k);
      NextFrame(c, f);
    }
  }

  lemma FirstSample(c: Config)
    ensures SamplesBefore(c, 0) == 0
  {
  }

  /** The first packets carry the first samples, in order. */
  lemma {:induction false} PrefixPayload(c: Config, samples: seq<Byte>, p: nat)
    requires Accepts(c, samples) && p < DataPackets(c)
    ensures SAMPLE_BYTES * EndPosition(c, samples, p) <= |samples|
    ensures SampleTotal(Middle(c, samples)[..p + 1]) == EndPosition(c, samples, p)
    ensures Payloads(Middle(c, samples)[..p + 1]) == samples[..SAMPLE_BYTES * EndPosition(c, samples, p)]
  {
    hide Middle, Accepts, DataDatagram, SamplesBefore, Datagrams, PacketsPerFrame, Count, PacketsBefore, Offset;
    var m := Middle(c, samples);
    StartPosition(c, samples, p);
    var f, k := Packet(c, samples, p);
    Fields(c, samples, f, k);
    DataSamples(c, samples, f, k);
    assert m[..p + 1][..p] == m[..p];
    assert m[..p + 1][p] == m[p];
    if p == 0 {
      assert m[..0] == [];
    } else {
      PrefixPayload(c, samples, p - 1);
    }
  }

  lemma WholePayload(c: Config, samples: seq<Byte>)
    requires Accepts(c, samples)
    ensures Payloads(Middle(c, samples)) == samples
    ensures SampleTotal(Middle(c, samples)) == TotalSamples(c)
  {
    hide Middle, Accepts, DataDatagram, SamplesBefore, Datagrams, PacketsPerFrame, Count, PacketsBefore, Offset;
    LastPacket(c, samples);
    var p := DataPackets(c) - 1;
    PrefixPayload(c, samples, p);
    LastEnds(c, samples);
    assert Middle(c, samples)[..p + 1] == Middle(c, samples);
    assert samples[..|samples|] == samples;
  }

  lemma LastEnds(c: Config, samples: seq<Byte>)
    requires Accepts(c, samples)
    ensures DataPackets(c) > 0
    ensures EndPosition(c, samples, DataPackets(c) - 1) == TotalSamples(c)
    ensures SAMPLE_BYTES * TotalSamples(c) == |samples|
  {
    LastPacket(c, samples);
    var f, k := Packet(c, samples, DataPackets(c) - 1);
    Fields(c, samples, f, k);
    NextFrame(c, c.frameCount - 1);
    hide Middle, DataDatagram, SamplesBefore, Datagrams, PacketsPerFrame, Count, PacketsBefore, Offset;
  }
}
