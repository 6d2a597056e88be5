/** common/data_plane/qcrate_data_packetizer.c: one finite shot cut into STREAM_INFO, DATA and
    SHOT_END datagrams with chained packet sequences. */
module Packetizer {
  import opened Crc32
  import opened Protocol

  datatype Config = Config(
    payloadFormat: U16, sampleBytes: U16, streamId: U32, runId: U64, shotId: U64, initialSequence: U64,
    frameSamples: U32, frameCount: U32, sampleRateNumerator: U64, sampleRateDenominator: U64,
    timestampRateNumerator: U64, timestampRateDenominator: U64, centerFrequencyHz: int,
    channelCount: U16, componentBits: U16, fractionBits: U16, timestampClockId: U16, configId: U64,
    firstSampleTimestamp: U64, firstSampleTimestampValid: bool, endOfStream: bool)

  datatype Status = Ok | BadArgument | BadSize | SequenceOverflow | EmitError

  datatype Result = Result(
    totalDatagrams: nat, dataPackets: nat, firstDataSequence: nat, lastDataSequence: nat,
    nextSequence: nat, totalSamples: nat, payloadBytes: nat, payloadCrc32: bv32)

  const NO_RESULT := Result(0, 0, 0, 0, 0, 0, 0, 0)

  const SAMPLE_BYTES := 4
  const SAMPLES_PER_PACKET := 334 // MAX_PAYLOAD / SAMPLE_BYTES

  // ----- what a shot is, packet by packet -----

  predicate ArgumentsOk(c: Config) {
    && c.frameSamples > 0 && c.frameCount > 0
    && c.sampleRateDenominator > 0 && c.timestampRateDenominator > 0
    && (c.payloadFormat == FORMAT_COUNTER_U32_LE || c.payloadFormat == FORMAT_IQ_S16_LE)
    && c.sampleBytes == SAMPLE_BYTES
  }

  /** The shots the packetizer accepts. */
  predicate Accepts(c: Config, samples: seq<Byte>) {
    && ArgumentsOk(c)
    && |samples| == SAMPLE_BYTES * TotalSamples(c) <= U64_MAX
    && c.initialSequence + DataPackets(c) + 2 <= U64_MAX
  }

  function PacketsPerFrame(c: Config): nat {
    (c.frameSamples + SAMPLES_PER_PACKET - 1) / SAMPLES_PER_PACKET
  }

  function PacketsBefore(c: Config, frame: nat): nat {
    frame * PacketsPerFrame(c)
  }

  function SamplesBefore(c: Config, frame: nat): nat {
    frame * c.frameSamples
  }

  function DataPackets(c: Config): nat {
    PacketsBefore(c, c.frameCount)
  }

  function TotalSamples(c: Config): nat {
    SamplesBefore(c, c.frameCount)
  }

  /** Where a frame's packet `k` starts, and how many samples it carries. */
  function Offset(k: nat): nat {
    k * SAMPLES_PER_PACKET
  }

  function Count(c: Config, k: nat): nat
    requires Offset(k) < c.frameSamples
  {
    var left := c.frameSamples - Offset(k);
    if left > SAMPLES_PER_PACKET then SAMPLES_PER_PACKET else left
  }

  /** The shot-wide index of the first sample of packet `k` of frame `f`. */
  function Position(c: Config, f: nat, k: nat): nat {
    SamplesBefore(c, f) + Offset(k)
  }

  function StreamInfoOf(c: Config): StreamInfo {
    StreamInfo(c.frameSamples, c.sampleRateNumerator, c.sampleRateDenominator,
               c.timestampRateNumerator, c.timestampRateDenominator, c.centerFrequencyHz,
               c.channelCount, c.componentBits, c.fractionBits, c.timestampClockId, c.configId)
  }

  function InfoDatagram(c: Config): Datagram {
    Datagram(Header(c.payloadFormat, NO_FLAGS, c.streamId, c.runId, c.shotId,
                    c.initialSequence, 0, 0, 0, c.sampleBytes, 0),
             InfoObject(StreamInfoOf(c)))
  }

  lemma PacketFits(c: Config, f: nat, k: nat)
    requires ArgumentsOk(c)
    requires f < c.frameCount && k < PacketsPerFrame(c)
    ensures Offset(k) < c.frameSamples
    ensures Position(c, f, k) + Count(c, k) <= TotalSamples(c)
    ensures PacketsBefore(c, f) + k < DataPackets(c)
    ensures if k + 1 == PacketsPerFrame(c) then Offset(k) + Count(c, k) == c.frameSamples
            else Offset(k) + Count(c, k) == Offset(k + 1) < c.frameSamples
  {
    InsideFrame(c, k);
    BelowProduct(f, c.frameCount, c.frameSamples);
    BelowProduct(f, c.frameCount, PacketsPerFrame(c));
  }

  lemma BelowProduct(f: nat, count: nat, n: nat)
    requires f < count
    ensures f * n + n <= count * n
  {
    assert (f + 1) * n <= count * n;
  }

  lemma InsideFrame(c: Config, k: nat)
    requires k < PacketsPerFrame(c)
    ensures Offset(k) < c.frameSamples
    ensures if k + 1 == PacketsPerFrame(c) then Offset(k) + Count(c, k) == c.frameSamples
            else Offset(k) + Count(c, k) == Offset(k + 1) < c.frameSamples
  {
  }

  /** A DATA datagram of `count` samples from `offset` of a frame on. */
  function MakeData(c: Config, samples: seq<Byte>, sequence: U64, frame: U32, offset: U32, count: U16): Datagram
    requires SAMPLE_BYTES * (SamplesBefore(c, frame) + offset + count) <= |samples|
  {
    var first := frame == 0 && offset == 0 && c.firstSampleTimestampValid;
    var flags := NO_FLAGS.(timestampValid := first, frameStart := offset == 0,
                           frameEnd := offset + count == c.frameSamples);
    var start := SAMPLE_BYTES * (SamplesBefore(c, frame) + offset);
    Datagram(Header(c.payloadFormat, flags, c.streamId, c.runId, c.shotId, sequence, frame, offset,
                    count, c.sampleBytes, if first then c.firstSampleTimestamp else 0),
             Raw(DataPacket, samples[start..start + SAMPLE_BYTES * count]))
  }

  /** Packet `k` of frame `f`. */
  function DataDatagram(c: Config, samples: seq<Byte>, f: nat, k: nat): Datagram
    requires Accepts(c, samples)
    requires f < c.frameCount && k < PacketsPerFrame(c)
  {
    PacketFits(c, f, k);
    MakeData(c, samples, c.initialSequence + 1 + PacketsBefore(c, f) + k, f, Offset(k), Count(c, k))
  }

  function EndDatagram(c: Config, samples: seq<Byte>): Datagram
    requires Accepts(c, samples)
  {
    var flags := NO_FLAGS.(payloadCrcValid := true, endOfStream := c.endOfStream);
    Datagram(Header(FORMAT_NONE, NO_FLAGS, c.streamId, c.runId, c.shotId,
                    c.initialSequence + DataPackets(c) + 1, 0, 0, 0, 0, 0),
             EndObject(ShotEnd(SHOT_COMPLETE, flags, c.frameCount, TotalSamples(c), DataPackets(c),
                               c.initialSequence + 1, c.initialSequence + DataPackets(c), |samples|,
                               Checksum(samples))))
  }

  /** The `i`th datagram of a shot. */
  function ShotDatagram(c: Config, samples: seq<Byte>, i: nat): Datagram
    requires Accepts(c, samples) && i < DataPackets(c) + 2
  {
    if i == 0 then InfoDatagram(c)
    else if i <= DataPackets(c) then
      PacketPlace(c, i - 1);
      DataDatagram(c, samples, (i - 1) / PacketsPerFrame(c), (i - 1) % PacketsPerFrame(c))
    else EndDatagram(c, samples)
  }

  /** Every datagram of a shot in sending order. */
  function Datagrams(c: Config, samples: seq<Byte>): (ds: seq<Datagram>)
    requires Accepts(c, samples)
    ensures |ds| == DataPackets(c) + 2
  {
    seq(DataPackets(c) + 2, i requires 0 <= i < DataPackets(c) + 2 => ShotDatagram(c, samples, i))
  }

  lemma PacketPlace(c: Config, p: nat)
    requires ArgumentsOk(c) && p < DataPackets(c)
    ensures var n := PacketsPerFrame(c); n > 0 && p / n < c.frameCount && p == PacketsBefore(c, p / n) + p % n
  {
    var n := PacketsPerFrame(c);
    MulCancel(p / n, c.frameCount, n);
  }

  lemma PlaceUnique(c: Config, f: nat, k: nat)
    requires ArgumentsOk(c) && k < PacketsPerFrame(c)
    ensures var n, p := PacketsPerFrame(c), PacketsBefore(c, f) + k; p / n == f && p % n == k
  {
    var n := PacketsPerFrame(c);
    DivModUnique(f * n + k, n, f, k);
  }

  lemma DivModUnique(p: nat, n: nat, f: nat, k: nat)
    requires k < n && p == f * n + k
    ensures p / n == f && p % n == k
  {
    var q, r := p / n, p % n;
    assert q * n + r == f * n + k;
    MulCancel(q, f + 1, n);
    MulCancel(f, q + 1, n);
  }

  lemma MulCancel(a: nat, b: nat, n: nat)
    ensures a * n < b * n ==> a < b
  {
    assert b <= a ==> b * n <= a * n;
  }

  // ----- what the datagrams say, field by field -----

  /** The header fields every datagram of a shot shares. */
  predicate Identified(h: Header, c: Config, i: nat) {
    h.streamId == c.streamId && h.runId == c.runId && h.shotId == c.shotId && h.packetSequence == c.initialSequence + i
  }

  /** The first datagram announces the shot's profile. */
  predicate Announces(d: Datagram, c: Config) {
    && Identified(d.header, c, 0)
    && d.header.payloadFormat == c.payloadFormat && d.header.sampleBytes == c.sampleBytes
    && d.header.flags == NO_FLAGS && d.header.frameId == 0 && d.header.sampleOffset == 0
    && d.header.sampleCount == 0 && d.header.timestampTicks == 0
    && d.payload.InfoObject? && SaysProfile(d.payload.info, c)
  }

  predicate SaysProfile(i: StreamInfo, c: Config) {
    && i.frameSamples == c.frameSamples
    && i.sampleRateNumerator == c.sampleRateNumerator
    && i.sampleRateDenominator == c.sampleRateDenominator
    && i.timestampRateNumerator == c.timestampRateNumerator
    && i.timestampRateDenominator == c.timestampRateDenominator
    && i.centerFrequencyHz == c.centerFrequencyHz
    && i.channelCount == c.channelCount
    && i.componentBits == c.componentBits
    && i.fractionBits == c.fractionBits
    && i.timestampClockId == c.timestampClockId
    && i.configId == c.configId
  }

  /** The marks at the ends of a frame, and the timestamp on the shot's first sample. */
  predicate Flagged(h: Header, c: Config, first: bool) {
    && (h.flags.frameStart <==> h.sampleOffset == 0)
    && (h.flags.frameEnd <==> h.sampleOffset + h.sampleCount == c.frameSamples)
    && (h.flags.timestampValid <==> first && c.firstSampleTimestampValid)
    && h.timestampTicks == (if first && c.firstSampleTimestampValid then c.firstSampleTimestamp else 0)
    && h.flags.others == 0 && !h.flags.discontinuityBefore && !h.flags.payloadCrcValid
    && !h.flags.sourceOverflow && !h.flags.senderDrop && !h.flags.endOfStream
  }

  /** Datagram `i` carries, of the frame and offset it names, the next 334 samples or the rest of the frame; of `c`'s
      packets in order it is number `i`. */
  predicate Carries(d: Datagram, c: Config, samples: seq<Byte>, i: nat) {
    var h := d.header;
    && Identified(h, c, i)
    && h.payloadFormat == c.payloadFormat && h.sampleBytes == c.sampleBytes
    && h.frameId < c.frameCount && h.sampleOffset < c.frameSamples && h.sampleOffset % 334 == 0
    && i == 1 + h.frameId * ((c.frameSamples + 333) / 334) + h.sampleOffset / 334
    && h.sampleCount == (if c.frameSamples - h.sampleOffset < 334 then c.frameSamples - h.sampleOffset else 334)
    && Flagged(h, c, i == 1)
    && Piece(d.payload, samples, 4 * (h.frameId * c.frameSamples + h.sampleOffset), 4 * h.sampleCount)
  }

  predicate Piece(p: Payload, samples: seq<Byte>, start: int, bytes: nat) {
    0 <= start <= start + bytes <= |samples| && p == Raw(DataPacket, samples[start..start + bytes])
  }

  /** The last datagram states the shot's totals; datagram `i` is SHOT_END after `i` - 1 DATA datagrams. */
  predicate EndsShot(d: Datagram, c: Config, samples: seq<Byte>, i: nat) {
    && Identified(d.header, c, i)
    && d.header.payloadFormat == 0 && d.header.flags == NO_FLAGS && d.header.frameId == 0
    && d.header.sampleOffset == 0 && d.header.sampleCount == 0 && d.header.sampleBytes == 0
    && d.header.timestampTicks == 0
    && d.payload.EndObject?
    && var e := d.payload.end;
      && e.status == 0
      && e.endFlags.payloadCrcValid && e.endFlags.endOfStream == c.endOfStream
      && !e.endFlags.timestampValid && !e.endFlags.frameStart && !e.endFlags.frameEnd
      && !e.endFlags.discontinuityBefore && !e.endFlags.sourceOverflow && !e.endFlags.senderDrop
      && e.endFlags.others == 0
      && e.totalFrames == c.frameCount && e.totalSamples == c.frameCount * c.frameSamples
      && e.totalDataPackets == i - 1 == c.frameCount * ((c.frameSamples + 333) / 334)
      && e.firstPacketSequence == c.initialSequence + 1 && e.lastPacketSequence == c.initialSequence + i - 1
      && e.payloadBytes == |samples| && e.payloadCrc32 == Checksum(samples)
  }

  lemma DatagramsSay(c: Config, samples: seq<Byte>, i: nat)
    requires Accepts(c, samples) && i < DataPackets(c) + 2
    ensures var d := Datagrams(c, samples)[i];
      && (i == 0 ==> Announces(d, c))
      && (0 < i <= DataPackets(c) ==> Carries(d, c, samples, i))
      && (i == DataPackets(c) + 1 ==> EndsShot(d, c, samples, i))
  {
    hide Carries;
    if 0 < i <= DataPackets(c) {
      PacketPlace(c, i - 1);
      PacketSays(c, samples, (i - 1) / PacketsPerFrame(c), (i - 1) % PacketsPerFrame(c));
    }
  }

  lemma PacketSays(c: Config, samples: seq<Byte>, f: nat, k: nat)
    requires Accepts(c, samples) && f < c.frameCount && k < PacketsPerFrame(c)
    ensures Carries(DataDatagram(c, samples, f, k), c, samples, 1 + PacketsBefore(c, f) + k)
  {
    hide Flagged, Accepts, ArgumentsOk, PacketsBefore, SamplesBefore, PacketsPerFrame, Offset, Count, TotalSamples;
    Accepted(c, samples);
    PacketFlags(c, samples, f, k);
    PacketFits(c, f, k);
    PacketNumbers(c, f, k);
    NextBounds(c, samples, f, k);
  }

  lemma PacketNumbers(c: Config, f: nat, k: nat)
    requires Offset(k) < c.frameSamples
    ensures PacketsBefore(c, f) == f * ((c.frameSamples + 333) / 334) && SamplesBefore(c, f) == f * c.frameSamples
    ensures Offset(k) % 334 == 0 && Offset(k) / 334 == k
    ensures Count(c, k) == if c.frameSamples - Offset(k) < 334 then c.frameSamples - Offset(k) else 334
    ensures ArgumentsOk(c) ==> c.sampleBytes == 4
  {
  }

  lemma PacketFlags(c: Config, samples: seq<Byte>, f: nat, k: nat)
    requires Accepts(c, samples) && f < c.frameCount && k < PacketsPerFrame(c)
    ensures Flagged(DataDatagram(c, samples, f, k).header, c, PacketsBefore(c, f) + k == 0)
  {
    hide Accepts, ArgumentsOk, SamplesBefore, Count, PacketsBefore, PacketsPerFrame;
    Accepted(c, samples);
    PacketFits(c, f, k);
    FirstOnly(c, f, k);
  }

  lemma FirstOnly(c: Config, f: nat, k: nat)
    requires k < PacketsPerFrame(c)
    ensures PacketsBefore(c, f) + k == 0 <==> f == 0 && k == 0
  {
  }

  /** Datagram `i` of a shot says what it should at its place. */
  predicate Says(d: Datagram, c: Config, samples: seq<Byte>, i: nat) {
    if i == 0 then Announces(d, c)
    else if i <= c.frameCount * ((c.frameSamples + 333) / 334) then Carries(d, c, samples, i)
    else EndsShot(d, c, samples, i)
  }

  lemma AllSay(c: Config, samples: seq<Byte>)
    requires Accepts(c, samples)
    ensures forall i | 0 <= i < DataPackets(c) + 2 :: Says(Datagrams(c, samples)[i], c, samples, i)
    ensures DataPackets(c) == c.frameCount * ((c.frameSamples + 333) / 334)
  {
    hide Announces, Carries, EndsShot, Datagrams, Accepts;
    forall i | 0 <= i < DataPackets(c) + 2
      ensures Says(Datagrams(c, samples)[i], c, samples, i)
    {
      DatagramsSay(c, samples, i);
    }
  }

  // ----- the packetizer -----

  /** `budget` is the number of datagrams the emit callback takes before it fails. */
  method Packetize(c: Config, samples: seq<Byte>, budget: nat)
    returns (status: Status, out: seq<Datagram>, result: Result)
    requires |samples| <= U64_MAX
    ensures !ArgumentsOk(c) <==> status == BadArgument
    ensures Accepts(c, samples) <==> status == Ok || status == EmitError
    ensures status == BadSize ==> |samples| != SAMPLE_BYTES * TotalSamples(c)
    ensures status == SequenceOverflow ==> c.initialSequence + DataPackets(c) + 2 > U64_MAX
    ensures !Accepts(c, samples) ==> out == []
    ensures Accepts(c, samples) ==>
              var all := Datagrams(c, samples);
              && (status == EmitError <==> budget < |all|)
              && out == if budget < |all| then all[..budget] else all
    ensures forall i | 0 <= i < |out| :: Says(out[i], c, samples, i)
    ensures status == Ok ==>
              && |out| == c.frameCount * ((c.frameSamples + 333) / 334) + 2
              && EndsShot(out[|out| - 1], c, samples, |out| - 1)
    ensures status == Ok ==>
              result == Result(|out|, DataPackets(c), c.initialSequence + 1, c.initialSequence + DataPackets(c),
                               c.initialSequence + |out|, TotalSamples(c), |samples|, Checksum(samples))
  {
    hide Accepts, ArgumentsOk, Datagrams, PacketsBefore, SamplesBefore, PacketsPerFrame, Progress, Exhausted,
         Announces, Carries, EndsShot;
    out, result := [], NO_RESULT;
    AcceptsIff(c, samples);
    if Accepts(c, samples) {
      AllSay(c, samples);
    }
    status := Check(c, |samples|);
    if status != Ok {
      return;
    }
    Begin(c, samples, budget);
    if budget == 0 {
      return EmitError, out, result;
    }
    out := [InfoDatagram(c)];
    var sequence: int := c.initialSequence + 1;
    var crc := INITIAL;
    for frame := 0 to c.frameCount
      invariant Progress(c, samples, out, budget, sequence, crc, PacketsBefore(c, frame), SamplesBefore(c, frame))
    {
      var ok;
      ok, out, sequence, crc := EmitFrame(c, samples, budget, frame, out, sequence, crc);
      if !ok {
        ExhaustedMeans(c, samples, out, budget);
        return EmitError, out, result;
      }
    }
    Finish(c, samples, out, budget, sequence, crc);
    result := NO_RESULT.(firstDataSequence := c.initialSequence + 1, dataPackets := |out| - 1,
                         lastDataSequence := sequence - 1, payloadCrc32 := crc ^ INITIAL);
    var totalSamples := SamplesBefore(c, c.frameCount);
    var endFlags := NO_FLAGS.(payloadCrcValid := true, endOfStream := c.endOfStream);
    var end := ShotEnd(SHOT_COMPLETE, endFlags, c.frameCount, totalSamples, result.dataPackets,
                       result.firstDataSequence, result.lastDataSequence, totalSamples * SAMPLE_BYTES,
                       result.payloadCrc32);
    var d := Datagram(Header(FORMAT_NONE, NO_FLAGS, c.streamId, c.runId, c.shotId, sequence, 0, 0, 0, 0, 0),
                      EndObject(end));
    if |out| == budget {
      return EmitError, out, result;
    }
    out, sequence := out + [d], sequence + 1;
    result := result.(totalDatagrams := result.dataPackets + 2, nextSequence := sequence,
                      totalSamples := totalSamples, payloadBytes := totalSamples * SAMPLE_BYTES);
  }

  lemma AcceptsIff(c: Config, samples: seq<Byte>)
    requires |samples| <= U64_MAX
    ensures Accepts(c, samples) <==>
            ArgumentsOk(c) && |samples| == SAMPLE_BYTES * TotalSamples(c)
            && c.initialSequence + DataPackets(c) + 2 <= U64_MAX
  {
  }

  lemma Begin(c: Config, samples: seq<Byte>, budget: nat)
    requires Accepts(c, samples)
    ensures Datagrams(c, samples)[..0] == []
    ensures budget > 0 ==> Progress(c, samples, [InfoDatagram(c)], budget, c.initialSequence + 1, INITIAL,
                                    PacketsBefore(c, 0), SamplesBefore(c, 0))
  {
    assert [InfoDatagram(c)] == Datagrams(c, samples)[..1];
    assert samples[..0] == [];
  }

  lemma ExhaustedMeans(c: Config, samples: seq<Byte>, out: seq<Datagram>, budget: nat)
    requires Exhausted(c, samples, out, budget)
    ensures Accepts(c, samples) && budget < |Datagrams(c, samples)| && out == Datagrams(c, samples)[..budget]
  {
  }

  lemma Finish(c: Config, samples: seq<Byte>, out: seq<Datagram>, budget: nat, sequence: int, crc: bv32)
    requires Progress(c, samples, out, budget, sequence, crc, DataPackets(c), TotalSamples(c))
    ensures Accepts(c, samples)
    ensures |out| == DataPackets(c) + 1 <= budget && out == Datagrams(c, samples)[..|out|]
    ensures sequence == c.initialSequence + DataPackets(c) + 1 <= U64_MAX && crc ^ INITIAL == Checksum(samples)
    ensures SAMPLE_BYTES * TotalSamples(c) == |samples| <= U64_MAX
    ensures out + [EndDatagram(c, samples)] == Datagrams(c, samples)
  {
    assert samples[..|samples|] == samples;
    var all := Datagrams(c, samples);
    assert all == all[..|all| - 1] + [all[|all| - 1]];
  }

  /** The argument, size and sequence guards, in the order they are tested. */
  method Check(c: Config, samplesBytes: nat) returns (status: Status)
    requires samplesBytes <= U64_MAX
    ensures !ArgumentsOk(c) <==> status == BadArgument
    ensures status == BadSize <==> ArgumentsOk(c) && samplesBytes != SAMPLE_BYTES * TotalSamples(c)
    ensures status == SequenceOverflow <==>
            ArgumentsOk(c) && samplesBytes == SAMPLE_BYTES * TotalSamples(c)
            && c.initialSequence + DataPackets(c) + 2 > U64_MAX
    ensures status != EmitError
  {
    if !(c.frameSamples > 0 && c.frameCount > 0 && c.sampleBytes > 0 && c.sampleRateDenominator > 0
         && c.timestampRateDenominator > 0) {
      return BadArgument;
    }
    if (c.payloadFormat != FORMAT_COUNTER_U32_LE && c.payloadFormat != FORMAT_IQ_S16_LE)
       || c.sampleBytes != SAMPLE_BYTES {
      return BadArgument;
    }
    var samplesPerPacket := MAX_PAYLOAD / c.sampleBytes;
    var frameBytes := c.frameSamples * c.sampleBytes;
    ScaledProduct(c);
    TooBig(c.frameCount, frameBytes);
    if c.frameCount > U64_MAX / frameBytes {
      return BadSize;
    }
    if c.frameCount * frameBytes != samplesBytes {
      return BadSize;
    }
    var dataPackets := PacketsPerFrame(c) * c.frameCount;
    if dataPackets > U64_MAX - 2 || c.initialSequence > U64_MAX - dataPackets - 2 {
      return SequenceOverflow;
    }
    return Ok;
  }

  /** The inner loop: the packets of one frame. */
  method EmitFrame(c: Config, samples: seq<Byte>, budget: nat, frame: U32,
                   emitted: seq<Datagram>, sequence0: int, crc0: bv32)
    returns (ok: bool, out: seq<Datagram>, sequence: int, crc: bv32)
    requires frame < c.frameCount
    requires Progress(c, samples, emitted, budget, sequence0, crc0, PacketsBefore(c, frame), SamplesBefore(c, frame))
    ensures ok ==> Progress(c, samples, out, budget, sequence, crc,
                            PacketsBefore(c, frame + 1), SamplesBefore(c, frame + 1))
    ensures !ok ==> Exhausted(c, samples, out, budget)
  {
    hide Accepts, ArgumentsOk, PacketsBefore, SamplesBefore, PacketsPerFrame, Progress, Exhausted, MakeData, Offset,
         Update;
    FrameNotEmpty(c, samples, emitted, budget, sequence0, crc0, PacketsBefore(c, frame), SamplesBefore(c, frame));
    out, sequence, crc := emitted, sequence0, crc0;
    var offset := 0;
    ghost var k := 0;
    ghost var perFrame := PacketsPerFrame(c);
    while offset < c.frameSamples
      invariant 0 <= k <= perFrame
      invariant k < perFrame <==> offset < c.frameSamples
      invariant offset == if k < perFrame then Offset(k) else c.frameSamples
      invariant Progress(c, samples, out, budget, sequence, crc,
                         PacketsBefore(c, frame) + k, SamplesBefore(c, frame) + offset)
    {
      EmitNext(c, samples, out, budget, sequence, crc, frame, k);
      if |out| == budget {
        return false, out, sequence, crc;
      }
      var count := c.frameSamples - offset;
      if count > SAMPLES_PER_PACKET {
        count := SAMPLES_PER_PACKET;
      }
      var d := MakeData(c, samples, sequence, frame, offset, count);
      out, sequence := out + [d], sequence + 1;
      crc := UpdateLoop(crc, d.payload.bytes);
      offset := offset + count;
      k := k + 1;
    }
    NextFrame(c, frame);
    ok := true;
  }

  lemma FrameNotEmpty(c: Config, samples: seq<Byte>, out: seq<Datagram>, budget: nat,
                      sequence: int, crc: bv32, p: nat, n: nat)
    requires Progress(c, samples, out, budget, sequence, crc, p, n)
    ensures Accepts(c, samples) && PacketsPerFrame(c) > 0 && c.frameSamples > 0
    ensures Offset(0) == 0
  {
  }

  /** The STREAM_INFO datagram and the first `p` DATA datagrams have been emitted, which carried
      the first `n` samples; the running sequence and CRC say so. */
  ghost predicate Progress(c: Config, samples: seq<Byte>, out: seq<Datagram>, budget: nat,
                           sequence: int, crc: bv32, p: nat, n: nat) {
    && Accepts(c, samples) && p <= DataPackets(c)
    && |out| == p + 1 <= budget
    && out == Datagrams(c, samples)[..p + 1]
    && sequence == c.initialSequence + |out|
    && n <= TotalSamples(c)
    && crc == Update(INITIAL, samples[..SAMPLE_BYTES * n])
  }

  /** The emit callback failed after `budget` datagrams. */
  ghost predicate Exhausted(c: Config, samples: seq<Byte>, out: seq<Datagram>, budget: nat) {
    Accepts(c, samples) && budget < |Datagrams(c, samples)| && out == Datagrams(c, samples)[..budget]
  }

  /** One turn of the inner loop. */
  lemma EmitNext(c: Config, samples: seq<Byte>, out: seq<Datagram>, budget: nat, sequence: int, crc: bv32,
                 f: nat, k: nat)
    requires Accepts(c, samples) && f < c.frameCount && k < PacketsPerFrame(c)
    requires Progress(c, samples, out, budget, sequence, crc, PacketsBefore(c, f) + k, SamplesBefore(c, f) + Offset(k))
    ensures |out| == budget ==> Exhausted(c, samples, out, budget)
    ensures 0 <= sequence <= U64_MAX && f <= U32_MAX
    ensures Offset(k) < c.frameSamples
    ensures if k + 1 == PacketsPerFrame(c) then Offset(k) + Count(c, k) == c.frameSamples
            else Offset(k) + Count(c, k) == Offset(k + 1) < c.frameSamples
    ensures SAMPLE_BYTES * (SamplesBefore(c, f) + Offset(k) + Count(c, k)) <= |samples|
    ensures |out| != budget ==>
              var d := MakeData(c, samples, sequence, f, Offset(k), Count(c, k));
              && d.payload.Raw?
              && Progress(c, samples, out + [d], budget, sequence + 1, Update(crc, d.payload.bytes),
                          PacketsBefore(c, f) + k + 1, SamplesBefore(c, f) + Offset(k) + Count(c, k))
  {
    hide Accepts, PacketsBefore, SamplesBefore, PacketsPerFrame, TotalSamples, Update, Offset, Count, Datagrams;
    Accepted(c, samples);
    PacketFits(c, f, k);
    NextBounds(c, samples, f, k);
    if |out| != budget {
      EmitData(c, samples, out, budget, sequence, crc, f, k);
    }
  }

  lemma Accepted(c: Config, samples: seq<Byte>)
    requires Accepts(c, samples)
    ensures ArgumentsOk(c) && |samples| == SAMPLE_BYTES * TotalSamples(c) <= U64_MAX
    ensures c.initialSequence + DataPackets(c) + 2 <= U64_MAX
  {
  }

  lemma EmitData(c: Config, samples: seq<Byte>, out: seq<Datagram>, budget: nat, sequence: int, crc: bv32,
                 f: nat, k: nat)
    requires Accepts(c, samples) && f < c.frameCount && k < PacketsPerFrame(c)
    requires Progress(c, samples, out, budget, sequence, crc, PacketsBefore(c, f) + k, SamplesBefore(c, f) + Offset(k))
    requires |out| < budget
    ensures sequence == c.initialSequence + 1 + PacketsBefore(c, f) + k
    ensures Offset(k) < c.frameSamples
    ensures var d := DataDatagram(c, samples, f, k);
            && d.payload.Raw?
            && Progress(c, samples, out + [d], budget, sequence + 1, Update(crc, d.payload.bytes),
                        PacketsBefore(c, f) + k + 1, SamplesBefore(c, f) + Offset(k) + Count(c, k))
  {
    hide Accepts, Datagrams, PacketsBefore, SamplesBefore, PacketsPerFrame, Update, DataPackets, TotalSamples,
         DataDatagram, Offset, Count, SamplesBefore;
    NextBounds(c, samples, f, k);
    ShotAt(c, samples, f, k);
    DataSamples(c, samples, f, k);
    CrcNext(samples, SAMPLE_BYTES * (SamplesBefore(c, f) + Offset(k)), SAMPLE_BYTES * Count(c, k));
    var p, all := PacketsBefore(c, f) + k, Datagrams(c, samples);
    assert all[..p + 1] + [all[p + 1]] == all[..p + 2];
  }

  lemma DataSamples(c: Config, samples: seq<Byte>, f: nat, k: nat)
    requires Accepts(c, samples)
    requires f < c.frameCount && k < PacketsPerFrame(c)
    ensures Offset(k) < c.frameSamples
    ensures var start, n := SAMPLE_BYTES * (SamplesBefore(c, f) + Offset(k)), SAMPLE_BYTES * Count(c, k);
            start + n <= |samples|
            && DataDatagram(c, samples, f, k).payload == Raw(DataPacket, samples[start..start + n])
  {
    NextBounds(c, samples, f, k);
    hide PacketsBefore, SamplesBefore, Accepts;
  }

  lemma NextBounds(c: Config, samples: seq<Byte>, f: nat, k: nat)
    requires Accepts(c, samples)
    requires f < c.frameCount && k < PacketsPerFrame(c)
    ensures Offset(k) < c.frameSamples
    ensures c.initialSequence + 1 + PacketsBefore(c, f) + k <= U64_MAX
    ensures SAMPLE_BYTES * (SamplesBefore(c, f) + Offset(k) + Count(c, k)) <= |samples|
    ensures SamplesBefore(c, f) + Offset(k) + Count(c, k) <= TotalSamples(c)
  {
    PacketFits(c, f, k);
  }

  lemma ShotAt(c: Config, samples: seq<Byte>, f: nat, k: nat)
    requires Accepts(c, samples)
    requires f < c.frameCount && k < PacketsPerFrame(c)
    ensures PacketsBefore(c, f) + k < DataPackets(c)
    ensures Datagrams(c, samples)[PacketsBefore(c, f) + k + 1] == DataDatagram(c, samples, f, k)
  {
    PacketFits(c, f, k);
    PlaceUnique(c, f, k);
    hide PacketsBefore, SamplesBefore, MakeData;
  }

  lemma CrcNext(samples: seq<Byte>, start: nat, n: nat)
    requires start + n <= |samples|
    ensures Update(Update(INITIAL, samples[..start]), samples[start..start + n])
         == Update(INITIAL, samples[..start + n])
  {
    UpdateConcat(INITIAL, samples[..start], samples[start..start + n]);
    assert samples[..start] + samples[start..start + n] == samples[..start + n];
  }

  lemma NextFrame(c: Config, f: nat)
    ensures PacketsBefore(c, f) + PacketsPerFrame(c) == PacketsBefore(c, f + 1)
    ensures SamplesBefore(c, f) + c.frameSamples == SamplesBefore(c, f + 1)
  {
  }

  lemma ScaledProduct(c: Config)
    ensures c.frameCount * (c.frameSamples * SAMPLE_BYTES) == SAMPLE_BYTES * TotalSamples(c)
  {
  }

  lemma TooBig(a: nat, b: nat)
    requires b > 0
    ensures a > U64_MAX / b ==> a * b > U64_MAX
  {
    assert a > U64_MAX / b ==> a * b >= (U64_MAX / b + 1) * b;
  }

  /** The heartbeat that closes a stream of shots. */
  function EndOfStreamDatagram(streamId: U32, runId: U64, lastShotId: U64, sequence: U64): Datagram {
    Datagram(Header(FORMAT_NONE, END_OF_STREAM, streamId, runId, lastShotId, sequence, 0, 0, 0, 0, 0),
             Raw(HeartbeatPacket, []))
  }

  /** `qcrate_data_emit_end_of_stream`; `emitOk` is whether the emit callback takes the datagram. */
  method EmitEndOfStream(streamId: U32, runId: U64, lastShotId: U64, sequence: U64, emitOk: bool)
    returns (status: Status, out: seq<Datagram>, next: U64)
    ensures status == BadArgument <==> streamId == 0 || runId == 0 || lastShotId == 0
    ensures status == SequenceOverflow
       <==> streamId != 0 && runId != 0 && lastShotId != 0 && sequence == U64_MAX
    ensures status == Ok
       <==> streamId != 0 && runId != 0 && lastShotId != 0 && sequence < U64_MAX && emitOk
    ensures status == Ok || status == BadArgument || status == SequenceOverflow || status == EmitError
    ensures status == Ok ==> out == [EndOfStreamDatagram(streamId, runId, lastShotId, sequence)] && next == sequence + 1
    ensures status == Ok ==>
              var h := out[0].header;
              && h.streamId == streamId && h.runId == runId && h.shotId == lastShotId && h.packetSequence == sequence
              && h.payloadFormat == 0 && h.flags.endOfStream && h.flags == NO_FLAGS.(endOfStream := true)
              && h.frameId == 0 && h.sampleOffset == 0 && h.sampleCount == 0 && h.sampleBytes == 0
              && h.timestampTicks == 0 && out[0].payload == Raw(HeartbeatPacket, [])
    ensures status != Ok ==> out == []
  {
    out, next := [], 0;
    if streamId == 0 || runId == 0 || lastShotId == 0 {
      return BadArgument, out, next;
    }
    if sequence == U64_MAX {
      return SequenceOverflow, out, next;
    }
    if !emitOk {
      return EmitError, out, next;
    }
    out := [EndOfStreamDatagram(streamId, runId, lastShotId, sequence)];
    return Ok, out, sequence + 1;
  }
}
