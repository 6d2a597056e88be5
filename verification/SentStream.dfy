/** A stream of shots as the sender chains them, and the facts the recorder's proofs need about it. */
module SentStream {
  import opened Crc32
  import opened Protocol
  import opened Packetizer
  import opened Ordering
  import opened ShotModel
  import opened SentShots
  import opened SentVerdicts
  import opened RunModel
  import Verdicts

  datatype SentShot = SentShot(config: Config, samples: seq<Byte>)

  /** Two shots are taken alike: the same samples per frame, rates, frequency, sample layout, clock and
      configuration. */
  predicate SameProfile(c: Config, b: Config) {
    && c.payloadFormat == b.payloadFormat && c.frameSamples == b.frameSamples
    && c.sampleRateNumerator == b.sampleRateNumerator && c.sampleRateDenominator == b.sampleRateDenominator
    && c.timestampRateNumerator == b.timestampRateNumerator && c.timestampRateDenominator == b.timestampRateDenominator
    && c.centerFrequencyHz == b.centerFrequencyHz && c.channelCount == b.channelCount
    && c.componentBits == b.componentBits && c.fractionBits == b.fractionBits
    && c.timestampClockId == b.timestampClockId && c.configId == b.configId
  }

  /** Accepted shots of one stream whose sequences follow each other, whose identities and timestamps increase
      and whose profile is the same; only the last may end the stream itself. The first timestamp may be zero. */
  predicate Conforming(sent: seq<SentShot>) {
    && sent != []
    && (forall k | 0 <= k < |sent| ::
          var c := sent[k].config;
          && Accepts(c, sent[k].samples)
          && c.firstSampleTimestampValid
          && c.streamId == sent[0].config.streamId && c.runId == sent[0].config.runId
          && SameProfile(c, sent[0].config)
          && (c.endOfStream ==> k == |sent| - 1))
    && (forall k | 0 < k < |sent| ::
          var b, c := sent[k - 1].config, sent[k].config;
          && c.initialSequence == b.initialSequence + DataPackets(b) + 2
          && c.shotId > b.shotId && c.firstSampleTimestamp > b.firstSampleTimestamp)
  }

  /** The sequence after the last shot. */
  function NextSequence(sent: seq<SentShot>): nat
    requires sent != []
  {
    var c := sent[|sent| - 1].config;
    c.initialSequence + DataPackets(c) + 2
  }

  lemma {:induction false} Chained(sent: seq<SentShot>, i: nat, j: nat)
    requires Conforming(sent) && i < j < |sent|
    ensures sent[i].config.initialSequence + DataPackets(sent[i].config) + 2 <= sent[j].config.initialSequence
    ensures sent[i].config.shotId < sent[j].config.shotId
    ensures sent[i].config.firstSampleTimestamp < sent[j].config.firstSampleTimestamp
    decreases j - i
  {
    hide Accepts, DataPackets;
    if i < j - 1 {
      Chained(sent, i, j - 1);
    }
  }

  /** A shot's identity says which shot it is, and orders shots as their sequences and timestamps do. */
  lemma ByShotId(sent: seq<SentShot>, i: nat, j: nat)
    requires Conforming(sent) && i < |sent| && j < |sent|
    ensures var a, b := sent[i].config, sent[j].config;
      && (a.shotId == b.shotId ==> i == j)
      && (a.shotId < b.shotId <==> a.initialSequence < b.initialSequence)
      && (a.shotId <= b.shotId ==> a.firstSampleTimestamp <= b.firstSampleTimestamp)
  {
    hide Conforming, Accepts, DataPackets;
    if i < j {
      Chained(sent, i, j);
    } else if j < i {
      Chained(sent, j, i);
    }
  }

  lemma Sent(sent: seq<SentShot>, k: nat)
    requires Conforming(sent) && k < |sent|
    ensures var c := sent[k].config;
      && Accepts(c, sent[k].samples) && c.firstSampleTimestampValid && Time(c) == c.firstSampleTimestamp
      && (k > 0 ==> c.firstSampleTimestamp > 0)
      && c.streamId == sent[0].config.streamId && c.runId == sent[0].config.runId
      && StreamInfoOf(c) == StreamInfoOf(sent[0].config) && c.payloadFormat == sent[0].config.payloadFormat
      && c.sampleBytes == SAMPLE_BYTES
      && c.initialSequence + DataPackets(c) + 2 <= U64_MAX
  {
    assert k > 0 ==> sent[k].config.firstSampleTimestamp > sent[k - 1].config.firstSampleTimestamp;
  }

  /** The heartbeat the sender closes the stream with. */
  function Closing(sent: seq<SentShot>): Datagram
    requires Conforming(sent)
  {
    var c := sent[|sent| - 1].config;
    Sent(sent, |sent| - 1);
    EndOfStreamDatagram(c.streamId, c.runId, c.shotId, NextSequence(sent))
  }

  /** What the network may hand the recorder: datagrams of the stream in any order, any number of times
      or never, its closing heartbeat, and other senders' packets that do not select a run. */
  ghost predicate Authentic(sent: seq<SentShot>, source: Source, a: Arrival)
    requires Conforming(sent)
  {
    || a.Undecodable?
    || (a.source == source && a.d == Closing(sent))
    || (a.source == source && OfStream(sent, a.d))
    || (a.d.Type() != StreamInfoPacket && Foreign(SelectionOf(sent, source), a))
  }

  ghost predicate OfStream(sent: seq<SentShot>, d: Datagram)
    requires Conforming(sent)
  {
    exists k | 0 <= k < |sent| ::
      Accepts(sent[k].config, sent[k].samples) && d in Datagrams(sent[k].config, sent[k].samples)
  }

  function SelectionOf(sent: seq<SentShot>, source: Source): Selection
    requires sent != []
  {
    Selection(source, sent[0].config.runId, sent[0].config.streamId)
  }

  /** An open shot holds packets of the sent shot of its identity only. */
  ghost predicate Known(sent: seq<SentShot>, s: Shot) {
    exists k | 0 <= k < |sent| :: ShotFrom(s, sent[k].config, sent[k].samples)
  }

  /** The only packet of a shot with a timestamp carries the shot's. */
  lemma SentTimestamp(c: Config, samples: seq<Byte>, d: Datagram)
    requires Accepts(c, samples) && d in Datagrams(c, samples)
    ensures d.header.timestampTicks == 0 || d.header.timestampTicks == c.firstSampleTimestamp
    ensures d.header.shotId == c.shotId && d.Length() <= MAX_DATAGRAM && d.Type() != HeartbeatPacket
    ensures d.header.runId == c.runId && d.header.streamId == c.streamId
  {
    hide Accepts, Datagrams, DataDatagram, Middle, DataPackets, PacketsBefore, PacketsPerFrame, Offset, Count;
    var ds := Datagrams(c, samples);
    var i :| 0 <= i < |ds| && ds[i] == d;
    SequenceAt(c, samples, i);
    if 0 < i <= DataPackets(c) {
      var f, k := Packet(c, samples, i - 1);
      Fields(c, samples, f, k);
    }
  }

  /** The timestamp a shot is filed under is its own, if any. */
  lemma FiledTimestamp(s: Shot, c: Config, samples: seq<Byte>, ctx: Context)
    requires ShotFrom(s, c, samples)
    ensures var t := FirstTimestamp(Judge(ctx, s).data); t == 0 || t == c.firstSampleTimestamp
  {
    hide Accepts, Datagrams;
    var sorted := Sort(BySequence, s.packets);
    var data := Data(Format(s), sorted);
    assert Judge(ctx, s).data == data;
    hide Judge;
    if data != [] {
      SameMembers(s.packets, sorted);
      assert data[0] in data;
      Verdicts.DataMembers(Format(s), sorted, data[0]);
      SentTimestamp(c, samples, data[0]);
    }
  }
}
