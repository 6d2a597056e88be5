/** From the DMA to the sample file: the bank pool, the two sender threads, the network and the recorder. */
module EndToEnd {
  import opened Crc32
  import opened Protocol
  import opened Packetizer
  import opened RunFormat
  import opened RunModel
  import opened SentStream
  import opened Soundness
  import opened Streamer
  import opened StreamerDelivery
  import StreamerOwnership
  import BankPool

  /** A COMPLETE record and the DMA bank its samples came from. */
  ghost predicate RecordsBank(job: Job, file: seq<Byte>, r: IndexRecord, t: Taken) {
    && t.grant.Grant? && Evident(job, t.grant) && r.shotId == t.grant.report.triggerShotId
    && r.frameCount == job.profile.frameCount && r.frameSamples == job.profile.frameSamples
    && r.payloadFormat == job.profile.payloadFormat && r.configId == job.profile.configId
    && r.firstSampleTimestamp == t.grant.report.firstSampleTime
    && r.extent.Extent? && r.extent.offset + r.extent.bytes <= |file|
    && file[r.extent.offset..r.extent.offset + r.extent.bytes] == t.bytes
  }

  /** What reaches the recorder's socket: datagrams the sender emitted, lost, repeated and reordered at will,
      and other senders' packets that do not select a run. */
  ghost predicate FromWire(job: Job, p: Pipe, source: Source, a: Arrival) {
    || a.Undecodable?
    || (a.source == source && a.d in p.wire)
    || (a.d.Type() != StreamInfoPacket
        && Foreign(Selection(source, job.profile.runId, job.profile.streamId), a))
  }

  lemma {:induction false} InFlat(shots: seq<SentShot>, d: Datagram)
    requires forall k | 0 <= k < |shots| :: Packetizer.Accepts(shots[k].config, shots[k].samples)
    requires d in Flat(shots)
    ensures exists k | 0 <= k < |shots| :: d in Datagrams(shots[k].config, shots[k].samples)
  {
    hide Packetizer.Accepts, Datagrams;
    var n := |shots| - 1;
    if d !in Datagrams(shots[n].config, shots[n].samples) {
      var init := shots[..n];
      InFlat(init, d);
      var k :| 0 <= k < |init| && d in Datagrams(init[k].config, init[k].samples);
      assert shots[k] == init[k];
    }
  }

  lemma ProfileOf(job: Job, p: Pipe)
    requires Inv(job, p) && Succeeded(p)
    ensures p.shots != [] && SelectionOf(p.shots, Source(0, [], 0)).runId == job.profile.runId
    ensures p.shots[0].config.streamId == job.profile.streamId && p.shots[0].config.runId == job.profile.runId
    ensures p.shots[|p.shots| - 1].config.streamId == job.profile.streamId
    ensures p.shots[|p.shots| - 1].config.runId == job.profile.runId
    ensures p.lastShot as nat == p.shots[|p.shots| - 1].config.shotId
  {
    hide StreamerOwnership.Owning, FromZero, Flat, Numbered, Before, BankOk, Packetizer.Accepts, EndSent,
         StreamerDelivery.Ascending;
    assert p.shots[0] == p.shots[0];
  }

  lemma WireIsAuthentic(job: Job, p: Pipe, source: Source, a: Arrival)
    requires Inv(job, p) && Succeeded(p) && FromWire(job, p, source, a)
    requires Conforming(p.shots)
    ensures Authentic(p.shots, source, a)
  {
    hide Inv, Succeeded, Conforming, Foreign, Flat, Packetizer.Accepts, Datagrams, FromZero;
    ProfileOf(job, p);
    SuccessDelivers(job, p);
    AllAccepted(p.shots);
    if a.Arrival? && a.source == source && a.d in Flat(p.shots) {
      InFlat(p.shots, a.d);
    }
  }

  lemma AllAccepted(shots: seq<SentShot>)
    requires FromZero(shots)
    ensures forall k | 0 <= k < |shots| :: Packetizer.Accepts(shots[k].config, shots[k].samples)
  {
    hide Packetizer.Accepts;
  }

  lemma CompleteIsFromABank(job: Job, p: Pipe, source: Source, maxShotBytes: nat, arrivals: seq<Arrival>)
    requires Inv(job, p) && Succeeded(p)
    requires forall i | 0 <= i < |arrivals| :: FromWire(job, p, source, arrivals[i])
    ensures FromBanks(job, p.granted, ReceiveRun(maxShotBytes, arrivals).run.log)
  {
    hide Inv, Succeeded, Conforming, FromWire, Authentic, ReceiveRun, IngestAll, EndSent, FromZero;
    SuccessDelivers(job, p);
    SuccessConforms(job, p);
    forall i | 0 <= i < |arrivals|
      ensures Authentic(p.shots, source, arrivals[i])
    {
      WireIsAuthentic(job, p, source, arrivals[i]);
    }
    PublishedAreSent(p.shots, source, maxShotBytes, arrivals);
    var log := ReceiveRun(maxShotBytes, arrivals).run.log;
    forall r | r in Records(log) && r.complete
      ensures r.firstSampleTimestamp > 0
      ensures exists k | 0 <= k < |p.granted| :: RecordsBank(job, SamplesFile(log), r, p.granted[k])
    {
      assert Faithful(p.shots, SamplesFile(log), r);
      var k :| 0 <= k < |p.shots| && RecordsShot(SamplesFile(log), r, p.shots[k]);
      assert RecordsBank(job, SamplesFile(log), r, p.granted[k]);
    }
  }

  /** Each COMPLETE record names a bank with a sample time and holds its bytes, and COMPLETE records ascend. */
  ghost predicate FromBanks(job: Job, granted: seq<Taken>, log: seq<Write>) {
    && (forall r | r in Records(log) && r.complete ::
          && r.firstSampleTimestamp > 0
          && exists k | 0 <= k < |granted| :: RecordsBank(job, SamplesFile(log), r, granted[k]))
    && Soundness.Ascending(Records(log))
  }

  /** However the sender's threads, the kernel and the hardware interleaved: after a run that reports success,
      whatever the network does to its datagrams, each COMPLETE record of the recorder names a bank the DMA
      filled, and the bytes in the sample file are the ones it left there - also when the recorder gives up. */
  lemma CompleteIsWhatTheDmaWrote(job: Job, pool: BankPool.Pool, actions: seq<Action>,
                                  source: Source, maxShotBytes: nat, arrivals: seq<Arrival>)
    requires Fresh(job, pool) && Succeeded(PipeAfter(job, pool, actions))
    requires forall i | 0 <= i < |arrivals| :: FromWire(job, PipeAfter(job, pool, actions), source, arrivals[i])
    ensures FromBanks(job, PipeAfter(job, pool, actions).granted, ReceiveRun(maxShotBytes, arrivals).run.log)
  {
    hide Inv, Fresh, PipeAfter, Succeeded, FromWire, ReceiveRun, FromBanks;
    CompleteIsFromABank(job, PipeAfter(job, pool, actions), source, maxShotBytes, arrivals);
  }

  /** A successful run may have sent a first sample time of zero (ZeroTime.ZeroTimeSucceeds). Whatever arrives, the
      recorder never has a COMPLETE record of that shot. */
  lemma ZeroTimeNeverComplete(job: Job, pool: BankPool.Pool, actions: seq<Action>,
                              source: Source, maxShotBytes: nat, arrivals: seq<Arrival>)
    requires Fresh(job, pool) && Succeeded(PipeAfter(job, pool, actions))
    requires forall i | 0 <= i < |arrivals| :: FromWire(job, PipeAfter(job, pool, actions), source, arrivals[i])
    ensures var shots := PipeAfter(job, pool, actions).shots;
      forall r, k | r in Records(ReceiveRun(maxShotBytes, arrivals).run.log) && r.complete && 0 <= k < |shots| ::
        shots[k].config.firstSampleTimestamp == 0 ==> r.shotId != shots[k].config.shotId
  {
    hide Inv, Fresh, PipeAfter, Succeeded, FromWire, ReceiveRun, Conforming, Authentic;
    var p := PipeAfter(job, pool, actions);
    SuccessConforms(job, p);
    forall i | 0 <= i < |arrivals|
      ensures Authentic(p.shots, source, arrivals[i])
    {
      WireIsAuthentic(job, p, source, arrivals[i]);
    }
    PublishedAreSent(p.shots, source, maxShotBytes, arrivals);
    var log := ReceiveRun(maxShotBytes, arrivals).run.log;
    forall r, k | r in Records(log) && r.complete && 0 <= k < |p.shots|
                  && p.shots[k].config.firstSampleTimestamp == 0
      ensures r.shotId != p.shots[k].config.shotId
    {
      assert Faithful(p.shots, SamplesFile(log), r);
      var j :| 0 <= j < |p.shots| && RecordsShot(SamplesFile(log), r, p.shots[j]);
      ByShotId(p.shots, j, k);
    }
  }
}
