/** When each thread of the sender goes on, and when it gives up. */
module StreamerLaws {
  import opened Protocol
  import opened BankPool
  import opened PoolInvariant
  import opened PoolRun
  import opened Streamer
  import opened StreamerDelivery

  /** A dequeued bank is queued exactly when it is of this run and this geometry, shows what it must, and comes after
      the one before it in shot id and sample time; any other is given back and fails the pipeline. */
  lemma CheckLaw(job: Job, p: Pipe)
    requires p.acquisition.Checking? && p.acquisition.t.grant.Grant?
    ensures var q, t := CheckStep(job, p), p.acquisition.t;
      var g := t.grant;
      && (q.acquisition == Pushing(t) <==>
            && Evident(job, g) && g.bank < job.geometry.bankCount && g.geometry == job.geometry
            && (p.previous.Some? ==> p.previous.value.shotId < g.report.triggerShotId
                                     && p.previous.value.time < g.report.firstSampleTime))
      && (q.acquisition != Pushing(t) ==> q.acquisition == Returning(t, true))
      && q.pool == p.pool && q.queue == p.queue && q.acquired == p.acquired
  {
  }

  /** Pushing appends the bank and counts it; once the pipeline failed, the bank is given back instead. */
  lemma PushLaw(p: Pipe)
    requires p.acquisition.Pushing? && |p.queue| < p.pool.geometry.bankCount
    ensures var q := PushStep(p);
      if p.failed then q == p.(acquisition := Returning(p.acquisition.t, false))
      else q.queue == p.queue + [p.acquisition.t] && q.acquired == p.acquired + 1 && q.acquisition.Looping?
           && q.wire == p.wire && q.pool == p.pool
  {
  }

  /** The sender takes the oldest bank; it ends when there is none and none to come, and stops when the pipeline
      failed. */
  lemma PopLaw(p: Pipe)
    ensures var q := PopStep(p);
      && (q.sender.Sending? && !p.sender.Sending? ==>
            !p.failed && p.queue == [q.sender.t] + q.queue)
      && (p.failed ==> q.sender.Done? && q.queue == p.queue)
      && (!p.failed && p.queue != [] ==> q.sender.Sending?)
      && (!p.failed && p.queue == [] ==> q == if p.producerDone then p.(sender := Ending) else p)
  {
  }

  /** After a shot is sent its bank is given back; the sender goes on exactly when all datagrams went out, the driver
      took the bank and, if it was waited for, the next one was armed. */
  lemma SettleLaw(job: Job, p: Pipe, armed: bool)
    requires p.sender.Settling? && p.sender.t.grant.Grant? && Good(p.pool) && Sound(p.pool)
    requires p.packetSequence <= U64_MAX
    ensures var q, g := SettleStep(job, p, armed), p.sender.t.grant;
      var o := Release(p.pool, Token(g.bank, g.generation, g.runId, g.sequence));
      && q.pool == o.pool && q.settled == p.settled + 1
      && (q.sender.Popping? <==>
            p.sender.sent && o.error == BankPool.Ok && (!(p.pool.mode.running && p.pool.filling.None?) || armed))
      && (!q.sender.Popping? ==> q.sender.Blaming? && q.shots == p.shots && q.transmitted == p.transmitted)
      && (q.sender.Popping? ==>
            && q.transmitted == p.transmitted + 1 && q.packetSequence == p.sender.next
            && q.lastShot == g.report.triggerShotId && |q.shots| == |p.shots| + 1)
  {
    hide Good, Sound, Release;
  }

  /** The closing heartbeat is sent exactly when the acquisition completed, everything it acquired was sent, and the
      emitter takes it; nothing missing and no heartbeat is a failure. */
  lemma EndLaw(job: Job, p: Pipe, emitted: bool)
    requires p.packetSequence <= U64_MAX
    ensures var q := EndStep(job, p, emitted);
      var whole := p.complete && p.transmitted == p.acquired && p.transmitted >= 1;
      var good := p.packetSequence < U64_MAX && job.profile.streamId >= 1 && job.profile.runId >= 1
                  && p.lastShot >= 1 && emitted;
      && (|q.wire| == |p.wire| + 1 <==> whole && good)
      && (!whole ==> q == p.(sender := Done)) && (whole && !good ==> q == p.(sender := Blaming))
      && (whole && good ==>
            && q.sender.Done? && q.wire[..|p.wire|] == p.wire && q.packetSequence == p.packetSequence + 1
            && var h := q.wire[|p.wire|].header;
              && h.streamId == job.profile.streamId && h.runId == job.profile.runId && h.shotId == p.lastShot
              && h.packetSequence == p.packetSequence && h.flags.endOfStream)
  {
  }

  /** A bank given back for cause fails the pipeline; only a run that acquired, sent everything and never failed
      succeeds. */
  lemma ReturnLaw(p: Pipe)
    requires p.acquisition.Returning? && p.acquisition.t.grant.Grant? && Good(p.pool)
    ensures var q := ReturnStep(p);
      && (if p.acquisition.blame then q.acquisition.Failing? && q.producerDone == p.producerDone
          else q.acquisition.Finished? && q.producerDone)
      && q.returned == p.returned + 1
    ensures Succeeded(p) ==> !p.failed && p.complete && p.acquired >= 1 && p.acquired == p.transmitted
  {
    hide Good, Sound, Release;
  }
}
