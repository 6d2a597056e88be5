/** What each request and the thread answer, and why, in the pool's fields. */
module PoolLaws {
  import opened Crc32
  import opened BankPool
  import opened PoolInvariant
  import opened PoolRun
  import opened PoolEvidence

  /** The pool has the buffer: it runs, stops, fills a bank or has banks to hand out or to get back. */
  predicate Occupied(p: Pool) {
    p.mode.running || p.mode.stopping || p.filling.Some? || p.n.ready >= 1 || p.n.user >= 1
  }

  /** START is busy exactly for a good request while the buffer is taken; every refusal but a failed first arm leaves
      the pool as it was. */
  lemma StartRefused(p: Pool, r: StartRequest, reset: Error, arm: ArmReport)
    requires Good(p) && Sound(p)
    ensures var o := Start(p, r, reset, arm);
      && (Startable(p.device, r) && (p.triggered.Some? || Occupied(p)) ==> o == Outcome(p, Busy))
      && (Startable(p.device, r) && p.triggered.None? && !Occupied(p) && reset != Ok ==> o == Outcome(p, reset))
      && (!Startable(p.device, r) ==> o.pool == p && o.error != Ok)
  {
    hide Good, Sound, CheckStart, Arm, Startable;
    StartAccepted(p.device, r);
  }

  /** DEQUEUE has nothing to give exactly when no bank is READY, and says whether that may change. */
  lemma DequeueRefused(p: Pool)
    requires Good(p) && Sound(p)
    ensures Dequeue(p).1.Refused? <==> p.n.ready == 0
    ensures Dequeue(p).1.Refused? ==>
              && Dequeue(p).0 == p
              && Dequeue(p).1.error == if p.mode.faulted then Io else if p.mode.running then Again else Shutdown
  {
    hide Offset, FrameOffset, Granted, InRange, Sequenced, AllReady, Intact;
    var i := FindReady(p.banks, p.geometry.bankCount);
    if i < p.geometry.bankCount {
      CountSome(p.banks, i, p.geometry.bankCount);
    } else {
      NoReady(p.banks, p.geometry.bankCount);
    }
  }

  /** STOP is for the run it names, or any for 0; once asked, the pool runs no more until it is done. */
  lemma StopLaw(p: Pool, runId: nat)
    ensures var o := Stop(p, runId);
      var known := p.mode.configured && (runId == 0 || runId == p.ids.runId);
      && o.error == (if !known then Stale else if p.mode.stopping then Busy else Ok)
      && (o.error != Ok ==> o.pool == p)
      && (o.error == Ok ==> !o.pool.mode.running && o.pool.mode.stopping && o.pool.events.stop
                            && o.pool.banks == p.banks && o.pool.totals == p.totals && o.pool.n == p.n)
  {
  }

  /** RELEASE gives a bank back exactly on the token it was handed out with, and wakes the thread. */
  lemma ReleaseLaw(p: Pool, t: Token)
    requires Good(p) && Sound(p)
    ensures var o := Release(p, t);
      && (o.error == Ok <==>
            && t.bank < p.geometry.bankCount && t.bank < |p.banks| && t.runId == p.ids.runId
            && p.banks[t.bank].state == UserOwned && p.banks[t.bank].generation == t.generation
            && p.banks[t.bank].sequence == t.sequence)
      && (o.error != Ok ==> o.error == Stale && o.pool == p)
      && (o.error == Ok ==>
            && t.bank < |o.pool.banks| && o.pool.banks[t.bank].state == Free && o.pool.events.kick
            && o.pool.n.user + 1 == p.n.user && o.pool.n.free == p.n.free + 1 && o.pool.n.ready == p.n.ready
            && o.pool.totals == p.totals.(consumed := p.totals.consumed + 1) && o.pool.memory == p.memory)
  {
    InShape(p);
    hide Good, Sound;
  }

  /** Draining frees the filling bank exactly when its DMA ends in time and whole and the stream resets. */
  lemma DrainLaw(p: Pool, dmaDone: bool, h: DrainReport)
    requires p.filling.Some? && p.filling.value < |p.banks|
    ensures var o := Drain(p, dmaDone, h);
      var ends := dmaDone || p.events.done || (p.inFlight && h.arrives);
      && (o.error == Ok <==> ends && h.wait == Ok && h.transferred && h.reset == Ok)
      && (!ends ==> o == Outcome(p, TimedOut))
      && (ends && h.wait == Ok && !h.transferred ==> o.error == Io)
      && (o.error == Ok ==> o.pool.filling.None? && o.pool.banks[p.filling.value].state == Free
                            && o.pool.n.free == p.n.free + 1)
      && (o.error != Ok ==> o.pool.filling == p.filling && o.pool.banks == p.banks && o.pool.n == p.n)
      && o.pool.totals.skipped == p.totals.skipped + if ends && h.wait == Ok && h.transferred then h.missed else 0
  {
  }

  /** A stop that is carried out without fault frees the READY banks and reports so; the result is the error of the
      drain, or of the stream reset when there was nothing to drain. */
  lemma StopCarriedOut(p: Pool, done: bool, h: ThreadReport)
    requires Shaped(p)
    ensures var q := ThreadStop(p, done, h);
      && !q.mode.running && !q.mode.stopping && !q.mode.starved
      && (q.mode.stopResult == Ok ==>
            && q.n.ready == 0 && q.totals.lastDiscarded == p.n.ready
            && q.totals.discarded == p.totals.discarded + p.n.ready && q.mode.faulted == p.mode.faulted)
      && (q.mode.stopResult != Ok ==>
            && q.mode.faulted && q.n.ready == p.n.ready && q.totals.errors == p.totals.errors + 1
            && q.totals.lastError == q.mode.stopResult)
      && (p.filling.None? ==> q.mode.stopResult == if p.mode.configured then h.reset else Ok)
  {
    hide Shaped, Discarded;
    if p.filling.Some? {
      assert p.filling.value < |p.banks| by { FillingIn(p); }
      DrainLaw(Running(p, false), done, h.drain);
    }
  }

  /** Running out of FREE banks is counted once, until a bank is armed again. */
  lemma StarvationLaw(p: Pool, h: ArmReport)
    requires Shaped(p) && FreeKnown(p)
    ensures var q := ThreadArm(p, h);
      var idle := p.mode.running && !p.mode.faulted && p.filling.None?;
      var free := exists i | 0 <= i < p.geometry.bankCount :: p.banks[i].state == Free;
      && (!idle ==> q == p)
      && (idle && !free ==>
            && q.mode.starved && q.banks == p.banks && q.memory == p.memory && q.n == p.n
            && q.totals.starvation == p.totals.starvation + if p.mode.starved then 0 else 1)
      && (idle && free && q.filling.Some? && !q.mode.faulted ==>
            !q.mode.starved && q.totals.starvation == p.totals.starvation)
  {
    hide Offset, FrameOffset, Drain, Overwrite;
  }

  /** A single capture may write only to a buffer nobody has, and leaves it the DMA's bytes or the poison. */
  lemma CaptureLaw(p: Pool, r: CaptureRequest, reset: Error, bytes: seq<Byte>)
    requires Good(p) && Sound(p)
    ensures var q := Capture(p, r, reset, bytes);
      && (p.triggered.Some? || Occupied(p) || reset != Ok ==> q == p)
      && (q != p ==>
            && 1 <= r.frameWords && 1 <= r.frameCount <= 255 && r.mode <= 1
            && r.frameWords * 4 <= p.device.maxTransfer && r.frameWords * 4 * r.frameCount <= |p.memory|
            && |q.memory| == |p.memory|
            && var n := r.frameWords * 4 * r.frameCount;
              && q.memory[n..] == p.memory[n..]
              && (if |bytes| == n then q.memory[..n] == bytes else forall k | 0 <= k < n :: q.memory[k] == 0xa5))
  {
    InShape(p);
    hide Good, Sound, Offset, FrameOffset;
  }
}
