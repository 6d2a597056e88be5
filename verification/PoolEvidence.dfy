/** What START lets through, what a completed bank has shown, and the books of every reachable state, in the fields
    of the request, the hardware's report and the pool. */
module PoolEvidence {
  import opened Crc32
  import opened Protocol
  import opened BankPool
  import opened PoolInvariant
  import opened PoolRun
  import opened PoolTraces

  // ----- START -----

  /** A triggered chain of two to 64 banks that the engine can transfer and the buffer can hold. */
  predicate Startable(d: Device, r: StartRequest) {
    && r.triggered && d.hasSg && r.armTimeoutOk && 2 <= r.bankCount <= 64
    && 1 <= r.frameWords && 1 <= r.frameCount <= 255 && r.mode <= 1
    && r.frameWords * 4 <= d.maxTransfer && r.frameWords * 4 * r.frameCount * r.bankCount <= d.bufferBytes
  }

  lemma StartAccepted(d: Device, r: StartRequest)
    ensures CheckStart(d, r) == Ok <==> Startable(d, r)
  {
    var bytes := r.frameWords * 4 * r.frameCount;
    assert r.bankCount >= 1 ==> bytes * r.bankCount >= bytes;
  }

  /** Bank `i` is armed: poisoned, of the next generation, and the DMA's. */
  ghost predicate Armed(p: Pool, q: Pool, i: nat)
    requires Shaped(p) && Shaped(q) && q.geometry == p.geometry && i < p.geometry.bankCount
  {
    && (forall k | 0 <= k < p.geometry.bankBytes :: BankBytes(q, i)[k] == 0xa5)
    && q.filling == Some(i) && q.inFlight && q.banks[i].state == Filling
    && q.banks[i].generation == (if p.banks[i].generation == 0xffff_ffff then 0 else p.banks[i].generation + 1)
    && q.n == p.n.(free := q.n.free) && q.n.free + 1 == p.n.free && !q.mode.starved
    && forall j | 0 <= j < |p.banks| && j != i :: q.banks[j] == p.banks[j]
  }

  lemma ArmSucceeds(p: Pool, i: nat, h: ArmReport)
    requires Sound(p) && Shaped(p) && i < p.geometry.bankCount && p.n.free > 0
    ensures Arm(p, i, h).error == Ok <==>
            p.banks[i].state == Free && p.filling.None? && h.reset == Ok && h.submit == Ok && h.armed == Ok
    ensures Arm(p, i, h).error == Ok ==>
              var q := Arm(p, i, h).pool; Shaped(q) && q.geometry == p.geometry && Armed(p, q, i)
  {
    hide Sound, Offset, FrameOffset, Drain;
  }

  /** START begins a run exactly when the request is startable, nothing holds the buffer and the hardware takes the
      first bank; then the geometry is the request's, bank 0 is filling, the others are free and nothing is counted. */
  lemma StartBegins(p: Pool, r: StartRequest, reset: Error, arm: ArmReport)
    requires Good(p) && Sound(p)
    ensures Start(p, r, reset, arm).error == Ok <==>
        && Startable(p.device, r) && p.triggered.None? && !OwnsBuffer(p)
        && reset == Ok && arm.reset == Ok && arm.submit == Ok && arm.armed == Ok
    ensures Start(p, r, reset, arm).error == Ok ==>
        var q := Start(p, r, reset, arm).pool;
        var g, t := q.geometry, q.totals;
        && Shaped(q) && g.frameWords == r.frameWords && g.frameCount == r.frameCount && g.mode == r.mode
        && g.bankCount == r.bankCount && g.frameBytes == r.frameWords * 4
        && g.bankBytes == r.frameWords * 4 * r.frameCount
        && (forall k | 0 <= k < g.bankBytes :: BankBytes(q, 0)[k] == 0xa5)
        && q.filling == Some(0) && q.n.ready == 0 && q.n.user == 0 && q.n.free + 1 == r.bankCount
        && q.ids.runId == p.ids.nextRunId && q.ids.nextSequence == 1
        && q.mode.running && !q.mode.faulted && !q.mode.stopping && q.mode.stopResult == p.mode.stopResult
        && t.produced == 0 && t.dequeued == 0 && t.consumed == 0 && t.discarded == 0 && t.producedBytes == 0
        && t.errors == 0 && t.starvation == 0 && t.skipped == arm.missed
        && forall j | 1 <= j < r.bankCount :: q.banks[j].state == Free
  {
    hide Good, Sound, Counted, CheckStart, Arm, Startable, Offset, FrameOffset;
    StartAccepted(p.device, r);
    if Startable(p.device, r) && p.triggered.None? && !OwnsBuffer(p) && reset == Ok {
      SomeBanks(p.device, r);
      ConfiguredSound(p, r);
      var c := Configured(p, RequestGeometry(r));
      InShape(c);
      SoundParts(c);
      FreeIsKnown(c);
      ArmSucceeds(c, 0, arm);
      ArmKeeps(c, arm);
    }
  }

  lemma SomeBanks(d: Device, r: StartRequest)
    requires Startable(d, r)
    ensures 2 <= r.bankCount <= 64
  {
  }

  lemma ArmKeeps(p: Pool, h: ArmReport)
    requires Shaped(p) && p.geometry.bankCount > 0 && p.n.free > 0
    ensures Arm(p, 0, h).error == Ok ==>
      var q := Arm(p, 0, h).pool;
      && q.geometry == p.geometry && q.ids == p.ids
      && q.totals == p.totals.(skipped := p.totals.skipped + h.missed)
      && q.mode == p.mode.(starved := false)
  {
    hide Offset, FrameOffset, Drain;
  }

  // ----- a completed bank -----

  /** All was transferred into all frames, and one trigger was seen and timed. */
  predicate CleanReport(g: Geometry, r: Report) {
    && r.transferred && r.residue == 0 && r.statusDone && !r.statusError
    && r.completedFrames == g.frameCount && r.currentFrame + 1 == g.frameCount && r.currentSample + 1 == g.frameWords
    && r.triggerCount == 1 && r.triggerSeen && r.firstTimeValid && r.triggerTime <= r.firstSampleTime
  }

  /** What is said of bank `i` is where and what it is. */
  ghost predicate Described(p: Pool, i: nat)
    requires i < |p.banks|
  {
    var b := p.banks[i];
    var g := b.grant;
    && g.Grant? && g.bank == i && g.generation == b.generation && g.sequence == b.sequence && g.runId == p.ids.runId
    && g.geometry == p.geometry && g.offset == i * p.geometry.bankBytes && g.bytes == p.geometry.bankBytes
    && g.offset + g.bytes <= |p.memory| && p.memory[g.offset..g.offset + g.bytes] == b.captured
    && CleanReport(p.geometry, g.report)
  }

  /** A bank completes exactly on a clean report; else it is free again and nothing was produced. */
  lemma BankCompletes(p: Pool, h: FinalReport)
    requires Sound(p) && Shaped(p) && p.filling.Some?
    ensures var q := Finalize(p, h).pool;
      var i := p.filling.value;
      && |q.banks| == |p.banks|
      && (Finalize(p, h).error == Ok <==> h.wait == Ok && CleanReport(p.geometry, h.report) && h.reset == Ok)
      && q.filling.None? && q.totals.skipped == p.totals.skipped + h.missed
      && (Finalize(p, h).error == Ok ==>
            && q.banks[i].state == Ready && q.banks[i].sequence == p.ids.nextSequence
            && Described(q, i) && q.banks[i].grant.report == h.report
            && q.n.ready == p.n.ready + 1 && q.n.free == p.n.free
            && q.totals.produced == p.totals.produced + 1
            && q.totals.producedBytes == p.totals.producedBytes + p.geometry.bankBytes
            && q.totals.lastShot == h.report.triggerShotId)
      && (Finalize(p, h).error != Ok ==>
            && q.banks[i].state == Free && q.n.ready == p.n.ready && q.n.free == p.n.free + 1
            && q.totals.produced == p.totals.produced && q.totals.producedBytes == p.totals.producedBytes)
  {
    hide Sound, FrameOffset, Acceptable, CleanReport;
    AcceptsClean(p.geometry, h.report);
  }

  lemma HeldDescribed(p: Pool)
    requires Sound(p)
    ensures Shaped(p)
    ensures forall i | 0 <= i < p.geometry.bankCount && (p.banks[i].state == Ready || p.banks[i].state == UserOwned) ::
              Described(p, i)
  {
    InShape(p);
    hide FrameOffset, Count, InRange, AllReady;
    forall i | 0 <= i < p.geometry.bankCount && (p.banks[i].state == Ready || p.banks[i].state == UserOwned)
      ensures Described(p, i)
    {
      assert Held(p.banks[i]);
      assert Granted(p.banks[i], i, p.geometry, p.ids.runId);
      CapturedAt(p, i);
    }
  }

  /** In every reachable state a bank that is READY or handed out has shown a clean report and is described by its
      grant, and a bank DEQUEUE hands out has. */
  lemma EveryGrantClean(device: Device, memory: seq<Byte>, steps: seq<Step>)
    requires |memory| == device.bufferBytes
    ensures Good(NewPool(device, memory))
    ensures var p := Run(NewPool(device, memory), steps);
      && Shaped(p)
      && (forall i | 0 <= i < p.geometry.bankCount && (p.banks[i].state == Ready || p.banks[i].state == UserOwned) ::
            Described(p, i))
      && (GoodIsSound(p);
          Dequeue(p).1.Got? ==>
            var g := Dequeue(p).1.grant;
            && g.Grant? && CleanReport(g.geometry, g.report) && g.offset == g.bank * g.geometry.bankBytes
            && g.bytes == g.geometry.bankBytes)
  {
    NewGood(device, memory);
    var p := Run(NewPool(device, memory), steps);
    GoodIsSound(p);
    HeldDescribed(p);
    hide Good, Sound, Run, NewPool, Described, FrameOffset;
    DequeueGood(p);
    if Dequeue(p).1.Got? {
      var g := Dequeue(p).1.grant;
      AcceptsClean(g.geometry, g.report);
    }
  }

  lemma AcceptsClean(g: Geometry, r: Report)
    ensures Acceptable(g, r) <==> CleanReport(g, r)
  {
  }

  // ----- the books -----

  /** Bytes are counted by the bank, the high-water mark is one, and errors are counted when one is noted. */
  ghost predicate Booked(p: Pool) {
    var t := p.totals;
    && t.producedBytes == t.produced * p.geometry.bankBytes
    && p.n.ready <= t.highWater && t.highWater <= t.produced
    && (t.errors == 0 <==> t.lastError == Ok) && (p.mode.faulted ==> t.errors > 0)
  }

  /** What Booked reads, but for the counters of skipped triggers. */
  ghost predicate SameBooks(p: Pool, q: Pool) {
    && q.geometry == p.geometry && q.n.ready <= p.n.ready && q.totals.produced == p.totals.produced
    && q.totals.producedBytes == p.totals.producedBytes && q.totals.highWater == p.totals.highWater
    && q.totals.errors == p.totals.errors && q.totals.lastError == p.totals.lastError
    && (q.mode.faulted ==> p.mode.faulted)
  }

  lemma DrainBooks(p: Pool, dmaDone: bool, h: DrainReport)
    requires p.filling.Some? ==> p.filling.value < |p.banks|
    ensures SameBooks(p, Drain(p, dmaDone, h).pool)
  {
  }

  lemma ArmBooks(p: Pool, i: nat, h: ArmReport)
    requires Shaped(p) && i < p.geometry.bankCount && p.n.free > 0
    ensures SameBooks(p, Arm(p, i, h).pool)
  {
    hide Offset, FrameOffset, Drain, Overwrite;
    var q := Skip(p, h.missed);
    if p.banks[i].state == Free && p.filling.None? && h.reset == Ok && h.submit == Ok && h.armed != Ok {
      DrainBooks(ToFilling(Fill(q, i, h.written), i), false, h.drain);
    }
  }

  lemma FaultBooks(p: Pool, error: Error)
    requires Booked(p) && error != Ok
    ensures Booked(Fault(p, error))
  {
  }

  lemma KeptBooks(p: Pool, q: Pool)
    requires Booked(p) && SameBooks(p, q)
    ensures Booked(q)
  {
  }

  lemma FinalizeBooks(p: Pool, h: FinalReport)
    requires Shaped(p) && Booked(p)
    ensures Booked(Finalize(p, h).pool)
  {
    hide Offset, FrameOffset, Acceptable, Shaped;
    OneMore(p.totals.produced, p.geometry.bankBytes);
  }

  lemma OneMore(a: nat, n: nat)
    ensures (a + 1) * n == a * n + n
  {
  }

  lemma StopBooks(p: Pool, done: bool, h: ThreadReport)
    requires Shaped(p) && Booked(p)
    ensures Booked(ThreadStop(p, done, h))
  {
    hide Shaped, Drain, Discarded;
    var q := Running(p, false);
    if q.filling.Some? {
      assert q.filling.value < |q.banks| by { FillingIn(p); }
      DrainBooks(q, done, h.drain);
    }
  }

  lemma FillingIn(p: Pool)
    requires Shaped(p) && p.filling.Some?
    ensures p.filling.value < |p.banks|
  {
  }

  lemma ThreadFinalizeBooks(p: Pool, done: bool, h: FinalReport)
    requires Shaped(p) && Booked(p)
    ensures Booked(ThreadFinalize(p, done, h))
  {
    hide Booked, Finalize;
    FinalizeBooks(p, h);
    if Finalize(p, h).error != Ok {
      FaultBooks(Finalize(p, h).pool, Finalize(p, h).error);
    }
  }

  lemma ThreadArmBooks(p: Pool, h: ArmReport)
    requires Shaped(p) && FreeKnown(p) && Booked(p)
    ensures Booked(ThreadArm(p, h))
  {
    hide Booked, Arm, Offset, FrameOffset;
    var i := FindFree(p.banks, 0, p.geometry.bankCount);
    var t := p.totals;
    KeptBooks(p, p.(mode := p.mode.(starved := true), totals := t.(starvation := t.starvation + 1)));
    if i < p.geometry.bankCount {
      ArmBooks(p, i, h);
      KeptBooks(p, Arm(p, i, h).pool);
      if Arm(p, i, h).error != Ok {
        FaultBooks(Arm(p, i, h).pool, Arm(p, i, h).error);
      }
    }
  }

  lemma ThreadBooks(p: Pool, h: ThreadReport)
    requires Good(p) && Sound(p) && Booked(p)
    ensures Booked(ThreadStep(p, h))
  {
    var q := p.(events := NO_EVENTS);
    InShape(p);
    ExchangeSound(p);
    KeptBooks(p, q);
    hide Good, Sound, Booked, Offset, FrameOffset, ThreadStop, ThreadFinalize, ThreadArm;
    StopBooks(q, p.events.done, h);
    if !p.events.stop {
      ThreadFinalizeBooks(q, p.events.done, h.final);
      ThreadFinalizeSound(q, p.events.done, h.final);
      var r := ThreadFinalize(q, p.events.done, h.final);
      InShape(r);
      SoundParts(r);
      FreeIsKnown(r);
      ThreadArmBooks(r, h.arm);
    }
  }

  lemma StartBooks(p: Pool, r: StartRequest, reset: Error, arm: ArmReport)
    requires Good(p) && Sound(p) && Booked(p)
    ensures Booked(Start(p, r, reset, arm).pool)
  {
  }

  lemma NextBooked(p: Pool, s: Step)
    requires Good(p) && Sound(p) && Booked(p)
    ensures Booked(Next(p, s))
  {
    hide Good, Sound, Start, ThreadStep;
    match s
    case StartStep(request, reset, arm) => StartBooks(p, request, reset, arm);
    case Iterate(report) => ThreadBooks(p, report);
    case _ =>
  }

  /** In every reachable state the books are kept. */
  lemma {:induction false} EveryStateBooked(device: Device, memory: seq<Byte>, steps: seq<Step>)
    requires |memory| == device.bufferBytes
    ensures Good(NewPool(device, memory)) && Booked(Run(NewPool(device, memory), steps))
  {
    NewGood(device, memory);
    if steps != [] {
      hide Good, Sound, Booked, Next, NewPool;
      var n := |steps| - 1;
      EveryStateBooked(device, memory, steps[..n]);
      GoodIsSound(Run(NewPool(device, memory), steps[..n]));
      NextBooked(Run(NewPool(device, memory), steps[..n]), steps[n]);
    }
  }
}
