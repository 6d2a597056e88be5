/** The bank pool's steps - requests from userspace, thread iterations, hardware events - and what every run
    of them keeps. */
module PoolRun {
  import opened Crc32
  import opened Protocol
  import opened BankPool
  import opened PoolInvariant

  // ----- the thread -----

  lemma QuietSound(p: Pool)
    requires Sound(p)
    ensures Sound(p.(events := p.events.(done := false), inFlight := false))
  {
    hide Offset, FrameOffset, Granted, InRange, Count, Sequenced, AllReady;
    SameBytes(p, p.(events := p.events.(done := false), inFlight := false));
  }

  /** Only the memory and the banks decide what banks hold. */
  lemma SameBytes(p: Pool, q: Pool)
    requires Shaped(p) && Shaped(q) && q.memory == p.memory && q.geometry == p.geometry && q.banks == p.banks
    ensures Intact(p) <==> Intact(q)
  {
    hide Offset, FrameOffset;
    assert forall i | 0 <= i < p.geometry.bankCount :: BankBytes(q, i) == BankBytes(p, i);
  }

  lemma DrainSound(p: Pool, dmaDone: bool, h: DrainReport)
    requires Sound(p) && (dmaDone ==> !p.inFlight) && !p.events.done
    ensures var o := Drain(p, dmaDone, h);
      && Sound(o.pool) && o.pool.mode == p.mode && o.pool.events == p.events && o.pool.triggered == p.triggered
      && (o.error == Ok ==> o.pool.filling.None?)
  {
    hide Sound, FreeFilling, Skip;
    InShape(p);
    if p.filling.Some? && (dmaDone || (p.inFlight && h.arrives)) {
      var q := if dmaDone then p else p.(events := p.events.(done := false), inFlight := false);
      QuietSound(p);
      SkipSound(q, h.missed);
      SkipParts(q, h.missed);
      if h.wait == Ok && h.transferred && h.reset == Ok {
        FreeFillingSound(Skip(q, h.missed));
        FreeFillingParts(Skip(q, h.missed));
      }
    }
  }

  lemma InShape(p: Pool)
    requires Sound(p)
    ensures Shaped(p) && p.geometry.bankCount <= |p.banks| == MAX_POOL_BANKS
    ensures p.filling.Some? ==> p.filling.value < |p.banks|
  {
    hide Offset, FrameOffset, Granted, InRange, Count, Sequenced, AllReady, Intact;
  }

  lemma SkipParts(p: Pool, missed: nat)
    ensures Skip(p, missed) == p.(totals := Skip(p, missed).totals)
    ensures Skip(p, missed).totals == p.totals.(skipped := Skip(p, missed).totals.skipped)
  {
  }

  lemma FreeFillingParts(p: Pool)
    requires p.filling.Some? && p.filling.value < |p.banks|
    ensures var q := FreeFilling(p);
      && q.mode == p.mode && q.events == p.events && q.triggered == p.triggered && q.filling.None?
      && q.inFlight == p.inFlight && q.memory == p.memory && q.geometry == p.geometry && q.totals == p.totals
      && q.ids == p.ids
  {
  }

  lemma ArmSound(p: Pool, i: nat, h: ArmReport)
    requires Sound(p) && i < p.geometry.bankCount && p.banks[i].state == Free && p.filling.None?
    requires p.triggered.None? && p.totals.discarded == 0
    ensures p.n.free > 0
    ensures var o := Arm(p, i, h);
      && Sound(o.pool) && o.pool.events == p.events && o.pool.mode == p.mode.(starved := o.pool.mode.starved)
      && (o.error == Ok ==> o.pool.filling.Some? && o.pool.inFlight)
  {
    hide Sound, Fill, Skip, ToFilling, Drain;
    InShape(p);
    ToFillingSound(p, i);
    var q := Skip(p, h.missed);
    SkipSound(p, h.missed);
    SkipParts(p, h.missed);
    var clean := Fill(q, i, Poison(p.geometry.bankBytes));
    var dirty := Fill(q, i, h.written);
    FillSound(q, i, Poison(p.geometry.bankBytes));
    FillSound(q, i, h.written);
    FillParts(q, i, Poison(p.geometry.bankBytes));
    FillParts(q, i, h.written);
    ToFillingSound(clean, i);
    ToFillingSound(dirty, i);
    ToFillingParts(clean, i);
    ToFillingParts(dirty, i);
    StarvedSound(ToFilling(clean, i), false);
    NotDone(p);
    DrainSound(ToFilling(dirty, i), false, h.drain);
  }

  lemma NotDone(p: Pool)
    requires Sound(p) && p.filling.None?
    ensures !p.events.done && !p.inFlight
  {
    hide Offset, FrameOffset, Granted, InRange, Count, Sequenced, AllReady, Intact;
  }

  lemma FillParts(p: Pool, i: nat, bytes: seq<Byte>)
    requires Shaped(p) && i < p.geometry.bankCount
    ensures Fill(p, i, bytes) == p.(memory := Fill(p, i, bytes).memory)
  {
  }

  lemma ToFillingParts(p: Pool, i: nat)
    requires i < |p.banks| && p.n.free > 0
    ensures var q := ToFilling(p, i);
      && q.mode == p.mode && q.events == p.events && q.triggered == p.triggered && q.filling == Some(i) && q.inFlight
      && q.memory == p.memory && q.geometry == p.geometry && q.totals == p.totals && q.ids == p.ids
  {
  }

  lemma StarvedSound(p: Pool, starved: bool)
    requires Sound(p)
    ensures Sound(p.(mode := p.mode.(starved := starved)))
  {
    hide Offset, FrameOffset, Granted, InRange, Count, Sequenced, AllReady;
    SameBytes(p, p.(mode := p.mode.(starved := starved)));
  }

  lemma StarvationSound(p: Pool)
    requires Sound(p)
    ensures Sound(p.(totals := p.totals.(starvation := p.totals.starvation + 1)))
  {
    hide Offset, FrameOffset, Granted, InRange, Count, Sequenced, AllReady;
    SameBytes(p, p.(totals := p.totals.(starvation := p.totals.starvation + 1)));
  }

  /** Finalizing ends the DMA one way or the other. */
  lemma FinalizeSound(p: Pool, h: FinalReport)
    requires Sound(p) && p.filling.Some? && !p.inFlight && !p.events.done
    ensures var o := Finalize(p, h);
      Sound(o.pool) && o.pool.mode == p.mode && o.pool.events == p.events && o.pool.filling.None?
  {
    hide Sound, Skip, SetGrant, FreeFilling, ToReady, Acceptable, MakeGrant;
    InShape(p);
    var q := Skip(p, h.missed);
    SkipSound(p, h.missed);
    SkipParts(p, h.missed);
    var g := if h.wait != Ok then NoGrant else MakeGrant(p, h.report, 0, 0);
    var noted := SetGrant(q, g);
    SetGrantSound(q, g);
    SetGrantParts(q, g);
    SameMade(p, q, h.report);
    FreeFillingSound(noted);
    FreeFillingParts(noted);
    if Acceptable(p.geometry, h.report) {
      ToReadySound(q, h.report);
      ToReadyParts(q, h.report);
    }
  }

  lemma SameMade(p: Pool, q: Pool, report: Report)
    requires p.filling.Some? && p.filling.value < |p.banks|
    requires q == p.(totals := q.totals)
    ensures MakeGrant(q, report, 0, 0) == MakeGrant(p, report, 0, 0)
  {
  }

  lemma SetGrantParts(p: Pool, g: Grant)
    requires p.filling.Some? && p.filling.value < |p.banks|
    ensures SetGrant(p, g) == p.(banks := SetGrant(p, g).banks) && |SetGrant(p, g).banks| == |p.banks|
  {
  }

  lemma ToReadyParts(p: Pool, report: Report)
    requires Shaped(p) && p.filling.Some?
    ensures var q := ToReady(p, report);
      && q.mode == p.mode && q.events == p.events && q.triggered == p.triggered && q.filling.None?
      && q.inFlight == p.inFlight && q.memory == p.memory && q.geometry == p.geometry && q.ids.runId == p.ids.runId
      && q.ids.nextRunId == p.ids.nextRunId
  {
  }

  lemma ThreadFinalizeSound(p: Pool, done: bool, h: FinalReport)
    requires Sound(p) && (done ==> !p.inFlight) && !p.events.done
    ensures var q := ThreadFinalize(p, done, h);
      && Sound(q) && q.events == p.events && (done ==> q.filling.None?) && (!done ==> q == p)
  {
    hide Sound, Finalize, Fault;
    InShape(p);
    if done && p.filling.Some? {
      FinalizeSound(p, h);
      FaultSound(Finalize(p, h).pool, Finalize(p, h).error);
      FaultParts(Finalize(p, h).pool, Finalize(p, h).error);
    }
  }

  lemma FaultParts(p: Pool, error: Error)
    ensures var q := Fault(p, error);
      && q == p.(mode := q.mode, totals := q.totals) && !q.mode.running && q.mode.stopping == p.mode.stopping
      && q.mode.configured == p.mode.configured
  {
  }

  lemma FreeIsKnown(p: Pool)
    requires Counted(p)
    ensures FreeKnown(p)
  {
    forall i | 0 <= i < p.geometry.bankCount && p.banks[i].state == Free
      ensures p.n.free > 0
    {
      CountSome(p.banks, i, p.geometry.bankCount);
    }
  }

  lemma {:induction false} NoFree(banks: seq<Bank>, n: nat)
    requires n <= |banks| && forall i | 0 <= i < n :: banks[i].state != Free
    ensures Count(banks, Free, n) == 0
  {
    if n > 0 {
      NoFree(banks, n - 1);
    }
  }

  lemma SoundParts(p: Pool)
    requires Sound(p)
    ensures Counted(p) && Queued(p) && Intact(p) && Moded(p) && Tallied(p)
  {
    hide Counted, Queued, Intact, Moded, Tallied;
  }

  /** After a thread iteration a running pool has a DMA under way or no FREE bank. */
  lemma ThreadArmSound(p: Pool, h: ArmReport)
    requires Sound(p)
    ensures FreeKnown(p)
    ensures var q := ThreadArm(p, h);
      && Sound(q) && q.events == p.events && q.mode.stopping == p.mode.stopping
      && (q.mode.running ==> if p.filling.Some? then q == p else (q.filling.Some? && q.inFlight) || q.n.free == 0)
  {
    SoundParts(p);
    FreeIsKnown(p);
    hide Sound, Arm, Fault, Count, Queued, Intact, Tallied, Offset, FrameOffset;
    if p.mode.running && !p.mode.faulted && p.filling.None? {
      var n := p.geometry.bankCount;
      var i := FindFree(p.banks, 0, n);
      if i == n {
        NoFree(p.banks, n);
        StarvationSound(p);
        StarvedSound(p.(totals := p.totals.(starvation := p.totals.starvation + 1)), true);
      } else {
        ArmSound(p, i, h);
        FaultSound(Arm(p, i, h).pool, Arm(p, i, h).error);
        FaultParts(Arm(p, i, h).pool, Arm(p, i, h).error);
      }
    }
  }

  lemma ThreadStopSound(p: Pool, done: bool, h: ThreadReport)
    requires Sound(p) && (done ==> !p.inFlight) && p.events == NO_EVENTS
    ensures var q := ThreadStop(p, done, h);
      && Sound(q) && q.events == NO_EVENTS && !q.mode.running && !q.mode.stopping
  {
    hide Sound, Drain, Fault, Skip, DiscardReady, Shaped;
    InShape(p);
    var q := Running(p, false);
    StoppedSound(p);
    DrainSound(q, done, h.drain);
    InShape(q);
    SkipSound(q, h.missed);
    SkipParts(q, h.missed);
    var o := if q.filling.Some? then Drain(q, done, h.drain)
             else if q.mode.configured then Outcome(Skip(q, h.missed), h.reset)
             else Outcome(q, Ok);
    InShape(o.pool);
    if o.error == Ok {
      DiscardSound(o.pool);
      DiscardParts(o.pool);
    } else {
      FaultSound(o.pool, o.error);
      FaultParts(o.pool, o.error);
    }
    var r := if o.error == Ok then DiscardReady(o.pool) else Fault(o.pool, o.error);
    SettledSound(r, o.error);
  }

  lemma StoppedSound(p: Pool)
    requires Sound(p)
    ensures Sound(Running(p, false))
  {
    hide Offset, FrameOffset, Granted, InRange, Count, Sequenced, AllReady;
    SameBytes(p, Running(p, false));
  }

  lemma SettledSound(p: Pool, error: Error)
    requires Sound(p) && !p.mode.running
    ensures Sound(p.(mode := p.mode.(stopResult := error, stopping := false, starved := false)))
  {
    hide Offset, FrameOffset, Granted, InRange, Count, Sequenced, AllReady;
    SameBytes(p, p.(mode := p.mode.(stopResult := error, stopping := false, starved := false)));
  }

  lemma DiscardParts(p: Pool)
    requires Shaped(p)
    ensures var q := DiscardReady(p);
      && q.mode == p.mode && q.events == p.events && q.triggered == p.triggered && q.filling == p.filling
      && q.inFlight == p.inFlight && q.memory == p.memory && q.geometry == p.geometry && q.ids == p.ids
  {
  }

  /** One iteration of the pool thread: the events are exchanged for none and acted on under the lock. */
  function ThreadStep(p: Pool, h: ThreadReport): Pool
    requires Sound(p)
  {
    var q := p.(events := NO_EVENTS);
    InShape(p);
    ExchangeSound(p);
    if p.events.stop then ThreadStop(q, p.events.done, h)
    else
      ThreadFinalizeSound(q, p.events.done, h.final);
      ThreadArmSound(ThreadFinalize(q, p.events.done, h.final), h.arm);
      ThreadArm(ThreadFinalize(q, p.events.done, h.final), h.arm)
  }

  lemma ExchangeSound(p: Pool)
    requires Sound(p)
    ensures Sound(p.(events := NO_EVENTS)) && (p.events.done ==> !p.inFlight)
  {
    hide Offset, FrameOffset, Granted, InRange, Count, Sequenced, AllReady;
    SameBytes(p, p.(events := NO_EVENTS));
  }

  lemma ThreadGood(p: Pool, h: ThreadReport)
    requires Good(p)
    ensures Good(ThreadStep(p, h))
    ensures var q := ThreadStep(p, h); q.mode.running ==> q.filling.Some? || q.n.free == 0
  {
    var q := p.(events := NO_EVENTS);
    SoundParts(p);
    hide Sound, ThreadStop, ThreadFinalize, ThreadArm, Queued, Intact, Tallied, Counted, Shaped, FreeKnown;
    InShape(p);
    ExchangeSound(p);
    if p.events.stop {
      ThreadStopSound(q, p.events.done, h);
    } else {
      ThreadFinalizeSound(q, p.events.done, h.final);
      ThreadArmSound(ThreadFinalize(q, p.events.done, h.final), h.arm);
      KeepsStopping(q, p.events.done, h.final);
    }
  }

  lemma KeepsStopping(p: Pool, done: bool, h: FinalReport)
    requires Sound(p) && (done ==> !p.inFlight) && !p.events.done && Shaped(p)
    ensures ThreadFinalize(p, done, h).mode.stopping == p.mode.stopping
  {
    hide Sound, Finalize, Fault, Shaped;
    if done && p.filling.Some? {
      FinalizeSound(p, h);
      FaultParts(Finalize(p, h).pool, Finalize(p, h).error);
    }
  }

  // ----- requests from userspace -----

  lemma NoneHeld(p: Pool)
    requires Counted(p) && p.n.ready == 0 && p.n.user == 0
    ensures forall i | 0 <= i < p.geometry.bankCount :: !Held(p.banks[i])
  {
    hide Offset, FrameOffset;
    forall i | 0 <= i < p.geometry.bankCount
      ensures !Held(p.banks[i])
    {
      CountSome(p.banks, i, p.geometry.bankCount);
    }
  }

  /** A geometry START accepts: its banks fit the buffer and its frames fill the bank. */
  lemma GeometryFits(d: Device, r: StartRequest)
    requires CheckStart(d, r) == Ok
    ensures var g := RequestGeometry(r);
      && 2 <= g.bankCount <= MAX_POOL_BANKS
      && (forall i | 0 <= i < g.bankCount :: Offset(g, i) + g.bankBytes <= d.bufferBytes)
      && (forall f | 0 <= f < g.frameCount :: FrameOffset(g, f) + g.frameBytes <= g.bankBytes)
  {
    var g := RequestGeometry(r);
    forall i | 0 <= i < g.bankCount
      ensures Offset(g, i) + g.bankBytes <= d.bufferBytes
    {
      NextMultiple(i, g.bankCount, g.bankBytes);
    }
    forall f | 0 <= f < g.frameCount
      ensures FrameOffset(g, f) + g.frameBytes <= g.bankBytes
    {
      NextMultiple(f, g.frameCount, g.frameBytes);
    }
  }

  lemma ConfiguredSound(p: Pool, r: StartRequest)
    requires Sound(p) && p.triggered.None? && p.filling.None? && CheckStart(p.device, r) == Ok
    ensures var q := Configured(p, RequestGeometry(r));
      Sound(q) && q.banks[0].state == Free && q.geometry.bankCount > 0
  {
    GeometryFits(p.device, r);
    hide CheckStart, RequestGeometry, Offset, FrameOffset, Granted, InRange, Count;
    NotDone(p);
    CountFree(Configured(p, RequestGeometry(r)).banks, RequestGeometry(r).bankCount);
  }

  /** `qcrate_pool_start`. */
  function Start(p: Pool, r: StartRequest, reset: Error, arm: ArmReport): Outcome
    requires Sound(p)
  {
    if CheckStart(p.device, r) != Ok then Outcome(p, CheckStart(p.device, r))
    else if p.triggered.Some? || OwnsBuffer(p) then Outcome(p, Busy)
    else if reset != Ok then Outcome(p, reset)
    else
      ConfiguredSound(p, r);
      InShape(Configured(p, RequestGeometry(r)));
      FreeIsKnown(Configured(p, RequestGeometry(r)));
      var o := Arm(Configured(p, RequestGeometry(r)), 0, arm);
      if o.error == Ok then o else Outcome(Fault(o.pool, o.error), o.error)
  }

  lemma StartGood(p: Pool, r: StartRequest, reset: Error, arm: ArmReport)
    requires Good(p)
    ensures Good(Start(p, r, reset, arm).pool)
    ensures Start(p, r, reset, arm).error == Ok ==> Start(p, r, reset, arm).pool.filling.Some?
  {
    var q := Configured(p, RequestGeometry(r));
    hide Sound, Arm, Fault, CheckStart, RequestGeometry;
    if CheckStart(p.device, r) == Ok && p.triggered.None? && !OwnsBuffer(p) && reset == Ok {
      ConfiguredSound(p, r);
      InShape(q);
      ArmSound(q, 0, arm);
      var o := Arm(q, 0, arm);
      FaultSound(o.pool, o.error);
      FaultParts(o.pool, o.error);
    }
  }

  datatype Dequeued = Got(grant: Grant) | Refused(error: Error)

  /** The locked part of `qcrate_pool_dequeue`. */
  function Dequeue(p: Pool): (Pool, Dequeued)
    requires Sound(p)
  {
    InShape(p);
    var i := FindReady(p.banks, p.geometry.bankCount);
    if i == p.geometry.bankCount then
      (p, Refused(if p.mode.faulted then Io else if p.mode.running then Again else Shutdown))
    else
      ToUserSound(p, i);
      (ToUser(p, i), Got(p.banks[i].grant))
  }

  /** The n-th bank dequeued in a run is the n-th produced, and its bytes are those it was completed with. */
  lemma DequeueGood(p: Pool)
    requires Good(p)
    ensures Good(Dequeue(p).0)
    ensures Dequeue(p).1.Got? ==>
      var g := Dequeue(p).1.grant;
      && g.Grant? && g.runId == p.ids.runId && g.geometry == p.geometry && Acceptable(g.geometry, g.report)
      && g.sequence == p.totals.dequeued + 1 == Dequeue(p).0.totals.dequeued
      && g.bank < p.geometry.bankCount && g.offset == Offset(p.geometry, g.bank)
      && p.banks[g.bank].state == Ready && Dequeue(p).0.banks[g.bank].state == UserOwned
      && p.memory[g.offset..g.offset + g.bytes] == p.banks[g.bank].captured
    ensures Dequeue(p).1.Refused? ==> p.n.ready == 0 && Dequeue(p).0 == p
  {
    SoundParts(p);
    hide Sound, Count, Offset, FrameOffset, Acceptable, InRange, AllReady;
    var n := p.geometry.bankCount;
    var i := FindReady(p.banks, n);
    if i == n {
      NoReady(p.banks, n);
    } else {
      ToUserSound(p, i);
      assert Held(p.banks[i]) && Granted(p.banks[i], i, p.geometry, p.ids.runId);
      CapturedAt(p, i);
    }
  }

  lemma {:induction false} NoReady(banks: seq<Bank>, n: nat)
    requires n <= |banks| && forall i | 0 <= i < n :: banks[i].state != Ready
    ensures Count(banks, Ready, n) == 0
  {
    if n > 0 {
      NoReady(banks, n - 1);
    }
  }

  /** The locked part of `qcrate_pool_release_bank`. */
  function Release(p: Pool, t: Token): Outcome
    requires Sound(p)
  {
    InShape(p);
    if Accepts(p, t) then
      ToFreeSound(p, t.bank);
      Outcome(ToFree(p, t.bank), Ok)
    else Outcome(p, Stale)
  }

  lemma ReleaseGood(p: Pool, t: Token)
    requires Good(p)
    ensures Good(Release(p, t).pool)
  {
    hide Sound;
    InShape(p);
    if Accepts(p, t) {
      ToFreeSound(p, t.bank);
    }
  }

  /** RELEASE, its bank given back, waits for the thread while the pool runs with no DMA. */
  predicate WaitsForArm(p: Pool) {
    p.mode.running && p.filling.None?
  }

  /** What it waits for. */
  predicate WaitOver(p: Pool) {
    p.filling.Some? || p.mode.faulted || !p.mode.running
  }

  /** The wait never outlasts the next thread iteration: with a bank FREE it arms one, or the run is over. */
  lemma WaitIsAnswered(p: Pool, h: ThreadReport)
    requires Good(p) && WaitsForArm(p) && p.n.free > 0
    ensures WaitOver(ThreadStep(p, h))
  {
    SoundParts(p);
    hide Sound, ThreadStop, Queued, Intact, Tallied, Shaped, Arm, Fault, Finalize;
    InShape(p);
    ExchangeSound(p);
    var q := p.(events := NO_EVENTS);
    ThreadStopSound(q, p.events.done, h);
    FreeIsKnown(q);
    SomeFree(q.banks, q.geometry.bankCount);
    var i := FindFree(q.banks, 0, q.geometry.bankCount);
    if i < q.geometry.bankCount {
      ArmSound(q, i, h.arm);
      FaultParts(Arm(q, i, h.arm).pool, Arm(q, i, h.arm).error);
    }
  }

  lemma {:induction false} SomeFree(banks: seq<Bank>, n: nat)
    requires n <= |banks| && Count(banks, Free, n) > 0
    ensures exists i | 0 <= i < n :: banks[i].state == Free
  {
    if banks[n - 1].state != Free {
      SomeFree(banks, n - 1);
    }
  }

  /** The locked part of `qcrate_pool_stop`. */
  function Stop(p: Pool, runId: nat): Outcome {
    if !p.mode.configured || (runId != 0 && runId != p.ids.runId) then Outcome(p, Stale)
    else if p.mode.stopping then Outcome(p, Busy)
    else Outcome(p.(mode := p.mode.(running := false, stopping := true, stopResult := Ok),
                    events := p.events.(stop := true)), Ok)
  }

  lemma StopGood(p: Pool, runId: nat)
    requires Good(p)
    ensures Good(Stop(p, runId).pool)
  {
    hide Offset, FrameOffset, Granted, InRange, Count, Sequenced, AllReady;
    SameBytes(p, Stop(p, runId).pool);
  }

  // ----- hardware -----

  /** The completion callback. */
  function Complete(p: Pool): Pool {
    if p.inFlight then p.(inFlight := false, events := p.events.(done := true)) else p
  }

  lemma CompleteGood(p: Pool)
    requires Good(p)
    ensures Good(Complete(p))
  {
    hide Offset, FrameOffset, Granted, InRange, Count, Sequenced, AllReady;
    SameBytes(p, Complete(p));
  }

  /** The DMA writes into a descriptor of the filling bank; anything else is not its doing. */
  predicate DmaMayWrite(p: Pool, frame: nat, at: nat, bytes: seq<Byte>) {
    p.inFlight && p.filling.Some? && frame < p.geometry.frameCount && at + |bytes| <= p.geometry.frameBytes
  }

  function DmaWrite(p: Pool, frame: nat, at: nat, bytes: seq<Byte>): Pool
    requires Sound(p)
  {
    if !DmaMayWrite(p, frame, at, bytes) then p
    else
      InShape(p);
      WriteFits(p, frame);
      var to := Offset(p.geometry, p.filling.value) + FrameOffset(p.geometry, frame) + at;
      p.(memory := Overwrite(p.memory, to, bytes))
  }

  lemma WriteFits(p: Pool, frame: nat)
    requires Shaped(p) && p.filling.Some? && frame < p.geometry.frameCount
    ensures var g := p.geometry;
      && Offset(g, p.filling.value) + g.bankBytes <= |p.memory|
      && FrameOffset(g, frame) + g.frameBytes <= g.bankBytes
  {
    hide Offset, FrameOffset;
  }

  lemma DmaWriteGood(p: Pool, frame: nat, at: nat, bytes: seq<Byte>)
    requires Good(p)
    ensures Good(DmaWrite(p, frame, at, bytes))
  {
    hide Offset, FrameOffset, Granted, InRange, Count, Sequenced, AllReady, Intact, Overwrite;
    if DmaMayWrite(p, frame, at, bytes) {
      WriteFits(p, frame);
      WriteInside(p, p.filling.value, Offset(p.geometry, p.filling.value) + FrameOffset(p.geometry, frame) + at, bytes);
    }
  }

  // ----- the single-shot and triggered captures, which use the buffer from its start -----

  datatype CaptureRequest = CaptureRequest(frameWords: U32, frameCount: U32, mode: U32)

  function CaptureBytes(r: CaptureRequest): nat {
    r.frameWords * WORD_BYTES * r.frameCount
  }

  function CheckCapture(p: Pool, r: CaptureRequest): Error {
    if Validate(p.device, r.frameWords, r.frameCount, r.mode) != Ok then
      Validate(p.device, r.frameWords, r.frameCount, r.mode)
    else if p.triggered.Some? || OwnsBuffer(p) then Busy
    else Ok
  }

  /** What a capture leaves in the buffer: `bytes` from the DMA, or the poison. */
  function Captured(p: Pool, r: CaptureRequest, bytes: seq<Byte>): Pool
    requires Sound(p) && CheckCapture(p, r) == Ok
  {
    InShape(p);
    var n := CaptureBytes(r);
    p.(memory := Overwrite(p.memory, 0, if |bytes| == n then bytes else Poison(n)))
  }

  /** `qcrate_run_capture`, from lock to unlock. */
  function Capture(p: Pool, r: CaptureRequest, reset: Error, bytes: seq<Byte>): Pool
    requires Sound(p)
  {
    if CheckCapture(p, r) != Ok || reset != Ok then p else Captured(p, r, bytes)
  }

  /** `qcrate_arm_triggered`; `kept` is whether the transaction stays armed. */
  function ArmTriggered(p: Pool, r: CaptureRequest, reset: Error, kept: bool, bytes: seq<Byte>): Pool
    requires Sound(p)
  {
    if CheckCapture(p, r) != Ok || reset != Ok then p
    else
      var q := Captured(p, r, bytes);
      if kept then q.(triggered := Some(CaptureBytes(r))) else q
  }

  lemma CapturedGood(p: Pool, r: CaptureRequest, bytes: seq<Byte>, triggered: Option<nat>)
    requires Good(p) && CheckCapture(p, r) == Ok
    requires triggered == None || triggered == Some(CaptureBytes(r))
    ensures Good(Captured(p, r, bytes).(triggered := triggered))
  {
    CaptureFits(p, r);
    NoneHeld(p);
    hide Offset, FrameOffset, Granted, InRange, Count, Sequenced, AllReady, CaptureBytes, Validate, Overwrite;
  }

  lemma CaptureFits(p: Pool, r: CaptureRequest)
    requires CheckCapture(p, r) == Ok
    ensures CaptureBytes(r) <= p.device.bufferBytes
  {
  }

  lemma CaptureGood(p: Pool, r: CaptureRequest, reset: Error, bytes: seq<Byte>, kept: bool)
    requires Good(p)
    ensures Good(Capture(p, r, reset, bytes)) && Good(ArmTriggered(p, r, reset, kept, bytes))
  {
    hide Good, Sound, CheckCapture, Captured;
    GoodIsSound(p);
    if CheckCapture(p, r) == Ok {
      CapturedGood(p, r, bytes, None);
      CapturedGood(p, r, bytes, Some(CaptureBytes(r)));
      NotTriggered(p, r, bytes);
    }
  }

  lemma NotTriggered(p: Pool, r: CaptureRequest, bytes: seq<Byte>)
    requires Sound(p) && CheckCapture(p, r) == Ok
    ensures Captured(p, r, bytes).triggered == None
  {
    hide Sound;
  }

  lemma GoodIsSound(p: Pool)
    requires Good(p)
    ensures Sound(p)
  {
  }

  /** The triggered DMA writes into the range it was armed with. */
  function TriggeredWrite(p: Pool, at: nat, bytes: seq<Byte>): Pool
    requires Sound(p)
  {
    if p.triggered.Some? && at + |bytes| <= p.triggered.value then
      InShape(p);
      p.(memory := Overwrite(p.memory, at, bytes))
    else p
  }

  lemma TriggeredWriteGood(p: Pool, at: nat, bytes: seq<Byte>)
    requires Good(p)
    ensures Good(TriggeredWrite(p, at, bytes))
  {
    if p.triggered.Some? {
      NoneHeld(p);
    }
    hide Offset, FrameOffset, Granted, InRange, Count, Sequenced, AllReady, Overwrite;
  }

  lemma TriggeredEndGood(p: Pool)
    requires Good(p)
    ensures Good(p.(triggered := None))
  {
    hide Offset, FrameOffset, Granted, InRange, Count, Sequenced, AllReady;
    SameBytes(p, p.(triggered := None));
  }
}
