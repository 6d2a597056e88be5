/** What the steps of the bank pool leave alone: the banks that are waiting or handed out, and their bytes. */
module PoolTokens {
  import opened Crc32
  import opened Protocol
  import opened BankPool
  import opened PoolInvariant
  import opened PoolRun
  import opened PoolTraces

  /** READY and USER_OWNED banks are as before, no bank was handed out, and it is the same run. */
  ghost predicate Steady(p: Pool, q: Pool) {
    && q.ids.runId == p.ids.runId && q.geometry == p.geometry && q.totals.dequeued == p.totals.dequeued
    && |q.banks| == |p.banks|
    && (forall i | 0 <= i < |p.banks| && i < p.geometry.bankCount ::
          (Held(p.banks[i]) ==> q.banks[i] == p.banks[i])
          && (q.banks[i].state == UserOwned ==> p.banks[i].state == UserOwned))
  }

  lemma SteadyThen(p: Pool, q: Pool, r: Pool)
    requires Steady(p, q) && Steady(q, r)
    ensures Steady(p, r)
  {
  }

  lemma SteadyIdle(p: Pool, i: nat, b: Bank, q: Pool)
    requires i < |p.banks| && !Held(p.banks[i]) && b.state != UserOwned && q.banks == p.banks[i := b]
    requires q.ids.runId == p.ids.runId && q.geometry == p.geometry && q.totals.dequeued == p.totals.dequeued
    ensures Steady(p, q)
  {
  }

  lemma FreeFillingSteady(p: Pool)
    requires p.filling.Some? && p.filling.value < |p.banks| && p.banks[p.filling.value].state == Filling
    ensures Steady(p, FreeFilling(p))
  {
    SteadyIdle(p, p.filling.value, p.banks[p.filling.value].(state := Free), FreeFilling(p));
  }

  lemma FillingBank(p: Pool)
    requires Sound(p) && p.filling.Some?
    ensures p.filling.value < |p.banks| && p.banks[p.filling.value].state == Filling
  {
    hide Offset, FrameOffset, Granted, InRange, Count, Sequenced, AllReady, Intact;
  }

  lemma DrainSteady(p: Pool, dmaDone: bool, h: DrainReport)
    requires Sound(p)
    ensures |p.banks| == MAX_POOL_BANKS && (p.filling.Some? ==> p.filling.value < |p.banks|)
    ensures Steady(p, Drain(p, dmaDone, h).pool)
  {
    InShape(p);
    if p.filling.Some? {
      FillingBank(p);
      hide Sound;
      var q := if dmaDone then p else p.(events := p.events.(done := false), inFlight := false);
      FreeFillingSteady(Skip(q, h.missed));
    }
  }

  lemma ArmSteady(p: Pool, i: nat, h: ArmReport)
    requires Sound(p) && i < p.geometry.bankCount && p.banks[i].state == Free && p.filling.None?
    requires p.triggered.None? && p.totals.discarded == 0
    ensures Shaped(p) && p.n.free > 0 && Steady(p, Arm(p, i, h).pool)
  {
    hide Sound, Drain;
    InShape(p);
    ToFillingSound(p, i);
    var q := Skip(p, h.missed);
    SkipSound(p, h.missed);
    SkipParts(p, h.missed);
    var dirty := Fill(q, i, h.written);
    FillSound(q, i, h.written);
    FillParts(q, i, h.written);
    ToFillingSound(dirty, i);
    var b := p.banks[i].(state := Filling, generation := Wrap32(p.banks[i].generation + 1));
    SteadyIdle(p, i, b, ToFilling(dirty, i));
    DrainSteady(ToFilling(dirty, i), false, h.drain);
    SteadyThen(p, ToFilling(dirty, i), Drain(ToFilling(dirty, i), false, h.drain).pool);
    var clean := Fill(q, i, Poison(p.geometry.bankBytes));
    FillParts(q, i, Poison(p.geometry.bankBytes));
    hide Steady;
    SteadyIdle(p, i, b, ToFilling(clean, i).(mode := ToFilling(clean, i).mode.(starved := false)));
    SteadyIdle(p, i, p.banks[i], clean);
    SteadyIdle(p, i, p.banks[i], q);
  }

  lemma FinalizeSteady(p: Pool, h: FinalReport)
    requires Sound(p) && p.filling.Some?
    ensures Shaped(p) && Steady(p, Finalize(p, h).pool)
  {
    InShape(p);
    FillingBank(p);
    hide Sound, Acceptable, MakeGrant, Offset, FrameOffset;
    var i := p.filling.value;
    var q := Skip(p, h.missed);
    var g := if h.wait != Ok then NoGrant else MakeGrant(p, h.report, 0, 0);
    SkipParts(p, h.missed);
    SameMade(p, q, h.report);
    SteadyIdle(p, i, p.banks[i].(grant := g, state := Free), FreeFilling(SetGrant(q, g)));
    SteadyIdle(p, i, ToReady(q, h.report).banks[i], ToReady(q, h.report));
  }

  lemma FaultSteady(p: Pool, error: Error)
    ensures Steady(p, Fault(p, error))
  {
  }

  lemma ThreadFinalizeSteady(p: Pool, done: bool, h: FinalReport)
    requires Sound(p)
    ensures Shaped(p) && Steady(p, ThreadFinalize(p, done, h))
  {
    hide Sound, Finalize, Fault;
    InShape(p);
    if done && p.filling.Some? {
      FinalizeSteady(p, h);
      var o := Finalize(p, h);
      FaultSteady(o.pool, o.error);
      SteadyThen(p, o.pool, Fault(o.pool, o.error));
    }
  }

  lemma ThreadArmSteady(p: Pool, h: ArmReport)
    requires Sound(p)
    ensures FreeKnown(p) && Shaped(p) && Steady(p, ThreadArm(p, h))
  {
    SoundParts(p);
    FreeIsKnown(p);
    hide Sound, Arm, Fault, Count, Queued, Intact, Tallied, Offset, FrameOffset;
    if p.mode.running && !p.mode.faulted && p.filling.None? {
      var i := FindFree(p.banks, 0, p.geometry.bankCount);
      if i < p.geometry.bankCount {
        ArmSteady(p, i, h);
        var o := Arm(p, i, h);
        FaultSteady(o.pool, o.error);
        SteadyThen(p, o.pool, Fault(o.pool, o.error));
      }
    }
  }

  /** READY banks may be discarded, but no step here touches a bank handed out, or any held bank's bytes. */
  ghost predicate Respects(p: Pool, q: Pool)
    requires Shaped(p) && Shaped(q)
  {
    && q.ids.runId == p.ids.runId && q.geometry == p.geometry && q.totals.dequeued == p.totals.dequeued
    && (forall i | 0 <= i < p.geometry.bankCount ::
          && (p.banks[i].state == UserOwned ==> q.banks[i] == p.banks[i])
          && (q.banks[i].state == UserOwned ==> p.banks[i].state == UserOwned)
          && (Held(p.banks[i]) ==> BankBytes(q, i) == BankBytes(p, i)))
  }

  lemma SteadyRespects(p: Pool, q: Pool)
    requires Sound(p) && Sound(q) && Steady(p, q)
    ensures Shaped(p) && Shaped(q) && Respects(p, q)
  {
    InShape(p);
    InShape(q);
    hide Offset, FrameOffset, Granted, InRange, Count, Sequenced, AllReady;
  }

  lemma DiscardRespects(p: Pool, q: Pool, r: Pool)
    requires Shaped(p) && Shaped(q) && Respects(p, q) && r.banks == Discarded(q.banks, q.geometry.bankCount)
    requires r.geometry == q.geometry && r.memory == q.memory && r.ids == q.ids && r.filling == q.filling
    requires r.totals.dequeued == q.totals.dequeued && r.device == q.device && r.triggered == q.triggered
    ensures Shaped(r) && Respects(p, r)
  {
    hide Offset, FrameOffset;
    assert forall i | 0 <= i < p.geometry.bankCount :: BankBytes(r, i) == BankBytes(q, i);
  }

  lemma ThreadStopRespects(p: Pool, done: bool, h: ThreadReport)
    requires Sound(p) && (done ==> !p.inFlight) && p.events == NO_EVENTS
    ensures Shaped(p) && Shaped(ThreadStop(p, done, h)) && Respects(p, ThreadStop(p, done, h))
  {
    hide Sound, Drain, Fault, Skip, Shaped, Respects, Steady;
    InShape(p);
    var q := Running(p, false);
    StoppedSound(p);
    InShape(q);
    SameSteady(p, q);
    DrainSound(q, done, h.drain);
    DrainSteady(q, done, h.drain);
    SkipSound(q, h.missed);
    SkipParts(q, h.missed);
    SameSteady(q, Skip(q, h.missed));
    SameSteady(q, q);
    var o := if q.filling.Some? then Drain(q, done, h.drain)
             else if q.mode.configured then Outcome(Skip(q, h.missed), h.reset)
             else Outcome(q, Ok);
    SteadyThen(p, q, o.pool);
    InShape(o.pool);
    var r := ThreadStop(p, done, h);
    ThreadStopSound(p, done, h);
    InShape(r);
    if o.error == Ok {
      SteadyRespects(p, o.pool);
      DiscardRespects(p, o.pool, r);
    } else {
      FaultParts(o.pool, o.error);
      FaultSteady(o.pool, o.error);
      SteadyThen(p, o.pool, Fault(o.pool, o.error));
      SameSteady(Fault(o.pool, o.error), r);
      SteadyThen(p, Fault(o.pool, o.error), r);
      SteadyRespects(p, r);
    }
  }

  lemma SameSteady(p: Pool, q: Pool)
    requires q.banks == p.banks && q.ids.runId == p.ids.runId && q.geometry == p.geometry
    requires q.totals.dequeued == p.totals.dequeued
    ensures Steady(p, q)
  {
  }

  lemma ThreadRespects(p: Pool, h: ThreadReport)
    requires Good(p)
    ensures Shaped(p) && Shaped(ThreadStep(p, h)) && Respects(p, ThreadStep(p, h))
  {
    var q := p.(events := NO_EVENTS);
    var r := ThreadStep(p, h);
    ThreadGood(p, h);
    GoodIsSound(r);
    hide Sound, ThreadStop, ThreadFinalize, ThreadArm, Respects, Steady, Shaped, FreeKnown, Good, Awake;
    GoodIsSound(p);
    InShape(p);
    InShape(r);
    ExchangeSound(p);
    InShape(q);
    SameSteady(p, q);
    if p.events.stop {
      ThreadStopRespects(q, p.events.done, h);
      EventsRespect(p, q, r);
    } else {
      var f := ThreadFinalize(q, p.events.done, h.final);
      ThreadFinalizeSound(q, p.events.done, h.final);
      ThreadFinalizeSteady(q, p.events.done, h.final);
      ThreadArmSteady(f, h.arm);
      SteadyThen(p, q, f);
      SteadyThen(p, f, r);
      SteadyRespects(p, r);
    }
  }

  lemma EventsRespect(p: Pool, q: Pool, r: Pool)
    requires Shaped(p) && Shaped(q) && Shaped(r) && q == p.(events := q.events) && Respects(q, r)
    ensures Respects(p, r)
  {
    hide Offset, FrameOffset;
    assert forall i | 0 <= i < p.geometry.bankCount :: BankBytes(q, i) == BankBytes(p, i);
  }

  // ----- no overwrite -----

  function Slice(p: Pool, memory: seq<Byte>, i: nat): seq<Byte>
    requires Shaped(p) && i < p.geometry.bankCount && |memory| == p.device.bufferBytes
  {
    memory[Offset(p.geometry, i)..Offset(p.geometry, i) + p.geometry.bankBytes]
  }

  ghost predicate BytesKept(p: Pool, memory: seq<Byte>)
    requires Shaped(p)
  {
    && |memory| == p.device.bufferBytes
    && forall i | 0 <= i < p.geometry.bankCount && Held(p.banks[i]) :: Slice(p, memory, i) == Slice(p, p.memory, i)
  }

  lemma SameMemoryKept(p: Pool, q: Pool)
    requires Shaped(p) && q.memory == p.memory
    ensures BytesKept(p, q.memory)
  {
    hide Offset, FrameOffset;
  }

  lemma NothingToKeep(p: Pool, q: Pool)
    requires Counted(p) && p.n.ready == 0 && p.n.user == 0 && |q.memory| == |p.memory|
    ensures BytesKept(p, q.memory)
  {
    NoneHeld(p);
    hide Offset, FrameOffset;
  }

  lemma RespectsKept(p: Pool, q: Pool)
    requires Shaped(p) && Shaped(q) && Respects(p, q) && q.device == p.device
    ensures BytesKept(p, q.memory)
  {
    hide Offset, FrameOffset;
    forall i | 0 <= i < p.geometry.bankCount && Held(p.banks[i])
      ensures Slice(p, q.memory, i) == Slice(p, p.memory, i)
    {
      assert BankBytes(q, i) == BankBytes(p, i);
    }
  }

  lemma TransferKept(p: Pool, frame: nat, at: nat, bytes: seq<Byte>)
    requires Good(p)
    ensures Shaped(p) && BytesKept(p, DmaWrite(p, frame, at, bytes).memory)
  {
    GoodIsSound(p);
    InShape(p);
    DmaWriteGood(p, frame, at, bytes);
    var q := DmaWrite(p, frame, at, bytes);
    GoodIsSound(q);
    InShape(q);
    assert q == p.(memory := q.memory);
    hide Offset, FrameOffset, Granted, InRange, Count, Sequenced, AllReady, DmaWrite;
    forall i | 0 <= i < p.geometry.bankCount && Held(p.banks[i])
      ensures Slice(p, q.memory, i) == Slice(p, p.memory, i)
    {
      assert BankBytes(p, i) == p.banks[i].captured && BankBytes(q, i) == q.banks[i].captured;
    }
  }

  lemma ArmDevice(p: Pool, i: nat, h: ArmReport)
    requires Shaped(p) && i < p.geometry.bankCount && p.n.free > 0
    ensures Arm(p, i, h).pool.device == p.device
  {
    hide Shaped, Overwrite, Offset, FrameOffset;
  }

  lemma DrainDevice(p: Pool, dmaDone: bool, h: DrainReport)
    requires p.filling.Some? ==> p.filling.value < |p.banks|
    ensures Drain(p, dmaDone, h).pool.device == p.device
  {
  }

  lemma ThreadStopDevice(p: Pool, done: bool, h: ThreadReport)
    requires Shaped(p)
    ensures ThreadStop(p, done, h).device == p.device
  {
    DrainDevice(Running(p, false), done, h.drain);
    hide Shaped, Offset, FrameOffset, Drain, Discarded;
  }

  lemma ThreadFinalizeDevice(p: Pool, done: bool, h: FinalReport)
    requires Shaped(p)
    ensures ThreadFinalize(p, done, h).device == p.device
  {
    hide Offset, FrameOffset, Acceptable, MakeGrant;
  }

  lemma ThreadArmDevice(p: Pool, h: ArmReport)
    requires Shaped(p) && FreeKnown(p)
    ensures ThreadArm(p, h).device == p.device
  {
    hide Offset, FrameOffset, Arm, Fault;
    var i := FindFree(p.banks, 0, p.geometry.bankCount);
    if i < p.geometry.bankCount {
      ArmDevice(p, i, h);
      FaultParts(Arm(p, i, h).pool, Arm(p, i, h).error);
    }
  }

  /** Start and thread iterations keep the device and its buffer. */
  lemma SameDevice(p: Pool, s: Step)
    requires Good(p)
    ensures Sound(p) && Next(p, s).device == p.device && |Next(p, s).memory| == |p.memory|
  {
    GoodIsSound(p);
    InShape(p);
    NextGood(p, s);
    GoodIsSound(Next(p, s));
    InShape(Next(p, s));
    hide Good, Sound, Shaped, CheckStart, Arm, FreeKnown, ThreadStop, ThreadFinalize, ThreadArm, Configured, OwnsBuffer,
         Overwrite, DmaWrite, FindReady, Accepts, CheckCapture, Count, RequestGeometry;
    match s
    case StartStep(request, reset, arm) => StartDevice(p, request, reset, arm);
    case Iterate(report) =>
      var q := p.(events := NO_EVENTS);
      ExchangeSound(p);
      InShape(q);
      if p.events.stop {
        ThreadStopDevice(q, p.events.done, report);
      } else {
        ThreadFinalizeSound(q, p.events.done, report.final);
        ThreadFinalizeDevice(q, p.events.done, report.final);
        var f := ThreadFinalize(q, p.events.done, report.final);
        InShape(f);
        ThreadArmSound(f, report.arm);
        ThreadArmDevice(f, report.arm);
      }
    case Transfer(frame, at, bytes) => hide *;  TransferDevice(p, frame, at, bytes);
    case _ =>
  }

  lemma TransferDevice(p: Pool, frame: nat, at: nat, bytes: seq<Byte>)
    requires Sound(p)
    ensures DmaWrite(p, frame, at, bytes).device == p.device
  {
    hide Sound, Overwrite;
  }

  lemma StartDevice(p: Pool, r: StartRequest, reset: Error, arm: ArmReport)
    requires Sound(p)
    ensures Start(p, r, reset, arm).pool.device == p.device
  {
    var q := Configured(p, RequestGeometry(r));
    hide Sound, Arm, Fault, CheckStart, RequestGeometry, OwnsBuffer, Count;
    if CheckStart(p.device, r) == Ok && p.triggered.None? && !OwnsBuffer(p) && reset == Ok {
      NotOwned(p);
      ConfiguredSound(p, r);
      InShape(q);
      SoundParts(q);
      FreeIsKnown(q);
      ArmDevice(q, 0, arm);
      FaultParts(Arm(q, 0, arm).pool, Arm(q, 0, arm).error);
    }
  }

  lemma NotOwned(p: Pool)
    requires !OwnsBuffer(p)
    ensures p.filling.None? && p.n.ready == 0 && p.n.user == 0 && !p.mode.running
  {
  }

  lemma CaptureKept(p: Pool, s: Step, r: CaptureRequest)
    requires Good(p)
    requires s.CaptureStep? || s.ArmTriggeredStep?
    requires s.capture == r
    ensures Sound(p) && Shaped(p) && BytesKept(p, Next(p, s).memory)
  {
    GoodIsSound(p);
    InShape(p);
    SoundParts(p);
    hide Good, Sound, Shaped, Counted, Queued, Intact, Tallied, BytesKept, Overwrite, Validate, CaptureBytes;
    if CheckCapture(p, r) == Ok {
      SameDevice(p, s);
      NothingToKeep(p, Next(p, s));
    } else {
      SameMemoryKept(p, p);
    }
  }

  /** From the moment a bank is READY until it is released, no step writes into its bytes: not the next arm,
      not the DMA, not a single-shot or triggered capture. */
  lemma NoOverwrite(p: Pool, s: Step)
    requires Good(p)
    ensures Sound(p) && Shaped(p) && BytesKept(p, Next(p, s).memory)
  {
    hide Good, Sound, Shaped, Counted, Queued, Intact, Tallied, BytesKept, CheckStart, Arm, Fault, Configured,
         Overwrite,
         ThreadStep, DmaWrite, FindReady, Accepts, CheckCapture;
    GoodIsSound(p);
    InShape(p);
    SoundParts(p);
    NextGood(p, s);
    var q := Next(p, s);
    GoodIsSound(q);
    InShape(q);
    SameMemoryKept(p, p);
    match s
    case StartStep(request, reset, arm) =>
      if !OwnsBuffer(p) {
        SameDevice(p, s);
        NothingToKeep(p, q);
      }
    case Iterate(report) => ThreadRespects(p, report); SameDevice(p, s); RespectsKept(p, q);
    case Completion => SameMemoryKept(p, q);
    case Transfer(frame, at, bytes) => TransferKept(p, frame, at, bytes);
    case DequeueStep => SameMemoryKept(p, q);
    case ReleaseStep(token) => SameMemoryKept(p, q);
    case StopStep(runId) => SameMemoryKept(p, q);
    case CaptureStep(capture, reset, bytes) => CaptureKept(p, s, capture);
    case ArmTriggeredStep(capture, reset, kept, bytes) => CaptureKept(p, s, capture);
    case TriggeredTransfer(at, bytes) =>
      if p.triggered.Some? {
        SameDevice(p, s);
        NothingToKeep(p, q);
      }
    case TriggeredEnd => SameMemoryKept(p, q);
  }
}
