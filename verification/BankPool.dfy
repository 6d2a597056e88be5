/** The capture driver's bank pool (qcrate_dma.c) as values: what each locked section, thread iteration and
    hardware event does to the device. What the hardware reports is a parameter of the step. */
module BankPool {
  import opened Crc32
  import opened Protocol

  const MAX_CHAIN_FRAMES := 255
  const MAX_POOL_BANKS := 64
  const WORD_BYTES := 4
  const POISON: Byte := 0xa5

  datatype Error =
    Ok | Invalid | TooBig | Unsupported | MessageSize | Busy | TimedOut | Io | Stale | Again | Shutdown
    | Device(code: nat)

  datatype BankState = Free | Filling | Ready | UserOwned

  /** The registers read when a bank completes. */
  datatype Report = Report(
    transferred: bool, residue: nat, statusDone: bool, statusError: bool, completedFrames: U32, currentFrame: U32,
    currentSample: U32, stallCycles: U32, triggerShotId: U32, triggerCount: U32, missedTriggers: U32,
    triggerSeen: bool, firstTimeValid: bool, triggerTime: U64, firstSampleTime: U64, configId: U64)

  datatype Geometry = Geometry(
    frameWords: nat, frameCount: nat, mode: nat, bankCount: nat, frameBytes: nat, bankBytes: nat)

  /** `struct qcrate_dma_pool_dequeue`: what userspace is told about a bank it gets. */
  datatype Grant = NoGrant | Grant(
    bank: nat, generation: U32, offset: nat, bytes: nat, geometry: Geometry, report: Report,
    runId: nat, sequence: nat)

  /** The part of a grant that userspace hands back. */
  datatype Token = Token(bank: nat, generation: U32, runId: nat, sequence: nat)

  /** `captured` is history, not driver state: the bank's bytes when it became READY. */
  datatype Bank = Bank(state: BankState, generation: U32, sequence: nat, grant: Grant, captured: seq<Byte>)

  datatype Device = Device(hasSg: bool, maxTransfer: nat, bufferBytes: nat)

  /** Run-local counters. `discarded` is history, not driver state: the READY banks thrown away in this run. */
  datatype Totals = Totals(
    produced: nat, dequeued: nat, consumed: nat, starvation: nat, skipped: nat, errors: nat, producedBytes: nat,
    highWater: nat, lastDiscarded: nat, discarded: nat, lastShot: U32, lastError: Error)

  const NO_TOTALS := Totals(0, 0, 0, 0, 0, 0, 0, 0, 0, 0, 0, Ok)

  datatype Mode = Mode(configured: bool, running: bool, stopping: bool, faulted: bool, starved: bool, stopResult: Error)

  datatype Counts = Counts(ready: nat, user: nat, free: nat)

  datatype Ids = Ids(runId: nat, nextRunId: nat, nextSequence: nat)

  /** The event bits the thread exchanges for zero. */
  datatype Events = Events(kick: bool, done: bool, stop: bool)

  const NO_EVENTS := Events(false, false, false)

  /** The device. `filling` is the bank of the active DMA, `triggered` the size of an armed single capture.
      `inFlight` is the hardware's: descriptors issued and not yet completed. */
  datatype Pool = Pool(
    device: Device, geometry: Geometry, memory: seq<Byte>, banks: seq<Bank>, filling: Option<nat>, inFlight: bool,
    triggered: Option<nat>, mode: Mode, n: Counts, ids: Ids, events: Events, totals: Totals)

  const FRESH_BANK := Bank(Free, 0, 0, NoGrant, [])

  /** The device after probe. */
  function NewPool(device: Device, memory: seq<Byte>): Pool {
    Pool(device, Geometry(0, 0, 0, 0, 0, 0), memory, seq(MAX_POOL_BANKS, i => FRESH_BANK), None, false, None,
         Mode(false, false, false, false, false, Ok), Counts(0, 0, 0), Ids(0, 1, 0), NO_EVENTS, NO_TOTALS)
  }

  datatype Outcome = Outcome(pool: Pool, error: Error)

  // ----- buffer ranges -----

  function Offset(g: Geometry, i: nat): nat { i * g.bankBytes }

  function FrameOffset(g: Geometry, f: nat): nat { f * g.frameBytes }

  function Overwrite(memory: seq<Byte>, at: nat, bytes: seq<Byte>): (r: seq<Byte>)
    requires at + |bytes| <= |memory|
    ensures |r| == |memory|
  {
    memory[..at] + bytes + memory[at + |bytes|..]
  }

  function Poison(n: nat): (r: seq<Byte>)
    ensures |r| == n
  {
    seq(n, i => POISON)
  }

  /** `qcrate_validate_capture`. */
  function Validate(d: Device, frameWords: U32, frameCount: U32, mode: U32): Error {
    if frameWords == 0 || frameCount == 0 then Invalid
    else if mode > 1 then Invalid
    else if frameCount > MAX_CHAIN_FRAMES then TooBig
    else if frameCount > 1 && !d.hasSg then Unsupported
    else if frameWords * WORD_BYTES > d.maxTransfer then MessageSize
    else if frameWords * WORD_BYTES * frameCount > d.bufferBytes then MessageSize
    else Ok
  }

  /** `qcrate_pool_owns_buffer_locked`. */
  predicate OwnsBuffer(p: Pool) {
    p.mode.running || p.mode.stopping || p.filling.Some? || p.n.ready > 0 || p.n.user > 0
  }

  // ----- bank moves -----

  /** The banks fit the buffer, the frames of a bank fit the bank, and the filling bank is one of the pool's. */
  predicate Shaped(p: Pool) {
    && |p.banks| == MAX_POOL_BANKS && p.geometry.bankCount <= MAX_POOL_BANKS
    && |p.memory| == p.device.bufferBytes
    && (forall i | 0 <= i < p.geometry.bankCount ::
          Offset(p.geometry, i) + p.geometry.bankBytes <= p.device.bufferBytes)
    && (forall f | 0 <= f < p.geometry.frameCount ::
          FrameOffset(p.geometry, f) + p.geometry.frameBytes <= p.geometry.bankBytes)
    && (p.filling.Some? ==> p.filling.value < p.geometry.bankCount)
    && (p.triggered.Some? ==> p.triggered.value <= p.device.bufferBytes)
  }

  function BankBytes(p: Pool, i: nat): (r: seq<Byte>)
    requires Shaped(p) && i < p.geometry.bankCount
    ensures |r| == p.geometry.bankBytes
  {
    p.memory[Offset(p.geometry, i)..Offset(p.geometry, i) + p.geometry.bankBytes]
  }

  function Skip(p: Pool, missed: nat): Pool {
    p.(totals := p.totals.(skipped := p.totals.skipped + missed))
  }

  /** `qcrate_pool_fault_locked`. */
  function Fault(p: Pool, error: Error): Pool {
    p.(mode := p.mode.(running := false, faulted := true, starved := false),
       totals := p.totals.(lastError := error, errors := p.totals.errors + 1))
  }

  function SetBank(p: Pool, i: nat, b: Bank): Pool
    requires i < |p.banks|
  {
    p.(banks := p.banks[i := b])
  }

  function ToFilling(p: Pool, i: nat): Pool
    requires i < |p.banks| && p.n.free > 0
  {
    var b := p.banks[i];
    SetBank(p, i, b.(state := Filling, generation := Wrap32(b.generation + 1)))
      .(n := p.n.(free := p.n.free - 1), filling := Some(i), inFlight := true)
  }

  function FreeFilling(p: Pool): Pool
    requires p.filling.Some? && p.filling.value < |p.banks|
  {
    var i := p.filling.value;
    SetBank(p, i, p.banks[i].(state := Free)).(n := p.n.(free := p.n.free + 1), filling := None)
  }

  function MakeGrant(p: Pool, report: Report, runId: nat, sequence: nat): (g: Grant)
    requires p.filling.Some? && p.filling.value < |p.banks|
    ensures g.Grant?
  {
    var i := p.filling.value;
    Grant(i, p.banks[i].generation, Offset(p.geometry, i), p.geometry.bankBytes, p.geometry, report, runId, sequence)
  }

  function ToReady(p: Pool, report: Report): Pool
    requires Shaped(p) && p.filling.Some?
  {
    var i := p.filling.value;
    var t := p.totals;
    var ready := p.n.ready + 1;
    var grant := MakeGrant(p, report, p.ids.runId, p.ids.nextSequence);
    var b := p.banks[i].(state := Ready, sequence := p.ids.nextSequence, grant := grant, captured := BankBytes(p, i));
    SetBank(p, i, b)
      .(filling := None, n := p.n.(ready := ready), ids := p.ids.(nextSequence := p.ids.nextSequence + 1),
        totals := t.(produced := t.produced + 1, producedBytes := t.producedBytes + p.geometry.bankBytes,
                     lastShot := report.triggerShotId, highWater := if t.highWater < ready then ready else t.highWater))
  }

  function ToUser(p: Pool, i: nat): Pool
    requires i < |p.banks| && p.n.ready > 0
  {
    SetBank(p, i, p.banks[i].(state := UserOwned))
      .(n := p.n.(ready := p.n.ready - 1, user := p.n.user + 1),
        totals := p.totals.(dequeued := p.totals.dequeued + 1))
  }

  function ToFree(p: Pool, i: nat): Pool
    requires i < |p.banks| && p.n.user > 0
  {
    SetBank(p, i, p.banks[i].(state := Free))
      .(n := p.n.(user := p.n.user - 1, free := p.n.free + 1),
        totals := p.totals.(consumed := p.totals.consumed + 1), events := p.events.(kick := true))
  }

  // ----- draining and arming -----

  /** What the hardware does while a transfer is drained. */
  datatype DrainReport = DrainReport(arrives: bool, wait: Error, transferred: bool, missed: nat, reset: Error)

  /** `qcrate_pool_drain_locked`. A completion can only arrive for a transfer in flight. */
  function Drain(p: Pool, dmaDone: bool, h: DrainReport): Outcome
    requires p.filling.Some? ==> p.filling.value < |p.banks|
  {
    if p.filling.None? then Outcome(p, Ok)
    else if !dmaDone && !(p.events.done || (p.inFlight && h.arrives)) then Outcome(p, TimedOut)
    else
      var q := if dmaDone then p else p.(events := p.events.(done := false), inFlight := false);
      if h.wait != Ok then Outcome(q, h.wait)
      else if !h.transferred then Outcome(q, Io)
      else if h.reset != Ok then Outcome(Skip(q, h.missed), h.reset)
      else Outcome(FreeFilling(Skip(q, h.missed)), Ok)
  }

  /** What the hardware does while a bank is armed; `written` is what it put there should arming time out. */
  datatype ArmReport = ArmReport(
    missed: nat, reset: Error, submit: Error, armed: Error, written: seq<Byte>, drain: DrainReport)

  /** Bank `i` filled with `bytes`, or poisoned when there are not a bank's worth of them. */
  function Fill(p: Pool, i: nat, bytes: seq<Byte>): Pool
    requires Shaped(p) && i < p.geometry.bankCount
  {
    var n := p.geometry.bankBytes;
    p.(memory := Overwrite(p.memory, Offset(p.geometry, i), if |bytes| == n then bytes else Poison(n)))
  }

  /** `qcrate_pool_arm_bank_locked`. */
  function Arm(p: Pool, i: nat, h: ArmReport): Outcome
    requires Shaped(p) && i < p.geometry.bankCount && p.n.free > 0
  {
    if p.banks[i].state != Free || p.filling.Some? then Outcome(p, Invalid)
    else
      var q := Skip(p, h.missed);
      if h.reset != Ok then Outcome(q, h.reset)
      else
        var clean := Fill(q, i, Poison(p.geometry.bankBytes));
        if h.submit != Ok then Outcome(clean, h.submit)
        else if h.armed == Ok then
          var armed := ToFilling(clean, i);
          Outcome(armed.(mode := armed.mode.(starved := false)), Ok)
        else Outcome(Drain(ToFilling(Fill(q, i, h.written), i), false, h.drain).pool, h.armed)
  }

  // ----- finalizing -----

  datatype FinalReport = FinalReport(wait: Error, report: Report, missed: nat, reset: Error)

  /** The checks on a completed bank. */
  predicate Acceptable(g: Geometry, r: Report) {
    && r.transferred && r.residue == 0 && r.statusDone && !r.statusError
    && r.completedFrames == g.frameCount && r.currentFrame == g.frameCount - 1 && r.currentSample == g.frameWords - 1
    && r.triggerCount == 1 && r.triggerSeen && r.firstTimeValid && r.firstSampleTime >= r.triggerTime
  }

  function SetGrant(p: Pool, g: Grant): Pool
    requires p.filling.Some? && p.filling.value < |p.banks|
  {
    SetBank(p, p.filling.value, p.banks[p.filling.value].(grant := g))
  }

  /** `qcrate_pool_finalize_locked`. */
  function Finalize(p: Pool, h: FinalReport): Outcome
    requires Shaped(p)
  {
    if p.filling.None? then Outcome(p, Invalid)
    else
      var q := Skip(p, h.missed);
      if h.wait != Ok then Outcome(FreeFilling(SetGrant(q, NoGrant)), h.wait)
      else
        var noted := SetGrant(q, MakeGrant(p, h.report, 0, 0));
        if !Acceptable(p.geometry, h.report) then Outcome(FreeFilling(noted), Io)
        else if h.reset != Ok then Outcome(FreeFilling(noted), h.reset)
        else Outcome(ToReady(q, h.report), Ok)
  }

  // ----- the thread -----

  function Discard(b: Bank): Bank {
    if b.state == Ready then b.(state := Free) else b
  }

  /** The first `n` banks with the READY ones free again. */
  function Discarded(banks: seq<Bank>, n: nat): (r: seq<Bank>)
    requires n <= |banks|
    ensures |r| == |banks|
  {
    seq(|banks|, i requires 0 <= i < |banks| => if i < n then Discard(banks[i]) else banks[i])
  }

  /** `qcrate_pool_discard_ready_locked`. */
  function DiscardReady(p: Pool): Pool
    requires p.geometry.bankCount <= |p.banks|
  {
    p.(banks := Discarded(p.banks, p.geometry.bankCount),
       n := p.n.(ready := 0, free := p.n.free + p.n.ready),
       totals := p.totals.(discarded := p.totals.discarded + p.n.ready, lastDiscarded := p.n.ready))
  }

  /** `qcrate_pool_find_free_locked`: the first FREE bank, or the bank count. */
  function FindFree(banks: seq<Bank>, from: nat, n: nat): (i: nat)
    requires from <= n <= |banks|
    ensures from <= i <= n && (i < n ==> banks[i].state == Free)
    ensures forall j | from <= j < i :: banks[j].state != Free
    decreases n - from
  {
    if from == n || banks[from].state == Free then from else FindFree(banks, from + 1, n)
  }

  datatype ThreadReport = ThreadReport(
    drain: DrainReport, missed: nat, reset: Error, final: FinalReport, arm: ArmReport)

  function Running(p: Pool, running: bool): Pool {
    p.(mode := p.mode.(running := running))
  }

  /** The STOP branch of a thread iteration; `done` is whether the exchanged events held DMA_DONE. */
  function ThreadStop(p: Pool, done: bool, h: ThreadReport): Pool
    requires Shaped(p)
  {
    var q := Running(p, false);
    var o := if q.filling.Some? then Drain(q, done, h.drain)
             else if q.mode.configured then Outcome(Skip(q, h.missed), h.reset)
             else Outcome(q, Ok);
    var r := if o.error == Ok then DiscardReady(o.pool) else Fault(o.pool, o.error);
    r.(mode := r.mode.(stopResult := o.error, stopping := false, starved := false))
  }

  /** Every FREE bank is counted. */
  predicate FreeKnown(p: Pool) {
    forall i | 0 <= i < |p.banks| && i < p.geometry.bankCount :: p.banks[i].state == Free ==> p.n.free > 0
  }

  /** Arm the next FREE bank, or note that there is none. */
  function ThreadArm(p: Pool, h: ArmReport): Pool
    requires Shaped(p) && FreeKnown(p)
  {
    if !p.mode.running || p.mode.faulted || p.filling.Some? then p
    else
      var i := FindFree(p.banks, 0, p.geometry.bankCount);
      if i == p.geometry.bankCount then
        if p.mode.starved then p
        else p.(mode := p.mode.(starved := true), totals := p.totals.(starvation := p.totals.starvation + 1))
      else
        var o := Arm(p, i, h);
        if o.error == Ok then o.pool else Fault(o.pool, o.error)
  }

  function ThreadFinalize(p: Pool, done: bool, h: FinalReport): Pool
    requires Shaped(p)
  {
    if !done || p.filling.None? then p
    else
      var o := Finalize(p, h);
      if o.error == Ok then o.pool else Fault(o.pool, o.error)
  }

  // ----- requests from userspace -----

  datatype StartRequest = StartRequest(
    triggered: bool, bankCount: U32, armTimeoutOk: bool, frameWords: U32, frameCount: U32, mode: U32)

  function RequestGeometry(r: StartRequest): Geometry {
    var frameBytes := r.frameWords * WORD_BYTES;
    Geometry(r.frameWords, r.frameCount, r.mode, r.bankCount, frameBytes, frameBytes * r.frameCount)
  }

  /** The checks of `qcrate_pool_start` before it takes the lock. */
  function CheckStart(d: Device, r: StartRequest): Error {
    if !r.triggered then Invalid
    else if !d.hasSg then Unsupported
    else if r.bankCount < 2 || r.bankCount > MAX_POOL_BANKS then Invalid
    else if !r.armTimeoutOk then Invalid
    else if Validate(d, r.frameWords, r.frameCount, r.mode) != Ok then Validate(d, r.frameWords, r.frameCount, r.mode)
    else if RequestGeometry(r).bankBytes * r.bankCount > d.bufferBytes then MessageSize
    else Ok
  }

  function CleanBank(b: Bank): Bank {
    Bank(Free, b.generation, 0, NoGrant, [])
  }

  /** The pool as `qcrate_pool_start` sets it up. */
  function Configured(p: Pool, g: Geometry): Pool {
    p.(geometry := g, banks := seq(|p.banks|, i requires 0 <= i < |p.banks| => CleanBank(p.banks[i])), filling := None,
       mode := Mode(true, true, false, false, false, p.mode.stopResult), n := Counts(0, 0, g.bankCount),
       ids := Ids(p.ids.nextRunId, p.ids.nextRunId + 1, 1), totals := NO_TOTALS)
  }

  /** `qcrate_pool_find_ready_locked`: the READY bank of least sequence, or the bank count. */
  function FindReady(banks: seq<Bank>, n: nat): (i: nat)
    requires n <= |banks|
    ensures i <= n && (i < n ==> banks[i].state == Ready)
    ensures i == n ==> forall j | 0 <= j < n :: banks[j].state != Ready
    ensures i < n ==> forall j | 0 <= j < n :: banks[j].state == Ready ==> banks[i].sequence <= banks[j].sequence
  {
    if n == 0 then 0
    else
      var i := FindReady(banks, n - 1);
      if banks[n - 1].state == Ready && (i == n - 1 || banks[n - 1].sequence < banks[i].sequence) then n - 1
      else if i == n - 1 then n else i
  }

  /** Whether RELEASE takes a token. */
  predicate Accepts(p: Pool, t: Token)
    requires p.geometry.bankCount <= |p.banks|
  {
    && t.bank < p.geometry.bankCount && t.runId == p.ids.runId
    && p.banks[t.bank].state == UserOwned
    && p.banks[t.bank].generation == t.generation && p.banks[t.bank].sequence == t.sequence
  }
}
