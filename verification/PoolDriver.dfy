/** qcrate_dma.c: the driver's fields and the locked sections that update them in place, proved to take the
    steps of BankPool. What the hardware reports is passed in. */
module PoolDriver {
  import opened Crc32
  import opened Protocol
  import opened BankPool
  import opened PoolInvariant
  import opened PoolRun
  import PoolTraces

  const BANK_NONE: nat := 0xffff_ffff

  lemma OverwriteTwice(memory: seq<Byte>, at: nat, a: seq<Byte>, b: seq<Byte>)
    requires at + |a| <= |memory|
    ensures |a| == |b| ==> Overwrite(Overwrite(memory, at, a), at, b) == Overwrite(memory, at, b)
  {
    if |a| == |b| {
      assert Overwrite(memory, at, a)[..at] == memory[..at];
      assert Overwrite(memory, at, a)[at + |b|..] == memory[at + |b|..];
    }
  }

  lemma {:induction false} CountGrows(banks: seq<Bank>, state: BankState, m: nat, n: nat)
    requires m <= n <= |banks|
    ensures Count(banks, state, m) <= Count(banks, state, n)
  {
    if m < n {
      CountGrows(banks, state, m, n - 1);
    }
  }

  lemma DiscardedNext(banks: seq<Bank>, n: nat)
    requires n < |banks|
    ensures Discarded(banks, n)[n] == banks[n]
    ensures Discarded(banks, n + 1) == Discarded(banks, n)[n := Discard(banks[n])]
  {
  }

  lemma DiscardedNone(banks: seq<Bank>)
    ensures Discarded(banks, 0) == banks
  {
  }

  lemma BankZero(p: Pool)
    requires Counted(p) && p.geometry.bankCount > 0 && p.banks[0].state == Free
    ensures p.n.free > 0
  {
    CountSome(p.banks, 0, p.geometry.bankCount);
  }

  /** The pool's part of `struct qcrate_dma_dev`. */
  class DmaDevice {
    const device: Device
    const memory: array<Byte>
    const banks: array<Bank>
    var geometry: Geometry
    var mode: Mode
    var dmaActive: bool
    var filling: nat
    var inFlight: bool
    var triggeredActive: bool
    var triggeredBytes: nat
    var n: Counts
    var ids: Ids
    var events: Events
    var totals: Totals

    function Value(): Pool
      reads this, memory, banks
    {
      Pool(device, geometry, memory[..], banks[..], if dmaActive then Some(filling) else None, inFlight,
           if triggeredActive then Some(triggeredBytes) else None, mode, n, ids, events, totals)
    }

    /** The two marks of an active DMA agree. */
    ghost predicate Linked()
      reads this
    {
      (dmaActive <==> filling != BANK_NONE) && Apart()
    }

    /** The buffer and the bank table are different memory. */
    ghost predicate Apart() {
      (memory as object) != (banks as object)
    }

    ghost predicate Valid()
      reads this, memory, banks
    {
      Linked() && Good(Value())
    }

    constructor (device: Device)
      ensures Valid() && fresh(memory) && fresh(banks)
      ensures Value() == NewPool(device, memory[..])
    {
      this.device := device;
      memory := new Byte[device.bufferBytes](_ => 0);
      banks := new Bank[MAX_POOL_BANKS](_ => FRESH_BANK);
      geometry := Geometry(0, 0, 0, 0, 0, 0);
      mode := Mode(false, false, false, false, false, Ok);
      dmaActive, filling, inFlight, triggeredActive, triggeredBytes := false, BANK_NONE, false, false, 0;
      n, ids, events, totals := Counts(0, 0, 0), Ids(0, 1, 0), NO_EVENTS, NO_TOTALS;
      new;
      assert banks[..] == seq(MAX_POOL_BANKS, i => FRESH_BANK);
      PoolTraces.NewGood(device, memory[..]);
    }

    method AccountMissed(missed: nat)
      modifies this`totals
      ensures Value() == Skip(old(Value()), missed)
    {
      totals := totals.(skipped := totals.skipped + missed);
    }

    /** `qcrate_pool_fault_locked`. */
    method Fault(error: Error)
      modifies this`mode, this`totals
      ensures Value() == BankPool.Fault(old(Value()), error)
    {
      mode := mode.(running := false, faulted := true, starved := false);
      totals := totals.(lastError := error, errors := totals.errors + 1);
    }

    /** `qcrate_pool_find_free_locked`. */
    method FindFree() returns (bank: nat)
      requires geometry.bankCount <= banks.Length
      ensures bank == BankPool.FindFree(banks[..], 0, geometry.bankCount)
    {
      bank := 0;
      while bank < geometry.bankCount
        invariant bank <= geometry.bankCount
        invariant BankPool.FindFree(banks[..], 0, geometry.bankCount)
               == BankPool.FindFree(banks[..], bank, geometry.bankCount)
      {
        if banks[bank].state == Free {
          return;
        }
        bank := bank + 1;
      }
    }

    /** `qcrate_pool_find_ready_locked`; the bank count stands for none. */
    method FindReady() returns (selected: nat)
      requires geometry.bankCount <= banks.Length
      ensures selected == BankPool.FindReady(banks[..], geometry.bankCount)
    {
      ghost var n := geometry.bankCount;
      selected := geometry.bankCount;
      for bank := 0 to geometry.bankCount
        invariant BankPool.FindReady(banks[..], bank) == if selected == n then bank else selected
        invariant selected < bank || selected == n
      {
        if banks[bank].state == Ready
           && (selected == geometry.bankCount || banks[bank].sequence < banks[selected].sequence) {
          selected := bank;
        }
      }
    }

    /** A bank of the filling DMA back in the pool. */
    method FreeFilling()
      requires Linked() && dmaActive && filling < banks.Length
      modifies this`n, this`filling, this`dmaActive, banks
      ensures Linked() && Value() == BankPool.FreeFilling(old(Value()))
    {
      ghost var i := filling;
      banks[filling] := banks[filling].(state := Free);
      n := n.(free := n.free + 1);
      filling := BANK_NONE;
      dmaActive := false;
      assert banks[..] == old(banks[..])[i := banks[i]];
    }

    /** `qcrate_pool_drain_locked`. */
    method Drain(dmaDone: bool, h: DrainReport) returns (error: Error)
      requires Linked() && (dmaActive ==> filling < banks.Length)
      modifies this, banks
      ensures Linked() && Outcome(Value(), error) == BankPool.Drain(old(Value()), dmaDone, h)
    {
      hide BankPool.FreeFilling;
      if !dmaActive {
        return Ok;
      }
      if !dmaDone {
        if !(events.done || (inFlight && h.arrives)) {
          return TimedOut;
        }
        events := events.(done := false);
        inFlight := false;
      }
      if h.wait != Ok {
        return h.wait;
      }
      if !h.transferred {
        return Io;
      }
      AccountMissed(h.missed);
      if h.reset != Ok {
        return h.reset;
      }
      FreeFilling();
      return Ok;
    }

    /** Bytes arriving in the buffer: the poison, or what the DMA wrote. */
    method Store(at: nat, bytes: seq<Byte>)
      requires at + |bytes| <= memory.Length
      requires Apart()
      modifies memory
      ensures memory[..] == Overwrite(old(memory[..]), at, bytes)
    {
      forall k | 0 <= k < |bytes| {
        memory[at + k] := bytes[k];
      }
    }

    /** `qcrate_pool_arm_bank_locked`. */
    method Arm(index: nat, h: ArmReport) returns (error: Error)
      requires Linked() && Shaped(Value()) && index < geometry.bankCount && n.free > 0
      modifies this, banks, memory
      ensures Linked() && Outcome(Value(), error) == BankPool.Arm(old(Value()), index, h)
    {
      hide BankPool.Drain, Overwrite, Offset, FrameOffset;
      if banks[index].state != Free || dmaActive {
        return Invalid;
      }
      AccountMissed(h.missed);
      if h.reset != Ok {
        return h.reset;
      }
      Store(Offset(geometry, index), Poison(geometry.bankBytes));
      assert Value() == Fill(Skip(old(Value()), h.missed), index, Poison(geometry.bankBytes));
      if h.submit != Ok {
        return h.submit;
      }
      MarkFilling(index);
      if h.armed == Ok {
        mode := mode.(starved := false);
        return Ok;
      }
      // Meanwhile the hardware may have written into the bank.
      OverwriteTwice(old(memory[..]), Offset(geometry, index), Poison(geometry.bankBytes), h.written);
      if |h.written| == geometry.bankBytes {
        Store(Offset(geometry, index), h.written);
      }
      var _ := Drain(false, h.drain);
      return h.armed;
    }

    method MarkFilling(index: nat)
      requires Apart() && index < banks.Length && n.free > 0 && index < BANK_NONE
      modifies this`n, this`filling, this`dmaActive, this`inFlight, banks
      ensures Linked() && Value() == ToFilling(old(Value()), index)
    {
      banks[index] := banks[index].(state := Filling, generation := Wrap32(banks[index].generation + 1));
      n := n.(free := n.free - 1);
      filling := index;
      dmaActive, inFlight := true, true;
      assert banks[..] == old(banks[..])[index := banks[index]];
    }

    method NoteGrant(grant: Grant)
      requires Linked() && dmaActive && filling < banks.Length
      modifies banks
      ensures Value() == SetGrant(old(Value()), grant)
    {
      banks[filling] := banks[filling].(grant := grant);
      assert banks[..] == old(banks[..])[filling := banks[filling]];
    }

    method MarkReady(report: Report)
      requires Linked() && dmaActive && Shaped(Value())
      modifies this`n, this`filling, this`dmaActive, this`ids, this`totals, banks
      ensures Linked() && Value() == ToReady(old(Value()), report)
    {
      hide Offset, FrameOffset;
      var i := filling;
      var grant := Grant(i, banks[i].generation, Offset(geometry, i), geometry.bankBytes, geometry, report,
                         ids.runId, ids.nextSequence);
      ghost var captured := BankBytes(Value(), i);
      filling := BANK_NONE;
      dmaActive := false;
      banks[i] := banks[i].(state := Ready, sequence := ids.nextSequence, grant := grant,
                            captured := memory[Offset(geometry, i)..Offset(geometry, i) + geometry.bankBytes]);
      ids := ids.(nextSequence := ids.nextSequence + 1);
      n := n.(ready := n.ready + 1);
      totals := totals.(produced := totals.produced + 1,
                        producedBytes := totals.producedBytes + geometry.bankBytes,
                        lastShot := report.triggerShotId,
                        highWater := if totals.highWater < n.ready then n.ready else totals.highWater);
      assert banks[..] == old(banks[..])[i := banks[i]];
    }

    /** `qcrate_pool_finalize_locked`. */
    method Finalize(h: FinalReport) returns (error: Error)
      requires Linked() && Shaped(Value())
      modifies this`n, this`filling, this`dmaActive, this`ids, this`totals, banks
      ensures Linked() && Outcome(Value(), error) == BankPool.Finalize(old(Value()), h)
    {
      hide Offset, FrameOffset, Acceptable, SetGrant, BankPool.FreeFilling, ToReady;
      if !dmaActive {
        return Invalid;
      }
      AccountMissed(h.missed);
      if h.wait != Ok {
        NoteGrant(NoGrant);
        SetGrantParts(old(Value()).(totals := totals), NoGrant);
        FreeFilling();
        return h.wait;
      }
      if !Acceptable(geometry, h.report) || h.reset != Ok {
        var grant := MakeGrant(Value(), h.report, 0, 0);
        NoteGrant(grant);
        SetGrantParts(old(Value()).(totals := totals), grant);
        FreeFilling();
        return if Acceptable(geometry, h.report) then h.reset else Io;
      }
      MarkReady(h.report);
      return Ok;
    }

    /** `qcrate_pool_discard_ready_locked`. */
    method DiscardReady()
      requires Linked() && Counted(Value())
      modifies this`n, this`totals, banks
      ensures Linked() && Value() == BankPool.DiscardReady(old(Value()))
    {
      totals := totals.(lastDiscarded := 0);
      ghost var p := old(Value());
      DiscardedNone(p.banks);
      for bank := 0 to geometry.bankCount
        invariant memory[..] == p.memory && banks[..] == Discarded(p.banks, bank)
        invariant totals.lastDiscarded == Count(p.banks, Ready, bank) <= p.n.ready
        invariant n == Counts(p.n.ready - totals.lastDiscarded, p.n.user, p.n.free + totals.lastDiscarded)
        invariant totals == p.totals.(lastDiscarded := totals.lastDiscarded,
                                      discarded := p.totals.discarded + totals.lastDiscarded)
      {
        hide Offset, FrameOffset, Shaped, Discarded, Counted;
        CountGrows(p.banks, Ready, bank + 1, geometry.bankCount);
        DiscardedNext(p.banks, bank);
        DiscardOne(bank);
      }
    }

    method DiscardOne(bank: nat)
      requires Apart() && bank < banks.Length && (banks[bank].state == Ready ==> n.ready > 0)
      modifies this`n, this`totals, banks
      ensures banks[..] == old(banks[..])[bank := Discard(old(banks[bank]))] && memory[..] == old(memory[..])
      ensures var d := if old(banks[bank]).state == Ready then 1 else 0;
        && n == Counts(old(n).ready - d, old(n).user, old(n).free + d)
        && totals == old(totals).(lastDiscarded := old(totals).lastDiscarded + d,
                                  discarded := old(totals).discarded + d)
    {
      if banks[bank].state == Ready {
        banks[bank] := banks[bank].(state := Free);
        n := n.(ready := n.ready - 1, free := n.free + 1);
        totals := totals.(lastDiscarded := totals.lastDiscarded + 1, discarded := totals.discarded + 1);
      }
      assert banks[..] == old(banks[..])[bank := banks[bank]];
    }

    /** The STOP branch of `qcrate_pool_thread_fn`. */
    method ThreadStop(dmaDone: bool, h: ThreadReport)
      requires Linked() && Sound(Value()) && (dmaDone ==> !inFlight) && events == NO_EVENTS
      modifies this, banks
      ensures Linked() && Shaped(old(Value())) && Value() == BankPool.ThreadStop(old(Value()), dmaDone, h)
    {
      hide Sound, Shaped, BankPool.Drain, BankPool.Fault, BankPool.DiscardReady, Counted;
      InShape(Value());
      mode := mode.(running := false);
      StoppedSound(old(Value()));
      InShape(Value());
      var error := Ok;
      DrainSound(Value(), dmaDone, h.drain);
      SkipSound(Value(), h.missed);
      if dmaActive {
        error := Drain(dmaDone, h.drain);
      } else if mode.configured {
        AccountMissed(h.missed);
        error := h.reset;
      }
      if error == Ok {
        SoundParts(Value());
        DiscardReady();
      } else {
        Fault(error);
      }
      mode := mode.(stopResult := error, stopping := false, starved := false);
    }

    method ThreadFinalize(dmaDone: bool, h: FinalReport)
      requires Linked() && Shaped(Value())
      modifies this`mode, this`n, this`filling, this`dmaActive, this`ids, this`totals, banks
      ensures Linked() && Value() == BankPool.ThreadFinalize(old(Value()), dmaDone, h)
    {
      hide Shaped, BankPool.Finalize, BankPool.Fault;
      if dmaDone && dmaActive {
        var error := Finalize(h);
        if error != Ok {
          Fault(error);
        }
      }
    }

    method ThreadArm(h: ArmReport)
      requires Linked() && Shaped(Value()) && FreeKnown(Value())
      modifies this, banks, memory
      ensures Linked() && Value() == BankPool.ThreadArm(old(Value()), h)
    {
      hide Offset, FrameOffset, BankPool.Arm, BankPool.Fault;
      if mode.running && !mode.faulted && !dmaActive {
        var bank := FindFree();
        if bank == geometry.bankCount {
          if !mode.starved {
            mode := mode.(starved := true);
            totals := totals.(starvation := totals.starvation + 1);
          }
        } else {
          var error := Arm(bank, h);
          if error != Ok {
            Fault(error);
          }
        }
      }
    }

    /** One iteration of `qcrate_pool_thread_fn`. */
    method ThreadIteration(h: ThreadReport)
      requires Valid()
      modifies this, banks, memory
      ensures Valid() && Value() == ThreadStep(old(Value()), h)
    {
      hide Sound, Shaped, BankPool.ThreadStop, BankPool.ThreadFinalize, BankPool.ThreadArm, FreeKnown, Awake;
      ghost var p := Value();
      ThreadGood(p, h);
      ExchangeSound(p);
      var taken := events;
      events := NO_EVENTS;
      InShape(Value());
      if taken.stop {
        ThreadStop(taken.done, h);
      } else {
        ThreadFinalizeSound(Value(), taken.done, h.final);
        ThreadFinalize(taken.done, h.final);
        InShape(Value());
        ThreadArmSound(Value(), h.arm);
        ThreadArm(h.arm);
      }
    }

    /** What `qcrate_pool_start` sets before it arms bank 0. */
    method Configure(g: Geometry)
      requires Apart()
      modifies this, banks
      ensures Linked() && Value() == Configured(old(Value()), g)
    {
      geometry := g;
      mode := Mode(true, true, false, false, false, mode.stopResult);
      dmaActive, filling := false, BANK_NONE;
      n := Counts(0, 0, g.bankCount);
      ids := Ids(ids.nextRunId, ids.nextRunId + 1, 1);
      totals := NO_TOTALS;
      forall i | 0 <= i < banks.Length {
        banks[i] := CleanBank(banks[i]);
      }
      assert banks[..] == Configured(old(Value()), g).banks;
    }

    /** `qcrate_pool_start`. */
    method Start(r: StartRequest, reset: Error, arm: ArmReport) returns (error: Error)
      requires Valid()
      modifies this, banks, memory
      ensures Valid() && Outcome(Value(), error) == PoolRun.Start(old(Value()), r, reset, arm)
    {
      hide Good, Sound, Shaped, CheckStart, RequestGeometry, Configured, BankPool.Arm, BankPool.Fault, FreeKnown,
           Counted;
      ghost var p := Value();
      StartGood(p, r, reset, arm);
      GoodIsSound(p);
      error := CheckStart(device, r);
      if error != Ok {
        return;
      }
      if triggeredActive || mode.running || mode.stopping || dmaActive || n.ready > 0 || n.user > 0 {
        return Busy;
      }
      if reset != Ok {
        return reset;
      }
      ConfiguredSound(p, r);
      Configure(RequestGeometry(r));
      InShape(Value());
      SoundParts(Value());
      FreeIsKnown(Value());
      BankZero(Value());
      error := Arm(0, arm);
      if error != Ok {
        Fault(error);
      }
    }

    /** The locked part of `qcrate_pool_dequeue`. */
    method Dequeue() returns (d: Dequeued)
      requires Valid()
      modifies this`n, this`totals, banks
      ensures Valid() && (Value(), d) == PoolRun.Dequeue(old(Value()))
    {
      hide Sound, Shaped, Awake;
      ghost var p := Value();
      DequeueGood(p);
      InShape(p);
      var index := FindReady();
      if index == geometry.bankCount {
        return Refused(if mode.faulted then Io else if mode.running then Again else Shutdown);
      }
      ToUserSound(p, index);
      d := Got(banks[index].grant);
      banks[index] := banks[index].(state := UserOwned);
      n := n.(ready := n.ready - 1, user := n.user + 1);
      totals := totals.(dequeued := totals.dequeued + 1);
      assert banks[..] == p.banks[index := banks[index]];
    }

    /** The locked part of `qcrate_pool_release_bank`. */
    method Release(t: Token) returns (error: Error)
      requires Valid()
      modifies this`n, this`totals, this`events, banks
      ensures Valid() && Outcome(Value(), error) == PoolRun.Release(old(Value()), t)
    {
      hide Sound, Shaped, Awake;
      ghost var p := Value();
      ReleaseGood(p, t);
      InShape(p);
      if t.bank >= geometry.bankCount || t.runId != ids.runId {
        return Stale;
      }
      var bank := banks[t.bank];
      if bank.state != UserOwned || t.generation != bank.generation || t.sequence != bank.sequence {
        return Stale;
      }
      ToFreeSound(p, t.bank);
      banks[t.bank] := bank.(state := Free);
      n := n.(user := n.user - 1, free := n.free + 1);
      totals := totals.(consumed := totals.consumed + 1);
      events := events.(kick := true);
      assert banks[..] == p.banks[t.bank := banks[t.bank]];
      return Ok;
    }

    /** The locked part of `qcrate_pool_stop`. */
    method Stop(runId: nat) returns (error: Error)
      requires Valid()
      modifies this`mode, this`events
      ensures Valid() && Outcome(Value(), error) == PoolRun.Stop(old(Value()), runId)
    {
      hide Sound, Shaped, Awake;
      StopGood(Value(), runId);
      if !mode.configured || (runId != 0 && runId != ids.runId) {
        return Stale;
      }
      if mode.stopping {
        return Busy;
      }
      mode := mode.(running := false, stopping := true, stopResult := Ok);
      events := events.(stop := true);
      return Ok;
    }

    /** `qcrate_dma_complete` for the pool's transfer. */
    method DmaComplete()
      requires Valid()
      modifies this`inFlight, this`events
      ensures Valid() && Value() == Complete(old(Value()))
    {
      hide Sound, Shaped, Awake;
      CompleteGood(Value());
      if inFlight {
        inFlight := false;
        events := events.(done := true);
      }
    }
  }
}
