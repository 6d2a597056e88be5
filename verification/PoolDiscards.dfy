/** The driver's own count of discarded banks. It is that of the last stop, so the balance of a run can be read
    off the driver's counters exactly until a later stop overwrites a count that was not zero. */
module PoolDiscards {
  import opened Crc32
  import opened Protocol
  import opened BankPool
  import opened PoolInvariant
  import opened PoolRun
  import opened PoolTraces
  import opened PoolExample

  /** What the hardware must answer for a STOP to be carried out: the transfer under way drains, or without one the
      stream resets. `done` is whether the completion was already noted. */
  predicate CarriedOut(p: Pool, done: bool, h: ThreadReport) {
    if p.filling.Some? then
      && (done || (p.inFlight && h.drain.arrives))
      && h.drain.wait == Ok && h.drain.transferred && h.drain.reset == Ok
    else p.mode.configured ==> h.reset == Ok
  }

  /** A STOP that the thread carries out. */
  predicate Stops(p: Pool, s: Step) {
    s.Iterate? && p.events.stop && CarriedOut(p, p.events.done, s.report)
  }

  /** A START that takes effect, whether or not its first bank is armed. */
  predicate Starts(p: Pool, s: Step) {
    && s.StartStep? && CheckStart(p.device, s.request) == Ok && p.triggered.None? && !OwnsBuffer(p) && s.reset == Ok
  }

  /** Neither count of discarded banks differs. */
  predicate SameDiscards(p: Pool, q: Pool) {
    q.totals.discarded == p.totals.discarded && q.totals.lastDiscarded == p.totals.lastDiscarded
  }

  // ----- what each step does to the two counts -----

  lemma DrainDiscards(p: Pool, dmaDone: bool, h: DrainReport)
    requires Shaped(p)
    ensures var o := Drain(p, dmaDone, h); SameDiscards(p, o.pool) && o.pool.n.ready == p.n.ready
  {
  }

  lemma ArmDiscards(p: Pool, i: nat, h: ArmReport)
    requires Shaped(p) && i < p.geometry.bankCount && p.n.free > 0
    ensures SameDiscards(p, Arm(p, i, h).pool)
  {
    hide Drain, Fill, Offset, FrameOffset;
    var q := Skip(p, h.missed);
    FillParts(q, i, Poison(p.geometry.bankBytes));
    FillParts(q, i, h.written);
    FillShaped(q, i, h.written);
    DrainDiscards(ToFilling(Fill(q, i, h.written), i), false, h.drain);
  }

  lemma FillShaped(p: Pool, i: nat, bytes: seq<Byte>)
    requires Shaped(p) && i < p.geometry.bankCount && p.n.free > 0
    ensures Shaped(ToFilling(Fill(p, i, bytes), i))
  {
    hide Offset, FrameOffset;
  }

  lemma FinalizeDiscards(p: Pool, h: FinalReport)
    requires Shaped(p)
    ensures SameDiscards(p, Finalize(p, h).pool)
  {
    hide Offset, FrameOffset, Acceptable;
  }

  /** A STOP that is carried out counts what it throws away, and that only. */
  lemma StopDiscards(p: Pool, done: bool, h: ThreadReport)
    requires Shaped(p) && !p.events.done
    ensures ThreadStop(p, done, h).mode.stopResult == Ok <==> CarriedOut(p, done, h)
    ensures var q := ThreadStop(p, done, h);
      if CarriedOut(p, done, h) then
        q.totals.discarded == p.totals.discarded + p.n.ready && q.totals.lastDiscarded == p.n.ready
      else SameDiscards(p, q)
  {
    hide Drain, Discarded, Offset, FrameOffset;
    DrainDiscards(Running(p, false), done, h.drain);
    if p.filling.Some? {
      DrainAnswers(Running(p, false), done, h.drain);
    }
  }

  lemma DrainAnswers(p: Pool, done: bool, h: DrainReport)
    requires Shaped(p) && !p.events.done && p.filling.Some?
    ensures Drain(p, done, h).error == Ok
       <==> (done || (p.inFlight && h.arrives)) && h.wait == Ok && h.transferred && h.reset == Ok
  {
  }

  lemma WorkDiscards(p: Pool, done: bool, final: FinalReport, arm: ArmReport)
    requires Sound(p) && (done ==> !p.inFlight) && !p.events.done
    ensures Shaped(p) && Sound(ThreadFinalize(p, done, final))
    ensures Shaped(ThreadFinalize(p, done, final)) && FreeKnown(ThreadFinalize(p, done, final))
    ensures SameDiscards(p, ThreadArm(ThreadFinalize(p, done, final), arm))
  {
    hide Sound, Arm, Finalize, Shaped, FreeKnown;
    InShape(p);
    ThreadFinalizeSound(p, done, final);
    var q := ThreadFinalize(p, done, final);
    ThreadArmSound(q, arm);
    InShape(q);
    FinalizeDiscards(p, final);
    if q.mode.running && !q.mode.faulted && q.filling.None? {
      var i := FindFree(q.banks, 0, q.geometry.bankCount);
      if i < q.geometry.bankCount {
        FreeHere(q, i);
        ArmDiscards(q, i, arm);
      }
    }
  }

  lemma FreeHere(p: Pool, i: nat)
    requires FreeKnown(p) && i < |p.banks| && i < p.geometry.bankCount && p.banks[i].state == Free
    ensures p.n.free > 0
  {
  }

  /** What one step does: START forgets both counts, a STOP that is carried out adds to one and overwrites the
      other, and nothing else touches them. */
  lemma StepDiscards(p: Pool, s: Step)
    requires Sound(p)
    ensures var q := Next(p, s);
      if Stops(p, s) then
        q.totals.discarded == p.totals.discarded + p.n.ready && q.totals.lastDiscarded == p.n.ready
      else if Starts(p, s) then q.totals.discarded == 0 && q.totals.lastDiscarded == 0
      else SameDiscards(p, q)
  {
    hide Sound, ThreadStop, ThreadFinalize, ThreadArm, Arm, FindReady, DmaMayWrite, CheckCapture, CheckStart,
         RequestGeometry, Offset, FrameOffset, Shaped;
    InShape(p);
    if s.Iterate? {
      var q := p.(events := NO_EVENTS);
      ExchangeSound(p);
      InShape(q);
      if p.events.stop {
        StopDiscards(q, p.events.done, s.report);
      } else {
        WorkDiscards(q, p.events.done, s.report.final, s.report.arm);
      }
    } else if Starts(p, s) {
      var q := Configured(p, RequestGeometry(s.request));
      ConfiguredSound(p, s.request);
      InShape(q);
      SoundParts(q);
      FreeIsKnown(q);
      ArmDiscards(q, 0, s.arm);
    }
  }

  /** The balance of a run with the driver's own counters. */
  predicate DriverBalances(p: Pool) {
    p.totals.produced == p.totals.dequeued + p.n.ready + p.totals.lastDiscarded
  }

  /** A STOP leaves the driver's count right exactly when the hardware does not let it be carried out, or no STOP
      before it threw banks away. */
  lemma StopKeepsCount(p: Pool, h: ThreadReport)
    requires Sound(p) && p.events.stop && p.totals.lastDiscarded == p.totals.discarded
    ensures var q := ThreadStep(p, h);
      q.totals.lastDiscarded == q.totals.discarded
      <==> !CarriedOut(p, p.events.done, h) || p.totals.discarded == 0
  {
    hide Sound, ThreadStep;
    StepDiscards(p, Iterate(h));
  }

  // ----- every run -----

  /** The pool before step `k`. */
  function At(p: Pool, steps: seq<Step>, k: nat): (q: Pool)
    requires Good(p) && k <= |steps|
    ensures Good(q) && Sound(q)
  {
    GoodIsSound(Run(p, steps[..k]));
    Run(p, steps[..k])
  }

  predicate StopsAt(p: Pool, steps: seq<Step>, k: nat)
    requires Good(p)
  {
    k < |steps| && Stops(At(p, steps, k), steps[k])
  }

  predicate ThrowsAt(p: Pool, steps: seq<Step>, k: nat)
    requires Good(p)
  {
    StopsAt(p, steps, k) && At(p, steps, k).n.ready > 0
  }

  /** No START takes effect from step `i` to before step `n`. */
  predicate SameStart(p: Pool, steps: seq<Step>, i: nat, n: nat)
    requires Good(p) && n <= |steps|
  {
    forall k | i <= k < n :: !Starts(At(p, steps, k), steps[k])
  }

  /** Since the last START some STOP threw READY banks away. */
  ghost predicate Thrown(p: Pool, steps: seq<Step>, n: nat)
    requires Good(p) && n <= |steps|
  {
    exists i | 0 <= i < n :: ThrowsAt(p, steps, i) && SameStart(p, steps, i + 1, n)
  }

  /** Since the last START some STOP threw READY banks away and a later one was carried out. */
  ghost predicate StoppedAgain(p: Pool, steps: seq<Step>, n: nat)
    requires Good(p) && n <= |steps|
  {
    exists i, j | 0 <= i < j < n :: ThrowsAt(p, steps, i) && StopsAt(p, steps, j) && SameStart(p, steps, i + 1, n)
  }

  lemma AtNext(p: Pool, steps: seq<Step>, k: nat)
    requires Good(p) && k < |steps|
    ensures At(p, steps, k + 1) == Next(At(p, steps, k), steps[k])
  {
    hide Good, Next;
    assert steps[..k + 1][..k] == steps[..k];
  }

  lemma SameStartNext(p: Pool, steps: seq<Step>, i: nat, n: nat)
    requires Good(p) && n < |steps| && i <= n
    ensures SameStart(p, steps, i, n + 1) <==> SameStart(p, steps, i, n) && !Starts(At(p, steps, n), steps[n])
  {
    hide Good, At, Starts;
  }

  lemma ThrownNext(p: Pool, steps: seq<Step>, n: nat)
    requires Good(p) && n < |steps|
    ensures Thrown(p, steps, n + 1) <==>
            ThrowsAt(p, steps, n) || (Thrown(p, steps, n) && !Starts(At(p, steps, n), steps[n]))
  {
    hide Good, At, ThrowsAt, Starts, SameStart;
    if Thrown(p, steps, n + 1) {
      var i :| 0 <= i < n + 1 && ThrowsAt(p, steps, i) && SameStart(p, steps, i + 1, n + 1);
      if i < n {
        SameStartNext(p, steps, i + 1, n);
      }
    }
    if Thrown(p, steps, n) && !Starts(At(p, steps, n), steps[n]) {
      var i :| 0 <= i < n && ThrowsAt(p, steps, i) && SameStart(p, steps, i + 1, n);
      SameStartNext(p, steps, i + 1, n);
    }
    assert SameStart(p, steps, n + 1, n + 1) by { NoneBetween(p, steps, n + 1); }
  }

  lemma NoneBetween(p: Pool, steps: seq<Step>, n: nat)
    requires Good(p) && n <= |steps|
    ensures SameStart(p, steps, n, n)
  {
    hide Good, At, Starts;
  }

  lemma StoppedAgainNext(p: Pool, steps: seq<Step>, n: nat)
    requires Good(p) && n < |steps|
    ensures StoppedAgain(p, steps, n + 1) <==>
            && !Starts(At(p, steps, n), steps[n])
            && (StoppedAgain(p, steps, n) || (StopsAt(p, steps, n) && Thrown(p, steps, n)))
    ensures StoppedAgain(p, steps, n) ==> Thrown(p, steps, n)
  {
    hide Good, At, ThrowsAt, StopsAt, Starts, SameStart, StoppedAgain, Thrown;
    if StoppedAgain(p, steps, n + 1) {
      StoppedBefore(p, steps, n);
    }
    if StoppedAgain(p, steps, n) {
      ThrownFirst(p, steps, n);
    }
    if !Starts(At(p, steps, n), steps[n])
       && (StoppedAgain(p, steps, n) || (StopsAt(p, steps, n) && Thrown(p, steps, n))) {
      StoppedAfter(p, steps, n);
    }
  }

  lemma ThrownFirst(p: Pool, steps: seq<Step>, n: nat)
    requires Good(p) && n <= |steps| && StoppedAgain(p, steps, n)
    ensures Thrown(p, steps, n)
  {
    hide Good, ThrowsAt, StopsAt, SameStart;
  }

  lemma StoppedBefore(p: Pool, steps: seq<Step>, n: nat)
    requires Good(p) && n < |steps| && StoppedAgain(p, steps, n + 1)
    ensures !Starts(At(p, steps, n), steps[n])
    ensures StoppedAgain(p, steps, n) || (StopsAt(p, steps, n) && Thrown(p, steps, n))
  {
    hide Good, At, ThrowsAt, StopsAt, Starts, SameStart;
    var i, j :| 0 <= i < j < n + 1 && ThrowsAt(p, steps, i) && StopsAt(p, steps, j)
                && SameStart(p, steps, i + 1, n + 1);
    SameStartNext(p, steps, i + 1, n);
  }

  lemma StoppedAfter(p: Pool, steps: seq<Step>, n: nat)
    requires Good(p) && n < |steps| && !Starts(At(p, steps, n), steps[n])
    requires StoppedAgain(p, steps, n) || (StopsAt(p, steps, n) && Thrown(p, steps, n))
    ensures StoppedAgain(p, steps, n + 1)
  {
    hide Good, At, ThrowsAt, StopsAt, Starts, SameStart;
    if StoppedAgain(p, steps, n) {
      var i, j :| 0 <= i < j < n && ThrowsAt(p, steps, i) && StopsAt(p, steps, j) && SameStart(p, steps, i + 1, n);
      SameStartNext(p, steps, i + 1, n);
    } else {
      var i :| 0 <= i < n && ThrowsAt(p, steps, i) && SameStart(p, steps, i + 1, n);
      SameStartNext(p, steps, i + 1, n);
    }
  }

  /** The two counts in every state of a run. */
  lemma {:induction false} CountsAt(p: Pool, steps: seq<Step>, n: nat)
    requires Good(p) && p.totals.discarded == p.totals.lastDiscarded == 0 && n <= |steps|
    ensures var t := At(p, steps, n).totals;
      && (t.discarded > 0 <==> Thrown(p, steps, n))
      && (t.lastDiscarded == t.discarded <==> !StoppedAgain(p, steps, n))
  {
    hide Good, Sound, Next, Thrown, StoppedAgain, Stops, Starts, At;
    if n == 0 {
      NothingYet(p, steps);
    } else {
      CountsAt(p, steps, n - 1);
      AtNext(p, steps, n - 1);
      StepDiscards(At(p, steps, n - 1), steps[n - 1]);
      ThrownNext(p, steps, n - 1);
      StoppedAgainNext(p, steps, n - 1);
      StopIsNoStart(At(p, steps, n - 1), steps[n - 1]);
    }
  }

  lemma NothingYet(p: Pool, steps: seq<Step>)
    requires Good(p)
    ensures At(p, steps, 0) == p && !Thrown(p, steps, 0) && !StoppedAgain(p, steps, 0)
  {
    hide Good;
  }

  lemma StopIsNoStart(p: Pool, s: Step)
    requires Sound(p)
    ensures Stops(p, s) ==> !Starts(p, s)
  {
    hide Sound, ThreadStep;
  }

  /** In every reachable state the driver's own counters balance exactly unless, since the last START, a STOP
      threw READY banks away and another was carried out after it. */
  lemma DriverBalance(device: Device, memory: seq<Byte>, steps: seq<Step>)
    requires |memory| == device.bufferBytes
    ensures Good(NewPool(device, memory))
    ensures DriverBalances(Run(NewPool(device, memory), steps))
       <==> !StoppedAgain(NewPool(device, memory), steps, |steps|)
  {
    hide Good, Run, StoppedAgain, Thrown;
    EveryStateBalanced(device, memory, steps);
    assert steps[..|steps|] == steps;
    CountsAt(NewPool(device, memory), steps, |steps|);
  }

  // ----- a concrete run whose second STOP breaks the balance -----

  /** START, one bank completed and the next armed, STOP carried out, and STOP carried out again. */
  function TwoStops(): seq<Step> {
    [StartStep(REQUEST, Ok, ARMED), Completion, Iterate(WORKS), StopStep(0), Iterate(WORKS), StopStep(0),
     Iterate(WORKS)]
  }

  lemma Asks(p: Pool, filling: Option<nat>, n: Counts, produced: nat, discarded: nat, last: nat)
    requires Sound(p) && Small(p, filling, n, NO_EVENTS, produced, discarded, last)
    ensures Small(Next(p, StopStep(0)), filling, n, Events(false, false, true), produced, discarded, last)
  {
    hide Sound;
  }

  lemma Halts(p: Pool, filling: Option<nat>, n: Counts, produced: nat, discarded: nat, last: nat)
    requires Sound(p) && Small(p, filling, n, Events(false, false, true), produced, discarded, last)
    ensures var q := Next(p, Iterate(WORKS));
      Small(q, None, Counts(0, n.user, q.n.free), NO_EVENTS, produced, discarded + n.ready, n.ready)
  {
    hide Sound, Discarded;
    InShape(p);
  }

  /** The driver reports one bank produced, none dequeued, none waiting and none discarded. */
  lemma SecondStopBreaks(memory: seq<Byte>)
    requires |memory| == SMALL.bufferBytes
    ensures Good(NewPool(SMALL, memory))
    ensures var p := Run(NewPool(SMALL, memory), TwoStops());
      && p.totals.produced == 1 && p.totals.dequeued == p.n.ready == p.totals.lastDiscarded == 0
      && !DriverBalances(p)
  {
    hide Good, Sound, Small, Next, FirstReady, FirstFills;
    NewGood(SMALL, memory);
    var p := NewPool(SMALL, memory);
    GoodIsSound(p);
    Begins(memory);
    var steps := TwoStops();
    assert At(p, steps, 0) == p by { NothingYet(p, steps); }
    Walk(p, steps);
    Ends(At(p, steps, 1));
    Finishes(At(p, steps, 2));
    HaltsTwice(p, steps);
    assert steps[..7] == steps;
    Unbalanced(At(p, steps, 7));
  }

  lemma HaltsTwice(p: Pool, steps: seq<Step>)
    requires Good(p) && steps == TwoStops() && FirstReady(At(p, steps, 3))
    ensures Small(At(p, steps, 7), None, Counts(0, 0, At(p, steps, 7).n.free), NO_EVENTS, 1, 1, 0)
  {
    hide Good, Sound, Small, Next, At;
    Walk(p, steps);
    assert Small(At(p, steps, 3), Some(1), Counts(1, 0, 0), NO_EVENTS, 1, 0, 0);
    Asks(At(p, steps, 3), Some(1), Counts(1, 0, 0), 1, 0, 0);
    Halts(At(p, steps, 4), Some(1), Counts(1, 0, 0), 1, 0, 0);
    var free := At(p, steps, 5).n.free;
    Asks(At(p, steps, 5), None, Counts(0, 0, free), 1, 1, 1);
    Halts(At(p, steps, 6), None, Counts(0, 0, free), 1, 1, 1);
  }

  lemma Walk(p: Pool, steps: seq<Step>)
    requires Good(p) && |steps| == 7
    ensures forall k | 0 <= k < 7 :: At(p, steps, k + 1) == Next(At(p, steps, k), steps[k])
  {
    hide Good, At, Next;
    forall k | 0 <= k < 7
      ensures At(p, steps, k + 1) == Next(At(p, steps, k), steps[k])
    {
      AtNext(p, steps, k);
    }
  }

  lemma Unbalanced(p: Pool)
    requires Small(p, None, Counts(0, 0, p.n.free), NO_EVENTS, 1, 1, 0)
    ensures p.totals.produced == 1 && p.totals.dequeued == p.n.ready == p.totals.lastDiscarded == 0
    ensures !DriverBalances(p)
  {
  }
}
