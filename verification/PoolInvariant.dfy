/** What holds of the bank pool in every reachable state, and what each move of a bank keeps of it. */
module PoolInvariant {
  import opened Crc32
  import opened Protocol
  import opened BankPool

  // ----- counting -----

  function Count(banks: seq<Bank>, state: BankState, n: nat): nat
    requires n <= |banks|
  {
    if n == 0 then 0 else Count(banks, state, n - 1) + if banks[n - 1].state == state then 1 else 0
  }

  function One(b: bool): nat { if b then 1 else 0 }

  lemma {:induction false} CountSet(banks: seq<Bank>, i: nat, b: Bank, state: BankState, n: nat)
    requires i < |banks| && n <= |banks|
    ensures Count(banks[i := b], state, n) + One(i < n && banks[i].state == state)
         == Count(banks, state, n) + One(i < n && b.state == state)
  {
    if n > 0 {
      CountSet(banks, i, b, state, n - 1);
    }
  }

  lemma {:induction false} CountSome(banks: seq<Bank>, i: nat, n: nat)
    requires i < n <= |banks|
    ensures Count(banks, banks[i].state, n) > 0
  {
    if i < n - 1 {
      CountSome(banks, i, n - 1);
    }
  }

  /** Every bank is in exactly one state. */
  lemma {:induction false} CountAll(banks: seq<Bank>, n: nat)
    requires n <= |banks|
    ensures Count(banks, Free, n) + Count(banks, Filling, n) + Count(banks, Ready, n) + Count(banks, UserOwned, n) == n
  {
    if n > 0 {
      CountAll(banks, n - 1);
    }
  }

  lemma {:induction false} CountDiscarded(banks: seq<Bank>, m: nat, n: nat)
    requires n <= m <= |banks|
    ensures var r := Discarded(banks, m);
      && Count(r, Ready, n) == 0 && Count(r, Free, n) == Count(banks, Free, n) + Count(banks, Ready, n)
      && Count(r, UserOwned, n) == Count(banks, UserOwned, n) && Count(r, Filling, n) == Count(banks, Filling, n)
  {
    if n > 0 {
      CountDiscarded(banks, m, n - 1);
    }
  }

  lemma {:induction false} CountFree(banks: seq<Bank>, n: nat)
    requires n <= |banks| && forall i | 0 <= i < n :: banks[i].state == Free
    ensures Count(banks, Free, n) == n
    ensures Count(banks, Filling, n) == Count(banks, Ready, n) == Count(banks, UserOwned, n) == 0
  {
    if n > 0 {
      CountFree(banks, n - 1);
    }
  }

  /** The counters agree with the states of the banks. */
  ghost predicate Counted(p: Pool) {
    && Shaped(p)
    && (var n := p.geometry.bankCount;
        && p.n.ready == Count(p.banks, Ready, n) && p.n.user == Count(p.banks, UserOwned, n)
        && p.n.free == Count(p.banks, Free, n) && One(p.filling.Some?) == Count(p.banks, Filling, n))
    && (p.filling.Some? ==> p.banks[p.filling.value].state == Filling)
  }

  // ----- sequences -----

  predicate Held(b: Bank) { b.state == Ready || b.state == UserOwned }

  /** What userspace is told about bank `i`. */
  ghost predicate Granted(b: Bank, i: nat, g: Geometry, runId: nat) {
    && b.grant.Grant?
    && b.grant == Grant(i, b.generation, Offset(g, i), g.bankBytes, g, b.grant.report, runId, b.sequence)
    && Acceptable(g, b.grant.report)
  }

  ghost predicate InRange(b: Bank, dequeued: nat, produced: nat) {
    && (b.state == Ready ==> dequeued < b.sequence <= produced)
    && (b.state == UserOwned ==> 0 < b.sequence <= dequeued)
  }

  ghost predicate Sequenced(banks: seq<Bank>, g: Geometry, runId: nat, dequeued: nat, produced: nat) {
    && g.bankCount <= |banks| && dequeued <= produced
    && (forall i | 0 <= i < g.bankCount && Held(banks[i]) ::
          Granted(banks[i], i, g, runId) && InRange(banks[i], dequeued, produced))
    && (forall i, j | 0 <= i < j < g.bankCount && Held(banks[i]) && Held(banks[j]) ::
          banks[i].sequence != banks[j].sequence)
  }

  ghost predicate HasReady(banks: seq<Bank>, n: nat, sequence: nat)
    requires n <= |banks|
  {
    exists i | 0 <= i < n :: banks[i].state == Ready && banks[i].sequence == sequence
  }

  /** Every bank produced and not yet dequeued is READY. */
  ghost predicate AllReady(banks: seq<Bank>, n: nat, dequeued: nat, produced: nat)
    requires n <= |banks|
  {
    forall q | dequeued < q <= produced :: HasReady(banks, n, q)
  }

  lemma SetIdle(banks: seq<Bank>, i: nat, b: Bank, g: Geometry, runId: nat, dequeued: nat, produced: nat)
    requires Sequenced(banks, g, runId, dequeued, produced)
    requires i < |banks| && banks[i].state != Ready && !Held(b)
    ensures Sequenced(banks[i := b], g, runId, dequeued, produced)
    ensures AllReady(banks, g.bankCount, dequeued, produced) ==>
              AllReady(banks[i := b], g.bankCount, dequeued, produced)
  {
    hide Granted, InRange;
    var r := banks[i := b];
    if AllReady(banks, g.bankCount, dequeued, produced) {
      forall q | dequeued < q <= produced
        ensures HasReady(r, g.bankCount, q)
      {
        assert HasReady(banks, g.bankCount, q);
        var j :| 0 <= j < g.bankCount && banks[j].state == Ready && banks[j].sequence == q;
        assert r[j] == banks[j];
      }
    }
  }

  lemma SetReady(banks: seq<Bank>, i: nat, b: Bank, g: Geometry, runId: nat, dequeued: nat, produced: nat)
    requires Sequenced(banks, g, runId, dequeued, produced)
    requires i < g.bankCount && !Held(banks[i]) && b.state == Ready && b.sequence == produced + 1
    requires Granted(b, i, g, runId)
    ensures Sequenced(banks[i := b], g, runId, dequeued, produced + 1)
    ensures AllReady(banks, g.bankCount, dequeued, produced) ==>
              AllReady(banks[i := b], g.bankCount, dequeued, produced + 1)
  {
    hide Granted;
    var r := banks[i := b];
    forall j | 0 <= j < g.bankCount && Held(r[j])
      ensures Granted(r[j], j, g, runId) && InRange(r[j], dequeued, produced + 1)
    {
    }
    if AllReady(banks, g.bankCount, dequeued, produced) {
      forall q | dequeued < q <= produced + 1
        ensures HasReady(r, g.bankCount, q)
      {
        if q == produced + 1 {
          assert r[i].sequence == q;
        } else {
          assert HasReady(banks, g.bankCount, q);
          var j :| 0 <= j < g.bankCount && banks[j].state == Ready && banks[j].sequence == q;
          assert r[j] == banks[j];
        }
      }
    }
  }

  lemma ReadyIsBehind(banks: seq<Bank>, i: nat, g: Geometry, runId: nat, dequeued: nat, produced: nat)
    requires Sequenced(banks, g, runId, dequeued, produced) && i < g.bankCount && banks[i].state == Ready
    ensures dequeued < banks[i].sequence <= produced
  {
    assert Held(banks[i]);
  }

  /** The oldest READY bank is the next one in sequence. */
  lemma OldestIsNext(banks: seq<Bank>, g: Geometry, runId: nat, dequeued: nat, produced: nat)
    requires Sequenced(banks, g, runId, dequeued, produced) && AllReady(banks, g.bankCount, dequeued, produced)
    ensures var i := FindReady(banks, g.bankCount);
      if i == g.bankCount then dequeued == produced
      else dequeued < produced && banks[i].sequence == dequeued + 1
  {
    hide Granted;
    var i := FindReady(banks, g.bankCount);
    if i < g.bankCount {
      ReadyIsBehind(banks, i, g, runId, dequeued, produced);
    }
    if dequeued < produced {
      assert HasReady(banks, g.bankCount, dequeued + 1);
      var j :| 0 <= j < g.bankCount && banks[j].state == Ready && banks[j].sequence == dequeued + 1;
    }
  }

  lemma SetUser(banks: seq<Bank>, i: nat, b: Bank, g: Geometry, runId: nat, dequeued: nat, produced: nat)
    requires Sequenced(banks, g, runId, dequeued, produced) && AllReady(banks, g.bankCount, dequeued, produced)
    requires i < g.bankCount && banks[i].state == Ready && banks[i].sequence == dequeued + 1
    requires b == banks[i].(state := UserOwned)
    ensures Sequenced(banks[i := b], g, runId, dequeued + 1, produced)
    ensures AllReady(banks[i := b], g.bankCount, dequeued + 1, produced)
  {
    hide AllReady;
    UserRange(banks, i, b, g, runId, dequeued, produced);
    UserLeaves(banks, i, b, g, dequeued, produced);
  }

  lemma UserRange(banks: seq<Bank>, i: nat, b: Bank, g: Geometry, runId: nat, dequeued: nat, produced: nat)
    requires Sequenced(banks, g, runId, dequeued, produced)
    requires i < g.bankCount && banks[i].state == Ready && banks[i].sequence == dequeued + 1
    requires b == banks[i].(state := UserOwned)
    ensures Sequenced(banks[i := b], g, runId, dequeued + 1, produced)
  {
    var r := banks[i := b];
    assert Held(banks[i]) && InRange(banks[i], dequeued, produced);
    forall j | 0 <= j < g.bankCount && Held(r[j])
      ensures Granted(r[j], j, g, runId) && InRange(r[j], dequeued + 1, produced)
    {
      assert Held(banks[j]);
    }
    forall j, k | 0 <= j < k < g.bankCount && Held(r[j]) && Held(r[k])
      ensures r[j].sequence != r[k].sequence
    {
      assert Held(banks[j]) && Held(banks[k]);
    }
  }

  lemma UserLeaves(banks: seq<Bank>, i: nat, b: Bank, g: Geometry, dequeued: nat, produced: nat)
    requires g.bankCount <= |banks| && AllReady(banks, g.bankCount, dequeued, produced)
    requires i < g.bankCount && banks[i].sequence == dequeued + 1
    ensures AllReady(banks[i := b], g.bankCount, dequeued + 1, produced)
  {
    var r := banks[i := b];
    forall q | dequeued + 1 < q <= produced
      ensures HasReady(r, g.bankCount, q)
    {
      assert HasReady(banks, g.bankCount, q);
      var j :| 0 <= j < g.bankCount && banks[j].state == Ready && banks[j].sequence == q;
      assert r[j] == banks[j];
    }
  }

  // ----- memory -----

  /** READY and USER_OWNED banks hold the bytes they were completed with. */
  ghost predicate Intact(p: Pool)
    requires Shaped(p)
  {
    forall i | 0 <= i < p.geometry.bankCount && Held(p.banks[i]) :: BankBytes(p, i) == p.banks[i].captured
  }

  lemma {:induction false} NextMultiple(i: nat, j: nat, n: nat)
    requires i < j
    ensures i * n + n <= j * n
  {
    if i + 1 < j {
      NextMultiple(i, j - 1, n);
    }
    assert (j - 1) * n + n == j * n;
  }

  /** Banks do not overlap. */
  lemma Disjoint(g: Geometry, i: nat, j: nat)
    requires i < j
    ensures Offset(g, i) + g.bankBytes <= Offset(g, j)
  {
    NextMultiple(i, j, g.bankBytes);
  }

  lemma OverwriteElsewhere(memory: seq<Byte>, at: nat, bytes: seq<Byte>, lo: nat, hi: nat)
    requires at + |bytes| <= |memory| && lo <= hi <= |memory|
    requires hi <= at || at + |bytes| <= lo
    ensures Overwrite(memory, at, bytes)[lo..hi] == memory[lo..hi]
  {
    var r := Overwrite(memory, at, bytes);
    forall k | 0 <= k < hi - lo
      ensures r[lo..hi][k] == memory[lo..hi][k]
    {
    }
  }

  /** A write inside bank `i` leaves the other banks alone. */
  lemma WriteInside(p: Pool, i: nat, at: nat, bytes: seq<Byte>)
    requires Shaped(p) && Intact(p) && i < p.geometry.bankCount && !Held(p.banks[i])
    requires Offset(p.geometry, i) <= at && at + |bytes| <= Offset(p.geometry, i) + p.geometry.bankBytes
    ensures var q := p.(memory := Overwrite(p.memory, at, bytes)); Shaped(q) && Intact(q)
  {
    hide Offset, Overwrite;
    var q := p.(memory := Overwrite(p.memory, at, bytes));
    forall j | 0 <= j < p.geometry.bankCount && Held(p.banks[j])
      ensures BankBytes(q, j) == p.banks[j].captured
    {
      if i < j {
        Disjoint(p.geometry, i, j);
      } else {
        Disjoint(p.geometry, j, i);
      }
      OverwriteElsewhere(p.memory, at, bytes, Offset(p.geometry, j), Offset(p.geometry, j) + p.geometry.bankBytes);
    }
  }

  // ----- flags and events -----

  ghost predicate Moded(p: Pool) {
    && (p.mode.faulted ==> !p.mode.running)
    && (p.mode.stopping ==> !p.mode.running)
    && (p.mode.running ==> p.mode.configured)
    && (p.events.done ==> p.filling.Some? && !p.inFlight)
    && (p.inFlight ==> p.filling.Some?)
    && (p.triggered.Some? ==> !p.mode.running && p.filling.None? && p.n.ready == 0 && p.n.user == 0)
    && (p.totals.discarded > 0 ==> !p.mode.running && p.filling.None? && p.n.ready == 0)
  }

  ghost predicate Tallied(p: Pool) {
    var t := p.totals;
    && t.produced == t.dequeued + p.n.ready + t.discarded
    && t.dequeued == t.consumed + p.n.user
    && (p.geometry.bankCount > 0 ==> p.ids.nextSequence == t.produced + 1)
    && p.ids.runId < p.ids.nextRunId
  }

  ghost predicate Queued(p: Pool) {
    && Sequenced(p.banks, p.geometry, p.ids.runId, p.totals.dequeued, p.totals.produced)
    && (p.totals.discarded == 0 ==> AllReady(p.banks, p.geometry.bankCount, p.totals.dequeued, p.totals.produced))
  }

  /** What holds even inside a thread iteration. */
  ghost predicate Sound(p: Pool) {
    Counted(p) && Queued(p) && Intact(p) && Moded(p) && Tallied(p)
  }

  /** A running pool is never left waiting: its DMA will complete, or it will be woken to arm a FREE bank. */
  ghost predicate Awake(p: Pool) {
    p.mode.running ==>
      && (p.filling.Some? ==> p.inFlight || p.events.done)
      && (p.filling.None? && p.n.free > 0 ==> p.events.kick)
  }

  ghost predicate Good(p: Pool) {
    Sound(p) && Awake(p) && p.events.stop == p.mode.stopping
  }

  // ----- what each move keeps -----

  lemma CountedSet(p: Pool, i: nat, b: Bank)
    requires Shaped(p) && i < p.geometry.bankCount
    ensures var n, q := p.geometry.bankCount, p.banks[i := b];
      forall s: BankState ::
        Count(q, s, n) + One(p.banks[i].state == s) == Count(p.banks, s, n) + One(b.state == s)
  {
    forall s: BankState
      ensures Count(p.banks[i := b], s, p.geometry.bankCount) + One(p.banks[i].state == s)
           == Count(p.banks, s, p.geometry.bankCount) + One(b.state == s)
    {
      CountSet(p.banks, i, b, s, p.geometry.bankCount);
    }
  }

  lemma SkipSound(p: Pool, missed: nat)
    requires Sound(p)
    ensures Sound(Skip(p, missed))
  {
    hide Offset, Granted, InRange, Count;
    assert forall i | 0 <= i < p.geometry.bankCount :: BankBytes(Skip(p, missed), i) == BankBytes(p, i);
  }

  lemma FaultSound(p: Pool, error: Error)
    requires Sound(p)
    ensures Sound(Fault(p, error))
  {
    hide Offset, Granted, InRange, Count;
    assert forall i | 0 <= i < p.geometry.bankCount :: BankBytes(Fault(p, error), i) == BankBytes(p, i);
  }

  lemma FillSound(p: Pool, i: nat, bytes: seq<Byte>)
    requires Sound(p) && i < p.geometry.bankCount && !Held(p.banks[i])
    ensures Sound(Fill(p, i, bytes))
  {
    hide Offset, Granted, InRange, Count, Overwrite, Intact, Sequenced, AllReady;
    var n := p.geometry.bankBytes;
    WriteInside(p, i, Offset(p.geometry, i), if |bytes| == n then bytes else Poison(n));
  }

  lemma SameMemory(p: Pool, q: Pool, i: nat)
    requires Shaped(p) && Intact(p) && Shaped(q) && q.memory == p.memory && q.geometry == p.geometry
    requires i < p.geometry.bankCount && |q.banks| == |p.banks|
    requires forall j | 0 <= j < p.geometry.bankCount && j != i :: q.banks[j] == p.banks[j]
    requires Held(q.banks[i]) ==> BankBytes(p, i) == q.banks[i].captured
    ensures Intact(q)
  {
    hide Offset;
    assert forall j | 0 <= j < p.geometry.bankCount :: BankBytes(q, j) == BankBytes(p, j);
  }

  lemma ToFillingSound(p: Pool, i: nat)
    requires Sound(p) && i < p.geometry.bankCount && p.banks[i].state == Free && p.filling.None?
    requires p.triggered.None? && p.totals.discarded == 0
    ensures p.n.free > 0 && Sound(ToFilling(p, i))
  {
    hide Offset, Granted, InRange, Count, Intact, Sequenced, AllReady;
    CountSome(p.banks, i, p.geometry.bankCount);
    var b := p.banks[i];
    var c := b.(state := Filling, generation := Wrap32(b.generation + 1));
    CountedSet(p, i, c);
    SetIdle(p.banks, i, c, p.geometry, p.ids.runId, p.totals.dequeued, p.totals.produced);
    SameMemory(p, ToFilling(p, i), i);
  }

  lemma FreeFillingSound(p: Pool)
    requires Sound(p) && p.filling.Some? && !p.inFlight && !p.events.done
    ensures Sound(FreeFilling(p))
    ensures FreeFilling(p).mode == p.mode && FreeFilling(p).filling.None?
  {
    hide Offset, Granted, InRange, Count, Intact, Sequenced, AllReady;
    var i := p.filling.value;
    var c := p.banks[i].(state := Free);
    CountedSet(p, i, c);
    SetIdle(p.banks, i, c, p.geometry, p.ids.runId, p.totals.dequeued, p.totals.produced);
    SameMemory(p, FreeFilling(p), i);
  }

  lemma SetGrantSound(p: Pool, g: Grant)
    requires Sound(p) && p.filling.Some?
    ensures Sound(SetGrant(p, g))
  {
    hide Offset, Granted, InRange, Count, Intact, Sequenced, AllReady;
    var i := p.filling.value;
    var c := p.banks[i].(grant := g);
    CountedSet(p, i, c);
    SetIdle(p.banks, i, c, p.geometry, p.ids.runId, p.totals.dequeued, p.totals.produced);
    SameMemory(p, SetGrant(p, g), i);
  }

  lemma ToReadySound(p: Pool, report: Report)
    requires Sound(p) && p.filling.Some? && !p.inFlight && !p.events.done && Acceptable(p.geometry, report)
    ensures Sound(ToReady(p, report))
    ensures ToReady(p, report).mode == p.mode && ToReady(p, report).filling.None?
  {
    hide Offset, Acceptable, InRange, Count, Intact, Sequenced, AllReady;
    var i := p.filling.value;
    var r := ToReady(p, report);
    CountedSet(p, i, r.banks[i]);
    SetReady(p.banks, i, r.banks[i], p.geometry, p.ids.runId, p.totals.dequeued, p.totals.produced);
    assert r.banks == p.banks[i := r.banks[i]];
    SameMemory(p, r, i);
  }

  lemma ToUserSound(p: Pool, i: nat)
    requires Sound(p) && i == FindReady(p.banks, p.geometry.bankCount) < p.geometry.bankCount
    ensures p.n.ready > 0 && Sound(ToUser(p, i))
    ensures p.banks[i].sequence == p.totals.dequeued + 1
  {
    hide Offset, Granted, InRange, Count, Intact, Sequenced, AllReady;
    CountSome(p.banks, i, p.geometry.bankCount);
    OldestIsNext(p.banks, p.geometry, p.ids.runId, p.totals.dequeued, p.totals.produced);
    var c := p.banks[i].(state := UserOwned);
    CountedSet(p, i, c);
    SetUser(p.banks, i, c, p.geometry, p.ids.runId, p.totals.dequeued, p.totals.produced);
    CapturedAt(p, i);
    SameMemory(p, ToUser(p, i), i);
  }

  lemma CapturedAt(p: Pool, i: nat)
    requires Shaped(p) && Intact(p) && i < p.geometry.bankCount && Held(p.banks[i])
    ensures BankBytes(p, i) == p.banks[i].captured
  {
  }

  lemma ToFreeSound(p: Pool, i: nat)
    requires Sound(p) && i < p.geometry.bankCount && p.banks[i].state == UserOwned
    ensures p.n.user > 0 && Sound(ToFree(p, i))
  {
    hide Offset, Granted, InRange, Count, Intact, Sequenced, AllReady;
    CountSome(p.banks, i, p.geometry.bankCount);
    var c := p.banks[i].(state := Free);
    CountedSet(p, i, c);
    SetIdle(p.banks, i, c, p.geometry, p.ids.runId, p.totals.dequeued, p.totals.produced);
    SameMemory(p, ToFree(p, i), i);
  }

  lemma DiscardSound(p: Pool)
    requires Sound(p) && !p.mode.running && p.filling.None?
    ensures Sound(DiscardReady(p))
  {
    hide Offset, Count, Granted;
    var n := p.geometry.bankCount;
    var r := DiscardReady(p);
    CountDiscarded(p.banks, n, n);
    assert forall i | 0 <= i < n :: Held(r.banks[i]) ==> r.banks[i] == p.banks[i];
    assert forall i | 0 <= i < n :: BankBytes(r, i) == BankBytes(p, i);
  }
}
