/** Over every interleaving of the two threads: the tokens they hold are the banks userspace owns, in order,
    and the bytes behind them do not change. */
module StreamerOwnership {
  import opened Protocol
  import opened BankPool
  import opened PoolInvariant
  import opened PoolRun
  import opened PoolTraces
  import opened PoolTokens
  import opened PoolOwnership
  import opened Streamer
  import Gaps

  function Handling(s: Sender): seq<Taken> {
    if s.Sending? || s.Settling? then [s.t] else []
  }

  function Acquiring(a: Acquisition): seq<Taken> {
    if a.Checking? || a.Pushing? || a.Returning? then [a.t] else []
  }

  /** The banks the threads hold, oldest first. */
  function InPlay(p: Pipe): seq<Taken> {
    Handling(p.sender) + p.queue + Acquiring(p.acquisition)
  }

  ghost function Tokens(ts: seq<Taken>): set<Token> {
    set i | 0 <= i < |ts| && ts[i].grant.Grant? :: TokenFor(ts[i].grant)
  }

  /** The k-th bank dequeued in this run. */
  ghost predicate Genuine(job: Job, t: Taken, k: nat) {
    && t.grant.Grant? && t.grant.geometry == job.geometry && t.grant.runId == job.runId && t.grant.sequence == k + 1
    && t.grant.bank < job.geometry.bankCount && t.grant.offset == Offset(job.geometry, t.grant.bank)
    && t.grant.bytes == job.geometry.bankBytes == |t.bytes| && Acceptable(job.geometry, t.grant.report)
  }

  ghost predicate SameRun(job: Job, p: Pipe) {
    && Good(p.pool) && p.pool.ids.runId == job.runId && p.pool.geometry == job.geometry
    && p.pool.totals.dequeued == |p.granted|
    && forall k | 0 <= k < |p.granted| :: Genuine(job, p.granted[k], k)
  }

  /** The banks in play are the latest ones granted, but for one the acquisition thread gave back as it ended. */
  ghost predicate InOrder(p: Pipe) {
    && p.settled + |InPlay(p)| + p.returned == |p.granted|
    && InPlay(p) == p.granted[p.settled..p.settled + |InPlay(p)|]
    && (p.returned > 0 ==> p.acquisition.Failing? || p.acquisition.Finished?)
  }

  ghost predicate Untouched(p: Pipe, t: Taken) {
    t.grant.Grant? && t.grant.offset + t.grant.bytes <= |p.pool.memory| && ReadBank(p.pool, t.grant) == t.bytes
  }

  ghost predicate Holding(p: Pipe)
    requires Shaped(p.pool)
  {
    && Outstanding(p.pool) == Tokens(InPlay(p))
    && forall i | 0 <= i < |InPlay(p)| :: Untouched(p, InPlay(p)[i])
  }

  ghost predicate Owning(job: Job, p: Pipe) {
    SameRun(job, p) && InOrder(p) && (GoodIsSound(p.pool); InShape(p.pool); Holding(p))
  }

  lemma Parts(job: Job, p: Pipe)
    requires Owning(job, p)
    ensures Sound(p.pool) && Shaped(p.pool) && SameRun(job, p) && InOrder(p) && Holding(p)
    ensures p.packetSequence <= U64_MAX ==> Runnable(p)
  {
    GoodIsSound(p.pool);
    InShape(p.pool);
    hide SameRun, Good, Sound, Shaped, Outstanding, Tokens, ReadBank;
    if |Handling(p.sender)| > 0 {
      assert InPlay(p)[0] == p.sender.t;
    }
    if |Acquiring(p.acquisition)| > 0 {
      assert InPlay(p)[|InPlay(p)| - 1] == p.acquisition.t;
    }
    assert Holding(p);
    GoodHere(job, p);
  }

  lemma GoodHere(job: Job, p: Pipe)
    requires SameRun(job, p)
    ensures Good(p.pool)
  {
  }

  /** A bank in play is the one of its index among those granted. */
  lemma PlayedAt(job: Job, p: Pipe, i: nat)
    requires SameRun(job, p) && InOrder(p) && i < |InPlay(p)|
    ensures InPlay(p)[i] == p.granted[p.settled + i] && Genuine(job, InPlay(p)[i], p.settled + i)
  {
    hide Good, Genuine;
  }

  lemma TokenInPlay(ts: seq<Taken>, i: nat)
    requires i < |ts| && ts[i].grant.Grant?
    ensures TokenFor(ts[i].grant) in Tokens(ts)
  {
  }

  // ----- the queue never fills -----

  ghost function Members(s: seq<nat>): set<nat> {
    set x | x in s
  }

  lemma {:induction false} Pigeonhole(s: seq<nat>, n: nat)
    requires forall i | 0 <= i < |s| :: s[i] < n
    requires forall i, j | 0 <= i < j < |s| :: s[i] != s[j]
    ensures |s| <= n
  {
    SizeOfDistinct(s);
    assert Members(s) <= Gaps.Interval(0, n);
    Gaps.Subset(Members(s), Gaps.Interval(0, n));
  }

  lemma {:induction false} SizeOfDistinct(s: seq<nat>)
    requires forall i, j | 0 <= i < j < |s| :: s[i] != s[j]
    ensures |Members(s)| == |s|
  {
    if s == [] {
      assert Members(s) == {};
    } else {
      var init, last := s[..|s| - 1], s[|s| - 1];
      SizeOfDistinct(init);
      assert s == init + [last];
      assert Members(s) == Members(init) + {last};
    }
  }

  lemma DistinctBanks(job: Job, p: Pipe, i: nat, j: nat)
    requires Owning(job, p) && i < j < |InPlay(p)|
    ensures InPlay(p)[i].grant.Grant? && InPlay(p)[j].grant.Grant?
    ensures InPlay(p)[i].grant.bank != InPlay(p)[j].grant.bank
  {
    Parts(job, p);
    hide Owning, Good, Sound, SameRun, InOrder, Outstanding, Tokens;
    PlayedAt(job, p, i);
    PlayedAt(job, p, j);
    var s, t := TokenFor(InPlay(p)[i].grant), TokenFor(InPlay(p)[j].grant);
    TokenInPlay(InPlay(p), i);
    TokenInPlay(InPlay(p), j);
    AcceptsOutstanding(p.pool, s);
    AcceptsOutstanding(p.pool, t);
  }

  /** No more banks are in play than the pool has. */
  lemma InPlayBound(job: Job, p: Pipe)
    requires Owning(job, p)
    ensures |InPlay(p)| <= job.geometry.bankCount
  {
    Parts(job, p);
    forall i | 0 <= i < |InPlay(p)|
      ensures Genuine(job, InPlay(p)[i], p.settled + i)
    {
      PlayedAt(job, p, i);
    }
    hide Owning, Good, Sound, SameRun, InOrder, Holding;
    var banks := seq(|InPlay(p)|, i requires 0 <= i < |InPlay(p)| => InPlay(p)[i].grant.bank);
    forall i, j | 0 <= i < j < |banks|
      ensures banks[i] != banks[j]
    {
      DistinctBanks(job, p, i, j);
    }
    Pigeonhole(banks, job.geometry.bankCount);
  }

  /** `queue_push` never waits for room. */
  lemma PushNeverWaits(job: Job, p: Pipe)
    requires Owning(job, p) && p.acquisition.Pushing?
    ensures |p.queue| < p.pool.geometry.bankCount
  {
    InPlayBound(job, p);
    hide Good;
    assert |InPlay(p)| >= |p.queue| + 1;
  }

  // ----- what each step keeps -----

  /** Steps that move no token: the same banks in play, the same pool. */
  lemma SameOwning(job: Job, p: Pipe, q: Pipe)
    requires Owning(job, p) && q.pool == p.pool && q.granted == p.granted && q.settled == p.settled
    requires InPlay(q) == InPlay(p) && q.returned == p.returned
    requires q.returned > 0 ==> q.acquisition.Failing? || q.acquisition.Finished?
    ensures Owning(job, q)
  {
    Parts(job, p);
    hide Good, Outstanding, Tokens, Genuine, InPlay;
    assert forall i | 0 <= i < |InPlay(q)| :: Untouched(p, InPlay(q)[i]) == Untouched(q, InPlay(q)[i]);
  }

  lemma SameBytesRead(p: Pool, q: Pool, job: Job, t: Taken, k: nat)
    requires Shaped(p) && Shaped(q) && p.geometry == job.geometry && Genuine(job, t, k) && q.device == p.device
    requires BytesKept(p, q.memory) && Held(p.banks[t.grant.bank])
    ensures t.grant.offset + t.grant.bytes <= |p.memory| == |q.memory| && ReadBank(q, t.grant) == ReadBank(p, t.grant)
  {
    hide Offset, FrameOffset, Acceptable;
    assert Slice(p, q.memory, t.grant.bank) == Slice(p, p.memory, t.grant.bank);
  }

  lemma KernelOwning(job: Job, p: Pipe, s: Step)
    requires Owning(job, p) && Unasked(s)
    ensures Sound(p.pool) && Owning(job, p.(pool := PoolTraces.Next(p.pool, s)))
  {
    Parts(job, p);
    GoodHere(job, p);
    var q := PoolTraces.Next(p.pool, s);
    NextGood(p.pool, s);
    GoodIsSound(q);
    InShape(q);
    NoOverwrite(p.pool, s);
    SameDevice(p.pool, s);
    TokensNext(p.pool, s);
    hide Owning, Good, Sound, Shaped, Outstanding, Tokens, BytesKept, PoolTraces.Next, Genuine, InOrder, ReadBank;
    var r := p.(pool := q);
    forall i | 0 <= i < |InPlay(p)|
      ensures Untouched(r, InPlay(p)[i])
    {
      PlayedAt(job, p, i);
      GenuineGrant(job, InPlay(p)[i], p.settled + i);
      TokenInPlay(InPlay(p), i);
      TokenHeld(p.pool, TokenFor(InPlay(p)[i].grant));
      SameBytesRead(p.pool, q, job, InPlay(p)[i], p.settled + i);
    }
    assert Holding(r);
    Assembled(job, r);
  }

  lemma GenuineGrant(job: Job, t: Taken, k: nat)
    requires Genuine(job, t, k)
    ensures t.grant.Grant? && t.grant.bank < job.geometry.bankCount
    ensures t.grant.runId == job.runId && t.grant.sequence == k + 1
  {
    hide Acceptable, Offset;
  }

  lemma TokenHeld(p: Pool, t: Token)
    requires Shaped(p) && t in Outstanding(p)
    ensures t.bank < p.geometry.bankCount && Held(p.banks[t.bank])
  {
    AcceptsOutstanding(p, t);
  }

  lemma Assembled(job: Job, p: Pipe)
    requires SameRun(job, p) && InOrder(p) && Shaped(p.pool) && Holding(p)
    ensures Owning(job, p)
  {
    hide SameRun, InOrder, Shaped, Holding, Good, Sound;
  }

  lemma TakeOwning(job: Job, p: Pipe)
    requires Owning(job, p) && p.acquisition.Looping?
    ensures Good(p.pool) && Owning(job, TakeStep(p))
  {
    Parts(job, p);
    GoodHere(job, p);
    DequeueGood(p.pool);
    DequeueTokens(p.pool);
    TakeShape(p);
    if Dequeue(p.pool).1.Refused? {
      hide Owning, Good, Sound, Shaped, Dequeue, TakeStep, InPlay;
      SameOwning(job, p, TakeStep(p));
    } else {
      TakenOwning(job, p, TakeStep(p), Dequeue(p.pool).1.grant);
    }
  }

  lemma TakeShape(p: Pipe)
    requires Good(p.pool) && Sound(p.pool) && p.acquisition.Looping?
    ensures var (pool, d) := Dequeue(p.pool);
      var q := TakeStep(p);
      && q.settled == p.settled && q.returned == p.returned
      && if d.Refused? then
           q.pool == p.pool && q.acquisition.Failing? && q.granted == p.granted && InPlay(q) == InPlay(p)
         else
           && q.pool == pool && q.acquisition.Checking? && q.acquisition.t.grant == d.grant && d.grant.Grant?
           && d.grant.bank < |p.pool.banks| && q.acquisition.t.bytes == p.pool.banks[d.grant.bank].captured
           && q.granted == p.granted + [q.acquisition.t] && InPlay(q) == InPlay(p) + [q.acquisition.t]
  {
    hide Good, Sound, Dequeue;
    DequeueGood(p.pool);
    InShape(p.pool);
  }

  lemma TakenOwning(job: Job, p: Pipe, q: Pipe, g: Grant)
    requires Owning(job, p) && p.acquisition.Looping? && Sound(p.pool) && Dequeue(p.pool) == (q.pool, Got(g))
    requires q.settled == p.settled && q.returned == p.returned && q.acquisition.Checking? && g.Grant?
    requires q.acquisition.t.grant == g && g.bank < |p.pool.banks|
    requires q.acquisition.t.bytes == p.pool.banks[g.bank].captured
    requires q.granted == p.granted + [q.acquisition.t] && InPlay(q) == InPlay(p) + [q.acquisition.t]
    ensures Owning(job, q)
  {
    var t := q.acquisition.t;
    Parts(job, p);
    GoodHere(job, p);
    DequeueGood(p.pool);
    DequeueTokens(p.pool);
    InShape(q.pool);
    DequeueKeeps(p.pool);
    hide Owning, Good, Sound, Shaped, Dequeue, Outstanding, Tokens, ReadBank, Offset, FrameOffset, Acceptable, InPlay,
         InOrder;
    assert Genuine(job, t, |p.granted|);
    assert SameRun(job, q);
    InOrderTaken(p, q, t);
    TokensMore(InPlay(p), t);
    TakenUntouched(p, q, t);
    Assembled(job, q);
  }

  lemma TakenUntouched(p: Pipe, q: Pipe, t: Taken)
    requires forall i | 0 <= i < |InPlay(p)| :: Untouched(p, InPlay(p)[i])
    requires InPlay(q) == InPlay(p) + [t] && q.pool.memory == p.pool.memory
    requires t.grant.Grant? && t.grant.offset + t.grant.bytes <= |p.pool.memory| && ReadBank(p.pool, t.grant) == t.bytes
    ensures forall i | 0 <= i < |InPlay(q)| :: Untouched(q, InPlay(q)[i])
  {
    hide InPlay;
    forall i | 0 <= i < |InPlay(q)|
      ensures Untouched(q, InPlay(q)[i])
    {
      if i < |InPlay(p)| {
        assert Untouched(p, InPlay(p)[i]);
      }
    }
  }

  lemma DequeueKeeps(p: Pool)
    requires Good(p)
    ensures Sound(p) && Dequeue(p).0.memory == p.memory && Dequeue(p).0.geometry == p.geometry
    ensures Dequeue(p).1.Got? ==>
      var g := Dequeue(p).1.grant;
      g.Grant? && Shaped(p) && g.bank < p.geometry.bankCount && g.bytes == p.geometry.bankBytes
      && g.offset + g.bytes <= |p.memory| && |p.banks[g.bank].captured| == p.geometry.bankBytes
  {
    DequeueGood(p);
    SoundParts(p);
    hide Good, Sound, Count, Offset, FrameOffset, Acceptable, InRange, AllReady;
    var i := FindReady(p.banks, p.geometry.bankCount);
    if i < p.geometry.bankCount {
      assert Held(p.banks[i]) && Granted(p.banks[i], i, p.geometry, p.ids.runId);
      CapturedAt(p, i);
    }
  }

  lemma InOrderTaken(p: Pipe, q: Pipe, t: Taken)
    requires InOrder(p) && p.acquisition.Looping? && q.granted == p.granted + [t] && InPlay(q) == InPlay(p) + [t]
    requires q.settled == p.settled && q.returned == p.returned
    ensures InOrder(q)
  {
    hide InPlay;
    var n := |InPlay(p)|;
    assert q.granted[q.settled..q.settled + n + 1] == p.granted[p.settled..p.settled + n] + [t];
  }

  lemma TokensMore(ts: seq<Taken>, t: Taken)
    requires t.grant.Grant?
    ensures Tokens(ts + [t]) == Tokens(ts) + {TokenFor(t.grant)}
  {
    var more := ts + [t];
    forall x
      ensures x in Tokens(more) <==> x in Tokens(ts) || x == TokenFor(t.grant)
    {
      if x in Tokens(ts) {
        var i :| 0 <= i < |ts| && ts[i].grant.Grant? && TokenFor(ts[i].grant) == x;
        assert more[i] == ts[i];
      }
      assert more[|ts|] == t;
    }
  }

  lemma TokensFewer(ts: seq<Taken>, t: Taken)
    requires t.grant.Grant?
    requires forall i | 0 <= i < |ts| :: ts[i].grant.Grant? && ts[i].grant.sequence != t.grant.sequence
    ensures Tokens(ts + [t]) - {TokenFor(t.grant)} == Tokens(ts)
    ensures Tokens([t] + ts) - {TokenFor(t.grant)} == Tokens(ts)
  {
    TokensMore(ts, t);
    assert TokenFor(t.grant) !in Tokens(ts);
    var more := [t] + ts;
    forall x
      ensures x in Tokens(more) <==> x in Tokens(ts) || x == TokenFor(t.grant)
    {
      if x in Tokens(ts) {
        var i :| 0 <= i < |ts| && ts[i].grant.Grant? && TokenFor(ts[i].grant) == x;
        assert more[i + 1] == ts[i];
      }
      assert more[0] == t;
    }
  }

  /** Giving back bank `i` of those in play: the driver takes the token, and the others stay as they are. */
  lemma GiveBack(job: Job, p: Pipe, i: nat, rest: seq<Taken>)
    requires Owning(job, p) && i < |InPlay(p)|
    requires (i == 0 && rest == InPlay(p)[1..]) || (i == |InPlay(p)| - 1 && rest == InPlay(p)[..i])
    ensures InPlay(p)[i].grant.Grant? && Sound(p.pool)
    ensures var o := Release(p.pool, TokenFor(InPlay(p)[i].grant));
      && o.error == BankPool.Ok && Good(o.pool) && Shaped(o.pool) && Outstanding(o.pool) == Tokens(rest)
      && o.pool.ids == p.pool.ids && o.pool.geometry == p.pool.geometry
      && o.pool.totals.dequeued == p.pool.totals.dequeued && o.pool.memory == p.pool.memory
  {
    hide Owning, Good, Sound, Shaped, Release, Outstanding, Tokens, InPlay, SameRun, InOrder, Genuine;
    Parts(job, p);
    GoodHere(job, p);
    PlayedAt(job, p, i);
    var t := InPlay(p)[i];
    GenuineGrant(job, t, p.settled + i);
    TokenInPlay(InPlay(p), i);
    ReleaseTokens(p.pool, TokenFor(t.grant));
    ReleaseGood(p.pool, TokenFor(t.grant));
    ReleaseKeeps(p.pool, TokenFor(t.grant));
    InShape(Release(p.pool, TokenFor(t.grant)).pool);
    forall j | 0 <= j < |InPlay(p)|
      ensures InPlay(p)[j].grant.Grant? && InPlay(p)[j].grant.sequence == p.settled + j + 1
    {
      PlayedAt(job, p, j);
      GenuineGrant(job, InPlay(p)[j], p.settled + j);
    }
    TokensFewer(rest, t);
    assert InPlay(p) == (if i == 0 then [t] + rest else rest + [t]) || (i == 0 && rest == []);
    if i == 0 {
      assert InPlay(p) == [t] + rest;
    }
  }

  lemma ReleaseKeeps(p: Pool, t: Token)
    requires Sound(p)
    ensures Release(p, t).pool.memory == p.memory && Release(p, t).pool.geometry == p.geometry
  {
    hide Sound;
  }

  lemma GivenBack(job: Job, p: Pipe, q: Pipe, i: nat, rest: seq<Taken>)
    requires Owning(job, p) && i < |InPlay(p)|
    requires (i == 0 && rest == InPlay(p)[1..]) || (i == |InPlay(p)| - 1 && rest == InPlay(p)[..i])
    requires InPlay(p)[i].grant.Grant? && Sound(p.pool)
    requires q.pool == Release(p.pool, TokenFor(InPlay(p)[i].grant)).pool
    requires InPlay(q) == rest && q.granted == p.granted
    requires InOrder(q)
    ensures Owning(job, q)
  {
    hide Owning, Good, Sound, Shaped, Release, Outstanding, Tokens, InPlay, InOrder, Genuine, Untouched;
    Parts(job, p);
    GiveBack(job, p, i, rest);
    StillUntouched(p, q, InPlay(p), i, rest);
    assert SameRun(job, q);
    hide SameRun;
    Assembled(job, q);
  }

  lemma StillUntouched(p: Pipe, q: Pipe, held: seq<Taken>, i: nat, rest: seq<Taken>)
    requires i < |held| && q.pool.memory == p.pool.memory && forall j | 0 <= j < |held| :: Untouched(p, held[j])
    requires (i == 0 && rest == held[1..]) || (i == |held| - 1 && rest == held[..i])
    ensures forall j | 0 <= j < |rest| :: Untouched(q, rest[j])
  {
    forall j | 0 <= j < |rest|
      ensures Untouched(q, rest[j])
    {
      assert Untouched(p, held[if i == 0 then j + 1 else j]);
    }
  }

  lemma ReturnOwning(job: Job, p: Pipe)
    requires Owning(job, p) && p.acquisition.Returning? && p.acquisition.t.grant.Grant?
    ensures Good(p.pool) && Owning(job, ReturnStep(p))
  {
    hide Owning, Good, Sound, Shaped, Release, SameRun, InPlay, ReturnStep, InOrder;
    Parts(job, p);
    GoodHere(job, p);
    ReturnShape(p);
    var i := |InPlay(p)| - 1;
    GivenBack(job, p, ReturnStep(p), i, InPlay(p)[..i]);
  }

  lemma ReturnShape(p: Pipe)
    requires p.acquisition.Returning? && p.acquisition.t.grant.Grant? && Good(p.pool) && Sound(p.pool) && InOrder(p)
    ensures var q := ReturnStep(p);
      && InPlay(p) != [] && InPlay(p)[|InPlay(p)| - 1] == p.acquisition.t && InPlay(q) == InPlay(p)[..|InPlay(p)| - 1]
      && q.granted == p.granted && q.pool == Release(p.pool, TokenFor(p.acquisition.t.grant)).pool && InOrder(q)
  {
    hide Good, Sound, Release;
    var q := ReturnStep(p);
    assert Acquiring(q.acquisition) == [] && Acquiring(p.acquisition) == [p.acquisition.t];
    assert Handling(q.sender) == Handling(p.sender) && q.queue == p.queue;
    Front(Handling(p.sender), p.queue, p.acquisition.t);
    ShorterSlice(p.granted, p.settled, |InPlay(p)|);
  }

  lemma Front(a: seq<Taken>, b: seq<Taken>, t: Taken)
    ensures var s := a + b + [t];
      s[|s| - 1] == t && s[..|s| - 1] == a + b + []
  {
  }

  lemma ShorterSlice(s: seq<Taken>, from: nat, n: nat)
    requires from + n <= |s| && n > 0
    ensures s[from..from + n][..n - 1] == s[from..from + (n - 1)]
  {
  }

  lemma SettleOwning(job: Job, p: Pipe, armed: bool)
    requires Owning(job, p) && p.sender.Settling? && p.sender.t.grant.Grant? && p.packetSequence <= U64_MAX
    ensures Good(p.pool) && Owning(job, SettleStep(job, p, armed))
    ensures Sound(p.pool) && Release(p.pool, TokenFor(p.sender.t.grant)).error == BankPool.Ok
  {
    Parts(job, p);
    GoodHere(job, p);
    SettleShape(job, p, armed);
    hide Owning, Good, Sound, Shaped, Release, SameRun, InPlay, SettleStep;
    GiveBack(job, p, 0, InPlay(p)[1..]);
    GivenBack(job, p, SettleStep(job, p, armed), 0, InPlay(p)[1..]);
  }

  lemma Tail(t: Taken, a: seq<Taken>, b: seq<Taken>)
    ensures ([t] + a + b)[0] == t && ([t] + a + b)[1..] == [] + a + b
  {
  }

  lemma SettleShape(job: Job, p: Pipe, armed: bool)
    requires p.sender.Settling? && p.sender.t.grant.Grant? && Good(p.pool) && p.packetSequence <= U64_MAX
    requires InOrder(p) && Sound(p.pool)
    ensures var q := SettleStep(job, p, armed);
      && InPlay(p) != [] && InPlay(p)[0] == p.sender.t && InPlay(q) == InPlay(p)[1..] && InOrder(q)
      && q.granted == p.granted && q.pool == Release(p.pool, TokenFor(p.sender.t.grant)).pool
  {
    hide Good, Sound, Release, ConfigFor;
    var q := SettleStep(job, p, armed);
    assert Handling(q.sender) == [] && q.queue == p.queue && q.acquisition == p.acquisition;
    Tail(p.sender.t, p.queue, Acquiring(p.acquisition));
  }

  /** Nothing moved: the same pool, and the same banks in play. */
  ghost predicate Still(p: Pipe, q: Pipe) {
    && q.pool == p.pool && q.granted == p.granted && q.settled == p.settled && q.returned == p.returned
    && Handling(q.sender) == Handling(p.sender) && q.queue == p.queue
    && Acquiring(q.acquisition) == Acquiring(p.acquisition)
    && (q.returned > 0 && (p.acquisition.Failing? || p.acquisition.Finished?) ==>
          q.acquisition.Failing? || q.acquisition.Finished?)
  }

  /** The steps of the acquisition thread that neither call the driver nor move a token. */
  lemma AcquisitionStill(job: Job, p: Pipe, a: Action)
    requires Runnable(p) && (a.Finish? || a.Fail? || a.Check? || a.Wait?)
    ensures Still(p, Streamer.Next(job, p, a))
  {
    hide Good, BankOk, Follows;
  }

  lemma SendStill(job: Job, p: Pipe, budget: nat)
    requires p.sender.Sending? && p.sender.t.grant.Grant? && p.packetSequence <= U64_MAX
    requires p.sender.t.grant.offset + p.sender.t.grant.bytes <= |p.pool.memory|
    ensures Still(p, SendStep(job, p, budget))
  {
    hide ConfigFor, ReadBank, Packetizer.Accepts, Packetizer.Datagrams;
  }

  lemma SenderStill(job: Job, p: Pipe, a: Action)
    requires Runnable(p) && (a.Send? || a.Blame? || a.End?)
    ensures Still(p, Streamer.Next(job, p, a))
  {
    hide Good, SendStep;
    if a.Send? && p.sender.Sending? {
      SendStill(job, p, a.budget);
    }
  }

  lemma PushMoves(p: Pipe)
    requires p.acquisition.Pushing? && (p.returned > 0 ==> p.acquisition.Failing? || p.acquisition.Finished?)
    ensures var q := PushStep(p);
      && q.pool == p.pool && q.granted == p.granted && q.settled == p.settled && q.returned == p.returned == 0
      && InPlay(q) == InPlay(p)
  {
  }

  lemma PopMoves(p: Pipe)
    requires p.sender.Popping?
    ensures var q := PopStep(p);
      && q.pool == p.pool && q.granted == p.granted && q.settled == p.settled && q.returned == p.returned
      && InPlay(q) == InPlay(p) && q.acquisition == p.acquisition
  {
    if p.queue != [] {
      assert p.queue == [p.queue[0]] + p.queue[1..];
    }
  }

  /** Whatever step is taken, the banks in play stay the banks userspace owns, and their bytes stay put. */
  lemma NextOwning(job: Job, p: Pipe, a: Action)
    requires Owning(job, p) && p.packetSequence <= U64_MAX
    ensures Runnable(p) && Owning(job, Streamer.Next(job, p, a))
  {
    Parts(job, p);
    var q := Streamer.Next(job, p, a);
    if a.Finish? || a.Fail? || a.Check? || a.Wait? || a.Send? || a.Blame? || a.End? {
      hide Owning, Good, Runnable, Streamer.Next;
      if a.Send? || a.Blame? || a.End? {
        SenderStill(job, p, a);
      } else {
        AcquisitionStill(job, p, a);
      }
      SameOwning(job, p, q);
    } else {
      hide Owning, Good, Sound, Shaped, InPlay, SameRun, TakeStep, PushStep, ReturnStep, PopStep, SettleStep,
           PoolTraces.Next;
      match a
      case Kernel(step) => if Unasked(step) { KernelOwning(job, p, step); }
      case Take => if p.acquisition.Looping? { TakeOwning(job, p); }
      case Return => if p.acquisition.Returning? { ReturnOwning(job, p); }
      case Settle(armed) => if p.sender.Settling? { SettleOwning(job, p, armed); }
      case Push => if p.acquisition.Pushing? { PushMoves(p); SameOwning(job, p, q); }
      case Pop => if p.sender.Popping? { PopMoves(p); SameOwning(job, p, q); }
    }
  }
}
