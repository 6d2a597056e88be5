/** Tokens and order over whole runs of the bank pool: what DEQUEUE hands out and RELEASE takes back. */
module PoolOwnership {
  import opened BankPool
  import opened PoolInvariant
  import opened PoolRun
  import opened PoolTraces
  import opened PoolTokens

  function TokenOf(p: Pool, i: nat): Token
    requires i < |p.banks|
  {
    Token(i, p.banks[i].generation, p.ids.runId, p.banks[i].sequence)
  }

  function GrantToken(g: Grant): Token
    requires g.Grant?
  {
    Token(g.bank, g.generation, g.runId, g.sequence)
  }

  /** The tokens of the banks userspace owns. */
  ghost function Outstanding(p: Pool): set<Token>
    requires p.geometry.bankCount <= |p.banks|
  {
    set i | 0 <= i < p.geometry.bankCount && p.banks[i].state == UserOwned :: TokenOf(p, i)
  }

  /** RELEASE takes exactly the outstanding tokens. */
  lemma AcceptsOutstanding(p: Pool, t: Token)
    requires p.geometry.bankCount <= |p.banks|
    ensures Accepts(p, t) <==> t in Outstanding(p)
  {
    if Accepts(p, t) {
      assert TokenOf(p, t.bank) == t;
    }
  }

  lemma SameTokens(p: Pool, q: Pool)
    requires p.geometry.bankCount <= |p.banks| && q.geometry.bankCount <= |q.banks|
    requires q.geometry.bankCount == p.geometry.bankCount && q.ids.runId == p.ids.runId
    requires forall i | 0 <= i < p.geometry.bankCount ::
      && (p.banks[i].state == UserOwned ==> q.banks[i] == p.banks[i])
      && (q.banks[i].state == UserOwned ==> p.banks[i].state == UserOwned)
    ensures Outstanding(q) == Outstanding(p)
  {
    forall t
      ensures t in Outstanding(q) <==> t in Outstanding(p)
    {
      AcceptsOutstanding(p, t);
      AcceptsOutstanding(q, t);
    }
  }

  lemma NoTokens(p: Pool)
    requires Counted(p) && p.n.ready == 0 && p.n.user == 0
    ensures Outstanding(p) == {}
  {
    NoneHeld(p);
    hide Offset, FrameOffset, Count;
  }

  /** The pool's run, its dequeue count and its tokens are as they were. */
  ghost predicate Undisturbed(p: Pool, q: Pool)
    requires Sound(p) && Sound(q)
  {
    InShape(p);
    InShape(q);
    q.ids.runId == p.ids.runId && q.totals.dequeued == p.totals.dequeued && q.geometry == p.geometry
    && Outstanding(q) == Outstanding(p)
  }

  lemma RespectsTokens(p: Pool, q: Pool)
    requires Sound(p) && Sound(q) && Shaped(p) && Shaped(q) && Respects(p, q)
    ensures Undisturbed(p, q)
  {
    InShape(p);
    InShape(q);
    hide Sound, Shaped, Offset, FrameOffset;
    SameTokens(p, q);
  }

  lemma SameBanks(p: Pool, q: Pool)
    requires Sound(p) && Sound(q) && q.banks == p.banks && q.ids == p.ids && q.geometry == p.geometry
    requires q.totals.dequeued == p.totals.dequeued
    ensures Undisturbed(p, q)
  {
    InShape(p);
    InShape(q);
    hide Sound, Shaped;
    SameTokens(p, q);
  }

  /** A START that is let through begins a later run with nothing handed out. */
  lemma StartTokens(p: Pool, r: StartRequest, reset: Error, arm: ArmReport)
    requires Good(p)
    ensures var q := Start(p, r, reset, arm).pool;
      && Sound(p) && Sound(q)
      && (Undisturbed(p, q)
          || (InShape(p); InShape(q);
              p.ids.runId < q.ids.runId && q.totals.dequeued == 0 && Outstanding(p) == {} == Outstanding(q)))
    ensures Start(p, r, reset, arm).error == Ok ==>
              Start(p, r, reset, arm).pool.totals.dequeued == 0 && p.ids.runId < Start(p, r, reset, arm).pool.ids.runId
  {
    hide Good, Sound, Arm, Fault, CheckStart, RequestGeometry, OwnsBuffer, Counted, Shaped, Undisturbed, Steady,
         Outstanding;
    GoodIsSound(p);
    StartGood(p, r, reset, arm);
    var q := Start(p, r, reset, arm).pool;
    GoodIsSound(q);
    SoundParts(p);
    SameBanks(p, p);
    var c := Configured(p, RequestGeometry(r));
    if CheckStart(p.device, r) == Ok && p.triggered.None? && !OwnsBuffer(p) && reset == Ok {
      NotOwned(p);
      ConfiguredSound(p, r);
      SoundParts(c);
      InShape(p);
      InShape(q);
      InShape(c);
      NoTokens(p);
      NoTokens(c);
      ArmSound(c, 0, arm);
      ArmSteady(c, 0, arm);
      var o := Arm(c, 0, arm);
      FaultSteady(o.pool, o.error);
      SteadyThen(c, o.pool, Fault(o.pool, o.error));
      SteadyTokens(c, q);
    }
  }

  lemma SteadyTokens(p: Pool, q: Pool)
    requires Sound(p) && Sound(q) && Steady(p, q)
    ensures Undisturbed(p, q)
  {
    SteadyRespects(p, q);
    RespectsTokens(p, q);
  }

  /** Every step hands out, takes back or leaves alone exactly what it says. */
  lemma TokensNext(p: Pool, s: Step)
    requires Good(p) && !s.StartStep?
    ensures Sound(p) && Sound(Next(p, s))
    ensures !s.DequeueStep? && !s.ReleaseStep? ==> Undisturbed(p, Next(p, s))
  {
    hide Good, Sound, Shaped, ThreadStep, Undisturbed, Overwrite, DmaMayWrite, CheckCapture, Respects, Outstanding,
         FindReady, Accepts;
    GoodIsSound(p);
    NextGood(p, s);
    var q := Next(p, s);
    GoodIsSound(q);
    match s
    case Iterate(report) => ThreadRespects(p, report); RespectsTokens(p, q);
    case DequeueStep =>
    case ReleaseStep(token) =>
    case _ => SameBanks(p, q);
  }

  lemma DequeueTokens(p: Pool)
    requires Good(p)
    ensures var (q, d) := Dequeue(p);
      && Sound(q) && (InShape(p); InShape(q);
         if d.Refused? then q == p
         else
           && d.grant.Grant? && q.ids == p.ids && q.totals.dequeued == p.totals.dequeued + 1
           && GrantToken(d.grant).sequence == p.totals.dequeued + 1 && GrantToken(d.grant).runId == p.ids.runId
           && Outstanding(q) == Outstanding(p) + {GrantToken(d.grant)} && GrantToken(d.grant) !in Outstanding(p))
  {
    GoodIsSound(p);
    DequeueGood(p);
    var (q, d) := Dequeue(p);
    GoodIsSound(q);
    InShape(p);
    InShape(q);
    SoundParts(p);
    hide Good, Sound, Shaped, Counted, Intact, Moded, Tallied, Count, Acceptable, AllReady, Offset, InRange;
    if d.Got? {
      var i := FindReady(p.banks, p.geometry.bankCount);
      assert Held(p.banks[i]) && Granted(p.banks[i], i, p.geometry, p.ids.runId);
      assert GrantToken(d.grant) == TokenOf(p, i) == TokenOf(q, i);
      forall t
        ensures t in Outstanding(q) <==> t in Outstanding(p) || t == TokenOf(p, i)
      {
        AcceptsOutstanding(p, t);
        AcceptsOutstanding(q, t);
      }
      AcceptsOutstanding(p, TokenOf(p, i));
    }
  }

  lemma ReleaseTokens(p: Pool, t: Token)
    requires Good(p)
    ensures Sound(p) && Sound(Release(p, t).pool)
    ensures var o := Release(p, t);
      (InShape(p); InShape(o.pool);
       && (o.error == Ok <==> t in Outstanding(p))
       && Outstanding(o.pool) == Outstanding(p) - {t}
       && o.pool.ids == p.ids && o.pool.totals.dequeued == p.totals.dequeued)
  {
    GoodIsSound(p);
    ReleaseGood(p, t);
    var q := Release(p, t).pool;
    GoodIsSound(q);
    InShape(p);
    InShape(q);
    AcceptsOutstanding(p, t);
    hide Good, Sound, Shaped;
    forall u
      ensures u in Outstanding(q) <==> u in Outstanding(p) && u != t
    {
      AcceptsOutstanding(p, u);
      AcceptsOutstanding(q, u);
    }
  }

  // ----- a token is good once -----

  /** A token of a bank handed out in this run or an earlier one. */
  predicate Issued(p: Pool, t: Token) {
    t.runId < p.ids.runId || (t.runId == p.ids.runId && t.sequence <= p.totals.dequeued)
  }

  /** A token that is not outstanding and never will be again. */
  ghost predicate Spent(p: Pool, t: Token)
    requires p.geometry.bankCount <= |p.banks|
  {
    Issued(p, t) && t !in Outstanding(p)
  }

  lemma OutstandingRange(p: Pool, t: Token)
    requires Good(p)
    ensures Shaped(p) && (t in Outstanding(p) ==> t.runId == p.ids.runId && 0 < t.sequence <= p.totals.dequeued)
  {
    GoodIsSound(p);
    InShape(p);
    SoundParts(p);
    hide Good, Sound, Shaped, Counted, Intact, Moded, Tallied, AllReady, Granted;
    AcceptsOutstanding(p, t);
    if t in Outstanding(p) {
      assert Held(p.banks[t.bank]) && InRange(p.banks[t.bank], p.totals.dequeued, p.totals.produced);
    }
  }

  lemma SpentStays(p: Pool, s: Step, t: Token)
    requires Good(p) && Shaped(p) && Issued(p, t)
    ensures Sound(p) && Shaped(Next(p, s)) && Issued(Next(p, s), t)
    ensures t !in Outstanding(p) ==> t !in Outstanding(Next(p, s))
  {
    hide Good, Sound, Shaped, Start, ThreadStep, Complete, DmaWrite, Dequeue, Release, Stop, Capture, ArmTriggered,
         TriggeredWrite, Outstanding;
    GoodIsSound(p);
    NextGood(p, s);
    var q := Next(p, s);
    GoodIsSound(q);
    InShape(q);
    match s
    case StartStep(request, reset, arm) => StartTokens(p, request, reset, arm);
    case DequeueStep => DequeueTokens(p);
    case ReleaseStep(token) => ReleaseTokens(p, token);
    case _ => TokensNext(p, s);
  }

  lemma ReleasedIsSpent(p: Pool, t: Token)
    requires Good(p) && Sound(p) && Release(p, t).error == Ok
    ensures Shaped(Release(p, t).pool) && Spent(Release(p, t).pool, t)
  {
    ReleaseTokens(p, t);
    OutstandingRange(p, t);
    InShape(Release(p, t).pool);
    hide Good, Sound, Shaped, Release, Outstanding;
  }

  lemma {:induction false} SpentForever(p: Pool, steps: seq<Step>, t: Token)
    requires Good(p) && Shaped(p) && Spent(p, t)
    ensures Shaped(Run(p, steps)) && Spent(Run(p, steps), t)
  {
    hide Good, Shaped, Issued, Next, Outstanding;
    if steps != [] {
      SpentForever(p, steps[..|steps| - 1], t);
      GoodIsSound(Run(p, steps[..|steps| - 1]));
      SpentStays(Run(p, steps[..|steps| - 1]), steps[|steps| - 1], t);
    }
  }

  lemma SpentRefused(p: Pool, t: Token)
    requires Good(p) && Shaped(p) && Spent(p, t)
    ensures Sound(p) && Release(p, t).error == Stale
  {
    GoodIsSound(p);
    OutstandingRange(p, t);
    AcceptsOutstanding(p, t);
    hide Good, Sound, Shaped, Outstanding;
  }

  /** However a run goes on - restarts included - a release token is taken at most once. */
  lemma TokenTakenOnce(p: Pool, t: Token, steps: seq<Step>)
    requires Good(p) && Sound(p) && Release(p, t).error == Ok
    ensures Good(Release(p, t).pool)
    ensures var later := Run(Release(p, t).pool, steps);
      Sound(later) && Release(later, t).error == Stale
  {
    hide Good, Sound, Release, Run, Shaped, Spent;
    ReleaseGood(p, t);
    ReleasedIsSpent(p, t);
    SpentForever(Release(p, t).pool, steps, t);
    SpentRefused(Run(Release(p, t).pool, steps), t);
  }

  // ----- the bytes behind a token -----

  lemma KeepsGeometry(p: Pool, s: Step, t: Token)
    requires Good(p) && Shaped(p) && t in Outstanding(p)
    ensures Sound(p) && Next(p, s).geometry == p.geometry
  {
    hide Good, Sound, Shaped, Start, ThreadStep, Complete, DmaWrite, Stop, Capture, ArmTriggered, TriggeredWrite,
         Outstanding, FindReady, Accepts;
    GoodIsSound(p);
    NextGood(p, s);
    GoodIsSound(Next(p, s));
    match s
    case StartStep(request, reset, arm) => StartTokens(p, request, reset, arm);
    case DequeueStep =>
    case ReleaseStep(token) =>
    case _ => TokensNext(p, s);
  }

  lemma SameSlice(p: Pool, q: Pool, i: nat)
    requires Shaped(p) && Shaped(q) && q.geometry == p.geometry && q.device == p.device
    requires BytesKept(p, q.memory) && i < p.geometry.bankCount && Held(p.banks[i])
    ensures BankBytes(q, i) == BankBytes(p, i)
  {
    hide Offset, FrameOffset;
    assert Slice(p, q.memory, i) == Slice(p, p.memory, i);
  }

  /** While a token is outstanding the bytes of its bank do not change. */
  lemma {:induction false} BytesUntilRelease(p: Pool, steps: seq<Step>, t: Token)
    requires Good(p) && Shaped(p) && t in Outstanding(p)
    ensures var q := Run(p, steps);
      && Shaped(q) && Issued(q, t) && q.device == p.device
      && (t in Outstanding(q) ==> q.geometry == p.geometry && t.bank < p.geometry.bankCount
                                  && BankBytes(q, t.bank) == BankBytes(p, t.bank))
  {
    hide Good, Sound, Next, Outstanding, BankBytes, Offset, FrameOffset;
    OutstandingRange(p, t);
    AcceptsOutstanding(p, t);
    if steps != [] {
      var init, s := steps[..|steps| - 1], steps[|steps| - 1];
      BytesUntilRelease(p, init, t);
      var mid := Run(p, init);
      SpentStays(mid, s, t);
      SameDevice(mid, s);
      if t in Outstanding(Next(mid, s)) {
        NoOverwrite(mid, s);
        KeepsGeometry(mid, s, t);
        AcceptsOutstanding(mid, t);
        SameSlice(mid, Next(mid, s), t.bank);
      }
    }
  }

  // ----- first in, first out -----

  /** The banks a sequence of steps hands out. */
  function Grants(p: Pool, steps: seq<Step>): seq<Grant>
    requires Good(p)
  {
    if steps == [] then []
    else
      var q := Run(p, steps[..|steps| - 1]);
      GoodIsSound(q);
      Grants(p, steps[..|steps| - 1])
      + if steps[|steps| - 1].DequeueStep? && Dequeue(q).1.Got? then [Dequeue(q).1.grant] else []
  }

  /** Between restarts the k-th bank handed out is the next in sequence. */
  lemma {:induction false} DequeuedInOrder(p: Pool, steps: seq<Step>)
    requires Good(p) && forall s | s in steps :: !s.StartStep?
    ensures var q := Run(p, steps);
      && q.ids.runId == p.ids.runId && q.totals.dequeued == p.totals.dequeued + |Grants(p, steps)|
      && forall k | 0 <= k < |Grants(p, steps)| ::
           var g := Grants(p, steps)[k];
           g.Grant? && g.runId == p.ids.runId && g.sequence == p.totals.dequeued + 1 + k
  {
    hide Good, Sound, Start, ThreadStep, Complete, DmaWrite, Dequeue, Release, Stop, Capture, ArmTriggered,
         TriggeredWrite, Outstanding;
    if steps != [] {
      var init, s := steps[..|steps| - 1], steps[|steps| - 1];
      DequeuedInOrder(p, init);
      var q := Run(p, init);
      GoodIsSound(q);
      match s
      case DequeueStep => DequeueTokens(q);
      case ReleaseStep(token) => ReleaseTokens(q, token);
      case _ => TokensNext(q, s);
    }
  }

  /** The n-th bank dequeued in a run carries bank sequence n. */
  lemma RunIsFifo(p: Pool, r: StartRequest, reset: Error, arm: ArmReport, steps: seq<Step>)
    requires Good(p) && Sound(p) && Start(p, r, reset, arm).error == Ok
    requires forall s | s in steps :: !s.StartStep?
    ensures Good(Start(p, r, reset, arm).pool)
    ensures var gs := Grants(Start(p, r, reset, arm).pool, steps);
      forall k | 0 <= k < |gs| :: gs[k].Grant? && gs[k].sequence == k + 1 && gs[k].runId > p.ids.runId
  {
    StartGood(p, r, reset, arm);
    StartTokens(p, r, reset, arm);
    DequeuedInOrder(Start(p, r, reset, arm).pool, steps);
  }
}
