/** A sender run that reports success although its first sample time is zero: the acquisition thread compares
    sample times from the second bank on. The recorder never calls that shot COMPLETE. */
module ZeroTime {
  import opened Crc32
  import opened Protocol
  import opened Packetizer
  import opened BankPool
  import opened PoolInvariant
  import opened PoolRun
  import opened PoolExample
  import opened Streamer
  import opened StreamerDelivery
  import opened SentStream
  import StreamerOwnership
  import PoolTraces

  const PROFILE :=
    Config(FORMAT_IQ_S16_LE, 4, 1, 7, 0, 0, 1, 1, 12_500_000, 1, 200_000_000, 1, 0, 2, 16, 15, 1, 9, 0, true, false)

  function SmallJob(): Job {
    Job(PROFILE, false, RequestGeometry(REQUEST), 1)
  }

  /** One bank is captured, sent and given back, and the threads end. */
  function OneShot(): seq<Action> {
    [Kernel(PoolTraces.Completion), Kernel(PoolTraces.Iterate(WORKS)), Take, Check, Push, Finish(true), Pop, Send(3),
     Settle(true), Pop, End(true)]
  }

  /** The pipeline before action `k`. */
  ghost function At(job: Job, p: Pipe, actions: seq<Action>, k: nat): (q: Pipe)
    requires Inv(job, p) && k <= |actions|
    ensures Inv(job, q) && Runnable(q)
  {
    var q := RunPipe(job, p, actions[..k]);
    NextInv(job, q, Take);
    q
  }

  lemma AtNext(job: Job, p: Pipe, actions: seq<Action>, k: nat)
    requires Inv(job, p) && k < |actions|
    ensures At(job, p, actions, k + 1) == Streamer.Next(job, At(job, p, actions, k), actions[k])
  {
    hide Inv, Runnable, Streamer.Next;
    assert actions[..k + 1][..k] == actions[..k];
  }

  lemma AtEnds(job: Job, p: Pipe, actions: seq<Action>)
    requires Inv(job, p)
    ensures At(job, p, actions, 0) == p && At(job, p, actions, |actions|) == RunPipe(job, p, actions)
  {
    hide Inv, Runnable, Streamer.Next;
    assert actions[..0] == [] && actions[..|actions|] == actions;
  }

  lemma TwoBanks(p: Pipe)
    requires Inv(SmallJob(), p)
    ensures p.pool.geometry.bankCount == 2 && |p.shots| == p.transmitted
  {
    StreamerOwnership.Parts(SmallJob(), p);
    hide StreamerOwnership.Owning, Wired, Delivered, StreamerDelivery.Ascending, Good, Sound;
  }

  // ----- the steps -----

  /** What matters of the pipeline, apart from its pool. */
  predicate Stage(p: Pipe, acquisition: Acquisition, sender: Sender, queue: seq<Taken>, acquired: nat,
                  transmitted: nat)
  {
    && p.acquisition == acquisition && p.sender == sender && p.queue == queue
    && p.acquired == acquired && p.transmitted == transmitted && p.packetSequence <= U64_MAX
    && !p.failed && p.complete == acquisition.Finished? && p.producerDone == acquisition.Finished?
  }

  predicate ZeroBank(t: Taken) {
    && t.grant.Grant? && t.grant.bank == 0 && t.grant.offset == 0 && t.grant.bytes == 4
    && t.grant.geometry == RequestGeometry(REQUEST) && t.grant.report == COMPLETED.report && t.grant.runId == 1
  }

  lemma Takes(job: Job, p: Pipe) returns (t: Taken)
    requires Runnable(p) && FirstReady(p.pool) && Stage(p, Looping, Popping, [], 0, 0) && p.previous.None?
    ensures ZeroBank(t)
    ensures var q := Streamer.Next(job, p, Take); Stage(q, Checking(t), Popping, [], 0, 0) && q.previous.None?
  {
    hide Sound, Runnable;
    OldestFirst(p);
    t := Taken(p.pool.banks[0].grant, p.pool.banks[0].captured);
  }

  lemma OldestFirst(p: Pipe)
    requires FirstReady(p.pool)
    ensures FindReady(p.pool.banks, 2) == 0
  {
    assert FindReady(p.pool.banks, 0) == 0;
    assert FindReady(p.pool.banks, 1) == 0;
  }

  lemma Checks(job: Job, p: Pipe, t: Taken)
    requires Runnable(p) && job == SmallJob() && ZeroBank(t)
    requires Stage(p, Checking(t), Popping, [], 0, 0) && p.previous.None?
    ensures Stage(Streamer.Next(job, p, Check), Pushing(t), Popping, [], 0, 0)
    ensures Streamer.Next(job, p, Check).pool == p.pool
  {
    hide Runnable;
  }

  lemma Queues(job: Job, p: Pipe, t: Taken)
    requires Runnable(p) && Stage(p, Pushing(t), Popping, [], 0, 0) && p.pool.geometry.bankCount == 2
    ensures Stage(Streamer.Next(job, p, Push), Looping, Popping, [t], 1, 0)
  {
    hide Runnable;
  }

  lemma Closes(job: Job, p: Pipe, t: Taken)
    requires Runnable(p) && Stage(p, Looping, Popping, [t], 1, 0)
    ensures Stage(Streamer.Next(job, p, Finish(true)), Finished, Popping, [t], 1, 0)
  {
    hide Runnable;
  }

  lemma Pops(job: Job, p: Pipe, t: Taken)
    requires Runnable(p) && Stage(p, Finished, Popping, [t], 1, 0)
    ensures Stage(Streamer.Next(job, p, Pop), Finished, Sending(t), [], 1, 0)
  {
    hide Runnable;
  }

  lemma Sends(job: Job, p: Pipe, t: Taken) returns (next: nat)
    requires Inv(job, p) && Runnable(p) && job == SmallJob() && ZeroBank(t)
    requires Stage(p, Finished, Sending(t), [], 1, 0)
    ensures Stage(Streamer.Next(job, p, Send(3)), Finished, Settling(t, true, next), [], 1, 0) && next == 3
  {
    FirstSequence(job, p);
    hide Inv, Runnable;
    var c := ConfigFor(job, t.grant, p.packetSequence);
    OnePacket(c, ReadBank(p.pool, t.grant));
    next := p.packetSequence + |Datagrams(c, ReadBank(p.pool, t.grant))|;
  }

  lemma FirstSequence(job: Job, p: Pipe)
    requires Inv(job, p) && p.sender.Sending? && p.transmitted == 0
    ensures p.packetSequence == 0
  {
    hide StreamerOwnership.Owning, StreamerDelivery.Ascending, Delivered;
    assert Flat([]) == [];
  }

  lemma OnePacket(c: Config, samples: seq<Byte>)
    requires ArgumentsOk(c) && c.frameSamples == c.frameCount == 1 && |samples| == 4 && c.initialSequence == 0
    ensures Packetizer.Accepts(c, samples) && |Datagrams(c, samples)| == 3
  {
    assert PacketsPerFrame(c) == 1;
  }

  lemma Settles(job: Job, p: Pipe, t: Taken, next: nat)
    requires Inv(job, p) && Runnable(p) && Stage(p, Finished, Settling(t, true, next), [], 1, 0) && ZeroBank(t)
    requires next <= U64_MAX
    ensures var q := Streamer.Next(job, p, Settle(true));
      && Stage(q, Finished, Popping, [], 1, 1) && q.lastShot == 7 && q.packetSequence == next
      && q.shots == p.shots + [SentShot(ConfigFor(job, t.grant, p.packetSequence), t.bytes)]
  {
    StreamerOwnership.SettleOwning(job, p, true);
    hide Inv, Runnable, Good, Sound, Release, ConfigFor;
  }

  lemma Drains(job: Job, p: Pipe)
    requires Runnable(p) && Stage(p, Finished, Popping, [], 1, 1)
    ensures var q := Streamer.Next(job, p, Pop);
      && Stage(q, Finished, Ending, [], 1, 1) && q.lastShot == p.lastShot && q.shots == p.shots
      && q.packetSequence == p.packetSequence
  {
    hide Runnable;
  }

  lemma Concludes(job: Job, p: Pipe)
    requires Inv(job, p) && Runnable(p) && job == SmallJob() && Stage(p, Finished, Ending, [], 1, 1) && p.lastShot == 7
    requires p.shots != [] && p.packetSequence < U64_MAX
    ensures var q := Streamer.Next(job, p, End(true)); Succeeded(q) && q.shots == p.shots
  {
    hide Inv, Runnable;
  }

  // ----- the run -----

  lemma Walk(job: Job, p: Pipe, actions: seq<Action>)
    requires Inv(job, p)
    ensures forall k | 0 <= k < |actions| ::
      At(job, p, actions, k + 1) == Streamer.Next(job, At(job, p, actions, k), actions[k])
  {
    hide Inv, At, Runnable, Streamer.Next;
    forall k | 0 <= k < |actions|
      ensures At(job, p, actions, k + 1) == Streamer.Next(job, At(job, p, actions, k), actions[k])
    {
      AtNext(job, p, actions, k);
    }
  }

  /** A run that starts from a fresh pool and reports success, with a first sample time of zero. */
  lemma ZeroTimeSucceeds(memory: seq<Byte>) returns (pool: Pool)
    requires |memory| == SMALL.bufferBytes
    ensures Fresh(SmallJob(), pool)
    ensures var q := PipeAfter(SmallJob(), pool, OneShot());
      Succeeded(q) && |q.shots| == 1 && q.shots[0].config.firstSampleTimestamp == 0
  {
    hide Fresh, Inv, RunPipe, FirstFills, Succeeded;
    pool := Started(memory);
    assert Inv(SmallJob(), NewPipe(pool)) by { FreshInv(SmallJob(), pool); }
    OneShotRuns(NewPipe(pool));
  }

  lemma OneShotRuns(p: Pipe)
    requires p == NewPipe(p.pool) && FirstFills(p.pool, NO_EVENTS) && Inv(SmallJob(), p)
    ensures var q := RunPipe(SmallJob(), p, OneShot());
      Succeeded(q) && |q.shots| == 1 && q.shots[0].config.firstSampleTimestamp == 0
  {
    hide Inv, Runnable, Stage, FirstFills, FirstReady, Streamer.Next, At, ZeroBank, RunPipe, Succeeded;
    var job, actions := SmallJob(), OneShot();
    Walk(job, p, actions);
    AtEnds(job, p, actions);
    Captures(job, p, At(job, p, actions, 1), At(job, p, actions, 2));
    var t := Takes(job, At(job, p, actions, 2));
    Checks(job, At(job, p, actions, 3), t);
    TwoBanks(At(job, p, actions, 4));
    Queues(job, At(job, p, actions, 4), t);
    Closes(job, At(job, p, actions, 5), t);
    Pops(job, At(job, p, actions, 6), t);
    SendsAll(p, actions, t);
  }

  /** The sender's half. */
  lemma SendsAll(p: Pipe, actions: seq<Action>, t: Taken)
    requires Inv(SmallJob(), p) && actions == OneShot() && ZeroBank(t)
    requires Stage(At(SmallJob(), p, actions, 7), Finished, Sending(t), [], 1, 0)
    ensures var q := RunPipe(SmallJob(), p, actions);
      Succeeded(q) && |q.shots| == 1 && q.shots[0].config.firstSampleTimestamp == 0
  {
    hide Inv, Runnable, Streamer.Next, At, RunPipe, Succeeded;
    var job := SmallJob();
    Walk(job, p, actions);
    AtEnds(job, p, actions);
    var next := Sends(job, At(job, p, actions, 7), t);
    TwoBanks(At(job, p, actions, 8));
    Settles(job, At(job, p, actions, 8), t, next);
    Drains(job, At(job, p, actions, 9));
    Concludes(job, At(job, p, actions, 10));
  }

  /** The first bank becomes READY; only the pool changes. */
  lemma Captures(job: Job, a: Pipe, b: Pipe, c: Pipe)
    requires a == NewPipe(a.pool) && FirstFills(a.pool, NO_EVENTS) && Runnable(a) && Runnable(b)
    requires b == Streamer.Next(job, a, Kernel(PoolTraces.Completion))
    requires c == Streamer.Next(job, b, Kernel(PoolTraces.Iterate(WORKS)))
    ensures FirstReady(c.pool) && Stage(c, Looping, Popping, [], 0, 0) && c.previous.None?
  {
    GoodIsSound(a.pool);
    GoodIsSound(b.pool);
    hide Good, Sound, FirstFills, FirstReady, PoolTraces.Next;
    Ends(a.pool);
    Finishes(b.pool);
  }

  lemma Started(memory: seq<Byte>) returns (pool: Pool)
    requires |memory| == SMALL.bufferBytes
    ensures Fresh(SmallJob(), pool) && FirstFills(pool, NO_EVENTS)
  {
    hide Good, Sound;
    PoolTraces.NewGood(SMALL, memory);
    var p := NewPool(SMALL, memory);
    GoodIsSound(p);
    Begins(memory);
    pool := Start(p, REQUEST, BankPool.Ok, ARMED).pool;
    StartIsFresh(p, REQUEST, BankPool.Ok, ARMED, PROFILE, false);
    hide Start, Fresh;
  }
}
