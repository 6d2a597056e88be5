/** What the sender thread has put on the wire, in every interleaving, and what a successful run delivers. */
module StreamerDelivery {
  import opened Crc32
  import opened Protocol
  import opened Packetizer
  import opened BankPool
  import opened PoolInvariant
  import opened PoolRun
  import opened PoolOwnership
  import opened Streamer
  import opened StreamerOwnership
  import opened SentStream
  import SentShots

  /** Shots whose sequences follow each other from zero. */
  ghost predicate FromZero(shots: seq<SentShot>) {
    && (forall k | 0 <= k < |shots| :: Packetizer.Accepts(shots[k].config, shots[k].samples))
    && (forall k | 0 <= k < |shots| :: shots[k].config.initialSequence == Before(shots[..k]))
  }

  /** The sequence after `shots`. */
  function Before(shots: seq<SentShot>): nat {
    if shots == [] then 0 else NextSequence(shots)
  }

  /** All their datagrams. */
  ghost function Flat(shots: seq<SentShot>): seq<Datagram>
    requires forall k | 0 <= k < |shots| :: Packetizer.Accepts(shots[k].config, shots[k].samples)
  {
    if shots == [] then []
    else Flat(shots[..|shots| - 1]) + Datagrams(shots[|shots| - 1].config, shots[|shots| - 1].samples)
  }

  /** The k-th datagram carries packet sequence k. */
  predicate Numbered(wire: seq<Datagram>) {
    forall k | 0 <= k < |wire| :: wire[k].Sequence() == k
  }

  lemma NumberedMore(wire: seq<Datagram>, c: Config, samples: seq<Byte>, n: nat)
    requires Numbered(wire) && Packetizer.Accepts(c, samples) && c.initialSequence == |wire|
    requires n <= |Datagrams(c, samples)|
    ensures Numbered(wire + Datagrams(c, samples)[..n])
  {
    hide Packetizer.Accepts, Datagrams;
    var more := wire + Datagrams(c, samples)[..n];
    forall k | 0 <= k < |more|
      ensures more[k].Sequence() == k
    {
      if k >= |wire| {
        SentShots.SequenceAt(c, samples, k - |wire|);
      }
    }
  }

  lemma ShotsMore(shots: seq<SentShot>, c: Config, samples: seq<Byte>)
    requires FromZero(shots) && Packetizer.Accepts(c, samples) && c.initialSequence == Before(shots)
    ensures var more := shots + [SentShot(c, samples)];
      && FromZero(more) && Flat(more) == Flat(shots) + Datagrams(c, samples)
      && Before(more) == Before(shots) + |Datagrams(c, samples)| <= U64_MAX
  {
    var more := shots + [SentShot(c, samples)];
    hide Packetizer.Accepts, Datagrams, DataPackets;
    assert more[..|shots|] == shots;
    forall k | 0 <= k < |more|
      ensures Packetizer.Accepts(more[k].config, more[k].samples) && more[k].config.initialSequence == Before(more[..k])
    {
      if k < |shots| {
        assert more[..k] == shots[..k];
      }
    }
    Room(c, samples);
  }

  lemma Room(c: Config, samples: seq<Byte>)
    requires Packetizer.Accepts(c, samples)
    ensures c.initialSequence + DataPackets(c) + 2 <= U64_MAX && |Datagrams(c, samples)| == DataPackets(c) + 2
  {
  }

  // ----- the invariant -----

  /** How far each thread has come with the banks granted. */
  ghost predicate Paced(p: Pipe) {
    && p.acquired == p.settled + |Handling(p.sender)| + |p.queue|
    && |p.shots| == p.transmitted <= p.settled <= p.transmitted + 1
    && (p.settled > p.transmitted ==> p.sender.Blaming? || (p.sender.Done? && p.failed))
    && (p.acquisition.Returning? && !p.acquisition.blame ==> p.failed)
    && (p.producerDone <==> p.acquisition.Finished?)
    && (p.complete ==> p.acquisition.Finished?)
    && (p.returned > 0 ==> p.acquisition.Failing? || (p.acquisition.Finished? && p.failed))
    && (p.sender.Ending? || (p.sender.Done? && !p.failed) ==> p.producerDone)
  }

  /** The shots sent are the first banks granted, with their bytes. */
  ghost predicate Delivered(job: Job, p: Pipe) {
    && |p.shots| <= |p.granted|
    && forall k | 0 <= k < |p.shots| ::
         && p.granted[k].grant.Grant? && p.shots[k].config.initialSequence <= U64_MAX
         && p.shots[k]
            == SentShot(ConfigFor(job, p.granted[k].grant, p.shots[k].config.initialSequence), p.granted[k].bytes)
  }

  ghost predicate EndSent(job: Job, p: Pipe)
    requires FromZero(p.shots)
  {
    && p.packetSequence == |p.wire| && |p.wire| == |Flat(p.shots)| + 1
    && Before(p.shots) <= U64_MAX && job.profile.streamId != 0 && job.profile.runId != 0
    && p.wire == Flat(p.shots)
                 + [EndOfStreamDatagram(job.profile.streamId, job.profile.runId, p.lastShot, Before(p.shots))]
  }

  ghost predicate Wired(job: Job, p: Pipe) {
    && FromZero(p.shots) && Numbered(p.wire) && p.packetSequence <= U64_MAX
    && |Flat(p.shots)| == Before(p.shots)
    && (p.shots != [] ==> p.lastShot as nat == p.shots[|p.shots| - 1].config.shotId)
    && match p.sender
       case Popping | Sending(_) | Ending => p.wire == Flat(p.shots) && p.packetSequence == |p.wire|
       case Settling(t, sent, next) =>
         && p.packetSequence == Before(p.shots)
         && (sent ==>
               && t.grant.Grant?
               && (var c := ConfigFor(job, t.grant, p.packetSequence);
                   && Packetizer.Accepts(c, t.bytes)
                   && p.wire == Flat(p.shots) + Datagrams(c, t.bytes) && next == |p.wire|))
       case Blaming => true
       case Done =>
         p.failed || EndSent(job, p) || !(p.complete && p.transmitted == p.acquired && p.transmitted > 0)
  }

  /** Banks that passed the acquisition thread's checks have increasing evidence. */
  function Checked(p: Pipe): nat {
    p.acquired + if p.acquisition.Pushing? then 1 else 0
  }

  predicate Later(g: Grant, h: Grant) {
    g.Grant? && h.Grant? && g.report.triggerShotId < h.report.triggerShotId
    && g.report.firstSampleTime < h.report.firstSampleTime
  }

  ghost predicate Ascending(job: Job, p: Pipe) {
    && Checked(p) <= |p.granted|
    && (forall k | 0 <= k < Checked(p) :: p.granted[k].grant.Grant? && BankOk(job, p.granted[k].grant))
    && (forall k | 0 < k < Checked(p) :: Later(p.granted[k - 1].grant, p.granted[k].grant))
    && (p.acquisition.Looping? || p.acquisition.Checking? || p.acquisition.Pushing? ==>
          if Checked(p) == 0 then p.previous == None
          else
            var r := p.granted[Checked(p) - 1].grant.report;
            p.previous == Some(Evidence(r.triggerShotId, r.firstSampleTime)))
  }

  // ----- what each step keeps -----

  /** The bank the acquisition thread holds is the next after those it has queued. */
  lemma AcquiringNext(job: Job, p: Pipe)
    requires Owning(job, p) && Paced(p) && Acquiring(p.acquisition) != []
    ensures p.acquired < |p.granted| && p.granted[p.acquired] == Acquiring(p.acquisition)[0]
  {
    Parts(job, p);
    hide Owning, SameRun, Good, Sound, Holding;
    PlayedAt(job, p, |InPlay(p)| - 1);
  }

  /** The bank the sender holds is the next after those it has settled. */
  lemma HandlingNext(job: Job, p: Pipe)
    requires Owning(job, p) && Handling(p.sender) != []
    ensures p.settled < |p.granted| && p.granted[p.settled] == p.sender.t && Genuine(job, p.sender.t, p.settled)
    ensures Untouched(p, p.sender.t)
  {
    Parts(job, p);
    assert InPlay(p)[0] == p.sender.t;
    hide Owning, SameRun, Good, Sound, Outstanding;
    PlayedAt(job, p, 0);
  }

  /** Everything but the ownership of the banks. */
  ghost predicate Progress(job: Job, p: Pipe) {
    Paced(p) && Delivered(job, p) && Wired(job, p) && Ascending(job, p)
  }

  lemma SameDelivered(job: Job, p: Pipe, q: Pipe)
    requires Delivered(job, p) && q.shots == p.shots && p.granted <= q.granted
    ensures Delivered(job, q)
  {
    hide ConfigFor;
  }

  lemma SameWired(job: Job, p: Pipe, q: Pipe)
    requires Wired(job, p) && q.shots == p.shots && q.wire == p.wire && q.packetSequence == p.packetSequence
    requires q.lastShot == p.lastShot && q.sender == p.sender
    requires p.sender.Done? ==>
      q.failed || (p.complete == q.complete && p.transmitted == q.transmitted && p.acquired == q.acquired)
    requires p.failed ==> q.failed
    ensures Wired(job, q)
  {
    hide FromZero, Numbered, Flat, Before, ConfigFor, Packetizer.Accepts, Datagrams;
  }

  lemma SameAscending(job: Job, p: Pipe, q: Pipe)
    requires Ascending(job, p) && Checked(q) <= Checked(p) && p.granted <= q.granted
    requires q.acquisition.Looping? || q.acquisition.Checking? || q.acquisition.Pushing? ==>
      && q.previous == p.previous && Checked(q) == Checked(p)
      && (p.acquisition.Looping? || p.acquisition.Checking? || p.acquisition.Pushing?)
    ensures Ascending(job, q)
  {
    hide BankOk, Later;
  }

  lemma FinishProgress(job: Job, p: Pipe, complete: bool)
    requires Progress(job, p) && p.acquisition.Looping?
    ensures Progress(job, p.(acquisition := Finished, complete := complete, producerDone := true))
  {
    var q := p.(acquisition := Finished, complete := complete, producerDone := true);
    hide Wired, Delivered, Ascending;
    SameDelivered(job, p, q);
    SameWired(job, p, q);
    SameAscending(job, p, q);
  }

  lemma FailProgress(job: Job, p: Pipe)
    requires Progress(job, p) && (p.acquisition.Failing? || p.acquisition.Looping?)
    ensures Progress(job, p.(acquisition := Finished, failed := true, producerDone := true))
  {
    var q := p.(acquisition := Finished, failed := true, producerDone := true);
    hide Wired, Delivered, Ascending;
    SameDelivered(job, p, q);
    SameWired(job, p, q);
    SameAscending(job, p, q);
  }

  lemma TakeProgress(job: Job, p: Pipe)
    requires Progress(job, p) && Good(p.pool) && p.acquisition.Looping?
    ensures Progress(job, TakeStep(p))
  {
    hide Wired, Delivered, Ascending, Good, Dequeue;
    var q := TakeStep(p);
    SameDelivered(job, p, q);
    SameWired(job, p, q);
    SameAscending(job, p, q);
  }

  lemma CheckProgress(job: Job, p: Pipe)
    requires Progress(job, p) && Owning(job, p) && p.acquisition.Checking? && p.acquisition.t.grant.Grant?
    ensures Progress(job, CheckStep(job, p))
  {
    hide Wired, Delivered, Ascending, Owning, BankOk, Follows;
    AcquiringNext(job, p);
    var q := CheckStep(job, p);
    SameDelivered(job, p, q);
    SameWired(job, p, q);
    if q.acquisition.Pushing? {
      AscendingNext(job, p, q);
    } else {
      SameAscending(job, p, q);
    }
  }

  lemma AscendingNext(job: Job, p: Pipe, q: Pipe)
    requires Ascending(job, p) && p.acquisition.Checking? && p.acquired < |p.granted|
    requires q.acquisition.Pushing? && q.acquired == p.acquired && q.granted == p.granted
    requires var g := p.granted[p.acquired].grant;
      && g.Grant? && BankOk(job, g) && Follows(p.previous, g)
      && q.previous == Some(Evidence(g.report.triggerShotId, g.report.firstSampleTime))
    ensures Ascending(job, q)
  {
    hide BankOk;
  }

  lemma WaitProgress(job: Job, p: Pipe)
    requires Progress(job, p) && p.acquisition.Pushing?
    ensures Progress(job, p.(acquisition := Returning(p.acquisition.t, true)))
  {
    var q := p.(acquisition := Returning(p.acquisition.t, true));
    hide Wired, Delivered, Ascending;
    SameDelivered(job, p, q);
    SameWired(job, p, q);
    SameAscending(job, p, q);
  }

  lemma PushProgress(job: Job, p: Pipe)
    requires Progress(job, p) && p.acquisition.Pushing?
    ensures Progress(job, PushStep(p))
  {
    var q := PushStep(p);
    hide Wired, Delivered, Ascending;
    SameDelivered(job, p, q);
    SameWired(job, p, q);
    SameAscending(job, p, q);
  }

  lemma ReturnProgress(job: Job, p: Pipe)
    requires Progress(job, p) && Good(p.pool) && p.acquisition.Returning? && p.acquisition.t.grant.Grant?
    ensures Progress(job, ReturnStep(p))
  {
    hide Wired, Delivered, Ascending, Good, Release;
    var q := ReturnStep(p);
    SameDelivered(job, p, q);
    SameWired(job, p, q);
    SameAscending(job, p, q);
  }

  lemma PopProgress(job: Job, p: Pipe)
    requires Progress(job, p) && p.sender.Popping?
    ensures Progress(job, PopStep(p))
  {
    var q := PopStep(p);
    hide Wired, Delivered, Ascending;
    SameDelivered(job, p, q);
    PopWired(job, p);
    SameAscending(job, p, q);
  }

  lemma PopWired(job: Job, p: Pipe)
    requires Wired(job, p) && p.sender.Popping?
    ensures Wired(job, PopStep(p))
  {
    hide FromZero, Numbered, Flat, Before, ConfigFor, Packetizer.Accepts, Datagrams;
  }

  lemma SendProgress(job: Job, p: Pipe, budget: nat)
    requires Progress(job, p) && Owning(job, p) && p.sender.Sending? && p.sender.t.grant.Grant?
    requires p.packetSequence <= U64_MAX
    requires p.sender.t.grant.offset + p.sender.t.grant.bytes <= |p.pool.memory|
    ensures Progress(job, SendStep(job, p, budget))
  {
    hide Wired, Delivered, Ascending, Owning, ReadBank, ConfigFor, Packetizer.Accepts, Datagrams, Untouched, Genuine;
    var q := SendStep(job, p, budget);
    HandlingNext(job, p);
    SendWired(job, p, budget);
    SameDelivered(job, p, q);
    SameAscending(job, p, q);
  }

  lemma SendWired(job: Job, p: Pipe, budget: nat)
    requires Wired(job, p) && p.sender.Sending? && p.sender.t.grant.Grant?
    requires Untouched(p, p.sender.t)
    ensures Wired(job, SendStep(job, p, budget))
  {
    hide FromZero, Numbered, Flat, Before, ReadBank, ConfigFor, Packetizer.Accepts, Datagrams;
    var t := p.sender.t;
    var c := ConfigFor(job, t.grant, p.packetSequence);
    if Packetizer.Accepts(c, t.bytes) {
      SendNumbered(job, t.grant, t.bytes, p.wire, budget);
    }
  }

  /** Whatever of a shot's datagrams is sent continues the numbers on the wire. */
  lemma SendNumbered(job: Job, g: Grant, samples: seq<Byte>, wire: seq<Datagram>, budget: nat)
    requires Numbered(wire) && g.Grant? && |wire| <= U64_MAX
    requires Packetizer.Accepts(ConfigFor(job, g, |wire|), samples)
    ensures var all := Datagrams(ConfigFor(job, g, |wire|), samples);
      Numbered(wire + if budget < |all| then all[..budget] else all)
  {
    hide Numbered, Packetizer.Accepts, Datagrams;
    var c := ConfigFor(job, g, |wire|);
    var all := Datagrams(c, samples);
    NumberedMore(wire, c, samples, if budget < |all| then budget else |all|);
    assert all[..|all|] == all;
  }

  lemma SettleProgress(job: Job, p: Pipe, armed: bool)
    requires Progress(job, p) && Owning(job, p) && p.sender.Settling? && p.sender.t.grant.Grant? && Good(p.pool)
    requires Sound(p.pool) && Release(p.pool, TokenFor(p.sender.t.grant)).error == BankPool.Ok
    requires p.packetSequence <= U64_MAX
    ensures Progress(job, SettleStep(job, p, armed))
  {
    hide Wired, Delivered, Ascending, Owning, ConfigFor, Untouched, Genuine, Good, Sound, Release;
    var q := SettleStep(job, p, armed);
    HandlingNext(job, p);
    SettleDelivered(job, p, armed);
    SettleWired(job, p, armed);
    SameAscending(job, p, q);
  }

  lemma SettleDelivered(job: Job, p: Pipe, armed: bool)
    requires Delivered(job, p) && p.sender.Settling? && p.sender.t.grant.Grant? && Good(p.pool)
    requires p.packetSequence <= U64_MAX
    requires |p.shots| < |p.granted| && p.granted[|p.shots|] == p.sender.t
    ensures Delivered(job, SettleStep(job, p, armed))
  {
    hide Good, Sound, Release;
  }

  lemma SettleWired(job: Job, p: Pipe, armed: bool)
    requires Wired(job, p) && p.sender.Settling? && p.sender.t.grant.Grant? && Good(p.pool)
    requires Sound(p.pool) && Release(p.pool, TokenFor(p.sender.t.grant)).error == BankPool.Ok
    ensures Wired(job, SettleStep(job, p, armed))
  {
    hide FromZero, Numbered, Before, Good, Sound, Release, Packetizer.Accepts, Datagrams, Flat, Wired, ConfigFor;
    WiredSequence(job, p);
    var q := SettleStep(job, p, armed);
    if q.sender.Popping? {
      SentWired(job, p, q);
    } else {
      UnsentWired(job, p, q);
    }
  }

  lemma WiredSequence(job: Job, p: Pipe)
    requires Wired(job, p)
    ensures p.packetSequence <= U64_MAX
  {
    hide FromZero, Numbered, Flat, Before, ConfigFor, Packetizer.Accepts, Datagrams;
  }

  lemma UnsentWired(job: Job, p: Pipe, q: Pipe)
    requires Wired(job, p) && p.sender.Settling? && q.sender.Blaming? && q.shots == p.shots && q.wire == p.wire
    requires q.packetSequence == p.packetSequence && q.lastShot == p.lastShot
    ensures Wired(job, q)
  {
    hide FromZero, Numbered, Flat, Before, ConfigFor, Packetizer.Accepts, Datagrams;
  }

  lemma SentWired(job: Job, p: Pipe, q: Pipe)
    requires Wired(job, p) && p.sender.Settling? && p.sender.sent && p.sender.t.grant.Grant?
             && p.packetSequence <= U64_MAX
    requires q.sender.Popping? && q.packetSequence == p.sender.next && q.wire == p.wire
    requires q.lastShot == p.sender.t.grant.report.triggerShotId
    requires q.shots == p.shots + [SentShot(ConfigFor(job, p.sender.t.grant, p.packetSequence), p.sender.t.bytes)]
    ensures Wired(job, q)
  {
    hide FromZero, Numbered, Before, Packetizer.Accepts, Datagrams, Flat;
    ShotsMore(p.shots, ConfigFor(job, p.sender.t.grant, p.packetSequence), p.sender.t.bytes);
  }

  lemma BlameProgress(job: Job, p: Pipe)
    requires Progress(job, p) && p.sender.Blaming?
    ensures Progress(job, p.(sender := Done, failed := true))
  {
    hide Flat, FromZero, Numbered, BankOk, Later, Before, ConfigFor;
  }

  lemma EndProgress(job: Job, p: Pipe, emitted: bool)
    requires Progress(job, p) && p.sender.Ending?
    ensures Progress(job, EndStep(job, p, emitted))
  {
    hide FromZero, BankOk, Later, Before, ConfigFor, Flat;
  }

  lemma KernelProgress(job: Job, p: Pipe, pool: Pool)
    requires Progress(job, p)
    ensures Progress(job, p.(pool := pool))
  {
    hide Wired, Delivered, Ascending;
    SameDelivered(job, p, p.(pool := pool));
    SameWired(job, p, p.(pool := pool));
    SameAscending(job, p, p.(pool := pool));
  }

  lemma InSequence(job: Job, p: Pipe)
    requires Progress(job, p)
    ensures p.packetSequence <= U64_MAX
  {
    hide FromZero, Numbered, Flat, Before, ConfigFor, Delivered, Ascending, Paced;
  }

  ghost predicate Inv(job: Job, p: Pipe) {
    Owning(job, p) && Progress(job, p)
  }

  /** Every step of either thread and of the kernel keeps the invariant. */
  lemma NextInv(job: Job, p: Pipe, a: Action)
    requires Inv(job, p)
    ensures Runnable(p) && Inv(job, Streamer.Next(job, p, a))
  {
    InSequence(job, p);
    NextOwning(job, p, a);
    hide Owning, Progress, Good, TakeStep, CheckStep, PushStep, ReturnStep, PopStep, SendStep, SettleStep, EndStep,
         PoolTraces.Next;
    match a
    case Kernel(step) =>
      if Unasked(step) {
        KernelProgress(job, p, Streamer.Next(job, p, a).pool);
      }
    case Finish(complete) => if p.acquisition.Looping? { FinishProgress(job, p, complete); }
    case Fail => if p.acquisition.Failing? || p.acquisition.Looping? { FailProgress(job, p); }
    case Take => if p.acquisition.Looping? { TakeProgress(job, p); }
    case Check => if p.acquisition.Checking? { CheckProgress(job, p); }
    case Wait(idle) => if p.acquisition.Pushing? { WaitProgress(job, p); }
    case Push => if p.acquisition.Pushing? { PushProgress(job, p); }
    case Return => if p.acquisition.Returning? { ReturnProgress(job, p); }
    case Pop => if p.sender.Popping? { PopProgress(job, p); }
    case Send(budget) => if p.sender.Sending? { SendProgress(job, p, budget); }
    case Settle(armed) =>
      if p.sender.Settling? {
        SettleOwning(job, p, armed);
        SettleProgress(job, p, armed);
      }
    case Blame => if p.sender.Blaming? { BlameProgress(job, p); }
    case End(emitted) => if p.sender.Ending? { EndProgress(job, p, emitted); }
  }

  /** The pipeline as `run_sustained` starts it on a pool it has just started. */
  ghost predicate Fresh(job: Job, pool: Pool) {
    && Good(pool) && pool.ids.runId == job.runId && pool.geometry == job.geometry && pool.totals.dequeued == 0
    && (GoodIsSound(pool); InShape(pool); Outstanding(pool) == {})
  }

  /** A START that succeeds gives such a pool. */
  lemma StartIsFresh(p: Pool, r: StartRequest, reset: Error, arm: ArmReport, profile: Config, dsp: bool)
    requires Good(p) && Sound(p) && Start(p, r, reset, arm).error == BankPool.Ok
    ensures var q := Start(p, r, reset, arm).pool; Fresh(Job(profile, dsp, q.geometry, q.ids.runId), q)
  {
    hide Good, Sound, Start, Outstanding, Undisturbed;
    StartGood(p, r, reset, arm);
    StartTokens(p, r, reset, arm);
    NotUndisturbed(p, Start(p, r, reset, arm).pool);
  }

  lemma NotUndisturbed(p: Pool, q: Pool)
    requires Sound(p) && Sound(q) && p.ids.runId < q.ids.runId
    ensures !Undisturbed(p, q)
  {
    hide Sound;
  }

  lemma FreshInv(job: Job, pool: Pool)
    requires Fresh(job, pool)
    ensures Inv(job, NewPipe(pool))
  {
    GoodIsSound(pool);
    InShape(pool);
    hide Good, Sound, Shaped, Outstanding;
    assert InPlay(NewPipe(pool)) == [];
    assert Tokens([]) == {};
  }

  /** The pipeline after `actions`, last action last. */
  ghost function RunPipe(job: Job, p: Pipe, actions: seq<Action>): (q: Pipe)
    requires Inv(job, p)
    ensures Inv(job, q)
  {
    if actions == [] then p
    else
      var q := RunPipe(job, p, actions[..|actions| - 1]);
      NextInv(job, q, actions[|actions| - 1]);
      Streamer.Next(job, q, actions[|actions| - 1])
  }

  /** The banks queued and held are distinct, they are exactly the banks userspace owns, in the order they were
      completed, with the bytes they were completed with; the queue has room for the next one; and the k-th
      datagram on the wire carries packet sequence k. */
  ghost predicate Orderly(job: Job, p: Pipe) {
    && Shaped(p.pool) && Outstanding(p.pool) == Tokens(InPlay(p))
    && p.settled + |InPlay(p)| <= |p.granted|
    && InPlay(p) == p.granted[p.settled..p.settled + |InPlay(p)|]
    && (forall i | 0 <= i < |InPlay(p)| ::
          Genuine(job, InPlay(p)[i], p.settled + i) && Untouched(p, InPlay(p)[i]))
    && (forall i, j | 0 <= i < j < |InPlay(p)| :: InPlay(p)[i].grant.bank != InPlay(p)[j].grant.bank)
    && (p.acquisition.Pushing? ==> |p.queue| < p.pool.geometry.bankCount)
    && Numbered(p.wire)
  }

  lemma InvOrderly(job: Job, p: Pipe)
    requires Inv(job, p)
    ensures Orderly(job, p)
  {
    hide Owning, Good, Sound, SameRun, Outstanding, Tokens, Genuine, Untouched, Progress, Shaped, Numbered, InPlay;
    Parts(job, p);
    forall i | 0 <= i < |InPlay(p)|
      ensures Genuine(job, InPlay(p)[i], p.settled + i) && Untouched(p, InPlay(p)[i])
      ensures InPlay(p)[i].grant.Grant?
    {
      PlayedAt(job, p, i);
      GenuineGrant(job, InPlay(p)[i], p.settled + i);
    }
    forall i, j | 0 <= i < j < |InPlay(p)|
      ensures InPlay(p)[i].grant.bank != InPlay(p)[j].grant.bank
    {
      DistinctBanks(job, p, i, j);
    }
    if p.acquisition.Pushing? {
      PushNeverWaits(job, p);
    }
    WireNumbered(job, p);
  }

  /** The pipeline a START gives, after any interleaving of the threads, the kernel and the hardware. */
  ghost function PipeAfter(job: Job, pool: Pool, actions: seq<Action>): (q: Pipe)
    requires Fresh(job, pool)
    ensures Inv(job, q)
  {
    FreshInv(job, pool);
    RunPipe(job, NewPipe(pool), actions)
  }

  /** However the threads, the kernel and the hardware interleave. */
  lemma EveryInterleaving(job: Job, pool: Pool, actions: seq<Action>)
    requires Fresh(job, pool)
    ensures Orderly(job, PipeAfter(job, pool, actions))
  {
    hide Inv, Orderly, PipeAfter, Fresh;
    InvOrderly(job, PipeAfter(job, pool, actions));
  }

  lemma WireNumbered(job: Job, p: Pipe)
    requires Progress(job, p)
    ensures Numbered(p.wire)
  {
    hide FromZero, Numbered, Flat, Before, ConfigFor, Delivered, Ascending, Paced;
  }

  // ----- a successful run -----

  /** What a bank shows before it is sent: of this run, transferred whole, one trigger seen and timed, and a sender in
      DSP mode finds the profile's configuration in it. */
  predicate Evident(job: Job, g: Grant)
    requires g.Grant?
  {
    var r := g.report;
    && g.runId == job.runId && g.bytes == job.geometry.bankBytes
    && r.transferred && r.residue == 0 && r.completedFrames == job.geometry.frameCount
    && r.triggerShotId >= 1 && r.triggerCount == 1 && r.triggerSeen && r.firstTimeValid
    && (job.dsp ==> r.configId == job.profile.configId)
  }

  /** A shot is sent under the job's profile and the bank's shot id and time. */
  predicate SentAs(c: Config, job: Job, g: Grant)
    requires g.Grant?
  {
    && c.shotId == g.report.triggerShotId && c.firstSampleTimestamp == g.report.firstSampleTime
    && c.firstSampleTimestampValid && !c.endOfStream
    && c.streamId == job.profile.streamId && c.runId == job.profile.runId
    && c.frameCount == job.profile.frameCount && SameProfile(c, job.profile)
  }

  /** When `run_sustained` reports success, every bank it dequeued was sent once, in order, with the bytes the
      DMA left in it, and given back; the wire is their datagrams and the closing heartbeat, nothing else. */
  lemma SuccessDelivers(job: Job, p: Pipe)
    requires Inv(job, p) && Succeeded(p)
    ensures FromZero(p.shots) && |p.shots| == |p.granted| == p.acquired
    ensures forall k | 0 <= k < |p.shots| ::
      && p.granted[k].grant.Grant? && p.granted[k].grant.sequence == k + 1
      && p.shots[k].samples == p.granted[k].bytes
      && SentAs(p.shots[k].config, job, p.granted[k].grant) && Evident(job, p.granted[k].grant)
    ensures Shaped(p.pool) && Outstanding(p.pool) == {}
    ensures p.shots != [] && EndSent(job, p)
  {
    hide Owning, Good, Sound, SameRun, Outstanding, Tokens, Shaped, FromZero, Flat, Numbered, Before, BankOk, Later,
         Evident;
    Parts(job, p);
    assert InPlay(p) == [];
    NoTokensIn();
    forall k | 0 <= k < |p.shots|
      ensures p.granted[k].grant.Grant? && p.granted[k].grant.sequence == k + 1
      ensures BankOk(job, p.granted[k].grant) && Evident(job, p.granted[k].grant)
    {
      GrantedAt(job, p, k);
      OkEvident(job, p.granted[k].grant);
    }
  }

  lemma OkEvident(job: Job, g: Grant)
    requires g.Grant? && BankOk(job, g)
    ensures Evident(job, g)
  {
  }

  lemma NoTokensIn()
    ensures Tokens([]) == {}
  {
  }

  lemma GrantedAt(job: Job, p: Pipe, k: nat)
    requires SameRun(job, p) && k < |p.granted|
    ensures p.granted[k].grant.Grant? && p.granted[k].grant.sequence == k + 1
  {
    hide Good, Acceptable, BankPool.Offset;
    assert Genuine(job, p.granted[k], k);
  }

  /** The stream such a run sends is one the recorder's promises are about. */
  lemma SuccessConforms(job: Job, p: Pipe)
    requires Inv(job, p) && Succeeded(p)
    ensures Conforming(p.shots)
  {
    hide Inv, Succeeded, Packetizer.Accepts, DataPackets, Flat, EndSent, Outstanding, Shaped, FromZero, Before;
    SuccessDelivers(job, p);
    AscendingShots(job, p);
    forall k | 0 <= k < |p.shots|
      ensures Packetizer.Accepts(p.shots[k].config, p.shots[k].samples)
      ensures k > 0 ==>
        p.shots[k].config.initialSequence == AfterShot(p.shots[k - 1])
    {
      ChainedShot(p.shots, k);
    }
  }

  function AfterShot(s: SentShot): nat {
    s.config.initialSequence + DataPackets(s.config) + 2
  }

  lemma ChainedShot(shots: seq<SentShot>, k: nat)
    requires FromZero(shots) && k < |shots|
    ensures Packetizer.Accepts(shots[k].config, shots[k].samples)
    ensures k > 0 ==>
      shots[k].config.initialSequence == AfterShot(shots[k - 1])
  {
    hide Packetizer.Accepts, DataPackets;
    if k > 0 {
      assert shots[..k][|shots[..k]| - 1] == shots[k - 1];
    }
  }

  lemma AscendingShots(job: Job, p: Pipe)
    requires Inv(job, p) && Succeeded(p)
    ensures forall k | 0 <= k < |p.shots| ::
      && p.shots[k].config == job.profile.(shotId := p.shots[k].config.shotId,
                                           initialSequence := p.shots[k].config.initialSequence,
                                           firstSampleTimestamp := p.shots[k].config.firstSampleTimestamp,
                                           firstSampleTimestampValid := true, endOfStream := false)
    ensures forall k | 0 < k < |p.shots| ::
      && p.shots[k - 1].config.shotId < p.shots[k].config.shotId
      && p.shots[k - 1].config.firstSampleTimestamp < p.shots[k].config.firstSampleTimestamp
    ensures forall k | 0 < k < |p.shots| :: p.shots[k].config.firstSampleTimestamp > 0
  {
    hide Owning, FromZero, Flat, Numbered, Before, BankOk, Packetizer.Accepts, EndSent;
    forall k | 0 < k < |p.shots|
      ensures p.shots[k - 1].config.shotId < p.shots[k].config.shotId
      ensures p.shots[k - 1].config.firstSampleTimestamp < p.shots[k].config.firstSampleTimestamp
    {
      assert Later(p.granted[k - 1].grant, p.granted[k].grant);
    }
    forall k | 0 < k < |p.shots|
      ensures p.shots[k].config.firstSampleTimestamp > 0
    {
      assert p.shots[k - 1].config.firstSampleTimestamp < p.shots[k].config.firstSampleTimestamp;
    }
  }
}
