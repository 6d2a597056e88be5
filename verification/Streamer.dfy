/** qcrate_streamer.c: the acquisition and sender threads over the bank pool, as interleaved steps. Each call
    into the driver, the queue or the packetizer is one step; the kernel and the hardware take steps between. */
module Streamer {
  import opened Crc32
  import opened Protocol
  import opened Packetizer
  import opened BankPool
  import opened PoolInvariant
  import opened PoolRun
  import opened PoolTraces
  import opened SentStream

  /** A sustained run: the options, the profile of every shot and the pool START gave it. */
  datatype Job = Job(profile: Config, dsp: bool, geometry: Geometry, runId: nat)

  /** A bank dequeued. `bytes` is history: what it held then. */
  datatype Taken = Taken(grant: Grant, bytes: seq<Byte>)

  datatype Acquisition =
    Looping | Checking(t: Taken) | Pushing(t: Taken) | Returning(t: Taken, blame: bool) | Failing | Finished

  datatype Sender =
    Popping | Sending(t: Taken) | Settling(t: Taken, sent: bool, next: nat) | Blaming | Ending | Done

  /** Shot id and first sample time of the last bank that passed the checks. */
  datatype Evidence = Evidence(shotId: U32, time: U64)

  /** The context both threads share. `granted` (banks dequeued), `shots` (shots sent and settled), `settled`
      and `returned` (banks given back by each thread) and `wire` (datagrams emitted) are history. */
  datatype Pipe = Pipe(
    pool: Pool, queue: seq<Taken>, producerDone: bool, failed: bool, complete: bool,
    acquisition: Acquisition, sender: Sender, previous: Option<Evidence>,
    acquired: nat, transmitted: nat, packetSequence: nat, lastShot: U32,
    granted: seq<Taken>, shots: seq<SentShot>, settled: nat, returned: nat, wire: seq<Datagram>)

  datatype Action =
    | Kernel(step: Step)
    | Finish(complete: bool)
    | Fail
    | Take
    | Check
    | Wait(idle: bool)
    | Push
    | Return
    | Pop
    | Send(budget: nat)
    | Settle(armed: bool)
    | Blame
    | End(emitted: bool)

  function NewPipe(pool: Pool): Pipe {
    Pipe(pool, [], false, false, false, Looping, Popping, None, 0, 0, 0, 0, [], [], 0, 0, [])
  }

  /** The steps the kernel and the hardware take by themselves. */
  predicate Unasked(s: Step) {
    s.Iterate? || s.Completion? || s.Transfer?
  }

  /** `validate_bank`. */
  predicate BankOk(job: Job, g: Grant)
    requires g.Grant?
  {
    var r := g.report;
    && g.runId == job.runId && g.bank < job.geometry.bankCount && g.geometry == job.geometry
    && g.bytes == job.geometry.bankBytes
    && r.transferred && r.residue == 0 && r.completedFrames == job.geometry.frameCount
    && (job.dsp ==> r.configId == job.profile.configId)
    && r.triggerShotId != 0 && r.triggerCount == 1 && r.triggerSeen && r.firstTimeValid
  }

  predicate Follows(previous: Option<Evidence>, g: Grant)
    requires g.Grant?
  {
    previous.None? || (g.report.triggerShotId > previous.value.shotId && g.report.firstSampleTime > previous.value.time)
  }

  /** `fill_profile` and what `sender_thread` adds to it. */
  function ConfigFor(job: Job, g: Grant, sequence: nat): Config
    requires g.Grant? && sequence <= U64_MAX
  {
    job.profile.(shotId := g.report.triggerShotId, initialSequence := sequence,
                 firstSampleTimestamp := g.report.firstSampleTime, firstSampleTimestampValid := true,
                 endOfStream := false)
  }

  function TokenFor(g: Grant): Token
    requires g.Grant?
  {
    Token(g.bank, g.generation, g.runId, g.sequence)
  }

  /** What the packetizer reads of the mapped buffer. */
  function ReadBank(p: Pool, g: Grant): seq<Byte>
    requires g.Grant? && g.offset + g.bytes <= |p.memory|
  {
    p.memory[g.offset..g.offset + g.bytes]
  }

  // ----- the acquisition thread -----

  function TakeStep(p: Pipe): Pipe
    requires Good(p.pool)
  {
    DequeueGood(p.pool);
    GoodIsSound(p.pool);
    var (pool, d) := Dequeue(p.pool);
    match d
    case Refused(_) => p.(acquisition := Failing)
    case Got(g) =>
      var t := Taken(g, p.pool.banks[g.bank].captured);
      p.(pool := pool, acquisition := Checking(t), granted := p.granted + [t])
  }

  function CheckStep(job: Job, p: Pipe): Pipe
    requires p.acquisition.Checking? && p.acquisition.t.grant.Grant?
  {
    var t := p.acquisition.t;
    if BankOk(job, t.grant) && Follows(p.previous, t.grant) then
      p.(acquisition := Pushing(t),
         previous := Some(Evidence(t.grant.report.triggerShotId, t.grant.report.firstSampleTime)))
    else p.(acquisition := Returning(t, true))
  }

  /** `queue_push`; it waits, here by doing nothing, while the queue is full. */
  function PushStep(p: Pipe): Pipe
    requires p.acquisition.Pushing?
  {
    if p.failed then p.(acquisition := Returning(p.acquisition.t, false))
    else if |p.queue| == p.pool.geometry.bankCount then p
    else p.(queue := p.queue + [p.acquisition.t], acquired := p.acquired + 1, acquisition := Looping)
  }

  function ReturnStep(p: Pipe): Pipe
    requires p.acquisition.Returning? && p.acquisition.t.grant.Grant? && Good(p.pool)
  {
    GoodIsSound(p.pool);
    p.(pool := Release(p.pool, TokenFor(p.acquisition.t.grant)).pool, returned := p.returned + 1,
       acquisition := if p.acquisition.blame then Failing else Finished,
       producerDone := p.producerDone || !p.acquisition.blame)
  }

  // ----- the sender thread -----

  function PopStep(p: Pipe): Pipe {
    if p.failed then p.(sender := Done)
    else if p.queue != [] then p.(sender := Sending(p.queue[0]), queue := p.queue[1..])
    else if p.producerDone then p.(sender := Ending)
    else p
  }

  /** The packetizer on the bank's mapped bytes; `budget` is how many datagrams the socket takes. */
  function SendStep(job: Job, p: Pipe, budget: nat): Pipe
    requires p.sender.Sending? && p.sender.t.grant.Grant? && p.packetSequence <= U64_MAX
    requires p.sender.t.grant.offset + p.sender.t.grant.bytes <= |p.pool.memory|
  {
    var t := p.sender.t;
    var c := ConfigFor(job, t.grant, p.packetSequence);
    var samples := ReadBank(p.pool, t.grant);
    if !Packetizer.Accepts(c, samples) then p.(sender := Settling(t, false, 0))
    else
      var all := Datagrams(c, samples);
      if budget < |all| then p.(sender := Settling(t, false, 0), wire := p.wire + all[..budget])
      else p.(sender := Settling(t, true, p.packetSequence + |all|), wire := p.wire + all)
  }

  /** RELEASE gives the bank back; then, when the pool is running with no DMA, it waits for the next bank to be
      armed and fails if that does not come. */
  function SettleStep(job: Job, p: Pipe, armed: bool): Pipe
    requires p.sender.Settling? && p.sender.t.grant.Grant? && Good(p.pool) && p.packetSequence <= U64_MAX
  {
    GoodIsSound(p.pool);
    var g := p.sender.t.grant;
    var o := Release(p.pool, TokenFor(g));
    var q := p.(pool := o.pool, settled := p.settled + 1);
    if !p.sender.sent || o.error != BankPool.Ok || (WaitsForArm(p.pool) && !armed) then q.(sender := Blaming)
    else
      q.(sender := Popping, packetSequence := p.sender.next, transmitted := p.transmitted + 1,
         lastShot := g.report.triggerShotId,
         shots := p.shots + [SentShot(ConfigFor(job, g, p.packetSequence), p.sender.t.bytes)])
  }

  /** The end of `sender_thread`: the closing heartbeat, unless something is missing. */
  function EndStep(job: Job, p: Pipe, emitted: bool): Pipe
    requires p.packetSequence <= U64_MAX
  {
    if !(p.complete && p.transmitted == p.acquired && p.transmitted > 0) then p.(sender := Done)
    else if p.packetSequence == U64_MAX || job.profile.streamId == 0 || job.profile.runId == 0 || p.lastShot == 0
            || !emitted then p.(sender := Blaming)
    else
      p.(sender := Done, packetSequence := p.packetSequence + 1,
         wire := p.wire + [EndOfStreamDatagram(job.profile.streamId, job.profile.runId, p.lastShot, p.packetSequence)])
  }

  /** What makes the next step well defined. */
  ghost predicate Runnable(p: Pipe) {
    && Good(p.pool) && p.packetSequence <= U64_MAX
    && (p.acquisition.Checking? || p.acquisition.Pushing? || p.acquisition.Returning? ==> p.acquisition.t.grant.Grant?)
    && (p.sender.Sending? || p.sender.Settling? ==>
          p.sender.t.grant.Grant? && p.sender.t.grant.offset + p.sender.t.grant.bytes <= |p.pool.memory|)
  }

  /** One step of either thread or of the kernel; a step that does not apply changes nothing. */
  function Next(job: Job, p: Pipe, a: Action): Pipe
    requires Runnable(p)
  {
    match a
    case Kernel(step) =>
      GoodIsSound(p.pool);
      if Unasked(step) then p.(pool := PoolTraces.Next(p.pool, step)) else p
    case Finish(complete) =>
      if p.acquisition.Looping? then p.(acquisition := Finished, complete := complete, producerDone := true) else p
    case Fail =>
      if p.acquisition.Failing? || p.acquisition.Looping? then
        p.(acquisition := Finished, failed := true, producerDone := true)
      else p
    case Take => if p.acquisition.Looping? then TakeStep(p) else p
    case Check => if p.acquisition.Checking? then CheckStep(job, p) else p
    case Wait(idle) =>
      if p.acquisition.Pushing? && !idle then p.(acquisition := Returning(p.acquisition.t, true)) else p
    case Push => if p.acquisition.Pushing? then PushStep(p) else p
    case Return => if p.acquisition.Returning? then ReturnStep(p) else p
    case Pop => if p.sender.Popping? then PopStep(p) else p
    case Send(budget) => if p.sender.Sending? then SendStep(job, p, budget) else p
    case Settle(armed) => if p.sender.Settling? then SettleStep(job, p, armed) else p
    case Blame => if p.sender.Blaming? then p.(sender := Done, failed := true) else p
    case End(emitted) => if p.sender.Ending? then EndStep(job, p, emitted) else p
  }

  /** The success condition of `run_sustained` once both threads are joined. */
  predicate Succeeded(p: Pipe) {
    && p.acquisition.Finished? && p.sender.Done?
    && !p.failed && p.complete && p.acquired > 0 && p.transmitted == p.acquired
  }
}
