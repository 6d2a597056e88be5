/** Every run of the bank pool: accounting, order, tokens and the bytes userspace is reading. */
module PoolTraces {
  import opened Crc32
  import opened Protocol
  import opened BankPool
  import opened PoolInvariant
  import opened PoolRun

  datatype Step =
    | StartStep(request: StartRequest, reset: Error, arm: ArmReport)
    | Iterate(report: ThreadReport)
    | Completion
    | Transfer(frame: nat, at: nat, bytes: seq<Byte>)
    | DequeueStep
    | ReleaseStep(token: Token)
    | StopStep(runId: nat)
    | CaptureStep(capture: CaptureRequest, reset: Error, bytes: seq<Byte>)
    | ArmTriggeredStep(capture: CaptureRequest, reset: Error, kept: bool, bytes: seq<Byte>)
    | TriggeredTransfer(at: nat, bytes: seq<Byte>)
    | TriggeredEnd

  function Next(p: Pool, s: Step): Pool
    requires Sound(p)
  {
    match s
    case StartStep(request, reset, arm) => Start(p, request, reset, arm).pool
    case Iterate(report) => ThreadStep(p, report)
    case Completion => Complete(p)
    case Transfer(frame, at, bytes) => DmaWrite(p, frame, at, bytes)
    case DequeueStep => Dequeue(p).0
    case ReleaseStep(token) => Release(p, token).pool
    case StopStep(runId) => Stop(p, runId).pool
    case CaptureStep(capture, reset, bytes) => Capture(p, capture, reset, bytes)
    case ArmTriggeredStep(capture, reset, kept, bytes) => ArmTriggered(p, capture, reset, kept, bytes)
    case TriggeredTransfer(at, bytes) => TriggeredWrite(p, at, bytes)
    case TriggeredEnd => p.(triggered := None)
  }

  lemma NextGood(p: Pool, s: Step)
    requires Good(p)
    ensures Sound(p) && Good(Next(p, s))
  {
    GoodIsSound(p);
    hide Good, Sound, Start, ThreadStep, Complete, DmaWrite, Dequeue, Release, Stop, Capture, ArmTriggered,
         TriggeredWrite;
    match s
    case StartStep(request, reset, arm) => StartGood(p, request, reset, arm);
    case Iterate(report) => ThreadGood(p, report);
    case Completion => CompleteGood(p);
    case Transfer(frame, at, bytes) => DmaWriteGood(p, frame, at, bytes);
    case DequeueStep => DequeueGood(p);
    case ReleaseStep(token) => ReleaseGood(p, token);
    case StopStep(runId) => StopGood(p, runId);
    case CaptureStep(capture, reset, bytes) => CaptureGood(p, capture, reset, bytes, false);
    case ArmTriggeredStep(capture, reset, kept, bytes) => CaptureGood(p, capture, reset, bytes, kept);
    case TriggeredTransfer(at, bytes) => TriggeredWriteGood(p, at, bytes);
    case TriggeredEnd => TriggeredEndGood(p);
  }

  lemma NewGood(device: Device, memory: seq<Byte>)
    requires |memory| == device.bufferBytes
    ensures Good(NewPool(device, memory))
  {
    hide Offset, FrameOffset;
    assert NewPool(device, memory).geometry.bankCount == 0;
  }

  /** The pool after `steps`, last step last. */
  function Run(p: Pool, steps: seq<Step>): (q: Pool)
    requires Good(p)
    ensures Good(q)
  {
    if steps == [] then p
    else
      var q := Run(p, steps[..|steps| - 1]);
      NextGood(q, steps[|steps| - 1]);
      Next(q, steps[|steps| - 1])
  }

  /** In every reachable state every bank is accounted for, every completed bank is waiting, handed out,
      returned or discarded, and a running pool is not left asleep. */
  lemma EveryStateBalanced(device: Device, memory: seq<Byte>, steps: seq<Step>)
    requires |memory| == device.bufferBytes
    ensures Good(NewPool(device, memory))
    ensures var p := Run(NewPool(device, memory), steps);
      var t := p.totals;
      && p.n.free + p.n.ready + p.n.user + (if p.filling.Some? then 1 else 0) == p.geometry.bankCount
      && t.produced == t.dequeued + p.n.ready + t.discarded && t.dequeued == t.consumed + p.n.user
      && (t.discarded > 0 ==> !p.mode.running && p.n.ready == 0 && p.filling.None?)
      && (p.mode.faulted ==> !p.mode.running)
      && (p.mode.running ==>
            && (p.filling.Some? ==> p.inFlight || p.events.done)
            && (p.filling.None? && p.n.free > 0 ==> p.events.kick))
  {
    NewGood(device, memory);
    var p := Run(NewPool(device, memory), steps);
    hide Offset, FrameOffset, Granted, InRange, Count, Sequenced, AllReady, Intact, Run, NewPool;
    CountAll(p.banks, p.geometry.bankCount);
  }
}
