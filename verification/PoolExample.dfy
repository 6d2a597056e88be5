/** A small pool's first bank, from START to READY: two banks of one word each, and a capture whose first sample
    has time zero. */
module PoolExample {
  import opened Crc32
  import opened Protocol
  import opened BankPool
  import opened PoolInvariant
  import opened PoolRun
  import opened PoolTraces

  const SMALL := Device.Device(true, 4, 8)
  const REQUEST := StartRequest(true, 2, true, 1, 1, 0)
  const DRAINED := DrainReport(true, Ok, true, 0, Ok)
  const ARMED := ArmReport(0, Ok, Ok, Ok, [], DRAINED)
  const COMPLETED :=
    FinalReport(Ok, Report(true, 0, true, false, 1, 0, 0, 0, 7, 1, 0, true, true, 0, 0, 9), 0, Ok)
  const WORKS := ThreadReport(DRAINED, 0, Ok, COMPLETED, ARMED)

  /** What matters of the small pool's state. */
  predicate Small(p: Pool, filling: Option<nat>, n: Counts, events: Events, produced: nat, discarded: nat, last: nat) {
    && p.geometry == RequestGeometry(REQUEST) && p.mode.configured && !p.mode.faulted
    && p.mode.stopping == events.stop && p.filling == filling && p.inFlight == (filling.Some? && !events.done)
    && p.n == n && p.events == events
    && p.totals.produced == produced && p.totals.dequeued == 0
    && p.totals.discarded == discarded && p.totals.lastDiscarded == last
  }

  /** Its first bank is filling. */
  predicate FirstFills(p: Pool, events: Events) {
    && Small(p, Some(0), Counts(0, 0, 1), events, 0, 0, 0) && p.mode.running && p.ids.runId == p.ids.nextSequence == 1
    && |p.banks| == MAX_POOL_BANKS && p.banks[0].state == Filling && p.banks[1].state == Free
  }

  /** Its first bank is READY, its second filling. */
  predicate FirstReady(p: Pool) {
    && Small(p, Some(1), Counts(1, 0, 0), NO_EVENTS, 1, 0, 0) && p.mode.running && p.ids.runId == 1
    && |p.banks| == MAX_POOL_BANKS && p.banks[0].state == Ready && p.banks[1].state == Filling
    && p.banks[0].grant == Grant(0, p.banks[0].generation, 0, 4, p.geometry, COMPLETED.report, 1, 1)
  }

  lemma Begins(memory: seq<Byte>)
    requires |memory| == SMALL.bufferBytes && Good(NewPool(SMALL, memory)) && Sound(NewPool(SMALL, memory))
    ensures Start(NewPool(SMALL, memory), REQUEST, Ok, ARMED).error == Ok
    ensures FirstFills(Next(NewPool(SMALL, memory), StartStep(REQUEST, Ok, ARMED)), NO_EVENTS)
  {
    hide Sound, Good, Overwrite, Poison;
    ConfiguredSound(NewPool(SMALL, memory), REQUEST);
    InShape(Configured(NewPool(SMALL, memory), RequestGeometry(REQUEST)));
  }

  lemma Ends(p: Pool)
    requires Sound(p) && FirstFills(p, NO_EVENTS)
    ensures FirstFills(Next(p, Completion), Events(false, true, false))
  {
    hide Sound;
  }

  lemma Finishes(p: Pool)
    requires Sound(p) && FirstFills(p, Events(false, true, false))
    ensures FirstReady(Next(p, Iterate(WORKS)))
  {
    hide Sound, Overwrite, Poison, BankBytes;
    InShape(p);
    var q := p.(events := NO_EVENTS);
    ExchangeSound(p);
    ThreadFinalizeSound(q, true, COMPLETED);
    ThreadArmSound(ThreadFinalize(q, true, COMPLETED), ARMED);
    InShape(ThreadFinalize(q, true, COMPLETED));
  }
}
