/** Pulse sequences: what a list of pulses and a table of state transitions mean, tick by tick, and why the
    table is a normal form. */
module Waveform {
  import opened Protocol

  const MIN_EVENTS := 2
  const MAX_EVENTS := 128
  const OUTPUT_MASK := 3

  /** A pulse as the document gives it: any integers. */
  datatype Pulse = Pulse(channel: int, start: int, duration: int)

  datatype Event = Event(timestamp: U64, state: U32, flags: U32)

  // ----- pulses -----

  predicate Legal(p: Pulse) {
    0 <= p.channel <= 1 && 0 <= p.start <= U64_MAX && 0 < p.duration <= U64_MAX - p.start
  }

  /** The half-open stretch of a pulse. */
  predicate During(p: Pulse, t: nat) {
    p.start <= t < p.start + p.duration
  }

  predicate Covered(pulses: seq<Pulse>, channel: int, t: nat) {
    exists p | p in pulses :: p.channel == channel && During(p, t)
  }

  /** Two pulses that drive the same output at the same time. */
  predicate Overlap(p: Pulse, q: Pulse) {
    p.channel == q.channel && p.start < q.start + q.duration && q.start < p.start + p.duration
  }

  predicate Disjoint(pulses: seq<Pulse>) {
    forall i, j | 0 <= i < j < |pulses| :: !Overlap(pulses[i], pulses[j])
  }

  /** The same outputs are asked for at every tick. */
  ghost predicate SameWave(p: seq<Pulse>, q: seq<Pulse>) {
    forall t: nat :: (Covered(p, 0, t) <==> Covered(q, 0, t)) && (Covered(p, 1, t) <==> Covered(q, 1, t))
  }

  // ----- tables -----

  /** The outputs a table drives at tick `t`: those of the last event up to then, and low before the first. */
  function LevelAt(events: seq<Event>, t: nat): U32 {
    if events == [] then 0
    else if events[|events| - 1].timestamp <= t then events[|events| - 1].state
    else LevelAt(events[..|events| - 1], t)
  }

  function StateBefore(events: seq<Event>, i: nat): U32
    requires i <= |events|
  {
    if i == 0 then 0 else events[i - 1].state
  }

  /** Event `i` may follow those before it. */
  predicate Proper(events: seq<Event>, i: nat)
    requires i < |events|
  {
    var e := events[i];
    && (i > 0 ==> events[i - 1].timestamp < e.timestamp)
    && e.state <= OUTPUT_MASK && e.flags == 0 && e.state != StateBefore(events, i)
  }

  predicate AllProper(events: seq<Event>) {
    forall i | 0 <= i < |events| :: Proper(events, i)
  }

  /** A table in normal form that ends with both outputs low. */
  predicate Canonical(events: seq<Event>) {
    AllProper(events) && StateBefore(events, |events|) == 0
  }

  /** What `validate_events` accepts. */
  predicate Valid(events: seq<Event>) {
    MIN_EVENTS <= |events| <= MAX_EVENTS && Canonical(events)
  }

  /** The table drives what the pulses ask for, at every tick: channel 0 on bit 0, channel 1 on bit 1. */
  ghost predicate Means(events: seq<Event>, pulses: seq<Pulse>) {
    forall t: nat ::
      && (LevelAt(events, t) % 2 == 1 <==> Covered(pulses, 0, t))
      && (LevelAt(events, t) / 2 % 2 == 1 <==> Covered(pulses, 1, t))
      && LevelAt(events, t) / 4 == 0
  }

  // ----- the normal form -----

  lemma {:induction false} Increasing(events: seq<Event>, i: nat, j: nat)
    requires AllProper(events) && i < j < |events|
    ensures events[i].timestamp < events[j].timestamp
    decreases j
  {
    assert Proper(events, j);
    if i < j - 1 {
      Increasing(events, i, j - 1);
    }
  }

  lemma ProperInit(events: seq<Event>)
    requires AllProper(events) && events != []
    ensures AllProper(events[..|events| - 1])
  {
    var init := events[..|events| - 1];
    forall i | 0 <= i < |init|
      ensures Proper(init, i)
    {
      assert Proper(events, i);
    }
  }

  /** After its last event a table stays where it is. */
  lemma LevelAfter(events: seq<Event>, t: nat)
    ensures (events != [] ==> events[|events| - 1].timestamp <= t) ==>
              LevelAt(events, t) == StateBefore(events, |events|)
  {
  }

  /** A table's last event is where its level last changes. */
  lemma LastChange(events: seq<Event>)
    requires AllProper(events) && events != []
    ensures var e := events[|events| - 1];
      && LevelAt(events, e.timestamp) == e.state
      && (if e.timestamp == 0 then e.state != 0 else LevelAt(events, e.timestamp - 1) != e.state)
  {
    var n := |events| - 1;
    var e := events[n];
    var init := events[..n];
    assert Proper(events, n);
    if n > 0 {
      Increasing(events, n - 1, n);
    }
    if e.timestamp > 0 {
      LevelAfter(init, e.timestamp - 1);
    }
  }

  lemma NotLater(a: seq<Event>, b: seq<Event>)
    requires AllProper(a) && AllProper(b) && a != []
    requires forall t: nat :: LevelAt(a, t) == LevelAt(b, t)
    ensures b != [] && a[|a| - 1].timestamp <= b[|b| - 1].timestamp
  {
    LastChange(a);
    var e := a[|a| - 1];
    LevelAfter(b, e.timestamp);
    assert LevelAt(a, e.timestamp) == LevelAt(b, e.timestamp);
    if e.timestamp > 0 {
      LevelAfter(b, e.timestamp - 1);
      assert LevelAt(a, e.timestamp - 1) == LevelAt(b, e.timestamp - 1);
    }
  }

  lemma LevelInit(events: seq<Event>, t: nat)
    requires AllProper(events) && events != []
    ensures var e := events[|events| - 1];
      var init := events[..|events| - 1];
      && (t < e.timestamp ==> LevelAt(init, t) == LevelAt(events, t))
      && (e.timestamp == 0 ==> init == [])
      && (e.timestamp > 0 && t >= e.timestamp ==> LevelAt(init, t) == LevelAt(events, e.timestamp - 1))
  {
    var n := |events| - 1;
    if n > 0 {
      Increasing(events, n - 1, n);
    }
    if events[n].timestamp > 0 {
      LevelAfter(events[..n], events[n].timestamp - 1);
      LevelAfter(events[..n], if t >= events[n].timestamp then t else events[n].timestamp - 1);
    }
  }

  /** Tables that drive the same outputs are the same. */
  lemma {:induction false} SameLevelsSameTable(a: seq<Event>, b: seq<Event>)
    requires AllProper(a) && AllProper(b)
    requires forall t: nat :: LevelAt(a, t) == LevelAt(b, t)
    ensures a == b
  {
    if a == [] {
      if b != [] {
        NotLater(b, a);
      }
    } else {
      NotLater(a, b);
      NotLater(b, a);
      var m, n := |a| - 1, |b| - 1;
      assert Proper(a, m) && Proper(b, n);
      LastChange(a);
      LastChange(b);
      assert LevelAt(a, a[m].timestamp) == LevelAt(b, a[m].timestamp);
      assert a[m] == b[n];
      ProperInit(a);
      ProperInit(b);
      forall t: nat
        ensures LevelAt(a[..m], t) == LevelAt(b[..n], t)
      {
        LevelInit(a, t);
        LevelInit(b, t);
        if a[m].timestamp > 0 {
          assert LevelAt(a, a[m].timestamp - 1) == LevelAt(b, a[m].timestamp - 1);
        }
        assert LevelAt(a, t) == LevelAt(b, t);
      }
      SameLevelsSameTable(a[..m], b[..n]);
      assert a == a[..m] + [a[m]] && b == b[..n] + [b[n]];
    }
  }

  /** Two pulse lists compile to the same table exactly when they ask for the same waveform. */
  lemma EqualTables(a: seq<Event>, p: seq<Pulse>, b: seq<Event>, q: seq<Pulse>)
    requires AllProper(a) && AllProper(b) && Means(a, p) && Means(b, q)
    ensures a == b <==> SameWave(p, q)
  {
    if a == b {
      forall t: nat
        ensures (Covered(p, 0, t) <==> Covered(q, 0, t)) && (Covered(p, 1, t) <==> Covered(q, 1, t))
      {
        assert LevelAt(a, t) == LevelAt(b, t);
      }
    } else if SameWave(p, q) {
      forall t: nat
        ensures LevelAt(a, t) == LevelAt(b, t)
      {
        assert Covered(p, 0, t) <==> Covered(q, 0, t);
        SameBits(LevelAt(a, t), LevelAt(b, t));
      }
      SameLevelsSameTable(a, b);
    }
  }

  lemma SameBits(x: nat, y: nat)
    requires x / 4 == y / 4 == 0 && (x % 2 == 1 <==> y % 2 == 1) && (x / 2 % 2 == 1 <==> y / 2 % 2 == 1)
    ensures x == y
  {
  }
}
