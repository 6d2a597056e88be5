/** host/sequence_compiler/qcrate_sequence.py: `compile_document` from its parsed pulses, and `validate_events`. */
module SequenceCompiler {
  import opened Protocol
  import opened Waveform

  datatype Interval = Interval(start: nat, end: nat, index: nat)

  datatype Reason = NoPulses | BadPulse | Overlapping | EventCount

  datatype Compiled = Table(events: seq<Event>) | Refused(reason: Reason)

  // ----- the pulses of one channel -----

  /** The pulses of a channel as intervals, in document order. */
  function Track(pulses: seq<Pulse>, channel: int): seq<Interval>
    requires forall i | 0 <= i < |pulses| :: Legal(pulses[i])
  {
    if pulses == [] then []
    else
      var n := |pulses| - 1;
      var p := pulses[n];
      assert Legal(p);
      Track(pulses[..n], channel) + if p.channel == channel then [Interval(p.start, p.start + p.duration, n)] else []
  }

  predicate From(pulses: seq<Pulse>, channel: int, v: Interval) {
    && v.index < |pulses| && Legal(pulses[v.index]) && pulses[v.index].channel == channel
    && v.start == pulses[v.index].start && v.end == v.start + pulses[v.index].duration
  }

  lemma {:induction false} TrackMembers(pulses: seq<Pulse>, channel: int, v: Interval)
    requires forall i | 0 <= i < |pulses| :: Legal(pulses[i])
    ensures v in Track(pulses, channel) <==> From(pulses, channel, v)
  {
    if pulses != [] {
      TrackMembers(pulses[..|pulses| - 1], channel, v);
    }
  }

  predicate NoRepeat(s: seq<Interval>) {
    forall i, j | 0 <= i < j < |s| :: s[i] != s[j]
  }

  lemma {:induction false} TrackNoRepeat(pulses: seq<Pulse>, channel: int)
    requires forall i | 0 <= i < |pulses| :: Legal(pulses[i])
    ensures NoRepeat(Track(pulses, channel))
  {
    if pulses != [] {
      var init := pulses[..|pulses| - 1];
      TrackNoRepeat(init, channel);
      forall v | v in Track(init, channel)
        ensures v.index < |init|
      {
        TrackMembers(init, channel, v);
      }
    }
  }

  lemma {:induction false} OnceOnly(s: seq<Interval>)
    ensures NoRepeat(s) <==> forall v :: multiset(s)[v] <= 1
  {
    if s != [] {
      var init, last := s[..|s| - 1], s[|s| - 1];
      OnceOnly(init);
      assert s == init + [last];
      if NoRepeat(s) {
        assert last !in multiset(init);
      } else if NoRepeat(init) {
        var i, j :| 0 <= i < j < |s| && s[i] == s[j];
        assert last in multiset(init);
        assert multiset(s)[last] > 1;
      } else {
        var v :| multiset(init)[v] > 1;
        assert multiset(s)[v] > 1;
      }
    }
  }

  predicate Before(v: Interval, w: Interval) {
    if v.start != w.start then v.start < w.start
    else if v.end != w.end then v.end < w.end else v.index <= w.index
  }

  function Insert(v: Interval, s: seq<Interval>): (r: seq<Interval>)
    ensures multiset(r) == multiset(s) + multiset{v}
  {
    if s == [] then [v]
    else if Before(v, s[0]) then [v] + s
    else
      assert s == [s[0]] + s[1..];
      [s[0]] + Insert(v, s[1..])
  }

  /** The library sort. */
  function Sort(s: seq<Interval>): (r: seq<Interval>)
    ensures multiset(r) == multiset(s)
  {
    if s == [] then []
    else
      assert s == [s[0]] + s[1..];
      Insert(s[0], Sort(s[1..]))
  }

  predicate ByStart(s: seq<Interval>) {
    forall i, j | 0 <= i < j < |s| :: s[i].start <= s[j].start
  }

  lemma {:induction false} InsertByStart(v: Interval, s: seq<Interval>)
    requires ByStart(s)
    ensures ByStart(Insert(v, s))
  {
    if s != [] && !Before(v, s[0]) {
      InsertByStart(v, s[1..]);
      var r := Insert(v, s[1..]);
      forall j | 0 <= j < |r|
        ensures s[0].start <= r[j].start
      {
        assert r[j] in multiset(r);
        assert r[j] == v || r[j] in s[1..];
      }
    }
  }

  lemma {:induction false} SortByStart(s: seq<Interval>)
    ensures ByStart(Sort(s))
  {
    if s != [] {
      SortByStart(s[1..]);
      InsertByStart(s[0], Sort(s[1..]));
    }
  }

  /** Each interval ends before the next begins. */
  predicate Apart(s: seq<Interval>) {
    forall i, j | 0 <= i < j < |s| :: s[i].end <= s[j].start
  }

  /** The pulses of a channel, sorted. */
  ghost predicate Sorted(pulses: seq<Pulse>, channel: int, s: seq<Interval>) {
    && (forall v :: v in s <==> From(pulses, channel, v))
    && NoRepeat(s) && ByStart(s)
  }

  lemma TrackSorted(pulses: seq<Pulse>, channel: int)
    requires forall i | 0 <= i < |pulses| :: Legal(pulses[i])
    ensures Sorted(pulses, channel, Sort(Track(pulses, channel)))
  {
    var t := Track(pulses, channel);
    var s := Sort(t);
    TrackNoRepeat(pulses, channel);
    OnceOnly(t);
    OnceOnly(s);
    SortByStart(t);
    forall v
      ensures v in s <==> From(pulses, channel, v)
    {
      TrackMembers(pulses, channel, v);
      assert v in s <==> v in multiset(s);
      assert v in t <==> v in multiset(t);
    }
  }

  /** Sorted intervals lie apart exactly when no two pulses of the channel overlap. */
  lemma ApartMeansDisjoint(pulses: seq<Pulse>, channel: int, s: seq<Interval>)
    requires Sorted(pulses, channel, s)
    requires forall i | 0 <= i < |pulses| :: Legal(pulses[i])
    ensures Apart(s) <==>
            forall i, j | 0 <= i < j < |pulses| && pulses[i].channel == channel :: !Overlap(pulses[i], pulses[j])
  {
    if Apart(s) {
      forall i, j | 0 <= i < j < |pulses| && pulses[i].channel == channel
        ensures !Overlap(pulses[i], pulses[j])
      {
        if pulses[j].channel == channel {
          var v := Interval(pulses[i].start, pulses[i].start + pulses[i].duration, i);
          var w := Interval(pulses[j].start, pulses[j].start + pulses[j].duration, j);
          assert From(pulses, channel, v) && From(pulses, channel, w);
          var a :| 0 <= a < |s| && s[a] == v;
          var b :| 0 <= b < |s| && s[b] == w;
          assert a < b || b < a;
        }
      }
    }
    if forall i, j | 0 <= i < j < |pulses| && pulses[i].channel == channel :: !Overlap(pulses[i], pulses[j]) {
      forall a, b | 0 <= a < b < |s|
        ensures s[a].end <= s[b].start
      {
        assert From(pulses, channel, s[a]) && From(pulses, channel, s[b]);
        var i, j := s[a].index, s[b].index;
        assert i != j;
        if i < j {
          assert !Overlap(pulses[i], pulses[j]);
        } else {
          assert !Overlap(pulses[j], pulses[i]);
        }
      }
    }
  }

  /** The loop over the pulses: each is checked and filed under its channel. */
  method File(pulses: seq<Pulse>) returns (ok: bool, low: seq<Interval>, high: seq<Interval>)
    ensures ok <==> forall i | 0 <= i < |pulses| :: Legal(pulses[i])
    ensures ok ==> low == Track(pulses, 0) && high == Track(pulses, 1)
  {
    low, high := [], [];
    for n := 0 to |pulses|
      invariant forall i | 0 <= i < n :: Legal(pulses[i])
      invariant low == Track(pulses[..n], 0) && high == Track(pulses[..n], 1)
    {
      var p := pulses[n];
      if !(0 <= p.channel <= 1) || !(0 <= p.start <= U64_MAX) || !(0 <= p.duration <= U64_MAX)
         || p.duration == 0 || p.duration > U64_MAX - p.start {
        assert !Legal(p);
        return false, low, high;
      }
      assert pulses[..n + 1][..n] == pulses[..n];
      var v := Interval(p.start, p.start + p.duration, n);
      if p.channel == 0 {
        low := low + [v];
      } else {
        high := high + [v];
      }
    }
    assert pulses[..|pulses|] == pulses;
    ok := true;
  }

  /** The overlap check on one channel's sorted intervals. */
  method CheckOverlap(s: seq<Interval>) returns (ok: bool)
    requires forall v | v in s :: v.start < v.end
    requires ByStart(s)
    ensures ok <==> Apart(s)
  {
    var previousEnd := 0;
    for i := 0 to |s|
      invariant Apart(s[..i])
      invariant forall j | 0 <= j < i :: s[j].end <= previousEnd
      invariant i > 0 ==> previousEnd == s[i - 1].end
    {
      if i > 0 && s[i].start < previousEnd {
        assert s[i - 1].end > s[i].start;
        return false;
      }
      assert s[i] in s;
      previousEnd := s[i].end;
    }
    assert s[..|s|] == s;
    ok := true;
  }

  // ----- the changes -----

  datatype Pins = Pins(low: bool, high: bool) {
    function Word(): (w: U32)
      ensures w <= OUTPUT_MASK
    {
      (if low then 1 else 0) + if high then 2 else 0
    }
  }

  /** What a tick clears and what it sets; setting wins. */
  datatype Change = Change(clear: Pins, set_: Pins)

  const NO_CHANGE := Change(Pins(false, false), Pins(false, false))

  predicate StartsAt(s: seq<Interval>, t: nat) {
    exists v | v in s :: v.start == t
  }

  predicate EndsAt(s: seq<Interval>, t: nat) {
    exists v | v in s :: v.end == t
  }

  predicate Touches(s: seq<Interval>, t: nat) {
    StartsAt(s, t) || EndsAt(s, t)
  }

  /** The changes two channels' intervals make. */
  ghost predicate ChangesOf(m: map<nat, Change>, low: seq<Interval>, high: seq<Interval>) {
    && (forall t: nat :: t in m <==> Touches(low, t) || Touches(high, t))
    && (forall t | t in m ::
          m[t] == Change(Pins(EndsAt(low, t), EndsAt(high, t)), Pins(StartsAt(low, t), StartsAt(high, t))))
  }

  function At(m: map<nat, Change>, t: nat): Change {
    if t in m then m[t] else NO_CHANGE
  }

  lemma TouchNext(s: seq<Interval>, i: nat)
    requires i < |s|
    ensures forall t: nat :: StartsAt(s[..i + 1], t) <==> StartsAt(s[..i], t) || t == s[i].start
    ensures forall t: nat :: EndsAt(s[..i + 1], t) <==> EndsAt(s[..i], t) || t == s[i].end
  {
    var more := s[..i + 1];
    assert more == s[..i] + [s[i]];
    assert s[i] in more;
    forall t: nat
      ensures StartsAt(more, t) <==> StartsAt(s[..i], t) || t == s[i].start
      ensures EndsAt(more, t) <==> EndsAt(s[..i], t) || t == s[i].end
    {
      if StartsAt(s[..i], t) {
        var v :| v in s[..i] && v.start == t;
        assert v in more;
      }
      if EndsAt(s[..i], t) {
        var v :| v in s[..i] && v.end == t;
        assert v in more;
      }
    }
  }

  /** The two loops that collect the changes. */
  method Collect(low: seq<Interval>, high: seq<Interval>) returns (m: map<nat, Change>)
    ensures ChangesOf(m, low, high)
  {
    hide StartsAt, EndsAt;
    m := map[];
    NothingTouches();
    for i := 0 to |low|
      invariant ChangesOf(m, low[..i], [])
    {
      TouchNext(low, i);
      var start, end := low[i].start, low[i].end;
      var c := At(m, start);
      m := m[start := c.(set_ := c.set_.(low := true))];
      c := At(m, end);
      m := m[end := c.(clear := c.clear.(low := true))];
    }
    assert low[..|low|] == low;
    for i := 0 to |high|
      invariant ChangesOf(m, low, high[..i])
    {
      TouchNext(high, i);
      var start, end := high[i].start, high[i].end;
      var c := At(m, start);
      m := m[start := c.(set_ := c.set_.(high := true))];
      c := At(m, end);
      m := m[end := c.(clear := c.clear.(high := true))];
    }
    assert high[..|high|] == high;
  }

  lemma NothingTouches()
    ensures forall t: nat :: !StartsAt([], t) && !EndsAt([], t)
    ensures forall s: seq<Interval> :: s[..0] == []
  {
  }

  predicate Ascending(keys: seq<nat>) {
    forall i, j | 0 <= i < j < |keys| :: keys[i] < keys[j]
  }

  lemma {:induction false} HasLeast(s: set<nat>)
    requires s != {}
    ensures exists k | k in s :: IsLeast(s, k)
  {
    var x :| x in s;
    var rest := s - {x};
    if rest == {} {
      assert forall j | j in s :: j == x || j in rest;
      assert IsLeast(s, x);
    } else {
      HasLeast(rest);
      var k :| k in rest && IsLeast(rest, k);
      LeastOf(s, x, k);
    }
  }

  predicate IsLeast(s: set<nat>, k: nat) {
    forall j | j in s :: k <= j
  }

  lemma LeastOf(s: set<nat>, x: nat, k: nat)
    requires x in s && k in s && IsLeast(s - {x}, k)
    ensures IsLeast(s, if x < k then x else k)
  {
    forall j | j in s
      ensures (if x < k then x else k) <= j
    {
      assert j == x || j in s - {x};
    }
  }

  /** The ticks of the changes in ascending order. */
  method SortedKeys(m: map<nat, Change>) returns (keys: seq<nat>)
    ensures Ascending(keys) && forall t: nat :: t in keys <==> t in m
  {
    keys := [];
    var rest := m.Keys;
    while rest != {}
      invariant Ascending(keys) && rest <= m.Keys
      invariant forall t: nat :: t in keys <==> t in m && t !in rest
      invariant forall t | t in rest :: Above(keys, t)
      decreases rest
    {
      hide IsLeast, Above, Ascending;
      HasLeast(rest);
      var k :| k in rest && IsLeast(rest, k);
      NextKey(keys, rest, k);
      keys := keys + [k];
      rest := rest - {k};
    }
  }

  predicate Above(keys: seq<nat>, t: nat) {
    forall i | 0 <= i < |keys| :: keys[i] < t
  }

  lemma NextKey(keys: seq<nat>, rest: set<nat>, k: nat)
    requires Ascending(keys) && k in rest && IsLeast(rest, k)
    requires forall t | t in rest :: Above(keys, t)
    ensures Ascending(keys + [k]) && forall t | t in rest - {k} :: Above(keys + [k], t)
    ensures forall t: nat :: t in keys + [k] <==> t in keys || t == k
  {
    assert Above(keys, k);
    forall t | t in rest - {k}
      ensures Above(keys + [k], t)
    {
      assert Above(keys, t);
    }
  }

  // ----- what the changes mean -----

  predicate Inside(s: seq<Interval>, t: nat) {
    exists v | v in s :: v.start <= t < v.end
  }

  lemma InsideIsCovered(pulses: seq<Pulse>, channel: int, s: seq<Interval>, t: nat)
    requires Sorted(pulses, channel, s)
    requires forall i | 0 <= i < |pulses| :: Legal(pulses[i])
    ensures Inside(s, t) <==> Covered(pulses, channel, t)
  {
    if Inside(s, t) {
      var v :| v in s && v.start <= t < v.end;
      assert From(pulses, channel, v);
      assert pulses[v.index] in pulses && During(pulses[v.index], t);
    }
    if Covered(pulses, channel, t) {
      var p :| p in pulses && p.channel == channel && During(p, t);
      var i :| 0 <= i < |pulses| && pulses[i] == p;
      assert Legal(pulses[i]);
      var v := Interval(p.start, p.start + p.duration, i);
      assert From(pulses, channel, v);
      assert v in s;
    }
  }

  /** The ticks hold every start and end. */
  ghost predicate Marks(keys: seq<nat>, s: seq<Interval>) {
    && Ascending(keys)
    && forall v | v in s :: v.start < v.end && v.start in keys && v.end in keys
  }

  /** Nothing starts or ends between two neighbouring ticks. */
  lemma Between(keys: seq<nat>, s: seq<Interval>, k: nat, t: nat)
    requires Marks(keys, s) && k <= |keys|
    requires (k > 0 ==> keys[k - 1] <= t) && (k < |keys| ==> t < keys[k])
    ensures Inside(s, t) <==> k > 0 && k < |keys| && Inside(s, keys[k - 1])
  {
    forall v | v in s
      ensures v.start <= t < v.end <==> k > 0 && k < |keys| && v.start <= keys[k - 1] < v.end
    {
      var i :| 0 <= i < |keys| && keys[i] == v.start;
      var j :| 0 <= j < |keys| && keys[j] == v.end;
      assert i < j;
      assert i < k ==> keys[i] <= keys[k - 1];
      assert j < k ==> keys[j] <= keys[k - 1];
      assert i >= k ==> keys[i] >= keys[k];
      assert j >= k ==> keys[j] >= keys[k];
    }
  }

  /** What a tick does to one output. */
  lemma Transition(keys: seq<nat>, s: seq<Interval>, k: nat)
    requires Marks(keys, s) && Apart(s) && k < |keys|
    ensures var t := keys[k];
      Inside(s, t) <==> StartsAt(s, t) || (k > 0 && Inside(s, keys[k - 1]) && !EndsAt(s, t))
  {
    var t := keys[k];
    if StartsAt(s, t) {
      var v :| v in s && v.start == t;
      assert v.start <= t < v.end;
    } else {
      if Inside(s, t) {
        WasInside(keys, s, k);
      }
      if k > 0 && Inside(s, keys[k - 1]) && !EndsAt(s, t) {
        StaysInside(keys, s, k);
      }
    }
  }

  lemma WasInside(keys: seq<nat>, s: seq<Interval>, k: nat)
    requires Marks(keys, s) && Apart(s) && k < |keys| && Inside(s, keys[k]) && !StartsAt(s, keys[k])
    ensures k > 0 && Inside(s, keys[k - 1]) && !EndsAt(s, keys[k])
  {
    var t := keys[k];
    var v :| v in s && v.start <= t < v.end;
    var i :| 0 <= i < |keys| && keys[i] == v.start;
    assert i < k;
    assert keys[i] <= keys[k - 1] < t;
    forall w | w in s
      ensures w.end != t
    {
      assert w.start < w.end;
      ApartPair(s, v, w);
    }
  }

  lemma StaysInside(keys: seq<nat>, s: seq<Interval>, k: nat)
    requires Marks(keys, s) && 0 < k < |keys| && Inside(s, keys[k - 1]) && !EndsAt(s, keys[k])
    ensures Inside(s, keys[k])
  {
    var v :| v in s && v.start <= keys[k - 1] < v.end;
    var j :| 0 <= j < |keys| && keys[j] == v.end;
    assert j > k - 1 && j != k;
    assert keys[k - 1] < keys[k] < keys[j];
  }

  lemma ApartPair(s: seq<Interval>, v: Interval, w: Interval)
    requires Apart(s) && v in s && w in s
    ensures v == w || v.end <= w.start || w.end <= v.start
  {
    var a :| 0 <= a < |s| && s[a] == v;
    var b :| 0 <= b < |s| && s[b] == w;
    assert a == b || a < b || b < a;
  }

  // ----- the table -----

  function PinsAt(low: seq<Interval>, high: seq<Interval>, t: nat): Pins {
    Pins(Inside(low, t), Inside(high, t))
  }

  /** The events so far drive what the intervals ask for, up to tick `keys[k]`. */
  ghost predicate Tabled(low: seq<Interval>, high: seq<Interval>, keys: seq<nat>, k: nat, events: seq<Event>,
      state: Pins)
    requires k <= |keys|
  {
    && AllProper(events) && StateBefore(events, |events|) == state.Word()
    && (events != [] ==> k > 0 && events[|events| - 1].timestamp <= keys[k - 1])
    && state == (if k == 0 then Pins(false, false) else PinsAt(low, high, keys[k - 1]))
    && forall t: nat :: (k < |keys| ==> t < keys[k]) ==> LevelAt(events, t) == PinsAt(low, high, t).Word()
  }

  lemma NoEvents(low: seq<Interval>, high: seq<Interval>, keys: seq<nat>)
    requires Marks(keys, low) && Marks(keys, high)
    ensures Tabled(low, high, keys, 0, [], Pins(false, false))
  {
    hide Inside, Marks;
    forall t: nat | 0 < |keys| ==> t < keys[0]
      ensures LevelAt([], t) == PinsAt(low, high, t).Word()
    {
      Between(keys, low, 0, t);
      Between(keys, high, 0, t);
    }
  }

  /** One turn of the loop over the ticks. */
  method Turn(ghost low: seq<Interval>, ghost high: seq<Interval>, ghost keys: seq<nat>, ghost k: nat,
              t: nat, c: Change, before: seq<Event>, state: Pins)
    returns (events: seq<Event>, next: Pins)
    requires Marks(keys, low) && Marks(keys, high) && Apart(low) && Apart(high)
    requires k < |keys| && t == keys[k] <= U64_MAX
    requires c == Change(Pins(EndsAt(low, t), EndsAt(high, t)), Pins(StartsAt(low, t), StartsAt(high, t)))
    requires Tabled(low, high, keys, k, before, state)
    ensures Tabled(low, high, keys, k + 1, events, next)
    ensures |events| <= |before| + 1
  {
    hide Inside, StartsAt, EndsAt, Apart;
    Transition(keys, low, k);
    Transition(keys, high, k);
    next := Pins((state.low && !c.clear.low) || c.set_.low, (state.high && !c.clear.high) || c.set_.high);
    events := before;
    if next != state {
      events := before + [Event(t, next.Word(), 0)];
    }
    NextTable(low, high, keys, k, before, state, events, next);
  }

  lemma NextTable(low: seq<Interval>, high: seq<Interval>, keys: seq<nat>, k: nat,
                  before: seq<Event>, state: Pins, events: seq<Event>, next: Pins)
    requires Marks(keys, low) && Marks(keys, high) && k < |keys| && keys[k] <= U64_MAX
    requires Tabled(low, high, keys, k, before, state) && next == PinsAt(low, high, keys[k])
    requires events == if next != state then before + [Event(keys[k], next.Word(), 0)] else before
    ensures Tabled(low, high, keys, k + 1, events, next)
  {
    hide Inside, Marks;
    Ticks(keys, low, k);
    if next != state {
      Appended(before, events[|before|]);
    }
    forall t: nat | k + 1 < |keys| ==> t < keys[k + 1]
      ensures LevelAt(events, t) == PinsAt(low, high, t).Word()
    {
      if t < keys[k] {
        LevelEarlier(before, events, t);
      } else {
        LevelAfter(events, t);
        Between(keys, low, k + 1, t);
        Between(keys, high, k + 1, t);
        LastTick(keys, low, k);
        LastTick(keys, high, k);
      }
    }
  }

  lemma LastTick(keys: seq<nat>, s: seq<Interval>, k: nat)
    requires Marks(keys, s) && k < |keys|
    ensures k + 1 == |keys| ==> !Inside(s, keys[k])
  {
    if k + 1 == |keys| {
      forall v | v in s
        ensures v.end <= keys[k]
      {
        var j :| 0 <= j < |keys| && keys[j] == v.end;
      }
    }
  }

  lemma Ticks(keys: seq<nat>, s: seq<Interval>, k: nat)
    requires Marks(keys, s) && k < |keys|
    ensures k > 0 ==> keys[k - 1] < keys[k]
  {
  }

  lemma LevelEarlier(before: seq<Event>, events: seq<Event>, t: nat)
    requires events == before
             || (|events| == |before| + 1 && events[..|before|] == before && t < events[|before|].timestamp)
    ensures LevelAt(events, t) == LevelAt(before, t)
  {
  }

  lemma Appended(before: seq<Event>, e: Event)
    requires AllProper(before)
    requires before != [] ==> before[|before| - 1].timestamp < e.timestamp
    requires e.state <= OUTPUT_MASK && e.flags == 0 && e.state != StateBefore(before, |before|)
    ensures AllProper(before + [e])
  {
    var events := before + [e];
    forall i | 0 <= i < |events|
      ensures Proper(events, i)
    {
      if i < |before| {
        assert Proper(before, i);
      }
    }
  }

  /** Pulses the compiler has no quarrel with. */
  predicate Acceptable(pulses: seq<Pulse>) {
    && pulses != []
    && (forall i | 0 <= i < |pulses| :: Legal(pulses[i]))
    && Disjoint(pulses)
  }

  lemma BothChannels(pulses: seq<Pulse>)
    requires forall i | 0 <= i < |pulses| :: Legal(pulses[i])
    ensures Disjoint(pulses) <==> Apart(Sort(Track(pulses, 0))) && Apart(Sort(Track(pulses, 1)))
  {
    hide Apart, Sort, Track, Sorted;
    var low, high := Sort(Track(pulses, 0)), Sort(Track(pulses, 1));
    TrackSorted(pulses, 0);
    TrackSorted(pulses, 1);
    ApartMeansDisjoint(pulses, 0, low);
    ApartMeansDisjoint(pulses, 1, high);
    if Apart(low) && Apart(high) {
      forall i, j | 0 <= i < j < |pulses|
        ensures !Overlap(pulses[i], pulses[j])
      {
        assert Legal(pulses[i]);
        assert pulses[i].channel == 0 || pulses[i].channel == 1;
      }
    }
  }

  lemma Lengths(pulses: seq<Pulse>, channel: int, s: seq<Interval>)
    requires Sorted(pulses, channel, s)
    ensures forall v | v in s :: v.start < v.end <= U64_MAX
  {
    forall v | v in s
      ensures v.start < v.end <= U64_MAX
    {
      assert From(pulses, channel, v);
    }
  }

  lemma TicksMark(m: map<nat, Change>, low: seq<Interval>, high: seq<Interval>, keys: seq<nat>)
    requires ChangesOf(m, low, high) && Ascending(keys) && forall t: nat :: t in keys <==> t in m
    requires forall v | v in low || v in high :: v.start < v.end <= U64_MAX
    ensures Marks(keys, low) && Marks(keys, high)
    ensures forall k | 0 <= k < |keys| :: keys[k] <= U64_MAX && keys[k] in m
  {
    forall k | 0 <= k < |keys|
      ensures keys[k] <= U64_MAX && keys[k] in m
    {
      assert keys[k] in keys;
      assert Touches(low, keys[k]) || Touches(high, keys[k]);
    }
    forall v | v in low || v in high
      ensures v.start in keys && v.end in keys
    {
      assert StartsAt(low, v.start) || StartsAt(high, v.start);
      assert EndsAt(low, v.end) || EndsAt(high, v.end);
    }
  }

  /** The loop over the sorted ticks. */
  method MakeTable(m: map<nat, Change>, ghost low: seq<Interval>, ghost high: seq<Interval>)
      returns (events: seq<Event>)
    requires ChangesOf(m, low, high) && Apart(low) && Apart(high)
    requires forall v | v in low || v in high :: v.start < v.end <= U64_MAX
    ensures Canonical(events)
    ensures forall t: nat :: LevelAt(events, t) == PinsAt(low, high, t).Word()
  {
    hide Apart, Marks, Inside, Tabled, ChangesOf, Canonical, Pins.Word;
    var keys := SortedKeys(m);
    TicksMark(m, low, high, keys);
    events := [];
    var state := Pins(false, false);
    NoEvents(low, high, keys);
    for k := 0 to |keys|
      invariant Tabled(low, high, keys, k, events, state)
    {
      ChangeAt(m, low, high, keys[k]);
      events, state := Turn(low, high, keys, k, keys[k], m[keys[k]], events, state);
    }
    TableDone(low, high, keys, events, state);
  }

  lemma ChangeAt(m: map<nat, Change>, low: seq<Interval>, high: seq<Interval>, t: nat)
    requires ChangesOf(m, low, high) && t in m
    ensures m[t] == Change(Pins(EndsAt(low, t), EndsAt(high, t)), Pins(StartsAt(low, t), StartsAt(high, t)))
  {
  }

  lemma TableDone(low: seq<Interval>, high: seq<Interval>, keys: seq<nat>, events: seq<Event>, state: Pins)
    requires Marks(keys, low) && Marks(keys, high) && Tabled(low, high, keys, |keys|, events, state)
    ensures Canonical(events)
    ensures forall t: nat :: LevelAt(events, t) == PinsAt(low, high, t).Word()
  {
    hide Marks, Inside;
    if |keys| > 0 {
      LastTick(keys, low, |keys| - 1);
      LastTick(keys, high, |keys| - 1);
    }
  }

  lemma MeansPulses(pulses: seq<Pulse>, low: seq<Interval>, high: seq<Interval>, events: seq<Event>)
    requires forall i | 0 <= i < |pulses| :: Legal(pulses[i])
    requires Sorted(pulses, 0, low) && Sorted(pulses, 1, high)
    requires forall t: nat :: LevelAt(events, t) == PinsAt(low, high, t).Word()
    ensures Means(events, pulses)
  {
    hide Inside, Covered, LevelAt, Sorted;
    forall t: nat
      ensures LevelAt(events, t) % 2 == 1 <==> Covered(pulses, 0, t)
      ensures LevelAt(events, t) / 2 % 2 == 1 <==> Covered(pulses, 1, t)
      ensures LevelAt(events, t) / 4 == 0
    {
      InsideIsCovered(pulses, 0, low, t);
      InsideIsCovered(pulses, 1, high, t);
    }
  }

  /** A table for at least one pulse has at least two events. */
  lemma TwoEvents(pulses: seq<Pulse>, events: seq<Event>)
    requires pulses != [] && Legal(pulses[0]) && Canonical(events) && Means(events, pulses)
    ensures |events| >= MIN_EVENTS
  {
    var p := pulses[0];
    assert p in pulses && During(p, p.start);
    assert Covered(pulses, p.channel, p.start);
    assert LevelAt(events, p.start) != 0;
    if |events| > 0 {
      assert Proper(events, 0);
    }
  }

  /** `validate_events`. */
  method ValidateEvents(events: seq<Event>) returns (ok: bool)
    ensures ok <==> Valid(events)
  {
    if !(MIN_EVENTS <= |events| <= MAX_EVENTS) {
      return false;
    }
    var previousState: U32 := 0;
    for i := 0 to |events|
      invariant previousState == StateBefore(events, i)
      invariant forall j | 0 <= j < i :: Proper(events, j)
    {
      var e := events[i];
      if (i > 0 && e.timestamp <= events[i - 1].timestamp) || e.state > OUTPUT_MASK || e.flags != 0
         || e.state == previousState {
        assert !Proper(events, i);
        return false;
      }
      previousState := e.state;
    }
    ok := previousState == 0;
  }

  /** `compile_document`. The table drives exactly what the pulses ask for, at every tick; pulses are refused for
      being none, illegal or overlapping, and otherwise only when their table has more than 128 events. */
  method Compile(pulses: seq<Pulse>) returns (r: Compiled)
    ensures r.Table? ==> Acceptable(pulses) && Valid(r.events) && Means(r.events, pulses)
    ensures r.Table? ==> forall t: nat :: LevelAt(r.events, t) % 2 == 1 <==> Covered(pulses, 0, t)
    ensures r.Table? ==> forall t: nat :: LevelAt(r.events, t) / 2 % 2 == 1 <==> Covered(pulses, 1, t)
    ensures r.Table? ==> forall t: nat :: LevelAt(r.events, t) / 4 == 0
    ensures r == Refused(NoPulses) <==> pulses == []
    ensures r == Refused(BadPulse) <==> pulses != [] && !(forall i | 0 <= i < |pulses| :: Legal(pulses[i]))
    ensures r == Refused(Overlapping) <==>
            pulses != [] && (forall i | 0 <= i < |pulses| :: Legal(pulses[i])) && !Disjoint(pulses)
    ensures r == Refused(EventCount) <==>
            Acceptable(pulses) && exists es :: Canonical(es) && Means(es, pulses) && |es| > MAX_EVENTS
  {
    if |pulses| == 0 {
      return Refused(NoPulses);
    }
    var ok, low, high := File(pulses);
    if !ok {
      return Refused(BadPulse);
    }
    hide Disjoint, Apart, Sorted, Means, AllProper, Canonical;
    low, high := Sort(low), Sort(high);
    TrackSorted(pulses, 0);
    TrackSorted(pulses, 1);
    BothChannels(pulses);
    Lengths(pulses, 0, low);
    Lengths(pulses, 1, high);
    SortByStart(Track(pulses, 0));
    SortByStart(Track(pulses, 1));
    var lowOk := CheckOverlap(low);
    if !lowOk {
      return Refused(Overlapping);
    }
    var highOk := CheckOverlap(high);
    if !highOk {
      return Refused(Overlapping);
    }
    var m := Collect(low, high);
    var events := MakeTable(m, low, high);
    MeansPulses(pulses, low, high, events);
    TwoEvents(pulses, events);
    ok := ValidateEvents(events);
    forall es | Canonical(es) && Means(es, pulses)
      ensures es == events
    {
      CanonicalProper(es);
      CanonicalProper(events);
      OnlyTable(pulses, es, events);
    }
    r := if ok then Table(events) else Refused(EventCount);
    BitByBit(events, pulses);
  }

  lemma BitByBit(events: seq<Event>, pulses: seq<Pulse>)
    requires Means(events, pulses)
    ensures forall t: nat :: LevelAt(events, t) % 2 == 1 <==> Covered(pulses, 0, t)
    ensures forall t: nat :: LevelAt(events, t) / 2 % 2 == 1 <==> Covered(pulses, 1, t)
    ensures forall t: nat :: LevelAt(events, t) / 4 == 0
  {
  }

  lemma CanonicalProper(events: seq<Event>)
    requires Canonical(events)
    ensures AllProper(events)
  {
  }

  /** There is only one table for the waveform of some pulses. */
  lemma OnlyTable(pulses: seq<Pulse>, a: seq<Event>, b: seq<Event>)
    requires AllProper(a) && AllProper(b) && Means(a, pulses) && Means(b, pulses)
    ensures a == b
  {
    EqualTables(a, pulses, b, pulses);
  }
}
