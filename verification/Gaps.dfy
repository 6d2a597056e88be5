/** Counting absent packet sequences: the recorder's `count_missing` and `shot_sequence_complete`, and
    the receiver's `find_missing_ranges`, each against the set of absent values. */
module Gaps {
  import opened Protocol

  /** The values from `lo` to `hi`, both included, that were not received. */
  function Absent(lo: nat, hi: int, present: set<nat>): set<nat>
    requires -1 <= hi
  {
    Interval(lo, hi + 1) - present
  }

  function Interval(lo: nat, hi: nat): (r: set<nat>)
    ensures forall q: nat :: q in r <==> lo <= q < hi
    ensures |r| == if lo <= hi then hi - lo else 0
  {
    if lo >= hi then {} else Interval(lo, hi - 1) + {hi - 1}
  }

  function Values(s: seq<nat>): set<nat> {
    set q | q in s
  }

  predicate Increasing(s: seq<nat>) {
    forall i, j | 0 <= i < j < |s| :: s[i] < s[j]
  }

  /** A stretch of values that were all missed adds its length. */
  lemma AbsentStretch(lo: nat, from: nat, to: nat, present: set<nat>)
    requires lo <= from <= to
    requires forall q | from <= q < to :: q !in present
    ensures Absent(lo, to - 1, present) == Absent(lo, from - 1, present) + Interval(from, to)
    ensures |Absent(lo, to - 1, present)| == |Absent(lo, from - 1, present)| + (to - from)
  {
    assert Absent(lo, from - 1, present) !! Interval(from, to);
  }

  lemma AbsentPresent(lo: nat, q: nat, present: set<nat>)
    requires lo <= q && q in present
    ensures Absent(lo, q, present) == Absent(lo, q - 1, present)
  {
  }

  /** Fewer are absent than the interval holds, as one of its values is present. */
  lemma AbsentBound(lo: nat, hi: nat, present: set<nat>)
    requires lo <= hi
    ensures |Absent(lo, hi, present)| <= hi - lo + 1
    ensures lo in present ==> |Absent(lo, hi, present)| <= hi - lo
  {
    var a := Absent(lo, hi, present);
    Subset(a, Interval(lo, hi + 1));
    if lo in present {
      Subset(a, Interval(lo + 1, hi + 1));
    }
  }

  lemma {:induction false} Subset(a: set<nat>, b: set<nat>)
    requires a <= b
    ensures |a| <= |b|
    decreases a
  {
    if a != {} {
      var x :| x in a;
      Subset(a - {x}, b - {x});
    }
  }

  /** The values of `s[..i]` that lie in the interval lie below `e`, and the ones to come do not. */
  ghost predicate Counted(s: seq<nat>, i: nat, info: nat, end: nat, e: nat) {
    && i <= |s|
    && info <= e <= end + 1
    && (forall j | 0 <= j < i :: s[j] < e || s[j] > end)
    && (i < |s| && info < e ==> s[i] >= e)
  }

  lemma Gap(s: seq<nat>, i: nat, info: nat, end: nat, e: nat, to: nat)
    requires Increasing(s) && Counted(s, i, info, end, e)
    requires e <= to <= end + 1
    requires i == |s| || to <= s[i]
    ensures forall q | e <= q < to :: q !in Values(s)
  {
  }

  /** One value of the interval: the stretch before it is absent, it is not. */
  lemma CountStep(s: seq<nat>, i: nat, info: nat, end: nat, e: nat)
    requires Increasing(s) && Counted(s, i, info, end, e)
    requires i < |s| && info <= s[i] <= end
    ensures e <= s[i] && Counted(s, i + 1, info, end, s[i] + 1)
    ensures |Absent(info, s[i], Values(s))| == |Absent(info, e - 1, Values(s))| + (s[i] - e)
    ensures |Absent(info, s[i], Values(s))| <= |Absent(info, end, Values(s))|
    ensures e < s[i] ==> e in Absent(info, end, Values(s))
  {
    hide Increasing, Counted;
    StepValues(s, i, info, end, e);
    AbsentStretch(info, e, s[i], Values(s));
    AbsentPresent(info, s[i], Values(s));
    Subset(Absent(info, s[i], Values(s)), Absent(info, end, Values(s)));
  }

  lemma StepValues(s: seq<nat>, i: nat, info: nat, end: nat, e: nat)
    requires Increasing(s) && Counted(s, i, info, end, e)
    requires i < |s| && info <= s[i] <= end
    ensures info <= e <= s[i] && Counted(s, i + 1, info, end, s[i] + 1)
    ensures s[i] in Values(s)
    ensures forall q | e <= q < s[i] :: q !in Values(s)
  {
    Gap(s, i, info, end, e, s[i]);
  }

  lemma CountSkip(s: seq<nat>, i: nat, info: nat, end: nat, e: nat)
    requires Increasing(s) && Counted(s, i, info, end, e)
    requires i < |s| && (s[i] < e || s[i] > end)
    ensures s[i] < info || s[i] > end
    ensures Counted(s, i + 1, info, end, e)
  {
  }

  lemma CountedRange(s: seq<nat>, i: nat, info: nat, end: nat, e: nat)
    requires Counted(s, i, info, end, e)
    ensures i <= |s| && info <= e <= end + 1
  {
  }

  lemma CountEnd(s: seq<nat>, info: nat, end: nat, e: nat)
    requires Increasing(s) && Counted(s, |s|, info, end, e)
    ensures |Absent(info, end, Values(s))| == |Absent(info, e - 1, Values(s))| + (end + 1 - e)
    ensures e <= end ==> e in Absent(info, end, Values(s))
    ensures info in s && info <= end ==> info < e
  {
    Gap(s, |s|, info, end, e, end + 1);
    AbsentStretch(info, e, end + 1, Values(s));
  }

  /** Unsigned 64-bit addition. */
  function Add(a: U64, b: U64): U64 {
    if a + b > U64_MAX then a + b - U64_MAX - 1 else a + b
  }

  /** What a 64-bit variable holds when its value should be `e`, which may be one too large. */
  function Held(e: nat): int {
    if e > U64_MAX then e - U64_MAX - 1 else e
  }

  function Saturated(n: nat): U32 {
    if n > U32_MAX then U32_MAX else n
  }

  /** `count_missing` between STREAM_INFO and SHOT_END, in wrapping 64-bit arithmetic. */
  method CountMissing(s: seq<U64>, info: U64, end: U64) returns (result: U32)
    requires Increasing(s) && info in s && info <= end
    ensures result == Saturated(|Absent(info, end, Values(s))|)
  {
    hide Increasing, Absent, Values;
    var expected: U64, missing: U64 := info, 0;
    ghost var e: nat := info;
    Begin(s, info, end);
    for i := 0 to |s|
      invariant Counted(s, i, info, end, e) && expected == Held(e)
      invariant missing == |Absent(info, e - 1, Values(s))|
    {
      var sequence := s[i];
      Ascends(s, i);
      if sequence < expected || sequence > end {
        CountSkip(s, i, info, end, e);
      } else {
        CountStep(s, i, info, end, e);
        if sequence > expected {
          missing := Add(missing, sequence - expected);
        }
        expected := Add(sequence, 1);
        e := sequence + 1;
      }
    }
    CountEnd(s, info, end, e);
    if expected <= end {
      missing := Add(missing, Add(end - expected, 1));
    }
    result := if missing > U32_MAX then U32_MAX else missing;
  }

  lemma Begin(s: seq<U64>, info: U64, end: U64)
    requires Increasing(s) && info <= end
    ensures Counted(s, 0, info, end, info)
    ensures |Absent(info, info - 1, Values(s))| == 0
    ensures info in s ==> |Absent(info, end, Values(s))| <= end - info
  {
    AbsentBound(info, end, Values(s));
  }

  lemma Ascends(s: seq<U64>, i: nat)
    requires Increasing(s) && i < |s|
    ensures i + 1 < |s| ==> s[i] < s[i + 1]
  {
  }

  /** `shot_sequence_complete` once both ends of the shot are known. */
  method SequenceComplete(s: seq<U64>, info: U64, end: U64) returns (complete: bool)
    requires Increasing(s) && info in s && info <= end
    ensures complete <==> Absent(info, end, Values(s)) == {}
  {
    hide Increasing, Values, Counted, Absent;
    var expected: U64 := info;
    ghost var e: nat := info;
    Begin(s, info, end);
    for i := 0 to |s|
      invariant Counted(s, i, info, end, e) && expected == Held(e)
      invariant info <= e <= end + 1
      invariant |Absent(info, e - 1, Values(s))| == 0
    {
      var sequence := s[i];
      Ascends(s, i);
      if sequence < info || sequence > end {
        CountSkip(s, i, info, end, e);
      } else {
        CountStep(s, i, info, end, e);
        if sequence != expected {
          return false;
        }
        expected := Add(expected, 1);
        e := sequence + 1;
      }
    }
    CountEnd(s, info, end, e);
    CountedRange(s, |s|, info, end, e);
    complete := expected == Add(end, 1);
  }

  datatype Range = Range(first: nat, last: nat)

  function Max(a: nat, b: nat): nat {
    if a > b then a else b
  }

  function Covered(ranges: seq<Range>): set<nat> {
    if ranges == [] then {}
    else
      var r := ranges[|ranges| - 1];
      Covered(ranges[..|ranges| - 1]) + Interval(r.first, r.last + 1)
  }

  /** Ordered ranges that no missing value joins: each is as long as its gap. */
  predicate Separated(ranges: seq<Range>) {
    && (forall i | 0 <= i < |ranges| :: ranges[i].first <= ranges[i].last)
    && (forall i, j | 0 <= i < j < |ranges| :: ranges[i].last + 1 < ranges[j].first)
  }

  /** The receiver's `find_missing_ranges`; `s` is the sorted set of present values. */
  method FindMissingRanges(first: nat, last: nat, s: seq<nat>) returns (count: nat, ranges: seq<Range>)
    requires Increasing(s)
    ensures Covered(ranges) == Absent(first, last, Values(s))
    ensures count == |Absent(first, last, Values(s))|
    ensures Separated(ranges)
  {
    hide Increasing, Values, Counted, Absent, Covered, Tiled, Separated, Interval;
    NoRanges(first);
    if last < first {
      NothingAbsent(first, last, s);
      return 0, [];
    }
    var cursor: nat := first;
    count, ranges := 0, [];
    BeginRanges(s, first, last);
    for i := 0 to |s|
      invariant Counted(s, i, first, last, cursor)
      invariant first <= cursor <= last + 1
      invariant Covered(ranges) == Absent(first, cursor - 1, Values(s))
      invariant count == |Absent(first, cursor - 1, Values(s))|
      invariant Tiled(ranges, cursor)
    {
      var value := s[i];
      if value < first || value > last {
        RangeSkip(s, i, first, last, cursor);
      } else {
        RangeStep(s, i, first, last, cursor);
        Extend(ranges, cursor, value);
        if value > cursor {
          ranges := ranges + [Range(cursor, value - 1)];
          count := count + (value - cursor);
        }
        cursor := Max(cursor, value + 1);
      }
    }
    RangeEnd(s, first, last, cursor);
    Extend(ranges, cursor, last + 1);
    if cursor <= last {
      ranges := ranges + [Range(cursor, last)];
      count := count + (last - cursor + 1);
    }
  }

  lemma NothingAbsent(first: nat, last: nat, s: seq<nat>)
    requires last < first
    ensures Absent(first, last, Values(s)) == {}
  {
  }

  lemma BeginRanges(s: seq<nat>, first: nat, last: nat)
    requires Increasing(s) && first <= last
    ensures Counted(s, 0, first, last, first)
    ensures Absent(first, first - 1, Values(s)) == {}
  {
  }

  /** Separated ranges that all end more than one value below `cursor`, or none. */
  ghost predicate Tiled(ranges: seq<Range>, cursor: nat) {
    Separated(ranges) && (ranges != [] ==> ranges[|ranges| - 1].last + 1 < cursor)
  }

  lemma NoRanges(cursor: nat)
    ensures Tiled([], cursor) && Covered([]) == {}
  {
  }

  lemma Extend(ranges: seq<Range>, cursor: nat, to: nat)
    requires Tiled(ranges, cursor) && cursor <= to
    ensures Tiled(ranges, to + 1) && Separated(ranges)
    ensures cursor < to ==>
              var more := ranges + [Range(cursor, to - 1)];
              Tiled(more, to + 1) && Separated(more) && Covered(more) == Covered(ranges) + Interval(cursor, to)
  {
    if cursor < to {
      var more := ranges + [Range(cursor, to - 1)];
      assert more[..|ranges|] == ranges;
      forall i, j | 0 <= i < j < |more|
        ensures more[i].last + 1 < more[j].first
      {
      }
    }
  }

  lemma RangeSkip(s: seq<nat>, i: nat, info: nat, end: nat, e: nat)
    requires Increasing(s) && Counted(s, i, info, end, e)
    requires i < |s| && (s[i] < info || s[i] > end)
    ensures Counted(s, i + 1, info, end, e)
  {
  }

  lemma RangeStep(s: seq<nat>, i: nat, info: nat, end: nat, e: nat)
    requires Increasing(s) && Counted(s, i, info, end, e)
    requires i < |s| && info <= s[i] <= end
    ensures info <= e <= s[i] && Counted(s, i + 1, info, end, s[i] + 1)
    ensures Absent(info, s[i], Values(s)) == Absent(info, e - 1, Values(s)) + Interval(e, s[i])
    ensures |Absent(info, s[i], Values(s))| == |Absent(info, e - 1, Values(s))| + (s[i] - e)
  {
    StepValues(s, i, info, end, e);
    AbsentStretch(info, e, s[i], Values(s));
    AbsentPresent(info, s[i], Values(s));
  }

  lemma RangeEnd(s: seq<nat>, info: nat, end: nat, e: nat)
    requires Increasing(s) && Counted(s, |s|, info, end, e)
    ensures info <= e <= end + 1
    ensures Absent(info, end, Values(s)) == Absent(info, e - 1, Values(s)) + Interval(e, end + 1)
    ensures |Absent(info, end, Values(s))| == |Absent(info, e - 1, Values(s))| + (end + 1 - e)
  {
    Gap(s, |s|, info, end, e, end + 1);
    AbsentStretch(info, e, end + 1, Values(s));
  }
}
