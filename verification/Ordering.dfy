/** The two orders the recorder sorts packets by. Its sort is not stable, but the orders are total on
    packets of different sequence, so the sorted permutation is unique. */
module Ordering {
  import opened Protocol

  datatype Order = BySequence | ByFrame

  predicate Before(o: Order, a: Datagram, b: Datagram) {
    match o
    case BySequence => a.Sequence() <= b.Sequence()
    case ByFrame =>
      if a.header.frameId != b.header.frameId then a.header.frameId < b.header.frameId
      else if a.header.sampleOffset != b.header.sampleOffset then a.header.sampleOffset < b.header.sampleOffset
      else a.Sequence() <= b.Sequence()
  }

  predicate Sorted(o: Order, s: seq<Datagram>) {
    forall i, j | 0 <= i < j < |s| :: Before(o, s[i], s[j])
  }

  /** No two packets carry the same sequence. */
  predicate Distinct(s: seq<Datagram>) {
    forall i, j | 0 <= i < j < |s| :: s[i].Sequence() != s[j].Sequence()
  }

  function Insert(o: Order, d: Datagram, s: seq<Datagram>): (r: seq<Datagram>)
    ensures multiset(r) == multiset(s) + multiset{d}
  {
    if s == [] then [d]
    else if Before(o, d, s[0]) then [d] + s
    else
      assert s == [s[0]] + s[1..];
      [s[0]] + Insert(o, d, s[1..])
  }

  lemma BeforeTotal(o: Order, a: Datagram, b: Datagram)
    ensures Before(o, a, b) || Before(o, b, a)
    ensures Before(o, a, b) && Before(o, b, a) ==> a.Sequence() == b.Sequence()
  {
  }

  lemma BeforeTransitive(o: Order, a: Datagram, b: Datagram, c: Datagram)
    requires Before(o, a, b) && Before(o, b, c)
    ensures Before(o, a, c)
  {
  }

  lemma {:induction false} InsertSorted(o: Order, d: Datagram, s: seq<Datagram>)
    requires Sorted(o, s)
    ensures Sorted(o, Insert(o, d, s))
  {
    hide Before;
    if s == [] {
    } else if Before(o, d, s[0]) {
      forall j | 0 <= j < |s|
        ensures Before(o, d, s[j])
      {
        if j > 0 {
          BeforeTransitive(o, d, s[0], s[j]);
        }
      }
    } else {
      BeforeTotal(o, d, s[0]);
      InsertSorted(o, d, s[1..]);
      StaysFirst(o, s[0], d, s[1..]);
    }
  }

  lemma StaysFirst(o: Order, head: Datagram, d: Datagram, s: seq<Datagram>)
    requires Before(o, head, d)
    requires forall j | 0 <= j < |s| :: Before(o, head, s[j])
    ensures forall j | 0 <= j < |Insert(o, d, s)| :: Before(o, head, Insert(o, d, s)[j])
  {
    hide Before;
    var r := Insert(o, d, s);
    forall j | 0 <= j < |r|
      ensures Before(o, head, r[j])
    {
      assert r[j] in multiset(r);
      assert r[j] == d || r[j] in s;
    }
  }

  function Sort(o: Order, s: seq<Datagram>): (r: seq<Datagram>)
    ensures multiset(r) == multiset(s)
    ensures |r| == |s|
  {
    if s == [] then []
    else
      assert s == [s[0]] + s[1..];
      var r := Insert(o, s[0], Sort(o, s[1..]));
      assert |multiset(r)| == |multiset(s)|;
      r
  }

  lemma {:induction false} SortSorts(o: Order, s: seq<Datagram>)
    ensures Sorted(o, Sort(o, s))
  {
    if s != [] {
      SortSorts(o, s[1..]);
      InsertSorted(o, s[0], Sort(o, s[1..]));
    }
  }

  lemma SameMembers(a: seq<Datagram>, b: seq<Datagram>)
    requires multiset(a) == multiset(b)
    ensures |a| == |b|
    ensures forall x :: x in a <==> x in b
  {
    assert |multiset(a)| == |multiset(b)|;
    forall x
      ensures x in a <==> x in b
    {
      assert x in multiset(a) <==> x in multiset(b);
    }
  }

  /** Rearranging keeps sequences distinct. */
  lemma {:induction false} DistinctPermutes(a: seq<Datagram>, b: seq<Datagram>)
    requires Distinct(a) && multiset(a) == multiset(b)
    ensures Distinct(b)
  {
    SameMembers(a, b);
    forall i, j | 0 <= i < j < |b|
      ensures b[i].Sequence() != b[j].Sequence()
    {
      if b[i] == b[j] {
        TwiceIn(b, i, j);
        OnceIn(a, b[i]);
      } else {
        assert b[i] in a && b[j] in a;
      }
    }
  }

  lemma TwiceIn(s: seq<Datagram>, i: nat, j: nat)
    requires i < j < |s| && s[i] == s[j]
    ensures multiset(s)[s[i]] >= 2
  {
    assert s == s[..i] + [s[i]] + s[i + 1..j] + [s[j]] + s[j + 1..];
  }

  lemma {:induction false} OnceIn(s: seq<Datagram>, d: Datagram)
    requires Distinct(s) && d in s
    ensures multiset(s)[d] == 1
  {
    var i :| 0 <= i < |s| && s[i] == d;
    assert s == s[..i] + [d] + s[i + 1..];
    assert d !in s[..i] && d !in s[i + 1..];
  }

  /** With distinct sequences there is only one sorted arrangement. */
  lemma {:induction false} SortedUnique(o: Order, a: seq<Datagram>, b: seq<Datagram>)
    requires Sorted(o, a) && Sorted(o, b)
    requires Distinct(a) && multiset(a) == multiset(b)
    ensures a == b
  {
    hide Before, Sorted, Distinct;
    assert |multiset(a)| == |multiset(b)|;
    if a != [] {
      SameHead(o, a, b);
      Tail(o, a);
      TailMultiset(a);
      Tail(o, b);
      TailMultiset(b);
      SortedUnique(o, a[1..], b[1..]);
      assert a == [a[0]] + a[1..] && b == [b[0]] + b[1..];
    }
  }

  lemma Tail(o: Order, a: seq<Datagram>)
    requires a != []
    ensures Sorted(o, a) ==> Sorted(o, a[1..])
    ensures Distinct(a) ==> Distinct(a[1..])
  {
    hide Before;
  }

  lemma TailMultiset(a: seq<Datagram>)
    requires a != []
    ensures multiset(a[1..]) == multiset(a) - multiset{a[0]}
  {
    assert a == [a[0]] + a[1..];
  }

  lemma SameHead(o: Order, a: seq<Datagram>, b: seq<Datagram>)
    requires Sorted(o, a) && Sorted(o, b) && Distinct(a) && a != []
    requires multiset(a) == multiset(b) && |a| == |b|
    ensures a[0] == b[0]
  {
    hide Before;
    SameMembers(a, b);
    assert a[0] in b && b[0] in a;
    var i :| 0 <= i < |b| && b[i] == a[0];
    var j :| 0 <= j < |a| && a[j] == b[0];
    if i > 0 && j > 0 {
      assert Before(o, b[0], b[i]) && Before(o, a[0], a[j]);
      BeforeTotal(o, a[0], b[0]);
    }
  }

  /** Sorting what is sorted changes nothing. */
  lemma SortOfSorted(o: Order, s: seq<Datagram>)
    requires Sorted(o, s) && Distinct(s)
    ensures Sort(o, s) == s
  {
    SortSorts(o, s);
    SortedUnique(o, s, Sort(o, s));
  }
}
