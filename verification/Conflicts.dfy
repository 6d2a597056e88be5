/** Two different datagrams of one sequence: a shot that takes both is not published COMPLETE, in any run. */
module Conflicts {
  import opened Protocol
  import opened Ordering
  import opened RunFormat
  import opened ShotModel
  import opened RunModel
  import Publication
  import Soundness

  // ----- what every run keeps of its open shots -----

  /** Open shots differ in identity, and each holds a sequence once. */
  ghost predicate Tidy(run: Run) {
    && (forall i, j | 0 <= i < j < |run.shots| :: run.shots[i].shotId != run.shots[j].shotId)
    && forall i | 0 <= i < |run.shots| :: Distinct(run.shots[i].packets)
  }

  /** No record of the shot since the first `n`. */
  predicate NoneSince(rs: seq<IndexRecord>, n: nat, id: U64) {
    forall j | n <= j < |rs| :: rs[j].shotId != id
  }

  /** The shot's next record after the first `n` is record `k`; it is INCOMPLETE if the shot is spoilt. */
  ghost predicate Closed(rs: seq<IndexRecord>, n: nat, id: U64, k: nat, spoilt: bool) {
    n <= k < |rs| && rs[k].shotId == id && NoneSince(rs[..k], n, id) && (spoilt ==> !rs[k].complete)
  }

  /** The shot holds datagram `x`, or is known to conflict; a spoilt one is. */
  predicate Marked(s: Shot, x: Datagram, spoilt: bool) {
    s.issues.conflict || (!spoilt && x in s.packets)
  }

  ghost predicate Open(shots: seq<Shot>, id: U64, x: Datagram, spoilt: bool) {
    exists i | 0 <= i < |shots| :: shots[i].shotId == id && Marked(shots[i], x, spoilt)
  }

  /** What became of a shot that took `x` when there were `n` records: it is open and marked, or it was closed. */
  ghost predicate Followed(run: Run, n: nat, id: U64, x: Datagram, spoilt: bool) {
    || (exists k :: Closed(Records(run.log), n, id, k, spoilt))
    || (n <= |Records(run.log)| && NoneSince(Records(run.log), n, id) && Open(run.shots, id, x, spoilt))
  }

  // ----- publishing -----

  lemma ClosedLater(rs: seq<IndexRecord>, r: IndexRecord, n: nat, id: U64, k: nat, spoilt: bool)
    requires Closed(rs, n, id, k, spoilt)
    ensures Closed(rs + [r], n, id, k, spoilt)
  {
    assert (rs + [r])[..k] == rs[..k];
  }

  lemma ConflictIncomplete(c: Context, s: Shot, offset: nat)
    ensures RecordOf(s, Judge(c, s), offset).shotId == s.shotId
    ensures s.issues.conflict ==> !RecordOf(s, Judge(c, s), offset).complete
  {
  }

  lemma RemoveTidy(run: Run, i: nat)
    requires Tidy(run) && i < |run.shots|
    ensures Tidy(RemovePublished(run, i))
  {
    hide Distinct, RemovePublished;
    Publication.RemovedShots(run, i);
  }

  lemma RemoveFollowed(run: Run, i: nat, n: nat, id: U64, x: Datagram, spoilt: bool)
    requires Tidy(run) && i < |run.shots| && Followed(run, n, id, x, spoilt)
    ensures Followed(RemovePublished(run, i), n, id, x, spoilt)
  {
    hide Judge, RecordOf, Publish, Distinct, Records, SamplesFile;
    var s := run.shots[i];
    var rs := Records(run.log);
    var r := RecordOf(s, Judge(run.context, s), |SamplesFile(run.log)|);
    Publication.RemovedShots(run, i);
    Publication.PublishedFiles(run, s);
    assert Records(RemovePublished(run, i).log) == rs + [r];
    ConflictIncomplete(run.context, s, |SamplesFile(run.log)|);
    if k :| Closed(rs, n, id, k, spoilt) {
      ClosedLater(rs, r, n, id, k, spoilt);
    } else {
      RemoveOpen(rs, r, run.shots, i, n, id, x, spoilt);
    }
  }

  lemma RemoveOpen(rs: seq<IndexRecord>, r: IndexRecord, shots: seq<Shot>, i: nat, n: nat, id: U64, x: Datagram,
                   spoilt: bool)
    requires n <= |rs| && NoneSince(rs, n, id) && Open(shots, id, x, spoilt) && i < |shots|
    requires forall i, j | 0 <= i < j < |shots| :: shots[i].shotId != shots[j].shotId
    requires r.shotId == shots[i].shotId && (shots[i].issues.conflict ==> !r.complete)
    ensures || Closed(rs + [r], n, id, |rs|, spoilt)
            || (NoneSince(rs + [r], n, id) && Open(Remove(shots, i), id, x, spoilt))
  {
    var j :| 0 <= j < |shots| && shots[j].shotId == id && Marked(shots[j], x, spoilt);
    if i == j {
      assert (rs + [r])[..|rs|] == rs;
    } else {
      assert Remove(shots, i)[if j < i then j else j - 1] == shots[j];
    }
  }

  lemma ReplaceKept(run: Run, i: nat, t: Shot, n: nat, id: U64, x: Datagram, spoilt: bool)
    requires Tidy(run) && i < |run.shots| && t.shotId == run.shots[i].shotId && Distinct(t.packets)
    requires Marked(run.shots[i], x, spoilt) ==> Marked(t, x, spoilt)
    ensures var q := run.(shots := run.shots[i := t]);
      Tidy(q) && (Followed(run, n, id, x, spoilt) ==> Followed(q, n, id, x, spoilt))
  {
    hide Distinct, Records, Marked, Closed;
    if Open(run.shots, id, x, spoilt) {
      var j :| 0 <= j < |run.shots| && run.shots[j].shotId == id && Marked(run.shots[j], x, spoilt);
      assert run.shots[i := t][j].shotId == id && Marked(run.shots[i := t][j], x, spoilt);
    }
  }

  lemma SortMarked(s: Shot, x: Datagram, spoilt: bool)
    requires Distinct(s.packets)
    ensures Distinct(SortPackets(s).packets) && SortPackets(s).shotId == s.shotId
    ensures Marked(s, x, spoilt) ==> Marked(SortPackets(s), x, spoilt)
  {
    SameMembers(s.packets, Sort(BySequence, s.packets));
    DistinctPermutes(s.packets, Sort(BySequence, s.packets));
  }

  lemma {:induction false} ReadyFollowed(run: Run, n: nat, id: U64, x: Datagram, spoilt: bool)
    requires Tidy(run)
    ensures Tidy(FinalizeReady(run))
    ensures Followed(run, n, id, x, spoilt) ==> Followed(FinalizeReady(run), n, id, x, spoilt)
    decreases |run.shots|
  {
    hide Followed, RemovePublished, SequenceIsComplete, SortPackets, Distinct;
    if run.shots != [] {
      var i := Lowest(run.shots);
      if SequenceIsComplete(run.shots[i]) {
        Publication.RemovedShots(run, i);
        RemoveTidy(run, i);
        if Followed(run, n, id, x, spoilt) {
          RemoveFollowed(run, i, n, id, x, spoilt);
        }
        ReadyFollowed(RemovePublished(run, i), n, id, x, spoilt);
      } else {
        SortMarked(run.shots[i], x, spoilt);
        ReplaceKept(run, i, SortPackets(run.shots[i]), n, id, x, spoilt);
      }
    }
  }

  lemma {:induction false} RemainingFollowed(run: Run, n: nat, id: U64, x: Datagram, spoilt: bool)
    requires Tidy(run) && Followed(run, n, id, x, spoilt)
    ensures Followed(FinalizeRemaining(run), n, id, x, spoilt) && FinalizeRemaining(run).shots == []
    decreases |run.shots|
  {
    hide Followed, RemovePublished, Tidy;
    if run.shots != [] {
      var i := Lowest(run.shots);
      Publication.RemovedShots(run, i);
      RemoveTidy(run, i);
      RemoveFollowed(run, i, n, id, x, spoilt);
      RemainingFollowed(RemovePublished(run, i), n, id, x, spoilt);
    }
  }

  // ----- taking a packet -----

  /** A shot that takes a packet holds it or conflicts; one that holds another of its sequence conflicts. */
  lemma AddedMarked(s: Shot, ns: nat, d: Datagram, x: Datagram)
    requires Distinct(s.packets)
    ensures var t := Soundness.Added(s, ns, d);
      && t.shotId == s.shotId && Distinct(t.packets) && Marked(t, d, false)
      && (Marked(s, x, false) ==> Marked(t, x, false)) && (Marked(s, x, true) ==> Marked(t, x, true))
      && (Marked(s, x, false) && x.Sequence() == d.Sequence() && x != d ==> Marked(t, x, true))
  {
    hide Distinct;
    AddedParts(s, ns, d);
    AddedDistinct(s, ns, d);
    if x in s.packets && x.Sequence() == d.Sequence() && x != d {
      OneOfSequence(s.packets, x, d);
    }
  }

  lemma AddedParts(s: Shot, ns: nat, d: Datagram)
    ensures var t := Soundness.Added(s, ns, d);
      && t.shotId == s.shotId
      && t.packets == (if Holds(s.packets, d.Sequence()) then s.packets else s.packets + [d])
      && (s.issues.conflict || (Holds(s.packets, d.Sequence()) && d !in s.packets) ==> t.issues.conflict)
  {
    hide Holds, NoteObject;
    Noted(AddPacket(s, ns, d), d);
  }

  lemma Noted(s: Shot, d: Datagram)
    ensures var t := NoteObject(s, d);
      t.shotId == s.shotId && t.packets == s.packets && (s.issues.conflict ==> t.issues.conflict)
  {
  }

  lemma AddedDistinct(s: Shot, ns: nat, d: Datagram)
    requires Distinct(s.packets)
    ensures Distinct(Soundness.Added(s, ns, d).packets)
  {
    hide Soundness.Added;
    AddedParts(s, ns, d);
  }

  lemma OneOfSequence(packets: seq<Datagram>, x: Datagram, d: Datagram)
    requires Distinct(packets) && x in packets && x.Sequence() == d.Sequence() && x != d
    ensures d !in packets && Holds(packets, d.Sequence())
  {
  }

  lemma AddToFollowed(run: Run, i: nat, ns: nat, d: Datagram, n: nat, id: U64, x: Datagram, spoilt: bool)
    requires Tidy(run) && i < |run.shots|
    ensures Tidy(AddTo(run, i, ns, d))
    ensures Followed(run, n, id, x, spoilt) ==> Followed(AddTo(run, i, ns, d), n, id, x, spoilt)
  {
    hide Soundness.Added, Distinct, Marked, AddTo, Records;
    Soundness.AddToParts(run, i, ns, d);
    AddedMarked(run.shots[i], ns, d, x);
    ReplaceKept(run, i, Soundness.Added(run.shots[i], ns, d), n, id, x, spoilt);
  }

  lemma WithShotFollowed(run: Run, shotId: U64, n: nat, id: U64, x: Datagram, spoilt: bool)
    requires Tidy(run)
    ensures var q := WithShot(run, shotId);
      q.Some? ==>
        && Tidy(q.value) && q.value.log == run.log && run.shots <= q.value.shots
        && q.value.context == run.context && q.value.selected == run.selected
        && (Followed(run, n, id, x, spoilt) ==> Followed(q.value, n, id, x, spoilt))
  {
    hide Records, Marked, Closed;
    assert Distinct(NewShot(shotId).packets);
    var q := WithShot(run, shotId);
    if q.Some? && Open(run.shots, id, x, spoilt) {
      var j :| 0 <= j < |run.shots| && run.shots[j].shotId == id && Marked(run.shots[j], x, spoilt);
      assert q.value.shots[j] == run.shots[j];
    }
  }

  lemma AcceptFollowed(run: Run, a: Arrival, n: nat, id: U64, x: Datagram, spoilt: bool)
    requires run.selected.Some? && Tidy(run)
    ensures Tidy(Accept(run, a).run)
    ensures Followed(run, n, id, x, spoilt) ==> Followed(Accept(run, a).run, n, id, x, spoilt)
  {
    hide FinalizeReady, AddTo, WithShot, EndsStream, Distinct, Followed;
    SameFollowed(run, Accept(run, a).run, n, id, x, spoilt);
    if a.Arrival? && !Foreign(run.selected.value, a) {
      var r := run.(counts := run.counts.(valid := run.counts.valid + 1));
      SameFollowed(run, r, n, id, x, spoilt);
      WithShotFollowed(r, a.d.header.shotId, n, id, x, spoilt);
      var q := WithShot(r, a.d.header.shotId);
      if q.Some? {
        var i := IndexOf(q.value.shots, a.d.header.shotId);
        AddToFollowed(q.value, i, a.receiveNs, a.d, n, id, x, spoilt);
        ReadyFollowed(AddTo(q.value, i, a.receiveNs, a.d), n, id, x, spoilt);
      }
    }
  }

  lemma SameFollowed(p: Run, q: Run, n: nat, id: U64, x: Datagram, spoilt: bool)
    ensures p.log == q.log && p.shots == q.shots ==>
              (Followed(p, n, id, x, spoilt) <==> Followed(q, n, id, x, spoilt))
  {
    hide Records;
  }

  lemma {:induction false} AcceptAllFollowed(run: Run, more: seq<Arrival>, n: nat, id: U64, x: Datagram, spoilt: bool)
    requires run.selected.Some? && Tidy(run)
    ensures Tidy(AcceptAll(run, more).run)
    ensures Followed(run, n, id, x, spoilt) ==> Followed(AcceptAll(run, more).run, n, id, x, spoilt)
  {
    hide Tidy, Followed, Accept;
    if more != [] {
      var init := more[..|more| - 1];
      AcceptAllFollowed(run, init, n, id, x, spoilt);
      AcceptFollowed(AcceptAll(run, init).run, more[|more| - 1], n, id, x, spoilt);
    }
  }

  // ----- the two datagrams -----

  /** The packet is one of the selected run, and its shot is not over. */
  predicate Taken(run: Run, a: Arrival)
    requires run.selected.Some?
  {
    && a.Arrival? && a.d.Length() <= MAX_DATAGRAM && !Foreign(run.selected.value, a) && a.d.Type() != HeartbeatPacket
    && (run.context.last.Some? ==> a.d.header.shotId > run.context.last.value.shotId)
  }

  lemma FirstOfTwo(run: Run, a: Arrival)
    requires run.selected.Some? && Tidy(run) && Taken(run, a) && Accept(run, a).ok
    ensures var id := a.d.header.shotId;
      NoneSince(Records(run.log), |Records(run.log)|, id)
      && Followed(Accept(run, a).run, |Records(run.log)|, id, a.d, false)
  {
    hide FinalizeReady, AddTo, WithShot, EndsStream, Distinct, Records, Marked, Soundness.Added;
    var id, n := a.d.header.shotId, |Records(run.log)|;
    var r := run.(counts := run.counts.(valid := run.counts.valid + 1));
    WithShotFollowed(r, id, n, id, a.d, false);
    var q := WithShot(r, id).value;
    var i := IndexOf(q.shots, id);
    AddToFollowed(q, i, a.receiveNs, a.d, n, id, a.d, false);
    Soundness.AddToParts(q, i, a.receiveNs, a.d);
    AddedMarked(q.shots[i], a.receiveNs, a.d, a.d);
    var t := AddTo(q, i, a.receiveNs, a.d);
    assert t.shots[i].shotId == id && Marked(t.shots[i], a.d, false);
    ReadyFollowed(t, n, id, a.d, false);
  }

  lemma SecondOfTwo(run: Run, b: Arrival, n: nat, x: Datagram)
    requires run.selected.Some? && Tidy(run) && Taken(run, b)
    requires x.header.shotId == b.d.header.shotId && x.Sequence() == b.d.Sequence() && x != b.d
    requires Followed(run, n, x.header.shotId, x, false)
    requires n <= |Records(run.log)| && NoneSince(Records(run.log), n, x.header.shotId)
    ensures Accept(run, b).ok && Followed(Accept(run, b).run, n, x.header.shotId, x, true)
  {
    hide FinalizeReady, AddTo, EndsStream, Distinct, Records, Marked, Soundness.Added;
    var id := x.header.shotId;
    StillOpen(run, n, id, x);
    var j :| 0 <= j < |run.shots| && run.shots[j].shotId == id && Marked(run.shots[j], x, false);
    assert IndexOf(run.shots, id) == j;
    var q := run.(counts := run.counts.(valid := run.counts.valid + 1));
    Soundness.AddToParts(q, j, b.receiveNs, b.d);
    AddToFollowed(q, j, b.receiveNs, b.d, n, id, x, true);
    AddedMarked(run.shots[j], b.receiveNs, b.d, x);
    var t := AddTo(q, j, b.receiveNs, b.d);
    assert t.shots[j].shotId == id && Marked(t.shots[j], x, true);
    ReadyFollowed(t, n, id, x, true);
  }

  lemma StillOpen(run: Run, n: nat, id: U64, x: Datagram)
    requires Followed(run, n, id, x, false) && NoneSince(Records(run.log), n, id)
    ensures Open(run.shots, id, x, false)
  {
    hide Records, Open;
  }

  predicate NotComplete(rs: seq<IndexRecord>, n: nat, id: U64) {
    forall k | n <= k < |rs| && rs[k].shotId == id && NoneSince(rs[..k], n, id) :: !rs[k].complete
  }

  /** The next record of a shot after the first `n`, if there is one, is INCOMPLETE, and closing the run gives one. */
  ghost predicate Spoilt(o: Run, n: nat, id: U64) {
    NotComplete(Records(o.log), n, id)
    && exists k :: Closed(Records(FinalizeRemaining(o).log), n, id, k, true)
  }

  /** Two different datagrams of one sequence, both taken from the selected sender while their shot has no record: the
      shot's next record is INCOMPLETE, whatever arrives between and after. */
  lemma NeverComplete(run: Run, a: Arrival, p: Run, between: seq<Arrival>, q: Run, b: Arrival, r: Run,
                      after: seq<Arrival>)
    requires run.selected.Some? && Tidy(run) && Taken(run, a) && Accept(run, a) == Outcome(p, true)
    requires p.selected.Some? && AcceptAll(p, between) == Outcome(q, true)
    requires q.selected.Some? && Taken(q, b) && Accept(q, b).run == r && r.selected.Some?
    requires b.d.header.shotId == a.d.header.shotId && b.d.Sequence() == a.d.Sequence() && b.d != a.d
    requires |Records(run.log)| <= |Records(q.log)|
    requires NoneSince(Records(q.log), |Records(run.log)|, a.d.header.shotId)
    ensures Spoilt(AcceptAll(r, after).run, |Records(run.log)|, a.d.header.shotId)
  {
    hide Tidy, Followed, Accept, AcceptAll, Records, FinalizeRemaining, Foreign, Spoilt, NoneSince;
    var n, id, x := |Records(run.log)|, a.d.header.shotId, a.d;
    AcceptFollowed(run, a, n, id, x, false);
    FirstOfTwo(run, a);
    AcceptAllFollowed(p, between, n, id, x, false);
    SecondOfTwo(q, b, n, x);
    AcceptFollowed(q, b, n, id, x, true);
    AcceptAllFollowed(r, after, n, id, x, true);
    SpoiltAfter(AcceptAll(r, after).run, n, id, x);
  }

  lemma SpoiltAfter(o: Run, n: nat, id: U64, x: Datagram)
    requires Tidy(o) && Followed(o, n, id, x, true)
    ensures Spoilt(o, n, id)
  {
    hide Tidy, Followed, Records, FinalizeRemaining, Closed;
    NextIncomplete(o, n, id, x);
    RemainingFollowed(o, n, id, x, true);
    NoneOpen(FinalizeRemaining(o), n, id, x);
  }

  /** Every run of arrivals is tidy. */
  lemma {:induction false} EveryRunTidy(maxShotBytes: nat, arrivals: seq<Arrival>)
    ensures Tidy(IngestAll(NewRun(maxShotBytes), arrivals).run)
  {
    if arrivals != [] {
      hide Tidy, Ingest;
      var init := arrivals[..|arrivals| - 1];
      EveryRunTidy(maxShotBytes, init);
      IngestTidy(IngestAll(NewRun(maxShotBytes), init).run, arrivals[|arrivals| - 1]);
    }
  }

  lemma IngestTidy(run: Run, a: Arrival)
    requires Tidy(run)
    ensures Tidy(Ingest(run, a).run)
  {
    hide Tidy, Accept, AcceptAll;
    TidyShots(run, Ingest(run, a).run);
    if run.selected.Some? {
      AcceptTidy(run, a);
    } else if a.Arrival? {
      var q := run.(selected := Some(SelectedBy(a)));
      TidyShots(run, q);
      AcceptAllTidy(q, run.pending);
      var p := AcceptAll(q, run.pending).run;
      TidyShots(p, p.(pending := []));
      AcceptTidy(p.(pending := []), a);
    }
  }

  lemma TidyShots(p: Run, q: Run)
    requires Tidy(p)
    ensures q.shots == p.shots ==> Tidy(q)
  {
    hide Distinct;
  }

  lemma AcceptTidy(run: Run, a: Arrival)
    requires run.selected.Some? && Tidy(run)
    ensures Tidy(Accept(run, a).run)
  {
    hide Tidy, Followed, Accept;
    AcceptFollowed(run, a, 0, 0, AnyDatagram(), false);
  }

  lemma AcceptAllTidy(run: Run, more: seq<Arrival>)
    requires run.selected.Some? && Tidy(run)
    ensures Tidy(AcceptAll(run, more).run)
  {
    hide Tidy, Followed, AcceptAll;
    AcceptAllFollowed(run, more, 0, 0, AnyDatagram(), false);
  }

  function AnyDatagram(): Datagram {
    Datagram(Header(0, NO_FLAGS, 0, 0, 0, 0, 0, 0, 0, 0, 0), Raw(HeartbeatPacket, []))
  }

  lemma NextIncomplete(o: Run, n: nat, id: U64, x: Datagram)
    requires Followed(o, n, id, x, true)
    ensures NotComplete(Records(o.log), n, id)
  {
    hide Records, Open;
    var rs := Records(o.log);
    forall k | n <= k < |rs| && rs[k].shotId == id && NoneSince(rs[..k], n, id)
      ensures !rs[k].complete
    {
      var j: nat :| Closed(rs, n, id, j, true);
      if j < k {
        assert rs[..k][j].shotId == id;
      } else if k < j {
        assert rs[..j][k].shotId == id;
      }
    }
  }

  lemma NoneOpen(o: Run, n: nat, id: U64, x: Datagram)
    requires Followed(o, n, id, x, true) && o.shots == []
    ensures exists k :: Closed(Records(o.log), n, id, k, true)
  {
    hide Records;
  }
}
