/** The recorder's counters and the index: what a manifest says adds up to what the records say, and so to the
    analyzer's health figures. */
module RunCounts {
  import opened Protocol
  import opened RunFormat
  import opened ShotModel
  import opened RunModel
  import opened RunCatalog
  import Publication
  import Soundness

  // ----- the health figures, record by record -----

  /** What one more record adds to the figures. */
  lemma HealthNext(rs: seq<IndexRecord>, r: IndexRecord)
    ensures var before, after := HealthOf(rs), HealthOf(rs + [r]);
      && after.complete == before.complete + (if r.complete then 1 else 0)
      && after.incomplete == before.incomplete + (if r.complete then 0 else 1)
      && after.sampleBytes == before.sampleBytes + (if r.complete && r.extent.Extent? then r.extent.bytes else 0)
      && after.datagrams == before.datagrams + r.datagrams
      && after.duplicates == before.duplicates + r.duplicatePackets
      && after.reordered == before.reordered + r.reorderedPackets
      && after.missing == before.missing + r.missingPackets
  {
    forall figure: Figure
      ensures Sum(rs + [r], figure) == Sum(rs, figure) + Of(r, figure)
    {
      SumNext(rs, r, figure);
    }
  }

  lemma NoHealth()
    ensures var h := HealthOf([]);
      h.complete == h.incomplete == h.sampleBytes == h.datagrams == h.duplicates == h.reordered == h.missing == 0
  {
  }

  // ----- what every step keeps -----

  function OpenDatagrams(shots: seq<Shot>): nat {
    if shots == [] then 0 else OpenDatagrams(shots[..|shots| - 1]) + shots[|shots| - 1].datagrams
  }

  /** The counters are those of the records, and no own packet is in more than one place. */
  ghost predicate Agrees(run: Run) {
    var h, n := HealthOf(Records(run.log)), run.counts;
    && n.complete == h.complete && n.incomplete == h.incomplete
    && n.duplicate == h.duplicates && n.reordered == h.reordered
    && h.datagrams + OpenDatagrams(run.shots) + n.late <= n.valid
  }

  lemma {:induction false} OpenConcat(a: seq<Shot>, b: seq<Shot>)
    ensures OpenDatagrams(a + b) == OpenDatagrams(a) + OpenDatagrams(b)
  {
    if b == [] {
      assert a + b == a;
    } else {
      assert (a + b)[..|a + b| - 1] == a + b[..|b| - 1];
      OpenConcat(a, b[..|b| - 1]);
    }
  }

  lemma OpenAround(shots: seq<Shot>, i: nat, t: Shot)
    requires i < |shots|
    ensures OpenDatagrams(shots) == OpenDatagrams(Remove(shots, i)) + shots[i].datagrams
    ensures OpenDatagrams(shots[i := t]) == OpenDatagrams(Remove(shots, i)) + t.datagrams
  {
    var a, b := shots[..i], shots[i + 1..];
    assert shots == a + [shots[i]] + b && shots[i := t] == a + [t] + b;
    OpenConcat(a + [shots[i]], b);
    OpenConcat(a, [shots[i]]);
    OpenConcat(a + [t], b);
    OpenConcat(a, [t]);
    OpenConcat(a, b);
    assert [shots[i]][..0] == [] && [t][..0] == [];
  }

  lemma PublishCounts(run: Run, s: Shot)
    ensures var v := Judge(run.context, s);
      var r := RecordOf(s, v, |SamplesFile(run.log)|);
      var n, m := run.counts, Publish(run, s).counts;
      && m.complete == n.complete + (if r.complete then 1 else 0)
      && m.incomplete == n.incomplete + (if r.complete then 0 else 1)
      && m.duplicate == n.duplicate + r.duplicatePackets && m.reordered == n.reordered + r.reorderedPackets
      && m.valid == n.valid && m.late == n.late && r.datagrams == s.datagrams
  {
    hide Judge, SamplesFile;
  }

  lemma RemoveAgrees(run: Run, i: nat)
    requires Agrees(run) && i < |run.shots|
    ensures Agrees(RemovePublished(run, i))
  {
    hide Judge, RecordOf, Publish, Records, SamplesFile, HealthOf;
    var s := run.shots[i];
    PublishCounts(run, s);
    Publication.PublishedFiles(run, s);
    HealthNext(Records(run.log), RecordOf(s, Judge(run.context, s), |SamplesFile(run.log)|));
    OpenAround(run.shots, i, s);
  }

  lemma {:induction false} ReadyAgrees(run: Run)
    requires Agrees(run)
    ensures Agrees(FinalizeReady(run))
    decreases |run.shots|
  {
    hide Agrees, RemovePublished, SequenceIsComplete;
    if run.shots != [] {
      var i := Lowest(run.shots);
      if SequenceIsComplete(run.shots[i]) {
        Publication.RemovedShots(run, i);
        RemoveAgrees(run, i);
        ReadyAgrees(RemovePublished(run, i));
      } else {
        ReplaceAgrees(run, run, i, SortPackets(run.shots[i]));
      }
    }
  }

  /** A shot changed in place, perhaps with one more datagram that is counted. */
  lemma ReplaceAgrees(run: Run, q: Run, i: nat, t: Shot)
    requires Agrees(run) && i < |run.shots| && q.log == run.log
    requires q.counts == run.counts.(valid := q.counts.valid)
    requires t.datagrams + run.counts.valid <= run.shots[i].datagrams + q.counts.valid
    ensures Agrees(q.(shots := run.shots[i := t]))
  {
    hide HealthOf, Records;
    OpenAround(run.shots, i, t);
  }

  lemma {:induction false} RemainingAgrees(run: Run)
    requires Agrees(run)
    ensures Agrees(FinalizeRemaining(run)) && FinalizeRemaining(run).shots == []
    decreases |run.shots|
  {
    hide Agrees, RemovePublished;
    if run.shots != [] {
      var i := Lowest(run.shots);
      Publication.RemovedShots(run, i);
      RemoveAgrees(run, i);
      RemainingAgrees(RemovePublished(run, i));
    }
  }

  lemma WithShotAgrees(run: Run, shotId: U64)
    requires Agrees(run)
    ensures var q := WithShot(run, shotId);
      q.Some? ==> Agrees(q.value) && q.value.log == run.log && q.value.counts == run.counts
  {
    hide HealthOf, Records;
    OpenConcat(run.shots, [NewShot(shotId)]);
    assert [NewShot(shotId)][..0] == [];
  }

  lemma AddedOne(s: Shot, ns: nat, d: Datagram)
    ensures Soundness.Added(s, ns, d).datagrams == s.datagrams + 1
  {
  }

  /** The packet is counted as valid before it is added. */
  lemma AddToAgrees(run: Run, i: nat, ns: nat, d: Datagram)
    requires run.counts.valid > 0 && Agrees(run.(counts := run.counts.(valid := run.counts.valid - 1)))
    requires i < |run.shots|
    ensures Agrees(AddTo(run, i, ns, d))
  {
    hide Agrees, AddTo, Soundness.Added;
    var before := run.(counts := run.counts.(valid := run.counts.valid - 1));
    var q := AddTo(run, i, ns, d);
    Soundness.AddToParts(run, i, ns, d);
    AddedOne(run.shots[i], ns, d);
    ReplaceAgrees(before, q, i, Soundness.Added(run.shots[i], ns, d));
    assert q.(shots := run.shots[i := Soundness.Added(run.shots[i], ns, d)]) == q;
  }

  lemma AcceptAgrees(run: Run, a: Arrival)
    requires run.selected.Some? && Agrees(run)
    ensures Agrees(Accept(run, a).run)
  {
    hide Agrees, FinalizeReady, AddTo, WithShot, EndsStream;
    var n := run.counts;
    var r := run.(counts := n.(valid := n.valid + 1));
    CountedMore(run, Accept(run, a).run);
    if a.Arrival? && !Foreign(run.selected.value, a) {
      WithShotAgrees(run, a.d.header.shotId);
      SameSlot(run, r, a.d.header.shotId);
      var q := WithShot(r, a.d.header.shotId);
      if q.Some? {
        var i := IndexOf(q.value.shots, a.d.header.shotId);
        AddToAgrees(q.value, i, a.receiveNs, a.d);
        ReadyAgrees(AddTo(q.value, i, a.receiveNs, a.d));
      }
    }
  }

  lemma CountedMore(run: Run, q: Run)
    requires Agrees(run)
    ensures (&& q.log == run.log && q.shots == run.shots
             && q.counts == run.counts.(valid := q.counts.valid, late := q.counts.late,
                                        malformed := q.counts.malformed, foreign := q.counts.foreign,
                                        pendingOverflow := q.counts.pendingOverflow)
             && q.counts.late + run.counts.valid <= run.counts.late + q.counts.valid) ==> Agrees(q)
  {
    hide HealthOf, Records;
  }

  lemma SameSlot(run: Run, r: Run, shotId: U64)
    requires r == run.(counts := r.counts)
    ensures WithShot(r, shotId).Some? <==> WithShot(run, shotId).Some?
    ensures WithShot(r, shotId).Some? ==>
              WithShot(run, shotId).value == WithShot(r, shotId).value.(counts := run.counts)
    ensures WithShot(r, shotId).Some? ==> WithShot(r, shotId).value.counts == r.counts
  {
  }

  lemma {:induction false} AcceptAllAgrees(run: Run, more: seq<Arrival>)
    requires run.selected.Some? && Agrees(run)
    ensures Agrees(AcceptAll(run, more).run)
  {
    hide Agrees, Accept;
    if more != [] {
      AcceptAllAgrees(run, more[..|more| - 1]);
      AcceptAgrees(AcceptAll(run, more[..|more| - 1]).run, more[|more| - 1]);
    }
  }

  lemma IngestAgrees(run: Run, a: Arrival)
    requires Agrees(run)
    ensures Agrees(Ingest(run, a).run)
  {
    hide Agrees, Accept, AcceptAll;
    CountedMore(run, Ingest(run, a).run);
    if run.selected.Some? {
      AcceptAgrees(run, a);
    } else if a.Arrival? {
      var q := run.(selected := Some(SelectedBy(a)));
      CountedMore(run, q);
      AcceptAllAgrees(q, run.pending);
      var p := AcceptAll(q, run.pending).run;
      CountedMore(p, p.(pending := []));
      AcceptAgrees(p.(pending := []), a);
    }
  }

  lemma {:induction false} IngestAllAgrees(maxShotBytes: nat, arrivals: seq<Arrival>)
    ensures Agrees(IngestAll(NewRun(maxShotBytes), arrivals).run)
  {
    if arrivals == [] {
      NoHealth();
    } else {
      hide Agrees, Ingest;
      IngestAllAgrees(maxShotBytes, arrivals[..|arrivals| - 1]);
      IngestAgrees(IngestAll(NewRun(maxShotBytes), arrivals[..|arrivals| - 1]).run, arrivals[|arrivals| - 1]);
    }
  }

  /** Whatever arrives: the manifest's counters are the analyzer's health figures of the index, and no more datagrams
      are recorded than valid packets came in time. */
  lemma ManifestAgrees(maxShotBytes: nat, arrivals: seq<Arrival>)
    ensures var o := ReceiveRun(maxShotBytes, arrivals);
      var h, n := HealthOf(Records(o.run.log)), o.run.counts;
      && n.complete == h.complete && n.incomplete == h.incomplete
      && n.duplicate == h.duplicates && n.reordered == h.reordered
      && n.complete + n.incomplete == |Records(o.run.log)|
      && h.datagrams + n.late <= n.valid
  {
    IngestAllAgrees(maxShotBytes, arrivals);
    var q := IngestAll(NewRun(maxShotBytes), arrivals);
    RemainingAgrees(q.run);
    EachOnce(Records(ReceiveRun(maxShotBytes, arrivals).run.log));
    hide IngestAll, FinalizeRemaining, HealthOf, Records;
  }

  /** Each record is complete or incomplete. */
  lemma {:induction false} EachOnce(rs: seq<IndexRecord>)
    ensures HealthOf(rs).complete + HealthOf(rs).incomplete == |rs|
  {
    if rs == [] {
      NoHealth();
    } else {
      EachOnce(rs[..|rs| - 1]);
      HealthNext(rs[..|rs| - 1], rs[|rs| - 1]);
      assert rs == rs[..|rs| - 1] + [rs[|rs| - 1]];
    }
  }
}
