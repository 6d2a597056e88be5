/** Every shot the recorder opens is recorded exactly once: at every moment the shots opened so far are those
    with a record and those still open, and a closed run has a record for each, whatever arrived. */
module ShotLedger {
  import opened Protocol
  import opened RunFormat
  import opened ShotModel
  import opened RunModel
  import Publication

  // ----- the shots opened, by identity and in order -----

  /** Accepting the packet takes a shot slot. */
  predicate Opens(run: Run, a: Arrival)
    requires run.selected.Some?
  {
    && a.Arrival? && a.d.Length() <= MAX_DATAGRAM && !Foreign(run.selected.value, a) && a.d.Type() != HeartbeatPacket
    && (run.context.last.Some? ==> a.d.header.shotId > run.context.last.value.shotId)
    && (forall s | s in run.shots :: s.shotId != a.d.header.shotId) && |run.shots| != MAX_ACTIVE_SHOTS
  }

  function OpenedBy(run: Run, a: Arrival): seq<U64>
    requires run.selected.Some?
  {
    if Opens(run, a) then [a.d.header.shotId] else []
  }

  function OpenedByAll(run: Run, pending: seq<Arrival>): seq<U64>
    requires run.selected.Some?
  {
    if pending == [] then []
    else
      var init := pending[..|pending| - 1];
      var q := AcceptAll(run, init);
      OpenedByAll(run, init) + if q.ok then OpenedBy(q.run, pending[|pending| - 1]) else []
  }

  function OpenedIn(run: Run, a: Arrival): seq<U64> {
    if run.selected.Some? then OpenedBy(run, a)
    else if a.Undecodable? || a.d.Length() > MAX_DATAGRAM || a.d.Type() != StreamInfoPacket then []
    else
      var q := run.(selected := Some(SelectedBy(a)));
      var p := AcceptAll(q, run.pending);
      OpenedByAll(q, run.pending) + if p.ok then OpenedBy(p.run.(pending := []), a) else []
  }

  /** The shots a run of arrivals opens. */
  function Opened(run: Run, arrivals: seq<Arrival>): seq<U64> {
    if arrivals == [] then []
    else
      var init := arrivals[..|arrivals| - 1];
      var q := IngestAll(run, init);
      Opened(run, init) + if q.ok then OpenedIn(q.run, arrivals[|arrivals| - 1]) else []
  }

  // ----- the shots accounted for -----

  function RecordIds(rs: seq<IndexRecord>): seq<U64> {
    seq(|rs|, i requires 0 <= i < |rs| => rs[i].shotId)
  }

  function OpenIds(shots: seq<Shot>): seq<U64> {
    seq(|shots|, i requires 0 <= i < |shots| => shots[i].shotId)
  }

  /** The shots with a record and the shots still open. */
  function Filed(run: Run): multiset<U64> {
    multiset(RecordIds(Records(run.log))) + multiset(OpenIds(run.shots))
  }

  lemma OpenIdsRemove(shots: seq<Shot>, i: nat)
    requires i < |shots|
    ensures multiset(OpenIds(shots)) == multiset(OpenIds(Remove(shots, i))) + multiset{shots[i].shotId}
  {
    var a, b := OpenIds(shots[..i]), OpenIds(shots[i + 1..]);
    assert OpenIds(shots) == a + [shots[i].shotId] + b;
    assert OpenIds(Remove(shots, i)) == a + b;
  }

  lemma RecordedNext(run: Run, s: Shot)
    ensures RecordIds(Records(Publish(run, s).log)) == RecordIds(Records(run.log)) + [s.shotId]
  {
    hide Judge, RecordOf, Publish, Records, SamplesFile, Payloads;
    Publication.PublishedFiles(run, s);
    RecordId(s, Judge(run.context, s), |SamplesFile(run.log)|);
  }

  lemma RecordId(s: Shot, v: Verdict, offset: nat)
    ensures RecordOf(s, v, offset).shotId == s.shotId
  {
  }

  lemma RemoveFiled(run: Run, i: nat)
    requires i < |run.shots|
    ensures Filed(RemovePublished(run, i)) == Filed(run)
  {
    hide Publish, OpenIds, RecordIds;
    var s := run.shots[i];
    RecordedNext(run, s);
    OpenIdsRemove(run.shots, i);
    assert RemovePublished(run, i).log == Publish(run, s).log;
    Publication.RemovedShots(run, i);
  }

  lemma SameIds(a: seq<Shot>, b: seq<Shot>)
    requires |a| == |b| && forall i | 0 <= i < |a| :: a[i].shotId == b[i].shotId
    ensures OpenIds(a) == OpenIds(b)
  {
  }

  lemma {:induction false} FinalizeReadyFiled(run: Run)
    ensures Filed(FinalizeReady(run)) == Filed(run)
    decreases |run.shots|
  {
    hide RemovePublished, SequenceIsComplete, OpenIds, RecordIds, SortPackets;
    if run.shots != [] {
      var i := Lowest(run.shots);
      if SequenceIsComplete(run.shots[i]) {
        Publication.RemovedShots(run, i);
        RemoveFiled(run, i);
        FinalizeReadyFiled(RemovePublished(run, i));
      } else {
        SortedId(run.shots[i]);
        SameIds(run.shots, run.shots[i := SortPackets(run.shots[i])]);
      }
    }
  }

  lemma SortedId(s: Shot)
    ensures SortPackets(s).shotId == s.shotId
  {
  }

  lemma {:induction false} FinalizeRemainingFiled(run: Run)
    ensures Filed(FinalizeRemaining(run)) == Filed(run) && FinalizeRemaining(run).shots == []
    decreases |run.shots|
  {
    hide RemovePublished, OpenIds, RecordIds;
    if run.shots != [] {
      var i := Lowest(run.shots);
      Publication.RemovedShots(run, i);
      RemoveFiled(run, i);
      FinalizeRemainingFiled(RemovePublished(run, i));
    }
  }

  lemma AddToFiled(run: Run, i: nat, ns: nat, d: Datagram)
    requires i < |run.shots|
    ensures Filed(AddTo(run, i, ns, d)) == Filed(run)
  {
    hide OpenIds, RecordIds, Records;
    var q := AddTo(run, i, ns, d);
    AddToKeeps(run, i, ns, d);
    forall j | 0 <= j < |run.shots|
      ensures q.shots[j].shotId == run.shots[j].shotId
    {
    }
    SameIds(run.shots, q.shots);
  }

  lemma WithShotFiled(run: Run, shotId: U64)
    ensures var q := WithShot(run, shotId);
      && (q.Some? ==>
            Filed(q.value) == Filed(run) + if forall s | s in run.shots :: s.shotId != shotId then multiset{shotId}
                                           else multiset{})
      && (q.None? ==> |run.shots| == MAX_ACTIVE_SHOTS)
      && (|run.shots| == MAX_ACTIVE_SHOTS && q.Some? ==> exists s | s in run.shots :: s.shotId == shotId)
  {
    hide RecordIds, Records;
    var i := IndexOf(run.shots, shotId);
    if i < |run.shots| {
      assert run.shots[i] in run.shots;
    } else {
      assert OpenIds(run.shots + [NewShot(shotId)]) == OpenIds(run.shots) + [shotId];
    }
  }

  lemma AcceptFiled(run: Run, a: Arrival)
    requires run.selected.Some?
    ensures Filed(Accept(run, a).run) == Filed(run) + multiset(OpenedBy(run, a))
  {
    hide Filed, FinalizeReady, AddTo, WithShot, EndsStream, IndexOf;
    SameFiled(run, Accept(run, a).run);
    if a.Arrival? && !Foreign(run.selected.value, a) {
      var r := run.(counts := run.counts.(valid := run.counts.valid + 1));
      SameFiled(run, r);
      WithShotFiled(r, a.d.header.shotId);
      var q := WithShot(r, a.d.header.shotId);
      if q.Some? {
        var i := IndexOf(q.value.shots, a.d.header.shotId);
        AddToFiled(q.value, i, a.receiveNs, a.d);
        FinalizeReadyFiled(AddTo(q.value, i, a.receiveNs, a.d));
      }
    }
  }

  lemma SameFiled(p: Run, q: Run)
    ensures p.log == q.log && p.shots == q.shots ==> Filed(p) == Filed(q)
  {
  }

  lemma {:induction false} AcceptAllFiled(run: Run, pending: seq<Arrival>)
    requires run.selected.Some?
    ensures Filed(AcceptAll(run, pending).run) == Filed(run) + multiset(OpenedByAll(run, pending))
  {
    hide Filed, Accept, OpenedBy;
    if pending != [] {
      var init, a := pending[..|pending| - 1], pending[|pending| - 1];
      AcceptAllFiled(run, init);
      if AcceptAll(run, init).ok {
        AcceptFiled(AcceptAll(run, init).run, a);
      }
    }
  }

  lemma IngestFiled(run: Run, a: Arrival)
    ensures Filed(Ingest(run, a).run) == Filed(run) + multiset(OpenedIn(run, a))
  {
    hide Filed, Accept, AcceptAll, OpenedBy, OpenedByAll;
    SameFiled(run, Ingest(run, a).run);
    if run.selected.Some? {
      AcceptFiled(run, a);
    } else if a.Arrival? && a.d.Length() <= MAX_DATAGRAM && a.d.Type() == StreamInfoPacket {
      var q := run.(selected := Some(SelectedBy(a)));
      SameFiled(run, q);
      AcceptAllFiled(q, run.pending);
      var p := AcceptAll(q, run.pending).run;
      SameFiled(p, p.(pending := []));
      AcceptFiled(p.(pending := []), a);
    }
  }

  lemma {:induction false} IngestAllFiled(run: Run, arrivals: seq<Arrival>)
    ensures Filed(IngestAll(run, arrivals).run) == Filed(run) + multiset(Opened(run, arrivals))
  {
    hide Filed, Ingest, OpenedIn;
    if arrivals != [] {
      var init, a := arrivals[..|arrivals| - 1], arrivals[|arrivals| - 1];
      IngestAllFiled(run, init);
      if IngestAll(run, init).ok {
        IngestFiled(IngestAll(run, init).run, a);
      }
    }
  }

  /** Whatever arrives, every shot opened is recorded once or, after a run that gave up, recorded or still open;
      a closed run has exactly one record for each shot it opened, and no other. */
  lemma EveryShotRecorded(maxShotBytes: nat, arrivals: seq<Arrival>)
    ensures var o := ReceiveRun(maxShotBytes, arrivals);
      var ids := Opened(NewRun(maxShotBytes), arrivals);
      && Filed(o.run) == multiset(ids)
      && (o.ok ==> multiset(RecordIds(Records(o.run.log))) == multiset(ids)
                   && |Records(o.run.log)| == |ids|)
  {
    var start := NewRun(maxShotBytes);
    var q := IngestAll(start, arrivals);
    NothingFiled(maxShotBytes);
    IngestAllFiled(start, arrivals);
    FinalizeRemainingFiled(q.run);
    hide IngestAll, FinalizeRemaining, Opened, NewRun;
    if q.ok {
      var rs := Records(ReceiveRun(maxShotBytes, arrivals).run.log);
      assert multiset(OpenIds([])) == multiset{};
      assert |multiset(RecordIds(rs))| == |rs|;
    }
  }

  lemma NothingFiled(maxShotBytes: nat)
    ensures Filed(NewRun(maxShotBytes)) == multiset{}
  {
  }
}
