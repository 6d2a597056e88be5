/** When a clean run is the whole stream: exactly when some datagram of the first shot reached the recorder before
    it had filed a timed shot. After that the first shot is late for ever, and its loss goes unnoticed. */
module CleanWhole {
  import opened Protocol
  import opened Packetizer
  import opened RunFormat
  import opened ShotModel
  import opened RunModel
  import opened SentStream
  import opened Soundness
  import opened CleanRuns
  import opened ShotLedger
  import Ordering

  /** A datagram of the stream's first shot. */
  ghost predicate OfFirst(sent: seq<SentShot>, source: Source, a: Arrival)
    requires Conforming(sent)
  {
    && a.Arrival? && a.source == source
    && Accepts(sent[0].config, sent[0].samples) && a.d in Datagrams(sent[0].config, sent[0].samples)
  }

  /** Such a datagram arrives while the recorder has filed no timed shot. */
  ghost predicate FirstReaches(sent: seq<SentShot>, source: Source, maxShotBytes: nat, arrivals: seq<Arrival>)
    requires Conforming(sent)
  {
    exists i | 0 <= i < |arrivals| ::
      OfFirst(sent, source, arrivals[i]) && IngestAll(NewRun(maxShotBytes), arrivals[..i]).run.context.last.None?
  }

  /** The first shot has a record, or is open. */
  predicate FirstFiled(sent: seq<SentShot>, run: Run)
    requires Conforming(sent)
  {
    sent[0].config.shotId in Filed(run)
  }

  ghost predicate FirstHeld(sent: seq<SentShot>, source: Source, pending: seq<Arrival>)
    requires Conforming(sent)
  {
    exists i | 0 <= i < |pending| :: OfFirst(sent, source, pending[i])
  }

  // ----- one packet -----

  /** A packet that opens the first shot is one of it, and nothing timed has been filed. */
  lemma OpensFirst(sent: seq<SentShot>, source: Source, run: Run, a: Arrival)
    requires Conforming(sent) && LastKnown(sent, run.context) && run.selected == Some(SelectionOf(sent, source))
    requires Authentic(sent, source, a) && Opens(run, a) && a.d.header.shotId == sent[0].config.shotId
    ensures OfFirst(sent, source, a) && run.context.last.None?
  {
    hide Accepts, Datagrams, Conforming;
    ClosingType(sent);
    var k :| 0 <= k < |sent| && Accepts(sent[k].config, sent[k].samples)
             && a.d in Datagrams(sent[k].config, sent[k].samples);
    SentTimestamp(sent[k].config, sent[k].samples, a.d);
    ByShotId(sent, k, 0);
    if run.context.last.Some? {
      var j :| 0 <= j < |sent| && run.context.last.value
                                  == LastShot(sent[j].config.shotId, sent[j].config.firstSampleTimestamp);
      NotBefore(sent, j);
    }
  }

  lemma NotBefore(sent: seq<SentShot>, j: nat)
    requires Conforming(sent) && j < |sent|
    ensures sent[0].config.shotId <= sent[j].config.shotId
  {
    if j > 0 {
      SentStream.Chained(sent, 0, j);
    }
  }

  /** A packet of the first shot is accepted for what it is. */
  lemma FirstAccepted(sent: seq<SentShot>, source: Source, run: Run, a: Arrival)
    requires Conforming(sent) && run.selected == Some(SelectionOf(sent, source)) && OfFirst(sent, source, a)
    ensures a.Arrival? && a.d.Length() <= MAX_DATAGRAM && !Foreign(run.selected.value, a)
    ensures a.d.Type() != HeartbeatPacket
    ensures a.d.header.shotId == sent[0].config.shotId
  {
    SentTimestamp(sent[0].config, sent[0].samples, a.d);
  }

  lemma OpenIsFiled(run: Run, s: Shot)
    requires s in run.shots
    ensures s.shotId in Filed(run)
  {
    var i :| 0 <= i < |run.shots| && run.shots[i] == s;
    assert OpenIds(run.shots)[i] == s.shotId;
  }

  lemma AcceptFirst(sent: seq<SentShot>, source: Source, run: Run, a: Arrival)
    requires Sound(sent, run) && Conforming(sent) && run.selected == Some(SelectionOf(sent, source))
    requires Authentic(sent, source, a) && Accept(run, a).ok
    ensures FirstFiled(sent, Accept(run, a).run)
       <==> FirstFiled(sent, run) || (OfFirst(sent, source, a) && run.context.last.None?)
  {
    assert sent != [];
    hide Filed, Accept, OfFirst, Authentic, Conforming, FaithfulLog, Foreign;
    AcceptFiled(run, a);
    if Opens(run, a) && a.d.header.shotId == sent[0].config.shotId {
      OpensFirst(sent, source, run, a);
    }
    if OfFirst(sent, source, a) && run.context.last.None? {
      FirstAccepted(sent, source, run, a);
      if !Opens(run, a) {
        StillOpen(run, a);
        var s :| s in run.shots && s.shotId == a.d.header.shotId;
        OpenIsFiled(run, s);
      }
    }
  }

  /** What is taken in and opens no shot belongs to an open one. */
  lemma StillOpen(run: Run, a: Arrival)
    requires run.selected.Some? && a.Arrival? && Accept(run, a).ok && !Opens(run, a) && run.context.last.None?
    requires a.d.Length() <= MAX_DATAGRAM && !Foreign(run.selected.value, a) && a.d.Type() != HeartbeatPacket
    ensures exists s | s in run.shots :: s.shotId == a.d.header.shotId
  {
    hide FinalizeReady, AddTo, EndsStream, Foreign;
    WithShotFiled(run.(counts := run.counts.(valid := run.counts.valid + 1)), a.d.header.shotId);
  }

  // ----- the packets held back -----

  /** Without a STREAM_INFO nothing is finalized. */
  lemma QuietAccept(run: Run, a: Arrival)
    requires run.selected.Some? && Unnamed(run.shots) && run.context.last.None?
    requires a.Arrival? ==> a.d.Type() != StreamInfoPacket
    ensures Unnamed(Accept(run, a).run.shots) && Accept(run, a).run.context.last.None?
  {
    hide EndsStream, Foreign, Holds, FinalizeReady, AddTo, Added;
    if a.Arrival? && !Foreign(run.selected.value, a) && a.d.Type() != HeartbeatPacket {
      var r := run.(counts := run.counts.(valid := run.counts.valid + 1));
      var q := WithShot(r, a.d.header.shotId);
      if q.Some? {
        var i := IndexOf(q.value.shots, a.d.header.shotId);
        AddToParts(q.value, i, a.receiveNs, a.d);
        QuietAdd(q.value.shots[i], a.receiveNs, a.d);
        QuietFinalize(AddTo(q.value, i, a.receiveNs, a.d));
      }
    }
  }

  lemma QuietAdd(s: Shot, ns: nat, d: Datagram)
    requires s.info.NoInfo? && d.Type() != StreamInfoPacket
    ensures Added(s, ns, d).info.NoInfo?
  {
  }

  lemma QuietFinalize(run: Run)
    requires Unnamed(run.shots)
    ensures Unnamed(FinalizeReady(run).shots) && FinalizeReady(run).context == run.context
  {
    hide Ordering.Sort;
  }

  lemma {:induction false} ReplayFirst(sent: seq<SentShot>, source: Source, run: Run, pending: seq<Arrival>)
    requires Sound(sent, run) && Conforming(sent) && run.selected == Some(SelectionOf(sent, source))
    requires run.context.last.None? && Unnamed(run.shots)
    requires forall i | 0 <= i < |pending| :: Authentic(sent, source, pending[i])
    requires forall i | 0 <= i < |pending| :: pending[i].Arrival? && pending[i].d.Type() != StreamInfoPacket
    requires AcceptAll(run, pending).ok
    ensures var q := AcceptAll(run, pending).run;
      && Sound(sent, q) && Unnamed(q.shots) && q.context.last.None?
      && (FirstFiled(sent, q) <==> FirstFiled(sent, run) || FirstHeld(sent, source, pending))
  {
    hide Sound, Accept, Authentic, Conforming, OfFirst, FirstFiled, Unnamed;
    if pending != [] {
      var init, a := pending[..|pending| - 1], pending[|pending| - 1];
      ReplayFirst(sent, source, run, init);
      var q := AcceptAll(run, init).run;
      AcceptFirst(sent, source, q, a);
      AcceptSound(sent, source, q, a);
      QuietAccept(q, a);
      HeldNext(sent, source, init, a);
      assert init + [a] == pending;
    }
  }

  lemma HeldNext(sent: seq<SentShot>, source: Source, init: seq<Arrival>, a: Arrival)
    requires Conforming(sent)
    ensures FirstHeld(sent, source, init + [a]) <==> FirstHeld(sent, source, init) || OfFirst(sent, source, a)
  {
    hide Conforming, OfFirst;
    var more := init + [a];
    assert more[|init|] == a;
    if FirstHeld(sent, source, init) {
      var i :| 0 <= i < |init| && OfFirst(sent, source, init[i]);
      assert more[i] == init[i];
    }
  }

  // ----- whole runs -----

  /** Before a run is selected nothing is filed, and what may matter later is held back. */
  predicate Idle(run: Run) {
    && run.selected.None? && run.shots == [] && run.log == [] && run.context.last.None?
    && forall i | 0 <= i < |run.pending| :: run.pending[i].Arrival? && run.pending[i].d.Type() != StreamInfoPacket
  }

  ghost predicate Tracks(sent: seq<SentShot>, source: Source, run: Run, reached: bool)
    requires Conforming(sent)
  {
    if run.selected.Some? then FirstFiled(sent, run) <==> reached
    else Idle(run) && (FirstHeld(sent, source, run.pending) <==> reached)
  }

  lemma IngestFirst(sent: seq<SentShot>, source: Source, run: Run, a: Arrival, reached: bool)
    requires Conforming(sent) && SoundSoFar(sent, source, run) && Authentic(sent, source, a)
    requires Tracks(sent, source, run, reached) && Ingest(run, a).ok && Ingest(run, a).run.counts.pendingOverflow == 0
    ensures Tracks(sent, source, Ingest(run, a).run,
                   reached || (OfFirst(sent, source, a) && run.context.last.None?))
  {
    hide Sound, Accept, Authentic, Conforming, OfFirst, FirstFiled, FirstHeld;
    if run.selected.Some? {
      AcceptFirst(sent, source, run, a);
      AcceptKeeps(run, a);
    } else if a.Undecodable? || a.d.Length() > MAX_DATAGRAM {
      NotFirst(sent, source, a);
    } else if a.d.Type() != StreamInfoPacket {
      HeldNext(sent, source, run.pending, a);
    } else {
      SelectFirst(sent, source, run, a);
    }
  }

  lemma NotFirst(sent: seq<SentShot>, source: Source, a: Arrival)
    requires Conforming(sent) && (a.Undecodable? || a.d.Length() > MAX_DATAGRAM)
    ensures !OfFirst(sent, source, a)
  {
    if OfFirst(sent, source, a) {
      SentTimestamp(sent[0].config, sent[0].samples, a.d);
    }
  }

  lemma SelectFirst(sent: seq<SentShot>, source: Source, run: Run, a: Arrival)
    requires Conforming(sent) && SoundSoFar(sent, source, run) && Authentic(sent, source, a) && Idle(run)
    requires a.Arrival? && a.d.Length() <= MAX_DATAGRAM && a.d.Type() == StreamInfoPacket && Ingest(run, a).ok
    ensures Ingest(run, a).run.selected.Some?
    ensures FirstFiled(sent, Ingest(run, a).run)
       <==> FirstHeld(sent, source, run.pending) || OfFirst(sent, source, a)
  {
    hide Sound, Accept, Authentic, Conforming, OfFirst, FirstHeld, Filed;
    Selects(sent, source, a);
    var q := run.(selected := Some(SelectedBy(a)));
    Recounted(sent, run, q);
    NothingFiled(q);
    ReplayFirst(sent, source, q, run.pending);
    var p := AcceptAll(q, run.pending).run;
    Recounted(sent, p, p.(pending := []));
    SameFiled(p, p.(pending := []));
    AcceptFirst(sent, source, p.(pending := []), a);
    AcceptKeeps(p.(pending := []), a);
  }

  lemma NothingFiled(run: Run)
    requires run.shots == [] && run.log == []
    ensures Filed(run) == multiset{}
  {
  }

  lemma ReachesNext(sent: seq<SentShot>, source: Source, maxShotBytes: nat, init: seq<Arrival>, a: Arrival)
    requires Conforming(sent)
    ensures FirstReaches(sent, source, maxShotBytes, init + [a])
       <==> FirstReaches(sent, source, maxShotBytes, init)
            || (OfFirst(sent, source, a) && IngestAll(NewRun(maxShotBytes), init).run.context.last.None?)
  {
    hide Conforming, OfFirst, IngestAll;
    var more := init + [a];
    assert more[..|init|] == init && more[|init|] == a;
    forall i | 0 <= i < |init|
      ensures more[..i] == init[..i] && more[i] == init[i]
    {
    }
    if FirstReaches(sent, source, maxShotBytes, init) {
      var i :| 0 <= i < |init| && OfFirst(sent, source, init[i])
               && IngestAll(NewRun(maxShotBytes), init[..i]).run.context.last.None?;
      assert OfFirst(sent, source, more[i]);
    }
    if FirstReaches(sent, source, maxShotBytes, more) {
      var i :| 0 <= i < |more| && OfFirst(sent, source, more[i])
               && IngestAll(NewRun(maxShotBytes), more[..i]).run.context.last.None?;
      assert i < |init| ==> OfFirst(sent, source, init[i]);
    }
    if OfFirst(sent, source, a) && IngestAll(NewRun(maxShotBytes), init).run.context.last.None? {
      assert OfFirst(sent, source, more[|init|]);
    }
  }

  lemma OverflowStays(run: Run, a: Arrival)
    ensures Ingest(run, a).run.counts.pendingOverflow >= run.counts.pendingOverflow
  {
    hide Accept, AcceptAll;
    if run.selected.Some? {
      AcceptKeeps(run, a);
    } else if a.Arrival? {
      var p := AcceptAll(run.(selected := Some(SelectedBy(a))), run.pending).run;
      AcceptKeeps(p.(pending := []), a);
    }
  }

  lemma {:induction false} EveryRunTracks(sent: seq<SentShot>, source: Source, maxShotBytes: nat,
                                          arrivals: seq<Arrival>)
    requires Conforming(sent)
    requires forall i | 0 <= i < |arrivals| :: Authentic(sent, source, arrivals[i])
    requires IngestAll(NewRun(maxShotBytes), arrivals).ok
    requires IngestAll(NewRun(maxShotBytes), arrivals).run.counts.pendingOverflow == 0
    ensures Tracks(sent, source, IngestAll(NewRun(maxShotBytes), arrivals).run,
                   FirstReaches(sent, source, maxShotBytes, arrivals))
  {
    hide Conforming, Authentic, Ingest, FirstReaches, SoundSoFar, Tracks;
    if arrivals == [] {
      NoneReached(sent, source, maxShotBytes);
    } else {
      var init, a := arrivals[..|arrivals| - 1], arrivals[|arrivals| - 1];
      var run := IngestAll(NewRun(maxShotBytes), init).run;
      OverflowStays(run, a);
      EveryRunTracks(sent, source, maxShotBytes, init);
      EveryRunSound(sent, source, maxShotBytes, init);
      IngestFirst(sent, source, run, a, FirstReaches(sent, source, maxShotBytes, init));
      ReachesNext(sent, source, maxShotBytes, init, a);
      assert init + [a] == arrivals;
    }
  }

  lemma NoneReached(sent: seq<SentShot>, source: Source, maxShotBytes: nat)
    requires Conforming(sent)
    ensures Tracks(sent, source, NewRun(maxShotBytes), FirstReaches(sent, source, maxShotBytes, []))
  {
    hide Conforming;
  }

  lemma {:induction false} ClosingOverflow(run: Run)
    ensures FinalizeRemaining(run).counts.pendingOverflow == run.counts.pendingOverflow
    ensures FinalizeRemaining(run).selected == run.selected
    decreases |run.shots|
  {
    hide Judge, RecordOf;
    if run.shots != [] {
      ClosingOverflow(RemovePublished(run, Lowest(run.shots)));
    }
  }

  /** The first record of a clean run is that of shot `k`; the first shot has a record exactly when `k` is 0. */
  lemma FirstRecorded(sent: seq<SentShot>, run: Run, k: nat)
    requires Conforming(sent) && k < |sent| && run.shots == [] && |Records(run.log)| == |sent| - k
    requires forall i | 0 <= i < |sent| - k :: RecordsShot(SamplesFile(run.log), Records(run.log)[i], sent[k + i])
    ensures FirstFiled(sent, run) <==> k == 0
  {
    hide Conforming, Records, SamplesFile;
    var rs := Records(run.log);
    assert OpenIds(run.shots) == [];
    if FirstFiled(sent, run) {
      var i :| 0 <= i < |RecordIds(rs)| && RecordIds(rs)[i] == sent[0].config.shotId;
      assert RecordsShot(SamplesFile(run.log), rs[i], sent[k + i]);
      ByShotId(sent, k + i, 0);
    }
    if k == 0 {
      assert RecordsShot(SamplesFile(run.log), rs[0], sent[0 + 0]);
      assert RecordIds(rs)[0] == sent[0].config.shotId;
    }
  }

  /** A clean run recorded every shot exactly when a datagram of the first one came before anything timed had been
      filed: nothing announces where a stream begins. */
  lemma CleanIsWhole(sent: seq<SentShot>, source: Source, maxShotBytes: nat, arrivals: seq<Arrival>)
    requires Conforming(sent)
    requires forall i | 0 <= i < |arrivals| :: Authentic(sent, source, arrivals[i])
    requires Clean(ReceiveRun(maxShotBytes, arrivals))
    ensures var log := ReceiveRun(maxShotBytes, arrivals).run.log;
      SamplesFile(log) == SamplesOfShots(sent) && |Records(log)| == |sent|
      <==> FirstReaches(sent, source, maxShotBytes, arrivals)
  {
    hide IngestAll, FinalizeRemaining, Conforming, Authentic, FirstReaches, Filed, RecordsShot;
    var k := CleanMeansSuffix(sent, source, maxShotBytes, arrivals);
    var run := IngestAll(NewRun(maxShotBytes), arrivals).run;
    ClosingOverflow(run);
    FinalizeRemainingFiled(run);
    EveryRunTracks(sent, source, maxShotBytes, arrivals);
    FirstRecorded(sent, FinalizeRemaining(run), k);
    assert sent[0..] == sent;
  }
}
