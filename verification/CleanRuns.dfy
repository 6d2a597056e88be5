/** What a clean run certifies. The recorder calls a run clean when it saw the end of the stream, recorded
    at least one shot and nothing went wrong. For a conforming stream that means: every shot from the first
    recorded one on was published. A prefix of shots that was lost whole goes unnoticed. */
module CleanRuns {
  import opened Crc32
  import opened Protocol
  import opened Packetizer
  import opened RunFormat
  import opened ShotModel
  import opened SentVerdicts
  import opened RunModel
  import opened SentStream
  import opened Soundness
  import Publication
  import SentShots
  import Verdicts

  /** The continuity check of `receive_run` after the run is closed. */
  predicate ContinuityError(run: Run) {
    run.terminal.Seen? && (
      || run.context.expected.None?
      || run.terminal.sequence + (if run.terminal.isShotEnd then 1 else 0) != run.context.expected.value
      || (run.context.last.Some? && run.terminal.shotId != run.context.last.value.shotId))
  }

  /** The verdict of `main` on a run that was not interrupted and lost nothing in the kernel. */
  predicate Clean(o: Outcome) {
    o.ok && CleanRun(o.run)
  }

  predicate CleanRun(run: Run) {
    && run.selected.Some? && run.terminal.Seen?
    && run.counts.complete > 0 && run.counts.incomplete == 0
    && run.counts.malformed == 0 && run.counts.conflicting == 0 && run.counts.pendingOverflow == 0
    && !ContinuityError(run)
  }

  /** Any malformed, conflicting or overflowing packet, any INCOMPLETE shot and an end that never came spoil a run. */
  lemma CleanCounts(run: Run)
    ensures CleanRun(run) ==>
              && run.counts.malformed == 0 && run.counts.conflicting == 0 && run.counts.pendingOverflow == 0
              && run.counts.incomplete == 0 && run.counts.complete > 0 && run.terminal.Seen?
  {
  }

  function SamplesOfShots(sent: seq<SentShot>): seq<Byte> {
    if sent == [] then [] else SamplesOfShots(sent[..|sent| - 1]) + sent[|sent| - 1].samples
  }

  function After(shot: SentShot): nat {
    shot.config.initialSequence + DataPackets(shot.config) + 2
  }

  /** The records are those of consecutive shots from `k` on, and the sample file is theirs. */
  ghost predicate ChainOf(sent: seq<SentShot>, rs: seq<IndexRecord>, file: seq<Byte>, expected: Option<U64>, k: nat) {
    && k + |rs| <= |sent|
    && (forall i | 0 <= i < |rs| ::
          rs[i].complete && rs[i].firstSampleTimestamp > 0 && RecordsShot(file, rs[i], sent[k + i]))
    && file == SamplesOfShots(sent[k..k + |rs|])
    && (if rs == [] then expected == None else expected.Some? && expected.value == After(sent[k + |rs| - 1]))
  }

  ghost predicate ChainFrom(sent: seq<SentShot>, run: Run, k: nat) {
    ChainOf(sent, Records(run.log), SamplesFile(run.log), run.context.expected, k)
  }

  ghost predicate TerminalKnown(sent: seq<SentShot>, t: Terminal)
    requires sent != []
  {
    t.Seen? ==> t.sequence + (if t.isShotEnd then 1 else 0) == NextSequence(sent)
  }

  /** What every step keeps: while nothing is quarantined, the records are a chain. */
  ghost predicate Chaining(sent: seq<SentShot>, run: Run) {
    && Conforming(sent) && OpenShots(sent, run.shots)
    && TerminalKnown(sent, run.terminal)
    && (run.counts.incomplete == 0 ==> exists k :: ChainFrom(sent, run, k))
  }

  /** The shot that continues a chain is the next one. */
  lemma NextShot(sent: seq<SentShot>, m: nat, k: nat)
    requires Conforming(sent) && m < |sent| && k < |sent|
    requires sent[k].config.initialSequence == After(sent[m])
    ensures k == m + 1
  {
    hide Accepts, DataPackets;
    if m + 1 < |sent| {
      assert sent[m + 1].config.initialSequence == After(sent[m]);
      ByShotId(sent, m + 1, k);
      ByShotId(sent, k, m + 1);
    } else {
      if k < m {
        SentStream.Chained(sent, k, m);
      }
      Sent(sent, k);
    }
  }

  lemma SamplesNext(sent: seq<SentShot>, k: nat, n: nat)
    requires k + n < |sent|
    ensures SamplesOfShots(sent[k..k + n + 1]) == SamplesOfShots(sent[k..k + n]) + sent[k + n].samples
  {
    assert sent[k..k + n + 1][..n] == sent[k..k + n];
  }

  /** Publishing any open shot keeps the chain, or quarantines. */
  lemma PublishChained(sent: seq<SentShot>, run: Run, s: Shot)
    requires Conforming(sent) && Known(sent, s)
    requires run.counts.incomplete == 0 ==> exists k :: ChainFrom(sent, run, k)
    ensures var q := Publish(run, s); q.counts.incomplete == 0 ==> exists k :: ChainFrom(sent, q, k)
  {
    hide Judge, Known, Conforming, ChainOf, Payloads, Checksum;
    var v := Judge(run.context, s);
    if !v.issues.Any() && run.counts.incomplete == 0 {
      var k :| ChainFrom(sent, run, k);
      var j := KnownVerdict(sent, run.context, s);
      CompleteEnd(sent, run.context, s, j);
      Publication.PublishedFiles(run, s);
      var file := SamplesFile(run.log);
      var r := RecordOf(s, v, |file|);
      NewRecord(s, v, file, sent[j]);
      var q := Publish(run, s);
      var base := ChainNext(sent, Records(run.log), file, run.context.expected, k, r, j, q.context.expected);
      assert ChainFrom(sent, q, base);
    }
  }

  lemma NewRecord(s: Shot, v: Verdict, file: seq<Byte>, shot: SentShot)
    requires !v.issues.Any()
    requires FirstTimestamp(v.data) == shot.config.firstSampleTimestamp > 0 && |Payloads(v.data)| == |shot.samples|
    requires RecordSays(RecordOf(s, v, |file|), shot.config, shot.samples)
    ensures var r := RecordOf(s, v, |file|);
      r.complete && r.firstSampleTimestamp > 0 && RecordsShot(file + shot.samples, r, shot)
  {
    assert (file + shot.samples)[|file|..|file| + |shot.samples|] == shot.samples;
  }

  lemma CompleteEnd(sent: seq<SentShot>, ctx: Context, s: Shot, j: nat)
    requires Conforming(sent) && Known(sent, s) && j < |sent| && s.shotId == sent[j].config.shotId
    requires !Judge(ctx, s).issues.Any()
    ensures s.end.End? && s.end.header.packetSequence + 1 == After(sent[j]) <= U64_MAX
  {
    Verdicts.NoIssues(ctx, s);
    Verdicts.NothingAbsent(s);
    var k := KnownInfo(sent, s);
    ByShotId(sent, j, k);
    AllReceived(s, sent[k].config, sent[k].samples);
    Sent(sent, k);
    hide Judge, Conforming, Accepts, Datagrams, Known;
  }

  /** A chain and the next shot's record and samples make a longer chain. */
  lemma ChainNext(sent: seq<SentShot>, rs: seq<IndexRecord>, file: seq<Byte>, expected: Option<U64>, k: nat,
                  r: IndexRecord, j: nat, next: Option<U64>) returns (base: nat)
    requires Conforming(sent) && ChainOf(sent, rs, file, expected, k) && j < |sent|
    requires expected.Some? ==> sent[j].config.initialSequence == expected.value
    requires r.complete && r.firstSampleTimestamp > 0 && RecordsShot(file + sent[j].samples, r, sent[j])
    requires next.Some? && next.value == After(sent[j])
    ensures ChainOf(sent, rs + [r], file + sent[j].samples, next, base)
  {
    hide Conforming, Accepts, After, RecordsShot;
    var n := |rs|;
    base := if n == 0 then j else k;
    if n > 0 {
      NextShot(sent, k + n - 1, j);
    } else {
      assert sent[j..j] == [] && sent[k..k] == [];
    }
    SamplesNext(sent, base, n);
    EarlierLonger(sent, rs, file, sent[j].samples, base);
    hide SamplesOfShots;
  }

  lemma EarlierLonger(sent: seq<SentShot>, rs: seq<IndexRecord>, file: seq<Byte>, more: seq<Byte>, k: nat)
    requires k + |rs| <= |sent| && forall i | 0 <= i < |rs| :: RecordsShot(file, rs[i], sent[k + i])
    ensures forall i | 0 <= i < |rs| :: RecordsShot(file + more, rs[i], sent[k + i])
  {
    hide RecordsShot;
    forall i | 0 <= i < |rs|
      ensures RecordsShot(file + more, rs[i], sent[k + i])
    {
      RecordsLonger(file, more, rs[i], sent[k + i]);
    }
  }

  lemma RecordsLonger(file: seq<Byte>, more: seq<Byte>, r: IndexRecord, shot: SentShot)
    requires RecordsShot(file, r, shot)
    ensures RecordsShot(file + more, r, shot)
  {
    var a, b := r.extent.offset, r.extent.offset + r.extent.bytes;
    assert (file + more)[a..b] == file[a..b];
  }

  // ----- every step keeps the chain -----

  lemma RemoveChaining(sent: seq<SentShot>, run: Run, i: nat)
    requires Chaining(sent, run) && i < |run.shots|
    ensures Chaining(sent, RemovePublished(run, i))
  {
    hide Conforming, Known, ChainFrom, Publish, TerminalKnown;
    OpenOthers(sent, run.shots, i);
    PublishChained(sent, run, run.shots[i]);
    PublishTerminal(run, run.shots[i]);
    SameFiles(sent, Publish(run, run.shots[i]), RemovePublished(run, i));
  }

  lemma PublishTerminal(run: Run, s: Shot)
    ensures Publish(run, s).terminal == run.terminal
  {
  }

  lemma SameFiles(sent: seq<SentShot>, a: Run, b: Run)
    requires a.log == b.log && a.context.expected == b.context.expected
    ensures forall k :: ChainFrom(sent, a, k) <==> ChainFrom(sent, b, k)
  {
    hide ChainOf;
  }

  lemma {:induction false} FinalizeReadyChaining(sent: seq<SentShot>, run: Run)
    requires Chaining(sent, run)
    ensures Chaining(sent, FinalizeReady(run))
    decreases |run.shots|
  {
    hide Conforming, Known, ChainFrom, RemovePublished, TerminalKnown, OpenShots;
    if run.shots != [] {
      var i := Lowest(run.shots);
      if SequenceIsComplete(run.shots[i]) {
        RemoveChaining(sent, run, i);
        Publication.RemovedShots(run, i);
        FinalizeReadyChaining(sent, RemovePublished(run, i));
      } else {
        OpenOthers(sent, run.shots, i);
        SortKnown(sent, run.shots[i]);
        ReplaceOpen(sent, run.shots, i, SortPackets(run.shots[i]));
        SameFiles(sent, run, FinalizeReady(run));
      }
    }
  }

  lemma {:induction false} FinalizeRemainingChaining(sent: seq<SentShot>, run: Run)
    requires Chaining(sent, run)
    ensures Chaining(sent, FinalizeRemaining(run))
    decreases |run.shots|
  {
    hide Chaining, RemovePublished;
    if run.shots != [] {
      var i := Lowest(run.shots);
      RemoveChaining(sent, run, i);
      Publication.RemovedShots(run, i);
      FinalizeRemainingChaining(sent, RemovePublished(run, i));
    }
  }

  /** Only the last shot's SHOT_END ends the stream. */
  lemma EndsAtLast(sent: seq<SentShot>, d: Datagram)
    requires Conforming(sent) && OfStream(sent, d)
    ensures d.payload.EndObject? && d.payload.end.endFlags.endOfStream ==> d.Sequence() + 1 == NextSequence(sent)
  {
    var k :| 0 <= k < |sent| && Accepts(sent[k].config, sent[k].samples)
             && d in Datagrams(sent[k].config, sent[k].samples);
    ObjectsOf(sent[k].config, sent[k].samples, d);
    SentShots.SequenceAt(sent[k].config, sent[k].samples, DataPackets(sent[k].config) + 1);
    hide Accepts, Datagrams, DataPackets, Checksum;
  }

  lemma AddToTerminal(run: Run, i: nat, ns: nat, d: Datagram)
    requires i < |run.shots|
    ensures var t := AddTo(run, i, ns, d).terminal;
      t == run.terminal || (t == Seen(true, d.Sequence(), d.header.shotId, ns)
                            && d.payload.EndObject? && d.payload.end.endFlags.endOfStream)
  {
    hide AddPacket, NoteObject;
  }

  lemma AddToChaining(sent: seq<SentShot>, run: Run, i: nat, ns: nat, d: Datagram)
    requires Chaining(sent, run) && i < |run.shots|
    requires OfStream(sent, d) && d.header.shotId == run.shots[i].shotId
    ensures Chaining(sent, AddTo(run, i, ns, d))
  {
    hide Conforming, Known, ChainFrom, OpenShots, AddTo, Added, OfStream;
    AddToParts(run, i, ns, d);
    AddToTerminal(run, i, ns, d);
    EndsAtLast(sent, d);
    OpenOthers(sent, run.shots, i);
    AddKnown(sent, run.shots[i], ns, d);
    ReplaceOpen(sent, run.shots, i, Added(run.shots[i], ns, d));
    SameFiles(sent, run, AddTo(run, i, ns, d));
  }

  lemma WithShotChaining(sent: seq<SentShot>, run: Run, d: Datagram)
    requires Chaining(sent, run) && OfStream(sent, d)
    ensures var q := WithShot(run, d.header.shotId);
      q.Some? ==>
        && Chaining(sent, q.value) && q.value.shots[IndexOf(q.value.shots, d.header.shotId)].shotId == d.header.shotId
  {
    NewKnown(sent, d);
    hide Known, Conforming, OfStream, ChainOf, TerminalKnown;
    var q := WithShot(run, d.header.shotId);
    if q.Some? {
      SameFiles(sent, run, q.value);
    }
  }

  /** Counters other than the quarantined ones, and the heartbeat's end mark, do not matter. */
  lemma Remarked(sent: seq<SentShot>, run: Run, other: Run)
    requires Chaining(sent, run) && TerminalKnown(sent, other.terminal)
    requires other == run.(counts := other.counts, terminal := other.terminal, selected := other.selected,
                           pending := other.pending)
    requires other.counts.incomplete == run.counts.incomplete
    ensures Chaining(sent, other)
  {
    hide Conforming, OpenShots, ChainFrom;
    SameFiles(sent, run, other);
  }

  lemma AcceptChaining(sent: seq<SentShot>, source: Source, run: Run, a: Arrival)
    requires Chaining(sent, run) && run.selected == Some(SelectionOf(sent, source))
    requires Authentic(sent, source, a)
    ensures Chaining(sent, Accept(run, a).run)
  {
    hide Chaining, FinalizeReady, AddTo, EndsStream, WithShot, Conforming, OfStream;
    ChainingFacts(sent, run);
    ClosingType(sent);
    if a.Undecodable? || a.d.Length() > MAX_DATAGRAM || Foreign(run.selected.value, a) {
      Remarked(sent, run, Accept(run, a).run);
    } else if a.d.Type() == HeartbeatPacket {
      if OfStream(sent, a.d) {
        NoHeartbeat(sent, a.d);
      }
      ClosingSequence(sent);
      Remarked(sent, run, Accept(run, a).run);
    } else if run.context.last.Some? && a.d.header.shotId <= run.context.last.value.shotId {
      Remarked(sent, run, Accept(run, a).run);
    } else {
      var r := run.(counts := run.counts.(valid := run.counts.valid + 1));
      Remarked(sent, run, r);
      WithShotChaining(sent, r, a.d);
      var q := WithShot(r, a.d.header.shotId);
      if q.Some? {
        var i := IndexOf(q.value.shots, a.d.header.shotId);
        AddToChaining(sent, q.value, i, a.receiveNs, a.d);
        FinalizeReadyChaining(sent, AddTo(q.value, i, a.receiveNs, a.d));
      }
    }
  }

  lemma ChainingFacts(sent: seq<SentShot>, run: Run)
    requires Chaining(sent, run)
    ensures Conforming(sent) && TerminalKnown(sent, run.terminal)
  {
  }

  lemma ClosingSequence(sent: seq<SentShot>)
    requires Conforming(sent)
    ensures Closing(sent).Sequence() == NextSequence(sent)
  {
  }

  lemma NoHeartbeat(sent: seq<SentShot>, d: Datagram)
    requires Conforming(sent) && OfStream(sent, d)
    ensures d.Type() != HeartbeatPacket
  {
    var k :| 0 <= k < |sent| && Accepts(sent[k].config, sent[k].samples)
             && d in Datagrams(sent[k].config, sent[k].samples);
    SentTimestamp(sent[k].config, sent[k].samples, d);
  }

  lemma {:induction false} AcceptAllChaining(sent: seq<SentShot>, source: Source, run: Run, pending: seq<Arrival>)
    requires Chaining(sent, run) && run.selected == Some(SelectionOf(sent, source))
    requires forall i | 0 <= i < |pending| :: Authentic(sent, source, pending[i])
    ensures Chaining(sent, AcceptAll(run, pending).run)
  {
    ChainingFacts(sent, run);
    hide Chaining, Accept, Conforming;
    if pending != [] {
      var init, a := pending[..|pending| - 1], pending[|pending| - 1];
      AcceptAllChaining(sent, source, run, init);
      if AcceptAll(run, init).ok {
        AcceptChaining(sent, source, AcceptAll(run, init).run, a);
      }
    }
  }

  lemma IngestChaining(sent: seq<SentShot>, source: Source, run: Run, a: Arrival)
    requires Chaining(sent, run) && SoundSoFar(sent, source, run) && Authentic(sent, source, a)
    ensures Chaining(sent, Ingest(run, a).run)
  {
    ChainingFacts(sent, run);
    hide Chaining, Sound, Accept, Conforming, Authentic;
    if run.selected.Some? {
      AcceptChaining(sent, source, run, a);
    } else if a.Arrival? && a.d.Length() <= MAX_DATAGRAM && a.d.Type() == StreamInfoPacket {
      Selects(sent, source, a);
      var q := run.(selected := Some(SelectedBy(a)));
      Remarked(sent, run, q);
      AcceptAllChaining(sent, source, q, run.pending);
      var p := AcceptAll(q, run.pending).run;
      ChainingFacts(sent, p);
      Remarked(sent, p, p.(pending := []));
      AcceptChaining(sent, source, p.(pending := []), a);
    } else {
      Remarked(sent, run, Ingest(run, a).run);
    }
  }

  lemma {:induction false} EveryRunChaining(sent: seq<SentShot>, source: Source, maxShotBytes: nat,
                                            arrivals: seq<Arrival>)
    requires Conforming(sent)
    requires forall i | 0 <= i < |arrivals| :: Authentic(sent, source, arrivals[i])
    ensures Chaining(sent, IngestAll(NewRun(maxShotBytes), arrivals).run)
  {
    hide Ingest, SoundSoFar, Authentic, Conforming, Chaining;
    if arrivals == [] {
      NewChaining(sent, maxShotBytes);
    } else {
      var init, a := arrivals[..|arrivals| - 1], arrivals[|arrivals| - 1];
      EveryRunChaining(sent, source, maxShotBytes, init);
      EveryRunSound(sent, source, maxShotBytes, init);
      var q := IngestAll(NewRun(maxShotBytes), init);
      if q.ok {
        IngestChaining(sent, source, q.run, a);
      }
    }
  }

  lemma NewChaining(sent: seq<SentShot>, maxShotBytes: nat)
    requires Conforming(sent)
    ensures Chaining(sent, NewRun(maxShotBytes))
  {
    hide Conforming;
    assert sent[0..0] == [];
    assert ChainFrom(sent, NewRun(maxShotBytes), 0);
  }

  /** Whatever the network does, a clean run published exactly the last shots of the stream, from some
      timed shot on, and its sample file is their samples. */
  lemma CleanMeansSuffix(sent: seq<SentShot>, source: Source, maxShotBytes: nat, arrivals: seq<Arrival>)
    returns (k: nat)
    requires Conforming(sent)
    requires forall i | 0 <= i < |arrivals| :: Authentic(sent, source, arrivals[i])
    requires Clean(ReceiveRun(maxShotBytes, arrivals))
    ensures k < |sent| && sent[k].config.firstSampleTimestamp > 0
    ensures var log := ReceiveRun(maxShotBytes, arrivals).run.log;
      && |Records(log)| == |sent| - k
      && SamplesFile(log) == SamplesOfShots(sent[k..])
      && forall i | 0 <= i < |sent| - k ::
           Records(log)[i].complete && RecordsShot(SamplesFile(log), Records(log)[i], sent[k + i])
  {
    hide IngestAll, Conforming, Authentic, FinalizeRemaining;
    EveryRunChaining(sent, source, maxShotBytes, arrivals);
    FinalizeRemainingChaining(sent, IngestAll(NewRun(maxShotBytes), arrivals).run);
    k := CleanChain(sent, ReceiveRun(maxShotBytes, arrivals).run);
  }

  lemma CleanChain(sent: seq<SentShot>, run: Run) returns (k: nat)
    requires Chaining(sent, run) && CleanRun(run)
    ensures k < |sent| && |Records(run.log)| == |sent| - k && sent[k].config.firstSampleTimestamp > 0
    ensures SamplesFile(run.log) == SamplesOfShots(sent[k..])
    ensures forall i | 0 <= i < |sent| - k ::
      Records(run.log)[i].complete && RecordsShot(SamplesFile(run.log), Records(run.log)[i], sent[k + i])
  {
    hide Conforming, Accepts, RecordsShot, OpenShots, After, NextSequence, SamplesOfShots;
    k :| ChainFrom(sent, run, k);
    var n := |Records(run.log)|;
    ChainingFacts(sent, run);
    LastOfStream(sent, k + n - 1);
    assert sent[k..k + n] == sent[k..];
    SameTime(SamplesFile(run.log), Records(run.log)[0], sent[k + 0]);
  }

  lemma SameTime(file: seq<Byte>, r: IndexRecord, shot: SentShot)
    requires RecordsShot(file, r, shot)
    ensures r.firstSampleTimestamp == shot.config.firstSampleTimestamp
  {
  }

  lemma LastOfStream(sent: seq<SentShot>, m: int)
    requires Conforming(sent) && -1 <= m < |sent|
    ensures m >= 0 && After(sent[m]) == NextSequence(sent) ==> m == |sent| - 1
  {
    if 0 <= m < |sent| - 1 {
      SentStream.Chained(sent, m, |sent| - 1);
      Sent(sent, |sent| - 1);
      hide Conforming, Accepts;
    }
  }
}
