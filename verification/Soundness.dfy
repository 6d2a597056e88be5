/** Soundness of the recorder under loss, duplication and reordering: in every run each COMPLETE record's
    extent holds exactly the samples of the sent shot it names, and COMPLETE records ascend. */
module Soundness {
  import opened Crc32
  import opened Protocol
  import opened Packetizer
  import opened Ordering
  import opened RunFormat
  import opened ShotModel
  import opened SentVerdicts
  import opened RunModel
  import opened SentStream
  import Verdicts
  import Publication

  /** A COMPLETE record and the sent shot it stands for. */
  ghost predicate RecordsShot(file: seq<Byte>, r: IndexRecord, shot: SentShot) {
    && RecordSays(r, shot.config, shot.samples)
    && r.extent.offset + r.extent.bytes <= |file|
    && file[r.extent.offset..r.extent.offset + r.extent.bytes] == shot.samples
  }

  /** A COMPLETE record is that of a sent shot, and has a timestamp: a shot sent with none is never COMPLETE. */
  ghost predicate Faithful(sent: seq<SentShot>, file: seq<Byte>, r: IndexRecord) {
    r.complete ==> r.firstSampleTimestamp > 0 && exists k | 0 <= k < |sent| :: RecordsShot(file, r, sent[k])
  }

  /** COMPLETE records ascend in identity and in time. */
  predicate Ascending(rs: seq<IndexRecord>) {
    forall i, j | 0 <= i < j < |rs| && rs[i].complete && rs[j].complete ::
      rs[i].shotId < rs[j].shotId && rs[i].firstSampleTimestamp < rs[j].firstSampleTimestamp
  }

  ghost predicate FaithfulLog(sent: seq<SentShot>, log: seq<Write>) {
    && (forall r | r in Records(log) :: Faithful(sent, SamplesFile(log), r))
    && Ascending(Records(log))
  }

  // ----- what every step keeps -----

  ghost predicate LastKnown(sent: seq<SentShot>, ctx: Context) {
    ctx.last.Some? ==>
      exists k | 0 <= k < |sent| ::
        ctx.last.value == LastShot(sent[k].config.shotId, sent[k].config.firstSampleTimestamp)
  }

  /** The last timed shot is no earlier than any COMPLETE one. */
  ghost predicate Behind(rs: seq<IndexRecord>, ctx: Context) {
    forall r | r in rs && r.complete :: ctx.last.Some? && r.shotId <= ctx.last.value.shotId
  }

  ghost predicate OpenShots(sent: seq<SentShot>, shots: seq<Shot>) {
    && (forall i | 0 <= i < |shots| :: Known(sent, shots[i]))
    && (forall i, j | 0 <= i < j < |shots| :: shots[i].shotId != shots[j].shotId)
  }

  /** Open shots whose STREAM_INFO arrived come after the last timed shot. */
  ghost predicate Ahead(shots: seq<Shot>, ctx: Context) {
    forall i | 0 <= i < |shots| && shots[i].info.Info? ::
      ctx.last.Some? ==> shots[i].shotId > ctx.last.value.shotId
  }

  ghost predicate Sound(sent: seq<SentShot>, run: Run) {
    && Conforming(sent)
    && FaithfulLog(sent, run.log)
    && LastKnown(sent, run.context)
    && Behind(Records(run.log), run.context)
    && OpenShots(sent, run.shots)
    && Ahead(run.shots, run.context)
  }

  lemma KnownInfo(sent: seq<SentShot>, s: Shot) returns (k: nat)
    requires Conforming(sent) && Known(sent, s)
    ensures k < |sent| && ShotFrom(s, sent[k].config, sent[k].samples)
    ensures s.shotId == sent[k].config.shotId
    ensures OrderKey(s) == if s.info.Info? then sent[k].config.initialSequence else U64_MAX
    ensures sent[k].config.initialSequence < U64_MAX
  {
    k :| 0 <= k < |sent| && ShotFrom(s, sent[k].config, sent[k].samples);
    Sent(sent, k);
    hide Accepts, Datagrams, DataPackets;
  }

  /** Of the shots with a STREAM_INFO the lowest is the earliest. */
  lemma LowestIsFirst(sent: seq<SentShot>, shots: seq<Shot>, i: nat, j: nat)
    requires Conforming(sent) && OpenShots(sent, shots) && IsLowest(shots, i)
    requires j < |shots| && i != j && shots[j].info.Info?
    ensures shots[i].info.Info? && shots[i].shotId < shots[j].shotId
  {
    var a := KnownInfo(sent, shots[i]);
    var b := KnownInfo(sent, shots[j]);
    hide Conforming, ShotFrom, Known, Lowest;
    ByShotId(sent, a, b);
    ByShotId(sent, b, a);
  }

  /** The verdict on a known shot, as a sound run needs it. */
  lemma KnownVerdict(sent: seq<SentShot>, ctx: Context, s: Shot) returns (k: nat)
    requires Conforming(sent) && Known(sent, s)
    ensures k < |sent| && s.shotId == sent[k].config.shotId
    ensures var v := Judge(ctx, s);
      && (FirstTimestamp(v.data) == 0 || FirstTimestamp(v.data) == sent[k].config.firstSampleTimestamp)
      && (!v.issues.Any() ==>
            && s.info.Info?
            && Payloads(v.placed) == Payloads(v.data) == sent[k].samples
            && FirstTimestamp(v.data) == sent[k].config.firstSampleTimestamp > 0
            && (forall n: nat :: RecordSays(RecordOf(s, v, n), sent[k].config, sent[k].samples))
            && ContinuityOk(ctx, sent[k].config))
  {
    k := KnownInfo(sent, s);
    Sent(sent, k);
    FiledTimestamp(s, sent[k].config, sent[k].samples, ctx);
    if !Judge(ctx, s).issues.Any() {
      Verdicts.NoIssues(ctx, s);
      Verdicts.NothingAbsent(s);
      JudgeSent(ctx, s, sent[k].config, sent[k].samples);
      forall n: nat
        ensures RecordSays(RecordOf(s, Judge(ctx, s), n), sent[k].config, sent[k].samples)
      {
        SentRecord(ctx, s, sent[k].config, sent[k].samples, n);
      }
    }
    hide Judge, Conforming, ShotFrom, Known, Accepts, Payloads, SequenceIsComplete, ContinuityOk;
  }

  // ----- publishing -----

  lemma FaithfulLonger(sent: seq<SentShot>, file: seq<Byte>, more: seq<Byte>, r: IndexRecord)
    requires Faithful(sent, file, r)
    ensures Faithful(sent, file + more, r)
  {
    if r.complete {
      var k :| 0 <= k < |sent| && RecordsShot(file, r, sent[k]);
      var a, b := r.extent.offset, r.extent.offset + r.extent.bytes;
      assert (file + more)[a..b] == file[a..b];
      assert RecordsShot(file + more, r, sent[k]);
    }
  }

  lemma PublishFaithful(sent: seq<SentShot>, run: Run, s: Shot)
    requires Conforming(sent) && Known(sent, s)
    requires FaithfulLog(sent, run.log)
    requires LastKnown(sent, run.context) && Behind(Records(run.log), run.context)
    ensures FaithfulLog(sent, Publish(run, s).log)
  {
    hide Judge, Faithful, Known, RecordsShot, Conforming, Ascending, ContinuityOk, Publish, LastKnown, Behind,
         Payloads, FirstTimestamp;
    Publication.PublishedFiles(run, s);
    var k := KnownVerdict(sent, run.context, s);
    var v := Judge(run.context, s);
    var rs, file := Records(run.log), SamplesFile(run.log);
    var r := RecordOf(s, v, |file|);
    RecordFaithful(sent, s, v, file, k);
    var more := if v.issues.Any() then [] else Payloads(v.placed);
    forall q | q in rs
      ensures Faithful(sent, file + more, q)
    {
      FaithfulLonger(sent, file, more, q);
    }
    if !v.issues.Any() {
      ByLast(sent, run, k);
    }
    AscendingNext(rs, r);
  }

  lemma RecordFaithful(sent: seq<SentShot>, s: Shot, v: Verdict, file: seq<Byte>, k: nat)
    requires k < |sent| && s.shotId == sent[k].config.shotId
    requires !v.issues.Any() ==>
               Payloads(v.placed) == Payloads(v.data) == sent[k].samples
               && FirstTimestamp(v.data) == sent[k].config.firstSampleTimestamp > 0
               && RecordSays(RecordOf(s, v, |file|), sent[k].config, sent[k].samples)
    ensures Faithful(sent, file + (if v.issues.Any() then [] else Payloads(v.placed)), RecordOf(s, v, |file|))
  {
    if !v.issues.Any() {
      var whole := file + Payloads(v.placed);
      assert whole[|file|..|file| + |Payloads(v.data)|] == Payloads(v.placed);
      assert RecordsShot(whole, RecordOf(s, v, |file|), sent[k]);
    }
  }

  lemma AscendingNext(rs: seq<IndexRecord>, r: IndexRecord)
    requires Ascending(rs)
    requires r.complete ==> forall q | q in rs && q.complete ::
               q.shotId < r.shotId && q.firstSampleTimestamp < r.firstSampleTimestamp
    ensures Ascending(rs + [r])
  {
  }

  /** A shot that continues after the last timed one comes after every COMPLETE record. */
  lemma ByLast(sent: seq<SentShot>, run: Run, k: nat)
    requires Conforming(sent) && k < |sent| && FaithfulLog(sent, run.log)
    requires LastKnown(sent, run.context) && Behind(Records(run.log), run.context)
    requires ContinuityOk(run.context, sent[k].config)
    ensures forall q | q in Records(run.log) && q.complete ::
              q.shotId < sent[k].config.shotId && q.firstSampleTimestamp < sent[k].config.firstSampleTimestamp
  {
    hide Conforming, Ascending;
    forall q | q in Records(run.log) && q.complete
      ensures q.shotId < sent[k].config.shotId && q.firstSampleTimestamp < sent[k].config.firstSampleTimestamp
    {
      assert Faithful(sent, SamplesFile(run.log), q);
      var j :| 0 <= j < |sent| && RecordsShot(SamplesFile(run.log), q, sent[j]);
      var l :| 0 <= l < |sent| && run.context.last.value
                                  == LastShot(sent[l].config.shotId, sent[l].config.firstSampleTimestamp);
      ByShotId(sent, j, l);
    }
  }

  lemma PublishSound(sent: seq<SentShot>, run: Run, i: nat)
    requires Sound(sent, run) && IsLowest(run.shots, i) && run.shots[i].info.Info?
    ensures Sound(sent, RemovePublished(run, i))
  {
    hide Judge, Known, Conforming, FaithfulLog, RecordOf, NextContext, Publish, LastKnown, Behind, OpenShots, Ahead,
         ContinuityOk, Payloads;
    var s := run.shots[i];
    OpenOthers(sent, run.shots, i);
    PublishFaithful(sent, run, s);
    var k := KnownVerdict(sent, run.context, s);
    Sent(sent, k);
    AheadOf(run.shots, run.context, i);
    PublishLast(sent, run, s, k);
    AheadOthers(sent, run.shots, run.context, Publish(run, s).context, i);
  }

  lemma OpenOthers(sent: seq<SentShot>, shots: seq<Shot>, i: nat)
    requires OpenShots(sent, shots) && i < |shots|
    ensures Known(sent, shots[i]) && OpenShots(sent, Remove(shots, i))
  {
    hide Known;
  }

  lemma AheadOf(shots: seq<Shot>, ctx: Context, i: nat)
    requires Ahead(shots, ctx) && i < |shots| && shots[i].info.Info?
    ensures ctx.last.Some? ==> shots[i].shotId > ctx.last.value.shotId
  {
  }

  lemma AheadOthers(sent: seq<SentShot>, shots: seq<Shot>, ctx: Context, next: Context, i: nat)
    requires Conforming(sent) && OpenShots(sent, shots) && IsLowest(shots, i) && shots[i].info.Info?
    requires Ahead(shots, ctx)
    requires next.last == ctx.last || (next.last.Some? && next.last.value.shotId == shots[i].shotId)
    ensures Ahead(Remove(shots, i), next)
  {
    hide Conforming, OpenShots, OrderKey;
    forall j | 0 <= j < |shots| && j != i && shots[j].info.Info?
      ensures shots[i].shotId < shots[j].shotId
    {
      LowestIsFirst(sent, shots, i, j);
    }
  }

  lemma PublishLast(sent: seq<SentShot>, run: Run, s: Shot, k: nat)
    requires k < |sent| && s.shotId == sent[k].config.shotId
    requires LastKnown(sent, run.context) && Behind(Records(run.log), run.context)
    requires run.context.last.Some? ==> s.shotId > run.context.last.value.shotId
    requires var v := Judge(run.context, s);
      && (FirstTimestamp(v.data) == 0 || FirstTimestamp(v.data) == sent[k].config.firstSampleTimestamp)
      && (!v.issues.Any() ==> FirstTimestamp(v.data) > 0)
    ensures var q := Publish(run, s);
      && LastKnown(sent, q.context) && Behind(Records(q.log), q.context)
      && (q.context.last == run.context.last || (q.context.last.Some? && q.context.last.value.shotId == s.shotId))
  {
    Publication.PublishedFiles(run, s);
    hide Judge;
  }

  // ----- ingesting -----

  lemma SortKnown(sent: seq<SentShot>, s: Shot)
    requires Known(sent, s)
    ensures Known(sent, SortPackets(s))
  {
    SameMembers(s.packets, Sort(BySequence, s.packets));
    DistinctPermutes(s.packets, Sort(BySequence, s.packets));
    var k :| 0 <= k < |sent| && ShotFrom(s, sent[k].config, sent[k].samples);
    hide Accepts, Datagrams, Sort, Distinct;
    assert ShotFrom(SortPackets(s), sent[k].config, sent[k].samples);
  }

  lemma ReplaceOpen(sent: seq<SentShot>, shots: seq<Shot>, i: nat, t: Shot)
    requires OpenShots(sent, shots) && i < |shots|
    requires Known(sent, t) && t.shotId == shots[i].shotId
    ensures OpenShots(sent, shots[i := t])
  {
    hide Known;
  }

  lemma {:induction false} FinalizeReadySound(sent: seq<SentShot>, run: Run)
    requires Sound(sent, run)
    ensures Sound(sent, FinalizeReady(run))
    decreases |run.shots|
  {
    hide Known, Conforming, FaithfulLog, LastKnown, Behind, OpenShots, RemovePublished;
    if run.shots != [] {
      var i := Lowest(run.shots);
      if SequenceIsComplete(run.shots[i]) {
        hide Sound;
        CompleteBounded(run.shots[i]);
        PublishSound(sent, run, i);
        Publication.RemovedShots(run, i);
        FinalizeReadySound(sent, RemovePublished(run, i));
      } else {
        OpenOthers(sent, run.shots, i);
        SortKnown(sent, run.shots[i]);
        ReplaceOpen(sent, run.shots, i, SortPackets(run.shots[i]));
      }
    }
  }

  /** A datagram that is held already is held as it is. */
  lemma HeldIsSame(c: Config, samples: seq<Byte>, s: Shot, d: Datagram)
    requires ShotFrom(s, c, samples) && d in Datagrams(c, samples) && Holds(s.packets, d.Sequence())
    ensures d in s.packets
  {
    hide Accepts, Datagrams, DataPackets;
    var ds := Datagrams(c, samples);
    var p :| p in s.packets && p.Sequence() == d.Sequence();
    var i :| 0 <= i < |ds| && ds[i] == d;
    SentShots.SequenceAt(c, samples, i);
    BySequenceUnique(c, samples, p, i);
    BySequenceUnique(c, samples, d, i);
  }

  /** A shot from one sent shot stays so as it takes another of its datagrams. */
  lemma AddFrom(c: Config, samples: seq<Byte>, s: Shot, ns: nat, d: Datagram)
    requires ShotFrom(s, c, samples) && d in Datagrams(c, samples)
    ensures Holds(s.packets, d.Sequence()) ==> d in s.packets && ShotFrom(AddPacket(s, ns, d), c, samples)
    ensures !Holds(s.packets, d.Sequence()) ==>
              ShotFrom(NoteObject(AddPacket(s, ns, d), d), c, samples)
              && NoteObject(AddPacket(s, ns, d), d).packets == s.packets + [d]
  {
    if Holds(s.packets, d.Sequence()) {
      HeldIsSame(c, samples, s, d);
      hide Accepts, Datagrams, InfoDatagram, EndDatagram;
    } else {
      ObjectsOf(c, samples, d);
      hide Accepts, Datagrams, InfoDatagram, EndDatagram;
      assert d !in s.packets;
    }
  }

  /** Only the first and last datagram of a shot carry objects. */
  lemma ObjectsOf(c: Config, samples: seq<Byte>, d: Datagram)
    requires Accepts(c, samples) && d in Datagrams(c, samples)
    ensures d.payload.InfoObject? ==> d == InfoDatagram(c)
    ensures d.payload.EndObject? ==> d == EndDatagram(c, samples)
    ensures d.payload.Raw? ==> d.payload.kind == DataPacket
    ensures d == InfoDatagram(c) ==> d.payload.InfoObject? && Info(d.header, d.payload.info) == InfoOf(c)
    ensures d == EndDatagram(c, samples) ==>
              d.payload.EndObject? && End(d.header, d.payload.end) == EndOf(c, samples)
  {
    hide Accepts, Datagrams, DataPackets, Checksum;
    var ds := Datagrams(c, samples);
    var i :| 0 <= i < |ds| && ds[i] == d;
    SentShots.SequenceAt(c, samples, i);
  }

  /** The open shot after `AddTo` and before finalizing. */
  function Added(s: Shot, ns: nat, d: Datagram): Shot {
    if Holds(s.packets, d.Sequence()) then AddPacket(s, ns, d) else NoteObject(AddPacket(s, ns, d), d)
  }

  lemma AddToParts(run: Run, i: nat, ns: nat, d: Datagram)
    requires i < |run.shots|
    ensures var q := AddTo(run, i, ns, d);
      && q.shots == run.shots[i := Added(run.shots[i], ns, d)]
      && q.log == run.log && q.context.last == run.context.last && q.context.expected == run.context.expected
      && q.context.maxShotBytes == run.context.maxShotBytes
      && q.selected == run.selected && q.pending == run.pending && q.counts == run.counts
  {
    hide AddPacket, NoteObject;
  }

  lemma AddKnown(sent: seq<SentShot>, s: Shot, ns: nat, d: Datagram)
    requires Conforming(sent) && Known(sent, s) && OfStream(sent, d) && d.header.shotId == s.shotId
    ensures Known(sent, Added(s, ns, d)) && Added(s, ns, d).shotId == s.shotId
  {
    var j := KnownInfo(sent, s);
    var k :| 0 <= k < |sent| && Accepts(sent[k].config, sent[k].samples)
             && d in Datagrams(sent[k].config, sent[k].samples);
    SentTimestamp(sent[k].config, sent[k].samples, d);
    ByShotId(sent, j, k);
    AddFrom(sent[k].config, sent[k].samples, s, ns, d);
    AddedId(s, ns, d);
    hide Conforming, Accepts, Datagrams, ShotFrom;
    assert ShotFrom(Added(s, ns, d), sent[k].config, sent[k].samples);
  }

  lemma AddedId(s: Shot, ns: nat, d: Datagram)
    ensures Added(s, ns, d).shotId == s.shotId
  {
  }

  lemma AddSound(sent: seq<SentShot>, run: Run, i: nat, ns: nat, d: Datagram)
    requires Sound(sent, run) && i < |run.shots|
    requires OfStream(sent, d) && d.header.shotId == run.shots[i].shotId
    requires run.context.last.Some? ==> d.header.shotId > run.context.last.value.shotId
    ensures Sound(sent, AddTo(run, i, ns, d))
  {
    hide Known, Conforming, FaithfulLog, AddTo, Added, OfStream;
    AddToParts(run, i, ns, d);
    OpenOthers(sent, run.shots, i);
    AddKnown(sent, run.shots[i], ns, d);
    ReplaceOpen(sent, run.shots, i, Added(run.shots[i], ns, d));
  }

  lemma NewKnown(sent: seq<SentShot>, d: Datagram)
    requires Conforming(sent) && OfStream(sent, d)
    ensures Known(sent, NewShot(d.header.shotId))
  {
    var k :| 0 <= k < |sent| && Accepts(sent[k].config, sent[k].samples)
             && d in Datagrams(sent[k].config, sent[k].samples);
    SentTimestamp(sent[k].config, sent[k].samples, d);
    hide Accepts, Datagrams, InfoDatagram, EndDatagram;
    assert ShotFrom(NewShot(d.header.shotId), sent[k].config, sent[k].samples);
  }

  lemma WithShotSound(sent: seq<SentShot>, run: Run, d: Datagram)
    requires Sound(sent, run) && OfStream(sent, d)
    ensures var q := WithShot(run, d.header.shotId);
      q.Some? ==>
        && Sound(sent, q.value) && q.value.shots[IndexOf(q.value.shots, d.header.shotId)].shotId == d.header.shotId
        && q.value.context == run.context && q.value.selected == run.selected && q.value.pending == run.pending
  {
    hide Known, Conforming, FaithfulLog, OfStream, LastKnown, Behind;
    NewKnown(sent, d);
    var q := WithShot(run, d.header.shotId);
    if q.Some? {
      OpenWith(sent, run, d.header.shotId);
      AheadWith(run, d.header.shotId);
    }
  }

  lemma OpenWith(sent: seq<SentShot>, run: Run, shotId: U64)
    requires OpenShots(sent, run.shots) && Known(sent, NewShot(shotId)) && WithShot(run, shotId).Some?
    ensures OpenShots(sent, WithShot(run, shotId).value.shots)
  {
    hide Known;
  }

  lemma AheadWith(run: Run, shotId: U64)
    requires Ahead(run.shots, run.context) && WithShot(run, shotId).Some?
    ensures Ahead(WithShot(run, shotId).value.shots, run.context)
  {
  }

  lemma AcceptSound(sent: seq<SentShot>, source: Source, run: Run, a: Arrival)
    requires Sound(sent, run) && run.selected == Some(SelectionOf(sent, source))
    requires Authentic(sent, source, a)
    ensures Sound(sent, Accept(run, a).run)
  {
    hide Sound, FinalizeReady, AddTo, EndsStream, WithShot, Conforming, OfStream;
    assert Conforming(sent) by { SoundConforming(sent, run); }
    if a.Undecodable? || a.d.Length() > MAX_DATAGRAM || Foreign(run.selected.value, a) {
      Recounted(sent, run, Accept(run, a).run);
    } else if a.d.Type() == HeartbeatPacket {
      Recounted(sent, run, Accept(run, a).run);
    } else {
      var r := run.(counts := run.counts.(valid := run.counts.valid + 1));
      Recounted(sent, run, r);
      ClosingType(sent);
      WithShotSound(sent, r, a.d);
      if run.context.last.Some? && a.d.header.shotId <= run.context.last.value.shotId {
        Recounted(sent, run, Accept(run, a).run);
      } else {
        var q := WithShot(r, a.d.header.shotId);
        if q.Some? {
          var i := IndexOf(q.value.shots, a.d.header.shotId);
          AddSound(sent, q.value, i, a.receiveNs, a.d);
          FinalizeReadySound(sent, AddTo(q.value, i, a.receiveNs, a.d));
        }
      }
    }
  }

  lemma SoundConforming(sent: seq<SentShot>, run: Run)
    requires Sound(sent, run)
    ensures Conforming(sent)
  {
  }

  lemma ClosingType(sent: seq<SentShot>)
    requires Conforming(sent)
    ensures Closing(sent).Type() == HeartbeatPacket
  {
  }

  /** Counters and the terminal mark do not matter to soundness. */
  lemma Recounted(sent: seq<SentShot>, run: Run, other: Run)
    requires Sound(sent, run)
    requires other == run.(counts := other.counts, terminal := other.terminal, selected := other.selected,
                           pending := other.pending)
    ensures Sound(sent, other)
  {
  }

  // ----- whole runs -----

  ghost predicate SoundSoFar(sent: seq<SentShot>, source: Source, run: Run) {
    && Sound(sent, run)
    && (run.selected.Some? ==> run.selected.value == SelectionOf(sent, source))
    && (forall i | 0 <= i < |run.pending| :: Authentic(sent, source, run.pending[i]))
  }

  lemma {:induction false} AcceptAllSound(sent: seq<SentShot>, source: Source, run: Run, pending: seq<Arrival>)
    requires Sound(sent, run) && run.selected == Some(SelectionOf(sent, source))
    requires forall i | 0 <= i < |pending| :: Authentic(sent, source, pending[i])
    ensures Sound(sent, AcceptAll(run, pending).run)
  {
    hide Sound, Accept, Conforming;
    assert Conforming(sent) by { SoundConforming(sent, run); }
    if pending != [] {
      var init, a := pending[..|pending| - 1], pending[|pending| - 1];
      AcceptAllSound(sent, source, run, init);
      if AcceptAll(run, init).ok {
        AcceptSound(sent, source, AcceptAll(run, init).run, a);
      }
    }
  }

  /** A STREAM_INFO of the stream selects the stream's run. */
  lemma Selects(sent: seq<SentShot>, source: Source, a: Arrival)
    requires Conforming(sent) && Authentic(sent, source, a) && a.Arrival? && a.d.Type() == StreamInfoPacket
    ensures SelectedBy(a) == SelectionOf(sent, source)
  {
    ClosingType(sent);
    var k :| 0 <= k < |sent| && Accepts(sent[k].config, sent[k].samples)
             && a.d in Datagrams(sent[k].config, sent[k].samples);
    SentTimestamp(sent[k].config, sent[k].samples, a.d);
    Sent(sent, k);
  }

  lemma IngestSound(sent: seq<SentShot>, source: Source, run: Run, a: Arrival)
    requires SoundSoFar(sent, source, run) && Authentic(sent, source, a)
    ensures SoundSoFar(sent, source, Ingest(run, a).run)
  {
    assert Conforming(sent) by { SoundConforming(sent, run); }
    hide Sound, Accept, Conforming, Authentic;
    if run.selected.Some? {
      AcceptSound(sent, source, run, a);
      AcceptKeeps(run, a);
    } else if a.Arrival? && a.d.Length() <= MAX_DATAGRAM && a.d.Type() == StreamInfoPacket {
      Selects(sent, source, a);
      var q := run.(selected := Some(SelectedBy(a)));
      Recounted(sent, run, q);
      AcceptAllSound(sent, source, q, run.pending);
      var p := AcceptAll(q, run.pending).run;
      Recounted(sent, p, p.(pending := []));
      AcceptSound(sent, source, p.(pending := []), a);
      AcceptKeeps(p.(pending := []), a);
    } else {
      Recounted(sent, run, Ingest(run, a).run);
    }
  }

  lemma {:induction false} EveryRunSound(sent: seq<SentShot>, source: Source, maxShotBytes: nat, arrivals: seq<Arrival>)
    requires Conforming(sent)
    requires forall i | 0 <= i < |arrivals| :: Authentic(sent, source, arrivals[i])
    ensures SoundSoFar(sent, source, IngestAll(NewRun(maxShotBytes), arrivals).run)
  {
    hide Ingest, SoundSoFar, Authentic, Conforming;
    if arrivals == [] {
      assert SoundSoFar(sent, source, NewRun(maxShotBytes)) by { NewSound(sent, source, maxShotBytes); }
    } else {
      var init, a := arrivals[..|arrivals| - 1], arrivals[|arrivals| - 1];
      EveryRunSound(sent, source, maxShotBytes, init);
      var q := IngestAll(NewRun(maxShotBytes), init);
      if q.ok {
        IngestSound(sent, source, q.run, a);
      }
    }
  }

  lemma NewSound(sent: seq<SentShot>, source: Source, maxShotBytes: nat)
    requires Conforming(sent)
    ensures SoundSoFar(sent, source, NewRun(maxShotBytes))
  {
    hide Conforming;
    assert Records([]) == [];
  }

  // ----- closing a run -----

  /** Shots without STREAM_INFO are quarantined. */
  lemma QuarantineFaithful(sent: seq<SentShot>, run: Run, s: Shot)
    requires FaithfulLog(sent, run.log) && s.info.NoInfo?
    ensures FaithfulLog(sent, Publish(run, s).log)
  {
    Publication.PublishedFiles(run, s);
    Unannounced(run.context, s);
    hide Judge, Faithful, Ascending;
    var rs, file := Records(run.log), SamplesFile(run.log);
    var r := RecordOf(s, Judge(run.context, s), |file|);
    AscendingNext(rs, r);
    assert Faithful(sent, file + [], r) by { Quarantined(sent, file + [], r); }
    forall q | q in rs
      ensures Faithful(sent, file + [], q)
    {
      FaithfulLonger(sent, file, [], q);
    }
  }

  lemma Unannounced(ctx: Context, s: Shot)
    requires s.info.NoInfo?
    ensures Judge(ctx, s).issues.Any()
  {
  }

  lemma Quarantined(sent: seq<SentShot>, file: seq<Byte>, r: IndexRecord)
    requires !r.complete
    ensures Faithful(sent, file, r)
  {
  }

  ghost predicate Unnamed(shots: seq<Shot>) {
    forall i | 0 <= i < |shots| :: shots[i].info.NoInfo?
  }

  lemma {:induction false} DrainUnnamed(sent: seq<SentShot>, run: Run)
    requires FaithfulLog(sent, run.log) && Unnamed(run.shots)
    ensures FaithfulLog(sent, FinalizeRemaining(run).log)
    decreases |run.shots|
  {
    hide FaithfulLog, RemovePublished, Publish, Remove, Unnamed;
    if run.shots != [] {
      var i := Lowest(run.shots);
      UnnamedRest(run.shots, i);
      QuarantineFaithful(sent, run, run.shots[i]);
      Publication.RemovedShots(run, i);
      RemovedLog(run, i);
      DrainUnnamed(sent, RemovePublished(run, i));
    }
  }

  lemma UnnamedRest(shots: seq<Shot>, i: nat)
    requires Unnamed(shots) && i < |shots|
    ensures shots[i].info.NoInfo? && Unnamed(Remove(shots, i)) && |Remove(shots, i)| < |shots|
  {
  }

  lemma RemovedLog(run: Run, i: nat)
    requires i < |run.shots|
    ensures RemovePublished(run, i).log == Publish(run, run.shots[i]).log
  {
  }

  /** When the lowest shot has no STREAM_INFO, none has. */
  lemma AllUnnamed(sent: seq<SentShot>, shots: seq<Shot>, i: nat)
    requires Conforming(sent) && OpenShots(sent, shots) && IsLowest(shots, i) && shots[i].info.NoInfo?
    ensures Unnamed(shots)
  {
    hide Conforming;
    forall j | 0 <= j < |shots|
      ensures shots[j].info.NoInfo?
    {
      var k := KnownInfo(sent, shots[j]);
    }
  }

  lemma {:induction false} DrainSound(sent: seq<SentShot>, run: Run)
    requires Sound(sent, run)
    ensures FaithfulLog(sent, FinalizeRemaining(run).log)
    decreases |run.shots|
  {
    hide Known, Conforming, FaithfulLog, LastKnown, Behind, OpenShots, RemovePublished;
    if run.shots != [] {
      var i := Lowest(run.shots);
      Publication.RemovedShots(run, i);
      if run.shots[i].info.Info? {
        PublishSound(sent, run, i);
        DrainSound(sent, RemovePublished(run, i));
      } else {
        AllUnnamed(sent, run.shots, i);
        DrainUnnamed(sent, run);
      }
    }
  }

  /** The samples published for a conforming stream are the stream's, whatever the network does, before closing
      the run and after it, and also when the recorder gives up. */
  lemma PublishedAreSent(sent: seq<SentShot>, source: Source, maxShotBytes: nat, arrivals: seq<Arrival>)
    requires Conforming(sent)
    requires forall i | 0 <= i < |arrivals| :: Authentic(sent, source, arrivals[i])
    ensures FaithfulLog(sent, IngestAll(NewRun(maxShotBytes), arrivals).run.log)
    ensures FaithfulLog(sent, ReceiveRun(maxShotBytes, arrivals).run.log)
  {
    hide Conforming, Authentic;
    EveryRunSound(sent, source, maxShotBytes, arrivals);
    DrainSound(sent, IngestAll(NewRun(maxShotBytes), arrivals).run);
  }
}
