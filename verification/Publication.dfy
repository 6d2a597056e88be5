/** What the recorder's files hold at every moment, for whatever datagrams arrived. */
module Publication {
  import opened Crc32
  import opened Protocol
  import opened Ordering
  import opened RunFormat
  import opened ShotModel
  import opened Tiling
  import opened Verdicts
  import opened CompleteShots
  import opened RunModel

  /** The sample bytes that records name. */
  function Published(rs: seq<IndexRecord>): nat {
    if rs == [] then 0
    else Published(rs[..|rs| - 1]) + if rs[|rs| - 1].extent.Extent? then rs[|rs| - 1].extent.bytes else 0
  }

  /** Each COMPLETE record's extent starts where the extents before it end. */
  predicate Consecutive(rs: seq<IndexRecord>) {
    forall i | 0 <= i < |rs| :: rs[i].complete ==> rs[i].extent.Extent? && rs[i].extent.offset == Published(rs[..i])
  }

  /** The bytes are whole frames of the record's geometry, tiled by DATA packets of its shot. */
  ghost predicate WholeFrames(bytes: seq<Byte>, r: IndexRecord, placed: seq<Datagram>) {
    && Tiles(placed, r.frameSamples) && Filled(placed) && Small(placed) && Distinct(placed)
    && FrameCount(placed, |placed|) == r.frameCount
    && (forall i | 0 <= i < |placed| :: placed[i].Type() == DataPacket && placed[i].header.shotId == r.shotId)
    && (forall i | 0 <= i < |placed| && placed[i].header.sampleOffset == 0 :: placed[i].header.flags.frameStart)
    && Payloads(placed) == bytes
  }

  ghost predicate Framed(bytes: seq<Byte>, r: IndexRecord) {
    && |bytes| == 4 * (r.frameCount * r.frameSamples)
    && exists placed :: WholeFrames(bytes, r, placed)
  }

  /** Nothing missing between a first and a later last packet, a timestamp, a profile the recorder knows and no
      complaint by the sender. */
  predicate Sane(r: IndexRecord) {
    && r.missingPackets == 0 && r.firstPacketSequence < r.lastPacketSequence && r.firstSampleTimestamp > 0
    && r.frameSamples > 0 && r.sampleBytesPerWord == 4 && (r.payloadFormat == 1 || r.payloadFormat == 2)
    && !r.sourceFlags.discontinuityBefore && !r.sourceFlags.sourceOverflow && !r.sourceFlags.senderDrop
  }

  /** Some packets follow all the rules and are what the record says. */
  ghost predicate Backed(r: IndexRecord) {
    exists s: Shot :: Whole(s) && Names(r, s)
  }

  /** The published bytes of a shot: a sane record and its checksum, and below 16 GiB, where the 32-bit
      sample offsets cannot wrap, whole frames. */
  ghost predicate Genuine(bytes: seq<Byte>, r: IndexRecord) {
    && Sane(r) && Checksum(bytes) == r.payloadCrc32 && Backed(r)
    && (|bytes| < SIXTEEN_GIB ==> Framed(bytes, r))
  }

  /** What a COMPLETE record promises about the sample file. */
  ghost predicate Kept(file: seq<Byte>, r: IndexRecord) {
    r.complete ==>
      && r.extent.Extent? && r.extent.offset + r.extent.bytes <= |file|
      && Genuine(file[r.extent.offset..r.extent.offset + r.extent.bytes], r)
  }

  /** What a reader of the two files finds: records that decode, name disjoint consecutive extents inside
      the sample file, and whose bytes are genuine. */
  ghost predicate Readable(log: seq<Write>) {
    var rs, file := Records(log), SamplesFile(log);
    && Consecutive(rs) && Published(rs) <= |file|
    && (forall r | r in rs :: DecodeAccepts(r) && Kept(file, r))
  }

  /** Readable after every single write, and no byte unnamed once all are done. */
  ghost predicate Durable(log: seq<Write>) {
    && (forall n | 0 <= n <= |log| :: Readable(log[..n]))
    && Published(Records(log)) == |SamplesFile(log)|
  }

  lemma LogNext(log: seq<Write>, w: Write)
    ensures SamplesFile(log + [w]) == SamplesFile(log) + (match w case AppendSamples(b) => b case AppendRecord(_) => [])
    ensures Records(log + [w]) == Records(log) + (match w case AppendSamples(_) => [] case AppendRecord(r) => [r])
  {
    assert (log + [w])[..|log|] == log;
  }

  /** A shot's samples and then its record. */
  lemma LogBoth(log: seq<Write>, bytes: seq<Byte>, r: IndexRecord)
    ensures SamplesFile(log + [AppendSamples(bytes), AppendRecord(r)]) == SamplesFile(log) + bytes
    ensures Records(log + [AppendSamples(bytes), AppendRecord(r)]) == Records(log) + [r]
  {
    var mid := log + [AppendSamples(bytes)];
    LogNext(log, AppendSamples(bytes));
    LogNext(mid, AppendRecord(r));
    assert log + [AppendSamples(bytes), AppendRecord(r)] == mid + [AppendRecord(r)];
  }

  lemma PublishedNext(rs: seq<IndexRecord>, r: IndexRecord)
    ensures Published(rs + [r]) == Published(rs) + if r.extent.Extent? then r.extent.bytes else 0
  {
    assert (rs + [r])[..|rs|] == rs;
  }

  lemma ConsecutiveNext(rs: seq<IndexRecord>, r: IndexRecord)
    requires Consecutive(rs)
    requires r.complete ==> r.extent.Extent? && r.extent.offset == Published(rs)
    ensures Consecutive(rs + [r])
  {
    forall i | 0 <= i < |rs| + 1
      ensures (rs + [r])[i].complete ==>
                (rs + [r])[i].extent.Extent? && (rs + [r])[i].extent.offset == Published((rs + [r])[..i])
    {
      assert (rs + [r])[..i] == rs[..i];
    }
  }

  lemma KeptLonger(file: seq<Byte>, more: seq<Byte>, r: IndexRecord)
    requires Kept(file, r)
    ensures Kept(file + more, r)
  {
    hide Genuine;
    if r.complete {
      var a, b := r.extent.offset, r.extent.offset + r.extent.bytes;
      assert (file + more)[a..b] == file[a..b];
    }
  }

  lemma DurableAll(log: seq<Write>)
    requires Durable(log)
    ensures Readable(log)
  {
    assert log[..|log|] == log;
  }

  /** A record written without samples. */
  lemma QuarantineDurable(log: seq<Write>, r: IndexRecord)
    requires Durable(log) && !r.complete && DecodeAccepts(r)
    ensures Durable(log + [AppendRecord(r)])
  {
    hide DecodeAccepts, Consecutive, Genuine, Kept;
    Quarantined(SamplesFile(log), r);
    DurableAll(log);
    LogNext(log, AppendRecord(r));
    PublishedNext(Records(log), r);
    ConsecutiveNext(Records(log), r);
    assert SamplesFile(log + [AppendRecord(r)]) == SamplesFile(log);
    assert Readable(log + [AppendRecord(r)]);
    Prefixes(log, AppendRecord(r));
  }

  lemma Quarantined(file: seq<Byte>, r: IndexRecord)
    requires !r.complete && DecodeAccepts(r)
    ensures Kept(file, r) && r.extent == NoExtent
  {
  }

  lemma Prefixes(log: seq<Write>, w: Write)
    requires forall n | 0 <= n <= |log| :: Readable(log[..n])
    requires Readable(log + [w])
    ensures forall n | 0 <= n <= |log + [w]| :: Readable((log + [w])[..n])
  {
    forall n | 0 <= n <= |log + [w]|
      ensures Readable((log + [w])[..n])
    {
      if n <= |log| {
        assert (log + [w])[..n] == log[..n];
      } else {
        assert (log + [w])[..n] == log + [w];
      }
    }
  }

  /** Samples written but not yet named. */
  lemma SamplesReadable(log: seq<Write>, bytes: seq<Byte>)
    requires Readable(log)
    ensures Readable(log + [AppendSamples(bytes)])
  {
    LogNext(log, AppendSamples(bytes));
    assert Records(log + [AppendSamples(bytes)]) == Records(log);
    forall r | r in Records(log)
      ensures Kept(SamplesFile(log) + bytes, r)
    {
      KeptLonger(SamplesFile(log), bytes, r);
    }
  }

  /** A record appended to readable files, naming bytes that are there. */
  lemma RecordReadable(log: seq<Write>, r: IndexRecord)
    requires Readable(log) && DecodeAccepts(r) && r.complete && r.extent.Extent?
    requires r.extent.offset == Published(Records(log)) && r.extent.offset + r.extent.bytes == |SamplesFile(log)|
    requires Kept(SamplesFile(log), r)
    ensures Readable(log + [AppendRecord(r)])
    ensures Published(Records(log + [AppendRecord(r)])) == |SamplesFile(log + [AppendRecord(r)])|
  {
    hide Kept, DecodeAccepts, Consecutive, Records, SamplesFile, Published;
    LogNext(log, AppendRecord(r));
    PublishedNext(Records(log), r);
    ConsecutiveNext(Records(log), r);
    assert SamplesFile(log + [AppendRecord(r)]) == SamplesFile(log);
  }

  lemma PublishDurable(log: seq<Write>, bytes: seq<Byte>, r: IndexRecord)
    requires Durable(log) && DecodeAccepts(r) && r.complete
    requires r.extent == Extent(|SamplesFile(log)|, |bytes|)
    requires Kept(SamplesFile(log) + bytes, r)
    ensures Durable(log + [AppendSamples(bytes), AppendRecord(r)])
  {
    hide Kept, DecodeAccepts, Readable, Records, SamplesFile, Published;
    DurableAll(log);
    SamplesReadable(log, bytes);
    Prefixes(log, AppendSamples(bytes));
    var mid := log + [AppendSamples(bytes)];
    LogNext(log, AppendSamples(bytes));
    assert Records(mid) == Records(log);
    RecordReadable(mid, r);
    Prefixes(mid, AppendRecord(r));
    assert log + [AppendSamples(bytes), AppendRecord(r)] == mid + [AppendRecord(r)];
  }

  // ----- what every step of the recorder keeps -----

  ghost predicate ShotsOk(shots: seq<Shot>, now: nat) {
    && (forall i | 0 <= i < |shots| :: ShotOk(shots[i]) && shots[i].lastReceiveNs <= now)
    && (forall i, j | 0 <= i < j < |shots| :: shots[i].shotId != shots[j].shotId)
  }

  /** The pending packets, received in order and not after `now`. */
  ghost predicate PendingOk(pending: seq<Arrival>, now: nat) {
    && (forall i | 0 <= i < |pending| :: pending[i].Arrival? && pending[i].receiveNs <= now)
    && (forall i, j | 0 <= i < j < |pending| :: pending[i].receiveNs <= pending[j].receiveNs)
  }

  ghost predicate RunOk(run: Run, now: nat) {
    && Durable(run.log)
    && ShotsOk(run.shots, now)
    && PendingOk(run.pending, now)
    && (run.selected.None? ==> run.shots == [])
  }

  /** The two files after publishing a judged shot. */
  lemma PublishedFiles(run: Run, s: Shot)
    ensures var v := Judge(run.context, s);
            var r := RecordOf(s, v, |SamplesFile(run.log)|);
      && Records(Publish(run, s).log) == Records(run.log) + [r]
      && SamplesFile(Publish(run, s).log)
         == SamplesFile(run.log) + (if v.issues.Any() then [] else Payloads(v.placed))
  {
    var v := Judge(run.context, s);
    var r := RecordOf(s, v, |SamplesFile(run.log)|);
    hide Judge, RecordOf, NextContext, SamplesFile, Records, Payloads;
    LogNext(run.log, AppendRecord(r));
    LogBoth(run.log, Payloads(v.placed), r);
  }

  lemma PublishLog(run: Run, s: Shot)
    requires Durable(run.log) && ShotOk(s)
    ensures Durable(Publish(run, s).log)
  {
    var v := Judge(run.context, s);
    var file := SamplesFile(run.log);
    var record := RecordOf(s, v, |file|);
    hide Judge;
    if v.issues.Any() {
      QuarantineDurable(run.log, record);
    } else {
      CompleteBytes(run.context, s);
      NoIssues(run.context, s);
      if |Payloads(v.data)| < SIXTEEN_GIB {
        CompleteShape(run.context, s);
      }
      CompleteSane(run.context, s, |file|);
      CompleteBacked(run.context, s, |file|);
      CompleteKept(s, v, file);
      PublishDurable(run.log, Payloads(v.placed), record);
    }
  }

  lemma CompleteSane(c: Context, s: Shot, offset: nat)
    requires ShotOk(s) && !Judge(c, s).issues.Any()
    ensures Sane(RecordOf(s, Judge(c, s), offset))
  {
    NoIssues(c, s);
    hide Judge, Sort, Data, Tiles, TotalsOk, Malformed, FrameCount, Payloads, Checksum, EndFlagsOk, ShotOk, Missing;
    EndsApart(s);
  }

  lemma CompleteBacked(c: Context, s: Shot, offset: nat)
    requires ShotOk(s) && !Judge(c, s).issues.Any()
    ensures Backed(RecordOf(s, Judge(c, s), offset))
  {
    hide *;
    RecordNames(c, s, offset);
    Backing(RecordOf(s, Judge(c, s), offset), s);
  }

  lemma Backing(r: IndexRecord, s: Shot)
    requires Whole(s) && Names(r, s)
    ensures Backed(r)
  {
    hide Whole, Names;
  }

  /** STREAM_INFO and SHOT_END are two packets, so their sequences differ. */
  lemma EndsApart(s: Shot)
    requires ShotOk(s) && Missing(s) == 0
    ensures s.info.Info? && s.end.End? && s.info.header.packetSequence < s.end.header.packetSequence
  {
    hide AbsentOf;
    var info, end := Datagram(s.info.header, InfoObject(s.info.info)), Datagram(s.end.header, EndObject(s.end.end));
    assert info in s.packets && end in s.packets && info != end;
  }

  lemma CompleteKept(s: Shot, v: Verdict, file: seq<Byte>)
    requires ShotOk(s) && !v.issues.Any() && v.missing == 0
    requires |Payloads(v.data)| < SIXTEEN_GIB ==> WellFormed(s, v.placed)
    requires |Payloads(v.placed)| == |Payloads(v.data)| > 0
    requires Sane(RecordOf(s, v, |file|)) && Backed(RecordOf(s, v, |file|))
    ensures var r := RecordOf(s, v, |file|);
            r.complete && DecodeAccepts(r) && r.extent == Extent(|file|, |Payloads(v.placed)|)
            && Kept(file + Payloads(v.placed), r)
  {
    hide Framed, SourceFlagsOf, WellFormed, Sane, Backed, Payloads, Checksum, Frames, FrameSamples, Format, ShotOk;
    var r := RecordOf(s, v, |file|);
    var bytes := Payloads(v.placed);
    Ordered(s);
    assert (file + bytes)[|file|..|file| + |bytes|] == bytes;
    if |bytes| < SIXTEEN_GIB {
      CompleteFrames(s, v, r, bytes);
    }
  }

  lemma Ordered(s: Shot)
    requires ShotOk(s)
    ensures s.firstReceiveNs <= s.lastReceiveNs
  {
  }

  lemma CompleteFrames(s: Shot, v: Verdict, r: IndexRecord, bytes: seq<Byte>)
    requires ShotOk(s) && WellFormed(s, v.placed) && bytes == Payloads(v.placed)
    requires r.frameSamples == FrameSamples(s) && r.shotId == s.shotId
    requires r.frameCount == Frames(v) % 0x1_0000_0000
    ensures Framed(bytes, r)
  {
    hide Tiles, Filled, Small, Distinct, Payloads, Checksum, FrameCount, AbsentOf;
    forall i | 0 <= i < |v.placed| && v.placed[i].header.sampleOffset == 0
      ensures v.placed[i].header.flags.frameStart
    {
      StartMarked(v.placed, r.frameSamples, i);
    }
    assert WholeFrames(bytes, r, v.placed);
  }

  lemma SortPacketsOk(s: Shot)
    requires ShotOk(s)
    ensures ShotOk(SortPackets(s))
  {
    SameMembers(s.packets, Sort(BySequence, s.packets));
    DistinctPermutes(s.packets, Sort(BySequence, s.packets));
  }

  /** Adding a packet, with what its object announces, keeps a shot in order. */
  lemma AddPacketOk(s: Shot, ns: nat, d: Datagram)
    requires ShotOk(s) && s.lastReceiveNs <= ns && d.header.shotId == s.shotId
    ensures Holds(s.packets, d.Sequence()) ==> ShotOk(AddPacket(s, ns, d))
    ensures AddPacket(s, ns, d).lastReceiveNs == ns
    ensures !Holds(s.packets, d.Sequence()) ==>
              var t := NoteObject(AddPacket(s, ns, d), d);
              ShotOk(t) && t.lastReceiveNs == ns && t.shotId == s.shotId
  {
    hide NoteObject;
    var t := AddPacket(s, ns, d);
    if !Holds(s.packets, d.Sequence()) {
      assert d in t.packets;
      NoteObjectOk(t, d);
      NoteObjectAnnounced(s, t, d);
    }
  }

  lemma NoteObjectOk(t: Shot, d: Datagram)
    requires Belongs(t) && d in t.packets
    ensures Belongs(NoteObject(t, d))
    ensures NoteObject(t, d).lastReceiveNs == t.lastReceiveNs && NoteObject(t, d).shotId == t.shotId
  {
  }

  lemma NoteObjectAnnounced(s: Shot, t: Shot, d: Datagram)
    requires Announced(s) && t.packets == s.packets + [d]
    requires t.info == s.info && t.end == s.end && t.issues == s.issues
    ensures Announced(NoteObject(t, d))
  {
    hide Expected;
    var q := NoteObject(t, d);
    forall p | p in s.packets && Expected(p, s.info, s.end)
      ensures q.issues.conflict || Expected(p, q.info, q.end)
    {
      StaysExpected(s, t, d, p);
    }
    NowExpected(t, d);
    assert q.packets == s.packets + [d] && (q.issues.conflict || q.issues.protocol || q.issues == s.issues);
  }

  lemma StaysExpected(s: Shot, t: Shot, d: Datagram, p: Datagram)
    requires t.info == s.info && t.end == s.end && Expected(p, s.info, s.end)
    ensures var q := NoteObject(t, d); q.issues.conflict || Expected(p, q.info, q.end)
  {
  }

  lemma NowExpected(t: Shot, d: Datagram)
    ensures var q := NoteObject(t, d);
      q.issues.conflict || q.issues.protocol || (Expected(d, q.info, q.end) && q.issues == t.issues)
  {
  }

  ghost predicate CoreOk(run: Run, now: nat) {
    Durable(run.log) && ShotsOk(run.shots, now)
  }

  lemma RemovePublishedOk(run: Run, i: nat, now: nat)
    requires CoreOk(run, now) && i < |run.shots|
    ensures CoreOk(RemovePublished(run, i), now)
  {
    hide Judge, RecordOf, NextContext, Durable, ShotOk;
    PublishLog(run, run.shots[i]);
  }

  lemma {:induction false} FinalizeReadyOk(run: Run, now: nat)
    requires CoreOk(run, now)
    ensures CoreOk(FinalizeReady(run), now)
    decreases |run.shots|
  {
    hide Durable, ShotOk, RemovePublished, SequenceIsComplete;
    if run.shots != [] {
      var i := Lowest(run.shots);
      if SequenceIsComplete(run.shots[i]) {
        RemovedShots(run, i);
        RemovePublishedOk(run, i, now);
        FinalizeReadyOk(RemovePublished(run, i), now);
      } else {
        SortPacketsOk(run.shots[i]);
      }
    }
  }

  lemma RemovedShots(run: Run, i: nat)
    requires i < |run.shots|
    ensures RemovePublished(run, i).shots == Remove(run.shots, i)
  {
  }

  /** Closing the run leaves no shot open. */
  lemma {:induction false} FinalizeRemainingOk(run: Run, now: nat)
    requires CoreOk(run, now)
    ensures CoreOk(FinalizeRemaining(run), now) && FinalizeRemaining(run).shots == []
    decreases |run.shots|
  {
    hide Durable, ShotOk, RemovePublished;
    if run.shots != [] {
      var i := Lowest(run.shots);
      RemovedShots(run, i);
      RemovePublishedOk(run, i, now);
      FinalizeRemainingOk(RemovePublished(run, i), now);
    }
  }

  lemma AddToOk(run: Run, i: nat, ns: nat, d: Datagram)
    requires CoreOk(run, ns) && i < |run.shots| && d.header.shotId == run.shots[i].shotId
    ensures CoreOk(AddTo(run, i, ns, d), ns)
  {
    hide Durable, ShotOk, AddPacket, NoteObject, Holds;
    AddPacketOk(run.shots[i], ns, d);
    AddPacketId(run.shots[i], ns, d);
  }

  lemma AddPacketId(s: Shot, ns: nat, d: Datagram)
    ensures AddPacket(s, ns, d).shotId == s.shotId
  {
  }

  lemma CoreLater(run: Run, now: nat, later: nat)
    requires CoreOk(run, now) && now <= later
    ensures CoreOk(run, later)
  {
  }

  lemma WithShotOk(run: Run, shotId: U64, now: nat)
    requires CoreOk(run, now)
    ensures var q := WithShot(run, shotId);
            q.Some? ==>
              && CoreOk(q.value, now) && q.value.shots[IndexOf(q.value.shots, shotId)].shotId == shotId
              && |run.shots| <= |q.value.shots| <= |run.shots| + 1 && q.value.log == run.log
              && q.value.pending == run.pending && q.value.selected == run.selected && q.value.context == run.context
  {
    hide Durable;
    assert ShotOk(NewShot(shotId));
  }

  /** The receive time of an arrival, or of the ones before it. */
  function Now(a: Arrival, now: nat): nat {
    if a.Arrival? then a.receiveNs else now
  }

  lemma AcceptOk(run: Run, a: Arrival, now: nat)
    requires run.selected.Some? && CoreOk(run, now) && now <= Now(a, now)
    ensures CoreOk(Accept(run, a).run, Now(a, now))
  {
    hide Durable, ShotOk, FinalizeReady, AddTo, EndsStream, WithShot;
    CoreLater(run, now, Now(a, now));
    if a.Arrival? && !Foreign(run.selected.value, a) {
      var r := run.(counts := run.counts.(valid := run.counts.valid + 1));
      WithShotOk(r, a.d.header.shotId, a.receiveNs);
      var q := WithShot(r, a.d.header.shotId);
      if q.Some? {
        var i := IndexOf(q.value.shots, a.d.header.shotId);
        AddToOk(q.value, i, a.receiveNs, a.d);
        FinalizeReadyOk(AddTo(q.value, i, a.receiveNs, a.d), a.receiveNs);
      }
    }
  }

  lemma {:induction false} AcceptAllOk(run: Run, pending: seq<Arrival>, now: nat)
    requires run.selected.Some? && CoreOk(run, 0) && PendingOk(pending, now)
    ensures CoreOk(AcceptAll(run, pending).run, now)
  {
    hide CoreOk, Accept;
    if pending == [] {
      CoreLater(run, 0, now);
    } else {
      var init, a := pending[..|pending| - 1], pending[|pending| - 1];
      AcceptAllOk(run, init, a.receiveNs);
      var q := AcceptAll(run, init);
      if q.ok {
        AcceptOk(q.run, a, a.receiveNs);
      }
      CoreLater(AcceptAll(run, pending).run, a.receiveNs, now);
    }
  }

  lemma IngestOk(run: Run, a: Arrival, now: nat)
    requires RunOk(run, now) && now <= Now(a, now)
    ensures RunOk(Ingest(run, a).run, Now(a, now))
  {
    hide CoreOk, Accept, Durable, ShotsOk;
    assert CoreOk(run, now) by { RunIsCore(run, now); }
    if run.selected.Some? {
      AcceptOk(run, a, now);
      AcceptKeeps(run, a);
      CoreIsRun(Accept(run, a).run, Now(a, now));
    } else if a.Arrival? && a.d.Length() <= MAX_DATAGRAM && a.d.Type() == StreamInfoPacket {
      var q := run.(selected := Some(SelectedBy(a)));
      Fresh(q, run);
      AcceptAllOk(q, run.pending, a.receiveNs);
      var p := AcceptAll(q, run.pending).run;
      Cleared(p, a.receiveNs);
      AcceptOk(p.(pending := []), a, a.receiveNs);
      AcceptKeeps(p.(pending := []), a);
      CoreIsRun(Ingest(run, a).run, a.receiveNs);
    } else {
      NoShotsLater(run, now, Now(a, now));
    }
  }

  lemma RunIsCore(run: Run, now: nat)
    requires RunOk(run, now)
    ensures CoreOk(run, now)
  {
  }

  lemma CoreIsRun(run: Run, now: nat)
    requires CoreOk(run, now) && run.selected.Some? && PendingOk(run.pending, now)
    ensures RunOk(run, now)
  {
  }

  lemma Fresh(q: Run, run: Run)
    requires Durable(run.log) && run.shots == []
    requires q == run.(selected := q.selected)
    ensures CoreOk(q, 0)
  {
  }

  lemma Cleared(run: Run, now: nat)
    requires CoreOk(run, now)
    ensures CoreOk(run.(pending := []), now)
  {
  }

  lemma NoShotsLater(run: Run, now: nat, later: nat)
    requires RunOk(run, now) && run.selected.None? && now <= later
    ensures ShotsOk(run.shots, later) && PendingOk(run.pending, later)
  {
  }

  /** Arrivals in the order of a monotonic receive clock. */
  predicate Clocked(arrivals: seq<Arrival>) {
    forall i, j | 0 <= i < j < |arrivals| && arrivals[i].Arrival? && arrivals[j].Arrival? ::
      arrivals[i].receiveNs <= arrivals[j].receiveNs
  }

  function LastNow(arrivals: seq<Arrival>): nat {
    if arrivals == [] then 0 else Now(arrivals[|arrivals| - 1], LastNow(arrivals[..|arrivals| - 1]))
  }

  lemma {:induction false} LastNowBound(arrivals: seq<Arrival>, t: nat)
    requires forall i | 0 <= i < |arrivals| :: arrivals[i].Arrival? ==> arrivals[i].receiveNs <= t
    ensures LastNow(arrivals) <= t
  {
    if arrivals != [] {
      LastNowBound(arrivals[..|arrivals| - 1], t);
    }
  }

  /** Whatever arrives, every prefix of what is written can be read, and its COMPLETE records hold. */
  lemma {:induction false} EveryRunOk(maxShotBytes: nat, arrivals: seq<Arrival>)
    requires Clocked(arrivals)
    ensures RunOk(IngestAll(NewRun(maxShotBytes), arrivals).run, LastNow(arrivals))
  {
    hide Ingest, RunOk;
    if arrivals == [] {
      NewRunOk(maxShotBytes);
    } else {
      var init, a := arrivals[..|arrivals| - 1], arrivals[|arrivals| - 1];
      EveryRunOk(maxShotBytes, init);
      if a.Arrival? {
        LastNowBound(init, a.receiveNs);
      }
      var q := IngestAll(NewRun(maxShotBytes), init);
      if q.ok {
        IngestOk(q.run, a, LastNow(init));
      } else {
        RunLater(q.run, LastNow(init), LastNow(arrivals));
      }
    }
  }

  lemma RunLater(run: Run, now: nat, later: nat)
    requires RunOk(run, now) && now <= later
    ensures RunOk(run, later)
  {
    hide Durable, ShotOk;
  }

  lemma NewRunOk(maxShotBytes: nat)
    ensures RunOk(NewRun(maxShotBytes), 0)
  {
    var log: seq<Write> := [];
    assert log[..0] == [];
    assert Records([]) == [] && SamplesFile([]) == [];
    assert Readable([]);
  }

  /** The files of any run, closed or given up, are durable; closing leaves no shot open. */
  lemma EveryRunDurable(maxShotBytes: nat, arrivals: seq<Arrival>)
    requires Clocked(arrivals)
    ensures Durable(IngestAll(NewRun(maxShotBytes), arrivals).run.log)
    ensures Durable(ReceiveRun(maxShotBytes, arrivals).run.log)
    ensures ReceiveRun(maxShotBytes, arrivals).ok ==> ReceiveRun(maxShotBytes, arrivals).run.shots == []
  {
    EveryRunOk(maxShotBytes, arrivals);
    var run := IngestAll(NewRun(maxShotBytes), arrivals).run;
    RunIsCore(run, LastNow(arrivals));
    FinalizeRemainingOk(run, LastNow(arrivals));
    hide Durable, IngestAll, FinalizeRemaining;
  }
}
