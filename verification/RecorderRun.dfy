/** host/data_plane/qcrate_recorder.c: the state of a run and the recorder's operations on it, proved to
    take the steps of RunModel. */
module RecorderRun {
  import opened Crc32
  import opened Protocol
  import opened Ordering
  import opened RunFormat
  import opened ShotModel
  import opened RunModel
  import opened Recorder
  import Gaps
  import Verdicts
  import Publication

  // ----- sorting a shot in place does not change its verdict -----

  lemma SortedAgain(s: Shot)
    requires Distinct(s.packets)
    ensures Sort(BySequence, SortPackets(s).packets) == Sort(BySequence, s.packets)
    ensures Sequences(SortPackets(s).packets) == Sequences(Sort(BySequence, s.packets))
  {
    hide Sort, Distinct, Sorted;
    SortSorts(BySequence, s.packets);
    DistinctPermutes(s.packets, Sort(BySequence, s.packets));
    SortOfSorted(BySequence, Sort(BySequence, s.packets));
  }

  lemma SameSequences(a: seq<Datagram>, b: seq<Datagram>)
    requires multiset(a) == multiset(b)
    ensures Gaps.Values(Sequences(a)) == Gaps.Values(Sequences(b))
  {
    SameMembers(a, b);
    HasSequence(a);
    HasSequence(b);
    forall q: nat
      ensures q in Gaps.Values(Sequences(a)) <==> q in Gaps.Values(Sequences(b))
    {
      assert q in Gaps.Values(Sequences(a)) <==> exists d | d in a :: d.Sequence() == q;
      assert q in Gaps.Values(Sequences(b)) <==> exists d | d in b :: d.Sequence() == q;
    }
  }

  lemma HasSequence(a: seq<Datagram>)
    ensures forall q: nat :: q in Gaps.Values(Sequences(a)) <==> exists d | d in a :: d.Sequence() == q
  {
    forall q: nat
      ensures q in Gaps.Values(Sequences(a)) <==> exists d | d in a :: d.Sequence() == q
    {
      if q in Gaps.Values(Sequences(a)) {
        var i :| 0 <= i < |Sequences(a)| && Sequences(a)[i] == q;
        assert a[i] in a;
      }
      if exists d | d in a :: d.Sequence() == q {
        var d :| d in a && d.Sequence() == q;
        var i :| 0 <= i < |a| && a[i] == d;
        assert Sequences(a)[i] == q;
      }
    }
  }

  lemma SortKeepsGaps(s: Shot)
    ensures Bounded(SortPackets(s)) == Bounded(s)
    ensures Bounded(s) ==> AbsentOf(SortPackets(s)) == AbsentOf(s)
    ensures Missing(SortPackets(s)) == Missing(s)
    ensures SequenceIsComplete(SortPackets(s)) <==> SequenceIsComplete(s)
  {
    SameSequences(s.packets, Sort(BySequence, s.packets));
  }

  lemma SortKeepsVerdict(run: Run, s: Shot)
    requires Distinct(s.packets)
    ensures Publish(run, SortPackets(s)) == Publish(run, s)
  {
    hide Missing, Sort, Data, Payloads, Tiles, TotalsOk, Malformed, BadProfile, OtherProfile, TimestampsOk,
         SourceFlagsOf,
         FrameCount, Checksum, EndFlagsOk, SampleTotal, Distinct, SamplesFile;
    SortedAgain(s);
    SortKeepsGaps(s);
    SameProfile(run.context, s);
    assert Judge(run.context, SortPackets(s)) == Judge(run.context, s);
  }

  lemma SameProfile(c: Context, s: Shot)
    ensures BadProfile(SortPackets(s)) == BadProfile(s) && OtherProfile(c, SortPackets(s)) == OtherProfile(c, s)
  {
  }

  /** What `finalize_shot` compares SHOT_END with. */
  method CheckEnd(s: Shot, data: seq<Datagram>, t: Tally, frames: U32, crc: bv32)
    returns (badFlags: bool, badTotals: bool, badCrc: bool)
    requires t.Of(data)
    ensures badFlags == (s.end.End? && !EndFlagsOk(s.end.end.endFlags))
    ensures badTotals == (s.end.End? && !TotalsOk(s.end.end, data, frames))
    ensures badCrc == (s.end.End? && (!s.end.end.endFlags.payloadCrcValid || s.end.end.payloadCrc32 != crc))
  {
    badFlags, badTotals, badCrc := false, false, false;
    if s.end.End? {
      var e := s.end.end;
      badFlags := !EndFlagsOk(e.endFlags);
      if e.totalFrames != frames || e.totalSamples != t.samples || e.totalDataPackets != |data|
         || e.payloadBytes != t.payloadBytes
         || (|data| > 0 && (e.firstPacketSequence != t.firstSequence || e.lastPacketSequence != t.lastSequence)) {
        badTotals := true;
      }
      if !e.endFlags.payloadCrcValid || e.payloadCrc32 != crc {
        badCrc := true;
      }
    }
  }

  /** The issue flags `finalize_shot` raises. */
  method Assess(c: Context, s: Shot, missing: U32, data: seq<Datagram>, malformed: bool, t: Tally,
                tiled: bool, frames: U32, crc: bv32)
    returns (issues: Issues)
    requires missing == Missing(s) && data == Data(Format(s), Sort(BySequence, s.packets)) && t.Of(data)
    requires malformed == AnyMalformed(Format(s), Sort(BySequence, s.packets))
    requires var placed := Sort(ByFrame, data);
      && tiled == Tiles(placed, FrameSamples(s))
      && frames == FrameCount(placed, |placed|) % 0x1_0000_0000
      && crc == Checksum(Payloads(placed))
    ensures issues == Judge(c, s).issues
  {
    hide Missing, Sort, Data, Payloads, Tiles, AnyMalformed, BreaksContinuity, TimestampsOk, SourceFlagsOf, FrameCount,
         Checksum, SampleTotal,
         TotalsOk, EndFlagsOk, BadProfile, OtherProfile, Sorted, Admissible, FirstTimestamp, Format, FrameSamples;
    var was := s.issues;
    var badFlags, badTotals, badCrc := CheckEnd(s, data, t, frames, crc);
    issues := Issues(
      was.protocol || s.info.NoInfo? || s.end.NoEnd? || BadProfile(s) || malformed || badFlags || OtherProfile(c, s),
      was.missing || missing > 0,
      was.conflict,
      was.frame || |data| == 0 || t.payloadBytes > c.maxShotBytes || !tiled || badTotals,
      was.crc || badCrc,
      was.sender || (s.end.End? && s.end.end.status != SHOT_COMPLETE)
      || t.sourceFlags != SourceFlags(false, false, false),
      was.timestamp || !t.timestampsOk,
      was.continuity || BreaksContinuity(c, s, t.firstTimestamp));
  }

  lemma JudgeParts(c: Context, s: Shot)
    ensures var v := Judge(c, s);
      && v.missing == Missing(s) && v.data == Data(Format(s), Sort(BySequence, s.packets))
      && v.placed == Sort(ByFrame, v.data)
  {
  }

  /** The index record `finalize_shot` fills in. */
  method MakeRecord(s: Shot, ghost v: Verdict, issues: Issues, missing: U32, dataCount: nat, t: Tally,
                    frames: U32, crc: bv32, offset: nat)
    returns (r: IndexRecord)
    requires v.issues == issues && v.missing == missing && |v.data| == dataCount && t.Of(v.data)
    requires frames == Frames(v) % 0x1_0000_0000 && crc == Checksum(Payloads(v.placed))
    ensures r == RecordOf(s, v, offset)
    ensures r.complete == !issues.Any() && r.firstSampleTimestamp == FirstTimestamp(v.data)
  {
    hide Frames, Checksum, Payloads, SampleTotal, SourceFlagsOf, TimestampsOk, FirstTimestamp;
    r := IndexRecord(
      s.shotId, !issues.Any(), issues,
      if s.info.Info? then s.info.header.packetSequence else 0,
      if s.end.End? then s.end.header.packetSequence else 0,
      t.firstTimestamp, s.firstReceiveNs, s.lastReceiveNs,
      if issues.Any() then NoExtent else Extent(offset, t.payloadBytes),
      frames, if s.info.Info? then s.info.info.frameSamples else 0,
      if dataCount > U32_MAX then U32_MAX else dataCount,
      s.datagrams, s.duplicatePackets, s.reorderedPackets, missing, crc, t.sourceFlags,
      if s.info.Info? then s.info.header.payloadFormat else 0,
      if s.info.Info? then s.info.header.sampleBytes else 0,
      if s.info.Info? then s.info.info.configId else 0);
  }

  ghost function Values(shots: seq<ShotState>): (r: seq<Shot>)
    reads shots
    ensures |r| == |shots|
    ensures forall i | 0 <= i < |shots| :: r[i] == shots[i].Value()
  {
    seq(|shots|, i requires 0 <= i < |shots| reads shots => shots[i].Value())
  }

  lemma LowestIsFirst(shots: seq<Shot>, i: nat, j: nat)
    requires IsLowest(shots, i) && i < j < |shots|
    ensures !IsLowest(shots, j)
  {
    assert OrderKey(shots[i]) <= OrderKey(shots[j]);
  }

  lemma OnlyLowest(shots: seq<Shot>, i: nat, j: nat)
    requires IsLowest(shots, i) && IsLowest(shots, j)
    ensures i == j
  {
    if i < j {
      LowestIsFirst(shots, i, j);
    } else if j < i {
      LowestIsFirst(shots, j, i);
    }
  }

  /** Publishing looks at no shot but the one published. */
  lemma PublishCore(run: Run, s: Shot)
    ensures Publish(run, s).(shots := []) == Publish(run.(shots := []), s)
  {
    hide Judge, RecordOf, NextContext, SamplesFile, Payloads;
  }

  lemma RemovedCore(run: Run, i: nat)
    requires i < |run.shots|
    ensures RemovePublished(run, i) == Publish(run.(shots := []), run.shots[i]).(shots := Remove(run.shots, i))
  {
    hide Judge, RecordOf, NextContext, SamplesFile, Payloads;
  }

  lemma NothingMissing(s: Shot)
    requires SequenceIsComplete(s)
    ensures Missing(s) == 0 && Missing(SortPackets(s)) == 0
  {
    hide Sort;
    SortKeepsGaps(s);
  }

  /** A shot sorted in place is published as it would have been before. */
  lemma SortedRemoved(run: Run, i: nat)
    requires i < |run.shots| && Distinct(run.shots[i].packets)
    ensures RemovePublished(run.(shots := run.shots[i := SortPackets(run.shots[i])]), i) == RemovePublished(run, i)
  {
    hide SortPackets, Publish;
    var s := run.shots[i];
    var sorted := run.(shots := run.shots[i := SortPackets(s)]);
    SortKeepsVerdict(run, s);
    PublishCore(run, s);
    PublishCore(run, SortPackets(s));
    PublishCore(sorted, SortPackets(s));
    PublishParts(run, s);
    PublishParts(sorted, SortPackets(s));
    assert Remove(sorted.shots, i) == Remove(run.shots, i);
  }

  lemma RemovedOne(run: Run, i: nat)
    requires i < |run.shots|
    ensures RemovePublished(run, i).shots == Remove(run.shots, i)
  {
    hide Judge, RecordOf, NextContext, SamplesFile, Payloads;
  }

  lemma HeldDistinct(s: Shot)
    requires Verdicts.Held(s)
    ensures Distinct(s.packets)
  {
  }

  lemma PublishParts(run: Run, s: Shot)
    ensures Publish(run, s) == Publish(run, s).(shots := []).(shots := run.shots)
  {
    hide Judge, RecordOf, NextContext, SamplesFile, Payloads;
  }

  lemma {:induction false} FirstOf(shots: seq<Shot>, shotId: U64, i: nat)
    requires i <= |shots| && forall j | 0 <= j < i :: shots[j].shotId != shotId
    requires i < |shots| ==> shots[i].shotId == shotId
    ensures i == IndexOf(shots, shotId)
  {
  }

  lemma {:induction false} IndexAtEnd(shots: seq<Shot>, shotId: U64)
    requires IndexOf(shots, shotId) == |shots|
    ensures IndexOf(shots + [NewShot(shotId)], shotId) == |shots|
  {
    FirstOf(shots + [NewShot(shotId)], shotId, |shots|);
  }

  /** A shot keeps holding the packets it knows its ends from. */
  lemma HeldNext(s: Shot, ns: nat, d: Datagram)
    requires Verdicts.Held(s)
    ensures var t := ShotModel.AddPacket(s, ns, d);
      if Holds(s.packets, d.Sequence()) then Verdicts.Held(t) else Verdicts.Held(ShotModel.NoteObject(t, d))
  {
    hide ShotModel.NoteObject;
    var t := ShotModel.AddPacket(s, ns, d);
    if !Holds(s.packets, d.Sequence()) {
      assert d in t.packets;
      assert Verdicts.Held(t);
      HeldNoted(t, d);
    }
  }

  lemma HeldNoted(t: Shot, d: Datagram)
    requires Verdicts.Held(t) && d in t.packets
    ensures Verdicts.Held(ShotModel.NoteObject(t, d))
  {
  }

  lemma AddPacketObjects(s: Shot, ns: nat, d: Datagram)
    ensures var t := ShotModel.AddPacket(s, ns, d);
      t.info == s.info && t.end == s.end
  {
  }

  lemma AcceptNone(run: Run)
    requires run.selected.Some?
    ensures AcceptAll(run, []) == Outcome(run, true)
  {
  }

  lemma AcceptNext(run: Run, pending: seq<Arrival>, i: nat)
    requires run.selected.Some? && i < |pending|
    ensures var q := AcceptAll(run, pending[..i]);
      AcceptAll(run, pending[..i + 1]) == if q.ok then RunModel.Accept(q.run, pending[i]) else q
  {
    assert pending[..i + 1][..i] == pending[..i];
  }

  /** `struct run_state`. */
  class RunState {
    const maxShotBytes: nat
    var profile: Info
    var expectedSequence: U64
    var expectedSequenceValid: bool
    var lastShotId: U64
    var lastTimestamp: U64
    var lastShotValid: bool
    var selected: Option<Selection>
    var shots: seq<ShotState>
    var pending: seq<Arrival>
    var terminal: Terminal
    var log: seq<Write> // the appends to the sample file and to the index
    var sampleOffset: nat
    var counts: Counts

    function Settings(): Context
      reads this
    {
      Context(maxShotBytes, profile, if expectedSequenceValid then Some(expectedSequence) else None,
              if lastShotValid then Some(LastShot(lastShotId, lastTimestamp)) else None)
    }

    ghost function Core(): Run
      reads this
    {
      Run(Settings(), selected, [], pending, terminal, log, counts)
    }

    ghost function Value(): (r: Run)
      reads this, shots
      ensures |r.shots| == |shots| && r.selected == selected
    {
      Core().(shots := Values(shots))
    }

    ghost function Owned(): set<ShotState>
      reads this
    {
      set s | s in shots
    }

    ghost predicate Separate()
      reads this
    {
      forall i, j | 0 <= i < j < |shots| :: shots[i] != shots[j]
    }

    ghost predicate Valid()
      reads this, shots
    {
      && sampleOffset == |SamplesFile(log)| && |shots| <= MAX_ACTIVE_SHOTS
      && Separate() && forall s | s in shots :: s.Valid()
    }

    constructor (maxShotBytes: nat)
      ensures Valid() && Value() == NewRun(maxShotBytes) && shots == []
    {
      this.maxShotBytes := maxShotBytes;
      profile, selected, terminal := NoInfo, None, NotSeen;
      expectedSequence, expectedSequenceValid := 0, false;
      lastShotId, lastTimestamp, lastShotValid := 0, 0, false;
      shots, pending, log, sampleOffset, counts := [], [], [], 0, NO_COUNTS;
    }

    /** The writes and the counters at the end of `finalize_shot`. */
    method Write(record: IndexRecord, samples: seq<Byte>)
      requires sampleOffset == |SamplesFile(log)|
      modifies this`log, this`sampleOffset, this`counts
      ensures sampleOffset == |SamplesFile(log)|
      ensures log == old(log) + if record.complete then [AppendSamples(samples), AppendRecord(record)]
                                else [AppendRecord(record)]
      ensures var n := old(counts);
        counts == n.(complete := n.complete + if record.complete then 1 else 0,
                     incomplete := n.incomplete + if record.complete then 0 else 1)
    {
      if record.complete {
        Publication.LogNext(log, AppendSamples(samples));
        log := log + [AppendSamples(samples)];
        sampleOffset := sampleOffset + |samples|;
        counts := counts.(complete := counts.complete + 1);
      } else {
        counts := counts.(incomplete := counts.incomplete + 1);
      }
      Publication.LogNext(log, AppendRecord(record));
      log := log + [AppendRecord(record)];
      assert old(log) + [AppendSamples(samples)] + [AppendRecord(record)]
          == old(log) + [AppendSamples(samples), AppendRecord(record)];
    }

    method CountPackets(shot: ShotState)
      modifies this`counts
      ensures var n := old(counts);
        counts == n.(duplicate := n.duplicate + shot.duplicatePackets,
                     reordered := n.reordered + shot.reorderedPackets,
                     conflicting := n.conflicting + shot.conflictingPackets)
    {
      counts := counts.(duplicate := counts.duplicate + shot.duplicatePackets,
                        reordered := counts.reordered + shot.reorderedPackets,
                        conflicting := counts.conflicting + shot.conflictingPackets);
    }

    /** What the next shot is compared with. */
    method Advance(shotId: U64, end: End, firstTimestamp: U64)
      modifies this`expectedSequence, this`expectedSequenceValid, this`lastShotId, this`lastTimestamp,
          this`lastShotValid
      ensures Settings() == old(Settings()).(
        expected := if end.NoEnd? then old(Settings()).expected
                    else if end.header.packetSequence == U64_MAX then None
                    else Some(end.header.packetSequence + 1),
        last := if firstTimestamp == 0 then old(Settings()).last else Some(LastShot(shotId, firstTimestamp)))
    {
      if end.End? {
        expectedSequence := Gaps.Add(end.header.packetSequence, 1);
        expectedSequenceValid := end.header.packetSequence != U64_MAX;
      }
      if firstTimestamp != 0 {
        lastTimestamp, lastShotId, lastShotValid := firstTimestamp, shotId, true;
      }
    }

    /** The part of `finalize_shot` that only reads: the verdict, the record and the samples of a sorted shot. */
    method Analyse(s: Shot, missing: U32) returns (issues: Issues, record: IndexRecord, samples: seq<Byte>)
      requires sampleOffset == |SamplesFile(log)|
      requires Sort(BySequence, s.packets) == s.packets && missing == Missing(s)
      ensures var v := Judge(Settings(), s);
        && issues == v.issues && samples == Payloads(v.placed) && record.complete == !issues.Any()
        && record == RecordOf(s, v, |SamplesFile(log)|) && record.firstSampleTimestamp == FirstTimestamp(v.data)
    {
      hide Judge, Missing, Sort, Data, Update, Payloads, Tiles, FrameCount, SamplesFile, Sorted, Tally.Of,
           AnyMalformed;
      var data, malformed, t := Scan(Format(s), s.packets);
      SortSorts(ByFrame, data);
      var placed := Sort(ByFrame, data);
      var tiled, frames, crc := WalkFrames(placed, FrameSamples(s));
      crc := crc ^ 0xffff_ffff;
      JudgeParts(Settings(), s);
      issues := Assess(Settings(), s, missing, data, malformed, t, tiled, frames, crc);
      record := MakeRecord(s, Judge(Settings(), s), issues, missing, |data|, t, frames, crc, sampleOffset);
      samples := Gather(placed);
    }

    /** `finalize_shot` once its shot is sorted. */
    method Finish(shot: ShotState, ghost was: Shot, missing: U32)
      requires sampleOffset == |SamplesFile(log)|
      requires Distinct(was.packets) && shot.Value() == SortPackets(was) && missing == Missing(was)
      modifies this`log, this`sampleOffset, this`counts, shot`issues
      modifies this`expectedSequence, this`expectedSequenceValid, this`lastShotId, this`lastTimestamp,
          this`lastShotValid
      ensures sampleOffset == |SamplesFile(log)|
      ensures Core() == Publish(old(Core()), was)
    {
      hide Judge, RecordOf, Missing, Sort, Payloads, SamplesFile, Distinct;
      SortedAgain(was);
      SortKeepsGaps(was);
      SortKeepsVerdict(Core(), was);
      var issues, record, samples := Analyse(shot.Value(), missing);
      shot.issues := issues;
      Write(record, samples);
      CountPackets(shot);
      Advance(shot.shotId, shot.end, record.firstSampleTimestamp);
    }

    /** `finalize_shot`: 1 asks for a retry, when packets are missing and the shot is not forced. */
    method FinalizeShot(shot: ShotState, forced: bool) returns (status: int)
      requires sampleOffset == |SamplesFile(log)| && shot.Valid()
      modifies this`log, this`sampleOffset, this`counts, shot`packets, shot`issues
      modifies this`expectedSequence, this`expectedSequenceValid, this`lastShotId, this`lastTimestamp,
          this`lastShotValid
      ensures sampleOffset == |SamplesFile(log)|
      ensures status == if Missing(old(shot.Value())) > 0 && !forced then 1 else 0
      ensures status == 0 ==> Core() == Publish(old(Core()), old(shot.Value()))
      ensures status == 1 ==>
        var s := SortPackets(old(shot.Value()));
        Core() == old(Core()) && shot.Value() == s.(issues := s.issues.(missing := true))
    {
      hide Judge, RecordOf, Missing, Sort, Data, Checksum, Update, Payloads, Tiles, FrameCount, SamplesFile, Distinct,
           Sorted;
      ghost var was := shot.Value();
      SortKeepsGaps(was);
      shot.SortBySequence();
      var missing := shot.CountMissing();
      if missing > 0 && !forced {
        shot.issues := shot.issues.(missing := true);
        return 1;
      }
      status := 0;
      Finish(shot, was, missing);
    }

    /** `lowest_sequence_shot`. */
    method LowestSequenceShot() returns (lowest: nat)
      requires shots != []
      ensures lowest < |shots| && lowest == Lowest(Value().shots)
    {
      lowest := 0;
      var sequence: U64 := U64_MAX;
      for i := 0 to |shots|
        invariant lowest < |shots|
        invariant sequence == U64_MAX ==> lowest == 0
        invariant sequence < U64_MAX ==> lowest < i && OrderKey(shots[lowest].Value()) == sequence
        invariant forall j | 0 <= j < i :: sequence <= OrderKey(shots[j].Value())
        invariant forall j | 0 <= j < lowest :: sequence < OrderKey(shots[j].Value())
      {
        var candidate := OrderKey(shots[i].Value());
        if candidate < sequence {
          sequence := candidate;
          lowest := i;
        }
      }
      OnlyLowest(Values(shots), lowest, Lowest(Values(shots)));
    }

    /** `remove_and_finalize`. */
    method RemoveAndFinalize(i: nat, forced: bool) returns (status: int)
      requires Valid() && i < |shots|
      modifies this, Owned()
      ensures status == if Missing(old(Value()).shots[i]) > 0 && !forced then 1 else 0
      ensures Owned() <= old(Owned())
      ensures status == 0 ==>
        Valid() && Value() == RemovePublished(old(Value()), i) && |shots| == old(|shots|) - 1
    {
      hide Verdicts.Held, SamplesFile, Missing, Publish, SortPackets, RemovePublished;
      ghost var before := Value();
      var shot := shots[i];
      status := FinalizeShot(shot, forced);
      if status != 0 {
        return;
      }
      shots := shots[..i] + shots[i + 1..];
      assert Values(shots) == Remove(before.shots, i);
      RemovedCore(before, i);
    }

    method SortShot(ghost i: nat, shot: ShotState)
      requires Valid() && i < |shots| && shots[i] == shot
      modifies shot`packets
      ensures Valid() && Sorted(BySequence, shot.packets) && shot.Valid()
      ensures shot.Value() == SortPackets(old(Value()).shots[i]) && Distinct(old(Value()).shots[i].packets)
      ensures var run := old(Value()); Value() == run.(shots := run.shots[i := SortPackets(run.shots[i])])
    {
      hide Verdicts.Held, SamplesFile, SortPackets, Sorted, Distinct;
      ghost var before: Run := Value();
      assert shot in shots && before.shots[i] == shot.Value();
      HeldDistinct(shot.Value());
      shot.SortBySequence();
      assert Values(shots) == before.shots[i := SortPackets(before.shots[i])];
    }

    /** One round of `finalize_ready`. The retry that `finalize_shot` may ask for cannot come: no packet is
        missing. */
    method FinalizeNext() returns (more: bool)
      requires Valid() && shots != []
      modifies this, Owned()
      ensures Valid() && (Owned() <= old(Owned()))
      ensures var run, i := old(Value()), Lowest(old(Value()).shots);
        && more == SequenceIsComplete(run.shots[i])
        && Value() == if more then RemovePublished(run, i)
                      else run.(shots := run.shots[i := SortPackets(run.shots[i])])
    {
      hide Verdicts.Held, Missing, RemovePublished, SequenceIsComplete, SortPackets, Valid, Value, Distinct;
      ghost var before := Value();
      var i := LowestSequenceShot();
      SortShot(i, shots[i]);
      SortKeepsGaps(before.shots[i]);
      more := shots[i].SequenceComplete();
      if more {
        NothingMissing(before.shots[i]);
        SortedRemoved(before, i);
        var status := RemoveAndFinalize(i, false);
        assert status == 0;
      }
    }

    /** `finalize_ready`. */
    method FinalizeReady()
      requires Valid()
      modifies this, Owned()
      ensures Valid() && Value() == RunModel.FinalizeReady(old(Value()))
      ensures Owned() <= old(Owned())
    {
      hide Verdicts.Held, SamplesFile, RemovePublished, SequenceIsComplete, SortPackets;
      while |shots| > 0
        invariant Valid() && RunModel.FinalizeReady(Value()) == RunModel.FinalizeReady(old(Value()))
        invariant Owned() <= old(Owned())
        decreases |shots|
      {
        ghost var before := Value();
        var more := FinalizeNext();
        if !more {
          return;
        }
        RemovedOne(before, Lowest(before.shots));
      }
    }

    /** `finalize_remaining`. */
    method FinalizeRemaining()
      requires Valid()
      modifies this, Owned()
      ensures Valid() && Value() == RunModel.FinalizeRemaining(old(Value()))
    {
      hide Verdicts.Held, SamplesFile, Missing, RemovePublished;
      while |shots| > 0
        invariant Valid() && RunModel.FinalizeRemaining(Value()) == RunModel.FinalizeRemaining(old(Value()))
        invariant Owned() <= old(Owned())
        decreases |shots|
      {
        var i := LowestSequenceShot();
        var _ := RemoveAndFinalize(i, true);
      }
    }

    /** `find_shot`. */
    method FindShot(shotId: U64) returns (i: nat)
      ensures i == IndexOf(Values(shots), shotId)
    {
      i := 0;
      while i < |shots| && shots[i].shotId != shotId
        invariant i <= |shots|
        invariant forall j | 0 <= j < i :: shots[j].shotId != shotId
      {
        i := i + 1;
      }
      FirstOf(Values(shots), shotId, i);
    }

    /** A packet that its shot did not hold yet: what its object tells the shot and the run. */
    method NoteObject(shot: ShotState, ns: nat, d: Datagram)
      modifies this`profile, this`terminal, shot`info, shot`end, shot`issues
      ensures shot.Value() == ShotModel.NoteObject(old(shot.Value()), d)
      ensures terminal == if d.payload.EndObject? && old(shot.end).NoEnd? && d.payload.end.endFlags.endOfStream
                          then Seen(true, d.Sequence(), d.header.shotId, ns) else old(terminal)
      ensures profile == if d.payload.InfoObject? && old(shot.info).NoInfo? && old(profile).NoInfo?
                         then Info(d.header, d.payload.info) else old(profile)
    {
      match d.payload {
        case InfoObject(info) =>
          if shot.info.NoInfo? {
            shot.info := Info(d.header, info);
            if profile.NoInfo? {
              profile := Info(d.header, info);
            }
          } else {
            shot.issues := shot.issues.(conflict := true);
          }
        case EndObject(end) =>
          if shot.end.NoEnd? {
            shot.end := End(d.header, end);
            if end.endFlags.endOfStream {
              terminal := Seen(true, d.Sequence(), d.header.shotId, ns);
            }
          } else {
            shot.issues := shot.issues.(conflict := true);
            if end != shot.end.end {
              shot.issues := shot.issues.(protocol := true);
            }
          }
        case Raw(kind, _) =>
          if kind != DataPacket {
            shot.issues := shot.issues.(protocol := true);
          }
      }
    }

    /** The packet added to its shot and, unless the shot held it, its object noted. */
    method AddPacketTo(shot: ShotState, ns: nat, d: Datagram)
      requires shot.Valid()
      modifies this`profile, this`terminal, shot
      ensures shot.Valid()
      ensures var s, t := old(shot.Value()), ShotModel.AddPacket(old(shot.Value()), ns, d);
        if Holds(s.packets, d.Sequence()) then
          shot.Value() == t && profile == old(profile) && terminal == old(terminal)
        else
          && shot.Value() == ShotModel.NoteObject(t, d)
          && terminal == (if d.payload.EndObject? && s.end.NoEnd? && d.payload.end.endFlags.endOfStream
                          then Seen(true, d.Sequence(), d.header.shotId, ns) else old(terminal))
          && profile == (if d.payload.InfoObject? && s.info.NoInfo? && old(profile).NoInfo?
                         then Info(d.header, d.payload.info) else old(profile))
    {
      HeldDistinct(shot.Value());
      hide Verdicts.Held, ShotModel.AddPacket, ShotModel.NoteObject, Holds;
      HeldNext(shot.Value(), ns, d);
      AddPacketObjects(shot.Value(), ns, d);
      var status := shot.AddPacket(d, ns);
      if status == 0 {
        NoteObject(shot, ns, d);
      }
    }

    method AddTo(ghost i: nat, shot: ShotState, ns: nat, d: Datagram)
      requires Valid() && i < |shots| && shots[i] == shot
      modifies this`profile, this`terminal, shot
      ensures Valid() && Value() == RunModel.AddTo(old(Value()), i, ns, d)
    {
      hide Verdicts.Held, SamplesFile, ShotModel.AddPacket, ShotModel.NoteObject, Holds;
      ghost var before := Value();
      assert shot in shots && before.shots[i] == shot.Value();
      AddPacketTo(shot, ns, d);
      assert Values(shots) == before.shots[i := shot.Value()];
    }

    /** `create_shot`, while a slot is free. */
    method CreateShot(shotId: U64)
      requires Valid() && |shots| < MAX_ACTIVE_SHOTS
      modifies this`shots
      ensures Valid() && fresh(Owned() - old(Owned())) && |shots| == old(|shots|) + 1
      ensures var run := old(Value()); Value() == run.(shots := run.shots + [NewShot(shotId)])
    {
      hide Verdicts.Held, SamplesFile;
      ghost var before := Value();
      var shot := new ShotState(shotId);
      shots := shots + [shot];
      assert Values(shots) == before.shots + [NewShot(shotId)];
    }

    /** `find_shot`, and `create_shot` if there is none. */
    method FindOrCreate(shotId: U64) returns (ok: bool, i: nat)
      requires Valid()
      modifies this`shots
      ensures Valid() && fresh(Owned() - old(Owned()))
      ensures ok == WithShot(old(Value()), shotId).Some?
      ensures ok ==> Value() == WithShot(old(Value()), shotId).value && i == IndexOf(Value().shots, shotId) < |shots|
      ensures !ok ==> shots == old(shots) && Value() == old(Value())
    {
      ghost var before := Value();
      SlotsBounded();
      hide Valid, Value, IndexOf;
      i := FindShot(shotId);
      ok := i < |shots| || |shots| < MAX_ACTIVE_SHOTS;
      if i == |shots| && ok {
        CreateShot(shotId);
        IndexAtEnd(before.shots, shotId);
      }
    }

    lemma SlotsBounded()
      requires Valid()
      ensures |shots| <= MAX_ACTIVE_SHOTS && Value().shots == Values(shots)
    {
    }

    /** A packet of the run that is not late: into its shot, and whatever that completes is published. */
    method TakeIn(ns: nat, d: Datagram) returns (ok: bool)
      requires Valid()
      modifies this, Owned()
      ensures Valid() && fresh(Owned() - old(Owned()))
      ensures ok == WithShot(old(Value()), d.header.shotId).Some?
      ensures !ok ==> Value() == old(Value())
      ensures ok ==>
        var q := WithShot(old(Value()), d.header.shotId).value;
        Value() == RunModel.FinalizeReady(RunModel.AddTo(q, IndexOf(q.shots, d.header.shotId), ns, d))
    {
      hide Valid, Value, WithShot, RunModel.FinalizeReady, RunModel.AddTo, IndexOf;
      var i: nat;
      ok, i := FindOrCreate(d.header.shotId);
      if ok {
        AddTo(i, shots[i], ns, d);
        FinalizeReady();
      }
    }

    method NoteHeartbeat(ns: nat, d: Datagram)
      modifies this`terminal, this`counts
      ensures terminal == if EndsStream(d) then Seen(false, d.Sequence(), d.header.shotId, ns) else old(terminal)
      ensures counts == if EndsStream(d) then old(counts)
                        else old(counts).(malformed := old(counts).malformed + 1)
    {
      if !EndsStream(d) {
        counts := counts.(malformed := counts.malformed + 1);
        return;
      }
      terminal := Seen(false, d.Sequence(), d.header.shotId, ns);
    }

    method AcceptOwn(ns: nat, d: Datagram) returns (ok: bool)
      requires Valid()
      modifies this, Owned()
      ensures Valid() && fresh(Owned() - old(Owned()))
      ensures Outcome(Value(), ok) == RunModel.AcceptOwn(old(Value()), ns, d)
    {
      hide Verdicts.Held, SamplesFile, RunModel.AddTo, RunModel.FinalizeReady, EndsStream, IndexOf, WithShot;
      if d.Type() == HeartbeatPacket {
        NoteHeartbeat(ns, d);
        return true;
      }
      if lastShotValid && d.header.shotId <= lastShotId {
        counts := counts.(late := counts.late + 1);
        return true;
      }
      ok := TakeIn(ns, d);
    }

    /** `validate_and_ingest` once a run is selected; the recorder gives up when all shot slots are taken. */
    method Accept(a: Arrival) returns (ok: bool)
      requires Valid() && selected.Some?
      modifies this, Owned()
      ensures Valid() && fresh(Owned() - old(Owned()))
      ensures Outcome(Value(), ok) == RunModel.Accept(old(Value()), a)
      ensures selected == old(selected) && pending == old(pending)
    {
      hide Verdicts.Held, SamplesFile, Foreign, RunModel.AcceptOwn;
      AcceptKeeps(Value(), a);
      if a.Undecodable? || a.d.Length() > MAX_DATAGRAM {
        counts := counts.(malformed := counts.malformed + 1);
        return true;
      }
      if Foreign(selected.value, a) {
        counts := counts.(foreign := counts.foreign + 1);
        return true;
      }
      counts := counts.(valid := counts.valid + 1);
      ok := AcceptOwn(a.receiveNs, a.d);
    }

    /** `select_run`. */
    method SelectRun(source: Source, d: Datagram)
      modifies this`selected
      ensures selected == Some(Selection(source, d.header.runId, d.header.streamId))
    {
      selected := Some(Selection(source, d.header.runId, d.header.streamId));
    }

    /** `save_pending`. */
    method SavePending(a: Arrival)
      modifies this`pending, this`counts
      ensures if old(|pending|) == MAX_PENDING then
                pending == old(pending) && counts == old(counts).(pendingOverflow := old(counts).pendingOverflow + 1)
              else pending == old(pending) + [a] && counts == old(counts)
    {
      if |pending| == MAX_PENDING {
        counts := counts.(pendingOverflow := counts.pendingOverflow + 1);
        return;
      }
      pending := pending + [a];
    }

    method DropPending()
      requires Valid()
      modifies this`pending
      ensures Valid() && Value() == old(Value()).(pending := [])
    {
      hide Verdicts.Held, SamplesFile;
      pending := [];
    }

    /** `replay_pending`: what was held back, in order; the packets after a failure are dropped. */
    method ReplayPending() returns (ok: bool)
      requires Valid() && selected.Some?
      modifies this, Owned()
      ensures Valid() && fresh(Owned() - old(Owned())) && selected == old(selected)
      ensures var o := AcceptAll(old(Value()), old(pending)); Outcome(Value(), ok) == o.(run := o.run.(pending := []))
      decreases 1
    {
      hide Valid, Value, RunModel.Accept, AcceptAll;
      ok := true;
      AcceptNone(Value());
      for i := 0 to |pending|
        invariant Valid() && fresh(Owned() - old(Owned()))
        invariant selected == old(selected) && pending == old(pending)
        invariant Outcome(Value(), ok) == AcceptAll(old(Value()), old(pending)[..i])
      {
        AcceptNext(old(Value()), old(pending), i);
        if ok {
          ok := Ingest(pending[i]);
        }
      }
      assert old(pending)[..|old(pending)|] == old(pending);
      DropPending();
    }

    /** `validate_and_ingest`. */
    method Ingest(a: Arrival) returns (ok: bool)
      requires Valid()
      modifies this, Owned()
      ensures Valid() && fresh(Owned() - old(Owned()))
      ensures Outcome(Value(), ok) == RunModel.Ingest(old(Value()), a)
      ensures old(selected).Some? ==> selected == old(selected) && pending == old(pending)
      decreases if selected.Some? then 0 else 2
    {
      hide RunModel.Accept, AcceptAll, Verdicts.Held, SamplesFile;
      if selected.None? {
        if a.Undecodable? || a.d.Length() > MAX_DATAGRAM {
          counts := counts.(malformed := counts.malformed + 1);
          return true;
        }
        if a.d.Type() != StreamInfoPacket {
          SavePending(a);
          return true;
        }
        SelectRun(a.source, a.d);
        ok := ReplayPending();
        if !ok {
          return;
        }
      }
      ok := Accept(a);
    }
  }

  /** `receive_run`: every arrival, then what is left open, unless the recorder gives up. The files are then as
      Publication, ShotLedger and Soundness say. */
  method Receive(maxShotBytes: nat, arrivals: seq<Arrival>) returns (ok: bool, log: seq<Write>)
    ensures var o := ReceiveRun(maxShotBytes, arrivals); ok == o.ok && log == o.run.log
  {
    hide RunModel.Ingest, RunModel.FinalizeRemaining, NewRun, Verdicts.Held, SamplesFile;
    var run := new RunState(maxShotBytes);
    ok := true;
    IngestNone(maxShotBytes);
    for i := 0 to |arrivals|
      invariant run.Valid() && fresh(run) && fresh(run.Owned())
      invariant Outcome(run.Value(), ok) == IngestAll(NewRun(maxShotBytes), arrivals[..i])
    {
      IngestNext(NewRun(maxShotBytes), arrivals, i);
      if ok {
        ok := run.Ingest(arrivals[i]);
      }
    }
    assert arrivals[..|arrivals|] == arrivals;
    if ok {
      run.FinalizeRemaining();
    }
    log := run.log;
  }

  lemma IngestNone(maxShotBytes: nat)
    ensures IngestAll(NewRun(maxShotBytes), []) == Outcome(NewRun(maxShotBytes), true)
  {
  }

  lemma IngestNext(run: Run, arrivals: seq<Arrival>, i: nat)
    requires i < |arrivals|
    ensures var q := IngestAll(run, arrivals[..i]);
      IngestAll(run, arrivals[..i + 1]) == if q.ok then RunModel.Ingest(q.run, arrivals[i]) else q
  {
    assert arrivals[..i + 1][..i] == arrivals[..i];
  }
}
