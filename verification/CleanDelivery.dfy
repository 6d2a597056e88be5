/** Delivering a stream shot by shot gives a clean run; so does delivering only its last shots, which is
    why a clean run says nothing about the shots before the first recorded one. */
module CleanDelivery {
  import opened Crc32
  import opened Protocol
  import opened Packetizer
  import opened RunFormat
  import opened ShotModel
  import opened SentVerdicts
  import opened RunModel
  import opened SentStream
  import opened Completeness
  import opened CleanRuns
  import Publication
  import SentShots

  /** The arrivals of each shot, one shot after the other. */
  function Flatten(parts: seq<seq<Arrival>>): seq<Arrival> {
    if parts == [] then [] else Flatten(parts[..|parts| - 1]) + parts[|parts| - 1]
  }

  /** Part `i` brings every datagram of shot `k + i`, in any order and multiplicity, and nothing else. */
  ghost predicate Delivered(sent: seq<SentShot>, source: Source, k: nat, parts: seq<seq<Arrival>>)
    requires Conforming(sent)
  {
    && k + |parts| <= |sent|
    && forall i | 0 <= i < |parts| ::
         Accepts(sent[k + i].config, sent[k + i].samples)
         && DeliversAll(source, sent[k + i].config, sent[k + i].samples, parts[i])
  }

  /** The recorder after `n` whole shots from `k` on. */
  ghost predicate Through(sent: seq<SentShot>, source: Source, maxShotBytes: nat, k: nat, n: nat, run: Run)
    requires Conforming(sent)
  {
    && 0 < n && k + n <= |sent|
    && run.selected == Some(SelectionOf(sent, source)) && run.shots == []
    && run.context.maxShotBytes == maxShotBytes
    && run.context.expected.Some? && run.context.expected.value == After(sent[k + n - 1])
    && run.context.last == Some(LastShot(sent[k + n - 1].config.shotId, sent[k + n - 1].config.firstSampleTimestamp))
    && run.context.profile.Info? && ProfileOk(run.context, sent[0].config)
    && run.counts.complete == n && run.counts.incomplete == 0 && run.counts.malformed == 0
    && run.counts.conflicting == 0 && run.counts.pendingOverflow == 0
    && |Records(run.log)| == n && SamplesFile(run.log) == SamplesOfShots(sent[k..k + n])
  }

  lemma RecordedFiles(base: Run, c: Config, samples: seq<Byte>, arrivals: seq<Arrival>, run: Run)
    requires Accepts(c, samples) && Recorded(base, c, samples, arrivals, run)
    ensures SamplesFile(run.log) == SamplesFile(base.log) + samples
    ensures |Records(run.log)| == |Records(base.log)| + 1
  {
    hide Accepts, Ready, ProfileOk, TerminalAfter, IsRecordOf, Until, Overtaken;
    var r: IndexRecord :| run.log == base.log + [AppendSamples(samples), AppendRecord(r)]
                          && IsRecordOf(r, c, samples, |SamplesFile(base.log)|, Until(c, samples, arrivals));
    Publication.LogBoth(base.log, samples, r);
  }

  lemma SameProfile(sent: seq<SentShot>, k: nat, ctx: Context)
    requires Conforming(sent) && k < |sent|
    ensures ProfileOk(ctx, sent[k].config) <==> ProfileOk(ctx, sent[0].config)
  {
    Sent(sent, k);
    Sent(sent, 0);
  }

  /** The next shot of the stream may come. */
  lemma NextReady(sent: seq<SentShot>, source: Source, maxShotBytes: nat, k: nat, n: nat, run: Run)
    requires Conforming(sent) && Through(sent, source, maxShotBytes, k, n, run) && k + n < |sent|
    requires |sent[k + n].samples| <= maxShotBytes
    ensures Ready(run, sent[k + n].config, sent[k + n].samples)
  {
    Sent(sent, k + n);
    SameProfile(sent, k + n, run.context);
    Follows(sent, k + n);
    hide Conforming, Accepts, ProfileOk, Records, SamplesFile, SamplesOfShots;
  }

  lemma Follows(sent: seq<SentShot>, m: nat)
    requires Conforming(sent) && 0 < m < |sent|
    ensures sent[m].config.initialSequence == After(sent[m - 1])
    ensures sent[m].config.shotId > sent[m - 1].config.shotId
    ensures sent[m].config.firstSampleTimestamp > sent[m - 1].config.firstSampleTimestamp
  {
    hide Accepts, DataPackets;
  }

  lemma ThroughNext(sent: seq<SentShot>, source: Source, maxShotBytes: nat, k: nat, n: nat, base: Run,
                    arrivals: seq<Arrival>, run: Run)
    requires Conforming(sent) && Through(sent, source, maxShotBytes, k, n, base) && k + n < |sent|
    requires Recorded(base, sent[k + n].config, sent[k + n].samples, arrivals, run)
    ensures Through(sent, source, maxShotBytes, k, n + 1, run)
  {
    RecordedFiles(base, sent[k + n].config, sent[k + n].samples, arrivals, run);
    SamplesNext(sent, k, n);
    SameProfile(sent, k + n, run.context);
    hide Conforming, Accepts, ProfileOk, Records, SamplesFile, SamplesOfShots, Ready, TerminalAfter, IsRecordOf;
  }

  lemma ThroughFirst(sent: seq<SentShot>, source: Source, maxShotBytes: nat, k: nat, arrivals: seq<Arrival>,
                     run: Run)
    requires Conforming(sent) && k < |sent|
    requires Recorded(Begun(maxShotBytes, source, sent[k].config), sent[k].config, sent[k].samples, arrivals, run)
    ensures Through(sent, source, maxShotBytes, k, 1, run)
  {
    var base := Begun(maxShotBytes, source, sent[k].config);
    RecordedFiles(base, sent[k].config, sent[k].samples, arrivals, run);
    assert sent[k..k] == [];
    SamplesNext(sent, k, 0);
    Sent(sent, k);
    SameProfile(sent, k, run.context);
    hide Conforming, Accepts, ProfileOk, Ready, TerminalAfter, IsRecordOf;
  }

  lemma {:induction false} IngestAppend(start: Run, a: seq<Arrival>, b: seq<Arrival>)
    requires IngestAll(start, a).ok && IngestAll(start, a).run.selected.Some?
    ensures IngestAll(start, a + b) == AcceptAll(IngestAll(start, a).run, b)
  {
    hide Accept;
    if b == [] {
      assert a + b == a;
    } else {
      var init := b[..|b| - 1];
      assert (a + b)[..|a + b| - 1] == a + init;
      IngestAppend(start, a, init);
    }
  }

  lemma {:induction false} DeliverShots(sent: seq<SentShot>, source: Source, maxShotBytes: nat, k: nat,
                                        parts: seq<seq<Arrival>>)
    requires Conforming(sent) && Delivered(sent, source, k, parts) && parts != []
    requires sent[k].config.firstSampleTimestamp > 0
    requires forall i | 0 <= i < |sent| :: |sent[i].samples| <= maxShotBytes
    requires BeforeInfo(parts[0]) <= MAX_PENDING
    ensures IngestAll(NewRun(maxShotBytes), Flatten(parts)).ok
    ensures Through(sent, source, maxShotBytes, k, |parts|, IngestAll(NewRun(maxShotBytes), Flatten(parts)).run)
  {
    hide Conforming, Accepts, IngestAll, AcceptAll, Carried, AllSeen, Through, State, Recorded, Ready;
    var n := |parts| - 1;
    var init, last := parts[..n], parts[n];
    var c, samples := sent[k + n].config, sent[k + n].samples;
    Sent(sent, k + n);
    DeliveredPart(sent, source, k, parts, n);
    if n == 0 {
      assert Flatten(init) == [] && Flatten(parts) == [] + last == last;
      FirstDelivered(sent, source, maxShotBytes, k, last);
    } else {
      DeliveredInit(sent, source, k, parts);
      DeliverShots(sent, source, maxShotBytes, k, init);
      var base := IngestAll(NewRun(maxShotBytes), Flatten(init)).run;
      NextReady(sent, source, maxShotBytes, k, n, base);
      ThroughSelected(sent, source, maxShotBytes, k, n, base);
      ShotDelivered(base, c, samples, last);
      IngestAppend(NewRun(maxShotBytes), Flatten(init), last);
      ThroughNext(sent, source, maxShotBytes, k, n, base, last, AcceptAll(base, last).run);
    }
  }

  lemma DeliveredInit(sent: seq<SentShot>, source: Source, k: nat, parts: seq<seq<Arrival>>)
    requires Conforming(sent) && Delivered(sent, source, k, parts) && |parts| > 1
    ensures var init := parts[..|parts| - 1]; Delivered(sent, source, k, init) && init != [] && init[0] == parts[0]
  {
    var init := parts[..|parts| - 1];
    forall i | 0 <= i < |init|
      ensures Accepts(sent[k + i].config, sent[k + i].samples)
      ensures DeliversAll(source, sent[k + i].config, sent[k + i].samples, init[i])
    {
      DeliveredPart(sent, source, k, parts, i);
    }
    hide Conforming, DeliversAll, Accepts;
  }

  lemma ThroughSelected(sent: seq<SentShot>, source: Source, maxShotBytes: nat, k: nat, n: nat, run: Run)
    requires Conforming(sent) && Through(sent, source, maxShotBytes, k, n, run)
    ensures run.selected == Some(SelectionOf(sent, source))
  {
  }

  lemma DeliveredPart(sent: seq<SentShot>, source: Source, k: nat, parts: seq<seq<Arrival>>, i: nat)
    requires Conforming(sent) && Delivered(sent, source, k, parts) && i < |parts|
    ensures Accepts(sent[k + i].config, sent[k + i].samples)
    ensures DeliversAll(source, sent[k + i].config, sent[k + i].samples, parts[i])
    ensures Selection(source, sent[k + i].config.runId, sent[k + i].config.streamId) == SelectionOf(sent, source)
  {
    Sent(sent, k + i);
    hide Accepts, DeliversAll;
  }

  lemma FirstDelivered(sent: seq<SentShot>, source: Source, maxShotBytes: nat, k: nat, arrivals: seq<Arrival>)
    requires Conforming(sent) && k < |sent| && |sent[k].samples| <= maxShotBytes
    requires Accepts(sent[k].config, sent[k].samples) && sent[k].config.firstSampleTimestamp > 0
    requires DeliversAll(source, sent[k].config, sent[k].samples, arrivals) && BeforeInfo(arrivals) <= MAX_PENDING
    ensures IngestAll(NewRun(maxShotBytes), arrivals).ok
    ensures Through(sent, source, maxShotBytes, k, 1, IngestAll(NewRun(maxShotBytes), arrivals).run)
  {
    var c, samples := sent[k].config, sent[k].samples;
    Sent(sent, k);
    hide Conforming, Accepts, IngestAll, Carried, AllSeen, Through, Recorded;
    var j := FirstInfoIndex(source, c, samples, arrivals);
    BeforeInfoIs(arrivals, j);
    AfterInfo(maxShotBytes, source, c, samples, arrivals, j);
    ThroughFirst(sent, source, maxShotBytes, k, arrivals, IngestAll(NewRun(maxShotBytes), arrivals).run);
  }

  /** Shots `k` to the end of a stream delivered one after the other, then the closing heartbeat: the run
      is clean and holds exactly those shots. With `k == 0` nothing is missing; with `k > 0` the first
      shots are, and the run is clean all the same. */
  lemma DeliveredIsClean(sent: seq<SentShot>, source: Source, maxShotBytes: nat, k: nat, parts: seq<seq<Arrival>>,
                         ns: nat)
    requires Conforming(sent) && k < |sent| && k + |parts| == |sent| && Delivered(sent, source, k, parts)
    requires sent[k].config.firstSampleTimestamp > 0
    requires forall i | 0 <= i < |sent| :: |sent[i].samples| <= maxShotBytes
    requires BeforeInfo(parts[0]) <= MAX_PENDING
    ensures var o := ReceiveRun(maxShotBytes, Flatten(parts) + [Arrival(source, ns, Closing(sent))]);
      && Clean(o) && |Records(o.run.log)| == |sent| - k && SamplesFile(o.run.log) == SamplesOfShots(sent[k..])
  {
    hide IngestAll, AcceptAll, Through, Accept, Delivered, CleanRun;
    var h := Arrival(source, ns, Closing(sent));
    DeliverShots(sent, source, maxShotBytes, k, parts);
    var base := IngestAll(NewRun(maxShotBytes), Flatten(parts)).run;
    ThroughSelected(sent, source, maxShotBytes, k, |parts|, base);
    IngestAppend(NewRun(maxShotBytes), Flatten(parts), [h]);
    AcceptOne(base, h);
    CloseClean(sent, source, maxShotBytes, k, base, h);
  }

  lemma AcceptOne(run: Run, a: Arrival)
    requires run.selected.Some?
    ensures AcceptAll(run, [a]) == Accept(run, a)
  {
    assert [a][..0] == [];
    hide Accept;
  }

  lemma CloseClean(sent: seq<SentShot>, source: Source, maxShotBytes: nat, k: nat, base: Run, h: Arrival)
    requires Conforming(sent) && k < |sent| && Through(sent, source, maxShotBytes, k, |sent| - k, base)
    requires h.Arrival? && h.source == source && h.d == Closing(sent)
    ensures base.selected.Some? && Accept(base, h).ok
    ensures var run := Accept(base, h).run;
      && FinalizeRemaining(run) == run && CleanRun(run)
      && |Records(run.log)| == |sent| - k && SamplesFile(run.log) == SamplesOfShots(sent[k..])
  {
    Sent(sent, |sent| - 1);
    assert sent[k..k + (|sent| - k)] == sent[k..];
    hide Conforming, Accepts, ProfileOk, Records, SamplesFile, SamplesOfShots, FinalizeReady, AddTo, WithShot;
  }

  // ----- a concrete lost shot -----

  /** A one-sample shot. */
  function Tiny(shotId: U64, sequence: U64, timestamp: U64): SentShot {
    SentShot(Config(FORMAT_IQ_S16_LE, 4, 1, 7, shotId, sequence, 1, 1, 12_500_000, 1, 200_000_000, 1, 0,
                    2, 16, 15, 1, 9, timestamp, true, false),
             [0, 1, 2, 3])
  }

  function InOrder(source: Source, ds: seq<Datagram>): seq<Arrival> {
    seq(|ds|, i requires 0 <= i < |ds| => Arrival(source, 0, ds[i]))
  }

  /** Two shots are sent, every datagram of the first is lost, and the run is clean with one record. */
  lemma LostShotIsClean(source: Source) returns (sent: seq<SentShot>, arrivals: seq<Arrival>)
    ensures Conforming(sent) && |sent| == 2
    ensures forall i | 0 <= i < |arrivals| :: Authentic(sent, source, arrivals[i])
    ensures var o := ReceiveRun(1000, arrivals);
      Clean(o) && |Records(o.run.log)| == 1 && SamplesFile(o.run.log) != SamplesOfShots(sent)
  {
    sent := [Tiny(1, 0, 5), Tiny(2, 3, 6)];
    TinyConforms(sent);
    var part := InOrder(source, Datagrams(sent[1].config, sent[1].samples));
    TinyDelivered(sent, source, part);
    arrivals := Flatten([part]) + [Arrival(source, 0, Closing(sent))];
    assert [part][..0] == [];
    assert Flatten([part]) == part;
    hide *;
    DeliveredIsClean(sent, source, 1000, 1, [part], 0);
    TinySamples(sent);
    DeliveredAuthentic(sent, source, part);
  }

  lemma TinySamples(sent: seq<SentShot>)
    requires |sent| == 2 && |sent[0].samples| == |sent[1].samples| == 4
    ensures SamplesOfShots(sent[1..]) != SamplesOfShots(sent)
  {
    assert sent[1..] == [sent[1]] && [sent[1]][..0] == [] && sent[..1] == [sent[0]] && [sent[0]][..0] == [];
    assert SamplesOfShots([sent[1]]) == sent[1].samples;
    assert SamplesOfShots([sent[0]]) == sent[0].samples;
    assert SamplesOfShots(sent) == sent[0].samples + sent[1].samples;
  }

  lemma DeliveredAuthentic(sent: seq<SentShot>, source: Source, part: seq<Arrival>)
    requires Conforming(sent)
    requires forall i | 0 <= i < |part| :: Authentic(sent, source, part[i])
    ensures var arrivals := part + [Arrival(source, 0, Closing(sent))];
            forall i | 0 <= i < |arrivals| :: Authentic(sent, source, arrivals[i])
  {
    hide Conforming, OfStream, Closing;
  }

  lemma TinyConforms(sent: seq<SentShot>)
    requires sent == [Tiny(1, 0, 5), Tiny(2, 3, 6)]
    ensures Conforming(sent) && |sent[0].samples| == |sent[1].samples| == 4
  {
    assert PacketsPerFrame(sent[0].config) == 1 && DataPackets(sent[0].config) == 1;
    assert PacketsPerFrame(sent[1].config) == 1 && DataPackets(sent[1].config) == 1;
  }

  lemma TinyDelivered(sent: seq<SentShot>, source: Source, part: seq<Arrival>)
    requires Conforming(sent) && |sent| == 2 && Accepts(sent[1].config, sent[1].samples)
    requires part == InOrder(source, Datagrams(sent[1].config, sent[1].samples))
    ensures Delivered(sent, source, 1, [part]) && BeforeInfo(part) == 0
    ensures forall i | 0 <= i < |part| :: Authentic(sent, source, part[i])
  {
    var c, samples := sent[1].config, sent[1].samples;
    SentShots.SequenceAt(c, samples, 0);
    hide Accepts, Datagrams, Conforming;
    var ds := Datagrams(c, samples);
    forall i | 0 <= i < |ds|
      ensures part[i].Arrival? && part[i].d == ds[i] && ds[i] in ds
    {
    }
    forall d: Datagram | d in ds
      ensures Completeness.Seen(part, d)
    {
      var i :| 0 <= i < |ds| && ds[i] == d;
      assert part[i].d == d;
    }
    assert DeliversAll(source, c, samples, part);
    forall i | 0 <= i < |part|
      ensures Authentic(sent, source, part[i])
    {
      assert OfStream(sent, part[i].d);
    }
  }
}
