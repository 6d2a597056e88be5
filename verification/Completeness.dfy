/** Nothing lost means everything published: a shot whose datagrams all arrive, in any order and any
    number of times, becomes one COMPLETE record with exactly the sender's bytes. */
module Completeness {
  import opened Crc32
  import opened Protocol
  import opened Packetizer
  import opened Ordering
  import opened Gaps
  import opened RunFormat
  import opened ShotModel
  import opened SentVerdicts
  import opened RunModel
  import opened SentStream
  import SentShots
  import Publication
  import Soundness

  ghost predicate Seen(arrivals: seq<Arrival>, d: Datagram) {
    exists i | 0 <= i < |arrivals| :: arrivals[i].Arrival? && arrivals[i].d == d
  }

  ghost predicate AllSeen(c: Config, samples: seq<Byte>, arrivals: seq<Arrival>)
    requires Accepts(c, samples)
  {
    forall d | d in Datagrams(c, samples) :: Seen(arrivals, d)
  }

  /** A packet of this shot from the selected sender. */
  ghost predicate Carried(sel: Selection, c: Config, samples: seq<Byte>, a: Arrival)
    requires Accepts(c, samples)
  {
    a.Arrival? && a.source == sel.source && a.d in Datagrams(c, samples)
  }

  /** The recorder is between shots and this one may come next. */
  ghost predicate Ready(base: Run, c: Config, samples: seq<Byte>) {
    && Accepts(c, samples) && c.firstSampleTimestampValid && c.firstSampleTimestamp > 0
    && base.selected.Some? && base.selected.value.runId == c.runId && base.selected.value.streamId == c.streamId
    && base.shots == []
    && ProfileOk(base.context, c) && ContinuityOk(base.context, c)
    && |samples| <= base.context.maxShotBytes
  }

  ghost predicate TerminalAfter(base: Run, c: Config, ended: bool, t: Terminal) {
    if ended && c.endOfStream then
      t.Seen? && t.isShotEnd && t.sequence == c.initialSequence + DataPackets(c) + 1 && t.shotId == c.shotId
    else t == base.terminal
  }

  // ----- what the arrivals of a shot add up to -----

  /** The arrivals of a shot up to the one that completes it. */
  ghost function Until(c: Config, samples: seq<Byte>, arrivals: seq<Arrival>): seq<Arrival>
    requires Accepts(c, samples)
  {
    if arrivals == [] then []
    else if AllSeen(c, samples, arrivals[..|arrivals| - 1]) then Until(c, samples, arrivals[..|arrivals| - 1])
    else arrivals
  }

  /** How many datagrams came for the first time after one of a higher sequence. */
  ghost function Overtaken(arrivals: seq<Arrival>): nat {
    if arrivals == [] then 0
    else
      var init, a := arrivals[..|arrivals| - 1], arrivals[|arrivals| - 1];
      Overtaken(init) + if a.Arrival? && !Seen(init, a.d) && Above(init, a.d.Sequence()) then 1 else 0
  }

  ghost predicate Above(arrivals: seq<Arrival>, sequence: U64) {
    exists i | 0 <= i < |arrivals| :: arrivals[i].Arrival? && arrivals[i].d.Sequence() > sequence
  }

  /** The first receive time other than zero, or zero. */
  function FirstTime(arrivals: seq<Arrival>): nat {
    if arrivals == [] then 0
    else
      var t := FirstTime(arrivals[..|arrivals| - 1]);
      if t == 0 then LastTime(arrivals) else t
  }

  function LastTime(arrivals: seq<Arrival>): nat {
    if arrivals != [] && arrivals[|arrivals| - 1].Arrival? then arrivals[|arrivals| - 1].receiveNs else 0
  }

  /** An open shot's counters say what has arrived of it. */
  ghost predicate Tallied(s: Shot, arrivals: seq<Arrival>) {
    && s.datagrams == |arrivals| == |s.packets| + s.duplicatePackets
    && s.reorderedPackets == Overtaken(arrivals)
    && s.firstReceiveNs == FirstTime(arrivals) && s.lastReceiveNs == LastTime(arrivals)
    && (if s.highestArrival.None? then s.packets == [] else
          && (forall p | p in s.packets :: p.Sequence() <= s.highestArrival.value)
          && (exists p | p in s.packets :: p.Sequence() == s.highestArrival.value))
  }

  /** What a run in which nothing goes wrong does not change. */
  ghost predicate SameRun(base: Run, run: Run) {
    && run.selected == base.selected && run.context.maxShotBytes == base.context.maxShotBytes
    && run.counts.incomplete == base.counts.incomplete && run.counts.malformed == base.counts.malformed
    && run.counts.conflicting == base.counts.conflicting && run.counts.pendingOverflow == base.counts.pendingOverflow
    && run.counts.foreign == base.counts.foreign
  }

  ghost predicate NothingFiled(base: Run, run: Run) {
    && run.log == base.log && run.counts.complete == base.counts.complete && run.counts.late == base.counts.late
    && run.counts.duplicate == base.counts.duplicate && run.counts.reordered == base.counts.reordered
    && run.context.expected == base.context.expected && run.context.last == base.context.last
  }

  /** Some of the shot has arrived, and is all that is open. */
  ghost predicate Collecting(base: Run, c: Config, samples: seq<Byte>, arrivals: seq<Arrival>, run: Run) {
    && Ready(base, c, samples) && SameRun(base, run) && NothingFiled(base, run)
    && ProfileOk(run.context, c)
    && (Seen(arrivals, InfoDatagram(c)) || base.context.profile.Info? ==> run.context.profile.Info?)
    && TerminalAfter(base, c, Seen(arrivals, EndDatagram(c, samples)), run.terminal)
    && !AllSeen(c, samples, arrivals)
    && (if run.shots == [] then arrivals == []
        else |run.shots| == 1 && ShotFrom(run.shots[0], c, samples) && Tallied(run.shots[0], arrivals)
             && forall d :: d in run.shots[0].packets <==> Seen(arrivals, d))
  }

  /** The shot has been published after what was published before, and nothing is open; what arrived after the
      shot was whole was late. */
  ghost predicate Recorded(base: Run, c: Config, samples: seq<Byte>, arrivals: seq<Arrival>, run: Run) {
    && Ready(base, c, samples) && SameRun(base, run) && run.shots == []
    && c.initialSequence + DataPackets(c) + 2 <= U64_MAX
    && run.context.expected == Some(c.initialSequence + DataPackets(c) + 2)
    && run.context.last == Some(LastShot(c.shotId, c.firstSampleTimestamp))
    && run.context.profile.Info? && ProfileOk(run.context, c)
    && run.counts.complete == base.counts.complete + 1
    && TerminalAfter(base, c, true, run.terminal)
    && var taken := Until(c, samples, arrivals);
      && run.counts.late == base.counts.late + |arrivals| - |taken|
      && run.counts.duplicate == base.counts.duplicate + |taken| - (DataPackets(c) + 2)
      && run.counts.reordered == base.counts.reordered + Overtaken(taken)
      && Wrote(base.log, run.log, c, samples, taken)
  }

  /** The shot's samples and then its COMPLETE record have been written, and nothing else. */
  ghost predicate Wrote(before: seq<Write>, after: seq<Write>, c: Config, samples: seq<Byte>,
                        taken: seq<Arrival>) {
    exists r: IndexRecord ::
      && after == before + [AppendSamples(samples), AppendRecord(r)]
      && IsRecordOf(r, c, samples, |SamplesFile(before)|, taken)
  }

  /** The COMPLETE record of a shot whose datagrams arrived as `taken`, all of them and some perhaps again. */
  ghost predicate IsRecordOf(r: IndexRecord, c: Config, samples: seq<Byte>, offset: nat, taken: seq<Arrival>) {
    && RecordSays(r, c, samples) && r.extent.offset == offset
    && r.datagrams == |taken| && r.duplicatePackets == |taken| - (DataPackets(c) + 2)
    && r.reorderedPackets == Overtaken(taken)
    && r.firstReceiveNs == FirstTime(taken) && r.lastReceiveNs == LastTime(taken)
  }

  /** The converse of `AllReceived`: a shot that holds everything has no gap. */
  lemma NothingAbsent(s: Shot, c: Config, samples: seq<Byte>)
    requires ShotFrom(s, c, samples)
    requires forall d | d in Datagrams(c, samples) :: d in s.packets
    ensures SequenceIsComplete(s)
  {
    SentShots.SequenceAt(c, samples, 0);
    SentShots.SequenceAt(c, samples, DataPackets(c) + 1);
    assert Datagrams(c, samples)[0] in s.packets && Datagrams(c, samples)[DataPackets(c) + 1] in s.packets;
    hide Accepts, Datagrams, DataPackets, Checksum;
    var lo, hi := s.info.header.packetSequence, s.end.header.packetSequence;
    forall q: nat | lo <= q <= hi
      ensures q in Values(Sequences(s.packets))
    {
      var d := Datagrams(c, samples)[q - lo];
      SentShots.SequenceAt(c, samples, q - lo);
      assert d in s.packets;
      var j :| 0 <= j < |s.packets| && s.packets[j] == d;
      assert Sequences(s.packets)[j] == q;
    }
  }

  // ----- one arrival -----

  lemma SeenNext(arrivals: seq<Arrival>, a: Arrival, d: Datagram)
    requires a.Arrival?
    ensures Seen(arrivals + [a], d) <==> Seen(arrivals, d) || d == a.d
  {
    var more := arrivals + [a];
    if d == a.d {
      assert more[|arrivals|].d == d;
    }
    if Seen(arrivals, d) {
      var i :| 0 <= i < |arrivals| && arrivals[i].Arrival? && arrivals[i].d == d;
      assert more[i].d == d;
    }
  }

  /** The packet set of the shot a packet was added to. */
  lemma AddedPackets(c: Config, samples: seq<Byte>, s: Shot, ns: nat, d: Datagram)
    requires ShotFrom(s, c, samples) && d in Datagrams(c, samples)
    ensures var t := Soundness.Added(s, ns, d);
      ShotFrom(t, c, samples) && forall x :: x in t.packets <==> x in s.packets || x == d
  {
    Soundness.AddFrom(c, samples, s, ns, d);
    hide ShotFrom, Accepts, Datagrams, NoteObject;
  }

  lemma AddedTally(c: Config, samples: seq<Byte>, s: Shot, arrivals: seq<Arrival>, a: Arrival)
    requires a.Arrival? && ShotFrom(s, c, samples) && a.d in Datagrams(c, samples) && Tallied(s, arrivals)
    requires forall d :: d in s.packets <==> Seen(arrivals, d)
    ensures Tallied(Soundness.Added(s, a.receiveNs, a.d), arrivals + [a])
  {
    hide ShotFrom, Accepts, Datagrams, Seen, Above;
    var more := arrivals + [a];
    assert more[..|arrivals|] == arrivals;
    if Holds(s.packets, a.d.Sequence()) {
      Soundness.HeldIsSame(c, samples, s, a.d);
    } else {
      HighestAbove(s, arrivals, a.d.Sequence());
      assert a.d !in s.packets;
    }
  }

  /** Something above a sequence has arrived exactly when the highest one is. */
  lemma HighestAbove(s: Shot, arrivals: seq<Arrival>, sequence: U64)
    requires Tallied(s, arrivals) && forall d :: d in s.packets <==> Seen(arrivals, d)
    ensures Above(arrivals, sequence) <==> s.highestArrival.Some? && sequence < s.highestArrival.value
  {
    hide Overtaken, FirstTime;
    if Above(arrivals, sequence) {
      var i :| 0 <= i < |arrivals| && arrivals[i].Arrival? && arrivals[i].d.Sequence() > sequence;
      assert Seen(arrivals, arrivals[i].d);
    }
    if s.highestArrival.Some? && sequence < s.highestArrival.value {
      var p :| p in s.packets && p.Sequence() == s.highestArrival.value;
      assert Seen(arrivals, p);
    }
  }

  /** What adding a packet of the shot does to the run. */
  lemma AddToRun(base: Run, run: Run, c: Config, samples: seq<Byte>, ns: nat, d: Datagram)
    requires |run.shots| == 1 && ShotFrom(run.shots[0], c, samples) && d in Datagrams(c, samples)
    requires ProfileOk(run.context, c)
    ensures var q := AddTo(run, 0, ns, d);
      && q.shots == [Soundness.Added(run.shots[0], ns, d)]
      && ProfileOk(q.context, c)
      && (run.context.profile.Info? ==> q.context.profile.Info?)
      && (d == InfoDatagram(c) && d !in run.shots[0].packets ==> q.context.profile.Info?)
      && (d == EndDatagram(c, samples) && d !in run.shots[0].packets ==>
            (TerminalAfter(base, c, false, run.terminal) ==> TerminalAfter(base, c, true, q.terminal)))
      && (d != EndDatagram(c, samples) || d in run.shots[0].packets ==> q.terminal == run.terminal)
  {
    var s := run.shots[0];
    Soundness.AddToParts(run, 0, ns, d);
    Soundness.ObjectsOf(c, samples, d);
    SentShots.SequenceAt(c, samples, DataPackets(c) + 1);
    if Holds(s.packets, d.Sequence()) {
      Soundness.HeldIsSame(c, samples, s, d);
    }
    hide Accepts, Datagrams, AddPacket, NoteObject, Soundness.Added, DataPackets, Checksum;
  }

  /** The one open shot, before a packet of it is added. */
  lemma OpenOne(base: Run, c: Config, samples: seq<Byte>, arrivals: seq<Arrival>, run: Run)
    requires Collecting(base, c, samples, arrivals, run)
    ensures var q := WithShot(run, c.shotId);
      && q.Some? && q.value == run.(shots := q.value.shots) && |q.value.shots| == 1
      && IndexOf(q.value.shots, c.shotId) == 0
      && ShotFrom(q.value.shots[0], c, samples)
      && Tallied(q.value.shots[0], arrivals)
      && (forall d :: d in q.value.shots[0].packets <==> Seen(arrivals, d))
  {
    hide Accepts, Datagrams, InfoDatagram, EndDatagram, ProfileOk, ContinuityOk, AllSeen, TerminalAfter, SameRun;
    if run.shots == [] {
      assert ShotFrom(NewShot(c.shotId), c, samples);
      assert IndexOf([], c.shotId) == 0;
    }
  }

  lemma SomeOrNone(c: Config, samples: seq<Byte>, a: Arrival, sel: Selection)
    requires Accepts(c, samples) && Carried(sel, c, samples, a)
    ensures a.Arrival? && a.d.header.shotId == c.shotId && a.d.Length() <= MAX_DATAGRAM && a.d.Type() != HeartbeatPacket
    ensures sel.runId == c.runId && sel.streamId == c.streamId ==> !Foreign(sel, a)
  {
    SentTimestamp(c, samples, a.d);
  }

  /** Accepting a packet of the shot: it is added to the one open shot, which may then be ready. */
  lemma AcceptCarried(base: Run, c: Config, samples: seq<Byte>, arrivals: seq<Arrival>, run: Run, a: Arrival)
    requires Collecting(base, c, samples, arrivals, run)
    requires base.selected.Some? && Accepts(c, samples) && Carried(base.selected.value, c, samples, a)
    ensures var q := WithShot(run.(counts := run.counts.(valid := run.counts.valid + 1)), c.shotId);
      && q.Some? && |q.value.shots| == 1 && ShotFrom(q.value.shots[0], c, samples)
      && q.value == run.(shots := q.value.shots, counts := run.counts.(valid := run.counts.valid + 1))
      && (forall d :: d in q.value.shots[0].packets <==> Seen(arrivals, d))
      && run.selected.Some? && Tallied(q.value.shots[0], arrivals)
      && Accept(run, a) == Outcome(FinalizeReady(AddTo(q.value, 0, a.receiveNs, a.d)), true)
  {
    hide FinalizeReady, AddTo, WithShot, Accepts, Datagrams, ShotFrom, EndsStream, Collecting, Seen, Carried, Ready;
    CollectingFacts(base, c, samples, arrivals, run);
    SomeOrNone(c, samples, a, base.selected.value);
    OpenOne(base, c, samples, arrivals, run.(counts := run.counts.(valid := run.counts.valid + 1)));
  }

  lemma CollectingFacts(base: Run, c: Config, samples: seq<Byte>, arrivals: seq<Arrival>, run: Run)
    requires Collecting(base, c, samples, arrivals, run)
    ensures Accepts(c, samples) && base.selected.Some? && run.selected == base.selected
    ensures base.selected.value.runId == c.runId && base.selected.value.streamId == c.streamId
    ensures run.context.last.Some? ==> c.shotId > run.context.last.value.shotId
    ensures Collecting(base, c, samples, arrivals, run.(counts := run.counts.(valid := run.counts.valid + 1)))
  {
    hide Accepts, Datagrams, ShotFrom, AllSeen, ProfileOk, TerminalAfter;
  }

  lemma FinalizeOne(run: Run)
    requires |run.shots| == 1
    ensures FinalizeReady(run) == if SequenceIsComplete(run.shots[0]) then RemovePublished(run, 0)
                                  else run.(shots := [SortPackets(run.shots[0])])
  {
    hide Publish, SortPackets, SequenceIsComplete;
    assert Lowest(run.shots) == 0;
    Publication.RemovedShots(run, 0);
    assert run.shots[0 := SortPackets(run.shots[0])] == [SortPackets(run.shots[0])];
  }

  /** The run just after the packet is added, before anything is finalized. */
  ghost predicate Took(base: Run, c: Config, samples: seq<Byte>, arrivals: seq<Arrival>, run: Run) {
    && Ready(base, c, samples) && SameRun(base, run) && NothingFiled(base, run)
    && ProfileOk(run.context, c)
    && (Seen(arrivals, InfoDatagram(c)) || base.context.profile.Info? ==> run.context.profile.Info?)
    && TerminalAfter(base, c, Seen(arrivals, EndDatagram(c, samples)), run.terminal)
    && |run.shots| == 1 && ShotFrom(run.shots[0], c, samples) && Tallied(run.shots[0], arrivals)
    && (forall d :: d in run.shots[0].packets <==> Seen(arrivals, d))
  }

  lemma Take(base: Run, c: Config, samples: seq<Byte>, arrivals: seq<Arrival>, run: Run, a: Arrival) returns (q: Run)
    requires Collecting(base, c, samples, arrivals, run)
    requires base.selected.Some? && Accepts(c, samples) && Carried(base.selected.value, c, samples, a)
    ensures Took(base, c, samples, arrivals + [a], q)
    ensures run.selected.Some? && Accept(run, a) == Outcome(FinalizeReady(q), true)
  {
    AcceptCarried(base, c, samples, arrivals, run, a);
    var p := WithShot(run.(counts := run.counts.(valid := run.counts.valid + 1)), c.shotId).value;
    q := AddTo(p, 0, a.receiveNs, a.d);
    Taken(base, c, samples, arrivals, run, p, a);
  }

  lemma Taken(base: Run, c: Config, samples: seq<Byte>, arrivals: seq<Arrival>, run: Run, p: Run, a: Arrival)
    requires Collecting(base, c, samples, arrivals, run)
    requires a.Arrival? && a.d in Datagrams(c, samples)
    requires p == run.(shots := p.shots, counts := run.counts.(valid := run.counts.valid + 1))
    requires |p.shots| == 1 && ShotFrom(p.shots[0], c, samples) && Tallied(p.shots[0], arrivals)
    requires forall d :: d in p.shots[0].packets <==> Seen(arrivals, d)
    ensures Took(base, c, samples, arrivals + [a], AddTo(p, 0, a.receiveNs, a.d))
  {
    hide Accepts, Datagrams, AllSeen, ProfileOk, TerminalAfter, ShotFrom, Seen, AddTo, Soundness.Added, Ready,
         EndDatagram, InfoDatagram, Tallied;
    var s := p.shots[0];
    CollectingContext(base, c, samples, arrivals, run);
    AddToRun(base, p, c, samples, a.receiveNs, a.d);
    Soundness.AddToParts(p, 0, a.receiveNs, a.d);
    AddedPackets(c, samples, s, a.receiveNs, a.d);
    AddedTally(c, samples, s, arrivals, a);
    forall d
      ensures Seen(arrivals + [a], d) <==> Seen(arrivals, d) || d == a.d
    {
      SeenNext(arrivals, a, d);
    }
  }

  lemma CollectingContext(base: Run, c: Config, samples: seq<Byte>, arrivals: seq<Arrival>, run: Run)
    requires Collecting(base, c, samples, arrivals, run)
    ensures Accepts(c, samples) && ProfileOk(run.context, c)
  {
  }

  /** Not everything has arrived: the shot stays open. */
  lemma CollectMore(base: Run, c: Config, samples: seq<Byte>, arrivals: seq<Arrival>, run: Run, a: Arrival)
    requires Collecting(base, c, samples, arrivals, run)
    requires base.selected.Some? && Accepts(c, samples) && Carried(base.selected.value, c, samples, a)
    requires !AllSeen(c, samples, arrivals + [a])
    ensures run.selected.Some? && Accept(run, a).ok
    ensures Collecting(base, c, samples, arrivals + [a], Accept(run, a).run)
  {
    hide Accept;
    var q := Take(base, c, samples, arrivals, run, a);
    FinalizeOne(q);
    Waiting(base, c, samples, arrivals + [a], q);
  }

  lemma Waiting(base: Run, c: Config, samples: seq<Byte>, arrivals: seq<Arrival>, q: Run)
    requires Took(base, c, samples, arrivals, q) && Accepts(c, samples) && !AllSeen(c, samples, arrivals)
    ensures !SequenceIsComplete(q.shots[0])
    ensures Collecting(base, c, samples, arrivals, q.(shots := [SortPackets(q.shots[0])]))
  {
    var s := q.shots[0];
    if SequenceIsComplete(s) {
      AllReceived(s, c, samples);
    }
    SortedFrom(c, samples, s);
    SortedTally(s, arrivals);
    hide Accepts, Datagrams, ProfileOk, TerminalAfter, ShotFrom, Seen, SequenceIsComplete, SortPackets, Tallied;
  }

  lemma SortedFrom(c: Config, samples: seq<Byte>, s: Shot)
    requires ShotFrom(s, c, samples)
    ensures ShotFrom(SortPackets(s), c, samples)
    ensures forall d :: d in SortPackets(s).packets <==> d in s.packets
  {
    SameMembers(s.packets, Sort(BySequence, s.packets));
    DistinctPermutes(s.packets, Sort(BySequence, s.packets));
    hide Accepts, Datagrams, Distinct, Sort;
  }

  lemma SortedTally(s: Shot, arrivals: seq<Arrival>)
    requires Tallied(s, arrivals)
    ensures Tallied(SortPackets(s), arrivals)
  {
    SameMembers(s.packets, Sort(BySequence, s.packets));
    hide Overtaken, FirstTime, LastTime;
  }

  /** The last missing packet: the shot is published. */
  lemma CollectLast(base: Run, c: Config, samples: seq<Byte>, arrivals: seq<Arrival>, run: Run, a: Arrival)
    requires Collecting(base, c, samples, arrivals, run)
    requires base.selected.Some? && Accepts(c, samples) && Carried(base.selected.value, c, samples, a)
    requires AllSeen(c, samples, arrivals + [a])
    ensures run.selected.Some? && Accept(run, a).ok
    ensures Recorded(base, c, samples, arrivals + [a], Accept(run, a).run)
  {
    hide Accept;
    var q := Take(base, c, samples, arrivals, run, a);
    FinalizeOne(q);
    NotSeenBefore(base, c, samples, arrivals, run);
    assert (arrivals + [a])[..|arrivals|] == arrivals;
    Filled(base, c, samples, arrivals + [a], q);
  }

  lemma NotSeenBefore(base: Run, c: Config, samples: seq<Byte>, arrivals: seq<Arrival>, run: Run)
    requires Collecting(base, c, samples, arrivals, run)
    ensures Accepts(c, samples) && !AllSeen(c, samples, arrivals)
  {
  }

  lemma Filled(base: Run, c: Config, samples: seq<Byte>, arrivals: seq<Arrival>, q: Run)
    requires Took(base, c, samples, arrivals, q) && Accepts(c, samples) && AllSeen(c, samples, arrivals)
    requires Until(c, samples, arrivals) == arrivals
    ensures SequenceIsComplete(q.shots[0])
    ensures Recorded(base, c, samples, arrivals, RemovePublished(q, 0))
  {
    hide *;
    TookFacts(base, c, samples, arrivals, q);
    var s := q.shots[0];
    NothingAbsent(s, c, samples);
    AllReceived(s, c, samples);
    JudgeSent(q.context, s, c, samples);
    Publication.RemovedShots(q, 0);
    NoComplaint(q.context, c, samples);
    SentRecord(q.context, s, c, samples, |SamplesFile(q.log)|);
    SortedAsSent(s, c, samples);
    PublishSent(q, s, c, samples, arrivals);
    AllDone(base, c, samples, arrivals, q);
  }

  /** What is known once the last packet is in. */
  lemma TookFacts(base: Run, c: Config, samples: seq<Byte>, arrivals: seq<Arrival>, q: Run)
    requires Took(base, c, samples, arrivals, q) && Accepts(c, samples) && AllSeen(c, samples, arrivals)
    ensures |q.shots| == 1 && ShotFrom(q.shots[0], c, samples) && Tallied(q.shots[0], arrivals)
    ensures forall d | d in Datagrams(c, samples) :: d in q.shots[0].packets
    ensures Time(c) == c.firstSampleTimestamp > 0
    ensures ContinuityOk(q.context, c) && ProfileOk(q.context, c) && |samples| <= q.context.maxShotBytes
    ensures q.context.profile.Info? && TerminalAfter(base, c, true, q.terminal)
  {
    SentShots.SequenceAt(c, samples, 0);
    SentShots.SequenceAt(c, samples, DataPackets(c) + 1);
    assert Seen(arrivals, Datagrams(c, samples)[0]) && Seen(arrivals, Datagrams(c, samples)[DataPackets(c) + 1]);
    hide Accepts, Datagrams, ShotFrom, Seen, ProfileOk;
  }

  lemma NoComplaint(ctx: Context, c: Config, samples: seq<Byte>)
    requires ContinuityOk(ctx, c) && ProfileOk(ctx, c) && |samples| <= ctx.maxShotBytes
    requires Time(c) > 0
    ensures NO_ISSUES.(protocol := !ProfileOk(ctx, c), frame := |samples| > ctx.maxShotBytes,
                       timestamp := Time(c) == 0, continuity := !ContinuityOk(ctx, c)) == NO_ISSUES
    ensures !NO_ISSUES.Any()
  {
  }

  lemma AllDone(base: Run, c: Config, samples: seq<Byte>, arrivals: seq<Arrival>, q: Run)
    requires Took(base, c, samples, arrivals, q) && q.context.profile.Info? && TerminalAfter(base, c, true, q.terminal)
    requires var p := Publish(q, q.shots[0]);
      && p.context == q.context.(expected := Some(c.initialSequence + DataPackets(c) + 2),
                                 last := Some(LastShot(c.shotId, c.firstSampleTimestamp)))
      && p.selected == q.selected && p.terminal == q.terminal
      && p.counts.complete == q.counts.complete + 1 && p.counts.incomplete == q.counts.incomplete
      && p.counts.malformed == q.counts.malformed && p.counts.conflicting == q.counts.conflicting
      && p.counts.pendingOverflow == q.counts.pendingOverflow
      && p.counts.late == q.counts.late && p.counts.foreign == q.counts.foreign
      && p.counts.duplicate == q.counts.duplicate + |arrivals| - (DataPackets(c) + 2)
      && p.counts.reordered == q.counts.reordered + Overtaken(arrivals)
      && Wrote(q.log, p.log, c, samples, arrivals)
    requires Accepts(c, samples) && Until(c, samples, arrivals) == arrivals
    ensures Recorded(base, c, samples, arrivals, RemovePublished(q, 0))
  {
    hide Publish, Wrote, TerminalAfter, ContinuityOk, ShotFrom, Seen;
    AcceptedRange(c, samples);
    assert Remove(q.shots, 0) == [];
  }

  lemma AcceptedRange(c: Config, samples: seq<Byte>)
    requires Accepts(c, samples)
    ensures c.initialSequence + DataPackets(c) + 2 <= U64_MAX
  {
  }

  lemma PublishSent(q: Run, s: Shot, c: Config, samples: seq<Byte>, arrivals: seq<Arrival>)
    requires ShotFrom(s, c, samples) && s.end == EndOf(c, samples) && |q.shots| > 0 && q.shots[0] == s
    requires Accepts(c, samples) && c.firstSampleTimestamp > 0
    requires var v := Judge(q.context, s);
      v.issues == NO_ISSUES && Payloads(v.placed) == Payloads(v.data) == samples
      && FirstTimestamp(v.data) == c.firstSampleTimestamp
      && RecordSays(RecordOf(s, v, |SamplesFile(q.log)|), c, samples)
    requires Tallied(s, arrivals) && Sort(BySequence, s.packets) == Datagrams(c, samples)
    ensures var p := Publish(q, s);
      && p.context == q.context.(expected := Some(c.initialSequence + DataPackets(c) + 2),
                                 last := Some(LastShot(c.shotId, c.firstSampleTimestamp)))
      && p.selected == q.selected && p.terminal == q.terminal
      && p.counts.complete == q.counts.complete + 1 && p.counts.incomplete == q.counts.incomplete
      && p.counts.malformed == q.counts.malformed && p.counts.conflicting == q.counts.conflicting
      && p.counts.pendingOverflow == q.counts.pendingOverflow
      && p.counts.late == q.counts.late && p.counts.foreign == q.counts.foreign
      && p.counts.duplicate == q.counts.duplicate + |arrivals| - (DataPackets(c) + 2)
      && p.counts.reordered == q.counts.reordered + Overtaken(arrivals)
      && Wrote(q.log, p.log, c, samples, arrivals)
  {
    hide Judge, Datagrams, Payloads, Checksum, DataPackets, Accepts, SamplesFile, RecordSays, Overtaken, FirstTime,
         LastTime, Sort;
    AcceptedRange(c, samples);
    var offset := |SamplesFile(q.log)|;
    assert |s.packets| == |Sort(BySequence, s.packets)| == DataPackets(c) + 2;
    FiledAs(s, Judge(q.context, s), offset);
    assert IsRecordOf(RecordOf(s, Judge(q.context, s), offset), c, samples, offset, arrivals);
  }

  lemma FiledAs(s: Shot, v: Verdict, offset: nat)
    ensures var r := RecordOf(s, v, offset);
      && r.datagrams == s.datagrams && r.duplicatePackets == s.duplicatePackets
      && r.reorderedPackets == s.reorderedPackets
      && r.firstReceiveNs == s.firstReceiveNs && r.lastReceiveNs == s.lastReceiveNs
      && (r.extent.Extent? ==> r.extent.offset == offset)
  {
  }

  // ----- all arrivals of a shot -----

  /** Where the recorder stands after some arrivals of a shot. */
  ghost predicate State(base: Run, c: Config, samples: seq<Byte>, arrivals: seq<Arrival>, run: Run)
    requires Accepts(c, samples)
  {
    if AllSeen(c, samples, arrivals) then Recorded(base, c, samples, arrivals, run)
    else Collecting(base, c, samples, arrivals, run)
  }

  lemma SeenStays(c: Config, samples: seq<Byte>, arrivals: seq<Arrival>, a: Arrival)
    requires Accepts(c, samples) && AllSeen(c, samples, arrivals) && a.Arrival?
    ensures AllSeen(c, samples, arrivals + [a])
  {
    hide Accepts, Datagrams, Seen;
    forall d | d in Datagrams(c, samples)
      ensures Seen(arrivals + [a], d)
    {
      SeenNext(arrivals, a, d);
    }
  }

  /** A packet of a published shot is late. */
  lemma LateCopy(base: Run, c: Config, samples: seq<Byte>, arrivals: seq<Arrival>, run: Run, a: Arrival)
    requires Recorded(base, c, samples, arrivals, run)
    requires base.selected.Some? && Accepts(c, samples) && Carried(base.selected.value, c, samples, a)
    requires AllSeen(c, samples, arrivals)
    ensures run.selected.Some? && Accept(run, a).ok && Recorded(base, c, samples, arrivals + [a], Accept(run, a).run)
  {
    RecordedFacts(base, c, samples, arrivals, run);
    hide Accepts, Datagrams, ProfileOk, TerminalAfter, ContinuityOk, IsRecordOf, FinalizeReady, AddTo, WithShot,
         EndsStream, Recorded;
    SomeOrNone(c, samples, a, base.selected.value);
    RecordedLater(base, c, samples, arrivals, run, a);
  }

  lemma RecordedFacts(base: Run, c: Config, samples: seq<Byte>, arrivals: seq<Arrival>, run: Run)
    requires Recorded(base, c, samples, arrivals, run)
    ensures base.selected.Some? && run.selected == base.selected
    ensures base.selected.value.runId == c.runId && base.selected.value.streamId == c.streamId
    ensures run.context.last == Some(LastShot(c.shotId, c.firstSampleTimestamp))
    ensures run.shots == []
  {
  }

  lemma RecordedLater(base: Run, c: Config, samples: seq<Byte>, arrivals: seq<Arrival>, run: Run, a: Arrival)
    requires Accepts(c, samples) && Recorded(base, c, samples, arrivals, run) && AllSeen(c, samples, arrivals)
    ensures var n := run.counts;
      Recorded(base, c, samples, arrivals + [a], run.(counts := n.(valid := n.valid + 1, late := n.late + 1)))
  {
    hide Accepts, AllSeen, Ready, ProfileOk, TerminalAfter, Wrote, Overtaken;
    assert (arrivals + [a])[..|arrivals|] == arrivals;
  }

  lemma DeliverNext(base: Run, c: Config, samples: seq<Byte>, arrivals: seq<Arrival>, run: Run, a: Arrival)
    requires Accepts(c, samples) && State(base, c, samples, arrivals, run)
    requires base.selected.Some? && Carried(base.selected.value, c, samples, a)
    ensures run.selected.Some? && Accept(run, a).ok
    ensures State(base, c, samples, arrivals + [a], Accept(run, a).run)
  {
    hide Accept, Recorded, Collecting, AllSeen, Accepts;
    if AllSeen(c, samples, arrivals) {
      SeenStays(c, samples, arrivals, a);
      LateCopy(base, c, samples, arrivals, run, a);
    } else if AllSeen(c, samples, arrivals + [a]) {
      CollectLast(base, c, samples, arrivals, run, a);
    } else {
      CollectMore(base, c, samples, arrivals, run, a);
    }
  }

  lemma {:induction false} DeliverAll(base: Run, c: Config, samples: seq<Byte>, before: seq<Arrival>, run: Run,
                                      arrivals: seq<Arrival>)
    requires Accepts(c, samples) && State(base, c, samples, before, run)
    requires base.selected.Some? && run.selected.Some?
    requires forall i | 0 <= i < |arrivals| :: Carried(base.selected.value, c, samples, arrivals[i])
    ensures AcceptAll(run, arrivals).ok
    ensures State(base, c, samples, before + arrivals, AcceptAll(run, arrivals).run)
  {
    hide Accept, State, Accepts, Carried;
    if arrivals == [] {
      assert before + arrivals == before;
    } else {
      var init, a := arrivals[..|arrivals| - 1], arrivals[|arrivals| - 1];
      DeliverAll(base, c, samples, before, run, init);
      DeliverNext(base, c, samples, before + init, AcceptAll(run, init).run, a);
      assert before + arrivals == before + init + [a];
    }
  }

  /** Nothing of the shot has arrived. */
  lemma Fresh(base: Run, c: Config, samples: seq<Byte>)
    requires Ready(base, c, samples)
    ensures Accepts(c, samples) && State(base, c, samples, [], base)
  {
    assert Datagrams(c, samples)[0] in Datagrams(c, samples) && !Seen([], Datagrams(c, samples)[0]);
    hide Accepts, Datagrams, ProfileOk, ContinuityOk;
  }

  /** From between shots, the datagrams of one shot in any order and multiplicity publish that shot. */
  lemma ShotDelivered(base: Run, c: Config, samples: seq<Byte>, arrivals: seq<Arrival>)
    requires Ready(base, c, samples)
    requires forall i | 0 <= i < |arrivals| :: Carried(base.selected.value, c, samples, arrivals[i])
    requires AllSeen(c, samples, arrivals)
    ensures AcceptAll(base, arrivals).ok && Recorded(base, c, samples, arrivals, AcceptAll(base, arrivals).run)
  {
    Fresh(base, c, samples);
    DeliverAll(base, c, samples, [], base, arrivals);
    assert [] + arrivals == arrivals;
  }

  // ----- the round trip -----

  lemma {:induction false} HeldBack(maxShotBytes: nat, arrivals: seq<Arrival>)
    requires |arrivals| <= MAX_PENDING
    requires forall i | 0 <= i < |arrivals| ::
      arrivals[i].Arrival? && arrivals[i].d.Length() <= MAX_DATAGRAM && arrivals[i].d.Type() != StreamInfoPacket
    ensures IngestAll(NewRun(maxShotBytes), arrivals) == Outcome(NewRun(maxShotBytes).(pending := arrivals), true)
  {
    hide Accept, AcceptAll;
    if arrivals != [] {
      var init, a := arrivals[..|arrivals| - 1], arrivals[|arrivals| - 1];
      HeldBack(maxShotBytes, init);
      assert arrivals == init + [a];
      assert Ingest(NewRun(maxShotBytes).(pending := init), a).run == NewRun(maxShotBytes).(pending := init + [a]);
    }
  }

  ghost predicate DeliversAll(source: Source, c: Config, samples: seq<Byte>, arrivals: seq<Arrival>)
    requires Accepts(c, samples)
  {
    && (forall i | 0 <= i < |arrivals| :: Carried(Selection(source, c.runId, c.streamId), c, samples, arrivals[i]))
    && AllSeen(c, samples, arrivals)
  }

  /** The fresh run once its stream is known. */
  function Begun(maxShotBytes: nat, source: Source, c: Config): Run {
    NewRun(maxShotBytes).(selected := Some(Selection(source, c.runId, c.streamId)))
  }

  lemma BegunReady(maxShotBytes: nat, source: Source, c: Config, samples: seq<Byte>)
    requires Accepts(c, samples) && c.firstSampleTimestampValid && c.firstSampleTimestamp > 0
    requires |samples| <= maxShotBytes
    ensures Ready(Begun(maxShotBytes, source, c), c, samples)
  {
    hide Accepts;
  }

  /** Held-back packets are part of the shot's state once they are replayed. */
  lemma Unpended(base: Run, c: Config, samples: seq<Byte>, arrivals: seq<Arrival>, run: Run, pending: seq<Arrival>)
    requires Accepts(c, samples) && State(base, c, samples, arrivals, run)
    ensures State(base, c, samples, arrivals, run.(pending := pending))
  {
    hide Accepts, AllSeen, ProfileOk, TerminalAfter, Seen, ShotFrom, Ready, Wrote, Until, Tallied;
  }

  /** The first STREAM_INFO selects the run and replays what was held back. */
  lemma FirstInfo(maxShotBytes: nat, source: Source, c: Config, samples: seq<Byte>, held: seq<Arrival>, a: Arrival)
    requires Accepts(c, samples) && c.firstSampleTimestampValid && c.firstSampleTimestamp > 0
    requires |samples| <= maxShotBytes && |held| <= MAX_PENDING
    requires forall i | 0 <= i < |held| ::
      Carried(Selection(source, c.runId, c.streamId), c, samples, held[i]) && held[i].d.Type() != StreamInfoPacket
    requires Carried(Selection(source, c.runId, c.streamId), c, samples, a) && a.d.Type() == StreamInfoPacket
    ensures IngestAll(NewRun(maxShotBytes), held + [a]).ok
    ensures State(Begun(maxShotBytes, source, c), c, samples, held + [a],
                  IngestAll(NewRun(maxShotBytes), held + [a]).run)
    ensures IngestAll(NewRun(maxShotBytes), held + [a]).run.selected.Some?
  {
    hide State, Ready, Accept, Accepts, Datagrams;
    var sel := Selection(source, c.runId, c.streamId);
    var base := Begun(maxShotBytes, source, c);
    BegunReady(maxShotBytes, source, c, samples);
    Fresh(base, c, samples);
    forall i | 0 <= i < |held|
      ensures held[i].Arrival? && held[i].d.Length() <= MAX_DATAGRAM
    {
      SomeOrNone(c, samples, held[i], sel);
    }
    SomeOrNone(c, samples, a, sel);
    SentTimestamp(c, samples, a.d);
    HeldBack(maxShotBytes, held);
    assert (held + [a])[..|held|] == held;
    var q := base.(pending := held);
    Unpended(base, c, samples, [], base, held);
    DeliverAll(base, c, samples, [], q, held);
    assert [] + held == held;
    var p := AcceptAll(q, held).run;
    Unpended(base, c, samples, held, p, []);
    DeliverNext(base, c, samples, held, p.(pending := []), a);
    AcceptKeeps(p.(pending := []), a);
  }

  lemma {:induction false} AfterInfo(maxShotBytes: nat, source: Source, c: Config, samples: seq<Byte>,
                                     arrivals: seq<Arrival>, j: nat)
    requires Accepts(c, samples) && c.firstSampleTimestampValid && c.firstSampleTimestamp > 0
    requires |samples| <= maxShotBytes && j <= MAX_PENDING && j < |arrivals|
    requires forall i | 0 <= i < |arrivals| :: Carried(Selection(source, c.runId, c.streamId), c, samples, arrivals[i])
    requires forall i | 0 <= i < j :: arrivals[i].Arrival? && arrivals[i].d.Type() != StreamInfoPacket
    requires arrivals[j].Arrival? && arrivals[j].d.Type() == StreamInfoPacket
    ensures IngestAll(NewRun(maxShotBytes), arrivals).ok
    ensures IngestAll(NewRun(maxShotBytes), arrivals).run.selected.Some?
    ensures State(Begun(maxShotBytes, source, c), c, samples, arrivals, IngestAll(NewRun(maxShotBytes), arrivals).run)
  {
    hide State, Accept, Accepts, Datagrams, Carried, AcceptAll;
    var init, a := arrivals[..|arrivals| - 1], arrivals[|arrivals| - 1];
    assert arrivals == init + [a];
    if j == |init| {
      CarriedArrive(source, c, samples, init);
      FirstInfo(maxShotBytes, source, c, samples, init, a);
    } else {
      AfterInfo(maxShotBytes, source, c, samples, init, j);
      DeliverNext(Begun(maxShotBytes, source, c), c, samples, init, IngestAll(NewRun(maxShotBytes), init).run, a);
      AcceptKeeps(IngestAll(NewRun(maxShotBytes), init).run, a);
    }
  }

  lemma CarriedArrive(source: Source, c: Config, samples: seq<Byte>, arrivals: seq<Arrival>)
    requires Accepts(c, samples)
    requires forall i | 0 <= i < |arrivals| :: Carried(Selection(source, c.runId, c.streamId), c, samples, arrivals[i])
    ensures forall i | 0 <= i < |arrivals| :: arrivals[i].Arrival?
  {
  }

  /** Some STREAM_INFO is among them, and there is a first one. */
  lemma FirstInfoIndex(source: Source, c: Config, samples: seq<Byte>, arrivals: seq<Arrival>) returns (j: nat)
    requires Accepts(c, samples) && DeliversAll(source, c, samples, arrivals)
    ensures j < |arrivals| && arrivals[j].Arrival? && arrivals[j].d.Type() == StreamInfoPacket
    ensures forall i | 0 <= i < j :: arrivals[i].Arrival? && arrivals[i].d.Type() != StreamInfoPacket
  {
    SentShots.SequenceAt(c, samples, 0);
    assert Seen(arrivals, Datagrams(c, samples)[0]);
    hide Accepts, Datagrams;
    j := 0;
    while arrivals[j].d.Type() != StreamInfoPacket
      invariant j < |arrivals|
      invariant forall i | 0 <= i < j :: arrivals[i].Arrival? && arrivals[i].d.Type() != StreamInfoPacket
      decreases |arrivals| - j
    {
      j := j + 1;
    }
  }

  /** How many arrivals come before the first STREAM_INFO. */
  function BeforeInfo(arrivals: seq<Arrival>): nat {
    if arrivals == [] || (arrivals[0].Arrival? && arrivals[0].d.Type() == StreamInfoPacket) then 0
    else 1 + BeforeInfo(arrivals[1..])
  }

  lemma {:induction false} BeforeInfoIs(arrivals: seq<Arrival>, j: nat)
    requires j < |arrivals| && arrivals[j].Arrival? && arrivals[j].d.Type() == StreamInfoPacket
    requires forall i | 0 <= i < j :: arrivals[i].Arrival? && arrivals[i].d.Type() != StreamInfoPacket
    ensures BeforeInfo(arrivals) == j
  {
    if j > 0 {
      assert arrivals[1..][j - 1] == arrivals[j];
      BeforeInfoIs(arrivals[1..], j - 1);
    }
  }

  /** The round trip. A packetized shot with a valid nonzero first timestamp and no more than
      `maxShotBytes` of samples: its datagrams, handed to a fresh recorder in any order and any number of
      times each, with at most MAX_PENDING before STREAM_INFO, end up as exactly one record, COMPLETE, and
      the sample file is the sender's buffer. Closing the run adds nothing. */
  lemma RoundTrip(maxShotBytes: nat, source: Source, c: Config, samples: seq<Byte>, arrivals: seq<Arrival>)
    requires Accepts(c, samples) && c.firstSampleTimestampValid && c.firstSampleTimestamp > 0
    requires |samples| <= maxShotBytes
    requires DeliversAll(source, c, samples, arrivals) && BeforeInfo(arrivals) <= MAX_PENDING
    ensures var o := IngestAll(NewRun(maxShotBytes), arrivals);
      && o.ok && ReceiveRun(maxShotBytes, arrivals) == o
      && SamplesFile(o.run.log) == samples
      && |Records(o.run.log)| == 1
      && IsRecordOf(Records(o.run.log)[0], c, samples, 0, Until(c, samples, arrivals))
  {
    var j := FirstInfoIndex(source, c, samples, arrivals);
    BeforeInfoIs(arrivals, j);
    AfterInfo(maxShotBytes, source, c, samples, arrivals, j);
    OneRecord(Begun(maxShotBytes, source, c), c, samples, arrivals, IngestAll(NewRun(maxShotBytes), arrivals).run);
    hide IngestAll, Accepts, Datagrams, IsRecordOf;
  }

  lemma OneRecord(base: Run, c: Config, samples: seq<Byte>, arrivals: seq<Arrival>, run: Run)
    requires Accepts(c, samples) && Recorded(base, c, samples, arrivals, run) && base.log == []
    ensures SamplesFile(run.log) == samples && |Records(run.log)| == 1
    ensures IsRecordOf(Records(run.log)[0], c, samples, 0, Until(c, samples, arrivals))
    ensures run.shots == []
  {
    hide Accepts, Ready, ProfileOk, TerminalAfter, IsRecordOf, Until, Overtaken;
    var taken := Until(c, samples, arrivals);
    var r: IndexRecord :| run.log == base.log + [AppendSamples(samples), AppendRecord(r)]
                          && IsRecordOf(r, c, samples, |SamplesFile(base.log)|, taken);
    Publication.LogBoth([], samples, r);
  }

  /** A shot delivered whole to a fresh recorder gets a COMPLETE record exactly when its timestamp is not zero. */
  lemma CompleteIffTimed(maxShotBytes: nat, source: Source, c: Config, samples: seq<Byte>, arrivals: seq<Arrival>)
    requires Accepts(c, samples) && c.firstSampleTimestampValid && |samples| <= maxShotBytes
    requires DeliversAll(source, c, samples, arrivals) && BeforeInfo(arrivals) <= MAX_PENDING
    ensures var rs := Records(ReceiveRun(maxShotBytes, arrivals).run.log);
      (exists r | r in rs :: r.complete) <==> c.firstSampleTimestamp > 0
  {
    hide Accepts, Datagrams, ReceiveRun, IngestAll, BeforeInfo;
    var rs := Records(ReceiveRun(maxShotBytes, arrivals).run.log);
    if c.firstSampleTimestamp > 0 {
      RoundTrip(maxShotBytes, source, c, samples, arrivals);
      assert rs[0] in rs && rs[0].complete;
    } else {
      var sent := [SentShot(c, samples)];
      OneConforms(c, samples);
      forall i | 0 <= i < |arrivals|
        ensures Authentic(sent, source, arrivals[i])
      {
        assert Accepts(sent[0].config, sent[0].samples) && arrivals[i].d in Datagrams(sent[0].config, sent[0].samples);
        assert OfStream(sent, arrivals[i].d);
      }
      Soundness.PublishedAreSent(sent, source, maxShotBytes, arrivals);
      forall r | r in rs
        ensures !r.complete
      {
        assert Soundness.Faithful(sent, SamplesFile(ReceiveRun(maxShotBytes, arrivals).run.log), r);
      }
    }
  }

  lemma OneConforms(c: Config, samples: seq<Byte>)
    requires Accepts(c, samples) && c.firstSampleTimestampValid
    ensures Conforming([SentShot(c, samples)])
  {
    hide Accepts;
  }
}
