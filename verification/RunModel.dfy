/** The recorder's run state and its steps, as values. */
module RunModel {
  import opened Crc32
  import opened Protocol
  import opened Ordering
  import opened RunFormat
  import opened ShotModel

  const MAX_ACTIVE_SHOTS := 256
  const MAX_PENDING := 4096

  datatype Source = Source(family: int, address: seq<Byte>, port: U16)

  /** A datagram as the socket delivers it. */
  datatype Arrival = Undecodable | Arrival(source: Source, receiveNs: nat, d: Datagram)

  datatype Selection = Selection(source: Source, runId: U64, streamId: U32)

  datatype Terminal = NotSeen | Seen(isShotEnd: bool, sequence: U64, shotId: U64, receiveNs: nat)

  datatype Counts = Counts(valid: nat, malformed: nat, foreign: nat, late: nat, complete: nat, incomplete: nat,
                           duplicate: nat, reordered: nat, conflicting: nat, pendingOverflow: nat)

  datatype Run = Run(
    context: Context, selected: Option<Selection>, shots: seq<Shot>, pending: seq<Arrival>,
    terminal: Terminal, log: seq<Write>, counts: Counts)

  const NO_COUNTS := Counts(0, 0, 0, 0, 0, 0, 0, 0, 0, 0)

  function NewRun(maxShotBytes: nat): Run {
    Run(Context(maxShotBytes, NoInfo, None, None), None, [], [], NotSeen, [], NO_COUNTS)
  }

  // ----- finalizing -----

  /** What finalizing changes in the context: the next expected sequence and the last timed shot. */
  function NextContext(c: Context, s: Shot, v: Verdict): Context {
    var expected :=
      if s.end.NoEnd? then c.expected
      else if s.end.header.packetSequence == U64_MAX then None
      else Some(s.end.header.packetSequence + 1);
    var last := if FirstTimestamp(v.data) == 0 then c.last else Some(LastShot(s.shotId, FirstTimestamp(v.data)));
    c.(expected := expected, last := last)
  }

  /** `finalize_shot`, unless it asks for a retry. */
  function Publish(run: Run, s: Shot): Run {
    var v := Judge(run.context, s);
    var record := RecordOf(s, v, |SamplesFile(run.log)|);
    var writes := if v.issues.Any() then [AppendRecord(record)]
                  else [AppendSamples(Payloads(v.placed)), AppendRecord(record)];
    var n := run.counts;
    run.(context := NextContext(run.context, s, v),
         log := run.log + writes,
         counts := n.(complete := n.complete + if v.issues.Any() then 0 else 1,
                      incomplete := n.incomplete + if v.issues.Any() then 1 else 0,
                      duplicate := n.duplicate + s.duplicatePackets,
                      reordered := n.reordered + s.reorderedPackets,
                      conflicting := n.conflicting + s.conflictingPackets))
  }

  function Remove(shots: seq<Shot>, i: nat): seq<Shot>
    requires i < |shots|
  {
    shots[..i] + shots[i + 1..]
  }

  /** The sequence a shot is ordered by: its STREAM_INFO's, or the largest when that is missing. */
  function OrderKey(s: Shot): U64 {
    if s.info.Info? then s.info.header.packetSequence else U64_MAX
  }

  /** `lowest_sequence_shot`: the first shot with the least key below the largest, else shot 0. */
  predicate IsLowest(shots: seq<Shot>, i: nat) {
    && i < |shots|
    && (forall j | 0 <= j < |shots| :: OrderKey(shots[i]) <= OrderKey(shots[j]))
    && (forall j | 0 <= j < i :: OrderKey(shots[i]) < OrderKey(shots[j]))
  }

  function Lowest(shots: seq<Shot>): (i: nat)
    requires shots != []
    ensures IsLowest(shots, i)
  {
    if |shots| == 1 then 0
    else
      var n := |shots| - 1;
      var i := Lowest(shots[..n]);
      if OrderKey(shots[n]) < OrderKey(shots[i]) then n else i
  }

  function SortPackets(s: Shot): Shot {
    s.(packets := Sort(BySequence, s.packets))
  }

  function RemovePublished(run: Run, i: nat): Run
    requires i < |run.shots|
  {
    Publish(run, run.shots[i]).(shots := Remove(run.shots, i))
  }

  /** `finalize_ready`: publish the shot of lowest sequence while it is complete. */
  function FinalizeReady(run: Run): Run
    decreases |run.shots|
  {
    if run.shots == [] then run
    else
      var i := Lowest(run.shots);
      if SequenceIsComplete(run.shots[i]) then FinalizeReady(RemovePublished(run, i))
      else run.(shots := run.shots[i := SortPackets(run.shots[i])])
  }

  /** `finalize_remaining`: publish or quarantine every shot, lowest sequence first. */
  function FinalizeRemaining(run: Run): Run
    decreases |run.shots|
  {
    if run.shots == [] then run else FinalizeRemaining(RemovePublished(run, Lowest(run.shots)))
  }

  // ----- ingesting -----

  predicate EndsStream(d: Datagram) {
    d == Datagram(d.header.(payloadFormat := FORMAT_NONE, flags := END_OF_STREAM, frameId := 0, sampleOffset := 0,
                            sampleCount := 0, sampleBytes := 0, timestampTicks := 0), Raw(HeartbeatPacket, []))
  }

  function IndexOf(shots: seq<Shot>, shotId: U64): (i: nat)
    ensures i <= |shots|
    ensures i < |shots| ==> shots[i].shotId == shotId
    ensures forall j | 0 <= j < i :: shots[j].shotId != shotId
  {
    if shots == [] || shots[0].shotId == shotId then 0 else 1 + IndexOf(shots[1..], shotId)
  }

  predicate Foreign(sel: Selection, a: Arrival)
    requires a.Arrival?
  {
    a.source != sel.source || a.d.header.runId != sel.runId || a.d.header.streamId != sel.streamId
  }

  /** The packet's shot, found or created; nothing when all shot slots are taken. */
  function WithShot(run: Run, shotId: U64): (r: Option<Run>)
    ensures r.Some? ==> IndexOf(r.value.shots, shotId) < |r.value.shots|
  {
    if IndexOf(run.shots, shotId) < |run.shots| then Some(run)
    else if |run.shots| == MAX_ACTIVE_SHOTS then None
    else
      var shots := run.shots + [NewShot(shotId)];
      assert shots[|run.shots|].shotId == shotId;
      Some(run.(shots := shots))
  }

  /** A packet added to shot `i`, and what its object tells the run. */
  function AddTo(run: Run, i: nat, ns: nat, d: Datagram): Run
    requires i < |run.shots|
  {
    var s := run.shots[i];
    var t := AddPacket(s, ns, d);
    if Holds(s.packets, d.Sequence()) then run.(shots := run.shots[i := t])
    else
      var firstInfo := d.payload.InfoObject? && s.info.NoInfo?;
      var firstEnd := d.payload.EndObject? && s.end.NoEnd?;
      run.(shots := run.shots[i := NoteObject(t, d)],
           context := if firstInfo && run.context.profile.NoInfo?
                      then run.context.(profile := Info(d.header, d.payload.info)) else run.context,
           terminal := if firstEnd && d.payload.end.endFlags.endOfStream
                       then Seen(true, d.Sequence(), d.header.shotId, ns) else run.terminal)
  }

  /** The run after a step, and whether the recorder goes on; it gives up when it needs a shot slot and all are
      taken. What it has written stays on disk either way. */
  datatype Outcome = Outcome(run: Run, ok: bool)

  /** A packet of the selected run. */
  function AcceptOwn(r: Run, ns: nat, d: Datagram): Outcome {
    if d.Type() == HeartbeatPacket then
      if EndsStream(d) then Outcome(r.(terminal := Seen(false, d.Sequence(), d.header.shotId, ns)), true)
      else Outcome(r.(counts := r.counts.(malformed := r.counts.malformed + 1)), true)
    else if r.context.last.Some? && d.header.shotId <= r.context.last.value.shotId then
      Outcome(r.(counts := r.counts.(late := r.counts.late + 1)), true)
    else
      match WithShot(r, d.header.shotId)
      case None => Outcome(r, false)
      case Some(q) => Outcome(FinalizeReady(AddTo(q, IndexOf(q.shots, d.header.shotId), ns, d)), true)
  }

  /** `validate_and_ingest` once a run is selected. */
  function Accept(run: Run, a: Arrival): Outcome
    requires run.selected.Some?
  {
    if a.Undecodable? || a.d.Length() > MAX_DATAGRAM then
      Outcome(run.(counts := run.counts.(malformed := run.counts.malformed + 1)), true)
    else if Foreign(run.selected.value, a) then
      Outcome(run.(counts := run.counts.(foreign := run.counts.foreign + 1)), true)
    else AcceptOwn(run.(counts := run.counts.(valid := run.counts.valid + 1)), a.receiveNs, a.d)
  }

  /** `replay_pending`: the packets held back before the run was known, up to a failure. */
  function AcceptAll(run: Run, pending: seq<Arrival>): (r: Outcome)
    requires run.selected.Some?
    ensures r.run.selected == run.selected && r.run.counts.pendingOverflow == run.counts.pendingOverflow
  {
    if pending == [] then Outcome(run, true)
    else
      var q := AcceptAll(run, pending[..|pending| - 1]);
      AcceptKeeps(q.run, pending[|pending| - 1]);
      if q.ok then Accept(q.run, pending[|pending| - 1]) else q
  }

  /** `validate_and_ingest`. */
  function Ingest(run: Run, a: Arrival): Outcome {
    if run.selected.Some? then Accept(run, a)
    else if a.Undecodable? || a.d.Length() > MAX_DATAGRAM then
      Outcome(run.(counts := run.counts.(malformed := run.counts.malformed + 1)), true)
    else if a.d.Type() != StreamInfoPacket then
      if |run.pending| == MAX_PENDING then
        Outcome(run.(counts := run.counts.(pendingOverflow := run.counts.pendingOverflow + 1)), true)
      else Outcome(run.(pending := run.pending + [a]), true)
    else
      var q := AcceptAll(run.(selected := Some(SelectedBy(a))), run.pending);
      var p := q.run.(pending := []);
      if q.ok then Accept(p, a) else Outcome(p, false)
  }

  /** `select_run`. */
  function SelectedBy(a: Arrival): Selection
    requires a.Arrival?
  {
    Selection(a.source, a.d.header.runId, a.d.header.streamId)
  }

  lemma {:induction false} FinalizeReadyKeeps(run: Run)
    ensures FinalizeReady(run).selected == run.selected
    ensures FinalizeReady(run).pending == run.pending
    ensures FinalizeReady(run).terminal == run.terminal
    ensures FinalizeReady(run).context.maxShotBytes == run.context.maxShotBytes
    ensures FinalizeReady(run).context.profile == run.context.profile
    ensures FinalizeReady(run).counts.pendingOverflow == run.counts.pendingOverflow
    decreases |run.shots|
  {
    hide Judge, RecordOf;
    if run.shots != [] {
      var i := Lowest(run.shots);
      if SequenceIsComplete(run.shots[i]) {
        FinalizeReadyKeeps(RemovePublished(run, i));
      }
    }
  }

  lemma AddToKeeps(run: Run, i: nat, ns: nat, d: Datagram)
    requires i < |run.shots|
    ensures var r := AddTo(run, i, ns, d);
            && r.selected == run.selected && r.pending == run.pending && r.log == run.log && r.counts == run.counts
            && r.context == run.context.(profile := r.context.profile) && |r.shots| == |run.shots|
  {
    hide AddPacket, NoteObject;
  }

  lemma AcceptKeeps(run: Run, a: Arrival)
    requires run.selected.Some?
    ensures Accept(run, a).run.selected == run.selected && Accept(run, a).run.pending == run.pending
    ensures Accept(run, a).run.counts.pendingOverflow == run.counts.pendingOverflow
  {
    hide FinalizeReady, AddTo, EndsStream;
    if a.Arrival? && !Foreign(run.selected.value, a) {
      var q := WithShot(run.(counts := run.counts.(valid := run.counts.valid + 1)), a.d.header.shotId);
      if q.Some? {
        var i := IndexOf(q.value.shots, a.d.header.shotId);
        AddToKeeps(q.value, i, a.receiveNs, a.d);
        FinalizeReadyKeeps(AddTo(q.value, i, a.receiveNs, a.d));
      }
    }
  }

  /** Every arrival, up to a failure. */
  function IngestAll(run: Run, arrivals: seq<Arrival>): Outcome {
    if arrivals == [] then Outcome(run, true)
    else
      var q := IngestAll(run, arrivals[..|arrivals| - 1]);
      if q.ok then Ingest(q.run, arrivals[|arrivals| - 1]) else q
  }

  /** `receive_run`: every arrival, and then what is left over, unless the recorder gave up. */
  function ReceiveRun(maxShotBytes: nat, arrivals: seq<Arrival>): Outcome {
    var q := IngestAll(NewRun(maxShotBytes), arrivals);
    if q.ok then Outcome(FinalizeRemaining(q.run), true) else q
  }
}
