/** What becomes of one datagram and of one published shot, in the datagram's own fields. */
module RunLaws {
  import opened Protocol
  import opened ShotModel
  import opened RunModel

  predicate Unreadable(a: Arrival) {
    a.Undecodable? || a.d.Length() > 1400
  }

  /** The heartbeat that ends a stream: no payload, no format, only the end-of-stream flag and zeros. */
  predicate Ending(d: Datagram) {
    var h := d.header;
    var f := h.flags;
    && d.payload.Raw? && d.payload.kind == HeartbeatPacket && d.payload.bytes == []
    && h.payloadFormat == 0 && h.frameId == 0 && h.sampleOffset == 0 && h.sampleCount == 0 && h.sampleBytes == 0
    && h.timestampTicks == 0
    && f.endOfStream && !f.timestampValid && !f.frameStart && !f.frameEnd && !f.discontinuityBefore
    && !f.payloadCrcValid && !f.sourceOverflow && !f.senderDrop && f.others == 0
  }

  /** Before a run is selected: what cannot be read is counted, up to 4096 packets are held back in order, and a
      STREAM_INFO selects its sender, run and stream. */
  lemma Unselected(run: Run, a: Arrival)
    requires run.selected.None? && |run.pending| <= 4096
    ensures var o := Ingest(run, a);
      var n := run.counts;
      if Unreadable(a) then o == Outcome(run.(counts := n.(malformed := n.malformed + 1)), true)
      else if !a.d.payload.InfoObject? && !(a.d.payload.Raw? && a.d.payload.kind == StreamInfoPacket) then
        o.ok && o.run == if |run.pending| < 4096 then run.(pending := run.pending + [a])
                         else run.(counts := n.(pendingOverflow := n.pendingOverflow + 1))
      else
        && o.run.selected.Some? && o.run.pending == []
        && var sel := o.run.selected.value;
          sel.source == a.source && sel.runId == a.d.header.runId && sel.streamId == a.d.header.streamId
  {
    hide Accept, AcceptAll;
    if !Unreadable(a) && a.d.Type() == StreamInfoPacket {
      var q := AcceptAll(run.(selected := Some(SelectedBy(a))), run.pending);
      AcceptKeeps(q.run.(pending := []), a);
    }
  }

  /** Once one is: what cannot be read and what comes from elsewhere is counted and changes nothing; a heartbeat ends
      the stream or is malformed; a packet of a shot not after the last timed one is late; and any other opens a shot
      or finds it open, unless 256 others are. */
  lemma Selected(run: Run, a: Arrival)
    requires run.selected.Some?
    ensures var o := Ingest(run, a);
      var n := run.counts;
      if Unreadable(a) then o == Outcome(run.(counts := n.(malformed := n.malformed + 1)), true)
      else
        var h, sel := a.d.header, run.selected.value;
        if a.source != sel.source || h.runId != sel.runId || h.streamId != sel.streamId then
          o == Outcome(run.(counts := n.(foreign := n.foreign + 1)), true)
        else if a.d.payload.Raw? && a.d.payload.kind == HeartbeatPacket then
          if Ending(a.d) then
            && o.ok && o.run.terminal.Seen? && !o.run.terminal.isShotEnd && o.run.terminal.sequence == h.packetSequence
            && o.run.terminal.shotId == h.shotId && o.run.terminal.receiveNs == a.receiveNs
            && o.run == run.(terminal := o.run.terminal, counts := n.(valid := n.valid + 1))
          else o == Outcome(run.(counts := n.(valid := n.valid + 1, malformed := n.malformed + 1)), true)
        else if run.context.last.Some? && h.shotId <= run.context.last.value.shotId then
          o == Outcome(run.(counts := n.(valid := n.valid + 1, late := n.late + 1)), true)
        else
          (o.ok <==> |run.shots| != 256 || exists s | s in run.shots :: s.shotId == h.shotId)
  {
    hide FinalizeReady, AddTo;
    if a.Arrival? {
      OneSlot(run.shots, a.d.header.shotId);
      assert Ending(a.d) <==> a.d.Type() == HeartbeatPacket && EndsStream(a.d);
    }
  }

  lemma OneSlot(shots: seq<Shot>, shotId: U64)
    ensures IndexOf(shots, shotId) < |shots| <==> exists s | s in shots :: s.shotId == shotId
  {
    if s :| s in shots && s.shotId == shotId {
      var j :| 0 <= j < |shots| && shots[j] == s;
    }
    if IndexOf(shots, shotId) < |shots| {
      assert shots[IndexOf(shots, shotId)] in shots;
    }
  }

  /** Adding a packet: the first STREAM_INFO of all gives the run its profile, and a shot's SHOT_END with the
      end-of-stream flag ends the stream; nothing else changes either. */
  lemma AddedToRun(run: Run, i: nat, ns: nat, d: Datagram)
    requires i < |run.shots|
    ensures var s, q := run.shots[i], AddTo(run, i, ns, d);
      var unheld := !Holds(s.packets, d.Sequence());
      && (if unheld && d.payload.InfoObject? && s.info.NoInfo? && run.context.profile.NoInfo? then
            q.context.profile.Info? && q.context.profile.header == d.header && q.context.profile.info == d.payload.info
          else q.context.profile == run.context.profile)
      && (if unheld && d.payload.EndObject? && s.end.NoEnd? && d.payload.end.endFlags.endOfStream then
            && q.terminal.Seen? && q.terminal.isShotEnd && q.terminal.sequence == d.header.packetSequence
            && q.terminal.shotId == d.header.shotId && q.terminal.receiveNs == ns
          else q.terminal == run.terminal)
  {
    hide AddPacket, NoteObject, Holds;
  }

  /** Publishing a shot expects what follows its SHOT_END, if it has one, and remembers it if it has a time. */
  lemma PublishedContext(run: Run, s: Shot)
    ensures var c, q := run.context, Publish(run, s).context;
      var time := FirstTimestamp(Judge(run.context, s).data);
      && (s.end.NoEnd? ==> q.expected == c.expected)
      && (s.end.End? && s.end.header.packetSequence < U64_MAX ==> q.expected == Some(s.end.header.packetSequence + 1))
      && (s.end.End? && s.end.header.packetSequence == U64_MAX ==> q.expected == None)
      && (time == 0 ==> q.last == c.last)
      && (time > 0 ==> q.last.Some? && q.last.value.shotId == s.shotId && q.last.value.timestamp == time)
      && q.profile == c.profile && q.maxShotBytes == c.maxShotBytes
  {
    hide Judge, RecordOf;
  }
}
