/** qcrate_rpmsg_service.c: the configuration handlers on their static state and the device's registers, proved
    to take the steps of ConfigModel. A register keeps what a report says it reads after a write; writing back a
    value that was read restores it. */
module ConfigService {
  import opened Protocol
  import opened ConfigModel

  class Service {
    var staged: bool
    var validated: bool
    var reason: Reason
    var words: Words
    const stream: array<U32>
    const shadow: array<U32>
    const active: array<U32>

    function Value(): State
      reads this, stream, shadow, active
    {
      State(staged, validated, reason, words, stream[..], shadow[..], active[..])
    }

    ghost predicate Valid()
      reads this, stream, shadow, active
    {
      && stream != shadow && stream != active && shadow != active
      && Trusted(Value())
    }

    constructor ()
      ensures Valid() && fresh(stream) && fresh(shadow) && fresh(active)
    {
      staged, validated, reason, words := false, false, NoReason, seq(STAGE_WORDS, _ => 0);
      stream := new U32[STREAM_WORDS](_ => 0);
      shadow := new U32[DSP_WORDS](_ => 0);
      active := new U32[DSP_WORDS](_ => 0);
    }

    method Stage(w: Words)
      requires Valid()
      modifies this
      ensures Valid() && Value() == ConfigModel.Stage(old(Value()), w)
    {
      words := w;
      staged, validated, reason := true, false, NoReason;
    }

    method Validate() returns (status: Status)
      requires Valid()
      modifies this
      ensures Valid() && (Value(), status) == ConfigModel.Validate(old(Value()))
      ensures words == old(words) && staged == old(staged)
      ensures status == Ok <==> staged && Sound(words)
      ensures status == Ok ==> validated
    {
      hide Check, Sound;
      CheckMeansSound(words);
      if !staged {
        reason := NotStaged;
        return BadState;
      }
      reason := Check(words);
      validated := reason == NoReason;
      return if validated then Ok else BadConfig;
    }

    /** A group of register writes: afterwards the group reads `stored`. */
    method Write(group: array<U32>, stored: seq<U32>)
      requires group.Length == |stored|
      modifies group
      ensures group[..] == stored
    {
      for i := 0 to |stored|
        invariant group[..i] == stored[..i]
      {
        group[i] := stored[i];
      }
    }

    /** The comparison of a group with what was meant. */
    method Verify(group: array<U32>, meant: seq<U32>) returns (same: bool)
      requires group.Length == |meant|
      ensures same == (group[..] == meant)
    {
      for i := 0 to |meant|
        invariant group[..i] == meant[..i]
      {
        if group[i] != meant[i] {
          return false;
        }
      }
      same := true;
    }

    method Commit(h: Report) returns (status: Status)
      requires Valid() && Sized(h)
      modifies this, stream, shadow, active
      ensures Valid() && (Value(), status) == ConfigModel.Commit(old(Value()), h)
      ensures CommitEnds(old(Value()), h, Value(), status)
      ensures status == Ok ==>
        && stream[0] == words[9] && stream[1] == words[10] && stream[2] == 1
        && forall i | 0 <= i < 9 :: active[i] == words[i]
    {
      hide Check, CommitEnds;
      NextTrusted(Value(), CommitRequest(h));
      CommitEach(Value(), h);
      status := CommitStaged(h);
      if status == Ok {
        CommitHolds(old(Value()), h);
      }
    }

    method CommitStaged(h: Report) returns (status: Status)
      requires Valid() && Sized(h)
      modifies this, stream, shadow, active
      ensures Valid() && (Value(), status) == ConfigModel.Commit(old(Value()), h)
    {
      hide Check;
      NextTrusted(Value(), CommitRequest(h));
      status := Preflight(h);
      if status != Ok {
        return;
      }
      var previous := stream[..];
      Write(stream, h.streamStored);
      var same := Verify(stream, StreamTarget(words));
      if !same {
        Write(stream, previous);
        reason := ShadowVerify;
        return ConfigVerify;
      }
      status := Apply(h, previous);
    }

    /** The checks before anything is written. */
    method Preflight(h: Report) returns (status: Status)
      modifies this
      ensures status != Ok ==> (Value(), status) == ConfigModel.Commit(old(Value()), h)
      ensures status == Ok ==>
        && Value() == old(Value()).(reason := NoReason)
        && staged && validated && Check(words) == NoReason && h.sequenceReady && h.streamReady && !h.dspBusy
    {
      hide Check;
      if !staged || !validated {
        reason := NotStaged;
        return BadState;
      }
      reason := Check(words);
      if reason != NoReason {
        validated := false;
        return BadConfig;
      }
      if !h.sequenceReady {
        reason := SequenceState;
        return BadState;
      }
      if !h.streamReady {
        reason := StreamState;
        return BadState;
      }
      if h.dspBusy {
        reason := PlRejected;
        return BadState;
      }
      return Ok;
    }

    /** The shadow words, the commit and its verification. */
    method Apply(h: Report, previous: seq<U32>) returns (status: Status)
      requires Shaped(Value()) && Sized(h) && |previous| == STREAM_WORDS
      requires stream != shadow && stream != active && shadow != active
      modifies this`reason, stream, shadow, active
      ensures var s := old(Value());
        if h.shadowStored != s.words[..DSP_WORDS] then
          status == ConfigVerify && Value() == s.(reason := ShadowVerify, stream := previous, shadow := s.active)
        else match h.wait
          case Rejected =>
            status == ConfigRejected && Value() == s.(reason := PlRejected, stream := previous, shadow := s.active)
          case Late =>
            status == TimedOut && Value() == s.(reason := CommitTimeout, shadow := h.shadowStored, active := h.applied)
          case Committed =>
            if h.applied != s.words[..DSP_WORDS] || !h.statusValid then
              && status == ConfigVerify
              && Value() == s.(reason := ActiveVerify, shadow := h.shadowStored, active := h.applied)
            else
              status == Ok && Value() == s.(reason := NoReason, shadow := h.shadowStored, active := h.applied)
    {
      Write(shadow, h.shadowStored);
      var same := Verify(shadow, words[..DSP_WORDS]);
      if !same || h.wait == Rejected {
        Write(shadow, active[..]);
        Write(stream, previous);
        reason := if same then PlRejected else ShadowVerify;
        return if same then ConfigRejected else ConfigVerify;
      }
      Write(active, h.applied);
      if h.wait == Late {
        reason := CommitTimeout;
        return TimedOut;
      }
      same := Verify(active, words[..DSP_WORDS]);
      if !same || !h.statusValid {
        reason := ActiveVerify;
        return ConfigVerify;
      }
      reason := NoReason;
      return Ok;
    }

    method Recover(dspBusy: bool) returns (status: Status)
      requires Valid()
      modifies this, shadow
      ensures Valid() && (Value(), status) == ConfigModel.Recover(old(Value()), dspBusy)
      ensures status == Ok <==> !dspBusy
      ensures status == Ok ==>
        !staged && !validated && shadow[..] == active[..] && forall i | 0 <= i < 11 :: words[i] == 0
      ensures stream[..] == old(stream[..]) && active[..] == old(active[..])
    {
      if dspBusy {
        reason := CommitTimeout;
        return BadState;
      }
      Write(shadow, active[..]);
      staged, validated, reason, words := false, false, NoReason, seq(STAGE_WORDS, _ => 0);
      return Ok;
    }
  }
}
