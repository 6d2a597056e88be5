/** The R5's configuration transaction (qcrate_rpmsg_service.c) and the profile check it rests on
    (qcrate_runtime_config.c). */
module ConfigModel {
  import opened Protocol

  const STAGE_WORDS := 11
  const DSP_WORDS := 9
  const STREAM_WORDS := 3

  const ID_LOW := 0
  const ID_HIGH := 1
  const SIGNAL_AMPLITUDE := 4
  const NOISE_AMPLITUDE := 5
  const NOISE_SEED := 6
  const FRAME_LENGTH := 9
  const FRAME_COUNT := 10

  const MAX_FRAME_WORDS := 262144
  const MAX_FRAMES := 255
  const MAX_TOTAL_WORDS := 1000000
  const DSP_MODE: U32 := 1

  datatype Reason =
    NoReason | NotStaged | ZeroId | SignalAmplitude | NoiseAmplitude | AmplitudeSum | ZeroNoiseSeed | FrameLength
    | FrameCount | TotalWords | SequenceState | StreamState | ShadowVerify | PlRejected | ActiveVerify | CommitTimeout

  datatype Status = Ok | BadLength | BadState | BadConfig | ConfigVerify | ConfigRejected | TimedOut

  type Words = w: seq<U32> | |w| == STAGE_WORDS witness seq(STAGE_WORDS, _ => 0)

  /** `qcrate_validate_runtime_config`. */
  function Check(words: Words): Reason {
    if words[ID_LOW] == 0 && words[ID_HIGH] == 0 then ZeroId
    else if words[SIGNAL_AMPLITUDE] > 0x7fff then SignalAmplitude
    else if words[NOISE_AMPLITUDE] > 0x7fff then NoiseAmplitude
    else if words[SIGNAL_AMPLITUDE] + words[NOISE_AMPLITUDE] > 0x8000 then AmplitudeSum
    else if words[NOISE_SEED] > 0xffff || words[NOISE_SEED] == 0 then ZeroNoiseSeed
    else if words[FRAME_LENGTH] == 0 || words[FRAME_LENGTH] > MAX_FRAME_WORDS then FrameLength
    else if words[FRAME_COUNT] == 0 || words[FRAME_COUNT] > MAX_FRAMES then FrameCount
    else if words[FRAME_LENGTH] * words[FRAME_COUNT] > MAX_TOTAL_WORDS then TotalWords
    else NoReason
  }

  /** What is staged, and the registers: the stream's length, count and mode, the DSP's shadow and active words. */
  datatype State = State(
    staged: bool, validated: bool, reason: Reason, words: Words,
    stream: seq<U32>, shadow: seq<U32>, active: seq<U32>)

  predicate Shaped(s: State) {
    |s.stream| == STREAM_WORDS && |s.shadow| == DSP_WORDS && |s.active| == DSP_WORDS
  }

  datatype Wait = Committed | Rejected | Late

  /** What the hardware answers to a commit: the registers as they read after each group of writes. `applied` is
      what the active words read once the wait is over. */
  datatype Report = Report(
    sequenceReady: bool, streamReady: bool, dspBusy: bool, streamStored: seq<U32>, shadowStored: seq<U32>,
    wait: Wait, applied: seq<U32>, statusValid: bool)

  predicate Sized(h: Report) {
    |h.streamStored| == STREAM_WORDS && |h.shadowStored| == DSP_WORDS && |h.applied| == DSP_WORDS
  }

  function Refuse(s: State, status: Status, reason: Reason): (State, Status) {
    (s.(reason := reason), status)
  }

  /** `qcrate_handle_config_stage`. */
  function Stage(s: State, words: Words): State {
    s.(staged := true, validated := false, reason := NoReason, words := words)
  }

  /** `qcrate_handle_config_validate`. */
  function Validate(s: State): (State, Status) {
    if !s.staged then Refuse(s, BadState, NotStaged)
    else
      var reason := Check(s.words);
      (s.(validated := reason == NoReason, reason := reason), if reason == NoReason then Ok else BadConfig)
  }

  function StreamTarget(words: Words): seq<U32> {
    [words[FRAME_LENGTH], words[FRAME_COUNT], DSP_MODE]
  }

  /** `qcrate_handle_config_commit`. */
  function Commit(s: State, h: Report): (State, Status) {
    if !s.staged || !s.validated then Refuse(s, BadState, NotStaged)
    else if Check(s.words) != NoReason then Refuse(s.(validated := false), BadConfig, Check(s.words))
    else
      var c := s.(reason := NoReason);
      if !h.sequenceReady then Refuse(c, BadState, SequenceState)
      else if !h.streamReady then Refuse(c, BadState, StreamState)
      else if h.dspBusy then Refuse(c, BadState, PlRejected)
      else if h.streamStored != StreamTarget(s.words) then Refuse(c, ConfigVerify, ShadowVerify)
      else
        var w := c.(stream := h.streamStored);
        if h.shadowStored != s.words[..DSP_WORDS] then Refuse(c.(shadow := s.active), ConfigVerify, ShadowVerify)
        else
          match h.wait
          case Rejected => Refuse(c.(shadow := s.active), ConfigRejected, PlRejected)
          case Late => Refuse(w.(shadow := h.shadowStored, active := h.applied), TimedOut, CommitTimeout)
          case Committed =>
            var a := w.(shadow := h.shadowStored, active := h.applied);
            if h.applied != s.words[..DSP_WORDS] || !h.statusValid then Refuse(a, ConfigVerify, ActiveVerify)
            else (a, Ok)
  }

  /** `qcrate_handle_config_recover`. */
  function Recover(s: State, dspBusy: bool): (State, Status) {
    if dspBusy then Refuse(s, BadState, CommitTimeout)
    else
      var words := seq(STAGE_WORDS, _ => 0);
      (s.(staged := false, validated := false, reason := NoReason, words := words, shadow := s.active), Ok)
  }

  // ----- what every run keeps -----

  /** A validated profile passes the check. */
  predicate Trusted(s: State) {
    Shaped(s) && (s.validated ==> s.staged && Check(s.words) == NoReason)
  }

  datatype Request =
    | StageRequest(words: Words)
    | ValidateRequest
    | CommitRequest(report: Report)
    | RecoverRequest(dspBusy: bool)

  function Next(s: State, r: Request): (State, Status) {
    match r
    case StageRequest(words) => (Stage(s, words), Ok)
    case ValidateRequest => Validate(s)
    case CommitRequest(report) => Commit(s, report)
    case RecoverRequest(dspBusy) => Recover(s, dspBusy)
  }

  predicate Sensible(r: Request) {
    r.CommitRequest? ==> Sized(r.report)
  }

  lemma NextTrusted(s: State, r: Request)
    requires Trusted(s) && Sensible(r)
    ensures Trusted(Next(s, r).0)
  {
    hide Check;
  }

  function Run(s: State, requests: seq<Request>): State {
    if requests == [] then s else Next(Run(s, requests[..|requests| - 1]), requests[|requests| - 1]).0
  }

  lemma {:induction false} RunTrusted(s: State, requests: seq<Request>)
    requires Trusted(s) && forall i | 0 <= i < |requests| :: Sensible(requests[i])
    ensures Trusted(Run(s, requests))
  {
    hide Trusted, Next;
    if requests != [] {
      var n := |requests| - 1;
      RunTrusted(s, requests[..n]);
      NextTrusted(Run(s, requests[..n]), requests[n]);
    }
  }

  /** What the check lets through, word by word: a profile id, amplitudes that leave the converter's range alone,
      a noise seed of sixteen bits that is not zero, and a readout that fits. */
  ghost predicate Sound(words: Words) {
    && (words[0] != 0 || words[1] != 0)
    && words[4] <= 32767 && words[5] <= 32767 && words[4] + words[5] <= 32768
    && 1 <= words[6] <= 65535 && Readable(words[9], words[10])
  }

  predicate Readable(length: nat, count: nat) {
    1 <= length <= 262144 && 1 <= count <= 255 && length * count <= 1000000
  }

  /** The check passes exactly the sound profiles, and a reason it gives names a rule that is broken. */
  lemma CheckMeansSound(words: Words)
    ensures Check(words) == NoReason <==> Sound(words)
    ensures match Check(words)
      case NoReason => true
      case ZeroId => words[0] == 0 && words[1] == 0
      case SignalAmplitude => words[4] >= 32768
      case NoiseAmplitude => words[5] >= 32768
      case AmplitudeSum => words[4] + words[5] >= 32769
      case ZeroNoiseSeed => words[6] == 0 || words[6] >= 65536
      case FrameLength => words[9] == 0 || words[9] >= 262145
      case FrameCount => words[10] == 0 || words[10] >= 256
      case TotalWords => !Readable(words[9], words[10])
      case _ => false
  {
  }

  /** Request `k` staged what is staged after all of `requests`. */
  ghost predicate InForce(requests: seq<Request>, k: nat) {
    && k < |requests| && requests[k].StageRequest?
    && forall j | k < j < |requests| :: !requests[j].StageRequest? && requests[j] != RecoverRequest(false)
  }

  ghost predicate ValidatedAfter(requests: seq<Request>, k: nat) {
    exists j | k < j < |requests| :: requests[j] == ValidateRequest
  }

  /** What is staged is what the request in force carried, and it is validated exactly when the profile is sound and
      a validation was asked for since. */
  lemma {:induction false} StagedLast(start: State, requests: seq<Request>, k: nat)
    requires InForce(requests, k)
    ensures var s := Run(start, requests);
      && s.staged && s.words == requests[k].words
      && (s.validated <==> Sound(requests[k].words) && ValidatedAfter(requests, k))
  {
    hide Check, Sound;
    var n := |requests| - 1;
    CheckMeansSound(requests[k].words);
    if k < n {
      var before := requests[..n];
      StagedLast(start, before, k);
      StepStaged(Run(start, before), requests[n]);
      assert requests[n] == ValidateRequest ==> ValidatedAfter(requests, k);
      assert forall j | k < j < n :: before[j] == requests[j];
    }
  }

  lemma StepStaged(s: State, r: Request)
    requires s.staged && !r.StageRequest? && r != RecoverRequest(false)
    requires s.validated ==> Check(s.words) == NoReason
    ensures var q := Next(s, r).0;
      && q.staged && q.words == s.words
      && (q.validated <==> s.validated || (r == ValidateRequest && Check(s.words) == NoReason))
  {
    hide Check;
  }

  /** Nothing in force: nothing is staged. */
  lemma {:induction false} NothingStaged(start: State, requests: seq<Request>)
    requires !start.staged && !start.validated && forall k :: !InForce(requests, k)
    ensures var s := Run(start, requests); !s.staged && !s.validated
  {
    hide Check;
    if requests != [] {
      var n := |requests| - 1;
      assert !InForce(requests, n);
      if requests[n] != RecoverRequest(false) {
        forall k ensures !InForce(requests[..n], k) {
          assert !InForce(requests, k);
        }
        NothingStaged(start, requests[..n]);
      }
    }
  }

  ghost predicate Ready(h: Report) {
    h.sequenceReady && h.streamReady && !h.dspBusy
  }

  /** The registers written first read as a profile's words: frame length, frame count and mode, and the DSP's nine. */
  ghost predicate Stored(h: Report, words: Words)
    requires Sized(h)
  {
    && StreamShows(h.streamStored, words)
    && forall i | 0 <= i < 9 :: h.shadowStored[i] == words[i]
  }

  ghost predicate StreamShows(stream: seq<U32>, words: Words)
    requires |stream| == 3
  {
    stream[0] == words[9] && stream[1] == words[10] && stream[2] == 1
  }

  /** What a commit of a validated profile answers and leaves in each register, by what the hardware showed. */
  ghost predicate CommitEnds(s: State, h: Report, q: State, status: Status)
    requires Shaped(s) && Shaped(q) && Sized(h)
  {
    && status != BadConfig
    && (status == BadState <==> !s.validated || !Ready(h))
    && (status == ConfigRejected <==> s.validated && Ready(h) && Stored(h, s.words) && h.wait == Rejected)
    && (status == TimedOut <==> s.validated && Ready(h) && Stored(h, s.words) && h.wait == Late)
    && (status == Ok <==>
          && s.validated && Ready(h) && Stored(h, s.words) && h.wait == Committed && h.statusValid
          && forall i | 0 <= i < 9 :: h.applied[i] == s.words[i])
    && (s.validated && Ready(h) && Stored(h, s.words) && h.wait != Rejected ==>
          && StreamShows(q.stream, s.words)
          && forall i | 0 <= i < 9 :: q.shadow[i] == s.words[i] && q.active[i] == h.applied[i])
    && (!(s.validated && Ready(h) && Stored(h, s.words) && h.wait != Rejected) ==>
          && q.stream == s.stream && q.active == s.active
          && q.shadow == if s.validated && Ready(h) && StreamShows(h.streamStored, s.words) then s.active else s.shadow)
    && q.words == s.words && q.staged == s.staged && q.validated == s.validated
  }

  /** After any requests, a commit never fails its own re-check; it either brings the staged profile into both
      register groups, or leaves both as they were - unless the hardware answered too late or wrong. */
  lemma CommitAllOrNothing(start: State, requests: seq<Request>, h: Report)
    requires Trusted(start) && Sized(h) && forall i | 0 <= i < |requests| :: Sensible(requests[i])
    ensures var s := Run(start, requests);
      var (q, status) := Commit(s, h);
      Shaped(s) && Shaped(q) && CommitEnds(s, h, q, status)
  {
    hide Check, Run;
    RunTrusted(start, requests);
    CommitEach(Run(start, requests), h);
  }

  lemma CommitEach(s: State, h: Report)
    requires Trusted(s) && Sized(h)
    ensures var (q, status) := Commit(s, h); Shaped(q) && CommitEnds(s, h, q, status)
  {
    hide Check;
  }

  /** The reason given names what stood in the way. */
  lemma CommitReasons(s: State, h: Report)
    requires Trusted(s) && Sized(h)
    ensures var (q, status) := Commit(s, h);
      match q.reason
      case NoReason => status == Ok
      case NotStaged => status == BadState && !s.validated
      case SequenceState => status == BadState && !h.sequenceReady
      case StreamState => status == BadState && !h.streamReady
      case PlRejected => (status == BadState && h.dspBusy) || (status == ConfigRejected && h.wait == Rejected)
      case ShadowVerify => status == ConfigVerify && !Stored(h, s.words)
      case CommitTimeout => status == TimedOut && h.wait == Late
      case ActiveVerify =>
        status == ConfigVerify && (!h.statusValid || exists i | 0 <= i < 9 :: h.applied[i] != s.words[i])
      case _ => false
  {
    hide Check;
  }

  lemma CommitHolds(s: State, h: Report)
    requires Trusted(s) && Sized(h) && Commit(s, h).1 == Ok
    ensures var q := Commit(s, h).0;
      && Shaped(q) && q.words == s.words
      && q.stream[0] == s.words[9] && q.stream[1] == s.words[10] && q.stream[2] == 1
      && forall i | 0 <= i < 9 :: q.active[i] == s.words[i]
  {
    hide Check, Commit;
    CommitEach(s, h);
  }

  /** With STAGE request `k` in force, a commit is answered OK exactly when that request's profile is sound and was
      validated since, and the hardware stood ready, committed, and showed the request's words in every register; then
      the registers hold the request's words. */
  lemma CommitsLastStaged(start: State, requests: seq<Request>, k: nat, h: Report)
    requires Trusted(start) && Sized(h) && InForce(requests, k)
    requires forall i | 0 <= i < |requests| :: Sensible(requests[i])
    ensures var words := requests[k].words;
      var (q, status) := Commit(Run(start, requests), h);
      && Shaped(q)
      && (status == Ok <==>
            && Sound(words) && ValidatedAfter(requests, k) && Ready(h) && Stored(h, words)
            && h.wait == Committed && h.statusValid && forall i | 0 <= i < 9 :: h.applied[i] == words[i])
      && (status == Ok ==>
            && q.stream[0] == words[9] && q.stream[1] == words[10] && q.stream[2] == 1
            && forall i | 0 <= i < 9 :: q.active[i] == words[i])
  {
    hide Check, Run, Commit, Sound, ValidatedAfter;
    CommitAllOrNothing(start, requests, h);
    StagedLast(start, requests, k);
  }

  /** With none in force, it is refused and changes no register. */
  lemma CommitUnstaged(start: State, requests: seq<Request>, h: Report)
    requires !start.staged && !start.validated && forall k: nat :: !InForce(requests, k)
    ensures var s := Run(start, requests);
      var (q, status) := Commit(s, h);
      status == BadState && q == s.(reason := NotStaged)
  {
    NothingStaged(start, requests);
  }

  /** What an accepted profile guarantees of the signal path. */
  lemma AcceptedProfile(words: Words)
    requires Check(words) == NoReason
    ensures words[SIGNAL_AMPLITUDE] + words[NOISE_AMPLITUDE] <= 0x8000
    ensures 0 < words[NOISE_SEED] <= 0xffff
    ensures 0 < words[FRAME_LENGTH] * words[FRAME_COUNT] <= MAX_TOTAL_WORDS
  {
    Positive(words[FRAME_LENGTH], words[FRAME_COUNT]);
  }

  lemma Positive(a: nat, b: nat)
    requires a > 0 && b > 0
    ensures a * b > 0
  {
  }
}
