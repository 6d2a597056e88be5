/** The R5's sequence commands (qcrate_rpmsg_service.c): the incremental load, its commit, and arming. What the
    hardware answers - the sequencer's state, what a register holds after a write - is part of each command. */
module SequenceLoader {
  import opened Crc32
  import opened Protocol
  import opened Waveform
  import opened SequenceImage

  type Word = w: seq<Byte> | |w| == 4 witness [0, 0, 0, 0]

  const EVENT_WORDS := 4
  const RAM_WORDS := EVENT_WORDS * MAX_EVENTS

  /** The load state, the sequencer's event memory and count register, and whether the sequencer is idle. */
  datatype Loader = Loader(
    active: bool, committed: bool, expected: nat, next: nat, expectedCrc: bv32, crc: bv32,
    previousTimestamp: nat, previousState: nat, ram: seq<Word>, count: nat, idle: bool)

  datatype Status =
    Ok | BadLength | BadSequence | BadState | BadIndex | VerifyFailed | CrcFailed | TimedOut | HardwareFault

  datatype Fault = NoFault | ReservedState | ReservedFlags | NoStateChange | TimeOrder | UnsafeFinal

  // ----- loading -----

  /** `qcrate_sequence_load_error`. */
  function Abandon(d: Loader): Loader {
    d.(active := false, committed := false)
  }

  /** `qcrate_handle_seq_load_begin`; `ready` is whether the sequencer reports itself idle and unlocked. */
  function Begin(d: Loader, lengthOk: bool, count: U32, crc: bv32, ready: bool): (Loader, Status) {
    if !lengthOk then (d, BadLength)
    else if count < MIN_EVENTS || count > MAX_EVENTS then (Abandon(d), BadSequence)
    else if !(ready && d.idle) then (d, BadState)
    else (d.(active := true, committed := false, expected := count, next := 0, expectedCrc := crc, crc := INITIAL,
             previousTimestamp := 0, previousState := 0), Ok)
  }

  /** `qcrate_sequence_validate_event`. */
  function ValidateEvent(d: Loader, index: nat, e: Event): Fault {
    if e.state > OUTPUT_MASK then ReservedState
    else if e.flags != 0 then ReservedFlags
    else if e.state == d.previousState then NoStateChange
    else if index != 0 && e.timestamp <= d.previousTimestamp then TimeOrder
    else if index + 1 == d.expected && e.state != 0 then UnsafeFinal
    else NoFault
  }

  /** The write-and-read-back of word `k` on; `stored` is what the memory holds after each write. */
  function WriteFrom(d: Loader, base: nat, words: seq<Word>, stored: seq<Word>, k: nat): (Loader, Status)
    requires |words| == |stored| == EVENT_WORDS && k <= EVENT_WORDS && base + EVENT_WORDS <= |d.ram|
    decreases EVENT_WORDS - k
  {
    if k == EVENT_WORDS then (d, Ok)
    else
      var e := d.(ram := d.ram[base + k := stored[k]]);
      if stored[k] != words[k] then (Abandon(e), VerifyFailed)
      else WriteFrom(e.(crc := Update(e.crc, words[k])), base, words, stored, k + 1)
  }

  function Cat(a: seq<Byte>, b: seq<Byte>, c: seq<Byte>, e: seq<Byte>): seq<Byte> { a + b + c + e }

  function EventOf(words: seq<Word>): Event
    requires |words| == EVENT_WORDS
  {
    ParseEvent(Cat(words[0], words[1], words[2], words[3]))
  }

  /** `qcrate_handle_seq_load_event`. */
  function LoadEvent(d: Loader, lengthOk: bool, index: U32, words: seq<Word>, stored: seq<Word>): (Loader, Status)
    requires |words| == |stored| == EVENT_WORDS && Shaped(d)
  {
    if !lengthOk then (d, BadLength)
    else if !d.active then (d, BadState)
    else if index != d.next || index >= d.expected then (Abandon(d), BadIndex)
    else
      var e := EventOf(words);
      if ValidateEvent(d, index, e) != NoFault then (Abandon(d), BadSequence)
      else
        var (w, status) := WriteFrom(d, EVENT_WORDS * index, words, stored, 0);
        if status != Ok then (w, status)
        else (w.(previousTimestamp := e.timestamp, previousState := e.state, next := d.next + 1), Ok)
  }

  /** The memory has room for what is being loaded. */
  predicate Shaped(d: Loader) {
    |d.ram| == RAM_WORDS && (d.active ==> d.next <= d.expected <= MAX_EVENTS)
  }

  function Final(crc: bv32): bv32 { crc ^ INITIAL }

  /** `qcrate_handle_seq_load_commit`; `stored` is what the count register holds after the write. */
  function Commit(d: Loader, lengthOk: bool, stored: nat): (Loader, Status) {
    if !lengthOk then (d, BadLength)
    else if !d.active || d.next != d.expected then (Abandon(d), BadState)
    else if Final(d.crc) != d.expectedCrc then (Abandon(d), CrcFailed)
    else if stored != d.expected then (Abandon(d).(count := stored), VerifyFailed)
    else (d.(active := false, committed := true, count := stored), Ok)
  }

  // ----- running -----

  /** `qcrate_handle_seq_arm`: the sequencer leaves idle exactly when the ARM write is made. */
  function Arm(d: Loader, lengthOk: bool, ready: bool, answer: Status): (Loader, Status) {
    if !lengthOk then (d, BadLength)
    else if !d.committed || !(ready && d.idle) then (d, BadState)
    else (d.(idle := false), answer)
  }

  /** `qcrate_handle_seq_start` and `qcrate_handle_seq_abort`: register writes that leave the load alone. */
  function Start(d: Loader, lengthOk: bool, armed: bool, answer: Status): (Loader, Status) {
    if !lengthOk then (d, BadLength)
    else if !d.committed || !(armed && !d.idle) then (d, BadState)
    else (d, answer)
  }

  /** `qcrate_handle_seq_reset`. */
  function Reset(d: Loader, lengthOk: bool, answer: Status): (Loader, Status) {
    if !lengthOk then (d, BadLength) else (d.(active := false), answer)
  }

  // ----- what the event memory holds -----

  function RamBytes(ram: seq<Word>, n: nat): (b: seq<Byte>)
    requires EVENT_WORDS * n <= |ram|
    ensures |b| == EVENT_SIZE * n
  {
    if n == 0 then []
    else
      var base := EVENT_WORDS * (n - 1);
      RamBytes(ram, n - 1) + Cat(ram[base], ram[base + 1], ram[base + 2], ram[base + 3])
  }

  /** The table in the first `n` events of the memory. */
  function Table(ram: seq<Word>, n: nat): (events: seq<Event>)
    requires EVENT_WORDS * n <= |ram|
    ensures |events| == n
  {
    Parse(RamBytes(ram, n), n)
  }

  /** The events loaded so far pass, and the load state remembers the last of them and their CRC. */
  ghost predicate Loading(d: Loader)
    requires Shaped(d)
  {
    d.active ==>
      var events := Table(d.ram, d.next);
      && MIN_EVENTS <= d.expected && AllProper(events)
      && d.previousState == StateBefore(events, d.next)
      && (d.next > 0 ==> d.previousTimestamp == events[d.next - 1].timestamp)
      && (d.next == d.expected ==> d.previousState == 0)
      && d.crc == Update(INITIAL, RamBytes(d.ram, d.next))
  }

  /** The count register and the event memory hold a table `validate_events` accepts. */
  predicate Runnable(d: Loader)
    requires Shaped(d)
  {
    d.count <= MAX_EVENTS && Valid(Table(d.ram, d.count))
  }

  /** Never loading and committed at once; what is committed, and what a sequencer that is not idle runs, is a
      valid table; and nothing is being loaded while the sequencer is not idle. */
  ghost predicate Safe(d: Loader) {
    && Shaped(d) && Loading(d)
    && (d.active ==> !d.committed && d.idle)
    && (d.committed ==> Runnable(d) && Checksum(RamBytes(d.ram, d.count)) == d.expectedCrc)
    && (!d.idle ==> Runnable(d))
  }

  // ----- what each command keeps -----

  lemma BeginSafe(d: Loader, lengthOk: bool, count: U32, crc: bv32, ready: bool)
    requires Safe(d)
    ensures Safe(Begin(d, lengthOk, count, crc, ready).0)
  {
    hide Valid, Checksum;
    assert RamBytes(d.ram, 0) == [];
    assert Table(d.ram, 0) == [];
  }

  lemma {:induction false} SameRam(a: seq<Word>, b: seq<Word>, n: nat)
    requires EVENT_WORDS * n <= |a| && EVENT_WORDS * n <= |b|
    requires forall i | 0 <= i < EVENT_WORDS * n :: a[i] == b[i]
    ensures RamBytes(a, n) == RamBytes(b, n)
  {
    if n > 0 {
      SameRam(a, b, n - 1);
    }
  }

  lemma WriteFromKeeps(d: Loader, base: nat, words: seq<Word>, stored: seq<Word>, k: nat)
    requires |words| == |stored| == EVENT_WORDS && k <= EVENT_WORDS && base + EVENT_WORDS <= |d.ram|
    ensures var (w, status) := WriteFrom(d, base, words, stored, k);
      && |w.ram| == |d.ram| && w.count == d.count && w.idle == d.idle && w.expected == d.expected && w.next == d.next
      && w.expectedCrc == d.expectedCrc
      && (forall i | 0 <= i < |d.ram| && !(base + k <= i < base + EVENT_WORDS) :: w.ram[i] == d.ram[i])
      && if status == Ok then
           && w == d.(ram := w.ram, crc := w.crc)
           && (forall i | k <= i < EVENT_WORDS :: w.ram[base + i] == words[i])
         else !w.active && !w.committed
    decreases EVENT_WORDS - k
  {
    hide Update;
    if k < EVENT_WORDS {
      var e := d.(ram := d.ram[base + k := stored[k]]);
      if stored[k] == words[k] {
        WriteFromKeeps(e.(crc := Update(e.crc, words[k])), base, words, stored, k + 1);
      }
    }
  }

  lemma WriteFromCrc(d: Loader, base: nat, words: seq<Word>, stored: seq<Word>)
    requires |words| == |stored| == EVENT_WORDS && base + EVENT_WORDS <= |d.ram|
    ensures var (w, status) := WriteFrom(d, base, words, stored, 0);
      status == Ok ==> w.crc == Update(d.crc, Cat(words[0], words[1], words[2], words[3]))
    ensures words == stored ==> WriteFrom(d, base, words, stored, 0).1 == Ok
  {
    hide Update;
    CatCrc(d.crc, words[0], words[1], words[2], words[3]);
    FourSteps(d, base, words, stored);
  }

  lemma CatCrc(crc: bv32, a: seq<Byte>, b: seq<Byte>, c: seq<Byte>, e: seq<Byte>)
    ensures Update(crc, Cat(a, b, c, e)) == Update(Update(Update(Update(crc, a), b), c), e)
  {
    hide Update;
    UpdateConcat(crc, a, b);
    UpdateConcat(crc, a + b, c);
    UpdateConcat(crc, a + b + c, e);
  }

  lemma FourSteps(d: Loader, base: nat, words: seq<Word>, stored: seq<Word>)
    requires |words| == |stored| == EVENT_WORDS && base + EVENT_WORDS <= |d.ram|
    ensures var (w, status) := WriteFrom(d, base, words, stored, 0);
      && (status == Ok ==> w.crc == Update(Update(Update(Update(d.crc, words[0]), words[1]), words[2]), words[3]))
      && (status == Ok <==> words == stored)
  {
    hide Update;
    CrcSteps(d, base, words, stored, 0);
  }

  function CrcFrom(crc: bv32, words: seq<Word>, k: nat): bv32
    requires |words| == EVENT_WORDS && k <= EVENT_WORDS
    decreases EVENT_WORDS - k
  {
    if k == EVENT_WORDS then crc else CrcFrom(Update(crc, words[k]), words, k + 1)
  }

  lemma {:induction false} CrcSteps(d: Loader, base: nat, words: seq<Word>, stored: seq<Word>, k: nat)
    requires |words| == |stored| == EVENT_WORDS && k <= EVENT_WORDS && base + EVENT_WORDS <= |d.ram|
    ensures var (w, status) := WriteFrom(d, base, words, stored, k);
      && (status == Ok ==> w.crc == CrcFrom(d.crc, words, k))
      && (status == Ok <==> words[k..] == stored[k..])
    decreases EVENT_WORDS - k
  {
    hide Update;
    if k < EVENT_WORDS {
      var e := d.(ram := d.ram[base + k := stored[k]]);
      assert words[k..] == [words[k]] + words[k + 1..] && stored[k..] == [stored[k]] + stored[k + 1..];
      if stored[k] == words[k] {
        CrcSteps(e.(crc := Update(e.crc, words[k])), base, words, stored, k + 1);
      }
    }
  }

  lemma TableMore(ram: seq<Word>, old_: seq<Word>, n: nat, words: seq<Word>)
    requires EVENT_WORDS * (n + 1) <= |ram| == |old_| && |words| == EVENT_WORDS
    requires forall i | 0 <= i < EVENT_WORDS * n :: ram[i] == old_[i]
    requires forall i | 0 <= i < EVENT_WORDS :: ram[EVENT_WORDS * n + i] == words[i]
    ensures var bytes := Cat(words[0], words[1], words[2], words[3]);
      RamBytes(ram, n + 1) == RamBytes(old_, n) + bytes
    ensures Table(ram, n + 1) == Table(old_, n) + [EventOf(words)]
  {
    hide ParseEvent, Cat;
    SameRam(ram, old_, n);
    var b := RamBytes(ram, n + 1);
    assert ram[EVENT_WORDS * n + 0] == words[0];
    assert b[..EVENT_SIZE * n] == RamBytes(ram, n);
    CatSize(words);
    assert b[EVENT_SIZE * n..] == Cat(words[0], words[1], words[2], words[3]);
  }

  lemma CatSize(words: seq<Word>)
    requires |words| == EVENT_WORDS
    ensures |Cat(words[0], words[1], words[2], words[3])| == EVENT_SIZE
  {
  }

  lemma ProperMore(events: seq<Event>, e: Event)
    requires AllProper(events)
    ensures AllProper(events + [e]) <==> Proper(events + [e], |events|)
  {
    var more := events + [e];
    if Proper(more, |events|) {
      forall i | 0 <= i < |more|
        ensures Proper(more, i)
      {
        if i < |events| {
          assert Proper(events, i);
        }
      }
    }
  }

  /** The R5 checks one event against what it remembers of those before: the same test as the whole table's. */
  lemma ValidateMeansProper(d: Loader, e: Event)
    requires Shaped(d) && Loading(d) && d.active && d.next < d.expected
    ensures ValidateEvent(d, d.next, e) == NoFault <==>
            Proper(Table(d.ram, d.next) + [e], d.next) && (d.next + 1 == d.expected ==> e.state == 0)
  {
    hide Table, RamBytes, Update, AllProper;
    var more := Table(d.ram, d.next) + [e];
    assert more[d.next] == e;
    assert d.next > 0 ==> more[d.next - 1] == Table(d.ram, d.next)[d.next - 1];
  }

  lemma LoadEventSafe(d: Loader, lengthOk: bool, index: U32, words: seq<Word>, stored: seq<Word>)
    requires |words| == |stored| == EVENT_WORDS && Safe(d)
    ensures Safe(LoadEvent(d, lengthOk, index, words, stored).0)
    ensures var (q, status) := LoadEvent(d, lengthOk, index, words, stored);
      lengthOk && d.active ==>
        && (q.active <==> status == Ok)
        && (status == Ok ==> q.next == d.next + 1 && q.expected == d.expected && q.expectedCrc == d.expectedCrc
                             && q.idle == d.idle && Table(q.ram, q.next) == Table(d.ram, d.next) + [EventOf(words)])
        && (status == Ok <==>
              && index == d.next && index < d.expected && words == stored
              && Proper(Table(d.ram, d.next) + [EventOf(words)], d.next)
              && (d.next + 1 == d.expected ==> EventOf(words).state == 0))
  {
    hide Table, RamBytes, Update, AllProper, Valid, Checksum, EventOf, WriteFrom, Cat, Proper;
    if lengthOk && d.active && index == d.next && index < d.expected {
      LoadOne(d, index, words, stored);
    }
  }

  lemma LoadOne(d: Loader, index: U32, words: seq<Word>, stored: seq<Word>)
    requires |words| == |stored| == EVENT_WORDS && Safe(d) && d.active && index == d.next < d.expected
    ensures var (q, status) := LoadEvent(d, true, index, words, stored);
      && Safe(q) && (q.active <==> status == Ok)
      && (status == Ok ==> q.next == d.next + 1 && q.expected == d.expected && q.expectedCrc == d.expectedCrc
                           && q.idle == d.idle && Table(q.ram, q.next) == Table(d.ram, d.next) + [EventOf(words)])
      && (status == Ok <==>
            && words == stored
            && Proper(Table(d.ram, d.next) + [EventOf(words)], d.next)
            && (d.next + 1 == d.expected ==> EventOf(words).state == 0))
  {
    hide Table, RamBytes, Update, AllProper, Valid, Checksum, EventOf, WriteFrom, Cat, Proper;
    var base := EVENT_WORDS * index;
    var e := EventOf(words);
    ValidateMeansProper(d, e);
    if ValidateEvent(d, index, e) == NoFault {
      WriteFromKeeps(d, base, words, stored, 0);
      WriteFromCrc(d, base, words, stored);
      FourSteps(d, base, words, stored);
      var (w, status) := WriteFrom(d, base, words, stored, 0);
      if status == Ok {
        TableMore(w.ram, d.ram, d.next, words);
        ProperMore(Table(d.ram, d.next), e);
        CrcMore(d, words);
        assert (Table(d.ram, d.next) + [e])[d.next] == e;
      }
    }
  }

  lemma CrcMore(d: Loader, words: seq<Word>)
    requires |words| == EVENT_WORDS && Shaped(d) && EVENT_WORDS * d.next <= |d.ram|
    requires d.crc == Update(INITIAL, RamBytes(d.ram, d.next))
    ensures var bytes := Cat(words[0], words[1], words[2], words[3]);
      Update(d.crc, bytes) == Update(INITIAL, RamBytes(d.ram, d.next) + bytes)
  {
    hide Update, RamBytes, Cat;
    UpdateConcat(INITIAL, RamBytes(d.ram, d.next), Cat(words[0], words[1], words[2], words[3]));
  }

  lemma CommitSafe(d: Loader, lengthOk: bool, stored: nat)
    requires Safe(d)
    ensures Safe(Commit(d, lengthOk, stored).0)
  {
    hide Update, RamBytes, Table, AllProper, Final, Checksum;
    ChecksumFinal(RamBytes(d.ram, if EVENT_WORDS * d.next <= |d.ram| then d.next else 0));
  }

  lemma ChecksumFinal(b: seq<Byte>)
    ensures Checksum(b) == Final(Update(INITIAL, b))
  {
    hide Update;
  }

  lemma RunSafe(d: Loader, lengthOk: bool, ready: bool, answer: Status)
    requires Safe(d)
    ensures Safe(Arm(d, lengthOk, ready, answer).0) && Safe(Start(d, lengthOk, ready, answer).0)
    ensures Safe(Reset(d, lengthOk, answer).0) && Safe(d.(idle := true))
  {
    hide Update, RamBytes, Table, AllProper, Valid, Checksum;
  }

  // ----- every run of commands -----

  datatype Command =
    | BeginCommand(lengthOk: bool, count: U32, crc: bv32, ready: bool)
    | EventCommand(lengthOk: bool, index: U32, words: seq<Word>, stored: seq<Word>)
    | CommitCommand(lengthOk: bool, storedCount: nat)
    | ArmCommand(lengthOk: bool, ready: bool, answer: Status)
    | StartCommand(lengthOk: bool, armed: bool, answer: Status)
    | ResetCommand(lengthOk: bool, answer: Status)
    | SequencerIdles

  predicate WellFormed(c: Command) {
    c.EventCommand? ==> |c.words| == |c.stored| == EVENT_WORDS
  }

  function Next(d: Loader, c: Command): Loader
    requires Safe(d) && WellFormed(c)
  {
    match c
    case BeginCommand(lengthOk, count, crc, ready) => Begin(d, lengthOk, count, crc, ready).0
    case EventCommand(lengthOk, index, words, stored) => LoadEvent(d, lengthOk, index, words, stored).0
    case CommitCommand(lengthOk, storedCount) => Commit(d, lengthOk, storedCount).0
    case ArmCommand(lengthOk, ready, answer) => Arm(d, lengthOk, ready, answer).0
    case StartCommand(lengthOk, armed, answer) => Start(d, lengthOk, armed, answer).0
    case ResetCommand(lengthOk, answer) => Reset(d, lengthOk, answer).0
    case SequencerIdles => d.(idle := true)
  }

  lemma NextSafe(d: Loader, c: Command)
    requires Safe(d) && WellFormed(c)
    ensures Safe(Next(d, c))
  {
    hide Safe, Begin, LoadEvent, Commit, Arm, Start, Reset;
    match c
    case BeginCommand(lengthOk, count, crc, ready) => BeginSafe(d, lengthOk, count, crc, ready);
    case EventCommand(lengthOk, index, words, stored) => LoadEventSafe(d, lengthOk, index, words, stored);
    case CommitCommand(lengthOk, storedCount) => CommitSafe(d, lengthOk, storedCount);
    case ArmCommand(lengthOk, ready, answer) => RunSafe(d, lengthOk, ready, answer);
    case StartCommand(lengthOk, armed, answer) => RunSafe(d, lengthOk, armed, answer);
    case ResetCommand(lengthOk, answer) => RunSafe(d, lengthOk, false, answer);
    case SequencerIdles => RunSafe(d, false, false, Ok);
  }

  /** The loader after reset, whatever the memory holds. */
  function NewLoader(ram: seq<Word>, count: nat): Loader {
    Loader(false, false, 0, 0, 0, 0, 0, 0, ram, count, true)
  }

  ghost function Run(d: Loader, commands: seq<Command>): (r: Loader)
    requires Safe(d) && forall i | 0 <= i < |commands| :: WellFormed(commands[i])
    ensures Safe(r)
  {
    if commands == [] then d
    else
      var n := |commands| - 1;
      NextSafe(Run(d, commands[..n]), commands[n]);
      Next(Run(d, commands[..n]), commands[n])
  }

  /** In every state any sequence of commands reaches - right lengths or wrong, faithful memory or not - the
      loader is never loading and committed at once, and ARM is let through only over a valid table. */
  lemma ArmSeesValidTables(ram: seq<Word>, count: nat, commands: seq<Command>, lengthOk: bool, ready: bool,
      answer: Status)
    requires |ram| == RAM_WORDS && forall i | 0 <= i < |commands| :: WellFormed(commands[i])
    ensures Safe(NewLoader(ram, count))
    ensures var d := Run(NewLoader(ram, count), commands);
      && !(d.active && d.committed)
      && Shaped(d)
      && (!d.idle ==> Runnable(d))
      && (Arm(d, lengthOk, ready, answer).0 != d ==>
            Runnable(d) && Checksum(RamBytes(d.ram, d.count)) == d.expectedCrc)
  {
    hide Valid, Checksum, Table, RamBytes, Run, AllProper, Update;
    var d := Run(NewLoader(ram, count), commands);
  }

  /** While the sequencer is not idle no command changes the event memory or the count register. */
  lemma RunningTableFixed(d: Loader, c: Command)
    requires Safe(d) && WellFormed(c) && !d.idle
    ensures Next(d, c).ram == d.ram && Next(d, c).count == d.count
  {
    hide Safe, WriteFrom, EventOf, ValidateEvent, Final;
    NothingLoading(d);
  }

  lemma NothingLoading(d: Loader)
    requires Safe(d) && !d.idle
    ensures !d.active && Shaped(d)
  {
  }

  // ----- a whole load -----

  /** The words of an event, in the order LOAD_EVENT carries them. */
  function WordsOf(e: Event): (w: seq<Word>)
    ensures |w| == EVENT_WORDS
  {
    var b := EventBytes(e);
    [b[..4], b[4..8], b[8..12], b[12..16]]
  }

  lemma WordsRoundTrip(e: Event)
    ensures EventOf(WordsOf(e)) == e
    ensures var w := WordsOf(e); Cat(w[0], w[1], w[2], w[3]) == EventBytes(e)
  {
    var b := EventBytes(e);
    var w := WordsOf(e);
    assert Cat(w[0], w[1], w[2], w[3]) == b;
    EventRoundTrip(e, b);
  }

  /** LOAD_EVENT for each event in turn, over a memory that holds what is written to it. */
  ghost function LoadAll(d: Loader, events: seq<Event>): (r: Loader)
    requires Safe(d) && |events| <= U32_MAX
    ensures Safe(r)
  {
    if events == [] then d
    else
      var n := |events| - 1;
      var before := LoadAll(d, events[..n]);
      LoadEventSafe(before, true, n, WordsOf(events[n]), WordsOf(events[n]));
      LoadEvent(before, true, n, WordsOf(events[n]), WordsOf(events[n])).0
  }

  /** The load is still under way exactly when every event so far passes. */
  lemma {:induction false} LoadedSoFar(d: Loader, events: seq<Event>)
    requires Safe(d) && d.active && d.next == 0 && |events| <= d.expected <= MAX_EVENTS
    ensures var r := LoadAll(d, events);
      && (r.active <==> AllProper(events) && (|events| == d.expected ==> StateBefore(events, |events|) == 0))
      && (r.active ==> r.next == |events| && r.expected == d.expected && r.expectedCrc == d.expectedCrc
                       && r.idle == d.idle && Table(r.ram, r.next) == events)
  {
    hide Safe, LoadEvent, RamBytes, Update, AllProper, Proper, Table;
    SafeParts(d);
    if events == [] {
      NothingProper();
    } else {
      var n := |events| - 1;
      var before := LoadAll(d, events[..n]);
      LoadedSoFar(d, events[..n]);
      SafeParts(before);
      LoadedNext(before, events, d.expected);
    }
  }

  lemma NothingProper()
    ensures AllProper([])
  {
  }

  /** One more event: still under way if the load was, and the event passes. */
  lemma LoadedNext(before: Loader, events: seq<Event>, expected: nat)
    requires Safe(before) && events != [] && |events| <= expected <= MAX_EVENTS && Shaped(before)
    requires var n := |events| - 1;
      && (before.active <==> AllProper(events[..n]))
      && (before.active ==> before.next == n && before.expected == expected && Table(before.ram, n) == events[..n])
    ensures var n := |events| - 1;
      var q := LoadEvent(before, true, n, WordsOf(events[n]), WordsOf(events[n])).0;
      && (q.active <==> AllProper(events) && (|events| == expected ==> events[n].state == 0))
      && (q.active ==> before.active && q.next == |events| && q.expected == before.expected
                       && q.expectedCrc == before.expectedCrc
                       && q.idle == before.idle && Shaped(q) && Table(q.ram, q.next) == events)
  {
    hide Safe, LoadEvent, RamBytes, Update, AllProper, Proper, Table;
    var n := |events| - 1;
    var w := WordsOf(events[n]);
    WordsRoundTrip(events[n]);
    LoadEventSafe(before, true, n, w, w);
    SafeParts(LoadEvent(before, true, n, w, w).0);
    assert events == events[..n] + [events[n]];
    if before.active {
      ProperMore(events[..n], events[n]);
    } else {
      NotLoading(before, n, w);
      if AllProper(events) {
        ProperInit(events);
      }
    }
  }

  lemma SafeParts(d: Loader)
    requires Safe(d)
    ensures Shaped(d) && (d.active ==> MIN_EVENTS <= d.expected) && Table(d.ram, 0) == []
  {
  }

  lemma NotLoading(d: Loader, index: U32, words: seq<Word>)
    requires Safe(d) && !d.active && |words| == EVENT_WORDS
    ensures LoadEvent(d, true, index, words, words) == (d, BadState)
  {
    hide Safe;
  }

  /** On an idle sequencer and a faithful memory, loading a table with a CRC commits exactly when
      `validate_events` accepts the table and the CRC is that of its bytes. */
  lemma LoadCommits(d: Loader, events: seq<Event>, crc: bv32)
    requires Safe(d) && d.idle && |events| <= U32_MAX
    ensures var begun := Begin(d, true, |events|, crc, true).0;
      && Safe(begun)
      && (var done := Commit(LoadAll(begun, events), true, |events|).0;
          && (done.committed <==> Valid(events) && crc == Checksum(SequenceImage.Payload(events)))
          && (done.committed ==> Shaped(done) && done.count == |events| && Table(done.ram, done.count) == events))
  {
    hide Safe, LoadEvent, SequenceImage.Payload, Checksum, AllProper, LoadAll, Table, RamBytes, Commit, Final;
    BeginSafe(d, true, |events|, crc, true);
    var begun := Begin(d, true, |events|, crc, true).0;
    var loaded := LoadAll(begun, events);
    CommitMeans(loaded, |events|);
    if |events| < MIN_EVENTS || |events| > MAX_EVENTS {
      NothingLoads(begun, events);
    } else {
      LoadedSoFar(begun, events);
      if loaded.active {
        SafeParts(loaded);
        LoadedCrc(loaded, events);
      }
    }
  }

  lemma CommitMeans(d: Loader, stored: nat)
    ensures Commit(d, true, stored).0.committed
       <==> d.active && d.next == d.expected == stored && Final(d.crc) == d.expectedCrc
    ensures Commit(d, true, stored).0.ram == d.ram
    ensures var q := Commit(d, true, stored).0; q.committed ==> q.count == stored && !q.active
  {
    hide Final;
  }

  lemma LoadedCrc(d: Loader, events: seq<Event>)
    requires Safe(d) && d.active && d.next == |events| && Shaped(d) && Table(d.ram, d.next) == events
    ensures Final(d.crc) == Checksum(SequenceImage.Payload(events))
  {
    PayloadRoundTrip(events, RamBytes(d.ram, d.next));
    ChecksumFinal(RamBytes(d.ram, d.next));
    hide Final, Checksum, RamBytes, Update, SequenceImage.Payload, Parse, AllProper;
  }

  lemma {:induction false} NothingLoads(d: Loader, events: seq<Event>)
    requires Safe(d) && !d.active && |events| <= U32_MAX
    ensures LoadAll(d, events) == d
  {
    hide Safe, LoadEvent, WordsOf;
    if events != [] {
      var n := |events| - 1;
      NothingLoads(d, events[..n]);
      NotLoading(d, n, WordsOf(events[n]));
    }
  }
}
