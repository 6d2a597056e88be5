/** qcrate_rpmsg_service.c: the sequence load state and the event memory, updated in place by the command
    handlers, proved to take the steps of SequenceLoader. */
module SequenceService {
  import opened Crc32
  import opened Protocol
  import opened Waveform
  import opened SequenceLoader

  /** The 32-bit word of four bytes, least significant first. */
  function WordOf(a: Byte, b: Byte, c: Byte, e: Byte): bv32 {
    (a as bv32) | ((b as bv32) << 8) | ((c as bv32) << 16) | ((e as bv32) << 24)
  }

  lemma WordOfBytes(a: Byte, b: Byte, c: Byte, e: Byte)
    ensures WordBytes(WordOf(a, b, c, e)) == [a, b, c, e]
  {
  }

  lemma WordRoundTrip(w: Word)
    ensures WordBytes(WordOf(w[0], w[1], w[2], w[3])) == w
  {
    hide WordOf, WordBytes;
    WordOfBytes(w[0], w[1], w[2], w[3]);
    assert w == [w[0], w[1], w[2], w[3]];
  }

  class Service {
    var active: bool
    var committed: bool
    var expected: nat
    var next: nat
    var expectedCrc: bv32
    var crc: bv32
    var previousTimestamp: nat
    var previousState: nat
    const ram: array<Word>
    var count: nat
    var idle: bool

    function Value(): Loader
      reads this, ram
    {
      Loader(active, committed, expected, next, expectedCrc, crc, previousTimestamp, previousState, ram[..], count,
          idle)
    }

    constructor ()
      ensures fresh(ram) && Safe(Value()) && Value() == NewLoader(ram[..], 0)
    {
      active, committed, expected, next, expectedCrc, crc := false, false, 0, 0, 0, 0;
      previousTimestamp, previousState, count, idle := 0, 0, 0, true;
      ram := new Word[RAM_WORDS](_ => [0, 0, 0, 0]);
      new;
      hide Valid, Checksum, Table, RamBytes;
    }

    method Abandon()
      modifies this`active, this`committed
      ensures Value() == SequenceLoader.Abandon(old(Value()))
    {
      active, committed := false, false;
    }

    method Begin(lengthOk: bool, eventCount: U32, crc32: bv32, ready: bool) returns (status: Status)
      modifies this
      ensures (Value(), status) == SequenceLoader.Begin(old(Value()), lengthOk, eventCount, crc32, ready)
    {
      if !lengthOk {
        return BadLength;
      }
      if eventCount < MIN_EVENTS || eventCount > MAX_EVENTS {
        Abandon();
        return BadSequence;
      }
      if !(ready && idle) {
        return BadState;
      }
      active, committed := true, false;
      expected, next, expectedCrc, crc := eventCount, 0, crc32, INITIAL;
      previousTimestamp, previousState := 0, 0;
      return Ok;
    }

    /** The write, read-back and CRC of one event's words. */
    method WriteWords(base: nat, words: seq<Word>, stored: seq<Word>) returns (status: Status)
      requires |words| == |stored| == EVENT_WORDS && base + EVENT_WORDS <= ram.Length
      modifies this`active, this`committed, this`crc, ram
      ensures (Value(), status) == WriteFrom(old(Value()), base, words, stored, 0)
    {
      hide Update, WordOf;
      var k := 0;
      while k < EVENT_WORDS
        invariant k <= EVENT_WORDS
        invariant WriteFrom(Value(), base, words, stored, k) == WriteFrom(old(Value()), base, words, stored, 0)
      {
        ghost var before := Value();
        ram[base + k] := stored[k];
        assert ram[..] == before.ram[base + k := stored[k]];
        var readback := ram[base + k];
        if readback != words[k] {
          Abandon();
          return VerifyFailed;
        }
        var w := words[k];
        WordRoundTrip(w);
        crc := UpdateWordLoop(crc, WordOf(w[0], w[1], w[2], w[3]));
        k := k + 1;
      }
      return Ok;
    }

    method LoadEvent(lengthOk: bool, index: U32, words: seq<Word>, stored: seq<Word>) returns (status: Status)
      requires |words| == |stored| == EVENT_WORDS && Shaped(Value())
      modifies this, ram
      ensures (Value(), status) == SequenceLoader.LoadEvent(old(Value()), lengthOk, index, words, stored)
    {
      hide WriteFrom, EventOf, ValidateEvent;
      if !lengthOk {
        return BadLength;
      }
      if !active {
        return BadState;
      }
      if index != next || index >= expected {
        Abandon();
        return BadIndex;
      }
      var e := EventOf(words);
      if ValidateEvent(Value(), index, e) != NoFault {
        Abandon();
        return BadSequence;
      }
      ghost var before := Value();
      WriteFromKeeps(before, EVENT_WORDS * index, words, stored, 0);
      status := WriteWords(EVENT_WORDS * index, words, stored);
      if status != Ok {
        return;
      }
      previousTimestamp := e.timestamp;
      previousState := e.state;
      next := next + 1;
    }

    method Commit(lengthOk: bool, stored: nat) returns (status: Status)
      modifies this
      ensures (Value(), status) == SequenceLoader.Commit(old(Value()), lengthOk, stored)
    {
      hide Final;
      if !lengthOk {
        return BadLength;
      }
      if !active || next != expected {
        Abandon();
        return BadState;
      }
      if Final(crc) != expectedCrc {
        Abandon();
        return CrcFailed;
      }
      count := stored;
      var readback := count;
      if readback != expected {
        Abandon();
        return VerifyFailed;
      }
      active, committed := false, true;
      return Ok;
    }

    method Arm(lengthOk: bool, ready: bool, answer: Status) returns (status: Status)
      modifies this`idle
      ensures (Value(), status) == SequenceLoader.Arm(old(Value()), lengthOk, ready, answer)
    {
      if !lengthOk {
        return BadLength;
      }
      if !committed || !(ready && idle) {
        return BadState;
      }
      idle := false;
      return answer;
    }

    method Reset(lengthOk: bool, answer: Status) returns (status: Status)
      modifies this`active
      ensures (Value(), status) == SequenceLoader.Reset(old(Value()), lengthOk, answer)
    {
      if !lengthOk {
        return BadLength;
      }
      active := false;
      return answer;
    }
  }
}
