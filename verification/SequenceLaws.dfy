/** What each sequence command of the R5 requires and changes, in numbers and fields. */
module SequenceLaws {
  import opened Protocol
  import opened Waveform
  import opened SequenceLoader

  /** The tables that may run: two to 128 events at rising ticks, each changing the two outputs and nothing else, the
      last one to low. */
  lemma ValidTables(events: seq<Event>)
    ensures Valid(events) <==>
      && 2 <= |events| <= 128
      && (forall i | 0 <= i < |events| :: events[i].state <= 3 && events[i].flags == 0)
      && (forall i | 0 < i < |events| ::
            events[i - 1].timestamp < events[i].timestamp && events[i - 1].state != events[i].state)
      && events[0].state != 0 && events[|events| - 1].state == 0
  {
    if Valid(events) {
      forall i | 0 <= i < |events|
        ensures events[i].state <= 3 && events[i].flags == 0
        ensures i > 0 ==> events[i - 1].timestamp < events[i].timestamp && events[i - 1].state != events[i].state
        ensures i == 0 ==> events[i].state != 0
      {
        assert Proper(events, i);
      }
    }
  }

  /** A fault names what is wrong with an event, and an event without one is in order. */
  lemma FaultNames(d: Loader, index: nat, e: Event)
    ensures match ValidateEvent(d, index, e)
      case ReservedState => e.state >= 4
      case ReservedFlags => e.flags != 0
      case NoStateChange => e.state == d.previousState
      case TimeOrder => index > 0 && e.timestamp <= d.previousTimestamp
      case UnsafeFinal => index + 1 == d.expected && e.state != 0
      case NoFault =>
        && e.state <= 3 && e.flags == 0 && e.state != d.previousState
        && (index > 0 ==> d.previousTimestamp < e.timestamp) && (index + 1 == d.expected ==> e.state == 0)
  {
  }

  /** LOAD_BEGIN: a count out of range abandons what was loaded; a sequencer that is not ready changes nothing. */
  lemma BeginLaw(d: Loader, lengthOk: bool, count: U32, crc: bv32, ready: bool)
    ensures var (q, status) := Begin(d, lengthOk, count, crc, ready);
      && (status == Ok <==> lengthOk && 2 <= count <= 128 && ready && d.idle)
      && (status == Ok ==> q.active && !q.committed && q.expected == count && q.next == 0 && q.expectedCrc == crc
                           && q.crc == 0xffff_ffff && q.previousTimestamp == 0 && q.previousState == 0)
      && (status == BadSequence <==> lengthOk && (count < 2 || count > 128))
      && (status == BadSequence ==> !q.active && !q.committed)
      && (status in {BadLength, BadState} ==> q == d)
      && q.ram == d.ram && q.count == d.count && q.idle == d.idle
  {
  }

  /** LOAD_COMMIT: all events loaded, their CRC the announced one, and the count register holding their number. */
  lemma CommitLaw(d: Loader, lengthOk: bool, stored: nat)
    ensures var (q, status) := SequenceLoader.Commit(d, lengthOk, stored);
      && (status == Ok <==> lengthOk && d.active && d.next == d.expected && Final(d.crc) == d.expectedCrc
                            && stored == d.expected)
      && (status == BadState <==> lengthOk && !(d.active && d.next == d.expected))
      && (status == CrcFailed <==> lengthOk && d.active && d.next == d.expected && Final(d.crc) != d.expectedCrc)
      && !(lengthOk && q.active) && (lengthOk ==> (q.committed <==> status == Ok)) && (!lengthOk ==> q == d)
      && q.ram == d.ram && (status == Ok ==> q.count == stored)
  {
    hide Final;
  }

  /** ARM starts only a committed load on a ready idle sequencer; START wants it committed and armed; RESET ends a
      load and keeps what is committed. None touches the memory. */
  lemma RunLaw(d: Loader, lengthOk: bool, ready: bool, answer: Status)
    ensures var (q, status) := Arm(d, lengthOk, ready, answer);
      var go := lengthOk && d.committed && ready && d.idle;
      q == (if go then d.(idle := false) else d)
      && status == if go then answer else if lengthOk then BadState else BadLength
    ensures var (q, status) := Start(d, lengthOk, ready, answer);
      var go := lengthOk && d.committed && ready && !d.idle;
      q == d && status == if go then answer else if lengthOk then BadState else BadLength
    ensures var (q, status) := Reset(d, lengthOk, answer);
      && q == d.(active := q.active) && (q.active <==> d.active && !lengthOk)
      && status == if lengthOk then answer else BadLength
  {
  }
}
