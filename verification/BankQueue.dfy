/** `struct bank_queue` of qcrate_streamer.c: the ring buffer between the two threads. The mutex makes each
    method one step; the waits on its condition variables are the callers' not calling. */
module BankQueue {
  import opened Streamer

  const MAX_TOKENS := 64

  class Queue {
    const tokens: array<Taken>
    const capacity: nat
    var head: nat
    var tail: nat
    var count: nat
    var highWater: nat
    var producerDone: bool
    var failed: bool

    /** The ring: `count` tokens from `head` on, wrapping at the capacity. */
    ghost predicate Valid()
      reads this
    {
      && 0 < capacity <= tokens.Length
      && head < capacity && count <= capacity
      && tail == Wrap(head + count)
    }

    /** An index below twice the capacity, modulo the capacity. */
    function Wrap(i: nat): nat {
      if i >= capacity then i - capacity else i
    }

    /** The tokens waiting, oldest first. */
    ghost function Contents(): (s: seq<Taken>)
      requires Valid()
      reads this, tokens
      ensures |s| == count && forall i | 0 <= i < count :: s[i] == tokens[Wrap(head + i)]
    {
      seq(count, i requires 0 <= i < count && 0 < capacity <= tokens.Length && head < capacity && count <= capacity
                   reads this, tokens => tokens[Wrap(head + i)])
    }

    /** `queue_init`. */
    constructor (capacity: nat, filler: Taken)
      requires 0 < capacity <= MAX_TOKENS
      ensures Valid() && Contents() == [] && this.capacity == capacity && fresh(tokens)
      ensures !producerDone && !failed && highWater == 0
    {
      this.capacity := capacity;
      tokens := new Taken[MAX_TOKENS](_ => filler);
      head, tail, count, highWater, producerDone, failed := 0, 0, 0, 0, false, false;
    }

    /** `queue_push` once it need not wait: there is room, or the pipeline failed. */
    method Push(t: Taken) returns (pushed: bool)
      requires Valid() && (|Contents()| < capacity || failed)
      modifies this`tail, this`count, this`highWater, tokens
      ensures Valid() && pushed == !failed
      ensures Contents() == old(Contents()) + if pushed then [t] else []
      ensures highWater == if pushed && old(highWater) < count then count else old(highWater)
    {
      if failed {
        return false;
      }
      ghost var was := Contents();
      tokens[tail] := t;
      tail := Wrap(tail + 1);
      count := count + 1;
      if count > highWater {
        highWater := count;
      }
      assert Contents() == was + [t];
      return true;
    }

    /** `queue_pop` once it need not wait: 1 with a token, 0 when the producer is done, -1 on failure. */
    method Pop() returns (status: int, t: Taken)
      requires Valid() && (Contents() != [] || producerDone || failed)
      modifies this`head, this`count
      ensures Valid()
      ensures status == if failed then -1 else if old(Contents()) == [] then 0 else 1
      ensures if status == 1 then [t] + Contents() == old(Contents()) else Contents() == old(Contents())
    {
      t := tokens[head];
      if failed {
        return -1, t;
      }
      if count == 0 {
        return 0, t;
      }
      ghost var was := Contents();
      head := Wrap(head + 1);
      count := count - 1;
      assert [t] + Contents() == was;
      return 1, t;
    }

    /** `queue_finish`. */
    method Finish()
      requires Valid()
      modifies this`producerDone
      ensures Valid() && producerDone && Contents() == old(Contents())
    {
      producerDone := true;
    }

    /** `pipeline_fail`, for the first failure and any later one. */
    method Fail()
      requires Valid()
      modifies this`failed
      ensures Valid() && failed && Contents() == old(Contents())
    {
      failed := true;
    }
  }
}
