/** The bytes of a sequence image and of a loaded event, one by one, without the number codec of SequenceImage. */
module SequenceLayout {
  import opened Crc32
  import opened Waveform
  import opened SequenceImage
  import SequenceLoader

  /** Two bytes, the low one first; four; eight. */
  function Two(b: seq<Byte>): nat
    requires |b| == 2
  {
    b[0] as int + 0x100 * b[1] as int
  }

  function Four(b: seq<Byte>): nat
    requires |b| == 4
  {
    Two(b[..2]) + 0x1_0000 * Two(b[2..])
  }

  function Eight(b: seq<Byte>): nat
    requires |b| == 8
  {
    Four(b[..4]) + 0x1_0000_0000 * Four(b[4..])
  }

  lemma UnTwo(b: seq<Byte>)
    requires |b| == 2
    ensures Un(b) == Two(b)
  {
    assert Un(b[1..]) == b[1] as int;
  }

  lemma UnFour(b: seq<Byte>)
    requires |b| == 4
    ensures Un(b) == Four(b)
  {
    var c := b[1..];
    assert c[1..] == b[2..];
    UnTwo(b[2..]);
    assert Un(c) == b[1] as int + 0x100 * Un(b[2..]);
  }

  lemma UnEight(b: seq<Byte>)
    requires |b| == 8
    ensures Un(b) == Eight(b)
  {
    var c, d, e := b[1..], b[2..], b[3..];
    assert c[1..] == d && d[1..] == e && e[1..] == b[4..];
    UnFour(b[4..]);
    assert Un(d) == b[2] as int + 0x100 * Un(e) && Un(e) == b[3] as int + 0x100 * Un(b[4..]);
    assert Un(c) == b[1] as int + 0x100 * Un(d);
    hide Un;
    assert b[..4][..2] == b[..2] && b[..4][2..] == b[2..4];
  }

  /** An event is its timestamp in eight bytes, its state in four and its flags in four. */
  ghost predicate EventAt(b: seq<Byte>, e: Event)
    requires |b| == 16
  {
    Eight(b[..8]) == e.timestamp && Four(b[8..12]) == e.state && Four(b[12..]) == e.flags
  }

  lemma EventLayout(e: Event)
    ensures EventAt(EventBytes(e), e)
  {
    hide Un, Le, Two, Four, Eight;
    EventRoundTrip(e, EventBytes(e));
    var b := EventBytes(e);
    UnEight(b[..8]);
    UnFour(b[8..12]);
    UnFour(b[12..]);
  }

  lemma {:induction false} PayloadAt(events: seq<Event>, i: nat)
    requires i < |events|
    ensures Payload(events)[16 * i..16 * i + 16] == EventBytes(events[i])
  {
    hide EventBytes;
    var n := |events| - 1;
    var head := Payload(events[..n]);
    assert Payload(events) == head + EventBytes(events[n]);
    if i < n {
      PayloadAt(events[..n], i);
      assert Payload(events)[16 * i..16 * i + 16] == head[16 * i..16 * i + 16];
    }
  }

  /** The 32 bytes of a header: QSEQ, version 1, header size 32, the event count, event size 16, 200000000 ticks a
      second, the CRC of what follows, and eight zeros. */
  ghost predicate HeaderBytes(image: seq<Byte>, count: nat)
    requires |image| >= 32
  {
    && image[0] == 0x51 && image[1] == 0x53 && image[2] == 0x45 && image[3] == 0x51
    && Two(image[4..6]) == 1 && Two(image[6..8]) == 32
    && Four(image[8..12]) == count && Four(image[12..16]) == 16 && Four(image[16..20]) == 200_000_000
    && image[20..24] == WordBytes(Checksum(image[32..]))
    && Eight(image[24..32]) == 0
  }

  /** An image byte for byte. */
  lemma ImageLayout(events: seq<Event>, image: seq<Byte>)
    requires Encode(events).Some? && image == Encode(events).value
    ensures |image| == 32 + 16 * |events| && HeaderBytes(image, |events|)
    ensures forall i | 0 <= i < |events| :: EventAt(image[32 + 16 * i..][..16], events[i])
  {
    hide Un, Le, Two, Four, Eight, Checksum, WordBytes, Payload, Parse, EventBytes, EventAt, Header;
    ImageBijection(image, events);
    HeaderNumbers(image);
    assert image[32..] == Payload(events);
    forall i | 0 <= i < |events|
      ensures EventAt(image[32 + 16 * i..][..16], events[i])
    {
      PayloadAt(events, i);
      EventLayout(events[i]);
      assert image[32 + 16 * i..][..16] == Payload(events)[16 * i..16 * i + 16];
    }
  }

  lemma HeaderNumbers(image: seq<Byte>)
    requires |image| >= 32
    ensures Two(image[4..6]) == Un(image[4..6]) && Two(image[6..8]) == Un(image[6..8])
    ensures Four(image[8..12]) == Un(image[8..12]) && Four(image[12..16]) == Un(image[12..16])
    ensures Four(image[16..20]) == Un(image[16..20]) && Eight(image[24..32]) == Un(image[24..32])
  {
    UnTwo(image[4..6]);
    UnTwo(image[6..8]);
    UnFour(image[8..12]);
    UnFour(image[12..16]);
    UnFour(image[16..20]);
    UnEight(image[24..32]);
    hide *;
  }

  /** The event LOAD_EVENT takes from four words: timestamp low and high, state, flags. */
  lemma LoadedEvent(words: seq<SequenceLoader.Word>)
    requires |words| == 4
    ensures var e := SequenceLoader.EventOf(words);
      && e.timestamp == Four(words[0]) + 0x1_0000_0000 * Four(words[1])
      && e.state == Four(words[2]) && e.flags == Four(words[3])
  {
    hide Un, Two, Four;
    var b := SequenceLoader.Cat(words[0], words[1], words[2], words[3]);
    assert b[8..12] == words[2] && b[12..] == words[3];
    assert b[..8][..4] == words[0] && b[..8][4..] == words[1];
    UnEight(b[..8]);
    UnFour(b[8..12]);
    UnFour(b[12..]);
  }
}
