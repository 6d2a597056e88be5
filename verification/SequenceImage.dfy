/** The binary sequence image of host/sequence_compiler/qcrate_sequence.py: `encode_sequence` and
    `decode_sequence`, little-endian. */
module SequenceImage {
  import opened Crc32
  import opened Protocol
  import opened Waveform

  const HEADER_SIZE := 32
  const EVENT_SIZE := 16
  const TICK_HZ := 200_000_000
  const MAGIC: seq<Byte> := [0x51, 0x53, 0x45, 0x51] // "QSEQ"

  // ----- little-endian numbers -----

  function Range(width: nat): nat {
    if width == 0 then 1 else 256 * Range(width - 1)
  }

  /** The byte of a number. */
  function ByteOf(n: nat): Byte
    requires n < 256
  {
    if n == 0 then 0 else ByteOf(n - 1) + 1
  }

  lemma Successor(b: Byte)
    requires b != 255
    ensures (b + 1) as int == b as int + 1
  {
  }

  lemma {:induction false} ByteValue(n: nat)
    requires n < 256
    ensures ByteOf(n) as int == n
  {
    if n > 0 {
      ByteValue(n - 1);
      Successor(ByteOf(n - 1));
    }
  }

  lemma SameByte(a: Byte, b: Byte)
    requires a as int == b as int
    ensures a == b
  {
  }

  /** `n` in `width` bytes. */
  function Le(n: nat, width: nat): (b: seq<Byte>)
    ensures |b| == width
  {
    if width == 0 then [] else [ByteOf(n % 256)] + Le(n / 256, width - 1)
  }

  /** The number some bytes stand for. */
  function Un(b: seq<Byte>): nat {
    if b == [] then 0 else b[0] as int + 256 * Un(b[1..])
  }

  lemma {:induction false} UnLe(n: nat, width: nat)
    requires n < Range(width)
    ensures Un(Le(n, width)) == n
  {
    if width > 0 {
      hide ByteOf;
      ByteValue(n % 256);
      Quotient(n, Range(width - 1));
      UnLe(n / 256, width - 1);
      assert Le(n, width)[1..] == Le(n / 256, width - 1);
    }
  }

  lemma Quotient(n: nat, m: nat)
    requires n < 256 * m
    ensures n / 256 < m && n == 256 * (n / 256) + n % 256
  {
  }

  lemma {:induction false} LeUn(b: seq<Byte>)
    ensures Un(b) < Range(|b|) && Le(Un(b), |b|) == b
  {
    if b != [] {
      LeUn(b[1..]);
      hide ByteOf;
      assert Un(b) / 256 == Un(b[1..]) && Un(b) % 256 == b[0] as int;
      ByteValue(Un(b) % 256);
      SameByte(ByteOf(Un(b) % 256), b[0]);
      assert b == [b[0]] + b[1..];
    }
  }

  /** Bytes and the number they stand for determine each other. */
  lemma SameNumber(b: seq<Byte>, n: nat)
    requires n < Range(|b|)
    ensures Un(b) == n <==> b == Le(n, |b|)
  {
    UnLe(n, |b|);
    LeUn(b);
  }

  lemma Ranges()
    ensures Range(2) == 0x1_0000 && Range(4) == 0x1_0000_0000 && Range(8) == 0x1_0000_0000_0000_0000
  {
    assert Range(2) == 0x1_0000;
    assert Range(4) == 0x1_0000_0000;
    assert Range(6) == 0x1_0000_0000_0000;
  }

  // ----- events -----

  function EventBytes(e: Event): (b: seq<Byte>)
    ensures |b| == EVENT_SIZE
  {
    Le(e.timestamp, 8) + Le(e.state, 4) + Le(e.flags, 4)
  }

  function ParseEvent(b: seq<Byte>): Event
    requires |b| == EVENT_SIZE
  {
    Ranges();
    LeUn(b[..8]);
    LeUn(b[8..12]);
    LeUn(b[12..]);
    Event(Un(b[..8]), Un(b[8..12]), Un(b[12..]))
  }

  lemma EventRoundTrip(e: Event, b: seq<Byte>)
    requires |b| == EVENT_SIZE
    ensures ParseEvent(b) == e <==> b == EventBytes(e)
  {
    hide Le, Un, Range;
    Ranges();
    SameNumber(b[..8], e.timestamp);
    SameNumber(b[8..12], e.state);
    SameNumber(b[12..], e.flags);
    assert b == b[..8] + b[8..12] + b[12..];
    var r := EventBytes(e);
    assert r[..8] == Le(e.timestamp, 8) && r[8..12] == Le(e.state, 4) && r[12..] == Le(e.flags, 4);
  }

  function Payload(events: seq<Event>): (b: seq<Byte>)
    ensures |b| == EVENT_SIZE * |events|
  {
    if events == [] then []
    else Payload(events[..|events| - 1]) + EventBytes(events[|events| - 1])
  }

  function Parse(payload: seq<Byte>, n: nat): (events: seq<Event>)
    requires |payload| == EVENT_SIZE * n
    ensures |events| == n
  {
    if n == 0 then []
    else Parse(payload[..EVENT_SIZE * (n - 1)], n - 1) + [ParseEvent(payload[EVENT_SIZE * (n - 1)..])]
  }

  lemma {:induction false} PayloadRoundTrip(events: seq<Event>, payload: seq<Byte>)
    requires |payload| == EVENT_SIZE * |events|
    ensures Parse(payload, |events|) == events <==> payload == Payload(events)
  {
    hide EventBytes, ParseEvent;
    if events != [] {
      var n := |events| - 1;
      var head, tail := payload[..EVENT_SIZE * n], payload[EVENT_SIZE * n..];
      PayloadRoundTrip(events[..n], head);
      EventRoundTrip(events[n], tail);
      assert payload == head + tail;
      assert events == events[..n] + [events[n]];
      if Parse(payload, |events|) == events {
        assert Parse(head, n) == Parse(payload, |events|)[..n] == events[..n];
        assert ParseEvent(tail) == Parse(payload, |events|)[n];
      }
      if payload == Payload(events) {
        assert head == Payload(events)[..EVENT_SIZE * n] == Payload(events[..n]);
        assert tail == Payload(events)[EVENT_SIZE * n..] == EventBytes(events[n]);
      }
    }
  }

  // ----- images -----

  function Header(count: nat, crc: bv32): (h: seq<Byte>)
    ensures |h| == HEADER_SIZE
  {
    MAGIC + Le(1, 2) + Le(HEADER_SIZE, 2) + Le(count, 4) + Le(EVENT_SIZE, 4) + Le(TICK_HZ, 4) + WordBytes(crc)
    + Le(0, 8)
  }

  /** `encode_sequence`; nothing for a table `validate_events` refuses. */
  function Encode(events: seq<Event>): Option<seq<Byte>> {
    if !Valid(events) then None else Some(Header(|events|, Checksum(Payload(events))) + Payload(events))
  }

  /** The fields of a header, as `decode_sequence` unpacks and checks them. */
  predicate HeaderOk(image: seq<Byte>)
    requires |image| >= HEADER_SIZE
  {
    && image[..4] == MAGIC && Un(image[4..6]) == 1
    && Un(image[6..8]) == HEADER_SIZE && Un(image[12..16]) == EVENT_SIZE
    && Un(image[16..20]) == TICK_HZ && Un(image[24..32]) == 0
  }

  /** `decode_sequence`. */
  function Decode(image: seq<Byte>): Option<seq<Event>> {
    if |image| < HEADER_SIZE || !HeaderOk(image) then None
    else
      var count := Un(image[8..12]);
      var payload := image[HEADER_SIZE..];
      if !(MIN_EVENTS <= count <= MAX_EVENTS) || |payload| != EVENT_SIZE * count then None
      else if image[20..24] != WordBytes(Checksum(payload)) then None
      else
        var events := Parse(payload, count);
        if Valid(events) then Some(events) else None
  }

  lemma HeaderParts(image: seq<Byte>, count: nat, crc: bv32)
    requires |image| >= HEADER_SIZE && count <= MAX_EVENTS
    ensures image[..HEADER_SIZE] == Header(count, crc) <==>
            HeaderOk(image) && Un(image[8..12]) == count && image[20..24] == WordBytes(crc)
  {
    hide Le, Un, Range, WordBytes;
    Ranges();
    SameNumber(image[4..6], 1);
    SameNumber(image[6..8], HEADER_SIZE);
    SameNumber(image[8..12], count);
    SameNumber(image[12..16], EVENT_SIZE);
    SameNumber(image[16..20], TICK_HZ);
    SameNumber(image[24..32], 0);
    Cut(image[..HEADER_SIZE]);
    Cut(Header(count, crc));
    HeaderCut(count, crc);
    SamePieces(image);
  }

  lemma SamePieces(image: seq<Byte>)
    requires |image| >= HEADER_SIZE
    ensures var h := image[..HEADER_SIZE];
      && h[..4] == image[..4] && h[4..6] == image[4..6] && h[6..8] == image[6..8] && h[8..12] == image[8..12]
      && h[12..16] == image[12..16] && h[16..20] == image[16..20] && h[20..24] == image[20..24]
      && h[24..32] == image[24..32]
  {
  }

  /** A header is its fields one after the other. */
  lemma Cut(h: seq<Byte>)
    requires |h| == HEADER_SIZE
    ensures h == h[..4] + h[4..6] + h[6..8] + h[8..12] + h[12..16] + h[16..20] + h[20..24] + h[24..32]
  {
  }

  lemma HeaderCut(count: nat, crc: bv32)
    ensures var h := Header(count, crc);
      && h[..4] == MAGIC && h[4..6] == Le(1, 2) && h[6..8] == Le(HEADER_SIZE, 2) && h[8..12] == Le(count, 4)
      && h[12..16] == Le(EVENT_SIZE, 4) && h[16..20] == Le(TICK_HZ, 4) && h[20..24] == WordBytes(crc)
      && h[24..32] == Le(0, 8)
  {
    hide Le, WordBytes;
  }

  /** `decode_sequence` accepts exactly the images `encode_sequence` makes, and undoes it. */
  lemma ImageBijection(image: seq<Byte>, events: seq<Event>)
    ensures Decode(image) == Some(events) <==> Encode(events) == Some(image)
  {
    hide Valid, Payload, Parse, Header, HeaderOk, Checksum, WordBytes, Un;
    if |image| >= HEADER_SIZE && MIN_EVENTS <= |events| <= MAX_EVENTS
       && |image| == HEADER_SIZE + EVENT_SIZE * |events| {
      var payload := image[HEADER_SIZE..];
      HeaderParts(image, |events|, Checksum(payload));
      PayloadRoundTrip(events, payload);
      assert image == image[..HEADER_SIZE] + payload;
    }
    ValidCount(events);
    if Encode(events) == Some(image) {
      var h := Header(|events|, Checksum(Payload(events)));
      assert image[..HEADER_SIZE] == h && image[HEADER_SIZE..] == Payload(events);
    }
  }

  lemma ValidCount(events: seq<Event>)
    ensures Valid(events) ==> MIN_EVENTS <= |events| <= MAX_EVENTS
  {
  }

  /** Two images of the same length whose payloads differ within four consecutive bytes are not both readable. */
  lemma PayloadsDiffer(a: seq<Byte>, b: seq<Byte>, p: seq<Byte>, v: bv32, w: bv32, suffix: seq<Byte>)
    requires |a| >= HEADER_SIZE && |b| >= HEADER_SIZE && a[20..24] == b[20..24]
    requires a[HEADER_SIZE..] == p + WordBytes(v) + suffix && b[HEADER_SIZE..] == p + WordBytes(w) + suffix
    requires Decode(a).Some? && Decode(b).Some?
    ensures v == w
  {
    hide Valid, Parse, HeaderOk, Checksum, WordBytes, Un;
    SameWord(Checksum(p + WordBytes(v) + suffix), Checksum(p + WordBytes(w) + suffix));
    WordChangeDetected(p, v, w, suffix);
  }

  /** Readable images with the same payload are the same image. */
  lemma SamePayload(a: seq<Byte>, b: seq<Byte>)
    requires Decode(a).Some? && Decode(b).Some? && a[HEADER_SIZE..] == b[HEADER_SIZE..]
    ensures a == b
  {
    hide Valid, Parse, HeaderOk, Checksum, WordBytes, Un, Header;
    SameCount(a, b);
    ImageBijection(a, Decode(a).value);
    ImageBijection(b, Decode(b).value);
  }

  lemma SameCount(a: seq<Byte>, b: seq<Byte>)
    requires Decode(a).Some? && Decode(b).Some? && a[HEADER_SIZE..] == b[HEADER_SIZE..]
    ensures Decode(a) == Decode(b)
  {
    hide Valid, Parse, HeaderOk, Checksum, WordBytes, Un;
    assert Un(a[8..12]) == Un(b[8..12]);
  }

  /** A change that straddles the end of the header can only be one of the payload's first bytes. */
  lemma StraddlingDiffer(a: seq<Byte>, b: seq<Byte>, n: nat)
    requires |a| == |b| && Decode(a).Some? && Decode(b).Some?
    requires HEADER_SIZE - 4 < n < HEADER_SIZE && a[..n] == b[..n] && a[n + 4..] == b[n + 4..]
    ensures a == b
  {
    hide Valid, Parse, HeaderOk, Checksum, WordBytes, Un, JoinBytes;
    LongEnough(a);
    var x, y := a[HEADER_SIZE..], b[HEADER_SIZE..];
    var rest := x[4..];
    assert rest == a[n + 4..][HEADER_SIZE - n..] == b[n + 4..][HEADER_SIZE - n..] == y[4..];
    JoinedBytes(x[..4]);
    JoinedBytes(y[..4]);
    assert x == [] + x[..4] + rest && y == [] + y[..4] + rest;
    assert a[20..24] == a[..n][20..24] == b[..n][20..24] == b[20..24];
    PayloadsDiffer(a, b, [], JoinBytes(x[..4]), JoinBytes(y[..4]), rest);
    SamePayload(a, b);
  }

  lemma LongEnough(image: seq<Byte>)
    requires Decode(image).Some?
    ensures |image| >= HEADER_SIZE + 2 * EVENT_SIZE
  {
    hide Valid, Parse, HeaderOk, Checksum, WordBytes, Un;
  }

  /** Any change confined to four consecutive bytes of an image, header or payload, makes it unreadable. */
  lemma BurstRejected(prefix: seq<Byte>, v: bv32, w: bv32, suffix: seq<Byte>)
    requires v != w
    requires Decode(prefix + WordBytes(v) + suffix).Some?
    ensures Decode(prefix + WordBytes(w) + suffix) == None
  {
    hide Decode, WordBytes;
    var a, b := prefix + WordBytes(v) + suffix, prefix + WordBytes(w) + suffix;
    var n := |prefix|;
    Changed(prefix, v, w, suffix);
    LongEnough(a);
    if Decode(b).Some? {
      if n >= HEADER_SIZE {
        var p := prefix[HEADER_SIZE..];
        assert a[HEADER_SIZE..] == p + WordBytes(v) + suffix && b[HEADER_SIZE..] == p + WordBytes(w) + suffix;
        assert a[20..24] == prefix[20..24] == b[20..24];
        PayloadsDiffer(a, b, p, v, w, suffix);
      } else if n + 4 <= HEADER_SIZE {
        assert a[n + 4..] == b[n + 4..];
        assert a[HEADER_SIZE..] == a[n + 4..][HEADER_SIZE - n - 4..];
        assert b[HEADER_SIZE..] == b[n + 4..][HEADER_SIZE - n - 4..];
        SamePayload(a, b);
      } else {
        assert a[..n] == b[..n] && a[n + 4..] == b[n + 4..];
        StraddlingDiffer(a, b, n);
      }
    }
  }

  lemma Changed(prefix: seq<Byte>, v: bv32, w: bv32, suffix: seq<Byte>)
    requires v != w
    ensures prefix + WordBytes(v) + suffix != prefix + WordBytes(w) + suffix
  {
    hide WordBytes;
    var a, b := prefix + WordBytes(v) + suffix, prefix + WordBytes(w) + suffix;
    var n := |prefix|;
    assert a[n..n + 4] == WordBytes(v) && b[n..n + 4] == WordBytes(w);
    SameWord(v, w);
  }

  /** Words with the same bytes are the same. */
  lemma SameWord(v: bv32, w: bv32)
    ensures WordBytes(v) == WordBytes(w) ==> v == w
  {
    if WordBytes(v) == WordBytes(w) {
      WordChangeDetected([], v, w, []);
    }
  }
}
