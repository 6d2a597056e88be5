/** The reflected CRC-32 of zlib (sample code in section 8 of RFC 1952), as the packetizer, the
    recorder and the R5 loader compute it. */
module Crc32 {
  type Byte = bv8

  const INITIAL: bv32 := 0xffff_ffff
  const POLYNOMIAL: bv32 := 0xedb8_8320
  const BYTE_BITS: nat := 8

  function Half(w: bv32): bv32 { w >> 1 }

  predicate Odd(w: bv32) { w & 1 == 1 }

  /** One bit of the reflected division. */
  function Bit(crc: bv32): bv32 {
    Half(crc) ^ (if Odd(crc) then POLYNOMIAL else 0)
  }

  function Bits(crc: bv32, n: nat): bv32 {
    if n == 0 then crc else Bit(Bits(crc, n - 1))
  }

  function Mix(crc: bv32, b: Byte): bv32 { crc ^ (b as bv32) }

  function Step(crc: bv32, b: Byte): bv32 {
    Bits(Mix(crc, b), BYTE_BITS)
  }

  /** The register after `data`, the last byte applied last. */
  function Update(crc: bv32, data: seq<Byte>): bv32 {
    if data == [] then crc
    else Step(Update(crc, data[..|data| - 1]), data[|data| - 1])
  }

  function Checksum(data: seq<Byte>): bv32 {
    Update(INITIAL, data) ^ INITIAL
  }

  method StepLoop(crc: bv32, b: Byte) returns (r: bv32)
    ensures r == Step(crc, b)
  {
    hide Bit;
    r := crc ^ (b as bv32);
    ghost var start := r;
    for bit := 0 to BYTE_BITS
      invariant r == Bits(start, bit)
    {
      r := Bit(r);
    }
  }

  method UpdateLoop(crc: bv32, data: seq<Byte>) returns (r: bv32)
    ensures r == Update(crc, data)
  {
    hide Step;
    r := crc;
    for i := 0 to |data|
      invariant r == Update(crc, data[..i])
    {
      r := StepLoop(r, data[i]);
      assert data[..i + 1][..i] == data[..i];
    }
    assert data[..|data|] == data;
  }

  /** A CRC taken chunk by chunk is the CRC of the whole. */
  lemma {:induction false} UpdateConcat(crc: bv32, a: seq<Byte>, b: seq<Byte>)
    ensures Update(crc, a + b) == Update(Update(crc, a), b)
  {
    if b == [] {
      assert a + b == a;
    } else {
      var init := b[..|b| - 1];
      assert (a + b)[..|a + b| - 1] == a + init;
      UpdateConcat(crc, a, init);
    }
  }

  lemma BitInjective(x: bv32, y: bv32)
    requires Bit(x) == Bit(y)
    ensures x == y
  {
  }

  lemma {:induction false} BitsInjective(x: bv32, y: bv32, n: nat)
    requires Bits(x, n) == Bits(y, n)
    ensures x == y
  {
    if n > 0 {
      BitInjective(Bits(x, n - 1), Bits(y, n - 1));
      BitsInjective(x, y, n - 1);
    }
  }

  lemma XorCancel(x: bv32, y: bv32, z: bv32)
    requires x ^ z == y ^ z
    ensures x == y
  {
  }

  lemma MixInjective(x: bv32, y: bv32, b: Byte)
    requires Mix(x, b) == Mix(y, b)
    ensures x == y
  {
  }

  lemma StepInjective(x: bv32, y: bv32, b: Byte)
    requires Step(x, b) == Step(y, b)
    ensures x == y
  {
    hide Bits, Mix;
    BitsInjective(Mix(x, b), Mix(y, b), BYTE_BITS);
    MixInjective(x, y, b);
  }

  /** The same bytes applied to two different registers leave them different. */
  lemma {:induction false} UpdateInjective(x: bv32, y: bv32, data: seq<Byte>)
    requires Update(x, data) == Update(y, data)
    ensures x == y
  {
    if data != [] {
      var init, last := data[..|data| - 1], data[|data| - 1];
      StepInjective(Update(x, init), Update(y, init), last);
      UpdateInjective(x, y, init);
    }
  }

  // ----- a 32-bit word at a time -----

  function LowByte(w: bv32): Byte { (w & 0xff) as Byte }

  function NextByte(w: bv32): bv32 { w >> 8 }

  /** The four bytes of a word, least significant first. */
  function WordBytes(w: bv32): (b: seq<Byte>)
    ensures |b| == 4
  {
    [LowByte(w), LowByte(NextByte(w)), LowByte(NextByte(NextByte(w))), LowByte(NextByte(NextByte(NextByte(w))))]
  }

  // The next lemmas treat exclusive-or as a relation and hide the bit operations, so that the
  // induction below is about the relation alone.

  predicate XorOf(p: bv32, q: bv32, d: bv32) { p == q ^ d }

  lemma BitLinear(p: bv32, q: bv32, d: bv32)
    requires XorOf(p, q, d) && !Odd(d)
    ensures XorOf(Bit(p), Bit(q), Half(d))
  {
    HalfXor(q, d);
    OddXor(q, d);
    SwapXor(Half(q), Half(d), if Odd(q) then POLYNOMIAL else 0);
  }

  lemma HalfXor(a: bv32, b: bv32)
    ensures Half(a ^ b) == Half(a) ^ Half(b)
  {
  }

  lemma OddXor(a: bv32, b: bv32)
    requires !Odd(b)
    ensures Odd(a ^ b) <==> Odd(a)
  {
  }

  lemma SwapXor(a: bv32, b: bv32, c: bv32)
    ensures (a ^ b) ^ c == (a ^ c) ^ b
  {
  }

  function Down(y: bv32, n: nat): bv32 {
    if n == 0 then y else Half(Down(y, n - 1))
  }

  predicate LowBitsClear(y: bv32, n: nat) {
    n == 0 || (LowBitsClear(y, n - 1) && !Odd(Down(y, n - 1)))
  }

  /** Bits that never reach the feedback pass through unchanged. */
  lemma {:induction false} BitsLinear(p: bv32, q: bv32, d: bv32, n: nat)
    requires XorOf(p, q, d) && LowBitsClear(d, n)
    ensures XorOf(Bits(p, n), Bits(q, n), Down(d, n))
  {
    hide XorOf, Odd, Half, Bit;
    if n > 0 {
      BitsLinear(p, q, d, n - 1);
      BitLinear(Bits(p, n - 1), Bits(q, n - 1), Down(d, n - 1));
    }
  }

  lemma {:induction false} BitsAdd(x: bv32, m: nat, n: nat)
    ensures Bits(Bits(x, m), n) == Bits(x, m + n)
  {
    if n > 0 {
      BitsAdd(x, m, n - 1);
    }
  }

  function HighBytes(w: bv32): bv32 { w & 0xffff_ff00 }

  function Split(s: bv32, w: bv32): bv32 { s ^ (LowByte(w) as bv32) }

  lemma SplitWord(s: bv32, w: bv32)
    ensures XorOf(s ^ w, Split(s, w), HighBytes(w))
  {
  }

  lemma HighBytesDown(w: bv32)
    ensures LowBitsClear(HighBytes(w), BYTE_BITS)
    ensures Down(HighBytes(w), BYTE_BITS) == NextByte(w)
  {
    hide Half, Odd, HighBytes, NextByte;
    EightHalves(w);
    var d := HighBytes(w);
    assert Down(d, 1) == Half(d);
    assert Down(d, 2) == Half(Down(d, 1));
    assert Down(d, 3) == Half(Down(d, 2));
    assert Down(d, 4) == Half(Down(d, 3));
    assert Down(d, 5) == Half(Down(d, 4));
    assert Down(d, 6) == Half(Down(d, 5));
    assert Down(d, 7) == Half(Down(d, 6));
    assert Down(d, 8) == Half(Down(d, 7));
    assert LowBitsClear(d, 1);
    assert LowBitsClear(d, 2);
    assert LowBitsClear(d, 3);
    assert LowBitsClear(d, 4);
    assert LowBitsClear(d, 5);
    assert LowBitsClear(d, 6);
    assert LowBitsClear(d, 7);
  }

  lemma EightHalves(w: bv32)
    ensures var d := HighBytes(w);
      && !Odd(d) && !Odd(Half(d)) && !Odd(Half(Half(d))) && !Odd(Half(Half(Half(d))))
      && !Odd(Half(Half(Half(Half(d))))) && !Odd(Half(Half(Half(Half(Half(d))))))
      && !Odd(Half(Half(Half(Half(Half(Half(d))))))) && !Odd(Half(Half(Half(Half(Half(Half(Half(d))))))))
      && Half(Half(Half(Half(Half(Half(Half(Half(d)))))))) == NextByte(w)
  {
    hide Half, Odd, HighBytes, NextByte, Clear;
    var d := HighBytes(w);
    var d1 := Half(d);
    var d2 := Half(d1);
    var d3 := Half(d2);
    var d4 := Half(d3);
    var d5 := Half(d4);
    var d6 := Half(d5);
    var d7 := Half(d6);
    ByteShift(w);
    LowByteClear(w);
    ClearHalf(d, 0xff, 0x7f);
    ClearHalf(d1, 0x7f, 0x3f);
    ClearHalf(d2, 0x3f, 0x1f);
    ClearHalf(d3, 0x1f, 0x0f);
    ClearHalf(d4, 0x0f, 0x07);
    ClearHalf(d5, 0x07, 0x03);
    ClearHalf(d6, 0x03, 0x01);
    ClearHalf(d7, 0x01, 0x00);
  }

  predicate Clear(x: bv32, mask: bv32) { x & mask == 0 }

  lemma LowByteClear(w: bv32)
    ensures Clear(HighBytes(w), 0xff)
  {
  }

  lemma ClearHalf(x: bv32, m: bv32, n: bv32)
    requires Clear(x, m) && m == (n << 1) | 1 && n < 0x8000_0000
    ensures !Odd(x) && Clear(Half(x), n)
  {
  }

  function Nibble(x: bv32): bv32 { x >> 4 }

  lemma ByteShift(w: bv32)
    ensures var d := HighBytes(w); Half(Half(Half(Half(Half(Half(Half(Half(d)))))))) == NextByte(w)
  {
    hide Half, Nibble, HighBytes, NextByte;
    var d := HighBytes(w);
    FourHalves(d);
    FourHalves(Half(Half(Half(Half(d)))));
    TwoNibbles(w);
  }

  lemma FourHalves(x: bv32)
    ensures Half(Half(Half(Half(x)))) == Nibble(x)
  {
  }

  lemma TwoNibbles(w: bv32)
    ensures Nibble(Nibble(HighBytes(w))) == NextByte(w)
  {
  }

  /** A byte consumed from a word: what is left of the word is the register's difference. */
  lemma WordStep(s: bv32, t: bv32, w: bv32)
    requires XorOf(t, s, w)
    ensures XorOf(Bits(t, BYTE_BITS), Step(s, LowByte(w)), NextByte(w))
  {
    hide Bits, NextByte, HighBytes;
    SplitWord(s, w);
    HighBytesDown(w);
    BitsLinear(t, Split(s, w), HighBytes(w), BYTE_BITS);
  }

  /** Four byte steps are the word exclusive-or'd in at once, then 32 bit steps. */
  lemma WordBits(crc: bv32, w: bv32)
    ensures Update(crc, WordBytes(w)) == Bits(crc ^ w, 4 * BYTE_BITS)
  {
    hide XorOf, Step, Bits, LowByte, NextByte;
    var w1 := NextByte(w);
    var w2 := NextByte(w1);
    var w3 := NextByte(w2);
    var t := crc ^ w;
    assert XorOf(t, crc, w) by { XorOfXor(crc, w); }
    var s1 := Step(crc, LowByte(w));
    WordStep(crc, t, w);
    var t1 := Bits(t, BYTE_BITS);
    var s2 := Step(s1, LowByte(w1));
    WordStep(s1, t1, w1);
    var t2 := Bits(t1, BYTE_BITS);
    BitsAdd(t, BYTE_BITS, BYTE_BITS);
    var s3 := Step(s2, LowByte(w2));
    WordStep(s2, t2, w2);
    var t3 := Bits(t2, BYTE_BITS);
    BitsAdd(t, 2 * BYTE_BITS, BYTE_BITS);
    var s4 := Step(s3, LowByte(w3));
    WordStep(s3, t3, w3);
    BitsAdd(t, 3 * BYTE_BITS, BYTE_BITS);
    NothingLeft(w, Bits(t3, BYTE_BITS), s4);
    FourSteps(crc, LowByte(w), LowByte(w1), LowByte(w2), LowByte(w3));
  }

  lemma XorOfXor(q: bv32, d: bv32)
    ensures XorOf(q ^ d, q, d)
  {
  }

  lemma NothingLeft(w: bv32, p: bv32, q: bv32)
    requires XorOf(p, q, NextByte(NextByte(NextByte(NextByte(w)))))
    ensures p == q
  {
  }

  lemma FourSteps(crc: bv32, a: Byte, b: Byte, c: Byte, d: Byte)
    ensures Update(crc, [a, b, c, d]) == Step(Step(Step(Step(crc, a), b), c), d)
  {
    hide Step;
    assert [a, b, c, d][..3] == [a, b, c];
    assert [a, b, c][..2] == [a, b];
    assert [a, b][..1] == [a];
    assert [a][..0] == [];
    assert Update(crc, [a]) == Step(crc, a);
    assert Update(crc, [a, b]) == Step(Step(crc, a), b);
    assert Update(crc, [a, b, c]) == Step(Step(Step(crc, a), b), c);
  }

  lemma WordInjective(crc: bv32, v: bv32, w: bv32)
    requires Update(crc, WordBytes(v)) == Update(crc, WordBytes(w))
    ensures v == w
  {
    hide Update, WordBytes;
    WordBits(crc, v);
    WordBits(crc, w);
    BitsInjective(crc ^ v, crc ^ w, 4 * BYTE_BITS);
    XorLeftCancel(v, w, crc);
  }

  lemma XorLeftCancel(x: bv32, y: bv32, z: bv32)
    requires z ^ x == z ^ y
    ensures x == y
  {
  }

  /** Every change confined to four consecutive bytes, wherever they start, changes the checksum. */
  lemma WordChangeDetected(prefix: seq<Byte>, v: bv32, w: bv32, suffix: seq<Byte>)
    requires Checksum(prefix + WordBytes(v) + suffix) == Checksum(prefix + WordBytes(w) + suffix)
    ensures v == w
  {
    hide Update, WordBytes;
    var a, b := prefix + WordBytes(v), prefix + WordBytes(w);
    XorCancel(Update(INITIAL, a + suffix), Update(INITIAL, b + suffix), INITIAL);
    UpdateConcat(INITIAL, a, suffix);
    UpdateConcat(INITIAL, b, suffix);
    UpdateInjective(Update(INITIAL, a), Update(INITIAL, b), suffix);
    UpdateConcat(INITIAL, prefix, WordBytes(v));
    UpdateConcat(INITIAL, prefix, WordBytes(w));
    WordInjective(Update(INITIAL, prefix), v, w);
  }

  function Join(low: Byte, w: bv32): bv32 { (w << 8) | (low as bv32) }

  lemma JoinLow(low: Byte, w: bv32)
    ensures LowByte(Join(low, w)) == low
  {
  }

  lemma JoinNext(low: Byte, w: bv32)
    requires w & 0xff00_0000 == 0
    ensures NextByte(Join(low, w)) == w
  {
  }

  lemma JoinSmall(low: Byte, w: bv32)
    ensures w & 0xffff_0000 == 0 ==> Join(low, w) & 0xff00_0000 == 0
    ensures w & 0xffff_ff00 == 0 ==> Join(low, w) & 0xffff_0000 == 0
    ensures w == 0 ==> Join(low, w) & 0xffff_ff00 == 0
  {
  }

  /** The word with these bytes. */
  function JoinBytes(b: seq<Byte>): bv32
    requires |b| == 4
  {
    Join(b[0], Join(b[1], Join(b[2], Join(b[3], 0))))
  }

  lemma JoinedBytes(b: seq<Byte>)
    requires |b| == 4
    ensures WordBytes(JoinBytes(b)) == b
  {
    hide Join, LowByte, NextByte;
    var w3 := Join(b[3], 0);
    var w2 := Join(b[2], w3);
    var w1 := Join(b[1], w2);
    JoinSmall(b[3], 0);
    JoinSmall(b[2], w3);
    JoinSmall(b[1], w2);
    JoinNext(b[0], w1);
    JoinNext(b[1], w2);
    JoinNext(b[2], w3);
    JoinLow(b[0], w1);
    JoinLow(b[1], w2);
    JoinLow(b[2], w3);
    JoinLow(b[3], 0);
  }

  function Rest(w: bv32, n: nat): bv32 {
    if n == 0 then w else NextByte(Rest(w, n - 1))
  }

  lemma WordByteAt(w: bv32, i: nat)
    requires i < 4
    ensures WordBytes(w)[i] == LowByte(Rest(w, i))
  {
    hide LowByte, NextByte;
    assert Rest(w, 1) == NextByte(w);
    assert Rest(w, 2) == NextByte(Rest(w, 1));
    assert Rest(w, 3) == NextByte(Rest(w, 2));
  }

  /** The R5 loader's form: it shifts the word down a byte at a time. */
  method UpdateWordLoop(crc: bv32, word: bv32) returns (r: bv32)
    ensures r == Update(crc, WordBytes(word))
  {
    hide Step, LowByte, NextByte, WordBytes;
    var w := word;
    r := crc;
    ghost var bytes := WordBytes(word);
    for i := 0 to 4
      invariant r == Update(crc, bytes[..i])
      invariant w == Rest(word, i)
    {
      r := StepLoop(r, LowByte(w));
      WordByteAt(word, i);
      assert bytes[..i + 1][..i] == bytes[..i];
      w := NextByte(w);
    }
    assert bytes[..4] == bytes;
  }
}
