/** Which CRC the others compute: its divisor, its check value and the order of a word's bytes. */
module Crc32Check {
  import opened Crc32

  /** The divisor is that of IEEE 802.3: the coefficient of x^k stands at bit 31 - k, and those of the powers 0, 1, 2,
      4, 5, 7, 8, 10, 11, 12, 16, 22, 23 and 26 are one. */
  lemma Coefficients()
    ensures POLYNOMIAL == 0x8000_0000 | 0x4000_0000 | 0x2000_0000 | 0x0800_0000 | 0x0400_0000 | 0x0100_0000
                          | 0x0080_0000 | 0x0020_0000 | 0x0010_0000 | 0x0008_0000 | 0x0000_8000 | 0x0000_0200
                          | 0x0000_0100 | 0x0000_0020
  {
  }

  lemma EightBits(x: bv32)
    ensures Bits(x, 8) == Bit(Bit(Bit(Bit(Bit(Bit(Bit(Bit(x))))))))
  {
    hide Bit;
    assert Bits(x, 0) == x;
    assert Bits(x, 2) == Bit(Bit(x));
    assert Bits(x, 4) == Bit(Bit(Bits(x, 2)));
    assert Bits(x, 6) == Bit(Bit(Bits(x, 4)));
  }

  /** The register while it takes the digits "1" to "9". */
  function Register(n: nat): bv32 {
    match n
    case 0 => 0xffff_ffff
    case 1 => 0x7c23_1048
    case 2 => 0xb0ac_bb32
    case 3 => 0x77b7_9c2d
    case 4 => 0x641c_1f5c
    case 5 => 0x340a_c5e3
    case 6 => 0xf68d_2c9e
    case 7 => 0xaffc_9660
    case 8 => 0x651f_2550
    case _ => 0x340b_c6d9
  }

  function Ascii(n: nat): Byte {
    match n
    case 0 => 0x31
    case 1 => 0x32
    case 2 => 0x33
    case 3 => 0x34
    case 4 => 0x35
    case 5 => 0x36
    case 6 => 0x37
    case 7 => 0x38
    case _ => 0x39
  }

  lemma NextRegister(n: nat)
    requires n < 9
    ensures Step(Register(n), Ascii(n)) == Register(n + 1)
  {
    hide Bits;
    EightBits(Register(n) ^ (Ascii(n) as bv32));
  }

  lemma {:induction false} RegisterAt(n: nat)
    requires n <= 9
    ensures Update(INITIAL, seq(n, i requires 0 <= i < n => Ascii(i))) == Register(n)
  {
    if n > 0 {
      hide Step, Ascii, Register;
      var digits := seq(n, i requires 0 <= i < n => Ascii(i));
      assert digits[..n - 1] == seq(n - 1, i requires 0 <= i < n - 1 => Ascii(i));
      RegisterAt(n - 1);
      NextRegister(n - 1);
    }
  }

  /** The check value of this CRC: that of "123456789". */
  lemma CheckValue()
    ensures Checksum([0x31, 0x32, 0x33, 0x34, 0x35, 0x36, 0x37, 0x38, 0x39]) == 0xcbf4_3926
  {
    hide Step, Update;
    var digits := [0x31, 0x32, 0x33, 0x34, 0x35, 0x36, 0x37, 0x38, 0x39 as Byte];
    RegisterAt(9);
    assert digits == seq(9, i requires 0 <= i < 9 => Ascii(i));
  }

  /** The bytes of a word, least significant first. */
  lemma LittleEndian(w: bv32)
    ensures var b := WordBytes(w);
      w == (b[0] as bv32) | ((b[1] as bv32) << 8) | ((b[2] as bv32) << 16) | ((b[3] as bv32) << 24)
  {
  }
}
