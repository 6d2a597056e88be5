/** The fixed-point signal path both DSP references compute (qcrate_dsp_reference.py, qcrate_dsp.py), sample by
    sample, and its bounds. */
module DspModel {
  import opened Protocol
  import ConfigModel

  const PHASES := 0x1_0000_0000
  const QUARTER_PHASE := 0x4000_0000
  const QUARTER := 1024 // entries of a quarter wave, less the shared end point
  const PHASES_PER_ENTRY := 0x10_0000
  const DECIMATION := 16
  const TAPS := 217

  // ----- arithmetic -----

  function Saturate(value: int, limit: int): int
    requires limit > 0
  {
    if value < -limit then -limit else if value > limit - 1 then limit - 1 else value
  }

  /** Division by `unit` with ties away from zero; `unit` is the power of two a shift divides by. */
  function RoundShift(value: int, unit: nat): int
    requires unit > 0
  {
    if value >= 0 then (value + unit / 2) / unit else -((-value + unit / 2) / unit)
  }

  const Q15 := 0x8000
  const MIXER_UNIT := 0x2000     // a shift by 13
  const OUTPUT_UNIT := 0x8_0000  // a shift by 19
  const MIXER_LIMIT := 0x2_0000  // 18 bits
  const ACCUMULATOR_LIMIT := 0x8000_0000_0000 // 48 bits

  function Abs(x: int): nat { if x < 0 then -x else x }

  // ----- the sources -----

  type Lut = t: seq<int> | |t| == QUARTER + 1 witness seq(QUARTER + 1, _ => 0)
  type Fir = t: seq<int> | |t| == TAPS witness seq(TAPS, _ => 0)

  /** `nco_lookup`. */
  function Nco(phase: int, lut: Lut): int {
    var index := (phase % PHASES) / PHASES_PER_ENTRY;
    var offset := index % QUARTER;
    match index / QUARTER
    case 0 => lut[offset]
    case 1 => lut[QUARTER - offset]
    case 2 => -lut[offset]
    case _ => -lut[QUARTER - offset]
  }

  /** Exclusive-or with a single bit, `bit` a power of two. */
  function Flip(x: int, bit: int): int
    requires bit > 0
  {
    if x / bit % 2 == 1 then x - bit else x + bit
  }

  /** `lfsr_step` on a 16-bit state: exclusive-or with 0xB400 flips bits 15, 13, 12 and 10. */
  function LfsrStep(state: int): int {
    var shifted := state / 2;
    if state % 2 == 1 then Flip(Flip(Flip(Flip(shifted, 0x400), 0x1000), 0x2000), 0x8000) else shifted
  }

  /** Bitwise exclusive-or. */
  function Xor(a: nat, b: nat): nat {
    if a == 0 && b == 0 then 0 else (a % 2 + b % 2) % 2 + 2 * Xor(a / 2, b / 2)
  }

  datatype Params = Params(
    signalIncrement: U32, signalPhase: U32, signalAmplitude: int, noiseAmplitude: int, seed: int,
    loIncrement: U32, loPhase: U32, lut: Lut, taps: Fir)

  function SignalPhase(p: Params, i: nat): U32 {
    if i == 0 then p.signalPhase else (SignalPhase(p, i - 1) + p.signalIncrement) % PHASES
  }

  function LoPhase(p: Params, i: nat): U32 {
    if i == 0 then p.loPhase else (LoPhase(p, i - 1) + p.loIncrement) % PHASES
  }

  /** The noise generator's state after `n` steps. */
  function Lfsr(seed: int, n: nat): int {
    if n == 0 then seed else LfsrStep(Lfsr(seed, n - 1))
  }

  function Source(p: Params, phase: int): int {
    Saturate(RoundShift(Nco(phase + QUARTER_PHASE, p.lut) * p.signalAmplitude, Q15), Q15)
  }

  function Noise(p: Params, state: int): int {
    Saturate(RoundShift((state - Q15) * p.noiseAmplitude, Q15), Q15)
  }

  function Adc(p: Params, phase: int, state: int): int {
    Saturate(Source(p, phase) + Noise(p, state), Q15)
  }

  function MixI(p: Params, adc: int, lo: int): int {
    Saturate(RoundShift(adc * Nco(lo + QUARTER_PHASE, p.lut), MIXER_UNIT), MIXER_LIMIT)
  }

  function MixQ(p: Params, adc: int, lo: int): int {
    Saturate(RoundShift(-adc * Nco(lo, p.lut), MIXER_UNIT), MIXER_LIMIT)
  }

  function AdcAt(p: Params, i: nat): int {
    Adc(p, SignalPhase(p, i), Lfsr(p.seed, i + 1))
  }

  /** Input sample `i` after the mixer. */
  function InPhase(p: Params, i: nat): int { MixI(p, AdcAt(p, i), LoPhase(p, i)) }

  function Quadrature(p: Params, i: nat): int { MixQ(p, AdcAt(p, i), LoPhase(p, i)) }

  // ----- the filter -----

  /** The first `n` taps of the filter at input `i`. */
  function Convolve(samples: seq<int>, taps: Fir, i: nat, n: nat): int
    requires n <= TAPS && n <= i + 1 <= |samples|
  {
    if n == 0 then 0 else Convolve(samples, taps, i, n - 1) + samples[i - (n - 1)] * taps[n - 1]
  }

  function ValidTaps(i: nat): nat { if i + 1 < TAPS then i + 1 else TAPS }

  /** The input at which output `k` is taken. */
  function Index(k: nat): nat { DECIMATION * k + DECIMATION - 1 }

  /** The filter sum for output `k`. */
  function SumAt(samples: seq<int>, taps: Fir, k: nat): int
    requires Index(k) < |samples|
  {
    Convolve(samples, taps, Index(k), ValidTaps(Index(k)))
  }

  function Samples(p: Params, n: nat): (s: (seq<int>, seq<int>))
    ensures |s.0| == |s.1| == n
  {
    (seq(n, i requires 0 <= i < n => InPhase(p, i)), seq(n, i requires 0 <= i < n => Quadrature(p, i)))
  }

  function Narrow(sum: int): int {
    Saturate(RoundShift(sum, OUTPUT_UNIT), Q15)
  }

  /** I in the low half of a word and Q in the high half, each as 16-bit two's complement. */
  function Pack(i: int, q: int): U32 {
    (q % 0x1_0000) * 0x1_0000 + i % 0x1_0000
  }

  /** Output word `k`: the filter at input 16k + 15. */
  function Word(p: Params, k: nat): U32 {
    var s := Samples(p, Index(k) + 1);
    Pack(Narrow(SumAt(s.0, p.taps, k)), Narrow(SumAt(s.1, p.taps, k)))
  }

  /** Sixteen bits read as two's complement. */
  function Signed16(half: int): int {
    if half < 0x8000 then half else half - 0x1_0000
  }

  /** The low half of a word is I and the high half Q. */
  lemma PackHalves(i: int, q: int)
    ensures Pack(i, q) % 0x1_0000 == i % 0x1_0000 && Pack(i, q) / 0x1_0000 == q % 0x1_0000
    ensures -0x8000 <= i < 0x8000 ==> Signed16(Pack(i, q) % 0x1_0000) == i
    ensures -0x8000 <= q < 0x8000 ==> Signed16(Pack(i, q) / 0x1_0000) == q
  {
  }

  /** A word's halves are the two filtered outputs at input 16k + 15. */
  ghost predicate Halves(p: Params, k: nat, word: U32) {
    var s := Samples(p, 16 * k + 16);
    && Signed16(word % 0x1_0000) == Narrow(SumAt(s.0, p.taps, k))
    && Signed16(word / 0x1_0000) == Narrow(SumAt(s.1, p.taps, k))
  }

  lemma WordHalves(p: Params, k: nat)
    ensures Halves(p, k, Word(p, k))
  {
    hide RoundShift, InPhase, Quadrature, SumAt, Pack, Signed16;
    var s := Samples(p, Index(k) + 1);
    PackHalves(Narrow(SumAt(s.0, p.taps, k)), Narrow(SumAt(s.1, p.taps, k)));
  }

  lemma {:induction false} ConvolveLocal(a: seq<int>, b: seq<int>, taps: Fir, i: nat, n: nat)
    requires n <= TAPS && n <= i + 1 <= |a| && i + 1 <= |b|
    requires forall j | 0 <= j <= i :: a[j] == b[j]
    ensures Convolve(a, taps, i, n) == Convolve(b, taps, i, n)
  {
    if n > 0 {
      ConvolveLocal(a, b, taps, i, n - 1);
    }
  }

  // ----- bounds -----

  /** Table entries as the quarter-wave table has them. */
  predicate Tabled(p: Params) {
    forall i | 0 <= i <= QUARTER :: 0 <= p.lut[i] < Q15
  }

  /** Filter taps of 18 bits. */
  predicate Tapped(p: Params) {
    forall i | 0 <= i < TAPS :: -MIXER_LIMIT <= p.taps[i] < MIXER_LIMIT
  }

  /** The parameters of a profile the R5 accepts. */
  ghost predicate FromProfile(p: Params, words: ConfigModel.Words) {
    && ConfigModel.Check(words) == ConfigModel.NoReason
    && p.signalAmplitude == words[ConfigModel.SIGNAL_AMPLITUDE]
    && p.noiseAmplitude == words[ConfigModel.NOISE_AMPLITUDE]
    && p.seed == words[ConfigModel.NOISE_SEED]
  }

  function Power(k: nat): (r: nat)
    ensures r > 0
  {
    if k == 0 then 1 else 2 * Power(k - 1)
  }

  lemma {:induction false} XorZero(a: nat)
    ensures Xor(a, 0) == a
  {
    if a > 0 {
      XorZero(a / 2);
    }
  }

  /** Exclusive-or with one bit above all of `b`'s flips that bit. */
  lemma {:induction false} XorBit(x: nat, b: nat, k: nat)
    requires b < Power(k)
    ensures Xor(x, b + Power(k)) == Flip(Xor(x, b), Power(k))
  {
    if k == 0 {
      XorOne(x);
    } else {
      hide Xor, Flip;
      var n := Power(k - 1);
      XorBit(x / 2, b / 2, k - 1);
      XorDouble(x, b, n);
    }
  }

  lemma XorOne(x: nat)
    ensures Xor(x, 1) == Flip(Xor(x, 0), 1)
  {
    XorZero(x);
    XorZero(x / 2);
  }

  lemma XorDouble(x: nat, b: nat, n: nat)
    requires n > 0 && Xor(x / 2, b / 2 + n) == Flip(Xor(x / 2, b / 2), n)
    ensures Xor(x, b + 2 * n) == Flip(Xor(x, b), 2 * n)
  {
    hide Xor, Flip;
    XorStep(x, b + 2 * n);
    XorStep(x, b);
    FlipDouble(Xor(x / 2, b / 2), (x % 2 + b % 2) % 2, n);
  }

  lemma XorStep(a: nat, b: nat)
    ensures Xor(a, b) == (a % 2 + b % 2) % 2 + 2 * Xor(a / 2, b / 2)
  {
  }

  lemma FlipDouble(y: nat, low: nat, n: nat)
    requires low < 2 && n > 0
    ensures Flip(low + 2 * y, 2 * n) == low + 2 * Flip(y, n)
  {
    var q, r := y / n, y % n;
    assert 2 * y == 2 * (n * q) + 2 * r;
    assert 2 * (n * q) == (2 * n) * q;
    Quotient(low + 2 * y, 2 * n, q, low + 2 * r);
  }

  lemma Quotient(a: nat, b: nat, q: nat, r: nat)
    requires b > 0 && r < b && a == b * q + r
    ensures a / b == q
  {
    assert b * (a / b - q) == r - a % b;
    Multiple(b, a / b - q);
  }

  lemma Multiple(b: int, d: int)
    requires b > 0
    ensures d >= 1 ==> b * d >= b
    ensures d <= -1 ==> b * d <= -b
  {
    if d >= 1 {
      assert b * (d - 1) >= 0;
    } else if d <= -1 {
      assert b * (-d - 1) >= 0;
    }
  }

  /** A step shifts right by one and, after an odd state, takes the exclusive-or with 0xB400. */
  lemma StepIsXor(state: nat)
    ensures LfsrStep(state) == if state % 2 == 1 then Xor(state / 2, 0xB400) else state / 2
  {
    hide Xor, Power, Flip;
    var x := state / 2;
    Powers();
    XorZero(x);
    XorBit(x, 0, 10);
    XorBit(x, 0x400, 12);
    XorBit(x, 0x1400, 13);
    XorBit(x, 0x3400, 15);
  }

  lemma Powers()
    ensures Power(10) == 0x400 && Power(12) == 0x1000 && Power(13) == 0x2000 && Power(15) == 0x8000
  {
    assert Power(5) == 32;
    assert Power(10) == 0x400;
  }

  lemma Flip10(x: int)
    requires 0 <= x < Q15
    ensures 0 <= Flip(x, 0x400) < Q15
  {
  }

  lemma Flip12(x: int)
    requires 0 <= x < Q15
    ensures 0 <= Flip(x, 0x1000) < Q15
  {
  }

  lemma Flip13(x: int)
    requires 0 <= x < Q15
    ensures 0 <= Flip(x, 0x2000) < Q15
  {
  }

  /** The noise generator never reaches zero. */
  lemma LfsrStays(state: int)
    requires 0 < state < 2 * Q15
    ensures 0 < LfsrStep(state) < 2 * Q15
  {
    if state % 2 == 1 {
      var x := state / 2;
      Flip10(x);
      Flip12(Flip(x, 0x400));
      Flip13(Flip(Flip(x, 0x400), 0x1000));
    }
  }

  lemma {:induction false} LfsrNeverZero(seed: int, n: nat)
    requires 0 < seed < 2 * Q15
    ensures 0 < Lfsr(seed, n) < 2 * Q15
  {
    if n > 0 {
      LfsrNeverZero(seed, n - 1);
      LfsrStays(Lfsr(seed, n - 1));
    }
  }

  lemma NcoBound(phase: int, p: Params)
    requires Tabled(p)
    ensures -Q15 < Nco(phase, p.lut) < Q15
  {
  }

  lemma Product(a: int, b: int, m: int, n: int)
    requires 0 <= m && 0 <= n && -m <= a <= m && -n <= b <= n
    ensures -(m * n) <= a * b <= m * n
  {
    var x, y := Abs(a), Abs(b);
    assert x * y <= m * y by {
      assert (m - x) * y >= 0;
    }
    assert m * y <= m * n by {
      assert m * (n - y) >= 0;
    }
    assert a * b == x * y || a * b == -(x * y);
  }

  /** Scaling by an amplitude below one never makes a sample larger than the amplitude. */
  lemma ScaledBound(sample: int, amplitude: int)
    requires -Q15 < sample < Q15 && 0 <= amplitude < Q15
    ensures -amplitude <= RoundShift(sample * amplitude, Q15) <= amplitude
  {
    Product(sample, amplitude, Q15 - 1, amplitude);
  }

  /** Source plus noise of an accepted profile overshoots the converter by at most one step, so clamping moves
      a sample by at most one; neither summand is ever clamped itself. */
  lemma AdcBound(p: Params, words: ConfigModel.Words, phase: int, state: int)
    requires Tabled(p) && FromProfile(p, words) && 0 < state < 2 * Q15
    ensures var source := RoundShift(Nco(phase + QUARTER_PHASE, p.lut) * p.signalAmplitude, Q15);
      var noise := RoundShift((state - Q15) * p.noiseAmplitude, Q15);
      && Source(p, phase) == source && Noise(p, state) == noise
      && -Q15 <= source + noise <= Q15
      && Adc(p, phase, state) == if source + noise == Q15 then Q15 - 1 else source + noise
  {
    ConfigModel.AcceptedProfile(words);
    NcoBound(phase + QUARTER_PHASE, p);
    ScaledBound(Nco(phase + QUARTER_PHASE, p.lut), p.signalAmplitude);
    ScaledBound(state - Q15, p.noiseAmplitude);
    hide Nco, RoundShift;
  }

  /** So in every sample of a run of an accepted profile: the generator's state is never zero and the converter's
      value is off by at most one step. */
  lemma AcceptedSignal(p: Params, words: ConfigModel.Words, i: nat)
    requires Tabled(p) && FromProfile(p, words)
    ensures 0 < Lfsr(p.seed, i + 1) < 2 * Q15
    ensures var source := RoundShift(Nco(SignalPhase(p, i) + QUARTER_PHASE, p.lut) * p.signalAmplitude, Q15);
      var noise := RoundShift((Lfsr(p.seed, i + 1) - Q15) * p.noiseAmplitude, Q15);
      -Q15 <= source + noise <= Q15 && source + noise - 1 <= AdcAt(p, i) <= source + noise
  {
    hide Nco, RoundShift, Lfsr, SignalPhase, ConfigModel.Check, Source, Noise;
    ConfigModel.AcceptedProfile(words);
    LfsrNeverZero(p.seed, i + 1);
    AdcBound(p, words, SignalPhase(p, i), Lfsr(p.seed, i + 1));
  }

  lemma MixedProduct(adc: int, lo: int)
    requires -Q15 <= adc < Q15 && -Q15 < lo < Q15
    ensures -MIXER_LIMIT <= RoundShift(adc * lo, MIXER_UNIT) < MIXER_LIMIT
    ensures -MIXER_LIMIT <= RoundShift(-adc * lo, MIXER_UNIT) < MIXER_LIMIT
  {
    Product(adc, lo, Q15, Q15 - 1);
    Product(-adc, lo, Q15, Q15 - 1);
  }

  /** The 18-bit clamp after the mixer never acts. */
  lemma MixerNeverClamps(p: Params, adc: int, lo: int)
    requires Tabled(p) && -Q15 <= adc < Q15
    ensures MixI(p, adc, lo) == RoundShift(adc * Nco(lo + QUARTER_PHASE, p.lut), MIXER_UNIT)
    ensures MixQ(p, adc, lo) == RoundShift(-adc * Nco(lo, p.lut), MIXER_UNIT)
    ensures -MIXER_LIMIT <= MixI(p, adc, lo) < MIXER_LIMIT && -MIXER_LIMIT <= MixQ(p, adc, lo) < MIXER_LIMIT
  {
    NcoBound(lo + QUARTER_PHASE, p);
    NcoBound(lo, p);
    MixedProduct(adc, Nco(lo + QUARTER_PHASE, p.lut));
    MixedProduct(adc, Nco(lo, p.lut));
    hide Nco, RoundShift;
  }

  /** Filtering any 18-bit samples with any 18-bit taps stays within 48 bits. */
  lemma {:induction false} FilterFits(samples: seq<int>, taps: Fir, i: nat, n: nat)
    requires n <= TAPS && n <= i + 1 <= |samples|
    requires forall j | 0 <= j < |samples| :: -MIXER_LIMIT <= samples[j] < MIXER_LIMIT
    requires forall j | 0 <= j < TAPS :: -MIXER_LIMIT <= taps[j] < MIXER_LIMIT
    ensures -(n * (MIXER_LIMIT * MIXER_LIMIT)) <= Convolve(samples, taps, i, n) <= n * (MIXER_LIMIT * MIXER_LIMIT)
    ensures -ACCUMULATOR_LIMIT <= Convolve(samples, taps, i, n) < ACCUMULATOR_LIMIT
  {
    if n > 0 {
      FilterFits(samples, taps, i, n - 1);
      Product(samples[i - (n - 1)], taps[n - 1], MIXER_LIMIT, MIXER_LIMIT);
    }
  }

  predicate Fits(sum: int) {
    -ACCUMULATOR_LIMIT <= sum < ACCUMULATOR_LIMIT
  }

  /** Whether neither accumulator overflows at output `k`. */
  predicate WordFits(p: Params, k: nat) {
    var s := Samples(p, Index(k) + 1);
    Fits(SumAt(s.0, p.taps, k)) && Fits(SumAt(s.1, p.taps, k))
  }

  /** The mixer outputs have 18 bits whatever the parameters, so with 18-bit taps neither filter sum overflows. */
  lemma NoOverflow(p: Params, k: nat)
    requires Tapped(p)
    ensures WordFits(p, k)
  {
    hide Convolve, RoundShift, Nco, Lfsr, SignalPhase, LoPhase, Adc;
    var i := Index(k);
    var s := Samples(p, i + 1);
    FilterFits(s.0, p.taps, i, ValidTaps(i));
    FilterFits(s.1, p.taps, i, ValidTaps(i));
  }
}
