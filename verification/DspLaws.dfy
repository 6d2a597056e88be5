/** What the samples and words of DspModel mean, said a second way: the oscillator as a full wave, phases in closed
    form, rounding as the nearest multiple, the filter by its impulse response, the words by their signed halves. */
module DspLaws {
  import opened Protocol
  import opened DspModel

  // ----- rounding and clipping -----

  /** `r` is the whole number nearest to `value` / `unit`, the one farther from zero when two are equally near. */
  predicate Rounded(r: int, value: int, unit: nat) {
    var error := 2 * Abs(r * unit - value);
    error < unit || (error == unit && Abs(r * unit) > Abs(value))
  }

  /** `r` is `value` / `unit` rounded, or the end of the range beyond which `value` lies. */
  predicate Fixed(r: int, value: int, unit: nat, limit: int) {
    && -limit <= r < limit
    && (Rounded(r, value, unit) || (r == limit - 1 && value > r * unit) || (r == -limit && value < r * unit))
  }

  /** Units are even: powers of two from two on. */
  lemma RoundShiftNearest(value: int, unit: nat)
    requires unit > 0 && unit % 2 == 0
    ensures Rounded(RoundShift(value, unit), value, unit)
  {
    var a := Abs(value);
    var r := (a + unit / 2) / unit;
    NearestAbove(a, unit);
    assert RoundShift(value, unit) == if value >= 0 then r else -r;
    assert r >= 0 && r * unit >= 0 && -r * unit == -(r * unit);
    hide RoundShift;
  }

  lemma NearestAbove(a: nat, unit: nat)
    requires unit > 0 && unit % 2 == 0
    ensures 0 < unit + 2 * ((a + unit / 2) / unit * unit - a) <= 2 * unit
  {
    var x := a + unit / 2;
    assert x / unit * unit + x % unit == x;
  }

  /** Rounding has one result. */
  lemma RoundedOnce(r: int, s: int, value: int, unit: nat)
    requires Rounded(r, value, unit) && Rounded(s, value, unit)
    ensures r == s
  {
    if r > s {
      RoundedOrder(r, s, value, unit);
    } else if s > r {
      RoundedOrder(s, r, value, unit);
    }
  }

  lemma RoundedOrder(r: int, s: int, value: int, unit: nat)
    requires Rounded(r, value, unit) && Rounded(s, value, unit) && unit > 0
    ensures r <= s
  {
    if r > s {
      Multiple(unit, r - s);
      assert unit * (r - s) == r * unit - s * unit;
      assert r == s + 1 || unit * (r - s) >= 2 * unit by {
        Multiple(unit, r - s - 1);
        assert unit * (r - s - 1) == unit * (r - s) - unit;
      }
      assert false;
    }
  }

  /** Rounding and clipping as the source does both. */
  lemma Scaled(value: int, unit: nat, limit: int)
    requires unit > 0 && unit % 2 == 0 && limit > 0
    ensures Fixed(Saturate(RoundShift(value, unit), limit), value, unit, limit)
  {
    hide RoundShift, Rounded;
    RoundShiftNearest(value, unit);
    Clipped(RoundShift(value, unit), value, unit, limit);
  }

  lemma Clipped(r: int, value: int, unit: nat, limit: int)
    requires unit > 0 && limit > 0 && Rounded(r, value, unit)
    ensures Fixed(Saturate(r, limit), value, unit, limit)
  {
    if r > limit - 1 {
      Beyond(r, limit - 1, value, unit);
    } else if r < -limit {
      Beyond(-r, limit, -value, unit);
      assert (-r) * unit == -(r * unit);
      assert -limit * unit == -(limit * unit);
    }
  }

  lemma Beyond(r: int, end: int, value: int, unit: nat)
    requires unit > 0 && 0 <= end < r && 2 * (r * unit - value) <= unit
    ensures value > end * unit
  {
    Multiple(unit, r - end);
    assert unit * (r - end) == r * unit - end * unit;
  }

  // ----- the oscillator -----

  /** A full wave of 4096 steps from a quarter wave of 1025 entries: up, down, and both again below zero. */
  function Wave(lut: Lut, phase: int): int {
    var k := phase / 1048576 % 4096;
    if k < 1024 then lut[k] else if k < 2048 then lut[2048 - k]
    else if k < 3072 then -lut[k - 2048] else -lut[4096 - k]
  }

  lemma NcoIsWave(phase: int, lut: Lut)
    ensures Nco(phase, lut) == Wave(lut, phase)
  {
    StepOf(phase);
  }

  lemma StepOf(phase: int)
    ensures phase % PHASES / PHASES_PER_ENTRY == phase / 1048576 % 4096
  {
  }

  /** The oscillator's laws: it repeats after a turn, changes sign after half a turn, is a mirror image about the
      quarter, keeps a value for 2^20 phases, starts with the table, and so has these values at the quarters. */
  lemma NcoLaws(phase: int, lut: Lut, k: nat)
    requires k <= 1024
    ensures Nco(phase + 0x1_0000_0000, lut) == Nco(phase, lut)
    ensures Nco(phase + 0x8000_0000, lut) == -Nco(phase, lut)
    ensures Nco(phase / 0x10_0000 * 0x10_0000, lut) == Nco(phase, lut)
    ensures k > 0 ==> Nco(0x8000_0000 - k * 0x10_0000, lut) == Nco(k * 0x10_0000, lut)
    ensures Nco(k * 0x10_0000, lut) == lut[k]
    ensures Nco(0, lut) == lut[0] && Nco(0x4000_0000, lut) == lut[1024]
    ensures Nco(0x8000_0000, lut) == -lut[0] && Nco(0xC000_0000, lut) == -lut[1024]
  {
    hide Nco;
    forall x: int
      ensures Nco(x, lut) == Wave(lut, x)
    {
      NcoIsWave(x, lut);
    }
    assert (phase + 0x8000_0000) / 1048576 == phase / 1048576 + 2048;
    assert (phase + 0x1_0000_0000) / 1048576 == phase / 1048576 + 4096;
  }

  // ----- phases and samples -----

  lemma {:induction false} SignalPhaseAt(p: Params, n: nat)
    ensures SignalPhase(p, n) == (p.signalPhase + n * p.signalIncrement) % PHASES
  {
    if n > 0 {
      SignalPhaseAt(p, n - 1);
      Advance(p.signalPhase, p.signalIncrement, n);
    }
  }

  lemma {:induction false} LoPhaseAt(p: Params, n: nat)
    ensures LoPhase(p, n) == (p.loPhase + n * p.loIncrement) % PHASES
  {
    if n > 0 {
      LoPhaseAt(p, n - 1);
      Advance(p.loPhase, p.loIncrement, n);
    }
  }

  /** A phase is where `n` equal steps lead. */
  lemma PhasesAt(p: Params, n: nat)
    ensures SignalPhase(p, n) == (p.signalPhase + n * p.signalIncrement) % 0x1_0000_0000
    ensures LoPhase(p, n) == (p.loPhase + n * p.loIncrement) % 0x1_0000_0000
  {
    SignalPhaseAt(p, n);
    LoPhaseAt(p, n);
  }

  lemma Advance(start: U32, increment: U32, n: nat)
    requires n > 0
    ensures ((start + (n - 1) * increment) % PHASES + increment) % PHASES == (start + n * increment) % PHASES
  {
    var before := start + (n - 1) * increment;
    assert before + increment == start + n * increment;
    Wrapped(before, increment);
  }

  lemma Wrapped(a: int, b: int)
    ensures (a % PHASES + b) % PHASES == (a + b) % PHASES
  {
  }

  lemma WaveTurns(lut: Lut, a: int, shift: int)
    ensures Wave(lut, a % 0x1_0000_0000 + shift) == Wave(lut, a + shift)
  {
    var turns := a / 0x1_0000_0000;
    assert a + shift == a % 0x1_0000_0000 + shift + 4096 * turns * 1048576;
    assert (a + shift) / 1048576 == (a % 0x1_0000_0000 + shift) / 1048576 + 4096 * turns;
  }

  /** Input sample `n` before the mixer: a cosine at the signal's phase and the noise after `n` + 1 steps of the
      generator, each scaled by its amplitude, together. */
  lemma AdcMeans(p: Params, n: nat)
    ensures var phase := p.signalPhase + n * p.signalIncrement;
      var state := Lfsr(p.seed, n + 1);
      var source, noise := Source(p, SignalPhase(p, n)), Noise(p, state);
      && Fixed(source, Wave(p.lut, phase + 0x4000_0000) * p.signalAmplitude, 0x8000, 0x8000)
      && Fixed(noise, (state - 0x8000) * p.noiseAmplitude, 0x8000, 0x8000)
      && Fixed(AdcAt(p, n), source + noise, 1, 0x8000)
  {
    hide Nco, RoundShift, Fixed, Wave, Lfsr, SignalPhase, LoPhase;
    var phase := SignalPhase(p, n) + QUARTER_PHASE;
    PhasesAt(p, n);
    WaveTurns(p.lut, p.signalPhase + n * p.signalIncrement, QUARTER_PHASE);
    NcoIsWave(phase, p.lut);
    Scaled(Nco(phase, p.lut) * p.signalAmplitude, Q15, Q15);
    Scaled((Lfsr(p.seed, n + 1) - Q15) * p.noiseAmplitude, Q15, Q15);
    Sums(Source(p, SignalPhase(p, n)) + Noise(p, Lfsr(p.seed, n + 1)));
  }

  lemma Sums(value: int)
    ensures Fixed(Saturate(value, Q15), value, 1, 0x8000)
  {
  }

  /** And after the mixer: times the local oscillator's cosine, and times its sine with the sign changed. */
  lemma MixerMeans(p: Params, n: nat)
    ensures var phase := p.loPhase + n * p.loIncrement;
      && Fixed(InPhase(p, n), AdcAt(p, n) * Wave(p.lut, phase + 0x4000_0000), 0x2000, 0x2_0000)
      && Fixed(Quadrature(p, n), -AdcAt(p, n) * Wave(p.lut, phase), 0x2000, 0x2_0000)
  {
    hide Nco, RoundShift, Fixed, Wave, AdcAt, LoPhase;
    var phase := LoPhase(p, n);
    PhasesAt(p, n);
    WaveTurns(p.lut, p.loPhase + n * p.loIncrement, QUARTER_PHASE);
    WaveTurns(p.lut, p.loPhase + n * p.loIncrement, 0);
    NcoIsWave(phase + QUARTER_PHASE, p.lut);
    NcoIsWave(phase, p.lut);
    Scaled(AdcAt(p, n) * Nco(phase + QUARTER_PHASE, p.lut), MIXER_UNIT, MIXER_LIMIT);
    Scaled(-AdcAt(p, n) * Nco(phase, p.lut), MIXER_UNIT, MIXER_LIMIT);
  }

  /** A quarter turn of the local oscillator takes the one output to the other. */
  lemma QuarterTurn(p: Params, adc: int, lo: int)
    ensures MixI(p, adc, lo + 0x4000_0000) == MixQ(p, adc, lo)
  {
    hide Nco, RoundShift, Saturate;
    NcoLaws(lo, p.lut, 0);
    assert adc * -Nco(lo, p.lut) == -adc * Nco(lo, p.lut);
  }

  // ----- the filter -----

  predicate Impulse(samples: seq<int>, j: nat) {
    j < |samples| && forall i | 0 <= i < |samples| :: samples[i] == if i == j then 1 else 0
  }

  /** One sample of one at input `j` gives output `k` the tap as many inputs later, of 217. */
  lemma ImpulseResponse(samples: seq<int>, taps: Fir, j: nat, k: nat)
    requires Impulse(samples, j) && 16 * k + 15 < |samples|
    ensures var delay := 16 * k + 15 - j;
      SumAt(samples, taps, k) == if 0 <= delay < 217 then taps[delay] else 0
  {
    ConvolveImpulse(samples, taps, j, Index(k), ValidTaps(Index(k)));
  }

  lemma {:induction false} ConvolveImpulse(samples: seq<int>, taps: Fir, j: nat, i: nat, n: nat)
    requires Impulse(samples, j) && n <= TAPS && n <= i + 1 <= |samples|
    ensures Convolve(samples, taps, i, n) == if 0 <= i - j < n then taps[i - j] else 0
  {
    if n > 0 {
      ConvolveImpulse(samples, taps, j, i, n - 1);
    }
  }

  /** The filter is linear. */
  lemma FilterLinear(a: seq<int>, b: seq<int>, sum: seq<int>, x: int, taps: Fir, k: nat)
    requires |a| == |b| == |sum| && 16 * k + 15 < |sum|
    requires forall i | 0 <= i < |sum| :: sum[i] == a[i] + x * b[i]
    ensures SumAt(sum, taps, k) == SumAt(a, taps, k) + x * SumAt(b, taps, k)
  {
    ConvolveLinear(a, b, sum, x, taps, Index(k), ValidTaps(Index(k)));
  }

  lemma {:induction false} ConvolveLinear(
    a: seq<int>, b: seq<int>, sum: seq<int>, x: int, taps: Fir, i: nat, n: nat)
    requires |a| == |b| == |sum| && n <= TAPS && n <= i + 1 <= |sum|
    requires forall i | 0 <= i < |sum| :: sum[i] == a[i] + x * b[i]
    ensures Convolve(sum, taps, i, n) == Convolve(a, taps, i, n) + x * Convolve(b, taps, i, n)
  {
    if n > 0 {
      ConvolveLinear(a, b, sum, x, taps, i, n - 1);
      Distribute(a[i - (n - 1)], b[i - (n - 1)], x, taps[n - 1], Convolve(b, taps, i, n - 1));
    }
  }

  lemma Distribute(a: int, b: int, x: int, t: int, c: int)
    ensures (a + x * b) * t + x * c == a * t + x * (c + b * t)
  {
  }

  // ----- the words -----

  /** The low half of word `k` is the filtered in-phase sum, the high half the quadrature one, each over the samples
      up to input 16k + 15 and each 1/2^19 of the sum, rounded and clipped to sixteen bits. */
  lemma WordMeans(p: Params, k: nat, inPhase: seq<int>, quadrature: seq<int>)
    requires |inPhase| == |quadrature| == 16 * k + 16
    requires forall j | 0 <= j < 16 * k + 16 :: inPhase[j] == InPhase(p, j) && quadrature[j] == Quadrature(p, j)
    ensures Fixed(Signed16(Word(p, k) % 0x1_0000), SumAt(inPhase, p.taps, k), 0x8_0000, 0x8000)
    ensures Fixed(Signed16(Word(p, k) / 0x1_0000), SumAt(quadrature, p.taps, k), 0x8_0000, 0x8000)
  {
    hide InPhase, Quadrature, RoundShift, Fixed, SumAt, Word;
    var s := Samples(p, Index(k) + 1);
    assert s.0 == inPhase && s.1 == quadrature;
    var sumI, sumQ := SumAt(inPhase, p.taps, k), SumAt(quadrature, p.taps, k);
    Scaled(sumI, OUTPUT_UNIT, Q15);
    Scaled(sumQ, OUTPUT_UNIT, Q15);
    WordHalves(p, k);
  }

  // ----- a tone, word for word -----

  /** A full-scale tone that stands still, no noise, a filter of its first tap alone. */
  predicate Standing(p: Params) {
    && p.signalIncrement == p.loIncrement == p.signalPhase == p.noiseAmplitude == 0 && p.signalAmplitude == 0x7fff
    && p.lut[0] == 0 && p.lut[1024] == 32767
    && p.taps[0] == 131071 && forall i | 1 <= i < 217 :: p.taps[i] == 0
  }

  lemma StandingSample(p: Params, n: nat)
    requires Standing(p)
    ensures AdcAt(p, n) == 32766
    ensures p.loPhase == 0 ==> InPhase(p, n) == 131060 && Quadrature(p, n) == 0
    ensures p.loPhase == 0x4000_0000 ==> InPhase(p, n) == 0 && Quadrature(p, n) == -131060
  {
    hide Nco, Lfsr;
    PhasesAt(p, n);
    NcoLaws(0, p.lut, 0);
    var noise := (Lfsr(p.seed, n + 1) - Q15) * p.noiseAmplitude;
    assert noise == 0;
  }

  lemma {:induction false} FirstTap(samples: seq<int>, taps: Fir, i: nat, n: nat)
    requires 1 <= n <= TAPS && n <= i + 1 <= |samples| && forall j | 1 <= j < 217 :: taps[j] == 0
    ensures Convolve(samples, taps, i, n) == samples[i] * taps[0]
  {
    if n == 1 {
      assert Convolve(samples, taps, i, 0) == 0;
    } else {
      FirstTap(samples, taps, i, n - 1);
    }
  }

  /** In phase with the local oscillator, every word is 0x7ffd; a quarter turn away, every word is 0x80030000. */
  lemma StandingWord(p: Params, k: nat)
    requires Standing(p)
    ensures p.loPhase == 0 ==> Word(p, k) == 0x0000_7ffd
    ensures p.loPhase == 0x4000_0000 ==> Word(p, k) == 0x8003_0000
  {
    hide InPhase, Quadrature, Convolve;
    var s := Samples(p, Index(k) + 1);
    StandingSample(p, Index(k));
    FirstTap(s.0, p.taps, Index(k), ValidTaps(Index(k)));
    FirstTap(s.1, p.taps, Index(k), ValidTaps(Index(k)));
  }
}
