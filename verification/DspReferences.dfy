/** The two DSP references as they run: the streaming loop of qcrate_dsp_reference.py and the batch passes of
    qcrate_dsp.py, proved to compute the same words. */
module DspReferences {
  import opened Protocol
  import opened DspModel

  lemma SamplesNext(p: Params, n: nat)
    ensures Samples(p, n + 1).0 == Samples(p, n).0 + [InPhase(p, n)]
    ensures Samples(p, n + 1).1 == Samples(p, n).1 + [Quadrature(p, n)]
  {
    hide InPhase, Quadrature;
  }

  /** The filter sum at input `i`. */
  method Filter(samples: seq<int>, taps: Fir, i: nat) returns (sum: int)
    requires i < |samples|
    ensures sum == Convolve(samples, taps, i, ValidTaps(i))
  {
    sum := 0;
    for tap := 0 to ValidTaps(i)
      invariant sum == Convolve(samples, taps, i, tap)
    {
      sum := sum + samples[i - tap] * taps[tap];
    }
  }

  // ----- the streaming reference -----

  /** `generate_words` after its parameters are read; it wants at least one word. */
  method GenerateWords(p: Params, outputCount: nat) returns (ok: bool, words: seq<U32>)
    ensures ok <==> outputCount > 0
    ensures ok ==> |words| == outputCount && forall k | 0 <= k < outputCount ::
                     words[k] == Word(p, k) && Halves(p, k, words[k])
  {
    hide Word, Halves, Samples, InPhase, Quadrature, Convolve;
    words := [];
    if outputCount < 1 {
      return false, words;
    }
    var mixedI, mixedQ := [], [];
    var signalPhase, loPhase, lfsr := p.signalPhase, p.loPhase, p.seed;
    NoSamples(p);
    for i := 0 to outputCount * DECIMATION
      invariant mixedI == Samples(p, i).0 && mixedQ == Samples(p, i).1
      invariant signalPhase == SignalPhase(p, i) && loPhase == LoPhase(p, i) && lfsr == Lfsr(p.seed, i)
      invariant |words| == i / DECIMATION && forall k | 0 <= k < |words| ::
        words[k] == Word(p, k) && Halves(p, k, words[k])
    {
      hide Lfsr, SignalPhase, LoPhase, LfsrStep;
      SamplesNext(p, i);
      StateNext(p, i);
      lfsr := LfsrStep(lfsr);
      var adc := Adc(p, signalPhase, lfsr);
      mixedI := mixedI + [MixI(p, adc, loPhase)];
      mixedQ := mixedQ + [MixQ(p, adc, loPhase)];
      signalPhase := (signalPhase + p.signalIncrement) % PHASES;
      loPhase := (loPhase + p.loIncrement) % PHASES;
      if i % DECIMATION == DECIMATION - 1 {
        var sumI := Filter(mixedI, p.taps, i);
        var sumQ := Filter(mixedQ, p.taps, i);
        assert i == Index(i / DECIMATION);
        WordAt(p, i / DECIMATION, mixedI, mixedQ);
        WordHalves(p, i / DECIMATION);
        words := words + [Pack(Narrow(sumI), Narrow(sumQ))];
      }
    }
    ok := true;
  }

  lemma NoSamples(p: Params)
    ensures Samples(p, 0) == ([], [])
  {
  }

  lemma StateNext(p: Params, i: nat)
    ensures SignalPhase(p, i + 1) == (SignalPhase(p, i) + p.signalIncrement) % PHASES
    ensures LoPhase(p, i + 1) == (LoPhase(p, i) + p.loIncrement) % PHASES
    ensures Lfsr(p.seed, i + 1) == LfsrStep(Lfsr(p.seed, i))
    ensures InPhase(p, i) == MixI(p, Adc(p, SignalPhase(p, i), Lfsr(p.seed, i + 1)), LoPhase(p, i))
    ensures Quadrature(p, i) == MixQ(p, Adc(p, SignalPhase(p, i), Lfsr(p.seed, i + 1)), LoPhase(p, i))
  {
    hide LfsrStep, MixI, MixQ, Adc;
  }

  /** Every sixteenth sample completes a word, whatever comes after it. */
  lemma WordAt(p: Params, k: nat, mixedI: seq<int>, mixedQ: seq<int>)
    requires Index(k) < |mixedI| == |mixedQ|
    requires mixedI == Samples(p, |mixedI|).0 && mixedQ == Samples(p, |mixedQ|).1
    ensures var s := Samples(p, Index(k) + 1);
      SumAt(mixedI, p.taps, k) == SumAt(s.0, p.taps, k) && SumAt(mixedQ, p.taps, k) == SumAt(s.1, p.taps, k)
    ensures Word(p, k) == Pack(Narrow(SumAt(mixedI, p.taps, k)), Narrow(SumAt(mixedQ, p.taps, k)))
  {
    hide InPhase, Quadrature, Convolve, Narrow, Pack;
    var s := Samples(p, Index(k) + 1);
    SamePrefix(p, Index(k) + 1, |mixedI|);
    ConvolveLocal(s.0, mixedI, p.taps, Index(k), ValidTaps(Index(k)));
    ConvolveLocal(s.1, mixedQ, p.taps, Index(k), ValidTaps(Index(k)));
  }

  lemma SamePrefix(p: Params, m: nat, n: nat)
    requires m <= n
    ensures forall j | 0 <= j < m ::
      Samples(p, m).0[j] == Samples(p, n).0[j] && Samples(p, m).1[j] == Samples(p, n).1[j]
  {
    hide InPhase, Quadrature;
  }

  // ----- the batch reference -----

  /** `lfsr16_noise`; it wants a nonzero 16-bit seed. */
  method LfsrNoise(count: nat, seed: int) returns (ok: bool, noise: array<int>)
    ensures ok <==> 0 < seed < 2 * Q15
    ensures fresh(noise) && (ok ==> noise.Length == count)
    ensures ok ==> forall i | 0 <= i < count :: noise[i] == Lfsr(seed, i + 1) - Q15
  {
    noise := new int[count];
    if !(0 < seed < 2 * Q15) {
      return false, noise;
    }
    ok := true;
    var state := seed;
    for i := 0 to count
      invariant state == Lfsr(seed, i)
      invariant forall j | 0 <= j < i :: noise[j] == Lfsr(seed, j + 1) - Q15
    {
      hide LfsrStep;
      state := LfsrStep(state);
      noise[i] := state - Q15;
    }
  }

  /** `_run_fixed_frontend`. */
  method RunFrontend(p: Params, noise: array<int>) returns (mixedI: array<int>, mixedQ: array<int>)
    requires forall i | 0 <= i < noise.Length :: noise[i] == Lfsr(p.seed, i + 1) - Q15
    ensures fresh(mixedI) && fresh(mixedQ)
    ensures mixedI[..] == Samples(p, noise.Length).0 && mixedQ[..] == Samples(p, noise.Length).1
  {
    hide Samples, InPhase, Quadrature;
    mixedI, mixedQ := new int[noise.Length], new int[noise.Length];
    var signalPhase, loPhase := p.signalPhase, p.loPhase;
    NoSamples(p);
    for i := 0 to noise.Length
      invariant fresh(mixedI) && fresh(mixedQ) && mixedI != mixedQ
      invariant mixedI[..i] == Samples(p, i).0 && mixedQ[..i] == Samples(p, i).1
      invariant signalPhase == SignalPhase(p, i) && loPhase == LoPhase(p, i)
    {
      hide Lfsr, SignalPhase, LoPhase, Adc, MixI, MixQ;
      SamplesNext(p, i);
      StateNext(p, i);
      var adc := Adc(p, signalPhase, noise[i] + Q15);
      mixedI[i] := MixI(p, adc, loPhase);
      mixedQ[i] := MixQ(p, adc, loPhase);
      signalPhase := (signalPhase + p.signalIncrement) % PHASES;
      loPhase := (loPhase + p.loIncrement) % PHASES;
    }
  }

  /** `run_fixed_fir`: nothing when there is less than one word's input, or when an accumulator overflows. */
  method RunFir(mixedI: seq<int>, mixedQ: seq<int>, taps: Fir) returns (ok: bool, outI: seq<int>, outQ: seq<int>)
    requires |mixedI| == |mixedQ|
    ensures ok <==> |mixedI| >= DECIMATION && forall k | 0 <= k < |mixedI| / DECIMATION ::
                      Fits(SumAt(mixedI, taps, k)) && Fits(SumAt(mixedQ, taps, k))
    ensures ok ==> |outI| == |outQ| == |mixedI| / DECIMATION
    ensures ok ==> forall k | 0 <= k < |outI| ::
                     outI[k] == Narrow(SumAt(mixedI, taps, k)) && outQ[k] == Narrow(SumAt(mixedQ, taps, k))
  {
    hide Convolve, Narrow, Fits;
    outI, outQ := [], [];
    if |mixedI| < DECIMATION {
      return false, outI, outQ;
    }
    for k := 0 to |mixedI| / DECIMATION
      invariant |outI| == |outQ| == k
      invariant forall j | 0 <= j < k :: Fits(SumAt(mixedI, taps, j)) && Fits(SumAt(mixedQ, taps, j))
      invariant forall j | 0 <= j < k ::
        outI[j] == Narrow(SumAt(mixedI, taps, j)) && outQ[j] == Narrow(SumAt(mixedQ, taps, j))
    {
      var i := (k + 1) * DECIMATION - 1;
      assert i == Index(k);
      var sumI := Filter(mixedI, taps, i);
      var sumQ := Filter(mixedQ, taps, i);
      assert sumI == SumAt(mixedI, taps, k) && sumQ == SumAt(mixedQ, taps, k);
      if !Fits(sumI) || !Fits(sumQ) {
        return false, outI, outQ;
      }
      outI := outI + [Narrow(sumI)];
      outQ := outQ + [Narrow(sumQ)];
    }
    ok := true;
  }

  /** `pack_iq_words`. */
  method PackWords(outI: seq<int>, outQ: seq<int>) returns (words: seq<U32>)
    requires |outI| == |outQ|
    ensures |words| == |outI| && forall k | 0 <= k < |words| :: words[k] == Pack(outI[k], outQ[k])
    ensures forall k | 0 <= k < |words| ::
      words[k] % 0x1_0000 == outI[k] % 0x1_0000 && words[k] / 0x1_0000 == outQ[k] % 0x1_0000
  {
    words := [];
    forall i, q: int ensures Pack(i, q) % 0x1_0000 == i % 0x1_0000 && Pack(i, q) / 0x1_0000 == q % 0x1_0000 {
      PackHalves(i, q);
    }
    for k := 0 to |outI|
      invariant |words| == k && forall j | 0 <= j < k :: words[j] == Pack(outI[j], outQ[j])
    {
      words := words + [Pack(outI[k], outQ[k])];
    }
  }

  /** The fixed-point half of `run_model`, for any parameters: it fails for no output, for a bad seed and for an
      accumulator that overflows, and otherwise yields the words the streaming reference generates. */
  method RunModel(p: Params, outputCount: nat) returns (ok: bool, packed: seq<U32>)
    ensures ok <==> outputCount > 0 && 0 < p.seed < 2 * Q15 && forall k | 0 <= k < outputCount :: WordFits(p, k)
    ensures ok ==> |packed| == outputCount && forall k | 0 <= k < outputCount ::
                     packed[k] == Word(p, k) && Halves(p, k, packed[k])
  {
    hide Halves, Samples, SumAt, Word, Fits, Narrow;
    packed := [];
    var n := outputCount * DECIMATION;
    var noise;
    ok, noise := LfsrNoise(n, p.seed);
    if !ok || outputCount < 1 {
      return false, packed;
    }
    var mixedI, mixedQ := RunFrontend(p, noise);
    var sI, sQ := mixedI[..], mixedQ[..];
    forall k | 0 <= k < outputCount
      ensures Index(k) < |sI| == |sQ|
      ensures WordFits(p, k) <==> Fits(SumAt(sI, p.taps, k)) && Fits(SumAt(sQ, p.taps, k))
      ensures Word(p, k) == Pack(Narrow(SumAt(sI, p.taps, k)), Narrow(SumAt(sQ, p.taps, k)))
    {
      WordAt(p, k, sI, sQ);
    }
    forall k: nat ensures Halves(p, k, Word(p, k)) {
      WordHalves(p, k);
    }
    var outI, outQ;
    ok, outI, outQ := RunFir(sI, sQ, p.taps);
    if ok {
      packed := PackWords(outI, outQ);
    }
  }

  /** Both references on the same parameters: with a 16-bit seed and 18-bit taps the batch model never fails, and
      the words are the same. */
  method Compare(p: Params, n: nat) returns (ok: bool, streamed: seq<U32>, batch: seq<U32>)
    requires Tapped(p)
    ensures ok <==> n > 0 && 0 < p.seed < 2 * Q15
    ensures ok ==> |streamed| == n && streamed == batch
  {
    hide Word, WordFits, Tapped;
    forall k: nat
      ensures WordFits(p, k)
    {
      NoOverflow(p, k);
    }
    var started;
    started, streamed := GenerateWords(p, n);
    ok, batch := RunModel(p, n);
  }

  /** A shorter streaming run is a prefix of a longer one, for any parameters. */
  method GenerateBoth(p: Params, m: nat, n: nat) returns (ok: bool, short: seq<U32>, long: seq<U32>)
    requires m <= n
    ensures ok <==> m > 0
    ensures ok ==> |short| == m && |long| == n && short <= long
  {
    hide Word;
    var started;
    ok, short := GenerateWords(p, m);
    started, long := GenerateWords(p, n);
  }
}
