/**
 * The engine's output analysis: the peak meter and the 2048-slot FFT
 * accumulator with its normalised half-spectrum.
 */
module Spectrum {
  import opened Numerics

  const FftLength: nat := 2048
  /** Bins published per transform: the half up to Nyquist. */
  const BinCount: nat := 1024

  datatype Complex = Complex(x: real, y: real)

  /**
   * NAudio's `FastFourierTransform.HammingWindow(n, frameSize)` and its
   * in-place forward `FFT`, as functions on values.
   */
  datatype FftLib = FftLib(hamming: (int, int) -> real, fft: seq<Complex> -> seq<Complex>)

  /** The one fact the model needs about the transform: it keeps the frame length. */
  ghost predicate FftLawful(lib: FftLib)
  {
    forall s: seq<Complex> {:trigger lib.fft(s)} :: |lib.fft(s)| == |s|
  }

  /** The largest magnitude in a chunk, starting from 0. */
  function MaxAbs(samples: seq<real>): (m: real)
    ensures m >= 0.0
  {
    if samples == [] then 0.0 else Max(MaxAbs(samples[..|samples| - 1]), Abs(samples[|samples| - 1]))
  }

  /** `MaxAbs` is the least upper bound of the magnitudes: above each, and one of them (or 0). */
  lemma {:induction false} MaxAbsIsMaximum(samples: seq<real>)
    ensures forall i :: 0 <= i < |samples| ==> Abs(samples[i]) <= MaxAbs(samples)
    ensures MaxAbs(samples) == 0.0 || exists i :: 0 <= i < |samples| && Abs(samples[i]) == MaxAbs(samples)
  {
    if samples != [] {
      var front := samples[..|samples| - 1];
      MaxAbsIsMaximum(front);
      assert forall i :: 0 <= i < |front| ==> samples[i] == front[i];
      if MaxAbs(samples) != 0.0 && MaxAbs(samples) != Abs(samples[|samples| - 1]) {
        var i :| 0 <= i < |front| && Abs(front[i]) == MaxAbs(front);
        assert Abs(samples[i]) == MaxAbs(samples);
      }
    }
  }

  /** One more sample: the running maximum as the loop keeps it. */
  lemma MaxAbsStep(samples: seq<real>, s: real)
    ensures MaxAbs(samples + [s]) == if Abs(s) > MaxAbs(samples) then Abs(s) else MaxAbs(samples)
  {
    assert (samples + [s])[..|samples|] == samples;
  }

  /** The level reported to the meter: `Math.Min(1, max)`, always in [0, 1]. */
  function PeakLevel(samples: seq<real>): (p: real)
    ensures 0.0 <= p <= 1.0
    ensures p == 1.0 || p == MaxAbs(samples)
  {
    Min(1.0, MaxAbs(samples))
  }

  /** A bin shown on the display: 20 log10 |c|, mapped from [-60, 0] dB to [0, 1] and clamped. */
  function NormalizeBin(c: Complex, math: MathLib): (v: real)
    ensures 0.0 <= v <= 1.0
  {
    var mag := math.sqrt(c.x * c.x + c.y * c.y);
    var db := 20.0 * math.log10(mag);
    Clamp((db + 60.0) / 60.0, 0.0, 1.0)
  }

  /** The published half-spectrum of a transformed frame. */
  function NormalizedSpectrum(frame: seq<Complex>, math: MathLib): (r: seq<real>)
    requires |frame| >= BinCount
    ensures |r| == BinCount
    ensures forall i :: 0 <= i < BinCount ==> r[i] == NormalizeBin(frame[i], math) && 0.0 <= r[i] <= 1.0
  {
    seq(BinCount, i requires 0 <= i < BinCount => NormalizeBin(frame[i], math))
  }

  /** The accumulator: the frame being filled and the write cursor. */
  datatype Accumulator = Accumulator(frame: seq<Complex>, pos: nat)

  ghost predicate AccumulatorValid(acc: Accumulator)
  {
    |acc.frame| == FftLength && acc.pos < FftLength
  }

  /** A sample weighted by the Hamming window at its slot. */
  function Windowed(s: real, pos: nat, lib: FftLib): real
  {
    s * lib.hamming(pos, FftLength)
  }

  /**
   * One sample into the accumulator: windowed and written at the cursor with
   * imaginary part 0; when the cursor reaches 2048 the frame is transformed in
   * place, the transformed frame is reported and the cursor resets to 0.
   */
  function FeedSample(acc: Accumulator, s: real, lib: FftLib): (r: (Accumulator, seq<seq<Complex>>))
    requires AccumulatorValid(acc) && FftLawful(lib)
    ensures AccumulatorValid(r.0)
    ensures |r.1| <= 1
    ensures r.0.pos == (acc.pos + 1) % FftLength
    ensures |r.1| == 1 <==> acc.pos + 1 == FftLength
  {
    var frame := acc.frame[acc.pos := Complex(Windowed(s, acc.pos, lib), 0.0)];
    if acc.pos + 1 >= FftLength then
      var transformed := lib.fft(frame);
      (Accumulator(transformed, 0), [transformed])
    else (Accumulator(frame, acc.pos + 1), [])
  }

  /** A whole chunk into the accumulator: the final state and every frame transformed on the way. */
  function Feed(acc: Accumulator, samples: seq<real>, lib: FftLib): (r: (Accumulator, seq<seq<Complex>>))
    requires AccumulatorValid(acc) && FftLawful(lib)
    ensures AccumulatorValid(r.0)
    ensures forall k :: 0 <= k < |r.1| ==> |r.1[k]| == FftLength
  {
    if samples == [] then (acc, [])
    else
      var (mid, frames) := Feed(acc, samples[..|samples| - 1], lib);
      var (last, more) := FeedSample(mid, samples[|samples| - 1], lib);
      (last, frames + more)
  }

  /** Unfolds `Feed` by one trailing sample. */
  lemma FeedStep(acc: Accumulator, samples: seq<real>, s: real, lib: FftLib)
    requires AccumulatorValid(acc) && FftLawful(lib)
    ensures var mid := Feed(acc, samples, lib);
            var step := FeedSample(mid.0, s, lib);
            Feed(acc, samples + [s], lib) == (step.0, mid.1 + step.1)
  {
    assert (samples + [s])[..|samples|] == samples;
  }

  /** The normalised half-spectra of a list of transformed frames. */
  function Spectra(frames: seq<seq<Complex>>, math: MathLib): (r: seq<seq<real>>)
    requires forall k :: 0 <= k < |frames| ==> |frames[k]| >= BinCount
    ensures |r| == |frames|
    ensures forall k :: 0 <= k < |frames| ==> r[k] == NormalizedSpectrum(frames[k], math)
  {
    seq(|frames|, k requires 0 <= k < |frames| => NormalizedSpectrum(frames[k], math))
  }

  /**
   * The cursor counts samples modulo 2048, and a transform happens exactly
   * once per wrap: (pos + n) div 2048 transforms for a chunk of n samples.
   */
  lemma {:induction false} FeedCounts(acc: Accumulator, samples: seq<real>, lib: FftLib)
    requires AccumulatorValid(acc) && FftLawful(lib)
    ensures Feed(acc, samples, lib).0.pos == (acc.pos + |samples|) % FftLength
    ensures |Feed(acc, samples, lib).1| == (acc.pos + |samples|) / FftLength
  {
    if samples != [] {
      var front := samples[..|samples| - 1];
      FeedCounts(acc, front, lib);
      var n := acc.pos + |front|;
      DivModStep(n);
    }
  }

  lemma DivModStep(n: nat)
    ensures (n + 1) % FftLength == (n % FftLength + 1) % FftLength
    ensures (n + 1) / FftLength == n / FftLength + (if n % FftLength + 1 == FftLength then 1 else 0)
  {
  }

  /**
   * Each sample lands at the cursor, windowed, with imaginary part 0. Before
   * the last slot of a frame no other slot changes; the sample that fills
   * the last slot is written first, and the frame so completed is the one
   * transformed, published and kept.
   */
  lemma FeedSampleWrites(acc: Accumulator, s: real, lib: FftLib)
    requires AccumulatorValid(acc) && FftLawful(lib)
    ensures acc.pos + 1 < FftLength ==>
              && FeedSample(acc, s, lib).0.frame[acc.pos] == Complex(Windowed(s, acc.pos, lib), 0.0)
              && forall k :: 0 <= k < FftLength && k != acc.pos ==> FeedSample(acc, s, lib).0.frame[k] == acc.frame[k]
    ensures acc.pos + 1 == FftLength ==>
              && FeedSample(acc, s, lib).1 == [lib.fft(acc.frame[acc.pos := Complex(Windowed(s, acc.pos, lib), 0.0)])]
              && FeedSample(acc, s, lib).0.frame == lib.fft(acc.frame[acc.pos := Complex(Windowed(s, acc.pos, lib), 0.0)])
  {
  }
}
