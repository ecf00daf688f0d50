/**
 * The noise gate (`NoiseGateSampleProvider`) and the soft limiter
 * (`LimiterSampleProvider`): both follow the signal with a one-pole peak
 * envelope and scale each sample by a gain computed from that envelope.
 */
module Dynamics {
  import opened Numerics
  import opened Buffers

  const GateAttackMs: real := 10.0
  const GateReleaseMs: real := 200.0
  const GateMinThresholdDb: real := -80.0
  const GateMaxThresholdDb: real := 0.0
  /** Below this linear threshold the gate never attenuates. */
  const GateFloor: real := 0.000001
  /** The exponent of the gate's expansion curve. */
  const GateSlope: nat := 12

  const LimiterAttackMs: real := 1.0
  const LimiterReleaseMs: real := 100.0
  const LimiterMinThresholdDb: real := -60.0
  const LimiterMaxThresholdDb: real := 100.0
  const LimiterMinRatio: real := 1.0
  const LimiterMaxRatio: real := 100.0
  /** The smallest envelope the limiter takes a logarithm of or divides by. */
  const LimiterEnvelopeFloor: real := 0.0000000001

  /**
   * `Math.Exp(-1.0 / (0.001 * ms * sampleRate))`. At a sample rate of 0 the
   * exponent is negative infinity and the coefficient is 0.
   */
  function TimeCoefficient(ms: real, sampleRate: nat, math: MathLib): (c: real)
    requires ms > 0.0 && Lawful(math)
    ensures 0.0 <= c < 1.0
    ensures sampleRate > 0 ==> c > 0.0
  {
    if sampleRate == 0 then 0.0
    else
      var t := 0.001 * ms * sampleRate as real;
      assert t > 0.0;
      math.exp(-1.0 / t)
  }

  /** `Math.Pow(10, db / 20)`, a level in dB as a linear amplitude. */
  function DbToLinear(db: real, math: MathLib): (r: real)
    requires Lawful(math)
    ensures r > 0.0
  {
    math.pow10(db / 20.0)
  }

  lemma ConvexBetween(c: real, u: real, v: real)
    requires 0.0 <= c <= 1.0
    ensures Min(u, v) <= c * u + (1.0 - c) * v <= Max(u, v)
  {
    var lo, hi, d := Min(u, v), Max(u, v), 1.0 - c;
    MulMonotone(lo, u, c);
    MulMonotone(u, hi, c);
    MulMonotone(lo, v, d);
    MulMonotone(v, hi, d);
    assert lo * c + lo * d == lo * (c + d) == lo;
    assert hi * c + hi * d == hi * (c + d) == hi;
    assert u * c + v * d == c * u + (1.0 - c) * v;
  }

  /**
   * One step of the peak follower: rising toward `|x|` with the attack
   * coefficient, falling with the release coefficient. The new envelope lies
   * between the old one and `|x|`.
   */
  function EnvelopeStep(env: real, x: real, attack: real, release: real): (r: real)
    requires 0.0 <= attack <= 1.0 && 0.0 <= release <= 1.0
    ensures Min(env, Abs(x)) <= r <= Max(env, Abs(x))
  {
    var a := Abs(x);
    var c := if a > env then attack else release;
    ConvexBetween(c, env, a);
    c * env + (1.0 - c) * a
  }

  /**
   * The gate's gain for an envelope and a linear threshold: 1 at or above the
   * threshold, otherwise `(env / threshold) ^ 12`, unless the threshold is
   * negligible.
   */
  function GateGain(env: real, threshold: real): (g: real)
    requires env >= 0.0
    ensures 0.0 <= g <= 1.0
    ensures env >= threshold || threshold <= GateFloor ==> g == 1.0
    ensures env == 0.0 && threshold > GateFloor ==> g == 0.0
  {
    if env < threshold && threshold > GateFloor then
      var ratio := env / threshold;
      assert 0.0 <= ratio <= 1.0;
      IntPowUnitInterval(ratio, GateSlope);
      IntPowZero(GateSlope);
      IntPow(ratio, GateSlope)
    else 1.0
  }

  lemma IntPowZero(n: nat)
    requires n > 0
    ensures IntPow(0.0, n) == 0.0
  {
  }

  /** A quieter envelope is never let through more than a louder one. */
  lemma GateGainMonotone(env1: real, env2: real, threshold: real)
    requires 0.0 <= env1 <= env2
    ensures GateGain(env1, threshold) <= GateGain(env2, threshold)
  {
    if env2 < threshold && threshold > GateFloor {
      var r1, r2 := env1 / threshold, env2 / threshold;
      assert r1 <= r2 by {
        MulMonotone(env1, env2, 1.0 / threshold);
      }
      IntPowMonotone(r1, r2, GateSlope);
    }
  }

  /** A sample multiplied by a gain. */
  function Scale(x: real, g: real): real
  {
    x * g
  }

  /** Scaling by a gain in [0, 1] never makes a sample larger in magnitude, and keeps its sign. */
  lemma ScaleAttenuates(x: real, g: real)
    requires 0.0 <= g <= 1.0
    ensures Abs(Scale(x, g)) <= Abs(x)
    ensures x >= 0.0 ==> Scale(x, g) >= 0.0
    ensures x <= 0.0 ==> Scale(x, g) <= 0.0
  {
    if x >= 0.0 {
      MulMonotone(g, 1.0, x);
      assert 0.0 <= x * g;
    } else {
      MulMonotone(g, 1.0, -x);
      assert 0.0 <= -x * g;
      assert Abs(x * g) == -x * g;
    }
  }

  /** The gate run over a block: final envelope and output samples. */
  function GateBlock(env: real, xs: seq<real>, threshold: real, attack: real, release: real): (r: (real, seq<real>))
    requires env >= 0.0 && 0.0 <= attack <= 1.0 && 0.0 <= release <= 1.0
    ensures r.0 >= 0.0 && |r.1| == |xs|
  {
    if xs == [] then (env, [])
    else
      var (e, ys) := GateBlock(env, xs[..|xs| - 1], threshold, attack, release);
      var x := xs[|xs| - 1];
      var e' := EnvelopeStep(e, x, attack, release);
      (e', ys + [Scale(x, GateGain(e', threshold))])
  }

  /**
   * The gate only ever attenuates: no output sample is larger in magnitude
   * than its input, and none changes sign.
   */
  lemma {:induction false} GateNeverAmplifies(env: real, xs: seq<real>, threshold: real, attack: real, release: real)
    requires env >= 0.0 && 0.0 <= attack <= 1.0 && 0.0 <= release <= 1.0
    ensures var ys := GateBlock(env, xs, threshold, attack, release).1;
            forall i :: 0 <= i < |xs| ==>
              && Abs(ys[i]) <= Abs(xs[i])
              && (xs[i] >= 0.0 ==> ys[i] >= 0.0)
              && (xs[i] <= 0.0 ==> ys[i] <= 0.0)
  {
    if xs != [] {
      var xs' := xs[..|xs| - 1];
      GateNeverAmplifies(env, xs', threshold, attack, release);
      var prev := GateBlock(env, xs', threshold, attack, release);
      var x := xs[|xs| - 1];
      var e := EnvelopeStep(prev.0, x, attack, release);
      ScaleAttenuates(x, GateGain(e, threshold));
      GateBlockStep(env, xs', x, threshold, attack, release);
      assert xs' + [x] == xs;
    }
  }

  /** Unfolds `GateBlock` by one trailing sample. */
  lemma GateBlockStep(env: real, xs: seq<real>, x: real, threshold: real, attack: real, release: real)
    requires env >= 0.0 && 0.0 <= attack <= 1.0 && 0.0 <= release <= 1.0
    ensures var prev := GateBlock(env, xs, threshold, attack, release);
            var e := EnvelopeStep(prev.0, x, attack, release);
            GateBlock(env, xs + [x], threshold, attack, release) == (e, prev.1 + [Scale(x, GateGain(e, threshold))])
  {
    assert (xs + [x])[..|xs|] == xs;
  }

  /**
   * An open gate is transparent: while the envelope and every sample are at
   * or above the threshold, samples pass unchanged and the envelope stays up.
   */
  lemma {:induction false} GateOpenIsTransparent(env: real, xs: seq<real>, threshold: real, attack: real, release: real)
    requires env >= 0.0 && 0.0 <= attack <= 1.0 && 0.0 <= release <= 1.0
    requires env >= threshold
    requires forall i :: 0 <= i < |xs| ==> Abs(xs[i]) >= threshold
    ensures GateBlock(env, xs, threshold, attack, release).1 == xs
    ensures GateBlock(env, xs, threshold, attack, release).0 >= threshold
  {
    if xs != [] {
      GateOpenIsTransparent(env, xs[..|xs| - 1], threshold, attack, release);
      assert xs[..|xs| - 1] + [xs[|xs| - 1]] == xs;
    }
  }

  /**
   * The limiter's gain for an envelope above the linear threshold: the level
   * `threshold + (envDb - threshold) / ratio` in dB, divided by the envelope.
   */
  function LimiterGain(env: real, thresholdDb: real, ratio: real, threshold: real, math: MathLib): (g: real)
    requires ratio >= LimiterMinRatio && Lawful(math)
    ensures env <= threshold ==> g == 1.0
    ensures g > 0.0
  {
    if env > threshold then
      var floored := Max(env, LimiterEnvelopeFloor);
      var envDb := 20.0 * math.log10(floored);
      var overDb := envDb - thresholdDb;
      var targetDb := thresholdDb + overDb / ratio;
      DbToLinear(targetDb, math) / floored
    else 1.0
  }

  /** The limiter run over a block; the applied gain is capped at 1. */
  function LimiterBlock(env: real, xs: seq<real>, thresholdDb: real, ratio: real, threshold: real,
                        attack: real, release: real, math: MathLib): (r: (real, seq<real>))
    requires env >= 0.0 && 0.0 <= attack <= 1.0 && 0.0 <= release <= 1.0
    requires ratio >= LimiterMinRatio && Lawful(math)
    ensures r.0 >= 0.0 && |r.1| == |xs|
  {
    if xs == [] then (env, [])
    else
      var (e, ys) := LimiterBlock(env, xs[..|xs| - 1], thresholdDb, ratio, threshold, attack, release, math);
      var x := xs[|xs| - 1];
      var e' := EnvelopeStep(e, x, attack, release);
      (e', ys + [Scale(x, Min(LimiterGain(e', thresholdDb, ratio, threshold, math), 1.0))])
  }

  /** The limiter never boosts: no output sample is larger in magnitude than its input. */
  lemma {:induction false} LimiterNeverAmplifies(env: real, xs: seq<real>, thresholdDb: real, ratio: real,
                                                threshold: real, attack: real, release: real, math: MathLib)
    requires env >= 0.0 && 0.0 <= attack <= 1.0 && 0.0 <= release <= 1.0
    requires ratio >= LimiterMinRatio && Lawful(math)
    ensures var ys := LimiterBlock(env, xs, thresholdDb, ratio, threshold, attack, release, math).1;
            forall i :: 0 <= i < |xs| ==> Abs(ys[i]) <= Abs(xs[i])
  {
    if xs != [] {
      var xs' := xs[..|xs| - 1];
      LimiterNeverAmplifies(env, xs', thresholdDb, ratio, threshold, attack, release, math);
      var prev := LimiterBlock(env, xs', thresholdDb, ratio, threshold, attack, release, math);
      var x := xs[|xs| - 1];
      var e := EnvelopeStep(prev.0, x, attack, release);
      ScaleAttenuates(x, Min(LimiterGain(e, thresholdDb, ratio, threshold, math), 1.0));
      LimiterBlockStep(env, xs', x, thresholdDb, ratio, threshold, attack, release, math);
      assert xs' + [x] == xs;
    }
  }

  /** Unfolds `LimiterBlock` by one trailing sample. */
  lemma LimiterBlockStep(env: real, xs: seq<real>, x: real, thresholdDb: real, ratio: real, threshold: real,
                         attack: real, release: real, math: MathLib)
    requires env >= 0.0 && 0.0 <= attack <= 1.0 && 0.0 <= release <= 1.0
    requires ratio >= LimiterMinRatio && Lawful(math)
    ensures var prev := LimiterBlock(env, xs, thresholdDb, ratio, threshold, attack, release, math);
            var e := EnvelopeStep(prev.0, x, attack, release);
            var g := Min(LimiterGain(e, thresholdDb, ratio, threshold, math), 1.0);
            LimiterBlock(env, xs + [x], thresholdDb, ratio, threshold, attack, release, math) == (e, prev.1 + [Scale(x, g)])
  {
    assert (xs + [x])[..|xs|] == xs;
  }

  /**
   * Below the threshold the limiter is transparent: while the envelope and
   * every sample stay at or under it, samples pass unchanged.
   */
  lemma {:induction false} LimiterTransparentBelowThreshold(env: real, xs: seq<real>, thresholdDb: real, ratio: real,
                                                           threshold: real, attack: real, release: real, math: MathLib)
    requires env >= 0.0 && 0.0 <= attack <= 1.0 && 0.0 <= release <= 1.0
    requires ratio >= LimiterMinRatio && Lawful(math)
    requires env <= threshold
    requires forall i :: 0 <= i < |xs| ==> Abs(xs[i]) <= threshold
    ensures LimiterBlock(env, xs, thresholdDb, ratio, threshold, attack, release, math).1 == xs
    ensures LimiterBlock(env, xs, thresholdDb, ratio, threshold, attack, release, math).0 <= threshold
  {
    if xs != [] {
      LimiterTransparentBelowThreshold(env, xs[..|xs| - 1], thresholdDb, ratio, threshold, attack, release, math);
      assert xs[..|xs| - 1] + [xs[|xs| - 1]] == xs;
    }
  }

  class NoiseGate {
    const sampleRate: nat
    const math: MathLib
    var thresholdDb: real
    var envelope: real
    var attackCoef: real
    var releaseCoef: real

    ghost predicate Valid()
      reads this
    {
      && Lawful(math)
      && GateMinThresholdDb <= thresholdDb <= GateMaxThresholdDb
      && envelope >= 0.0
      && 0.0 <= attackCoef <= 1.0 && 0.0 <= releaseCoef <= 1.0
    }

    /** A new gate: threshold -80 dB, silent envelope, 10 ms attack and 200 ms release. */
    constructor (sampleRate: nat, math: MathLib)
      requires Lawful(math)
      ensures Valid()
      ensures this.sampleRate == sampleRate && this.math == math
      ensures thresholdDb == GateMinThresholdDb && envelope == 0.0
      ensures attackCoef == TimeCoefficient(GateAttackMs, sampleRate, math)
      ensures releaseCoef == TimeCoefficient(GateReleaseMs, sampleRate, math)
    {
      this.sampleRate := sampleRate;
      this.math := math;
      thresholdDb := GateMinThresholdDb;
      envelope := 0.0;
      attackCoef := TimeCoefficient(GateAttackMs, sampleRate, math);
      releaseCoef := TimeCoefficient(GateReleaseMs, sampleRate, math);
    }

    /** The `Threshold` setter: the value is clamped to [-80, 0] dB. */
    method SetThreshold(value: real)
      requires Valid()
      modifies this`thresholdDb
      ensures Valid()
      ensures thresholdDb == Clamp(value, GateMinThresholdDb, GateMaxThresholdDb)
    {
      thresholdDb := Clamp(value, GateMinThresholdDb, GateMaxThresholdDb);
    }

    /**
     * One pass of `Read`'s loop: the envelope follows the next input sample,
     * which is scaled by the gate's gain and written back in its place.
     */
    method Sample(buffer: array<real>, offset: nat, i: nat, threshold: real, attack: real, release: real,
                  ghost input: seq<real>, ghost ys: seq<real>) returns (y: real)
      requires offset + i < |input| == buffer.Length && |ys| == i
      requires buffer[..] == input[..offset] + ys + input[offset + i..]
      requires envelope >= 0.0 && 0.0 <= attack <= 1.0 && 0.0 <= release <= 1.0
      modifies buffer, this`envelope
      ensures envelope == EnvelopeStep(old(envelope), input[offset + i], attack, release)
      ensures y == Scale(input[offset + i], GateGain(envelope, threshold))
      ensures buffer[..] == input[..offset] + (ys + [y]) + input[offset + i + 1..]
    {
      SliceExtend(input, offset, i);
      var x := buffer[offset + i];
      envelope := EnvelopeStep(envelope, x, attack, release);
      var gain := GateGain(envelope, threshold);
      y := Scale(x, gain);
      buffer[offset + i] := y;
      SpliceStep(input[..offset], ys, input[offset + i..], y);
    }

    /** `Read` over the `samplesRead` samples upstream put at `offset`. */
    method Read(buffer: array<real>, offset: nat, samplesRead: nat)
      requires Valid() && offset + samplesRead <= buffer.Length
      modifies buffer, this`envelope
      ensures Valid()
      ensures var r := GateBlock(old(envelope), old(buffer[offset..offset + samplesRead]),
                                 DbToLinear(thresholdDb, math), attackCoef, releaseCoef);
              envelope == r.0
              && buffer[..] == old(buffer[..offset]) + r.1 + old(buffer[offset + samplesRead..])
    {
      var threshold := DbToLinear(thresholdDb, math);
      var attack, release := attackCoef, releaseCoef;
      ghost var input := buffer[..];
      ghost var env0 := envelope;
      ghost var ys: seq<real> := [];
      var i := 0;
      assert input == input[..offset] + ys + input[offset..];
      while i < samplesRead
        invariant 0 <= i <= samplesRead && |ys| == i
        invariant envelope >= 0.0
        invariant buffer[..] == input[..offset] + ys + input[offset + i..]
        invariant (envelope, ys) == GateBlock(env0, input[offset..offset + i], threshold, attack, release)
      {
        var y := Sample(buffer, offset, i, threshold, attack, release, input, ys);
        GateBlockStep(env0, input[offset..offset + i], input[offset + i], threshold, attack, release);
        SliceExtend(input, offset, i);
        ys := ys + [y];
        i := i + 1;
      }
      assert input[offset..offset + i] == old(buffer[offset..offset + samplesRead]);
      assert input[..offset] == old(buffer[..offset]) && input[offset + i..] == old(buffer[offset + samplesRead..]);
    }
  }

  class Limiter {
    const sampleRate: nat
    const math: MathLib
    var enabled: bool
    var thresholdDb: real
    var ratio: real
    var envelope: real
    var attackCoef: real
    var releaseCoef: real

    ghost predicate Valid()
      reads this
    {
      && Lawful(math)
      && LimiterMinThresholdDb <= thresholdDb <= LimiterMaxThresholdDb
      && LimiterMinRatio <= ratio <= LimiterMaxRatio
      && envelope >= 0.0
      && 0.0 <= attackCoef <= 1.0 && 0.0 <= releaseCoef <= 1.0
    }

    /** A new limiter: enabled, 0 dB threshold, ratio 10, 1 ms attack and 100 ms release. */
    constructor (sampleRate: nat, math: MathLib)
      requires Lawful(math)
      ensures Valid()
      ensures this.sampleRate == sampleRate && this.math == math
      ensures enabled && thresholdDb == 0.0 && ratio == 10.0 && envelope == 0.0
      ensures attackCoef == TimeCoefficient(LimiterAttackMs, sampleRate, math)
      ensures releaseCoef == TimeCoefficient(LimiterReleaseMs, sampleRate, math)
    {
      this.sampleRate := sampleRate;
      this.math := math;
      enabled := true;
      thresholdDb := 0.0;
      ratio := 10.0;
      envelope := 0.0;
      attackCoef := TimeCoefficient(LimiterAttackMs, sampleRate, math);
      releaseCoef := TimeCoefficient(LimiterReleaseMs, sampleRate, math);
    }

    method SetEnabled(value: bool)
      requires Valid()
      modifies this`enabled
      ensures Valid() && enabled == value
    {
      enabled := value;
    }

    /** The `ThresholdDb` setter: the value is clamped to [-60, 100] dB. */
    method SetThresholdDb(value: real)
      requires Valid()
      modifies this`thresholdDb
      ensures Valid()
      ensures thresholdDb == Clamp(value, LimiterMinThresholdDb, LimiterMaxThresholdDb)
    {
      thresholdDb := Clamp(value, LimiterMinThresholdDb, LimiterMaxThresholdDb);
    }

    /** The `Ratio` setter: the value is clamped to [1, 100]. */
    method SetRatio(value: real)
      requires Valid()
      modifies this`ratio
      ensures Valid()
      ensures ratio == Clamp(value, LimiterMinRatio, LimiterMaxRatio)
    {
      ratio := Clamp(value, LimiterMinRatio, LimiterMaxRatio);
    }

    /**
     * One pass of `Read`'s loop: the envelope follows the next input sample,
     * which is scaled by the limiter's gain capped at 1 and written back in
     * its place.
     */
    method Sample(buffer: array<real>, offset: nat, i: nat, threshold: real, attack: real, release: real,
                  ghost input: seq<real>, ghost ys: seq<real>) returns (y: real)
      requires Valid() && offset + i < |input| == buffer.Length && |ys| == i
      requires buffer[..] == input[..offset] + ys + input[offset + i..]
      requires 0.0 <= attack <= 1.0 && 0.0 <= release <= 1.0
      modifies buffer, this`envelope
      ensures Valid()
      ensures envelope == EnvelopeStep(old(envelope), input[offset + i], attack, release)
      ensures y == Scale(input[offset + i], Min(LimiterGain(envelope, thresholdDb, ratio, threshold, math), 1.0))
      ensures buffer[..] == input[..offset] + (ys + [y]) + input[offset + i + 1..]
    {
      SliceExtend(input, offset, i);
      var x := buffer[offset + i];
      envelope := EnvelopeStep(envelope, x, attack, release);
      var gain := LimiterGain(envelope, thresholdDb, ratio, threshold, math);
      y := Scale(x, Min(gain, 1.0));
      buffer[offset + i] := y;
      SpliceStep(input[..offset], ys, input[offset + i..], y);
    }

    /**
     * `Read` over the `samplesRead` samples upstream put at `offset`; a
     * disabled limiter leaves the buffer and its envelope untouched.
     */
    method Read(buffer: array<real>, offset: nat, samplesRead: nat)
      requires Valid() && offset + samplesRead <= buffer.Length
      modifies buffer, this`envelope
      ensures Valid()
      ensures !enabled ==> envelope == old(envelope) && buffer[..] == old(buffer[..])
      ensures enabled ==>
                var r := LimiterBlock(old(envelope), old(buffer[offset..offset + samplesRead]), thresholdDb, ratio,
                                      DbToLinear(thresholdDb, math), attackCoef, releaseCoef, math);
                envelope == r.0
                && buffer[..] == old(buffer[..offset]) + r.1 + old(buffer[offset + samplesRead..])
    {
      if !enabled {
        return;
      }
      Limit(buffer, offset, samplesRead);
    }

    /** The limiting loop of an enabled `Read`. */
    method Limit(buffer: array<real>, offset: nat, samplesRead: nat)
      requires Valid() && offset + samplesRead <= buffer.Length
      modifies buffer, this`envelope
      ensures Valid()
      ensures var r := LimiterBlock(old(envelope), old(buffer[offset..offset + samplesRead]), thresholdDb, ratio,
                                    DbToLinear(thresholdDb, math), attackCoef, releaseCoef, math);
              envelope == r.0
              && buffer[..] == old(buffer[..offset]) + r.1 + old(buffer[offset + samplesRead..])
    {
      var threshold := DbToLinear(thresholdDb, math);
      var attack, release := attackCoef, releaseCoef;
      ghost var input := buffer[..];
      ghost var env0 := envelope;
      ghost var ys: seq<real> := [];
      var i := 0;
      assert input == input[..offset] + ys + input[offset..];
      while i < samplesRead
        invariant 0 <= i <= samplesRead && |ys| == i
        invariant Valid()
        invariant buffer[..] == input[..offset] + ys + input[offset + i..]
        invariant (envelope, ys)
                  == LimiterBlock(env0, input[offset..offset + i], thresholdDb, ratio, threshold, attack, release, math)
      {
        var y := Sample(buffer, offset, i, threshold, attack, release, input, ys);
        LimiterBlockStep(env0, input[offset..offset + i], input[offset + i], thresholdDb, ratio, threshold,
                         attack, release, math);
        SliceExtend(input, offset, i);
        ys := ys + [y];
        i := i + 1;
      }
      assert input[offset..offset + i] == old(buffer[offset..offset + samplesRead]);
      assert input[..offset] == old(buffer[..offset]) && input[offset + i..] == old(buffer[offset + samplesRead..]);
    }
  }
}
