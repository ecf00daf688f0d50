/**
 * The parametric equalizer stage (`EqualizerSampleProvider`): a list of
 * biquad filters rebuilt wholesale from band descriptors, and run over each
 * sample of a buffer slice in list order.
 */
module Equalizer {
  import opened Wrappers
  import opened Numerics
  import opened Buffers

  datatype BandType = Peaking | LowShelf | HighShelf

  /** One band as the UI and the configuration describe it; the gain is in dB. */
  datatype EqBand = EqBand(frequency: real, gain: real, q: real, kind: BandType)

  /** Normalised biquad coefficients, in NAudio's naming a0..a4. */
  datatype Coeffs = Coeffs(a0: real, a1: real, a2: real, a3: real, a4: real)

  /** The arguments a filter was designed from: kind, clamped frequency, Q (or shelf slope), gain in dB. */
  datatype FilterDesign = FilterDesign(kind: BandType, frequency: real, qOrSlope: real, gainDb: real)

  /** A biquad filter: its design, its coefficients and its running state (last two inputs and outputs). */
  datatype Biquad = Biquad(design: FilterDesign, coeffs: Coeffs, x1: real, x2: real, y1: real, y2: real)

  /**
   * NAudio's `BiQuadFilter.PeakingEQ`, `LowShelf` and `HighShelf` factories,
   * given kind, sample rate, frequency, Q or slope and gain; None where the
   * factory throws.
   */
  type Designer = (BandType, nat, real, real, real) -> Option<Coeffs>

  /** Bands whose gain is below this many dB in magnitude are skipped. */
  const InactiveBelowDb: real := 0.05
  const LowestFrequency: real := 20.0
  /** The slope every shelf filter is built with, whatever the band's Q. */
  const ShelfSlope: real := 1.0

  predicate IsActive(b: EqBand)
  {
    Abs(b.gain) >= InactiveBelowDb
  }

  /** `_sampleRate / 2 - 1`, with C#'s integer division (the rate is never negative). */
  function HighestFrequency(sampleRate: nat): int
  {
    sampleRate / 2 - 1
  }

  /**
   * `Math.Clamp(f, 20, sampleRate / 2 - 1)`; None when the range is empty,
   * where `Math.Clamp` throws.
   */
  function ClampFrequency(f: real, sampleRate: nat): (r: Option<real>)
    ensures r.Some? <==> LowestFrequency <= HighestFrequency(sampleRate) as real
    ensures r.Some? ==> LowestFrequency <= r.value <= HighestFrequency(sampleRate) as real
    ensures r.Some? && LowestFrequency <= f <= HighestFrequency(sampleRate) as real ==> r.value == f
  {
    var hi := HighestFrequency(sampleRate) as real;
    if LowestFrequency > hi then None else Some(Clamp(f, LowestFrequency, hi))
  }

  /** A filter as `UpdateBands` builds it: in-range frequency, shelf slope 1, fresh state. */
  ghost predicate WellFormed(f: Biquad, sampleRate: nat)
  {
    && LowestFrequency <= f.design.frequency <= HighestFrequency(sampleRate) as real
    && (f.design.kind != Peaking ==> f.design.qOrSlope == ShelfSlope)
    && Abs(f.design.gainDb) >= InactiveBelowDb
    && f.x1 == 0.0 && f.x2 == 0.0 && f.y1 == 0.0 && f.y2 == 0.0
  }

  /** The filter one active band turns into, or None when the clamp or the factory throws. */
  function DesignFilter(b: EqBand, sampleRate: nat, design: Designer): (r: Option<Biquad>)
    requires IsActive(b)
    ensures r.Some? <==> (ClampFrequency(b.frequency, sampleRate).Some?
                          && design(b.kind, sampleRate, ClampFrequency(b.frequency, sampleRate).value,
                                    if b.kind == Peaking then b.q else ShelfSlope, b.gain).Some?)
    ensures r.Some? ==> WellFormed(r.value, sampleRate)
    ensures r.Some? ==> r.value.design.kind == b.kind && r.value.design.gainDb == b.gain
    ensures r.Some? && b.kind == Peaking ==> r.value.design.qOrSlope == b.q
  {
    match ClampFrequency(b.frequency, sampleRate)
    case None => None
    case Some(f) =>
      var slope := if b.kind == Peaking then b.q else ShelfSlope;
      match design(b.kind, sampleRate, f, slope, b.gain)
      case None => None
      case Some(c) => Some(Biquad(FilterDesign(b.kind, f, slope, b.gain), c, 0.0, 0.0, 0.0, 0.0))
  }

  /** The filter list `UpdateBands` builds: one filter per surviving band, in band order. */
  function BuildFilters(bands: seq<EqBand>, sampleRate: nat, design: Designer): (r: seq<Biquad>)
    ensures |r| <= |bands|
    ensures forall i :: 0 <= i < |r| ==> WellFormed(r[i], sampleRate)
  {
    if bands == [] then []
    else
      var prefix := BuildFilters(bands[..|bands| - 1], sampleRate, design);
      var b := bands[|bands| - 1];
      if !IsActive(b) then prefix
      else match DesignFilter(b, sampleRate, design)
        case None => prefix
        case Some(f) => prefix + [f]
  }

  /** Building is compositional: the filters of a concatenation are the concatenation of the filters. */
  lemma {:induction false} BuildFiltersAppend(a: seq<EqBand>, b: seq<EqBand>, sampleRate: nat, design: Designer)
    ensures BuildFilters(a + b, sampleRate, design)
            == BuildFilters(a, sampleRate, design) + BuildFilters(b, sampleRate, design)
    decreases |b|
  {
    if b == [] {
      assert a + b == a;
    } else {
      var b' := b[..|b| - 1];
      assert (a + b)[..|a + b| - 1] == a + b';
      assert (a + b)[|a + b| - 1] == b[|b| - 1];
      BuildFiltersAppend(a, b', sampleRate, design);
    }
  }

  /** An inactive band contributes nothing: removing it does not change the filter list. */
  lemma InactiveBandExcluded(a: seq<EqBand>, band: EqBand, c: seq<EqBand>, sampleRate: nat, design: Designer)
    requires !IsActive(band)
    ensures BuildFilters(a + [band] + c, sampleRate, design) == BuildFilters(a + c, sampleRate, design)
  {
    BuildFiltersAppend(a + [band], c, sampleRate, design);
    BuildFiltersAppend(a, [band], sampleRate, design);
    BuildFiltersAppend(a, c, sampleRate, design);
    assert [band][..0] == [];
  }

  /** A band whose construction throws is skipped: removing it does not change the filter list. */
  lemma ThrowingBandExcluded(a: seq<EqBand>, band: EqBand, c: seq<EqBand>, sampleRate: nat, design: Designer)
    requires IsActive(band) && DesignFilter(band, sampleRate, design).None?
    ensures BuildFilters(a + [band] + c, sampleRate, design) == BuildFilters(a + c, sampleRate, design)
  {
    BuildFiltersAppend(a + [band], c, sampleRate, design);
    BuildFiltersAppend(a, [band], sampleRate, design);
    BuildFiltersAppend(a, c, sampleRate, design);
    assert [band][..0] == [];
  }

  /** A surviving band's filter sits after the filters of the bands before it and before those after it. */
  lemma SurvivorKeepsItsPlace(a: seq<EqBand>, band: EqBand, c: seq<EqBand>, sampleRate: nat, design: Designer)
    requires IsActive(band) && DesignFilter(band, sampleRate, design).Some?
    ensures BuildFilters(a + [band] + c, sampleRate, design)
            == BuildFilters(a, sampleRate, design) + [DesignFilter(band, sampleRate, design).value]
               + BuildFilters(c, sampleRate, design)
  {
    BuildFiltersAppend(a + [band], c, sampleRate, design);
    BuildFiltersAppend(a, [band], sampleRate, design);
    assert [band][..0] == [];
  }

  /** Below 42 Hz the clamp range is empty, every band throws and the list is empty. */
  lemma {:induction false} LowRateBuildsNothing(bands: seq<EqBand>, sampleRate: nat, design: Designer)
    requires sampleRate < 42
    ensures BuildFilters(bands, sampleRate, design) == []
  {
    if bands != [] {
      LowRateBuildsNothing(bands[..|bands| - 1], sampleRate, design);
    }
  }

  /** NAudio's `BiQuadFilter.Transform`: the direct-form-I difference equation, returning the new state. */
  function Transform(f: Biquad, x: real): (Biquad, real)
  {
    var c := f.coeffs;
    var y := c.a0 * x + c.a1 * f.x1 + c.a2 * f.x2 - c.a3 * f.y1 - c.a4 * f.y2;
    (f.(x1 := x, x2 := f.x1, y1 := y, y2 := f.y1), y)
  }

  /** One sample through every filter, first to last; the filters' new states and the output. */
  function Chain(fs: seq<Biquad>, x: real): (r: (seq<Biquad>, real))
    ensures |r.0| == |fs|
  {
    if fs == [] then ([], x)
    else
      var (front, y) := Chain(fs[..|fs| - 1], x);
      var (last, z) := Transform(fs[|fs| - 1], y);
      (front + [last], z)
  }

  /** A block of samples through the filter chain, one sample after the other. */
  function ProcessBlock(fs: seq<Biquad>, xs: seq<real>): (r: (seq<Biquad>, seq<real>))
    ensures |r.0| == |fs| && |r.1| == |xs|
  {
    if xs == [] then (fs, [])
    else
      var (fs', ys) := ProcessBlock(fs, xs[..|xs| - 1]);
      var (fs'', y) := Chain(fs', xs[|xs| - 1]);
      (fs'', ys + [y])
  }

  /** The inner loop of `Read`: one sample through every filter in list order. */
  method RunChain(fs: seq<Biquad>, x: real) returns (fs': seq<Biquad>, y: real)
    ensures (fs', y) == Chain(fs, x)
  {
    fs' := fs;
    y := x;
    var j := 0;
    while j < |fs|
      invariant 0 <= j <= |fs| == |fs'|
      invariant (fs'[..j], y) == Chain(fs[..j], x)
      invariant fs'[j..] == fs[j..]
    {
      var (f, z) := Transform(fs'[j], y);
      assert fs[..j + 1][..j] == fs[..j];
      assert fs'[j] == fs[j];
      fs' := fs'[j := f];
      assert fs'[..j + 1] == fs'[..j] + [f];
      y := z;
      j := j + 1;
    }
    assert fs' == fs'[..j] && fs == fs[..j];
  }

  /** Unfolds `ProcessBlock` by one trailing sample. */
  lemma ProcessBlockStep(fs: seq<Biquad>, xs: seq<real>, x: real)
    ensures var prev := ProcessBlock(fs, xs);
            var step := Chain(prev.0, x);
            ProcessBlock(fs, xs + [x]) == (step.0, prev.1 + [step.1])
  {
    assert (xs + [x])[..|xs|] == xs;
  }

  /**
   * Filter order: running two lists back to back is running the first and
   * feeding its output to the second.
   */
  lemma {:induction false} ChainAppend(fs: seq<Biquad>, gs: seq<Biquad>, x: real)
    ensures Chain(fs + gs, x)
            == (Chain(fs, x).0 + Chain(gs, Chain(fs, x).1).0, Chain(gs, Chain(fs, x).1).1)
    decreases |gs|
  {
    if gs == [] {
      assert fs + gs == fs;
      assert Chain(gs, Chain(fs, x).1) == ([], Chain(fs, x).1);
      assert Chain(fs, x).0 + [] == Chain(fs, x).0;
    } else {
      var gs' := gs[..|gs| - 1];
      assert (fs + gs)[..|fs + gs| - 1] == fs + gs';
      assert (fs + gs)[|fs + gs| - 1] == gs[|gs| - 1];
      ChainAppend(fs, gs', x);
      var y0 := Chain(fs, x).1;
      var (front, y) := Chain(fs + gs', x);
      var (last, z) := Transform(gs[|gs| - 1], y);
      assert Chain(fs + gs, x) == (front + [last], z);
      assert front == Chain(fs, x).0 + Chain(gs', y0).0 && y == Chain(gs', y0).1;
      assert Chain(gs, y0) == (Chain(gs', y0).0 + [last], z);
      assert front + [last] == Chain(fs, x).0 + (Chain(gs', y0).0 + [last]);
    }
  }

  /** An empty filter list passes every block through unchanged. */
  lemma {:induction false} EmptyChainIsIdentity(xs: seq<real>)
    ensures ProcessBlock([], xs) == ([], xs)
  {
    if xs != [] {
      EmptyChainIsIdentity(xs[..|xs| - 1]);
      assert xs[..|xs| - 1] + [xs[|xs| - 1]] == xs;
    }
  }

  class EqualizerStage {
    const sampleRate: nat
    const design: Designer
    var enabled: bool
    var filters: seq<Biquad>

    /** A fresh equalizer is enabled and holds no filters. */
    constructor (sampleRate: nat, design: Designer)
      ensures this.sampleRate == sampleRate && this.design == design
      ensures enabled && filters == []
    {
      this.sampleRate := sampleRate;
      this.design := design;
      enabled := true;
      filters := [];
    }

    method SetEnabled(value: bool)
      modifies this`enabled
      ensures enabled == value
    {
      enabled := value;
    }

    /**
     * `UpdateBands`: a null list changes nothing; otherwise the filter list is
     * replaced by one filter per surviving band, in band order.
     */
    method UpdateBands(bands: Option<seq<EqBand>>)
      modifies this`filters
      ensures bands.None? ==> filters == old(filters)
      ensures bands.Some? ==> filters == BuildFilters(bands.value, sampleRate, design)
    {
      if bands.None? {
        return;
      }
      var list := bands.value;
      var newFilters: seq<Biquad> := [];
      var i := 0;
      while i < |list|
        invariant 0 <= i <= |list|
        invariant newFilters == BuildFilters(list[..i], sampleRate, design)
      {
        var band := list[i];
        assert list[..i + 1][..i] == list[..i];
        if Abs(band.gain) < InactiveBelowDb {
          i := i + 1;
          continue;
        }
        var hi := HighestFrequency(sampleRate) as real;
        if LowestFrequency <= hi {
          var f := Clamp(band.frequency, LowestFrequency, hi);
          var built: Option<Coeffs>;
          match band.kind {
            case LowShelf => built := design(LowShelf, sampleRate, f, ShelfSlope, band.gain);
            case HighShelf => built := design(HighShelf, sampleRate, f, ShelfSlope, band.gain);
            case Peaking => built := design(Peaking, sampleRate, f, band.q, band.gain);
          }
          if built.Some? {
            var slope := if band.kind == Peaking then band.q else ShelfSlope;
            newFilters := newFilters + [Biquad(FilterDesign(band.kind, f, slope, band.gain), built.value, 0.0, 0.0, 0.0, 0.0)];
          }
        }
        i := i + 1;
      }
      assert list[..i] == list;
      filters := newFilters;
    }

    /**
     * One pass of `Read`'s outer loop: the next input sample through every
     * filter, written back in its place.
     */
    method FilterSample(buffer: array<real>, offset: nat, i: nat, fs: seq<Biquad>,
                        ghost input: seq<real>, ghost ys: seq<real>) returns (fs': seq<Biquad>, y: real)
      requires offset + i < |input| == buffer.Length && |ys| == i
      requires buffer[..] == input[..offset] + ys + input[offset + i..]
      modifies buffer
      ensures (fs', y) == Chain(fs, input[offset + i])
      ensures buffer[..] == input[..offset] + (ys + [y]) + input[offset + i + 1..]
    {
      SliceExtend(input, offset, i);
      var x := buffer[offset + i];
      fs', y := RunChain(fs, x);
      buffer[offset + i] := y;
      SpliceStep(input[..offset], ys, input[offset + i..], y);
    }

    /**
     * `Read` after the upstream source has put `samplesRead` samples at
     * `offset`: when enabled and the list is non-empty, every sample of the
     * slice goes through every filter in list order; nothing outside the
     * slice is written.
     */
    method Read(buffer: array<real>, offset: nat, samplesRead: nat)
      requires offset + samplesRead <= buffer.Length
      modifies buffer, this`filters
      ensures var xs := old(buffer[offset..offset + samplesRead]);
              if old(enabled) && samplesRead > 0 && old(filters) != [] then
                && filters == ProcessBlock(old(filters), xs).0
                && buffer[..] == old(buffer[..offset]) + ProcessBlock(old(filters), xs).1
                                 + old(buffer[offset + samplesRead..])
              else
                filters == old(filters) && buffer[..] == old(buffer[..])
    {
      if !enabled || samplesRead == 0 || |filters| == 0 {
        return;
      }
      Filter(buffer, offset, samplesRead);
    }

    /** The filtering loop of `Read`: each sample of the slice through the whole list, the list updated as it goes. */
    method Filter(buffer: array<real>, offset: nat, samplesRead: nat)
      requires offset + samplesRead <= buffer.Length
      modifies buffer, this`filters
      ensures var r := ProcessBlock(old(filters), old(buffer[offset..offset + samplesRead]));
              && filters == r.0
              && buffer[..] == old(buffer[..offset]) + r.1 + old(buffer[offset + samplesRead..])
    {
      ghost var input := buffer[..];
      ghost var original := filters;
      ghost var ys: seq<real> := [];
      var fs := filters;
      var i := 0;
      assert input == input[..offset] + ys + input[offset..];
      while i < samplesRead
        invariant 0 <= i <= samplesRead && |ys| == i
        invariant buffer[..] == input[..offset] + ys + input[offset + i..]
        invariant (fs, ys) == ProcessBlock(original, input[offset..offset + i])
      {
        var y;
        fs, y := FilterSample(buffer, offset, i, fs, input, ys);
        ProcessBlockStep(original, input[offset..offset + i], input[offset + i]);
        SliceExtend(input, offset, i);
        ys := ys + [y];
        i := i + 1;
      }
      filters := fs;
      assert input[offset..offset + i] == old(buffer[offset..offset + samplesRead]);
      assert input[..offset] == old(buffer[..offset]) && input[offset + i..] == old(buffer[offset + samplesRead..]);
    }
  }
}
