/**
 * The audio engine (`AudioEngine`): builds and tears down the capture →
 * equalizer → volume → noise gate → limiter → metering → render chain,
 * caches the user's settings and forwards them to live stages, and turns
 * the metering tap's chunks into peak levels and spectra.
 */
module Engine {
  import opened Wrappers
  import opened Numerics
  import opened Spectrum
  import opened Devices
  import EQ = Equalizer
  import Dynamics
  import Metering

  /**
   * The capture stream and the processing stages, in chain order. The
   * source keeps each in its own nullable field, but sets them all in `Start`
   * and clears them all in `Stop`, so at every call boundary they are either
   * all present or all absent; the model keeps them in one optional record.
   */
  datatype Chain = Chain(
    capture: Capture,
    buffer: WaveBuffer,
    equalizer: EQ.EqualizerStage,
    volume: VolumeStage,
    noiseGate: Dynamics.NoiseGate,
    limiter: Dynamics.Limiter,
    metering: Metering.MeteringTap)

  /** What the engine reports to its subscribers, in order. */
  datatype EngineEvent =
    | PeakLevelReceived(level: real)
    | FftDataReceived(bins: seq<real>)
    | ErrorOccurred(message: string)

  /** The prefix of the error reported when starting fails ("failed to start the audio engine:" and a newline). */
  const StartFailedPrefix: string := "\U{30aa}\U{30fc}\U{30c7}\U{30a3}\U{30aa}\U{30a8}\U{30f3}\U{30b8}\U{30f3}\U{306e}\U{8d77}\U{52d5}\U{306b}\U{5931}\U{6557}\U{3057}\U{307e}\U{3057}\U{305f}:\n"

  /** The render latency requested from the output device, in milliseconds. */
  const RenderLatencyMs: nat := 50

  /**
   * The exception `Start` runs into, if any, in the order the source opens
   * and starts things: opening the input, opening the output, starting
   * capture, starting playback.
   */
  function StartFailure(input: Device, output: Device): (r: Option<string>)
    ensures r.None? <==> input.openError.None? && output.openError.None?
                         && input.startError.None? && output.startError.None?
  {
    if input.openError.Some? then input.openError
    else if output.openError.Some? then output.openError
    else if input.startError.Some? then input.startError
    else output.startError
  }

  /** The spectra events a list of transformed frames produces. */
  function SpectrumEvents(frames: seq<seq<Complex>>, math: MathLib): (r: seq<EngineEvent>)
    requires forall k :: 0 <= k < |frames| ==> |frames[k]| >= BinCount
    ensures |r| == |frames|
  {
    if frames == [] then []
    else SpectrumEvents(frames[..|frames| - 1], math) + [FftDataReceived(NormalizedSpectrum(frames[|frames| - 1], math))]
  }

  lemma {:induction false} SpectrumEventsAppend(a: seq<seq<Complex>>, b: seq<seq<Complex>>, math: MathLib)
    requires forall k :: 0 <= k < |a| ==> |a[k]| >= BinCount
    requires forall k :: 0 <= k < |b| ==> |b[k]| >= BinCount
    ensures forall k :: 0 <= k < |a + b| ==> |(a + b)[k]| >= BinCount
    ensures SpectrumEvents(a + b, math) == SpectrumEvents(a, math) + SpectrumEvents(b, math)
  {
    if b == [] {
      assert a + b == a;
    } else {
      var front := b[..|b| - 1];
      SpectrumEventsAppend(a, front, math);
      assert (a + b)[..|a + b| - 1] == a + front;
    }
  }

  class AudioEngine {
    const math: MathLib
    const design: EQ.Designer
    const fftLib: FftLib

    var chain: Option<Chain>
    var render: Render?

    var gain: real
    var noiseGateThreshold: real
    var limiterThreshold: real
    var limiterEnabled: bool
    var isRunning: bool

    const fftBuffer: array<Complex>
    var fftPos: nat
    var lastFftResults: array?<real>

    /** Everything raised to `PeakLevelReceived`, `FftDataReceived` and `ErrorOccurred`. */
    var events: seq<EngineEvent>

    /** The part of the state the spectrum analysis relies on. */
    ghost predicate AnalysisValid()
      reads this
    {
      && Lawful(math) && FftLawful(fftLib)
      && fftBuffer.Length == FftLength
      && (lastFftResults != null ==> lastFftResults.Length == BinCount)
    }

    /** The stages whose own invariants the engine keeps. */
    ghost function LiveStages(): set<object>
      reads this
    {
      if chain.Some? then {chain.value.noiseGate, chain.value.limiter} else {}
    }

    ghost predicate Valid()
      reads this, LiveStages()
    {
      && AnalysisValid()
      && fftPos < FftLength
      && (chain.Some? ==> chain.value.noiseGate.Valid() && chain.value.limiter.Valid())
      && (isRunning ==> chain.Some? && render != null)
    }

    /** Nothing is wired: no stage, no stream. */
    predicate Dismantled()
      reads this
    {
      chain.None? && render == null
    }

    /** A new engine: stopped, gain 1, gate threshold 0, limiter at 40 dB and off, cursor at 0. */
    constructor (math: MathLib, design: EQ.Designer, fftLib: FftLib)
      requires Lawful(math) && FftLawful(fftLib)
      ensures Valid() && Dismantled() && !isRunning
      ensures this.math == math && this.design == design && this.fftLib == fftLib
      ensures gain == 1.0 && noiseGateThreshold == 0.0 && limiterThreshold == 40.0 && !limiterEnabled
      ensures fftPos == 0 && lastFftResults == null && events == []
      ensures fresh(fftBuffer)
    {
      this.math := math;
      this.design := design;
      this.fftLib := fftLib;
      chain := None;
      render := null;
      gain, noiseGateThreshold, limiterThreshold, limiterEnabled := 1.0, 0.0, 40.0, false;
      isRunning := false;
      fftBuffer := new Complex[FftLength](_ => Complex(0.0, 0.0));
      fftPos := 0;
      lastFftResults := null;
      events := [];
    }

    /**
     * A chain as `Start` builds it: capture on the input, the buffer
     * discarding on overflow, a flat enabled equalizer, and each stage given
     * the cached setting it takes, the metering tap subscribed.
     */
    ghost predicate Configured(c: Chain, input: Device)
      reads this, c.buffer, c.equalizer, c.volume, c.noiseGate, c.limiter, c.metering
    {
      && c.capture.device == input
      && c.buffer.discardOnOverflow && c.buffer.received == []
      && c.equalizer.sampleRate == input.sampleRate && c.equalizer.design == design
      && c.equalizer.enabled && c.equalizer.filters == []
      && c.volume.volume == gain
      && c.noiseGate.sampleRate == input.sampleRate && c.noiseGate.Valid()
      && c.noiseGate.thresholdDb == Clamp(noiseGateThreshold, Dynamics.GateMinThresholdDb, Dynamics.GateMaxThresholdDb)
      && c.limiter.sampleRate == input.sampleRate && c.limiter.Valid()
      && c.limiter.thresholdDb == Clamp(limiterThreshold, Dynamics.LimiterMinThresholdDb, Dynamics.LimiterMaxThresholdDb)
      && c.limiter.enabled == limiterEnabled
      && c.metering.subscribed
    }

    /**
     * `Stop`: clears the running flag, unsubscribes the metering tap, detaches,
     * stops and disposes both streams and drops every stage. The settings,
     * the FFT cursor, the last spectrum and the events are left as they are.
     */
    method Stop()
      requires Valid()
      modifies this`isRunning, this`chain, this`render, render
      modifies if chain.Some? then {chain.value.metering, chain.value.capture} else {}
      ensures Valid() && !isRunning && Dismantled()
      ensures old(chain).Some? ==>
                && !old(chain).value.metering.subscribed
                && !old(chain).value.capture.handlerAttached
                && !old(chain).value.capture.recording
                && old(chain).value.capture.disposed
      ensures old(render) != null ==> !old(render).playing && old(render).disposed
    {
      isRunning := false;
      if chain.Some? {
        var c := chain.value;
        c.metering.subscribed := false;
        c.capture.handlerAttached := false;
        c.capture.recording := false;
        c.capture.disposed := true;
      }
      if render != null {
        render.playing := false;
        render.disposed := true;
        render := null;
      }
      chain := None;
    }

    /** The failure path of `Start`: tear down what was built and report the exception once. */
    method FailStart(message: string)
      requires Valid()
      modifies this`isRunning, this`chain, this`render, this`events, render
      modifies if chain.Some? then {chain.value.metering, chain.value.capture} else {}
      ensures Valid() && !isRunning && Dismantled()
      ensures events == old(events) + [ErrorOccurred(StartFailedPrefix + message)]
    {
      Stop();
      events := events + [ErrorOccurred(StartFailedPrefix + message)];
    }

    /** Step 3c of `Start`: a gate on the input rate with the cached threshold. */
    method NewNoiseGate(sampleRate: nat) returns (gate: Dynamics.NoiseGate)
      requires Lawful(math)
      ensures fresh(gate) && gate.Valid() && gate.math == math
      ensures gate.sampleRate == sampleRate && gate.envelope == 0.0
      ensures gate.thresholdDb == Clamp(noiseGateThreshold, Dynamics.GateMinThresholdDb, Dynamics.GateMaxThresholdDb)
    {
      gate := new Dynamics.NoiseGate(sampleRate, math);
      gate.SetThreshold(noiseGateThreshold);
    }

    /** Step 3d of `Start`: a limiter on the input rate with the cached threshold and switch. */
    method NewLimiter(sampleRate: nat) returns (lim: Dynamics.Limiter)
      requires Lawful(math)
      ensures fresh(lim) && lim.Valid() && lim.math == math
      ensures lim.sampleRate == sampleRate && lim.envelope == 0.0 && lim.ratio == 10.0
      ensures lim.thresholdDb == Clamp(limiterThreshold, Dynamics.LimiterMinThresholdDb, Dynamics.LimiterMaxThresholdDb)
      ensures lim.enabled == limiterEnabled
    {
      lim := new Dynamics.Limiter(sampleRate, math);
      lim.SetThresholdDb(limiterThreshold);
      lim.SetEnabled(limiterEnabled);
    }

    /** Steps 1 to 3 of `Start`: the capture stream, the buffer and the stages, in chain order. */
    method BuildChain(input: Device) returns (c: Chain)
      requires Lawful(math)
      ensures fresh(c.capture) && fresh(c.buffer) && fresh(c.equalizer) && fresh(c.volume)
      ensures fresh(c.noiseGate) && fresh(c.limiter) && fresh(c.metering)
      ensures Configured(c, input)
      ensures !c.capture.handlerAttached && !c.capture.recording && !c.capture.disposed
    {
      var cap := new Capture(input);
      var buf := new WaveBuffer();
      buf.discardOnOverflow := true;
      var eq := new EQ.EqualizerStage(input.sampleRate, design);
      var vol := new VolumeStage();
      vol.volume := gain;
      var gate := NewNoiseGate(input.sampleRate);
      var lim := NewLimiter(input.sampleRate);
      var met := new Metering.MeteringTap();
      met.subscribed := true;
      c := Chain(cap, buf, eq, vol, gate, lim, met);
    }

    /**
     * `Start`: stops first, caches gain and gate threshold, builds the chain
     * and starts both streams. The engine is running exactly when nothing
     * threw; otherwise it is torn down again and exactly one error is
     * reported.
     */
    method Start(input: Device, output: Device, initialGain: real, gateThreshold: real)
      requires Valid()
      modifies this`isRunning, this`chain, this`render, this`events, this`gain, this`noiseGateThreshold, render
      modifies if chain.Some? then {chain.value.metering, chain.value.capture} else {}
      ensures Valid()
      ensures gain == initialGain && noiseGateThreshold == gateThreshold
      ensures old(chain).Some? ==> !old(chain).value.capture.recording && old(chain).value.capture.disposed
      ensures old(render) != null ==> !old(render).playing && old(render).disposed
      ensures StartFailure(input, output).Some? ==>
                && !isRunning && Dismantled()
                && events == old(events) + [ErrorOccurred(StartFailedPrefix + StartFailure(input, output).value)]
      ensures StartFailure(input, output).None? ==>
                && Launched(input, output) && events == old(events)
                && fresh(chain.value.capture) && fresh(chain.value.buffer) && fresh(chain.value.equalizer)
                && fresh(chain.value.volume) && fresh(chain.value.noiseGate) && fresh(chain.value.limiter)
                && fresh(chain.value.metering) && fresh(render)
    {
      Stop();
      gain := initialGain;
      noiseGateThreshold := gateThreshold;
      Launch(input, output);
    }

    /** Both streams up and the chain built as `Start` builds it (that it is all new, the callers' `fresh` clauses say). */
    ghost predicate Launched(input: Device, output: Device)
      reads this, render, if chain.Some? then {chain.value.capture, chain.value.buffer, chain.value.equalizer,
                                                chain.value.volume, chain.value.noiseGate, chain.value.limiter,
                                                chain.value.metering} else {}
    {
      && isRunning && chain.Some? && render != null
      && Configured(chain.value, input)
      && chain.value.capture.handlerAttached && chain.value.capture.recording
      && render.device == output && render.latencyMs == RenderLatencyMs
      && render.initialised && render.playing
    }

    /** Steps 1 to 4 of `Start`, from a dismantled engine. */
    method Launch(input: Device, output: Device)
      requires Valid() && Dismantled() && !isRunning
      modifies this`isRunning, this`chain, this`render, this`events
      ensures Valid()
      ensures StartFailure(input, output).Some? ==>
                && !isRunning && Dismantled()
                && events == old(events) + [ErrorOccurred(StartFailedPrefix + StartFailure(input, output).value)]
      ensures StartFailure(input, output).None? ==>
                && Launched(input, output) && events == old(events)
                && fresh(chain.value.capture) && fresh(chain.value.buffer) && fresh(chain.value.equalizer)
                && fresh(chain.value.volume) && fresh(chain.value.noiseGate) && fresh(chain.value.limiter)
                && fresh(chain.value.metering) && fresh(render)
    {
      if input.openError.Some? {
        FailStart(input.openError.value);
        return;
      }
      var c := BuildChain(input);
      chain := Some(c);
      OpenStreams(c, input, output);
    }

    /** Step 4 of `Start` ("Output setup"): the output opened, the handler attached, both streams started. */
    method OpenStreams(c: Chain, input: Device, output: Device)
      requires Valid() && chain == Some(c) && render == null && !isRunning && input.openError.None?
      requires Configured(c, input) && !c.capture.handlerAttached && !c.capture.recording
      modifies this`isRunning, this`chain, this`render, this`events, c.capture, c.metering
      ensures Valid()
      ensures StartFailure(input, output).Some? ==>
                && !isRunning && Dismantled()
                && events == old(events) + [ErrorOccurred(StartFailedPrefix + StartFailure(input, output).value)]
      ensures StartFailure(input, output).None? ==>
                && Launched(input, output) && events == old(events) && chain == Some(c) && fresh(render)
    {
      if output.openError.Some? {
        FailStart(output.openError.value);
        return;
      }
      var ren := new Render(output, RenderLatencyMs);
      render := ren;
      Connect(c, ren);
      StartStreams(c, ren, input, output);
    }

    /** The end of step 4 of `Start`: capture started, then playback, then the engine marked running. */
    method StartStreams(c: Chain, ren: Render, input: Device, output: Device)
      requires Valid() && chain == Some(c) && render == ren && !isRunning
      requires input.openError.None? && output.openError.None?
      requires Configured(c, input) && c.capture.handlerAttached && !c.capture.recording
      requires ren.device == output && ren.latencyMs == RenderLatencyMs && ren.initialised && !ren.playing
      modifies this`isRunning, this`chain, this`render, this`events, c.capture, c.metering, ren
      ensures Valid()
      ensures StartFailure(input, output).Some? ==>
                && !isRunning && Dismantled()
                && events == old(events) + [ErrorOccurred(StartFailedPrefix + StartFailure(input, output).value)]
      ensures StartFailure(input, output).None? ==>
                Launched(input, output) && events == old(events) && chain == Some(c) && render == ren
    {
      if input.startError.Some? {
        FailStart(input.startError.value);
        return;
      }
      c.capture.recording := true;
      if output.startError.Some? {
        FailStart(output.startError.value);
        return;
      }
      ren.playing := true;
      isRunning := true;
    }

    /** Part of step 4 of `Start`: the data handler on the capture stream and the render stream initialised. */
    method Connect(c: Chain, ren: Render)
      modifies c.capture, ren
      ensures c.capture.handlerAttached && ren.initialised
      ensures c.capture.recording == old(c.capture.recording) && c.capture.disposed == old(c.capture.disposed)
      ensures ren.playing == old(ren.playing) && ren.disposed == old(ren.disposed)
    {
      c.capture.handlerAttached := true;
      ren.initialised := true;
    }

    method Dispose()
      requires Valid()
      modifies this`isRunning, this`chain, this`render, render
      modifies if chain.Some? then {chain.value.metering, chain.value.capture} else {}
      ensures Valid() && !isRunning && Dismantled()
    {
      Stop();
    }

    /**
     * `UpdateParametricEq`: the gain becomes 10^(dB/20) and reaches the
     * volume stage if there is one; the bands reach the equalizer if there is one.
     */
    method UpdateParametricEq(volumeDb: real, bands: Option<seq<EQ.EqBand>>)
      requires Valid()
      modifies this`gain, if chain.Some? then {chain.value.volume, chain.value.equalizer} else {}
      ensures Valid()
      ensures gain == Dynamics.DbToLinear(volumeDb, math) && gain > 0.0
      ensures chain.Some? ==> chain.value.volume.volume == gain
      ensures chain.Some? && bands.None? ==> chain.value.equalizer.filters == old(chain.value.equalizer.filters)
      ensures chain.Some? && bands.Some? ==>
                chain.value.equalizer.filters
                == EQ.BuildFilters(bands.value, chain.value.equalizer.sampleRate, chain.value.equalizer.design)
      ensures chain.Some? ==> chain.value.equalizer.enabled == old(chain.value.equalizer.enabled)
    {
      gain := Dynamics.DbToLinear(volumeDb, math);
      if chain.Some? {
        chain.value.volume.volume := gain;
        chain.value.equalizer.UpdateBands(bands);
      }
    }

    /** Caches the gate threshold and forwards it to a live gate, which clamps it. */
    method SetNoiseGateThreshold(threshold: real)
      requires Valid()
      modifies this`noiseGateThreshold, if chain.Some? then {chain.value.noiseGate} else {}
      ensures Valid()
      ensures noiseGateThreshold == threshold
      ensures chain.Some? ==>
                && chain.value.noiseGate.thresholdDb
                   == Clamp(threshold, Dynamics.GateMinThresholdDb, Dynamics.GateMaxThresholdDb)
                && chain.value.noiseGate.envelope == old(chain.value.noiseGate.envelope)
    {
      noiseGateThreshold := threshold;
      if chain.Some? {
        chain.value.noiseGate.SetThreshold(threshold);
      }
    }

    /** Caches the limiter threshold and forwards it to a live limiter, which clamps it. */
    method SetLimiterThreshold(thresholdDb: real)
      requires Valid()
      modifies this`limiterThreshold, if chain.Some? then {chain.value.limiter} else {}
      ensures Valid()
      ensures limiterThreshold == thresholdDb
      ensures chain.Some? ==>
                && chain.value.limiter.thresholdDb
                   == Clamp(thresholdDb, Dynamics.LimiterMinThresholdDb, Dynamics.LimiterMaxThresholdDb)
                && chain.value.limiter.enabled == old(chain.value.limiter.enabled)
                && chain.value.limiter.envelope == old(chain.value.limiter.envelope)
    {
      limiterThreshold := thresholdDb;
      if chain.Some? {
        chain.value.limiter.SetThresholdDb(thresholdDb);
      }
    }

    /** Caches the limiter switch and forwards it to a live limiter. */
    method SetLimiterEnabled(enabled: bool)
      requires Valid()
      modifies this`limiterEnabled, if chain.Some? then {chain.value.limiter} else {}
      ensures Valid()
      ensures limiterEnabled == enabled
      ensures chain.Some? ==>
                && chain.value.limiter.enabled == enabled
                && chain.value.limiter.thresholdDb == old(chain.value.limiter.thresholdDb)
                && chain.value.limiter.envelope == old(chain.value.limiter.envelope)
    {
      limiterEnabled := enabled;
      if chain.Some? {
        chain.value.limiter.SetEnabled(enabled);
      }
    }

    /** `OnDataAvailable`: recorded bytes go to the buffer when there is one, and nowhere otherwise. */
    method OnDataAvailable(bytes: seq<bv8>, bytesRecorded: nat)
      requires bytesRecorded <= |bytes|
      modifies if chain.Some? then {chain.value.buffer} else {}
      ensures chain.Some? ==> chain.value.buffer.received == old(chain.value.buffer.received) + [bytes[..bytesRecorded]]
    {
      if chain.None? {
        return;
      }
      var buffer := chain.value.buffer;
      buffer.received := buffer.received + [bytes[..bytesRecorded]];
    }

    /**
     * `PerformFft`: transforms the frame in place, writes the normalised
     * half-spectrum into the result array (allocated on first use) and
     * publishes it.
     */
    method PerformFft()
      requires AnalysisValid()
      modifies fftBuffer, this`lastFftResults, lastFftResults, this`events
      ensures AnalysisValid()
      ensures fftBuffer[..] == fftLib.fft(old(fftBuffer[..]))
      ensures lastFftResults != null && lastFftResults[..] == NormalizedSpectrum(fftBuffer[..], math)
      ensures old(lastFftResults) != null ==> lastFftResults == old(lastFftResults)
      ensures old(lastFftResults) == null ==> fresh(lastFftResults)
      ensures events == old(events) + [FftDataReceived(lastFftResults[..])]
    {
      var transformed := fftLib.fft(fftBuffer[..]);
      forall i | 0 <= i < FftLength {
        fftBuffer[i] := transformed[i];
      }
      assert fftBuffer[..] == transformed;
      if lastFftResults == null || lastFftResults.Length != BinCount {
        lastFftResults := new real[BinCount];
      }
      var results := lastFftResults;
      var i := 0;
      while i < BinCount
        invariant 0 <= i <= BinCount
        invariant forall k :: 0 <= k < i ==> results[k] == NormalizeBin(transformed[k], math)
        modifies results
      {
        results[i] := NormalizeBin(fftBuffer[i], math);
        i := i + 1;
      }
      assert results[..] == NormalizedSpectrum(transformed, math);
      events := events + [FftDataReceived(results[..])];
    }

    /**
     * The analysis state after feeding `xs` to the accumulator `acc0`, with
     * `events0` the events from before: frame, cursor and published spectra.
     */
    ghost predicate Fed(acc0: Accumulator, events0: seq<EngineEvent>, xs: seq<real>)
      requires AccumulatorValid(acc0) && FftLawful(fftLib)
      reads this, fftBuffer
    {
      var r := Feed(acc0, xs, fftLib);
      && fftBuffer[..] == r.0.frame && fftPos == r.0.pos
      && events == events0 + SpectrumEvents(r.1, math)
    }

    /**
     * One sample of `OnStreamVolume`'s loop: windowed into the frame at the
     * cursor; when the cursor reaches 2048 the frame is transformed and
     * published and the cursor returns to 0.
     */
    method PushSample(s: real, ghost acc0: Accumulator, ghost events0: seq<EngineEvent>, ghost xs: seq<real>)
      requires AnalysisValid() && AccumulatorValid(acc0) && fftPos < FftLength
      requires Fed(acc0, events0, xs)
      modifies fftBuffer, this`fftPos, this`lastFftResults, lastFftResults, this`events
      ensures AnalysisValid() && fftPos < FftLength
      ensures lastFftResults == old(lastFftResults) || (lastFftResults != null && fresh(lastFftResults))
      ensures Fed(acc0, events0, xs + [s])
    {
      ghost var mid := Feed(acc0, xs, fftLib);
      FeedStep(acc0, xs, s, fftLib);
      SpectrumEventsAppend(mid.1, FeedSample(mid.0, s, fftLib).1, math);
      Advance(s);
    }

    /** The body of `OnStreamVolume`'s loop, stated by one `FeedSample` step. */
    method Advance(s: real)
      requires AnalysisValid() && fftPos < FftLength
      modifies fftBuffer, this`fftPos, this`lastFftResults, lastFftResults, this`events
      ensures AnalysisValid() && fftPos < FftLength
      ensures lastFftResults == old(lastFftResults) || (lastFftResults != null && fresh(lastFftResults))
      ensures var r := FeedSample(Accumulator(old(fftBuffer[..]), old(fftPos)), s, fftLib);
              && fftBuffer[..] == r.0.frame && fftPos == r.0.pos
              && events == old(events) + SpectrumEvents(r.1, math)
    {
      fftBuffer[fftPos] := Complex(Windowed(s, fftPos, fftLib), 0.0);
      if fftPos + 1 >= FftLength {
        PerformFft();
        fftPos := 0;
      } else {
        fftPos := fftPos + 1;
      }
    }

    /**
     * `OnStreamVolume`: ignored unless running. Otherwise every sample is
     * windowed into the FFT frame at the cursor, a transform is published
     * each time the cursor reaches 2048, and finally one peak level is
     * reported for the chunk.
     */
    method OnStreamVolume(samples: seq<real>)
      requires Valid()
      modifies fftBuffer, this`fftPos, this`lastFftResults, lastFftResults, this`events
      ensures Valid()
      ensures !isRunning ==> fftBuffer[..] == old(fftBuffer[..]) && fftPos == old(fftPos) && events == old(events)
      ensures isRunning ==>
                var r := Feed(Accumulator(old(fftBuffer[..]), old(fftPos)), samples, fftLib);
                && fftBuffer[..] == r.0.frame && fftPos == r.0.pos
                && events == old(events) + SpectrumEvents(r.1, math) + [PeakLevelReceived(PeakLevel(samples))]
    {
      if !isRunning {
        return;
      }
      var max := FeedChunk(samples);
      events := events + [PeakLevelReceived(Min(1.0, max))];
    }

    /** The loop of `OnStreamVolume`: every sample through `PushSample`, tracking the largest magnitude. */
    method FeedChunk(samples: seq<real>) returns (max: real)
      requires AnalysisValid() && fftPos < FftLength
      modifies fftBuffer, this`fftPos, this`lastFftResults, lastFftResults, this`events
      ensures AnalysisValid() && fftPos < FftLength
      ensures max == MaxAbs(samples)
      ensures var r := Feed(Accumulator(old(fftBuffer[..]), old(fftPos)), samples, fftLib);
              && fftBuffer[..] == r.0.frame && fftPos == r.0.pos
              && events == old(events) + SpectrumEvents(r.1, math)
    {
      ghost var acc0 := Accumulator(fftBuffer[..], fftPos);
      ghost var events0 := events;
      max := 0.0;
      var i := 0;
      assert samples[..0] == [];
      while i < |samples|
        invariant 0 <= i <= |samples|
        invariant AnalysisValid() && fftPos < FftLength
        invariant lastFftResults == old(lastFftResults) || (lastFftResults != null && fresh(lastFftResults))
        invariant max == MaxAbs(samples[..i])
        invariant Fed(acc0, events0, samples[..i])
      {
        var s := samples[i];
        var a := Abs(s);
        if a > max {
          max := a;
        }
        PushSample(s, acc0, events0, samples[..i]);
        assert samples[..i + 1] == samples[..i] + [s];
        MaxAbsStep(samples[..i], s);
        i := i + 1;
      }
      assert samples[..i] == samples;
    }
  }
}
