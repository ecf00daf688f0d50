/**
 * Stand-ins for the WASAPI endpoints and the NAudio plumbing the engine
 * wires together. Only the state the engine sets and relies on is kept,
 * as fields the engine assigns: whether a handler is attached, whether a
 * stream is started or disposed, whether the buffer discards on overflow,
 * the volume.
 */
module Devices {
  import opened Wrappers

  /**
   * An audio endpoint. Its failures are part of the value: `openError` is
   * the message of the exception opening a stream on it raises, `startError`
   * that of starting the stream.
   */
  datatype Device = Device(id: string, sampleRate: nat, openError: Option<string>, startError: Option<string>)

  /** A shared-mode capture stream (`WasapiCapture`). */
  class Capture {
    const device: Device
    var handlerAttached: bool
    var recording: bool
    var disposed: bool

    constructor (device: Device)
      ensures this.device == device
      ensures !handlerAttached && !recording && !disposed
    {
      this.device := device;
      handlerAttached := false;
      recording := false;
      disposed := false;
    }
  }

  /** A shared-mode render stream (`WasapiOut`) with event sync and its latency. */
  class Render {
    const device: Device
    const latencyMs: nat
    var initialised: bool
    var playing: bool
    var disposed: bool

    constructor (device: Device, latencyMs: nat)
      ensures this.device == device && this.latencyMs == latencyMs
      ensures !initialised && !playing && !disposed
    {
      this.device := device;
      this.latencyMs := latencyMs;
      initialised := false;
      playing := false;
      disposed := false;
    }
  }

  /** The capture-side queue (`BufferedWaveProvider`): the byte chunks handed to it, in order. */
  class WaveBuffer {
    var discardOnOverflow: bool
    var received: seq<seq<bv8>>

    constructor ()
      ensures !discardOnOverflow && received == []
    {
      discardOnOverflow := false;
      received := [];
    }
  }

  /** The gain stage (`VolumeSampleProvider`): a linear factor applied to every sample. */
  class VolumeStage {
    var volume: real

    constructor ()
      ensures volume == 1.0
    {
      volume := 1.0;
    }
  }
}
