/**
 * The metering tap (`MeteringSampleProvider`): a passthrough at the end of
 * the chain that hands a copy of each processed chunk to its subscriber.
 */
module Metering {
  import opened Wrappers

  class MeteringTap {
    /** Whether a `StreamVolume` handler is attached. */
    var subscribed: bool

    constructor ()
      ensures !subscribed
    {
      subscribed := false;
    }

    method Subscribe()
      modifies this`subscribed
      ensures subscribed
    {
      subscribed := true;
    }

    method Unsubscribe()
      modifies this`subscribed
      ensures !subscribed
    {
      subscribed := false;
    }

    /**
     * `Read` after upstream put `samplesRead` samples at `offset`: the buffer
     * is left as it is, and the chunk handed to the subscriber, if any, is a
     * copy of exactly that slice.
     */
    method Read(buffer: array<real>, offset: nat, samplesRead: nat) returns (chunk: Option<seq<real>>)
      requires offset + samplesRead <= buffer.Length
      ensures chunk.Some? <==> samplesRead > 0 && subscribed
      ensures chunk.Some? ==> chunk.value == buffer[offset..offset + samplesRead]
    {
      chunk := None;
      if samplesRead > 0 && subscribed {
        var copy := new real[samplesRead];
        var i := 0;
        while i < samplesRead
          invariant 0 <= i <= samplesRead
          invariant copy[..i] == buffer[offset..offset + i]
        {
          copy[i] := buffer[offset + i];
          i := i + 1;
        }
        chunk := Some(copy[..]);
      }
    }
  }
}
