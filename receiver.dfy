/** The receiver, seen only through the three driver calls the sweep makes:
    setting the local oscillator (`sdr.rx_lo = ...`), destroying the receive
    buffer (`sdr.rx_destroy_buffer()`) and capturing one buffer
    (`sdr.rx()`). Every call is recorded in an event trace. Which samples the
    hardware delivers is not modelled: `samples(lo, n)` stands for the block
    the n-th capture returns while tuned to `lo`. */
module Pluto {

  /** One complex baseband sample. */
  datatype Sample = Sample(i: real, q: real)

  /** One buffer of samples as `rx()` returns it. */
  type Block = seq<Sample>

  datatype RxEvent =
    | Tune(lo: int)
    | DestroyBuffer
      /** A capture, with the oscillator frequency in effect and whether the
          buffer could still hold samples from before the last retune. */
    | Capture(lo: int, stale: bool)

  class Receiver {
    var rxLo: int
    /** The oscillator was retuned after the buffer was last destroyed. */
    var stale: bool
    var captures: nat
    var events: seq<RxEvent>
    const samples: (int, nat) -> Block

    constructor (samples: (int, nat) -> Block, lo: int)
      ensures this.samples == samples
      ensures rxLo == lo && !stale && captures == 0 && events == []
    {
      this.samples := samples;
      rxLo := lo;
      stale := false;
      captures := 0;
      events := [];
    }

    /** `sdr.rx_lo = f`. */
    method SetRxLo(f: int)
      modifies this
      ensures rxLo == f && stale && captures == old(captures)
      ensures events == old(events) + [Tune(f)]
    {
      rxLo := f;
      stale := true;
      events := events + [Tune(f)];
    }

    /** `sdr.rx_destroy_buffer()`: the next capture starts from an empty
        buffer under the current settings. */
    method RxDestroyBuffer()
      modifies this
      ensures rxLo == old(rxLo) && !stale && captures == old(captures)
      ensures events == old(events) + [DestroyBuffer]
    {
      stale := false;
      events := events + [DestroyBuffer];
    }

    /** `sdr.rx()`. */
    method Rx() returns (b: Block)
      modifies this
      ensures b == samples(old(rxLo), old(captures))
      ensures rxLo == old(rxLo) && stale == old(stale) && captures == old(captures) + 1
      ensures events == old(events) + [Capture(old(rxLo), old(stale))]
    {
      b := samples(rxLo, captures);
      events := events + [Capture(rxLo, stale)];
      captures := captures + 1;
    }
  }
}
