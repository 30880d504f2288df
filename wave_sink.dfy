/**
 * The audio target the encoder writes to. The wave-file library itself is
 * outside the model; what the encoder relies on is a writable flag, a
 * sample rate, a channel count, and an append-only run of frames.
 */
module WaveSink {
  import opened Signal

  class Wave {
    const writable: bool
    const sampleRate: nat
    const numberOfChannels: nat
    /** Every frame written so far, in order. */
    var frames: seq<Frame>

    constructor (writable: bool, sampleRate: nat, numberOfChannels: nat)
      ensures this.writable == writable
      ensures this.sampleRate == sampleRate && this.numberOfChannels == numberOfChannels
      ensures frames == []
    {
      this.writable := writable;
      this.sampleRate := sampleRate;
      this.numberOfChannels := numberOfChannels;
      frames := [];
    }

    function IsWritable(): bool
    {
      writable
    }

    /** Appends the generated frames, in order, dropping none. */
    method FromGenerator(generated: seq<Frame>)
      modifies this
      ensures frames == old(frames) + generated
    {
      frames := frames + generated;
    }
  }
}
