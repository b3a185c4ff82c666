/** The pitch track that src/audio.js:68 returns and src/analysis.js reads:
    frame times in seconds, one fundamental-frequency estimate per frame
    (0 for an unvoiced frame), and the framing constants. */
module PitchTracks {

  datatype PitchTrack = PitchTrack(
    times: seq<real>,
    f0: seq<real>,
    sampleRate: real,
    frameSize: nat,
    hopSize: nat)

  /** A positive frame period hopSize / sampleRate. */
  predicate PositivePeriod(t: PitchTrack)
  {
    t.sampleRate > 0.0 && t.hopSize > 0
  }

  /** Also one time per f0 value, as every track the framing loop builds has. */
  predicate ValidTrack(t: PitchTrack)
  {
    |t.times| == |t.f0| && PositivePeriod(t)
  }

  /** `hopSize / sampleRate`, the frame period in seconds. */
  function HopSeconds(t: PitchTrack): (h: real)
    requires PositivePeriod(t)
    ensures h > 0.0
  {
    t.hopSize as real / t.sampleRate
  }
}
