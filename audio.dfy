/** The audio front end (src/audio.js): `preprocessBuffer` mixes the
    channels down to mono, hands the result to the WebAudio filter chain
    and peak-normalises what comes back to 0.9; `analyzePitchTrack` then
    cuts the processed samples into 4096-sample frames every 256 samples
    and keeps each detected frequency only inside the singing range. The
    filter chain and the YIN detector are parameters. */
module AudioFrames {
  import opened Wrappers
  import opened PitchMath
  import opened PitchTracks

  /* ---------------------------------------------------------------------
     Downmix
     --------------------------------------------------------------------- */

  /** Σ chans[c][i] / n over the channels c < k: what `dst[i]` holds once
      the channel loop has done k channels. */
  function Share(chans: seq<seq<real>>, length: nat, i: nat, k: nat): real
    requires Rectangular(chans, length) && i < length && k <= |chans|
  {
    if k == 0 then 0.0 else Share(chans, length, i, k - 1) + chans[k - 1][i] / |chans| as real
  }

  /** Σ chans[c][i] over the channels c < k. */
  function ChannelSum(chans: seq<seq<real>>, length: nat, i: nat, k: nat): real
    requires Rectangular(chans, length) && i < length && k <= |chans|
  {
    if k == 0 then 0.0 else ChannelSum(chans, length, i, k - 1) + chans[k - 1][i]
  }

  /** Adding the shares of all channels gives their mean. */
  lemma {:induction false} ShareIsMean(chans: seq<seq<real>>, length: nat, i: nat, k: nat)
    requires Rectangular(chans, length) && i < length && 0 < |chans| && k <= |chans|
    ensures Share(chans, length, i, k) == ChannelSum(chans, length, i, k) / |chans| as real
  {
    if k > 0 {
      ShareIsMean(chans, length, i, k - 1);
    }
  }

  /** The mono buffer after the first k channels. */
  function MixedUpTo(chans: seq<seq<real>>, length: nat, k: nat): (m: seq<real>)
    requires Rectangular(chans, length) && k <= |chans|
    ensures |m| == length
  {
    seq(length, i requires 0 <= i < length => Share(chans, length, i, k))
  }

  /** The downmix loop of preprocessBuffer over a zero-filled buffer. */
  method Downmix(chans: seq<seq<real>>, length: nat) returns (dst: array<real>)
    requires Rectangular(chans, length)
    ensures fresh(dst)
    ensures dst[..] == MixedUpTo(chans, length, |chans|)
  {
    dst := new real[length](_ => 0.0);
    var ch := 0;
    while ch < |chans|
      invariant 0 <= ch <= |chans|
      invariant dst[..] == MixedUpTo(chans, length, ch)
    {
      var data := chans[ch];
      var i := 0;
      while i < length
        invariant 0 <= i <= length
        invariant forall j :: 0 <= j < i ==> dst[j] == Share(chans, length, j, ch + 1)
        invariant forall j :: i <= j < length ==> dst[j] == Share(chans, length, j, ch)
      {
        dst[i] := dst[i] + data[i] / |chans| as real;
        i := i + 1;
      }
      ch := ch + 1;
    }
  }

  /** Each sample of the mono buffer is the mean of the channels' samples,
      and a buffer without channels stays silent. */
  lemma DownmixIsMean(chans: seq<seq<real>>, length: nat, i: nat)
    requires Rectangular(chans, length) && i < length
    ensures |chans| > 0 ==>
      MixedUpTo(chans, length, |chans|)[i] == ChannelSum(chans, length, i, |chans|) / |chans| as real
    ensures |chans| == 0 ==> MixedUpTo(chans, length, |chans|)[i] == 0.0
  {
    if |chans| > 0 {
      ShareIsMean(chans, length, i, |chans|);
    }
  }

  /* ---------------------------------------------------------------------
     Peak normalisation
     --------------------------------------------------------------------- */

  /** The running peak max(0, |xs[0]|, ..., |xs[n-1]|). */
  function PeakUpTo(xs: seq<real>, n: nat): (p: real)
    requires n <= |xs|
    ensures p >= 0.0
  {
    if n == 0 then 0.0 else Max(PeakUpTo(xs, n - 1), Abs(xs[n - 1]))
  }

  function Peak(xs: seq<real>): real
  {
    PeakUpTo(xs, |xs|)
  }

  /** The peak bounds every magnitude and is attained, unless it is 0. */
  lemma {:induction false} PeakFacts(xs: seq<real>, n: nat)
    requires n <= |xs|
    ensures forall i :: 0 <= i < n ==> Abs(xs[i]) <= PeakUpTo(xs, n)
    ensures PeakUpTo(xs, n) > 0.0 ==> exists i :: 0 <= i < n && Abs(xs[i]) == PeakUpTo(xs, n)
    ensures PeakUpTo(xs, n) == 0.0 ==> forall i :: 0 <= i < n ==> xs[i] == 0.0
  {
    if n > 0 {
      PeakFacts(xs, n - 1);
      if PeakUpTo(xs, n - 1) < Abs(xs[n - 1]) {
        assert Abs(xs[n - 1]) == PeakUpTo(xs, n);
      }
    }
  }

  /** Every sample multiplied by s. */
  function Scaled(xs: seq<real>, s: real): (ys: seq<real>)
    ensures |ys| == |xs|
  {
    seq(|xs|, i requires 0 <= i < |xs| => xs[i] * s)
  }

  /** The buffer normalisation promises: with a positive peak every sample
      is scaled by 0.9 / peak; an all-zero buffer is left alone. */
  function Normalized(xs: seq<real>): (ys: seq<real>)
    ensures |ys| == |xs|
  {
    if Peak(xs) > 0.0 then Scaled(xs, 0.9 / Peak(xs)) else xs
  }

  /** A bound on every magnitude bounds the peak. */
  lemma {:induction false} PeakAtMost(xs: seq<real>, n: nat, m: real)
    requires n <= |xs| && m >= 0.0
    requires forall i :: 0 <= i < n ==> Abs(xs[i]) <= m
    ensures PeakUpTo(xs, n) <= m
  {
    if n > 0 {
      PeakAtMost(xs, n - 1, m);
    }
  }

  /** Scaling by 0.9 / p keeps a magnitude of at most p within 0.9, and
      takes a magnitude of p to 0.9. */
  lemma ScaledMagnitude(x: real, p: real)
    requires p > 0.0 && Abs(x) <= p
    ensures Abs(x * (0.9 / p)) <= 0.9
    ensures Abs(x) == p ==> Abs(x * (0.9 / p)) == 0.9
  {
    var s := 0.9 / p;
    assert p * s == 0.9;
    if x < 0.0 {
      assert x * s < 0.0;
      assert Abs(x * s) == -x * s;
      assert -x * s <= p * s;
    } else {
      assert x * s >= 0.0;
      assert x * s <= p * s;
    }
  }

  /** The magnitude of a normalised sample. */
  lemma NormalizedMagnitude(xs: seq<real>, i: nat)
    requires i < |xs| && Peak(xs) > 0.0 && Abs(xs[i]) <= Peak(xs)
    ensures Abs(Normalized(xs)[i]) <= 0.9
    ensures Abs(xs[i]) == Peak(xs) ==> Abs(Normalized(xs)[i]) == 0.9
  {
    NormalizedAt(xs, i);
    ScaledMagnitude(xs[i], Peak(xs));
  }

  lemma NormalizedAt(xs: seq<real>, i: nat)
    requires i < |xs| && Peak(xs) > 0.0
    ensures Normalized(xs)[i] == xs[i] * (0.9 / Peak(xs))
  {
  }

  /** After normalisation a buffer with sound peaks at exactly 0.9, and a
      silent buffer is unchanged. */
  lemma NormalizedPeak(xs: seq<real>)
    ensures Peak(xs) > 0.0 ==> Peak(Normalized(xs)) == 0.9
    ensures Peak(xs) == 0.0 ==> Normalized(xs) == xs
  {
    var p := Peak(xs);
    if p > 0.0 {
      var ys := Normalized(xs);
      PeakFacts(xs, |xs|);
      var i0 :| 0 <= i0 < |xs| && Abs(xs[i0]) == p;
      forall i | 0 <= i < |ys|
        ensures Abs(ys[i]) <= 0.9
      {
        NormalizedMagnitude(xs, i);
      }
      PeakAtMost(ys, |ys|, 0.9);
      NormalizedMagnitude(xs, i0);
      PeakFacts(ys, |ys|);
    }
  }

  lemma SignScaled(x: real, s: real)
    requires s > 0.0
    ensures (x > 0.0 <==> x * s > 0.0) && (x < 0.0 <==> x * s < 0.0)
  {
    if x > 0.0 {
      assert x * s > 0.0;
    } else if x < 0.0 {
      assert x * s < 0.0;
    }
  }

  /** Normalisation keeps the sign of every sample. */
  lemma NormalizedSigns(xs: seq<real>, i: nat)
    requires i < |xs|
    ensures var ys := Normalized(xs);
      (xs[i] > 0.0 <==> ys[i] > 0.0) && (xs[i] < 0.0 <==> ys[i] < 0.0) && (xs[i] == 0.0 <==> ys[i] == 0.0)
  {
    var p := Peak(xs);
    if p > 0.0 {
      SignScaled(xs[i], 0.9 / p);
    }
  }

  /** The running-max loop. */
  method FindPeak(ch0: array<real>) returns (peak: real)
    ensures peak == Peak(ch0[..])
  {
    peak := 0.0;
    var i := 0;
    while i < ch0.Length
      invariant 0 <= i <= ch0.Length
      invariant peak == PeakUpTo(ch0[..], i)
    {
      peak := Max(peak, Abs(ch0[i]));
      i := i + 1;
    }
  }

  /** The normalisation of preprocessBuffer, in place. */
  method Normalize(ch0: array<real>)
    modifies ch0
    ensures ch0[..] == Normalized(old(ch0[..]))
  {
    var peak := FindPeak(ch0);
    if peak > 0.0 {
      var s := 0.9 / peak;
      var i := 0;
      while i < ch0.Length
        invariant 0 <= i <= ch0.Length
        invariant forall j :: 0 <= j < i ==> ch0[j] == old(ch0[j]) * s
        invariant forall j :: i <= j < ch0.Length ==> ch0[j] == old(ch0[j])
      {
        ch0[i] := ch0[i] * s;
        i := i + 1;
      }
      assert forall j :: 0 <= j < ch0.Length ==> ch0[..][j] == Scaled(old(ch0[..]), s)[j];
      assert ch0[..] == Scaled(old(ch0[..]), s);
    }
  }

  /** preprocessBuffer: downmix, the filter chain `render` (a high-pass at
      70 Hz and a low-pass at 2 kHz, rendered offline), then normalise. */
  method PreprocessBuffer(chans: seq<seq<real>>, length: nat, render: seq<real> -> seq<real>)
    returns (rendered: seq<real>)
    requires Rectangular(chans, length)
    ensures rendered == Normalized(render(MixedUpTo(chans, length, |chans|)))
  {
    var mono := Downmix(chans, length);
    var out := render(mono[..]);
    var ch0 := new real[|out|](i requires 0 <= i < |out| => out[i]);
    assert ch0[..] == out;
    Normalize(ch0);
    rendered := ch0[..];
  }

  /* ---------------------------------------------------------------------
     Framing and gating
     --------------------------------------------------------------------- */

  const FrameSize: nat := 4096
  const HopSize: nat := 256

  /** How many frames the loop produces: one for each k with
      k * 256 + 4096 < length. */
  function FrameCount(length: nat): nat
  {
    if length > FrameSize then (length - FrameSize - 1) / HopSize + 1 else 0
  }

  lemma FrameCountExact(length: nat, k: nat)
    ensures k < FrameCount(length) <==> k * HopSize + FrameSize < length
  {
  }

  /** `detector(slice) || 0`, then 0 outside [80, 1000]: a missing, NaN or
      zero result is None. */
  function Gate(freq: Option<real>): (f: real)
    ensures f == 0.0 || 80.0 <= f <= 1000.0
    ensures freq.Some? && 80.0 <= freq.value <= 1000.0 ==> f == freq.value
    ensures freq.None? ==> f == 0.0
  {
    if freq.None? then 0.0
    else if freq.value < 80.0 || freq.value > 1000.0 then 0.0
    else freq.value
  }

  /** Frame k: samples [k * 256, k * 256 + 4096). */
  function Frame(samples: seq<real>, k: nat): seq<real>
    requires k * HopSize + FrameSize <= |samples|
  {
    samples[k * HopSize .. k * HopSize + FrameSize]
  }

  /** The framing loop of analyzePitchTrack on the processed samples. */
  method FrameTrack(samples: seq<real>, sampleRate: real, detector: seq<real> -> Option<real>)
    returns (times: seq<real>, f0: seq<real>)
    requires sampleRate > 0.0
    ensures |times| == |f0| == FrameCount(|samples|)
    ensures forall k :: 0 <= k < |times| ==>
      times[k] == (k * HopSize) as real / sampleRate &&
      k * HopSize + FrameSize < |samples| &&
      f0[k] == Gate(detector(Frame(samples, k)))
  {
    times, f0 := [], [];
    var i := 0;
    while i + FrameSize < |samples|
      invariant i == |times| * HopSize
      invariant |f0| == |times| <= FrameCount(|samples|)
      invariant i + FrameSize < |samples| ==> |times| < FrameCount(|samples|)
      invariant i + FrameSize >= |samples| ==> |times| == FrameCount(|samples|)
      invariant forall k :: 0 <= k < |times| ==>
        times[k] == (k * HopSize) as real / sampleRate &&
        k * HopSize + FrameSize < |samples| &&
        f0[k] == Gate(detector(Frame(samples, k)))
      decreases |samples| - i
    {
      var slice := samples[i .. i + FrameSize];
      var freq := Gate(detector(slice));
      times := times + [i as real / sampleRate];
      f0 := f0 + [freq];
      i := i + HopSize;
    }
  }

  /** The frame times step by exactly 256 / sampleRate, so they strictly
      increase, and every kept frequency is 0 or within [80, 1000]. */
  lemma FrameTimesStep(times: seq<real>, sampleRate: real, k: nat)
    requires sampleRate > 0.0
    requires forall j :: 0 <= j < |times| ==> times[j] == (j * HopSize) as real / sampleRate
    requires k + 1 < |times|
    ensures times[k + 1] - times[k] == HopSize as real / sampleRate
    ensures times[k] < times[k + 1]
  {
    assert ((k + 1) * HopSize) as real == (k * HopSize) as real + HopSize as real;
  }

  /** analyzePitchTrack: the processed track with its sample rate and the
      two framing constants. The sample rate is positive, as the audio API
      demands of every buffer. */
  method AnalyzePitchTrack(chans: seq<seq<real>>, length: nat, sampleRate: real,
                           render: seq<real> -> seq<real>, detector: seq<real> -> Option<real>)
    returns (track: PitchTrack)
    requires Rectangular(chans, length) && sampleRate > 0.0
    ensures ValidTrack(track)
    ensures track.sampleRate == sampleRate && track.frameSize == FrameSize && track.hopSize == HopSize
    ensures var samples := Normalized(render(MixedUpTo(chans, length, |chans|)));
      |track.f0| == FrameCount(|samples|) &&
      forall k :: 0 <= k < |track.f0| ==>
        k * HopSize + FrameSize < |samples| &&
        track.times[k] == (k * HopSize) as real / sampleRate &&
        track.f0[k] == Gate(detector(Frame(samples, k)))
  {
    var samples := PreprocessBuffer(chans, length, render);
    var times, f0 := FrameTrack(samples, sampleRate, detector);
    track := PitchTrack(times, f0, sampleRate, FrameSize, HopSize);
  }
}
