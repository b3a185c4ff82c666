/** The signal side of the single-page pipeline: the autocorrelation pitch
    tracker `estimatePitchTrack` (script.js:233-256) and the energy
    threshold `detectOnset` (script.js:273-290), on the first channel's
    samples `ch` at an integral sample rate `sr`. */
module ScriptPitch {
  import opened Wrappers
  import opened PitchMath

  /* ---------------------------------------------------------------------
     estimatePitchTrack with its default 10 ms hop and 30 ms frame
     --------------------------------------------------------------------- */

  /** floor(sr * 10 / 1000). */
  function HopOf(sr: nat): nat { sr / 100 }

  /** floor(sr * 30 / 1000). */
  function FrameSizeOf(sr: nat): nat { (3 * sr) / 100 }

  /** floor(sr / 1000) and floor(sr / 80): the lags of 1000 Hz and 80 Hz. */
  function MinLagOf(sr: nat): nat { sr / 1000 }
  function MaxLagOf(sr: nat): nat { sr / 80 }

  /** `channel[a] * channel[b] || 0`: a read outside the buffer is
      undefined, and the product then NaN, counted as 0. */
  function Product(ch: seq<real>, a: int, b: int): real
  {
    if 0 <= a < |ch| && 0 <= b < |ch| then ch[a] * ch[b] else 0.0
  }

  /** The correlation of the first n samples of the frame at s with the
      samples lag earlier. */
  function Corr(ch: seq<real>, s: int, lag: int, n: nat): real
  {
    if n == 0 then 0.0 else Corr(ch, s, lag, n - 1) + Product(ch, s + n - 1, s + n - 1 - lag)
  }

  /** The running best of the lag loop after lags minLag..hi-1: the first
      lag whose correlation is largest, if that is positive; (0, 0) if no
      lag has positive correlation. */
  function BestLagUpTo(ch: seq<real>, s: int, size: nat, minLag: nat, hi: nat): (r: (nat, real))
    ensures r.1 >= 0.0
    ensures r.1 == 0.0 ==> r.0 == 0
    ensures r.1 > 0.0 ==> minLag <= r.0 < hi && r.1 == Corr(ch, s, r.0, size)
    ensures forall lag :: minLag <= lag < hi ==> Corr(ch, s, lag, size) <= r.1
    ensures r.1 > 0.0 ==> forall lag :: minLag <= lag < r.0 ==> Corr(ch, s, lag, size) < r.1
    decreases hi
  {
    if hi <= minLag then (0, 0.0)
    else
      var prev := BestLagUpTo(ch, s, size, minLag, hi - 1);
      var c := Corr(ch, s, hi - 1, size);
      if c > prev.1 then (hi - 1, c) else prev
  }

  /** f0 of frame i: sr / bestLag, or 0 when no lag won. */
  function FrameF0(ch: seq<real>, sr: nat, i: nat): (f: real)
    ensures f == 0.0 || f >= 80.0
  {
    var best := BestLagUpTo(ch, i * HopOf(sr), FrameSizeOf(sr), MinLagOf(sr), MaxLagOf(sr) + 1);
    if best.0 > 0 then
      LagFrequencyBound(sr, best.0);
      sr as real / best.0 as real
    else 0.0
  }

  /** A lag of at most floor(sr / 80) samples is a frequency of at least
      80 Hz. */
  lemma LagFrequencyBound(sr: nat, lag: nat)
    requires 0 < lag <= sr / 80
    ensures sr as real / lag as real >= 80.0
  {
    MulMonotone(lag, sr / 80, 80);
    assert lag * 80 <= sr;
    assert (lag * 80) as real == lag as real * 80.0;
    QuotientAtLeast(sr as real, lag as real, 80.0);
  }

  /** r / l >= k when r >= k * l and l is positive. */
  lemma QuotientAtLeast(r: real, l: real, k: real)
    requires l > 0.0 && r >= k * l
    ensures r / l >= k
  {
    var q := r / l;
    assert q * l == r;
    if q < k {
      assert q * l < k * l;
    }
  }

  datatype PitchFrames = PitchFrames(f0: seq<real>, t: seq<real>)

  method Correlation(ch: seq<real>, s: int, lag: int, size: nat) returns (sum: real)
    ensures sum == Corr(ch, s, lag, size)
  {
    sum := 0.0;
    var j := 0;
    while j < size
      invariant 0 <= j <= size
      invariant sum == Corr(ch, s, lag, j)
    {
      sum := sum + Product(ch, s + j, s + j - lag);
      j := j + 1;
    }
  }

  method BestLag(ch: seq<real>, s: int, size: nat, minLag: nat, maxLag: nat) returns (bestLag: nat, bestCorr: real)
    ensures (bestLag, bestCorr) == BestLagUpTo(ch, s, size, minLag, maxLag + 1)
  {
    bestLag, bestCorr := 0, 0.0;
    var lag := minLag;
    while lag <= maxLag
      invariant minLag <= lag <= maxLag + 1 || lag == minLag
      invariant (bestLag, bestCorr) == BestLagUpTo(ch, s, size, minLag, lag)
    {
      var sum := Correlation(ch, s, lag, size);
      if sum > bestCorr {
        bestCorr := sum;
        bestLag := lag;
      }
      lag := lag + 1;
    }
    if minLag > maxLag {
      assert BestLagUpTo(ch, s, size, minLag, maxLag + 1) == (0, 0.0);
    }
  }

  /** estimatePitchTrack. There are floor((len - size) / hop) frames; a
      buffer shorter than one frame makes that count negative and the
      typed-array allocation throw. Below 100 Hz the hop is 0 samples:
      the count is then +-Infinity, which throws as well, except for a
      buffer of exactly one frame, where 0 / 0 is NaN and the arrays are
      empty. */
  method EstimatePitchTrack(ch: seq<real>, sr: nat) returns (r: Result<PitchFrames>)
    ensures r.Failure? <==> |ch| < FrameSizeOf(sr) || (HopOf(sr) == 0 && |ch| != FrameSizeOf(sr))
    ensures r.Success? ==> |r.value.t| == |r.value.f0|
    ensures r.Success? && HopOf(sr) > 0 ==> |r.value.f0| == (|ch| - FrameSizeOf(sr)) / HopOf(sr)
    ensures r.Success? && HopOf(sr) == 0 ==> |r.value.f0| == 0
    ensures r.Success? ==> forall i :: 0 <= i < |r.value.f0| ==>
      r.value.f0[i] == FrameF0(ch, sr, i) && r.value.t[i] == (i * HopOf(sr)) as real / sr as real
  {
    var hop := sr / 100;
    var size := (3 * sr) / 100;
    if |ch| < size || (hop == 0 && |ch| != size) {
      return Failure("RangeError: Invalid typed array length");
    }
    var total := if hop == 0 then 0 else (|ch| - size) / hop;
    var f0 := new real[total];
    var t := new real[total];
    var i := 0;
    while i < total
      invariant 0 <= i <= total
      invariant forall k :: 0 <= k < i ==> f0[k] == FrameF0(ch, sr, k) && t[k] == (k * hop) as real / sr as real
    {
      var f, time := PitchFrame(ch, sr, i);
      f0[i] := f;
      t[i] := time;
      i := i + 1;
    }
    return Success(PitchFrames(f0[..], t[..]));
  }

  /** One iteration of the frame loop: frame i's f0 and time. */
  method PitchFrame(ch: seq<real>, sr: nat, i: nat) returns (f: real, time: real)
    requires sr >= 100
    ensures f == FrameF0(ch, sr, i) && time == (i * HopOf(sr)) as real / sr as real
  {
    var s := i * (sr / 100);
    var bestLag, bestCorr := BestLag(ch, s, (3 * sr) / 100, sr / 1000, sr / 80);
    f := if bestLag > 0 then sr as real / bestLag as real else 0.0;
    time := s as real / sr as real;
  }

  /* ---------------------------------------------------------------------
     detectOnset: the first 20 ms window, stepped by 10 ms, louder than
     max(0.02, 0.6 * the RMS of the first two seconds). RMS values are
     compared squared, which is equivalent for non-negative values.
     --------------------------------------------------------------------- */

  /** The sum of squares of ch[from .. from + n). */
  function Energy(ch: seq<real>, from: nat, n: nat): (e: real)
    requires from + n <= |ch|
    ensures e >= 0.0
  {
    if n == 0 then 0.0 else Energy(ch, from, n - 1) + ch[from + n - 1] * ch[from + n - 1]
  }

  /** floor(sr * 0.02) and floor(sr * 0.01). */
  function WindowOf(sr: nat): nat { sr / 50 }
  function StepOf(sr: nat): nat { sr / 100 }

  /** The first min(len, 2 sr) samples make the baseline. */
  function BaselineLength(ch: seq<real>, sr: nat): (n: nat)
    ensures n <= |ch|
  {
    if |ch| < 2 * sr then |ch| else 2 * sr
  }

  /** thr squared: max(0.02^2, 0.36 * baseline mean square). */
  function Threshold2(ch: seq<real>, sr: nat): (t2: real)
    requires BaselineLength(ch, sr) > 0
    ensures t2 >= 0.0004
  {
    var n := BaselineLength(ch, sr);
    Max(0.0004, 0.36 * (Energy(ch, 0, n) / n as real))
  }

  /** Window number p (at sample p * hop) exists and is loud. */
  predicate Loud(ch: seq<real>, sr: nat, t2: real, p: nat)
    requires sr >= 100
  {
    var i := p * StepOf(sr);
    i + WindowOf(sr) < |ch| && Energy(ch, i, WindowOf(sr)) / WindowOf(sr) as real > t2
  }

  /** The first loud window at or after window k. */
  function FirstLoud(ch: seq<real>, sr: nat, t2: real, k: nat): (r: Option<nat>)
    requires sr >= 100
    ensures r.Some? ==> k <= r.value && Loud(ch, sr, t2, r.value)
    ensures r.Some? ==> forall p :: k <= p < r.value ==> !Loud(ch, sr, t2, p)
    ensures r.None? ==> forall p :: k <= p ==> !Loud(ch, sr, t2, p)
    decreases |ch| - k * StepOf(sr)
  {
    var i := k * StepOf(sr);
    if i + WindowOf(sr) >= |ch| then
      assert forall p :: k <= p ==> p * StepOf(sr) >= i by {
        forall p | k <= p ensures p * StepOf(sr) >= i {
          MulMonotone(k, p, StepOf(sr));
        }
      }
      None
    else if Loud(ch, sr, t2, k) then Some(k)
    else
      assert (k + 1) * StepOf(sr) == i + StepOf(sr);
      FirstLoud(ch, sr, t2, k + 1)
  }

  lemma MulMonotone(a: nat, b: nat, c: nat)
    requires a <= b
    ensures a * c <= b * c
  {
  }

  /** The onset time: the first loud window's start in seconds, else 0. */
  function OnsetTime(ch: seq<real>, sr: nat): real
    requires sr >= 100
  {
    if BaselineLength(ch, sr) == 0 then 0.0
    else match FirstLoud(ch, sr, Threshold2(ch, sr), 0)
      case None => 0.0
      case Some(p) => (p * StepOf(sr)) as real / sr as real
  }

  method WindowEnergy(ch: seq<real>, from: nat, n: nat) returns (sum: real)
    requires from + n <= |ch|
    ensures sum == Energy(ch, from, n)
  {
    sum := 0.0;
    var j := 0;
    while j < n
      invariant 0 <= j <= n
      invariant sum == Energy(ch, from, j)
    {
      sum := sum + ch[from + j] * ch[from + j];
      j := j + 1;
    }
  }

  /** detectOnset. Requires sr >= 100: with a zero hop the scan would not
      advance past the first window, and it runs forever unless that
      window is loud. */
  method DetectOnset(ch: seq<real>, sr: nat) returns (t: real)
    requires sr >= 100
    ensures t == OnsetTime(ch, sr)
  {
    var win := sr / 50;
    var hop := sr / 100;
    var n := if |ch| < 2 * sr then |ch| else 2 * sr;
    if n == 0 {
      return 0.0;
    }
    var base := WindowEnergy(ch, 0, n);
    var thr2 := Max(0.0004, 0.36 * (base / n as real));
    var i := 0;
    var k := 0;
    while i < |ch| - win
      invariant i == k * hop
      invariant FirstLoud(ch, sr, thr2, k) == FirstLoud(ch, sr, thr2, 0)
      decreases |ch| - i
    {
      var sum := WindowEnergy(ch, i, win);
      if sum / win as real > thr2 {
        return i as real / sr as real;
      }
      i := i + hop;
      k := k + 1;
    }
    return 0.0;
  }
}
