/** Numeric helpers shared by the modules: JavaScript's Math.round,
    Math.trunc and Math.abs on reals, the shape of a channel buffer, a base-two logarithm and its inverse, and the
    Hz <-> MIDI conversions built on them (src/analysis.js:2-5,
    src/viz.js:431-433). */
module PitchMath {
  import opened Wrappers

  function Abs(x: real): (r: real)
    ensures r >= 0.0 && (r == x || r == -x)
  {
    if x < 0.0 then -x else x
  }

  function Max(a: real, b: real): (r: real)
    ensures r >= a && r >= b && (r == a || r == b)
  {
    if a < b then b else a
  }

  function Min(a: real, b: real): (r: real)
    ensures r <= a && r <= b && (r == a || r == b)
  {
    if a < b then a else b
  }

  /** JavaScript's truncation towards zero (Math.trunc, and ToInt16 on a
      number already within the 16-bit range). */
  function Trunc(y: real): int
  {
    if y >= 0.0 then y.Floor else -((-y).Floor)
  }

  /** An audio buffer's channels: every channel holds `length` samples. */
  predicate Rectangular(chans: seq<seq<real>>, length: nat)
  {
    forall c :: 0 <= c < |chans| ==> |chans[c]| == length
  }

  /** Math.round: the nearest integer, halves rounded towards +infinity. */
  function JsRound(x: real): (r: int)
    ensures r as real - 0.5 <= x < r as real + 0.5
  {
    (x + 0.5).Floor
  }

  /** The loops `for (b = 0; b <= max; b += step)` run over b = k * step;
      this bounds k, so that they terminate. */
  lemma GridIndexBound(k: int, step: real, max: real)
    requires step > 0.0 && k as real * step <= max
    ensures k <= (max / step).Floor
  {
    assert k as real == (k as real * step) / step;
    assert k as real <= max / step;
  }

  /** A rounded percentage of a ratio `num / den` that lies in [0, 1]. */
  function Percent(num: int, den: int): (r: int)
    requires 0 <= num <= den && den > 0
    ensures 0 <= r <= 100
    ensures num == den ==> r == 100
    ensures num == 0 ==> r == 0
  {
    var q := 100.0 * num as real / den as real;
    assert 0.0 <= q <= 100.0 by {
      assert num as real <= den as real;
    }
    assert num == den ==> q == 100.0;
    JsRound(q)
  }

  /* ---------------------------------------------------------------------
     Base-two logarithm. The real logarithm is not definable here; Log2 is
     the octave-exact piecewise-linear stand-in: exact at every power of
     two, linear in between, strictly increasing, and Pow2 is its exact
     inverse. Only facts that also hold of the real logarithm are proved.
     --------------------------------------------------------------------- */

  function Log2(x: real): real
    requires x > 0.0
    decreases if x >= 1.0 then x.Floor else (1.0 / x).Floor + 1
  {
    if 1.0 <= x < 2.0 then x - 1.0
    else if x >= 2.0 then 1.0 + Log2(x / 2.0)
    else
      assert 2.0 * x < 1.0 ==> (1.0 / (2.0 * x)).Floor < (1.0 / x).Floor by {
        if 2.0 * x < 1.0 {
          assert 1.0 / (2.0 * x) == (1.0 / x) / 2.0;
          HalvingLowersFloor(1.0 / x);
        }
      }
      Log2(2.0 * x) - 1.0
  }

  /** Halving a real of at least two lowers its integer part. */
  lemma HalvingLowersFloor(y: real)
    requires y >= 2.0
    ensures 1 <= (y / 2.0).Floor < y.Floor
  {
  }

  function Pow2(y: real): (r: real)
    ensures r > 0.0
    decreases if y >= 0.0 then y.Floor else (-y).Floor + 1
  {
    if 0.0 <= y < 1.0 then 1.0 + y
    else if y >= 1.0 then 2.0 * Pow2(y - 1.0)
    else Pow2(y + 1.0) / 2.0
  }

  /** Doubling the argument adds exactly one to the logarithm. */
  lemma Log2Double(x: real)
    requires x > 0.0
    ensures Log2(2.0 * x) == 1.0 + Log2(x)
  {
    if x >= 1.0 {
      assert (2.0 * x) / 2.0 == x;
    }
  }

  /** Log2 inverts Pow2 exactly. */
  lemma {:induction false} Log2OfPow2(y: real)
    ensures Log2(Pow2(y)) == y
    decreases if y >= 0.0 then y.Floor else (-y).Floor + 1
  {
    if 0.0 <= y < 1.0 {
    } else if y >= 1.0 {
      Log2OfPow2(y - 1.0);
      Log2Double(Pow2(y - 1.0));
    } else {
      Log2OfPow2(y + 1.0);
      var p := Pow2(y + 1.0);
      Log2Double(p / 2.0);
      assert 2.0 * (p / 2.0) == p;
    }
  }

  lemma {:induction false} Log2NonNegative(x: real)
    requires x >= 1.0
    ensures Log2(x) >= 0.0
    decreases x.Floor
  {
    if x >= 2.0 {
      Log2NonNegative(x / 2.0);
    }
  }

  lemma {:induction false} Log2BelowOne(x: real)
    requires 0.0 < x < 2.0
    ensures Log2(x) < 1.0
    ensures x < 1.0 ==> Log2(x) < 0.0
    decreases if x >= 1.0 then x.Floor else (1.0 / x).Floor + 1
  {
    if x < 1.0 {
      Log2BelowOne(2.0 * x);
    }
  }

  /** Log2 is strictly increasing, so FreqToMidi orders pitches as the
      frequencies are ordered. */
  lemma {:induction false} Log2StrictlyIncreasing(x: real, y: real)
    requires 0.0 < x < y
    ensures Log2(x) < Log2(y)
    decreases if x >= 1.0 then y.Floor else (1.0 / x).Floor + 1
  {
    if x < 1.0 && 1.0 <= y {
      Log2BelowOne(x);
      Log2NonNegative(y);
    } else if x < 1.0 {
      Log2StrictlyIncreasing(2.0 * x, 2.0 * y);
    } else if y < 2.0 {
    } else if x < 2.0 {
      Log2BelowOne(x);
      Log2NonNegative(y / 2.0);
    } else {
      Log2StrictlyIncreasing(x / 2.0, y / 2.0);
    }
  }

  /* ---------------------------------------------------------------------
     Hz <-> MIDI
     --------------------------------------------------------------------- */

  /** freqToMidi: `null` for a missing or non-positive frequency, otherwise
      69 + 12 * log2(f / 440). */
  function FreqToMidi(freq: real): (r: Option<real>)
    ensures r.None? <==> freq <= 0.0
  {
    if freq <= 0.0 then None else Some(69.0 + 12.0 * Log2(freq / 440.0))
  }

  /** midiToFreq: 440 * 2^((m - 69) / 12). */
  function MidiToFreq(midi: real): (r: real)
    ensures r > 0.0
  {
    440.0 * Pow2((midi - 69.0) / 12.0)
  }

  lemma FreqToMidiOfA4()
    ensures FreqToMidi(440.0) == Some(69.0)
  {
  }

  lemma MidiToFreqOfA4()
    ensures MidiToFreq(69.0) == 440.0
  {
  }

  /** freqToMidi(midiToFreq(m)) == m, for every MIDI number m. */
  lemma MidiFreqRoundTrip(midi: real)
    ensures FreqToMidi(MidiToFreq(midi)) == Some(midi)
  {
    var y := (midi - 69.0) / 12.0;
    Log2OfPow2(y);
    assert MidiToFreq(midi) / 440.0 == Pow2(y);
  }

  /** Doubling a frequency raises its MIDI number by exactly one octave. */
  lemma FreqToMidiOctave(freq: real)
    requires freq > 0.0
    ensures FreqToMidi(2.0 * freq).value == FreqToMidi(freq).value + 12.0
  {
    Log2Double(freq / 440.0);
    assert (2.0 * freq) / 440.0 == 2.0 * (freq / 440.0);
  }

  /** A higher frequency always has a higher MIDI number. */
  lemma FreqToMidiMonotone(f: real, g: real)
    requires 0.0 < f < g
    ensures FreqToMidi(f).value < FreqToMidi(g).value
  {
    Log2StrictlyIncreasing(f / 440.0, g / 440.0);
  }
}
