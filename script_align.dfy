/** fineAlign (script.js:293-315): both time lists become 10 ms bins of
    binary events, and the shift of at most ±50 bins with the largest
    overlap is the fine offset. The pitch list it is also given is not
    used. */
module ScriptAlign {
  import opened Wrappers
  import opened PitchMath

  /** The bin width in seconds. */
  const BinWidth: real := 0.01

  /** The largest shift tried, in bins. */
  const MaxShift: int := 50

  /** floor(t / 0.01). */
  function Bin(t: real): int
  {
    (t / BinWidth).Floor
  }

  /** L = floor(maxT / 0.01) + 1 with maxT one second past the later of
      the two last times. */
  function BinCount(audioTimes: seq<real>, noteTimes: seq<real>): int
    requires |audioTimes| > 0 && |noteTimes| > 0
  {
    Bin(Max(audioTimes[|audioTimes| - 1], noteTimes[|noteTimes| - 1]) + 1.0) + 1
  }

  /** Bin i holds an event of `times`. */
  ghost predicate HasEvent(times: seq<real>, i: int)
  {
    exists k :: 0 <= k < |times| && Bin(times[k]) == i
  }

  /** The L bins of `times`. */
  ghost function Bins(times: seq<real>, L: nat): (bins: seq<bool>)
    ensures |bins| == L
  {
    seq(L, i => HasEvent(times, i))
  }

  /** The events of `times` in L bins; writes outside the typed array are
      dropped. */
  method BinsOf(times: seq<real>, L: nat) returns (bins: seq<bool>)
    ensures bins == Bins(times, L)
  {
    var a := new bool[L](_ => false);
    var k := 0;
    while k < |times|
      invariant 0 <= k <= |times|
      invariant forall i :: 0 <= i < L ==> (a[i] <==> HasEvent(times[..k], i))
    {
      var j := Bin(times[k]);
      if 0 <= j < L {
        a[j] := true;
      }
      assert times[..k + 1] == times[..k] + [times[k]];
      forall i | 0 <= i < L
        ensures HasEvent(times[..k + 1], i) <==> HasEvent(times[..k], i) || Bin(times[k]) == i
      {
        if HasEvent(times[..k + 1], i) {
          var m :| 0 <= m < k + 1 && Bin(times[..k + 1][m]) == i;
          if m < k {
            assert times[..k][m] == times[..k + 1][m];
          }
        }
        if HasEvent(times[..k], i) {
          var m :| 0 <= m < k && Bin(times[..k][m]) == i;
          assert times[..k + 1][m] == times[..k][m];
        }
        if Bin(times[k]) == i {
          assert times[..k + 1][k] == times[k];
        }
      }
      k := k + 1;
    }
    assert times[..|times|] == times;
    bins := a[..];
    assert forall i :: 0 <= i < L ==> bins[i] == Bins(times, L)[i];
  }

  /** The overlap Σ a[i] & b[i + s] over the first n bins. */
  function OverlapUpTo(a: seq<bool>, b: seq<bool>, s: int, n: nat): (c: nat)
    requires n <= |a|
    ensures c <= n
  {
    if n == 0 then 0
    else
      var j := n - 1 + s;
      OverlapUpTo(a, b, s, n - 1) + (if 0 <= j < |b| && a[n - 1] && b[j] then 1 else 0)
  }

  function Overlap(a: seq<bool>, b: seq<bool>, s: int): nat
  {
    OverlapUpTo(a, b, s, |a|)
  }

  method ShiftScore(a: seq<bool>, b: seq<bool>, s: int) returns (score: nat)
    ensures score == Overlap(a, b, s)
  {
    score := 0;
    var i := 0;
    while i < |a|
      invariant 0 <= i <= |a|
      invariant score == OverlapUpTo(a, b, s, i)
    {
      var j := i + s;
      if 0 <= j < |b| && a[i] && b[j] {
        score := score + 1;
      }
      i := i + 1;
    }
  }

  /** s is the first shift in -50..50 with the largest overlap. */
  ghost predicate IsBestShift(a: seq<bool>, b: seq<bool>, s: int)
  {
    -MaxShift <= s <= MaxShift &&
    (forall t :: -MaxShift <= t <= MaxShift ==> Overlap(a, b, t) <= Overlap(a, b, s)) &&
    (forall t :: -MaxShift <= t < s ==> Overlap(a, b, t) < Overlap(a, b, s))
  }

  /** The shift search. */
  method BestShift(a: seq<bool>, b: seq<bool>) returns (bestShift: int)
    ensures IsBestShift(a, b, bestShift)
  {
    bestShift := 0;
    var bestScore: int := -1;
    var s := -MaxShift;
    while s <= MaxShift
      invariant -MaxShift <= s <= MaxShift + 1
      invariant s == -MaxShift ==> bestScore == -1
      invariant s > -MaxShift ==> -MaxShift <= bestShift < s && bestScore == Overlap(a, b, bestShift)
      invariant forall t :: -MaxShift <= t < s ==> Overlap(a, b, t) <= bestScore
      invariant forall t :: -MaxShift <= t < bestShift && s > -MaxShift ==> Overlap(a, b, t) < bestScore
    {
      var score := ShiftScore(a, b, s);
      if score > bestScore {
        bestScore := score;
        bestShift := s;
      }
      s := s + 1;
    }
  }

  /** fineAlign: 0 for an empty list; otherwise the best shift in seconds.
      Times so far below zero that the bin count is negative make the
      typed-array allocation throw. */
  method FineAlign(audioTimes: seq<real>, noteTimes: seq<real>) returns (r: Result<real>)
    ensures (|audioTimes| == 0 || |noteTimes| == 0) ==> r == Success(0.0)
    ensures r.Failure? <==> |audioTimes| > 0 && |noteTimes| > 0 && BinCount(audioTimes, noteTimes) < 0
    ensures r.Success? && |audioTimes| > 0 && |noteTimes| > 0 ==>
      var L := BinCount(audioTimes, noteTimes);
      exists s: int :: IsBestShift(Bins(audioTimes, L), Bins(noteTimes, L), s) && r.value == s as real * BinWidth
  {
    if |audioTimes| == 0 || |noteTimes| == 0 {
      return Success(0.0);
    }
    var L := BinCount(audioTimes, noteTimes);
    if L < 0 {
      return Failure("RangeError: Invalid typed array length");
    }
    var a := BinsOf(audioTimes, L);
    var b := BinsOf(noteTimes, L);
    var bestShift := BestShift(a, b);
    return Success(bestShift as real * BinWidth);
  }
}
