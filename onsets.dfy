/** Rhythm scoring (src/analysis.js:203-237): onsets read off the user's
    pitch series, de-duplicated within 0.2 beat, and a greedy matching of
    reference note starts to the nearest unused user onset. */
module Onsets {
  import opened Wrappers
  import opened PitchMath

  /** One entry of `userMidiSeries`: a beat and the pitch heard there. */
  datatype SeriesPoint = SeriesPoint(beat: real, midi: Option<real>)

  /** `idx` lists, in increasing order, positions of `b` holding the
      elements of `a`: `a` is a subsequence of `b`. */
  ghost predicate Embeds(idx: seq<nat>, a: seq<real>, b: seq<real>)
  {
    && |idx| == |a|
    && (forall k :: 0 <= k < |a| ==> idx[k] < |b| && a[k] == b[idx[k]])
    && (forall k, l :: 0 <= k < l < |a| ==> idx[k] < idx[l])
  }

  /* ---------------------------------------------------------------------
     detectUserOnsets
     --------------------------------------------------------------------- */

  /** Point i (i >= 1) starts a note: voicing turns on, or the pitch jumps
      by more than 1.5 semitones between two voiced points. */
  predicate OnsetAt(series: seq<SeriesPoint>, i: nat)
    requires 1 <= i < |series|
  {
    var prev := series[i - 1].midi;
    var cur := series[i].midi;
    (prev.None? && cur.Some?) ||
    (prev.Some? && cur.Some? && Abs(cur.value - prev.value) > 1.5)
  }

  /** The raw onsets among the first n points, in order. */
  function RawOnsetsUpTo(series: seq<SeriesPoint>, n: nat): (r: seq<real>)
    requires n <= |series|
    ensures forall x :: x in r <==> exists i :: 1 <= i < n && OnsetAt(series, i) && series[i].beat == x
  {
    if n <= 1 then []
    else
      var front := RawOnsetsUpTo(series, n - 1);
      if OnsetAt(series, n - 1) then front + [series[n - 1].beat] else front
  }

  function RawOnsets(series: seq<SeriesPoint>): seq<real>
  {
    RawOnsetsUpTo(series, |series|)
  }

  /** The de-duplication loop: a beat is kept when nothing is kept yet or
      it lies more than 0.2 beat from the last kept one. */
  function Dedup(xs: seq<real>): (d: seq<real>)
    ensures |d| <= |xs|
    ensures |xs| > 0 ==> |d| > 0
  {
    if xs == [] then []
    else
      var front := Dedup(xs[..|xs| - 1]);
      var b := xs[|xs| - 1];
      if front == [] || Abs(b - front[|front| - 1]) > 0.2 then front + [b] else front
  }

  /** Consecutive entries lie more than 0.2 beat apart. */
  ghost predicate Spaced(d: seq<real>)
  {
    forall i :: 0 < i < |d| ==> Abs(d[i] - d[i - 1]) > 0.2
  }

  /** Consecutive kept onsets lie more than 0.2 beat apart. */
  lemma {:induction false} DedupGaps(xs: seq<real>)
    ensures Spaced(Dedup(xs))
  {
    if xs != [] {
      var front := Dedup(xs[..|xs| - 1]);
      var b := xs[|xs| - 1];
      DedupGaps(xs[..|xs| - 1]);
      assert Spaced(front);
      if front == [] || Abs(b - front[|front| - 1]) > 0.2 {
        var d := front + [b];
        assert Dedup(xs) == d;
        forall i | 0 < i < |d| ensures Abs(d[i] - d[i - 1]) > 0.2 {
          if i < |front| {
            assert d[i] == front[i] && d[i - 1] == front[i - 1];
            assert Abs(front[i] - front[i - 1]) > 0.2;
          } else {
            assert d[i] == b && d[i - 1] == front[|front| - 1];
          }
        }
        assert Spaced(d);
      } else {
        assert Dedup(xs) == front;
      }
    }
  }

  /** The kept onsets are a subsequence of the raw ones, and the first raw
      onset is always kept. */
  lemma {:induction false} DedupSubsequence(xs: seq<real>) returns (idx: seq<nat>)
    ensures Embeds(idx, Dedup(xs), xs)
    ensures |xs| > 0 ==> Dedup(xs)[0] == xs[0]
  {
    if xs == [] {
      idx := [];
    } else {
      var init := xs[..|xs| - 1];
      var front := Dedup(init);
      var b := xs[|xs| - 1];
      var prior := DedupSubsequence(init);
      if front == [] || Abs(b - front[|front| - 1]) > 0.2 {
        idx := prior + [|xs| - 1];
      } else {
        idx := prior;
      }
      if |init| > 0 {
        assert xs[0] == init[0];
      }
    }
  }

  /** Nothing is lost by more than 0.2 beat: every raw onset lies within
      0.2 beat of a kept one. */
  lemma {:induction false} DedupCovers(xs: seq<real>)
    ensures forall x :: x in xs ==> exists y :: y in Dedup(xs) && Abs(x - y) <= 0.2
  {
    if xs != [] {
      var init := xs[..|xs| - 1];
      DedupCovers(init);
      var front := Dedup(init);
      var b := xs[|xs| - 1];
      assert xs == init + [b];
      forall x | x in xs ensures exists y :: y in Dedup(xs) && Abs(x - y) <= 0.2 {
        if x in init {
          var y :| y in front && Abs(x - y) <= 0.2;
          assert y in Dedup(xs);
        } else if front == [] || Abs(b - front[|front| - 1]) > 0.2 {
          assert b in Dedup(xs);
        } else {
          assert front[|front| - 1] in Dedup(xs);
        }
      }
    }
  }

  /** detectUserOnsets: the two loops of the source. */
  method DetectUserOnsets(series: seq<SeriesPoint>) returns (dedup: seq<real>)
    ensures dedup == Dedup(RawOnsets(series))
  {
    var onsets: seq<real> := [];
    var i := 1;
    while i < |series|
      invariant 1 <= i <= |series| || (|series| == 0 && i == 1)
      invariant onsets == RawOnsetsUpTo(series, if |series| == 0 then 0 else i)
    {
      var prev := series[i - 1].midi;
      var cur := series[i].midi;
      if prev.None? && cur.Some? {
        onsets := onsets + [series[i].beat];
      } else if prev.Some? && cur.Some? && Abs(cur.value - prev.value) > 1.5 {
        onsets := onsets + [series[i].beat];
      }
      i := i + 1;
    }
    dedup := [];
    var j := 0;
    while j < |onsets|
      invariant 0 <= j <= |onsets|
      invariant dedup == Dedup(onsets[..j])
    {
      var b := onsets[j];
      assert onsets[..j + 1][..j] == onsets[..j];
      if |dedup| == 0 || Abs(b - dedup[|dedup| - 1]) > 0.2 {
        dedup := dedup + [b];
      }
      j := j + 1;
    }
    assert onsets[..|onsets|] == onsets;
  }

  /* ---------------------------------------------------------------------
     computeRhythmScore
     --------------------------------------------------------------------- */

  /** The inner loop over the first n user onsets: the index of the unused
      onset nearest to r seen so far, the first one winning ties (a
      candidate must be strictly closer to replace it). None stands for
      bestIdx = -1 with bestDiff = Infinity. */
  function NearestUnusedUpTo(users: seq<real>, used: set<nat>, r: real, n: nat): (b: Option<nat>)
    requires n <= |users|
    ensures b.Some? ==> b.value < n && b.value !in used
  {
    if n == 0 then None
    else
      var best := NearestUnusedUpTo(users, used, r, n - 1);
      if n - 1 in used then best
      else if best.None? || Abs(users[n - 1] - r) < Abs(users[best.value] - r) then Some(n - 1)
      else best
  }

  /** What the scan finds: None exactly when every onset before n is used;
      otherwise an unused onset no farther from r than any other unused
      one, and strictly closer than every unused one before it. */
  lemma {:induction false} NearestUnusedUpToIsNearest(users: seq<real>, used: set<nat>, r: real, n: nat)
    requires n <= |users|
    ensures var b := NearestUnusedUpTo(users, used, r, n);
      && (b.None? <==> forall i :: 0 <= i < n ==> i in used)
      && (b.Some? ==> forall i :: 0 <= i < n && i !in used ==>
            Abs(users[b.value] - r) <= Abs(users[i] - r))
      && (b.Some? ==> forall i :: 0 <= i < b.value && i !in used ==>
            Abs(users[i] - r) > Abs(users[b.value] - r))
  {
    if n > 0 {
      NearestUnusedUpToIsNearest(users, used, r, n - 1);
    }
  }

  function NearestUnused(users: seq<real>, used: set<nat>, r: real): Option<nat>
  {
    NearestUnusedUpTo(users, used, r, |users|)
  }

  /** The tolerance of a match: a quarter beat. */
  const Tolerance: real := 0.25

  /** The outer loop after the first n reference onsets: the number of
      matches and the set of claimed user onsets. */
  function MatchUpTo(refs: seq<real>, users: seq<real>, n: nat): (m: (nat, set<nat>))
    requires n <= |refs|
    ensures m.0 <= n && |m.1| == m.0
    ensures forall i :: i in m.1 ==> i < |users|
  {
    if n == 0 then (0, {})
    else
      var prior := MatchUpTo(refs, users, n - 1);
      var best := NearestUnused(users, prior.1, refs[n - 1]);
      if best.Some? && Abs(users[best.value] - refs[n - 1]) <= Tolerance
      then (prior.0 + 1, prior.1 + {best.value})
      else prior
  }

  /** No user onset is claimed twice, so there are no more matches than
      user onsets. */
  lemma MatchedAtMostUsers(refs: seq<real>, users: seq<real>)
    ensures MatchUpTo(refs, users, |refs|).0 <= |users|
  {
    BoundedSetSize(MatchUpTo(refs, users, |refs|).1, |users|);
  }

  /** A set of naturals below n has at most n members. */
  lemma {:induction false} BoundedSetSize(s: set<nat>, n: nat)
    requires forall i :: i in s ==> i < n
    ensures |s| <= n
  {
    if n == 0 {
      assert s == {};
    } else {
      BoundedSetSize(s - {n - 1}, n - 1);
    }
  }

  /** computeRhythmScore as a value: 0 when either list is empty, else the
      rounded percentage of reference onsets matched. */
  function RhythmScore(refs: seq<real>, users: seq<real>): (s: int)
    ensures 0 <= s <= 100
    ensures |refs| == 0 || |users| == 0 ==> s == 0
  {
    if |refs| == 0 || |users| == 0 then 0
    else Percent(MatchUpTo(refs, users, |refs|).0, |refs|)
  }

  /** Every reference onset matched gives the full score; none gives 0. */
  lemma RhythmScoreExtremes(refs: seq<real>, users: seq<real>)
    requires |refs| > 0 && |users| > 0
    ensures MatchUpTo(refs, users, |refs|).0 == |refs| ==> RhythmScore(refs, users) == 100
    ensures MatchUpTo(refs, users, |refs|).0 == 0 ==> RhythmScore(refs, users) == 0
  {
  }

  /** The inner loop of computeRhythmScore: bestIdx is -1 when every user
      onset is used, else the first nearest unused one, at bestDiff. */
  method NearestUnusedIndex(users: seq<real>, used: set<nat>, r: real) returns (bestIdx: int, bestDiff: real)
    ensures bestIdx == -1 <==> NearestUnused(users, used, r).None?
    ensures bestIdx != -1 ==>
      0 <= bestIdx && NearestUnused(users, used, r) == Some(bestIdx as nat) &&
      bestDiff == Abs(users[bestIdx] - r)
  {
    bestIdx := -1;
    bestDiff := 0.0;
    var i := 0;
    while i < |users|
      invariant 0 <= i <= |users| && -1 <= bestIdx < i
      invariant NearestUnusedUpTo(users, used, r, i) ==
        if bestIdx == -1 then None else Some(bestIdx as nat)
      invariant bestIdx != -1 ==> bestDiff == Abs(users[bestIdx] - r)
    {
      ghost var best := NearestUnusedUpTo(users, used, r, i);
      assert NearestUnusedUpTo(users, used, r, i + 1) ==
        if i in used then best
        else if best.None? || Abs(users[i] - r) < Abs(users[best.value] - r) then Some(i)
        else best;
      if i !in used {
        var d := Abs(users[i] - r);
        if bestIdx == -1 || d < bestDiff {
          bestDiff := d;
          bestIdx := i;
        }
      }
      i := i + 1;
    }
  }

  /** computeRhythmScore: the nested loops over a `used` set. */
  method ComputeRhythmScore(refs: seq<real>, users: seq<real>) returns (score: int)
    ensures score == RhythmScore(refs, users)
  {
    if |refs| == 0 || |users| == 0 {
      return 0;
    }
    var matched := 0;
    var used: set<nat> := {};
    var n := 0;
    while n < |refs|
      invariant 0 <= n <= |refs|
      invariant (matched, used) == MatchUpTo(refs, users, n)
    {
      var bestIdx, bestDiff := NearestUnusedIndex(users, used, refs[n]);
      if bestIdx >= 0 && bestDiff <= Tolerance {
        matched := matched + 1;
        used := used + {bestIdx as nat};
      }
      n := n + 1;
    }
    score := Percent(matched, |refs|);
  }
}
