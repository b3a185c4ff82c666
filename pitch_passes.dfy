/** The four correction passes that analyzeAgainstReference runs, in place,
    over the user-pitch curve sampled on the beat grid (src/analysis.js:44-99):
    a 9-wide median, an octave correction towards the reference, a clamp to
    C2..F5 with removal of lone spikes, and an exponential moving average.

    Each pass is a method on an array, proved against a function that
    mirrors its loop step by step (`...UpTo(s, n)` is the array after the
    first n iterations), and the lemmas state what the passes promise in
    terms of the input and the final array alone. */
module PitchPasses {
  import opened Wrappers
  import opened PitchMath
  import Sorting

  /** A curve of nullable MIDI pitches, one per grid point. */
  type Pitches = seq<Option<real>>

  /** Every non-null value of `s` lies in [lo, hi]. */
  ghost predicate PresentWithin(s: Pitches, lo: real, hi: real)
  {
    forall j :: 0 <= j < |s| && s[j].Some? ==> lo <= s[j].value <= hi
  }

  /** `s` and `t` have the same length and are null at the same places. */
  ghost predicate SameNulls(s: Pitches, t: Pitches)
  {
    |s| == |t| && forall j :: 0 <= j < |s| ==> (s[j].None? <==> t[j].None?)
  }

  /** `arr[j]` in JavaScript: undefined (here None) outside the array. */
  function Neighbour(s: Pitches, j: int): (v: Option<real>)
    ensures v.Some? ==> 0 <= j < |s| && v == s[j]
  {
    if 0 <= j < |s| then s[j] else None
  }

  /* ---------------------------------------------------------------------
     1) Median smoothing (src/analysis.js:45-61)
     --------------------------------------------------------------------- */

  /** The non-null values at indices lo .. hi-1, in index order; indices
      outside `s` read as undefined and are skipped like nulls. */
  function PresentValues(s: Pitches, lo: int, hi: int): (vals: seq<real>)
    ensures forall v :: v in vals <==> exists j :: lo <= j < hi && 0 <= j < |s| && s[j] == Some(v)
    decreases hi - lo
  {
    if hi <= lo then []
    else
      var j := hi - 1;
      var front := PresentValues(s, lo, j);
      if 0 <= j < |s| && s[j].Some? then front + [s[j].value] else front
  }

  /** median(arr, i, w): the upper median of the non-null values in the
      window of half-width floor(w / 2) around i, or arr[i] itself when the
      window holds none. The result is null exactly when the window is
      empty, and otherwise one of the window's values. */
  function MedianAt(s: Pitches, i: nat, w: nat): (m: Option<real>)
    requires i < |s|
    ensures m.None? <==> |PresentValues(s, i - w / 2, i + w / 2 + 1)| == 0
    ensures m.Some? ==> m.value in PresentValues(s, i - w / 2, i + w / 2 + 1)
  {
    var vals := PresentValues(s, i - w / 2, i + w / 2 + 1);
    if |vals| == 0 then s[i]
    else Some(Sorting.Median(vals))
  }

  /** The `median` helper itself: collect the window, sort, pick the middle. */
  method WindowMedian(a: array<Option<real>>, i: nat, w: nat) returns (m: Option<real>)
    requires i < a.Length
    ensures m == MedianAt(a[..], i, w)
  {
    ghost var s := a[..];
    var half := w / 2;
    var vals: seq<real> := [];
    var k: int := -half;
    while k <= half
      invariant -half <= k <= half + 1
      invariant vals == PresentValues(s, i - half, i + k)
    {
      var j := i + k;
      ghost var front := vals;
      if 0 <= j < a.Length && a[j].Some? {
        vals := vals + [a[j].value];
      }
      assert vals == (if 0 <= j < |s| && s[j].Some? then front + [s[j].value] else front);
      k := k + 1;
    }
    assert vals == PresentValues(s, i - w / 2, i + w / 2 + 1);
    if |vals| == 0 {
      return a[i];
    }
    var sorted := Sorting.Sort(vals);
    m := Some(sorted[|vals| / 2]);
  }

  /** One iteration of the median loop: a non-null entry is replaced by the
      median of its window, read from the array as it stands. */
  function MedianStep(s: Pitches, i: nat): (t: Pitches)
    requires i < |s|
    ensures |t| == |s|
  {
    if s[i].None? then s else s[i := MedianAt(s, i, 9)]
  }

  /** The array after the first n iterations of the median loop. */
  function MedianPassUpTo(s: Pitches, n: nat): (t: Pitches)
    requires n <= |s|
    ensures |t| == |s|
  {
    if n == 0 then s else MedianStep(MedianPassUpTo(s, n - 1), n - 1)
  }

  function MedianPass(s: Pitches): (t: Pitches)
    ensures |t| == |s|
  {
    MedianPassUpTo(s, |s|)
  }

  /** Iteration n only writes index n: an entry keeps its input value until
      its own iteration and its computed value afterwards. */
  lemma {:induction false} MedianPassUpToFrame(s: Pitches, n: nat, j: nat)
    requires n <= |s| && j < |s|
    ensures j >= n ==> MedianPassUpTo(s, n)[j] == s[j]
    ensures j < n ==> MedianPassUpTo(s, n)[j] == MedianPassUpTo(s, j + 1)[j]
  {
    if n > 0 {
      MedianPassUpToFrame(s, n - 1, j);
      var t := MedianPassUpTo(s, n - 1);
      if j != n - 1 {
        MedianStepFrame(t, n - 1, j);
      }
    }
  }

  /** One iteration writes at most its own index. */
  lemma MedianStepFrame(s: Pitches, i: nat, j: nat)
    requires i < |s| && j < |s| && j != i
    ensures MedianStep(s, i)[j] == s[j]
  {
  }

  /** Null entries stay null, non-null entries stay non-null, and each new
      value is the median of the 9-wide window around it as the loop reads
      it in place (entries to its left already smoothed, to its right not
      yet). */
  lemma MedianPassEntry(s: Pitches, j: nat)
    requires j < |s|
    ensures MedianPass(s)[j].None? <==> s[j].None?
    ensures s[j].Some? ==> MedianPass(s)[j] == MedianAt(MedianPassUpTo(s, j), j, 9)
    ensures s[j].Some? ==> MedianPass(s)[j].value in PresentValues(MedianPassUpTo(s, j), j - 4, j + 5)
  {
    MedianPassUpToFrame(s, |s|, j);
    MedianPassUpToFrame(s, j, j);
    var before := MedianPassUpTo(s, j);
    if s[j].Some? {
      assert before[j] == s[j];
      assert s[j].value in PresentValues(before, j - 4, j + 5);
    }
  }

  lemma MedianPassSameNulls(s: Pitches)
    ensures SameNulls(s, MedianPass(s))
  {
    forall j | 0 <= j < |s| ensures s[j].None? <==> MedianPass(s)[j].None? {
      MedianPassEntry(s, j);
    }
  }

  /** Every window value lies within bounds that hold for the whole curve. */
  lemma PresentValuesWithin(s: Pitches, lo: int, hi: int, a: real, b: real)
    requires PresentWithin(s, a, b)
    ensures forall v :: v in PresentValues(s, lo, hi) ==> a <= v <= b
  {
  }

  /** A median never leaves the range of the values it is taken from. */
  lemma {:induction false} MedianPassUpToWithin(s: Pitches, n: nat, a: real, b: real)
    requires n <= |s|
    requires PresentWithin(s, a, b)
    ensures PresentWithin(MedianPassUpTo(s, n), a, b)
  {
    if n > 0 {
      MedianPassUpToWithin(s, n - 1, a, b);
      var t := MedianPassUpTo(s, n - 1);
      PresentValuesWithin(t, n - 1 - 4, n - 1 + 5, a, b);
    }
  }

  lemma MedianPassWithin(s: Pitches, a: real, b: real)
    requires PresentWithin(s, a, b)
    ensures PresentWithin(MedianPass(s), a, b)
  {
    MedianPassUpToWithin(s, |s|, a, b);
  }

  /** The median loop (src/analysis.js:56-61) over the array in place. */
  method MedianPassInPlace(a: array<Option<real>>)
    modifies a
    ensures a[..] == MedianPass(old(a[..]))
  {
    ghost var s := a[..];
    var i := 0;
    while i < a.Length
      invariant 0 <= i <= a.Length
      invariant a[..] == MedianPassUpTo(s, i)
    {
      MedianStepInPlace(a, i);
      i := i + 1;
    }
  }

  /** One turn of the median loop. */
  method MedianStepInPlace(a: array<Option<real>>, i: nat)
    requires i < a.Length
    modifies a
    ensures a[..] == MedianStep(old(a[..]), i)
  {
    ghost var before := a[..];
    if a[i].Some? {
      var m := WindowMedian(a, i, 9);
      a[i] := m;
      assert a[..] == before[i := m];
    }
  }

  /* ---------------------------------------------------------------------
     2) Octave correction (src/analysis.js:64-76)
     --------------------------------------------------------------------- */

  /** |u + 12k - r|: how far the candidate shifted by k octaves lies from
      the reference pitch. */
  function Dist(u: real, r: real, k: int): real
  {
    Abs(OctaveUp(u, k) - r)
  }

  /** u + 12k: the pitch shifted by k octaves. */
  function OctaveUp(u: real, k: int): real
  {
    u + 12.0 * k as real
  }

  /** The k-loop from shift k on, `best` being the shift kept so far; a
      candidate replaces it only when strictly closer. */
  function OctaveScan(u: real, r: real, k: int, best: int): int
    requires -2 <= k <= 3
    decreases 3 - k
  {
    if k > 2 then best
    else if Dist(u, r, k) < Dist(u, r, best) then OctaveScan(u, r, k + 1, k)
    else OctaveScan(u, r, k + 1, best)
  }

  /** What the scan has established before shift k: `best` is no farther
      than any shift already tried, and a shift other than 0 is kept only
      when strictly closer than 0 and than every shift before it. */
  ghost predicate ScanSoFar(u: real, r: real, k: int, best: int)
  {
    && -2 <= best <= 2
    && (forall k' :: -2 <= k' < k ==> Dist(u, r, best) <= Dist(u, r, k'))
    && (best != 0 ==> Dist(u, r, best) < Dist(u, r, 0))
    && (best != 0 ==> forall k' :: -2 <= k' < best ==> Dist(u, r, k') > Dist(u, r, best))
  }

  lemma {:induction false} OctaveScanFacts(u: real, r: real, k: int, best: int)
    requires -2 <= k <= 3 && ScanSoFar(u, r, k, best)
    ensures ScanSoFar(u, r, 3, OctaveScan(u, r, k, best))
    decreases 3 - k
  {
    if k <= 2 {
      var dk := Dist(u, r, k);
      var db := Dist(u, r, best);
      if dk < db {
        forall k' | -2 <= k' < k + 1
          ensures dk <= Dist(u, r, k')
        {
          if k' < k {
            assert db <= Dist(u, r, k');
          }
        }
        assert k != 0;
        assert dk < Dist(u, r, 0);
        forall k' | -2 <= k' < k
          ensures Dist(u, r, k') > dk
        {
          assert db <= Dist(u, r, k');
        }
        assert ScanSoFar(u, r, k + 1, k);
        OctaveScanFacts(u, r, k + 1, k);
      } else {
        forall k' | -2 <= k' < k + 1
          ensures db <= Dist(u, r, k')
        {
        }
        assert ScanSoFar(u, r, k + 1, best);
        OctaveScanFacts(u, r, k + 1, best);
      }
    }
  }

  /** The shift the octave loop settles on, starting from k = 0: within
      two octaves, no farther from the reference than any other shift in
      that range, strictly closer than the unshifted pitch unless it is 0
      (so ties keep the pitch), and the first of the scan among equals. */
  function OctaveShift(u: real, r: real): (k: int)
    ensures -2 <= k <= 2
    ensures forall k' :: -2 <= k' <= 2 ==> Dist(u, r, k) <= Dist(u, r, k')
    ensures k != 0 ==> Dist(u, r, k) < Dist(u, r, 0)
    ensures k != 0 ==> forall k' :: -2 <= k' < k ==> Dist(u, r, k') > Dist(u, r, k)
  {
    OctaveScanFacts(u, r, -2, 0);
    OctaveScan(u, r, -2, 0)
  }

  /** The inner k-loop: the candidate u + 12k closest to r. */
  method NearestOctave(u: real, r: real) returns (best: real)
    ensures best == u + 12.0 * OctaveShift(u, r) as real
  {
    best := u;
    var bestDiff := Abs(u - r);
    ghost var bestK := 0;
    var k := -2;
    while k <= 2
      invariant -2 <= k <= 3
      invariant best == u + 12.0 * bestK as real && bestDiff == Dist(u, r, bestK)
      invariant OctaveScan(u, r, k, bestK) == OctaveScan(u, r, -2, 0)
    {
      var cand := u + 12.0 * k as real;
      var d := Abs(cand - r);
      if d < bestDiff {
        bestDiff := d;
        best := cand;
        bestK := k;
      }
      k := k + 1;
    }
  }

  /** One entry of the octave pass: shifted only when both the user and the
      reference pitch are present. */
  function OctaveFix(u: Option<real>, r: Option<real>): (f: Option<real>)
    ensures f.None? <==> u.None?
    ensures u.None? || r.None? ==> f == u
  {
    if u.Some? && r.Some? then Some(u.value + 12.0 * OctaveShift(u.value, r.value) as real) else u
  }

  function OctavePass(s: Pitches, ref: Pitches): (t: Pitches)
    requires |ref| == |s|
    ensures |t| == |s|
  {
    seq(|s|, j requires 0 <= j < |s| => OctaveFix(s[j], ref[j]))
  }

  /** The octave pass keeps every null, leaves every entry without a
      reference pitch alone, and moves every other entry by a whole number
      of octaves k in [-2, 2] to a pitch no farther from the reference. */
  lemma OctavePassEntry(s: Pitches, ref: Pitches, j: nat)
    requires |ref| == |s| && j < |s|
    ensures OctavePass(s, ref)[j].None? <==> s[j].None?
    ensures s[j].None? || ref[j].None? ==> OctavePass(s, ref)[j] == s[j]
    ensures s[j].Some? && ref[j].Some? ==>
      exists k :: -2 <= k <= 2 && OctavePass(s, ref)[j].value == OctaveUp(s[j].value, k)
    ensures s[j].Some? && ref[j].Some? ==>
      Abs(OctavePass(s, ref)[j].value - ref[j].value) <= Abs(s[j].value - ref[j].value)
  {
    var t := OctavePass(s, ref);
    if s[j].Some? && ref[j].Some? {
      var u := s[j].value;
      var r := ref[j].value;
      var k := OctaveShift(u, r);
      assert t[j].value == OctaveUp(u, k);
      assert Dist(u, r, 0) == Abs(u - r);
      assert Dist(u, r, k) == Abs(t[j].value - r);
    }
  }

  /** The pitch-correction loop over the array in place. */
  method OctavePassInPlace(a: array<Option<real>>, ref: Pitches)
    requires a.Length == |ref|
    modifies a
    ensures a[..] == OctavePass(old(a[..]), ref)
  {
    ghost var s := a[..];
    var i := 0;
    while i < a.Length
      invariant 0 <= i <= a.Length
      invariant forall j :: 0 <= j < i ==> a[j] == OctaveFix(s[j], ref[j])
      invariant forall j :: i <= j < a.Length ==> a[j] == s[j]
    {
      OctaveStepInPlace(a, ref, i);
      i := i + 1;
    }
  }

  /** One turn of the octave loop: only entry i changes. */
  method OctaveStepInPlace(a: array<Option<real>>, ref: Pitches, i: nat)
    requires i < a.Length == |ref|
    modifies a
    ensures a[i] == OctaveFix(old(a[i]), ref[i])
    ensures forall j :: 0 <= j < a.Length && j != i ==> a[j] == old(a[j])
  {
    if a[i].Some? && ref[i].Some? {
      var best := NearestOctave(a[i].value, ref[i].value);
      a[i] := Some(best);
    }
  }

  /* ---------------------------------------------------------------------
     3) Clamp to C2..F5 and lone-spike removal (src/analysis.js:79-89)
     --------------------------------------------------------------------- */

  /** Math.max(36, Math.min(77, x)). */
  function ClampRange(x: real): (c: real)
    ensures 36.0 <= c <= 77.0
    ensures 36.0 <= x <= 77.0 ==> c == x
    ensures x < 36.0 ==> c == 36.0
    ensures x > 77.0 ==> c == 77.0
  {
    Max(36.0, Min(77.0, x))
  }

  /** A clamped value more than 8 semitones from two present neighbours. */
  predicate IsSpike(c: real, prev: Option<real>, next: Option<real>)
  {
    prev.Some? && next.Some? && Abs(c - prev.value) > 8.0 && Abs(c - next.value) > 8.0
  }

  /** One iteration: clamp a non-null entry, then null it if it is a spike
      between its left neighbour (already processed) and its right one
      (not yet processed). */
  function DespikeStep(s: Pitches, i: nat): (t: Pitches)
    requires i < |s|
    ensures |t| == |s|
  {
    if s[i].None? then s
    else
      var c := ClampRange(s[i].value);
      s[i := if IsSpike(c, Neighbour(s, i - 1), Neighbour(s, i + 1)) then None else Some(c)]
  }

  function DespikeUpTo(s: Pitches, n: nat): (t: Pitches)
    requires n <= |s|
    ensures |t| == |s|
  {
    if n == 0 then s else DespikeStep(DespikeUpTo(s, n - 1), n - 1)
  }

  function Despike(s: Pitches): (t: Pitches)
    ensures |t| == |s|
  {
    DespikeUpTo(s, |s|)
  }

  lemma {:induction false} DespikeUpToFrame(s: Pitches, n: nat, j: nat)
    requires n <= |s| && j < |s|
    ensures j >= n ==> DespikeUpTo(s, n)[j] == s[j]
    ensures j < n ==> DespikeUpTo(s, n)[j] == DespikeUpTo(s, j + 1)[j]
  {
    if n > 0 {
      DespikeUpToFrame(s, n - 1, j);
    }
  }

  /** What the pass does to entry j, stated on the input and the result:
      a null stays null; a kept value is the clamped input; and a non-null
      entry is nulled exactly when its clamped value lies more than 8
      semitones from both the processed left neighbour and the unprocessed
      right neighbour, both present. */
  lemma DespikeEntry(s: Pitches, j: nat)
    requires j < |s|
    ensures s[j].None? ==> Despike(s)[j].None?
    ensures Despike(s)[j].Some? ==> s[j].Some? && Despike(s)[j].value == ClampRange(s[j].value)
    ensures s[j].Some? ==>
      (Despike(s)[j].None? <==>
       IsSpike(ClampRange(s[j].value), Neighbour(Despike(s), j - 1), Neighbour(s, j + 1)))
  {
    var r := Despike(s);
    var before := DespikeUpTo(s, j);
    DespikeUpToFrame(s, |s|, j);
    DespikeUpToFrame(s, j, j);
    if j + 1 < |s| {
      DespikeUpToFrame(s, j, j + 1);
    }
    if j > 0 {
      DespikeUpToFrame(s, |s|, j - 1);
      DespikeUpToFrame(s, j, j - 1);
    }
    assert Neighbour(before, j - 1) == Neighbour(r, j - 1);
    assert Neighbour(before, j + 1) == Neighbour(s, j + 1);
  }

  /** After the pass every present pitch lies in [36, 77]. */
  lemma DespikeWithin(s: Pitches)
    ensures PresentWithin(Despike(s), 36.0, 77.0)
  {
    forall j | 0 <= j < |s| && Despike(s)[j].Some? ensures 36.0 <= Despike(s)[j].value <= 77.0 {
      DespikeEntry(s, j);
    }
  }

  method DespikePassInPlace(a: array<Option<real>>)
    modifies a
    ensures a[..] == Despike(old(a[..]))
  {
    ghost var s := a[..];
    var i := 0;
    while i < a.Length
      invariant 0 <= i <= a.Length
      invariant a[..] == DespikeUpTo(s, i)
    {
      if a[i].Some? {
        a[i] := Some(ClampRange(a[i].value));
        var prev := if i > 0 then a[i - 1] else None;
        var next := if i + 1 < a.Length then a[i + 1] else None;
        if prev.Some? && next.Some? {
          if Abs(a[i].value - prev.value) > 8.0 && Abs(a[i].value - next.value) > 8.0 {
            a[i] := None;
          }
        }
      }
      i := i + 1;
    }
  }

  /* ---------------------------------------------------------------------
     5) Exponential moving average (src/analysis.js:95-99)
     --------------------------------------------------------------------- */

  const Alpha: real := 0.2

  /** One iteration (i >= 1): blend a present value with its already
      smoothed present predecessor. */
  function EmaStep(s: Pitches, i: nat): (t: Pitches)
    requires 1 <= i < |s|
    ensures |t| == |s|
  {
    if s[i].None? || s[i - 1].None? then s
    else s[i := Some(Alpha * s[i].value + (1.0 - Alpha) * s[i - 1].value)]
  }

  /** The array once the loop has reached index n (it starts at 1). */
  function EmaUpTo(s: Pitches, n: nat): (t: Pitches)
    requires n <= |s|
    ensures |t| == |s|
  {
    if n <= 1 then s else EmaStep(EmaUpTo(s, n - 1), n - 1)
  }

  function Ema(s: Pitches): (t: Pitches)
    ensures |t| == |s|
  {
    EmaUpTo(s, |s|)
  }

  lemma {:induction false} EmaUpToFrame(s: Pitches, n: nat, j: nat)
    requires n <= |s| && j < |s|
    ensures j >= n || j == 0 ==> EmaUpTo(s, n)[j] == s[j]
    ensures 0 < j < n ==> EmaUpTo(s, n)[j] == EmaUpTo(s, j + 1)[j]
  {
    if n > 1 {
      EmaUpToFrame(s, n - 1, j);
    }
  }

  /** The smoothed curve: nulls where the input has them, the first entry
      unchanged, and each later present value 0.2 of itself plus 0.8 of its
      smoothed predecessor when that is present. */
  lemma EmaEntry(s: Pitches, j: nat)
    requires j < |s|
    ensures Ema(s)[j].None? <==> s[j].None?
    ensures j == 0 ==> Ema(s)[j] == s[j]
    ensures j > 0 && s[j].Some? && s[j - 1].Some? ==>
      Ema(s)[j - 1].Some? &&
      Ema(s)[j].value == Alpha * s[j].value + (1.0 - Alpha) * Ema(s)[j - 1].value
    ensures j > 0 && s[j - 1].None? ==> Ema(s)[j] == s[j]
  {
    EmaUpToFrame(s, |s|, j);
    if j > 0 {
      EmaUpToFrame(s, j, j);
      EmaUpToFrame(s, |s|, j - 1);
      EmaUpToFrame(s, j, j - 1);
      EmaNulls(s, j - 1, j - 1);
      EmaNulls(s, |s|, j - 1);
    }
  }

  lemma {:induction false} EmaNulls(s: Pitches, n: nat, j: nat)
    requires n <= |s| && j < |s|
    ensures EmaUpTo(s, n)[j].None? <==> s[j].None?
  {
    if n > 1 {
      EmaNulls(s, n - 1, j);
    }
  }

  /** A convex combination of values in [a, b] stays in [a, b]. */
  lemma {:induction false} EmaUpToWithin(s: Pitches, n: nat, a: real, b: real)
    requires n <= |s|
    requires PresentWithin(s, a, b)
    ensures PresentWithin(EmaUpTo(s, n), a, b)
  {
    if n > 1 {
      EmaUpToWithin(s, n - 1, a, b);
    }
  }

  lemma EmaWithin(s: Pitches, a: real, b: real)
    requires PresentWithin(s, a, b)
    ensures PresentWithin(Ema(s), a, b)
  {
    EmaUpToWithin(s, |s|, a, b);
  }

  method EmaPassInPlace(a: array<Option<real>>)
    modifies a
    ensures a[..] == Ema(old(a[..]))
  {
    ghost var s := a[..];
    var i := 1;
    while i < a.Length
      invariant a.Length == 0 ==> a[..] == s
      invariant a.Length > 0 ==> 1 <= i <= a.Length && a[..] == EmaUpTo(s, i)
    {
      if a[i].Some? && a[i - 1].Some? {
        a[i] := Some(Alpha * a[i].value + (1.0 - Alpha) * a[i - 1].value);
      }
      i := i + 1;
    }
  }

  /** The whole correction chain, in the source's order. */
  function Corrected(s: Pitches, ref: Pitches): (t: Pitches)
    requires |ref| == |s|
    ensures |t| == |s|
  {
    Ema(Despike(OctavePass(MedianPass(s), ref)))
  }

  /** After the clamp pass and the EMA, every present pitch lies in
      [36, 77], whatever the input. */
  lemma CorrectedWithin(s: Pitches, ref: Pitches)
    requires |ref| == |s|
    ensures PresentWithin(Corrected(s, ref), 36.0, 77.0)
  {
    var d := Despike(OctavePass(MedianPass(s), ref));
    DespikeWithin(OctavePass(MedianPass(s), ref));
    EmaWithin(d, 36.0, 77.0);
  }
}
