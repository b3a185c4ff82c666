/** Models of JavaScript's `Array.prototype.sort((a, b) => a - b)` on
    numbers, of the middle-element pick that follows it in the median
    helpers (src/analysis.js:53-54, 173-174), and of sorting the distinct
    members of a Set (src/midi.js:138). */
module Sorting {

  ghost predicate Ascending(s: seq<real>)
  {
    forall i, j :: 0 <= i < j < |s| ==> s[i] <= s[j]
  }

  ghost predicate StrictlyAscending(s: seq<nat>)
  {
    forall i, j :: 0 <= i < j < |s| ==> s[i] < s[j]
  }

  /** One insertion step of the sort: x goes before the first element it
      does not exceed. */
  function Insert(x: real, s: seq<real>): (r: seq<real>)
    ensures |r| == |s| + 1
  {
    if s == [] then [x]
    else if x <= s[0] then [x] + s
    else [s[0]] + Insert(x, s[1..])
  }

  /** Inserting into an ascending list keeps it ascending and adds x. */
  lemma {:induction false} InsertSpec(x: real, s: seq<real>)
    requires Ascending(s)
    ensures Ascending(Insert(x, s))
    ensures multiset(Insert(x, s)) == multiset(s) + multiset{x}
  {
    if s == [] {
    } else if x <= s[0] {
      AscendingCons(x, s);
    } else {
      var t := s[1..];
      assert s == [s[0]] + t;
      InsertSpec(x, t);
      InsertAfterHead(x, s[0], t);
    }
  }

  /** The step case of InsertSpec: the head stays first. */
  lemma InsertAfterHead(x: real, h: real, t: seq<real>)
    requires h < x
    requires Ascending([h] + t)
    requires Ascending(Insert(x, t))
    requires multiset(Insert(x, t)) == multiset(t) + multiset{x}
    ensures Ascending([h] + Insert(x, t))
    ensures multiset([h] + Insert(x, t)) == multiset([h] + t) + multiset{x}
  {
    var rest := Insert(x, t);
    forall v | v in rest ensures h <= v {
      assert v in multiset(rest);
      if v != x {
        assert v in multiset(t);
        var k :| 0 <= k < |t| && t[k] == v;
        assert ([h] + t)[0] == h && ([h] + t)[k + 1] == v;
      }
    }
    AscendingCons(h, rest);
    assert multiset([h] + rest) == multiset{h} + multiset(rest);
    assert multiset([h] + t) == multiset{h} + multiset(t);
  }

  lemma AscendingCons(h: real, t: seq<real>)
    requires Ascending(t)
    requires forall v :: v in t ==> h <= v
    ensures Ascending([h] + t)
  {
    var r := [h] + t;
    forall i, j | 0 <= i < j < |r| ensures r[i] <= r[j] {
      assert r[j] == t[j - 1] && t[j - 1] in t;
      if i > 0 {
        assert r[i] == t[i - 1];
      }
    }
  }

  lemma StrictlyAscendingCons(h: nat, t: seq<nat>)
    requires StrictlyAscending(t)
    requires forall v :: v in t ==> h < v
    ensures StrictlyAscending([h] + t)
  {
    var r := [h] + t;
    forall i, j | 0 <= i < j < |r| ensures r[i] < r[j] {
      assert r[j] == t[j - 1] && t[j - 1] in t;
      if i > 0 {
        assert r[i] == t[i - 1];
      }
    }
  }

  /** The numeric ascending sort, by insertion. */
  function Sort(s: seq<real>): (r: seq<real>)
    ensures |r| == |s|
  {
    if s == [] then [] else Insert(s[0], Sort(s[1..]))
  }

  /** The sort returns an ascending permutation of its input. */
  lemma {:induction false} SortSpec(s: seq<real>)
    ensures Ascending(Sort(s))
    ensures multiset(Sort(s)) == multiset(s)
  {
    if s != [] {
      assert s == [s[0]] + s[1..];
      SortSpec(s[1..]);
      InsertSpec(s[0], Sort(s[1..]));
    }
  }

  /** `sorted[Math.floor(n / 2)]` after sorting: the upper median, one of
      the values. */
  function Median(vals: seq<real>): (m: real)
    requires |vals| > 0
    ensures m in vals
  {
    SortSpec(vals);
    assert Sort(vals)[|vals| / 2] in multiset(vals);
    Sort(vals)[|vals| / 2]
  }

  /** The median splits the sorted values: those before the middle are no
      larger, those after it no smaller. */
  lemma MedianSplits(vals: seq<real>)
    requires |vals| > 0
    ensures forall i :: 0 <= i < |vals| / 2 ==> Sort(vals)[i] <= Median(vals)
    ensures forall i :: |vals| / 2 < i < |vals| ==> Median(vals) <= Sort(vals)[i]
  {
    SortSpec(vals);
  }

  /** The median lies between the smallest and the largest value. */
  lemma MedianBetween(vals: seq<real>, lo: real, hi: real)
    requires |vals| > 0
    requires forall v :: v in vals ==> lo <= v <= hi
    ensures lo <= Median(vals) <= hi
  {
  }

  function InsertDistinct(x: nat, s: seq<nat>): (r: seq<nat>)
    requires StrictlyAscending(s)
    ensures StrictlyAscending(r)
    ensures forall v :: v in r <==> v in s || v == x
  {
    if s == [] then [x]
    else if x == s[0] then s
    else if x < s[0] then
      StrictlyAscendingCons(x, s);
      [x] + s
    else
      var rest := InsertDistinct(x, s[1..]);
      assert forall v :: v in s <==> v == s[0] || v in s[1..] by {
        assert s == [s[0]] + s[1..];
      }
      StrictlyAscendingCons(s[0], rest);
      [s[0]] + rest
  }

  /** `Array.from(new Set(xs)).sort((a, b) => a - b)`: the distinct members of
      `xs` in strictly ascending order. */
  function SortedDistinct(xs: seq<nat>): (r: seq<nat>)
    ensures StrictlyAscending(r)
    ensures forall v :: v in r <==> v in xs
  {
    if xs == [] then []
    else
      var rest := SortedDistinct(xs[1..]);
      assert forall v :: v in xs <==> v in xs[1..] || v == xs[0] by {
        assert xs == [xs[0]] + xs[1..];
      }
      InsertDistinct(xs[0], rest)
  }
}
