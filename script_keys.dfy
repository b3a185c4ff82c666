/** The white-key axis of the single-page pipeline (script.js:59-78) and
    the snapping of a sung pitch onto it (script.js:262-270). The module
    global WHITE_MIDI is passed in as `keys`, the list BuildWhiteMidi
    builds. */
module ScriptKeys {
  import opened Wrappers
  import opened PitchMath
  import MidiRef

  /** Strictly ascending keys. */
  ghost predicate Ascending(keys: seq<nat>)
  {
    forall i, j :: 0 <= i < j < |keys| ==> keys[i] < keys[j]
  }

  /** The loop that builds WHITE_MIDI: the white keys from A2 (45) to G5
      (79), in ascending order. */
  method BuildWhiteMidi() returns (res: seq<nat>)
    ensures forall m :: m in res <==> 45 <= m <= 79 && MidiRef.IsWhite(m)
    ensures Ascending(res)
  {
    res := [];
    var n := 45;
    while n <= 79
      invariant 45 <= n <= 80
      invariant forall m :: m in res <==> 45 <= m < n && MidiRef.IsWhite(m)
      invariant forall i :: 0 <= i < |res| ==> res[i] < n
      invariant Ascending(res)
    {
      if MidiRef.IsWhite(n) {
        res := res + [n];
      }
      n := n + 1;
    }
  }

  /** WHITE_NAMES: the axis labels; MIDI_TO_NAME is midiToNoteLabel. */
  function WhiteNames(keys: seq<nat>): (r: seq<string>)
    ensures |r| == |keys|
    ensures forall i :: 0 <= i < |r| ==> r[i] == MidiRef.MidiToNoteLabel(keys[i])
  {
    seq(|keys|, i requires 0 <= i < |keys| => MidiRef.MidiToNoteLabel(keys[i]))
  }

  /** Distinct keys get distinct labels. */
  lemma WhiteNamesDistinct(keys: seq<nat>, i: nat, j: nat)
    requires Ascending(keys) && i < j < |keys|
    ensures WhiteNames(keys)[i] != WhiteNames(keys)[j]
  {
    assert keys[i] < keys[j];
    if WhiteNames(keys)[i] == WhiteNames(keys)[j] {
      MidiRef.NoteLabelInjective(keys[i], keys[j]);
    }
  }

  /** The initial `dist` of the snapping loop. */
  const FarAway: real := 1000000000.0

  /** The distance of key j from the pitch. */
  function Dist(keys: seq<nat>, m: real, j: nat): real
    requires j < |keys|
  {
    Abs(keys[j] as real - m)
  }

  /** The distance the scan holds after picking position bi (-1: none). */
  function HeldDistance(keys: seq<nat>, m: real, bi: int): real
    requires -1 <= bi < |keys|
  {
    if bi == -1 then FarAway else Dist(keys, m, bi)
  }

  /** The position the snapping scan holds after the first n keys. */
  function NearestKey(keys: seq<nat>, m: real, n: nat): (bi: int)
    requires n <= |keys|
    ensures -1 <= bi < n
  {
    if n == 0 then -1
    else
      var prev := NearestKey(keys, m, n - 1);
      if Dist(keys, m, n - 1) < HeldDistance(keys, m, prev) then n - 1 else prev
  }

  /** What the scan holds after n keys: -1 while no key is nearer than the
      initial distance, and otherwise the first nearest key. */
  ghost predicate ScanHolds(keys: seq<nat>, m: real, n: nat, bi: int)
    requires n <= |keys| && -1 <= bi < n
  {
    (bi == -1 <==> forall j :: 0 <= j < n ==> Dist(keys, m, j) >= FarAway) &&
    (bi >= 0 ==> Dist(keys, m, bi) < FarAway) &&
    (bi >= 0 ==> forall j :: 0 <= j < n ==> Dist(keys, m, bi) <= Dist(keys, m, j)) &&
    (bi >= 0 ==> forall j :: 0 <= j < bi ==> Dist(keys, m, bi) < Dist(keys, m, j))
  }

  lemma {:induction false} NearestKeyFacts(keys: seq<nat>, m: real, n: nat)
    requires n <= |keys|
    ensures ScanHolds(keys, m, n, NearestKey(keys, m, n))
  {
    if n > 0 {
      NearestKeyFacts(keys, m, n - 1);
      var prev := NearestKey(keys, m, n - 1);
      var d := Dist(keys, m, n - 1);
      if d < HeldDistance(keys, m, prev) {
        assert NearestKey(keys, m, n) == n - 1;
        forall j | 0 <= j < n - 1
          ensures d < Dist(keys, m, j)
        {
          if prev >= 0 {
            assert Dist(keys, m, prev) <= Dist(keys, m, j);
          }
        }
      } else {
        assert NearestKey(keys, m, n) == prev;
      }
    }
  }

  /** When no key is near enough, no member of keys is. */
  lemma SnapNone(keys: seq<nat>, m: real)
    requires NearestKey(keys, m, |keys|) == -1
    ensures forall w :: w in keys ==> Abs(w as real - m) >= FarAway
  {
    NearestKeyFacts(keys, m, |keys|);
    forall w | w in keys
      ensures Abs(w as real - m) >= FarAway
    {
      var j :| 0 <= j < |keys| && keys[j] == w;
      assert Dist(keys, m, j) >= FarAway;
    }
  }

  /** The key picked is a nearest member, and below every equally near
      member. */
  lemma SnapSome(keys: seq<nat>, m: real)
    requires Ascending(keys) && NearestKey(keys, m, |keys|) >= 0
    ensures var best := keys[NearestKey(keys, m, |keys|)];
      best in keys && Abs(best as real - m) < FarAway &&
      (forall w :: w in keys ==> Abs(best as real - m) <= Abs(w as real - m)) &&
      (forall w :: (w in keys && Abs(w as real - m) == Abs(best as real - m)) ==> best <= w)
  {
    var bi := NearestKey(keys, m, |keys|);
    NearestKeyFacts(keys, m, |keys|);
    var dist := Dist(keys, m, bi);
    forall w | w in keys
      ensures dist <= Abs(w as real - m)
      ensures Abs(w as real - m) == dist ==> keys[bi] <= w
    {
      var j :| 0 <= j < |keys| && keys[j] == w;
      assert dist <= Dist(keys, m, j);
      if j < bi {
        assert dist < Dist(keys, m, j);
      } else if bi < j {
        assert keys[bi] < keys[j];
      }
    }
  }

  /** snapToWhiteKey, as the scan leaves it. */
  function Snap(keys: seq<nat>, midi: Option<real>): (best: Option<nat>)
    ensures midi.None? ==> best.None?
    ensures best.Some? ==> best.value in keys
  {
    if midi.None? then None
    else
      var bi := NearestKey(keys, midi.value, |keys|);
      if bi == -1 then None else Some(keys[bi])
  }

  /** A non-finite input (None) gives None. Otherwise the result is the
      first key, and so the lower one on ties, at minimal distance,
      provided that distance is below the initial 1e9; if none is, the
      result stays null. */
  lemma SnapNearest(keys: seq<nat>, midi: Option<real>)
    requires Ascending(keys)
    ensures var best := Snap(keys, midi);
      (midi.Some? ==> (best.None? <==> forall w :: w in keys ==> Abs(w as real - midi.value) >= FarAway)) &&
      (best.Some? ==> Abs(best.value as real - midi.value) < FarAway) &&
      (best.Some? ==> forall w :: w in keys ==>
        Abs(best.value as real - midi.value) <= Abs(w as real - midi.value)) &&
      (best.Some? ==> forall w ::
        (w in keys && Abs(w as real - midi.value) == Abs(best.value as real - midi.value)) ==> best.value <= w)
  {
    if midi.Some? {
      var bi := NearestKey(keys, midi.value, |keys|);
      if bi == -1 {
        SnapNone(keys, midi.value);
      } else {
        SnapSome(keys, midi.value);
      }
    }
  }

  /** The loop of snapToWhiteKey with its running best and distance. */
  method SnapToWhiteKey(keys: seq<nat>, midi: Option<real>) returns (best: Option<nat>)
    ensures best == Snap(keys, midi)
  {
    if midi.None? {
      return None;
    }
    var m := midi.value;
    var bi := -1;
    best := None;
    var dist := FarAway;
    var i := 0;
    while i < |keys|
      invariant 0 <= i <= |keys|
      invariant bi == NearestKey(keys, m, i)
      invariant dist == HeldDistance(keys, m, bi)
      invariant best == (if bi == -1 then None else Some(keys[bi]))
    {
      var d := Abs(keys[i] as real - m);
      assert d == Dist(keys, m, i);
      if d < dist {
        dist := d;
        best := Some(keys[i]);
        bi := i;
      }
      i := i + 1;
    }
  }
}
