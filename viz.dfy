/** The result view's kernels (src/viz.js): the 16-beat page that the
    prev/next buttons move, the clipping of reference and user bars to that
    page, the issue crosses with their error-label parts, the "m|b" lyric
    labels and their parse-back when a lyric is highlighted, and the seek
    target of the A/B playback. Drawing, audio playback and timers are not
    part of this model. */
module VizWindow {
  import opened Wrappers
  import opened PitchMath
  import opened Text
  import NoteComparisons
  import MidiRef

  type Bar = NoteComparisons.Bar
  type Issue = NoteComparisons.Issue

  /** windowBeats: four bars of four beats. */
  const WindowBeats: int := 16

  /* ---------------------------------------------------------------------
     The page state (src/viz.js:50-51, 217-225)
     --------------------------------------------------------------------- */

  /** max(0, floor(totalBeats - 16)): the last page start. */
  function MaxStart(totalBeats: real): (m: int)
    ensures m >= 0
    ensures m as real <= Max(0.0, totalBeats - WindowBeats as real)
    ensures totalBeats - WindowBeats as real < m as real + 1.0
  {
    var f := (totalBeats - WindowBeats as real).Floor;
    if f < 0 then 0 else f
  }

  /** The ← button. */
  function PrevStart(windowStart: int): int
  {
    if windowStart - WindowBeats < 0 then 0 else windowStart - WindowBeats
  }

  /** The → button. */
  function NextStart(windowStart: int, maxStart: int): int
  {
    if maxStart < windowStart + WindowBeats then maxStart else windowStart + WindowBeats
  }

  /** A click: true for →, false for ←. */
  function Click(windowStart: int, maxStart: int, next: bool): int
  {
    if next then NextStart(windowStart, maxStart) else PrevStart(windowStart)
  }

  /** The page start after a sequence of clicks, first click first. */
  function AfterClicks(windowStart: int, maxStart: int, clicks: seq<bool>): int
    decreases |clicks|
  {
    if |clicks| == 0 then windowStart
    else AfterClicks(Click(windowStart, maxStart, clicks[0]), maxStart, clicks[1..])
  }

  /** Each click keeps the page start within [0, maxStart], moves it by 16
      unless it clamps, and lands on the bound when it clamps. */
  lemma ClickStaysInRange(windowStart: int, maxStart: int, next: bool)
    requires 0 <= windowStart <= maxStart
    ensures var w := Click(windowStart, maxStart, next);
      0 <= w <= maxStart &&
      (next ==> w == windowStart + WindowBeats || w == maxStart) &&
      (!next ==> w == windowStart - WindowBeats || w == 0)
  {
  }

  /** Any sequence of clicks keeps the page start within [0, maxStart]. */
  lemma {:induction false} ClicksStayInRange(windowStart: int, maxStart: int, clicks: seq<bool>)
    requires 0 <= windowStart <= maxStart
    ensures 0 <= AfterClicks(windowStart, maxStart, clicks) <= maxStart
    decreases |clicks|
  {
    if |clicks| > 0 {
      ClickStaysInRange(windowStart, maxStart, clicks[0]);
      ClicksStayInRange(Click(windowStart, maxStart, clicks[0]), maxStart, clicks[1..]);
    }
  }

  /** The page of a rendered result: `windowStart` starts at 0 and only the
      two buttons change it. */
  class PageView {
    var windowStart: int
    const totalBeats: real

    ghost predicate Valid()
      reads this
    {
      0 <= windowStart <= MaxStart(totalBeats)
    }

    constructor(totalBeats: real)
      ensures this.totalBeats == totalBeats && windowStart == 0
      ensures Valid()
    {
      this.totalBeats := totalBeats;
      windowStart := 0;
    }

    method Prev()
      requires Valid()
      modifies this
      ensures windowStart == PrevStart(old(windowStart))
      ensures Valid()
    {
      windowStart := if windowStart - WindowBeats < 0 then 0 else windowStart - WindowBeats;
    }

    method Next()
      requires Valid()
      modifies this
      ensures windowStart == NextStart(old(windowStart), MaxStart(totalBeats))
      ensures Valid()
    {
      var f := (totalBeats - WindowBeats as real).Floor;
      var maxStart := if f < 0 then 0 else f;
      windowStart := if maxStart < windowStart + WindowBeats then maxStart else windowStart + WindowBeats;
    }
  }

  /** pageInfoText's bar numbers: the first bar of the page and the last,
      the latter capped by the song's bar count. A page starting on a bar
      line spans four bars; one starting inside a bar touches five. */
  function PageInfo(windowStart: int, totalBeats: real): (r: (int, int))
    ensures windowStart >= 0 ==> r.0 >= 1
    ensures r.1 <= r.0 + 4
    ensures windowStart % 4 == 0 ==> r.1 <= r.0 + 3
    ensures r.1 <= (totalBeats / 4.0).Floor
  {
    var q := (windowStart as real / 4.0).Floor;
    var m1 := q + 1;
    var last := ((windowStart + WindowBeats) as real - 0.0001) / 4.0;
    assert last < q as real + 5.0;
    assert windowStart % 4 == 0 ==> last < q as real + 4.0 by {
      if windowStart % 4 == 0 {
        var d := windowStart / 4;
        assert windowStart == 4 * d;
        assert d as real == windowStart as real / 4.0;
        assert q == d;
      }
    }
    var a, b := last.Floor + 1, (totalBeats / 4.0).Floor;
    var m2 := if a < b then a else b;
    (m1, m2)
  }

  /* ---------------------------------------------------------------------
     Bars on the page (src/viz.js:66-74)
     --------------------------------------------------------------------- */

  /** A chart point; Gap is the `{x: null, y: null}` that breaks the line. */
  datatype Point = Pt(x: real, y: Option<real>) | Gap

  /** pushLine: a bar clipped to [ws, ws + 16] as two points and a gap,
      or nothing when the clipped bar is empty. */
  function Segment(bar: Bar, ws: real): (r: seq<Point>)
    ensures |r| == 0 || |r| == 3
    ensures |r| == 3 <==> Max(ws, bar.x0) < Min(ws + WindowBeats as real, bar.x1)
    ensures |r| == 3 ==>
      r == [Pt(Max(ws, bar.x0), bar.midi), Pt(Min(ws + WindowBeats as real, bar.x1), bar.midi), Gap]
  {
    if bar.x1 < ws || bar.x0 > ws + WindowBeats as real then []
    else
      var x0 := Max(ws, bar.x0);
      var x1 := Min(ws + WindowBeats as real, bar.x1);
      if x1 <= x0 then [] else [Pt(x0, bar.midi), Pt(x1, bar.midi), Gap]
  }

  /** Whether the forEach draws this bar at all: user bars without a pitch
      are skipped. */
  predicate Drawn(bar: Bar, skipSilent: bool)
  {
    !(skipSilent && bar.midi.None?)
  }

  /** The line points of the first n bars. */
  function Lines(bars: seq<Bar>, ws: real, skipSilent: bool, n: nat): (r: seq<Point>)
    requires n <= |bars|
    ensures |r| % 3 == 0
  {
    if n == 0 then []
    else
      Lines(bars, ws, skipSilent, n - 1) +
      (if Drawn(bars[n - 1], skipSilent) then Segment(bars[n - 1], ws) else [])
  }

  /** The points a drawn bar adds lie on the page and carry its pitch. */
  lemma SegmentOnPage(bar: Bar, ws: real)
    ensures forall k :: 0 <= k < |Segment(bar, ws)| && Segment(bar, ws)[k].Pt? ==>
      ws <= Segment(bar, ws)[k].x <= ws + WindowBeats as real && Segment(bar, ws)[k].y == bar.midi
  {
  }

  /** A point on the page carrying the pitch of one of the first n bars
      that are drawn; with silent bars skipped, one with a pitch. */
  ghost predicate PointOnPage(p: Point, bars: seq<Bar>, ws: real, skipSilent: bool, n: nat)
    requires p.Pt? && n <= |bars|
  {
    ws <= p.x <= ws + WindowBeats as real &&
    (exists j :: 0 <= j < n && Drawn(bars[j], skipSilent) && p.y == bars[j].midi) &&
    (skipSilent ==> p.y.Some?)
  }

  /** Every drawn point lies on the page and carries the pitch of a drawn
      bar; with silent bars skipped, every point has a pitch. */
  lemma {:induction false} LinesOnPage(bars: seq<Bar>, ws: real, skipSilent: bool, n: nat)
    requires n <= |bars|
    ensures forall k :: 0 <= k < |Lines(bars, ws, skipSilent, n)| && Lines(bars, ws, skipSilent, n)[k].Pt? ==>
      PointOnPage(Lines(bars, ws, skipSilent, n)[k], bars, ws, skipSilent, n)
  {
    if n > 0 {
      LinesOnPage(bars, ws, skipSilent, n - 1);
      var prev := Lines(bars, ws, skipSilent, n - 1);
      var r := Lines(bars, ws, skipSilent, n);
      var seg := if Drawn(bars[n - 1], skipSilent) then Segment(bars[n - 1], ws) else [];
      assert r == prev + seg;
      SegmentOnPage(bars[n - 1], ws);
      forall k | 0 <= k < |r| && r[k].Pt?
        ensures PointOnPage(r[k], bars, ws, skipSilent, n)
      {
        if k < |prev| {
          assert r[k] == prev[k];
          assert PointOnPage(prev[k], bars, ws, skipSilent, n - 1);
          var j :| 0 <= j < n - 1 && Drawn(bars[j], skipSilent) && prev[k].y == bars[j].midi;
          assert 0 <= j < n && Drawn(bars[j], skipSilent) && r[k].y == bars[j].midi;
        } else {
          var i := k - |prev|;
          assert r[k] == seg[i];
          assert Drawn(bars[n - 1], skipSilent);
          assert seg == Segment(bars[n - 1], ws);
          assert ws <= seg[i].x <= ws + WindowBeats as real && seg[i].y == bars[n - 1].midi;
        }
      }
    }
  }

  /** The early return at the window test never changes the outcome: a bar
      wholly off the page always clips to nothing. */
  lemma OffPageIsEmpty(bar: Bar, ws: real)
    requires bar.x1 < ws || bar.x0 > ws + WindowBeats as real
    ensures !(Max(ws, bar.x0) < Min(ws + WindowBeats as real, bar.x1))
  {
  }

  method BuildLines(bars: seq<Bar>, ws: real, skipSilent: bool) returns (arr: seq<Point>)
    ensures arr == Lines(bars, ws, skipSilent, |bars|)
  {
    arr := [];
    var i := 0;
    while i < |bars|
      invariant 0 <= i <= |bars|
      invariant arr == Lines(bars, ws, skipSilent, i)
    {
      var b := bars[i];
      if !(skipSilent && b.midi.None?) {
        arr := arr + Segment(b, ws);
      }
      i := i + 1;
    }
  }

  /* ---------------------------------------------------------------------
     Issue crosses and error labels (src/viz.js:79-106)
     --------------------------------------------------------------------- */

  /** A part of an error label. The numbers are the rounded magnitudes the
      label prints; their decimal rendering is not modelled. */
  datatype LabelPart =
    | Cents(cents: real, sharp: bool)
    | StartMs(ms: real, late: bool)
    | EndMs(ms: real, late: bool)

  datatype LabelText = Parts(parts: seq<LabelPart>) | Placeholder

  datatype Cross = Cross(x: real, y: real)

  datatype Label = Label(x: real, y: real, text: LabelText)

  datatype Marks = Marks(crosses: seq<Cross>, crossIndexMap: seq<nat>, labels: seq<Label>)

  /** `reference.tempoBpm || 120`. */
  function Tempo(tempoBpm: real): (t: real)
    ensures t != 0.0
  {
    if tempoBpm == 0.0 then 120.0 else tempoBpm
  }

  /** |diff| beats in milliseconds at the tempo. */
  function Millis(diff: real, tempo: real): real
    requires tempo != 0.0
  {
    Abs(diff) * (60000.0 / tempo)
  }

  /** The parts of an issue's label, beyond 50 cents and 100 ms only. */
  function LabelParts(iss: Issue, tempoBpm: real): seq<LabelPart>
  {
    var tempo := Tempo(tempoBpm);
    var cents := if iss.pitchDiff.Some? then Abs(iss.pitchDiff.value) * 100.0 else 0.0;
    var startMs := Millis(iss.startDiff, tempo);
    var endMs := Millis(iss.endDiff, tempo);
    (if iss.pitchDiff.Some? && cents > 50.0 then [Cents(cents, iss.pitchDiff.value > 0.0)] else []) +
    (if startMs > 100.0 then [StartMs(startMs, iss.startDiff > 0.0)] else []) +
    (if endMs > 100.0 then [EndMs(endMs, iss.endDiff > 0.0)] else [])
  }

  /** Each part appears exactly when its threshold is passed, in the order
      pitch, start, end. */
  lemma LabelPartsThresholds(iss: Issue, tempoBpm: real)
    ensures var ps := LabelParts(iss, tempoBpm);
      var tempo := Tempo(tempoBpm);
      ((exists p :: p in ps && p.Cents?) <==> iss.pitchDiff.Some? && Abs(iss.pitchDiff.value) * 100.0 > 50.0) &&
      ((exists p :: p in ps && p.StartMs?) <==> Millis(iss.startDiff, tempo) > 100.0) &&
      ((exists p :: p in ps && p.EndMs?) <==> Millis(iss.endDiff, tempo) > 100.0) &&
      |ps| <= 3
  {
    var ps := LabelParts(iss, tempoBpm);
    var tempo := Tempo(tempoBpm);
    var cents := if iss.pitchDiff.Some? then Abs(iss.pitchDiff.value) * 100.0 else 0.0;
    var a := if iss.pitchDiff.Some? && cents > 50.0 then [Cents(cents, iss.pitchDiff.value > 0.0)] else [];
    var b := if Millis(iss.startDiff, tempo) > 100.0 then [StartMs(Millis(iss.startDiff, tempo), iss.startDiff > 0.0)] else [];
    var c := if Millis(iss.endDiff, tempo) > 100.0 then [EndMs(Millis(iss.endDiff, tempo), iss.endDiff > 0.0)] else [];
    assert ps == a + b + c;
    if |a| > 0 { assert a[0] in ps; }
    if |b| > 0 { assert b[0] in ps; }
    if |c| > 0 { assert c[0] in ps; }
  }

  /** The issue's beat lies on the page (both ends included). */
  predicate OnPage(iss: Issue, ws: real)
  {
    ws <= iss.beat <= ws + WindowBeats as real
  }

  /** The marks of the first n issues. */
  function IssueMarks(issues: seq<Issue>, ws: real, tempoBpm: real, n: nat): (m: Marks)
    requires n <= |issues|
    ensures |m.crosses| == |m.crossIndexMap| <= n
  {
    if n == 0 then Marks([], [], [])
    else
      var prev := IssueMarks(issues, ws, tempoBpm, n - 1);
      var iss := issues[n - 1];
      if !OnPage(iss, ws) then prev
      else
        var parts := LabelParts(iss, tempoBpm);
        Marks(prev.crosses + [Cross(iss.beat, iss.midi as real)],
              prev.crossIndexMap + [n - 1],
              prev.labels + (if |parts| > 0 then [Label(iss.beat, iss.midi as real + 0.8, Parts(parts))] else []))
  }

  /** The placeholder cross at (ws + 2, 60) when there is no issue. */
  function SliceMarks(issues: seq<Issue>, ws: real, tempoBpm: real): Marks
  {
    if |issues| == 0 then Marks([Cross(ws + 2.0, 60.0)], [0], [Label(ws + 2.0, 61.0, Placeholder)])
    else IssueMarks(issues, ws, tempoBpm, |issues|)
  }

  /** Cross k sits at issue crossIndexMap[k], one of the first n, which is
      on the page. */
  predicate CrossOfIssue(m: Marks, k: nat, issues: seq<Issue>, ws: real, n: nat)
    requires k < |m.crossIndexMap| && k < |m.crosses| && n <= |issues|
  {
    var j := m.crossIndexMap[k];
    j < n && OnPage(issues[j], ws) && m.crosses[k] == Cross(issues[j].beat, issues[j].midi as real)
  }

  /** Cross k sits at issue crossIndexMap[k], which is on the page. */
  lemma {:induction false} CrossesAtIssues(issues: seq<Issue>, ws: real, tempoBpm: real, n: nat)
    requires n <= |issues|
    ensures forall k :: 0 <= k < |IssueMarks(issues, ws, tempoBpm, n).crossIndexMap| ==>
      CrossOfIssue(IssueMarks(issues, ws, tempoBpm, n), k, issues, ws, n)
  {
    if n > 0 {
      CrossesAtIssues(issues, ws, tempoBpm, n - 1);
      var prev := IssueMarks(issues, ws, tempoBpm, n - 1);
      var m := IssueMarks(issues, ws, tempoBpm, n);
      if OnPage(issues[n - 1], ws) {
        forall k | 0 <= k < |m.crossIndexMap|
          ensures CrossOfIssue(m, k, issues, ws, n)
        {
          if k < |prev.crossIndexMap| {
            assert CrossOfIssue(prev, k, issues, ws, n - 1);
            assert m.crossIndexMap[k] == prev.crossIndexMap[k];
            assert m.crosses[k] == prev.crosses[k];
          } else {
            assert m.crossIndexMap[k] == n - 1;
          }
        }
      } else {
        forall k | 0 <= k < |m.crossIndexMap|
          ensures CrossOfIssue(m, k, issues, ws, n)
        {
          assert CrossOfIssue(prev, k, issues, ws, n - 1);
        }
      }
    }
  }

  /** ix is strictly increasing with every entry below n. */
  predicate StrictlyBelow(ix: seq<nat>, n: nat)
  {
    (forall k :: 0 <= k < |ix| ==> ix[k] < n) &&
    (forall k, l :: 0 <= k < l < |ix| ==> ix[k] < ix[l])
  }

  /** The cross index map is strictly increasing: crosses follow the
      issues' order. */
  lemma {:induction false} CrossIndexAscending(issues: seq<Issue>, ws: real, tempoBpm: real, n: nat)
    requires n <= |issues|
    ensures StrictlyBelow(IssueMarks(issues, ws, tempoBpm, n).crossIndexMap, n)
  {
    if n > 0 {
      CrossIndexAscending(issues, ws, tempoBpm, n - 1);
      var prev := IssueMarks(issues, ws, tempoBpm, n - 1).crossIndexMap;
      var ix := IssueMarks(issues, ws, tempoBpm, n).crossIndexMap;
      if OnPage(issues[n - 1], ws) {
        assert ix == prev + [n - 1];
        forall k, l | 0 <= k < l < |ix|
          ensures ix[k] < ix[l]
        {
          assert ix[k] == prev[k];
          if l < |prev| {
            assert ix[l] == prev[l];
          }
        }
      }
    }
  }

  /** Every issue on the page gets a cross. */
  lemma {:induction false} EveryIssueOnPageCrossed(issues: seq<Issue>, ws: real, tempoBpm: real, n: nat)
    requires n <= |issues|
    ensures forall j :: 0 <= j < n && OnPage(issues[j], ws) ==>
      j in IssueMarks(issues, ws, tempoBpm, n).crossIndexMap
  {
    if n > 0 {
      EveryIssueOnPageCrossed(issues, ws, tempoBpm, n - 1);
      var prev := IssueMarks(issues, ws, tempoBpm, n - 1).crossIndexMap;
      var ix := IssueMarks(issues, ws, tempoBpm, n).crossIndexMap;
      if OnPage(issues[n - 1], ws) {
        assert ix == prev + [n - 1];
        assert forall j :: j in prev ==> j in ix;
        assert n - 1 in ix;
      }
    }
  }

  /** A label with at least one part, of one of the first n issues that is
      on the page, 0.8 above its cross. */
  ghost predicate LabelOfIssue(l: Label, issues: seq<Issue>, ws: real, tempoBpm: real, n: nat)
    requires n <= |issues|
  {
    l.text.Parts? && |l.text.parts| > 0 &&
    exists j :: 0 <= j < n && OnPage(issues[j], ws) &&
      l == Label(issues[j].beat, issues[j].midi as real + 0.8, Parts(LabelParts(issues[j], tempoBpm)))
  }

  /** Every label has at least one part and is the label of an issue on the
      page, placed 0.8 above its cross. */
  lemma {:induction false} LabelsOfIssues(issues: seq<Issue>, ws: real, tempoBpm: real, n: nat)
    requires n <= |issues|
    ensures forall k :: 0 <= k < |IssueMarks(issues, ws, tempoBpm, n).labels| ==>
      LabelOfIssue(IssueMarks(issues, ws, tempoBpm, n).labels[k], issues, ws, tempoBpm, n)
  {
    if n > 0 {
      LabelsOfIssues(issues, ws, tempoBpm, n - 1);
      var prev := IssueMarks(issues, ws, tempoBpm, n - 1).labels;
      var ls := IssueMarks(issues, ws, tempoBpm, n).labels;
      if OnPage(issues[n - 1], ws) {
        var parts := LabelParts(issues[n - 1], tempoBpm);
        assert ls == prev + (if |parts| > 0 then [Label(issues[n - 1].beat, issues[n - 1].midi as real + 0.8, Parts(parts))] else []);
        forall k | 0 <= k < |ls|
          ensures LabelOfIssue(ls[k], issues, ws, tempoBpm, n)
        {
          if k < |prev| {
            assert ls[k] == prev[k];
            assert LabelOfIssue(prev[k], issues, ws, tempoBpm, n - 1);
            var j :| 0 <= j < n - 1 && OnPage(issues[j], ws) &&
              prev[k] == Label(issues[j].beat, issues[j].midi as real + 0.8, Parts(LabelParts(issues[j], tempoBpm)));
            assert 0 <= j < n;
          } else {
            assert ls[k] == Label(issues[n - 1].beat, issues[n - 1].midi as real + 0.8, Parts(parts));
          }
        }
      }
    }
  }

  /** The placeholder cross and label appear exactly when there is no
      issue at all. */
  lemma PlaceholderIffNoIssues(issues: seq<Issue>, ws: real, tempoBpm: real)
    ensures var m := SliceMarks(issues, ws, tempoBpm);
      |issues| == 0 <==> (exists k :: 0 <= k < |m.labels| && m.labels[k].text.Placeholder?)
    ensures |issues| == 0 ==>
      SliceMarks(issues, ws, tempoBpm) == Marks([Cross(ws + 2.0, 60.0)], [0], [Label(ws + 2.0, 61.0, Placeholder)])
  {
    var m := SliceMarks(issues, ws, tempoBpm);
    if |issues| > 0 {
      LabelsOfIssues(issues, ws, tempoBpm, |issues|);
    } else {
      assert m.labels[0].text.Placeholder?;
    }
  }

  method BuildIssueMarks(issues: seq<Issue>, ws: real, tempoBpm: real) returns (m: Marks)
    ensures m == SliceMarks(issues, ws, tempoBpm)
  {
    if |issues| == 0 {
      return Marks([Cross(ws + 2.0, 60.0)], [0], [Label(ws + 2.0, 61.0, Placeholder)]);
    }
    var crosses: seq<Cross>, crossIndexMap: seq<nat>, labels: seq<Label> := [], [], [];
    var idx := 0;
    while idx < |issues|
      invariant 0 <= idx <= |issues|
      invariant Marks(crosses, crossIndexMap, labels) == IssueMarks(issues, ws, tempoBpm, idx)
    {
      var iss := issues[idx];
      if iss.beat >= ws && iss.beat <= ws + WindowBeats as real {
        crosses := crosses + [Cross(iss.beat, iss.midi as real)];
        crossIndexMap := crossIndexMap + [idx];
        var parts := LabelParts(iss, tempoBpm);
        if |parts| > 0 {
          labels := labels + [Label(iss.beat, iss.midi as real + 0.8, Parts(parts))];
        }
      }
      idx := idx + 1;
    }
    m := Marks(crosses, crossIndexMap, labels);
  }

  datatype Slice = Slice(linesRef: seq<Point>, linesUser: seq<Point>, marks: Marks)

  /** buildSlice for the page at windowStart. */
  method BuildSlice(barsRef: seq<Bar>, barsUser: seq<Bar>, issues: seq<Issue>, windowStart: int, tempoBpm: real)
    returns (s: Slice)
    ensures s.linesRef == Lines(barsRef, windowStart as real, false, |barsRef|)
    ensures s.linesUser == Lines(barsUser, windowStart as real, true, |barsUser|)
    ensures s.marks == SliceMarks(issues, windowStart as real, tempoBpm)
  {
    var ws := windowStart as real;
    var linesRef := BuildLines(barsRef, ws, false);
    var linesUser := BuildLines(barsUser, ws, true);
    var marks := BuildIssueMarks(issues, ws, tempoBpm);
    s := Slice(linesRef, linesUser, marks);
  }

  /* ---------------------------------------------------------------------
     Lyric labels (src/viz.js:117-121, 364-385)
     --------------------------------------------------------------------- */

  /** The lyrics on the page: beat in [ws, ws + 16). */
  function LyricsOnPage(lyrics: seq<MidiRef.Lyric>, ws: real): (r: seq<MidiRef.Lyric>)
    ensures forall l :: l in r <==> l in lyrics && ws <= l.beat < ws + WindowBeats as real
    ensures |r| <= |lyrics|
  {
    if |lyrics| == 0 then []
    else
      var rest := LyricsOnPage(lyrics[..|lyrics| - 1], ws);
      var l := lyrics[|lyrics| - 1];
      assert lyrics == lyrics[..|lyrics| - 1] + [l];
      if ws <= l.beat < ws + WindowBeats as real then rest + [l] else rest
  }

  /** JavaScript's x % 4 on numbers: the sign follows x. */
  function JsRem4(x: real): real
  {
    x - 4.0 * Trunc(x / 4.0) as real
  }

  /** The bar and beat numbers m = floor(beat / 4) + 1 and
      b = floor(beat % 4) + 1. */
  function BarAndBeat(beat: real): (int, int)
  {
    ((beat / 4.0).Floor + 1, JsRem4(beat).Floor + 1)
  }

  /** The label text `${m}|${b}: ${text}`. */
  function LyricLabel(l: MidiRef.Lyric): string
  {
    var mb := BarAndBeat(l.beat);
    IntToString(mb.0) + "|" + IntToString(mb.1) + ": " + l.text
  }

  /** The length of the run of digits at position i. */
  function DigitRun(s: string, i: nat): (n: nat)
    requires i <= |s|
    ensures i + n <= |s| && AllDigits(s[i..i + n])
    ensures i + n < |s| ==> !IsDigit(s[i + n])
    decreases |s| - i
  {
    if i < |s| && IsDigit(s[i]) then
      var n := DigitRun(s, i + 1) + 1;
      assert s[i..i + n] == [s[i]] + s[i + 1..i + n];
      n
    else 0
  }

  /** The match of /^(\d+)\|(\d+):/ and the two parseInt readings. */
  function ParseLyricLabel(s: string): Option<(int, int)>
  {
    var n1 := DigitRun(s, 0);
    if n1 == 0 || n1 >= |s| || s[n1] != '|' then None
    else
      var n2 := DigitRun(s, n1 + 1);
      if n2 == 0 || n1 + 1 + n2 >= |s| || s[n1 + 1 + n2] != ':' then None
      else Some((ParseDigits(s[..n1]), ParseDigits(s[n1 + 1..n1 + 1 + n2])))
  }

  /** highlightLyrics' beat of a label: (m - 1) * 4 + (b - 1). */
  function LabelBeat(s: string): Option<int>
  {
    match ParseLyricLabel(s)
    case None => None
    case Some(mb) => Some((mb.0 - 1) * 4 + (mb.1 - 1))
  }

  /** A span lights up when its beat is within half a beat of the played
      one. */
  predicate Highlighted(s: string, beat: real)
  {
    var lb := LabelBeat(s);
    lb.Some? && Abs(lb.value as real - beat) < 0.5
  }

  /** For a beat on a page (so not negative) the split into bar and beat
      gives back its whole part. */
  lemma BarAndBeatSplit(beat: real)
    requires beat >= 0.0
    ensures var mb := BarAndBeat(beat);
      mb.0 >= 1 && 1 <= mb.1 <= 4 && (mb.0 - 1) * 4 + (mb.1 - 1) == beat.Floor
  {
    var q := (beat / 4.0).Floor;
    assert q >= 0;
    assert Trunc(beat / 4.0) == q;
    var r := beat - 4.0 * q as real;
    assert 0.0 <= r < 4.0;
    assert (q * 4) as real <= beat;
    var f := r.Floor;
    assert 0 <= f <= 3;
    assert (4 * q + f) as real <= beat < (4 * q + f + 1) as real;
  }

  /** A digit run that stops at a non-digit has exactly its length. */
  lemma {:induction false} DigitRunOfDigits(s: string, i: nat, e: nat)
    requires i <= e < |s| && AllDigits(s[i..e]) && !IsDigit(s[e])
    ensures DigitRun(s, i) == e - i
    decreases e - i
  {
    if i < e {
      assert IsDigit(s[i..e][0]);
      assert s[i + 1..e] == s[i..e][1..];
      DigitRunOfDigits(s, i + 1, e);
    }
  }

  /** Two digit strings around '|' and followed by ':' match the pattern
      and read back as themselves. */
  lemma ParseLabelOf(dm: string, db: string, tail: string)
    requires |dm| > 0 && AllDigits(dm) && |db| > 0 && AllDigits(db)
    requires |tail| > 0 && tail[0] == ':'
    ensures ParseLyricLabel(dm + "|" + db + tail) == Some((ParseDigits(dm), ParseDigits(db)))
  {
    var s := dm + "|" + db + tail;
    var e1 := |dm|;
    var e2 := |dm| + 1 + |db|;
    assert s[..e1] == dm;
    assert s[e1] == '|';
    DigitRunOfDigits(s, 0, e1);
    assert s[e1 + 1..e2] == db;
    assert s[e2] == ':';
    DigitRunOfDigits(s, e1 + 1, e2);
  }

  /** A lyric at a non-negative beat gets a label that parses back to the
      beat's whole part. */
  lemma LyricLabelRoundTrip(l: MidiRef.Lyric)
    requires l.beat >= 0.0
    ensures LabelBeat(LyricLabel(l)) == Some(l.beat.Floor)
  {
    var mb := BarAndBeat(l.beat);
    BarAndBeatSplit(l.beat);
    var m: nat, b: nat := mb.0, mb.1;
    assert IntToString(m) == NatToString(m);
    assert IntToString(b) == NatToString(b);
    assert LyricLabel(l) == NatToString(m) + "|" + NatToString(b) + (": " + l.text);
    ParseLabelOf(NatToString(m), NatToString(b), ": " + l.text);
    ParseNatToString(m);
    ParseNatToString(b);
  }

  /** So a lyric on the page lights up exactly when the played beat is
      within half a beat of the lyric's whole beat. */
  lemma HighlightedLyric(l: MidiRef.Lyric, beat: real)
    requires l.beat >= 0.0
    ensures Highlighted(LyricLabel(l), beat) <==> Abs(l.beat.Floor as real - beat) < 0.5
  {
    LyricLabelRoundTrip(l);
  }

  /* ---------------------------------------------------------------------
     The seeks of the A/B and user playback (src/viz.js:252-283, 396-412)
     --------------------------------------------------------------------- */

  /** The clip length of playAB, in seconds. */
  const ClipSeconds: real := 0.6

  /** (beat + offsetBeats) * 60 / tempo, with `offsetBeats || 0` and
      `tempoBpm || 120`. */
  function BeatSeconds(beat: real, offsetBeats: Option<real>, tempoBpm: real): real
  {
    var offset := if offsetBeats.Some? then offsetBeats.value else 0.0;
    (beat + offset) * (60.0 / Tempo(tempoBpm))
  }

  /** max(0, min(t, duration - dur)). */
  function SeekTarget(t: real, duration: real, dur: real): (s: real)
    ensures 0.0 <= s <= Max(0.0, duration - dur)
    ensures 0.0 <= t <= duration - dur ==> s == t
    ensures t < 0.0 ==> s == 0.0
    ensures 0.0 <= duration - dur < t ==> s == duration - dur
  {
    Max(0.0, Min(t, duration - dur))
  }

  /** Where playAB starts the user's clip. */
  function PlayAbSeek(beat: real, offsetBeats: Option<real>, tempoBpm: real, duration: real): real
  {
    SeekTarget(BeatSeconds(beat, offsetBeats, tempoBpm), duration, ClipSeconds)
  }

  /** The clip length of playUserAtBeat, in seconds. */
  const UserClipSeconds: real := 0.5

  /** Where playUserAtBeat starts; its tempo comes from the caller, with no
      fallback. */
  function PlayUserSeek(beat: real, offsetBeats: Option<real>, tempo: real, duration: real): (s: real)
    requires tempo != 0.0
    ensures 0.0 <= s <= Max(0.0, duration - UserClipSeconds)
  {
    var offset := if offsetBeats.Some? then offsetBeats.value else 0.0;
    SeekTarget((beat + offset) * (60.0 / tempo), duration, UserClipSeconds)
  }

  /** The seek hits the note's time whenever a full clip fits after it. */
  lemma PlayAbSeekExact(beat: real, offsetBeats: Option<real>, tempoBpm: real, duration: real)
    requires 0.0 <= BeatSeconds(beat, offsetBeats, tempoBpm) <= duration - ClipSeconds
    ensures PlayAbSeek(beat, offsetBeats, tempoBpm, duration) == BeatSeconds(beat, offsetBeats, tempoBpm)
  {
  }
}
