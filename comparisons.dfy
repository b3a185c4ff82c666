/** buildNoteComparisons (src/analysis.js:125-201): for every reference note
    a reference bar, a bar of what the user sang over it (median pitch,
    first and last voiced beat near it) and, when pitch or timing is off,
    an issue. The user track is shifted so that its first voiced frame
    lines up with the first note. */
module NoteComparisons {
  import opened Wrappers
  import opened PitchMath
  import opened PitchTracks
  import MidiRef
  import Sorting

  /** The sampling step of every scan, in beats. */
  const Step: real := 0.05

  /** ±50 cents: half a semitone. */
  const TolPitch: real := 0.5

  /** How far outside the note the timing scans start and stop. */
  const Margin: real := 0.5

  /** A horizontal bar of the piano roll: beats x0..x1 at a pitch that may
      be missing. */
  datatype Bar = Bar(x0: real, x1: real, midi: Option<real>)

  datatype Issue = Issue(beat: real, midi: nat, pitchDiff: Option<real>, startDiff: real, endDiff: real)

  datatype Comparisons = Comparisons(
    barsRef: seq<Bar>,
    barsUser: seq<Bar>,
    issues: seq<Issue>,
    offsetBeats: real)

  /** What `sampleUserAtBeat` closes over. */
  datatype Ctx = Ctx(track: PitchTrack, spb: real, offsetBeats: real)

  /* ---------------------------------------------------------------------
     Alignment and sampling
     --------------------------------------------------------------------- */

  /** The first frame whose f0 exceeds 60 Hz. */
  function FirstVoiced(f0: seq<real>): (r: Option<nat>)
    ensures r.Some? ==> r.value < |f0| && f0[r.value] > 60.0
    ensures r.Some? ==> forall j :: 0 <= j < r.value ==> f0[j] <= 60.0
    ensures r.None? <==> forall j :: 0 <= j < |f0| ==> f0[j] <= 60.0
  {
    if |f0| == 0 then None
    else if f0[0] > 60.0 then Some(0)
    else match FirstVoiced(f0[1..])
      case None => None
      case Some(i) => Some(i + 1)
  }

  /** The time of that frame, 0 when there is none. */
  function FirstVoicedSec(track: PitchTrack): real
    requires ValidTrack(track)
  {
    match FirstVoiced(track.f0)
    case None => 0.0
    case Some(i) => track.times[i]
  }

  /** The alignment loop with its `break`. */
  method FindFirstVoicedSec(track: PitchTrack) returns (sec: real)
    requires ValidTrack(track)
    ensures sec == FirstVoicedSec(track)
  {
    sec := 0.0;
    var i := 0;
    while i < |track.f0|
      invariant 0 <= i <= |track.f0|
      invariant forall j :: 0 <= j < i ==> track.f0[j] <= 60.0
    {
      if track.f0[i] > 60.0 {
        sec := track.times[i];
        assert FirstVoiced(track.f0) == Some(i);
        return;
      }
      i := i + 1;
    }
  }

  /** `reference.notes[0]?.startBeat || 0`. */
  function FirstRefBeat(notes: seq<MidiRef.Note>): real
  {
    if |notes| > 0 then notes[0].startBeat else 0.0
  }

  /** The beat offset that moves the first note onto the first voiced
      frame. */
  function OffsetBeats(track: PitchTrack, spb: real, notes: seq<MidiRef.Note>): (o: real)
    requires ValidTrack(track) && spb > 0.0
    ensures o * spb == FirstVoicedSec(track) - FirstRefBeat(notes) * spb
  {
    FirstVoicedSec(track) / spb - FirstRefBeat(notes)
  }

  /** The frame an (aligned) beat falls on. */
  function FrameOf(c: Ctx, b: real): int
    requires PositivePeriod(c.track)
  {
    JsRound((b + c.offsetBeats) * c.spb / HopSeconds(c.track))
  }

  /** sampleUserAtBeat: the MIDI pitch of the frame at the aligned beat,
      null outside the track or for an unvoiced frame. */
  function SampleUserAtBeat(c: Ctx, b: real): (u: Option<real>)
    requires PositivePeriod(c.track)
    ensures u.Some? <==> 0 <= FrameOf(c, b) < |c.track.f0| && c.track.f0[FrameOf(c, b)] > 0.0
    ensures u.Some? ==> u == FreqToMidi(c.track.f0[FrameOf(c, b)])
  {
    var idx := FrameOf(c, b);
    if idx < 0 || idx >= |c.track.f0| then None
    else
      var f := c.track.f0[idx];
      if f <= 0.0 then None else Some(69.0 + 12.0 * Log2(f / 440.0))
  }

  /** No beat in [lo, hi] has a voiced sample. */
  ghost predicate SilentOver(c: Ctx, lo: real, hi: real)
    requires PositivePeriod(c.track)
  {
    forall b :: lo <= b <= hi ==> SampleUserAtBeat(c, b).None?
  }

  /* ---------------------------------------------------------------------
     The three scans over one note (src/analysis.js:165-185)
     --------------------------------------------------------------------- */

  /** The voiced samples at beats lo + j * Step, j >= k, below hi. */
  function WindowSamples(c: Ctx, lo: real, hi: real, k: nat): (r: seq<real>)
    requires PositivePeriod(c.track)
    decreases ((hi - lo) / Step).Floor + 1 - k
  {
    var b := lo + k as real * Step;
    if b >= hi then []
    else
      GridIndexBound(k, Step, hi - lo);
      var u := SampleUserAtBeat(c, b);
      (if u.Some? then [u.value] else []) + WindowSamples(c, lo, hi, k + 1)
  }

  /** The first voiced beat lo + j * Step, j >= k, below hi. */
  function ScanUp(c: Ctx, lo: real, hi: real, k: nat): (r: Option<real>)
    requires PositivePeriod(c.track)
    ensures r.Some? ==> lo <= r.value < hi && SampleUserAtBeat(c, r.value).Some?
    decreases ((hi - lo) / Step).Floor + 1 - k
  {
    var b := lo + k as real * Step;
    if b >= hi then None
    else
      GridIndexBound(k, Step, hi - lo);
      if SampleUserAtBeat(c, b).Some? then Some(b) else ScanUp(c, lo, hi, k + 1)
  }

  /** The first voiced beat hi - j * Step, j >= k, above lo: the last one
      scanning downwards. */
  function ScanDown(c: Ctx, hi: real, lo: real, k: nat): (r: Option<real>)
    requires PositivePeriod(c.track)
    ensures r.Some? ==> lo < r.value <= hi && SampleUserAtBeat(c, r.value).Some?
    decreases ((hi - lo) / Step).Floor + 1 - k
  {
    var b := hi - k as real * Step;
    if b <= lo then None
    else
      GridIndexBound(k, Step, hi - lo);
      if SampleUserAtBeat(c, b).Some? then Some(b) else ScanDown(c, hi, lo, k + 1)
  }

  method CollectWindow(c: Ctx, lo: real, hi: real) returns (samples: seq<real>)
    requires PositivePeriod(c.track)
    ensures samples == WindowSamples(c, lo, hi, 0)
  {
    samples := [];
    var k := 0;
    while lo + k as real * Step < hi
      invariant samples + WindowSamples(c, lo, hi, k) == WindowSamples(c, lo, hi, 0)
      decreases ((hi - lo) / Step).Floor + 1 - k
    {
      GridIndexBound(k, Step, hi - lo);
      var u := SampleUserAtBeat(c, lo + k as real * Step);
      if u.Some? {
        samples := samples + [u.value];
      }
      k := k + 1;
    }
  }

  method FindStart(c: Ctx, lo: real, hi: real) returns (found: Option<real>)
    requires PositivePeriod(c.track)
    ensures found == ScanUp(c, lo, hi, 0)
  {
    var k := 0;
    while lo + k as real * Step < hi
      invariant ScanUp(c, lo, hi, k) == ScanUp(c, lo, hi, 0)
      decreases ((hi - lo) / Step).Floor + 1 - k
    {
      GridIndexBound(k, Step, hi - lo);
      var b := lo + k as real * Step;
      if SampleUserAtBeat(c, b).Some? {
        return Some(b);
      }
      k := k + 1;
    }
    return None;
  }

  method FindEnd(c: Ctx, hi: real, lo: real) returns (found: Option<real>)
    requires PositivePeriod(c.track)
    ensures found == ScanDown(c, hi, lo, 0)
  {
    var k := 0;
    while hi - k as real * Step > lo
      invariant ScanDown(c, hi, lo, k) == ScanDown(c, hi, lo, 0)
      decreases ((hi - lo) / Step).Floor + 1 - k
    {
      GridIndexBound(k, Step, hi - lo);
      var b := hi - k as real * Step;
      if SampleUserAtBeat(c, b).Some? {
        return Some(b);
      }
      k := k + 1;
    }
    return None;
  }

  /* ---------------------------------------------------------------------
     One note
     --------------------------------------------------------------------- */

  function RefBar(n: MidiRef.Note): Bar
  {
    Bar(n.startBeat, MidiRef.EndBeat(n), Some(n.midi as real))
  }

  /** The median of the voiced samples over [start, end), if any. */
  function UserPitch(c: Ctx, n: MidiRef.Note): Option<real>
    requires PositivePeriod(c.track)
  {
    var samples := WindowSamples(c, n.startBeat, MidiRef.EndBeat(n), 0);
    if |samples| > 0 then Some(Sorting.Median(samples)) else None
  }

  /** The user's bar: first and last voiced beats within half a beat of
      the note, falling back to the note's own start and end. */
  function UserBar(c: Ctx, n: MidiRef.Note): Bar
    requires PositivePeriod(c.track)
  {
    var start := n.startBeat;
    var end := MidiRef.EndBeat(n);
    var s := ScanUp(c, start - Margin, end + Margin, 0);
    var e := ScanDown(c, end + Margin, start - Margin, 0);
    Bar(if s.Some? then s.value else start, if e.Some? then e.value else end, UserPitch(c, n))
  }

  /** Each end of the user's bar is the note's own end or a voiced beat
      within half a beat of the note. */
  lemma UserBarEnds(c: Ctx, n: MidiRef.Note)
    requires PositivePeriod(c.track)
    ensures var bar := UserBar(c, n);
      && (bar.x0 == n.startBeat ||
          (n.startBeat - Margin <= bar.x0 < MidiRef.EndBeat(n) + Margin && SampleUserAtBeat(c, bar.x0).Some?))
      && (bar.x1 == MidiRef.EndBeat(n) ||
          (n.startBeat - Margin < bar.x1 <= MidiRef.EndBeat(n) + Margin && SampleUserAtBeat(c, bar.x1).Some?))
  {
  }

  /** ±100 ms in beats: 0.1 s * tempo / 60. */
  function TolBeats(tempoBpm: real): (t: real)
    requires tempoBpm > 0.0
    ensures t > 0.0
  {
    (100.0 / 1000.0) * (tempoBpm / 60.0)
  }

  function PitchDiff(user: Bar, n: MidiRef.Note): Option<real>
  {
    if user.midi.None? then None else Some(user.midi.value - n.midi as real)
  }

  /** The issue predicate: pitch off by more than half a semitone, or start
      or end off by more than the timing tolerance. */
  predicate IsIssue(user: Bar, n: MidiRef.Note, tol: real)
  {
    var pd := PitchDiff(user, n);
    (pd.Some? && Abs(pd.value) > TolPitch) ||
    Abs(user.x0 - n.startBeat) > tol ||
    Abs(user.x1 - MidiRef.EndBeat(n)) > tol
  }

  function IssueOf(user: Bar, n: MidiRef.Note): Issue
  {
    Issue(n.startBeat, n.midi, PitchDiff(user, n), user.x0 - n.startBeat, user.x1 - MidiRef.EndBeat(n))
  }

  /** The issues of the first k notes, in note order, given the user's bar
      over each note. */
  function Issues(users: seq<Bar>, notes: seq<MidiRef.Note>, tol: real, k: nat): (r: seq<Issue>)
    requires k <= |users| && k <= |notes|
    ensures |r| <= k
  {
    if k == 0 then []
    else
      Issues(users, notes, tol, k - 1) +
      (if IsIssue(users[k - 1], notes[k - 1], tol) then [IssueOf(users[k - 1], notes[k - 1])] else [])
  }

  /** Issues over the first k notes look at the first k bars only. */
  lemma {:induction false} IssuesExtend(users: seq<Bar>, more: seq<Bar>, notes: seq<MidiRef.Note>, tol: real, k: nat)
    requires k <= |users| && k <= |notes|
    ensures Issues(users + more, notes, tol, k) == Issues(users, notes, tol, k)
  {
    if k > 0 {
      IssuesExtend(users, more, notes, tol, k - 1);
      assert (users + more)[k - 1] == users[k - 1];
    }
  }

  /** The issues are, in order, exactly those of the notes that satisfy the
      issue predicate: idx lists those notes' positions. */
  lemma {:induction false} IssuesSubsequence(users: seq<Bar>, notes: seq<MidiRef.Note>, tol: real, k: nat)
    returns (idx: seq<nat>)
    requires k <= |users| && k <= |notes|
    ensures |idx| == |Issues(users, notes, tol, k)|
    ensures forall i :: 0 <= i < |idx| ==>
      idx[i] < k && IsIssue(users[idx[i]], notes[idx[i]], tol) &&
      Issues(users, notes, tol, k)[i] == IssueOf(users[idx[i]], notes[idx[i]])
    ensures forall i, j :: 0 <= i < j < |idx| ==> idx[i] < idx[j]
    ensures forall j :: 0 <= j < k && IsIssue(users[j], notes[j], tol) ==> j in idx
  {
    if k == 0 {
      idx := [];
    } else {
      var prior := IssuesSubsequence(users, notes, tol, k - 1);
      var before := Issues(users, notes, tol, k - 1);
      var now := Issues(users, notes, tol, k);
      if IsIssue(users[k - 1], notes[k - 1], tol) {
        idx := prior + [k - 1];
        assert now == before + [IssueOf(users[k - 1], notes[k - 1])];
      } else {
        idx := prior;
        assert now == before;
      }
      forall i | 0 <= i < |prior|
        ensures idx[i] == prior[i] && now[i] == before[i]
      {
      }
      forall j | 0 <= j < k - 1 && IsIssue(users[j], notes[j], tol)
        ensures j in idx
      {
        assert j in prior;
      }
    }
  }

  /* --- a note sung over nothing is not an issue --- */

  lemma {:induction false} SilentWindow(c: Ctx, lo: real, hi: real, k: nat)
    requires PositivePeriod(c.track) && SilentOver(c, lo, hi)
    ensures WindowSamples(c, lo, hi, k) == []
    decreases ((hi - lo) / Step).Floor + 1 - k
  {
    var b := lo + k as real * Step;
    if b < hi {
      GridIndexBound(k, Step, hi - lo);
      assert SampleUserAtBeat(c, b).None?;
      SilentWindow(c, lo, hi, k + 1);
    }
  }

  lemma {:induction false} SilentScanUp(c: Ctx, lo: real, hi: real, k: nat)
    requires PositivePeriod(c.track) && SilentOver(c, lo, hi)
    ensures ScanUp(c, lo, hi, k) == None
    decreases ((hi - lo) / Step).Floor + 1 - k
  {
    var b := lo + k as real * Step;
    if b < hi {
      GridIndexBound(k, Step, hi - lo);
      assert SampleUserAtBeat(c, b).None?;
      SilentScanUp(c, lo, hi, k + 1);
    }
  }

  lemma {:induction false} SilentScanDown(c: Ctx, hi: real, lo: real, k: nat)
    requires PositivePeriod(c.track) && SilentOver(c, lo, hi)
    ensures ScanDown(c, hi, lo, k) == None
    decreases ((hi - lo) / Step).Floor + 1 - k
  {
    var b := hi - k as real * Step;
    if b > lo {
      GridIndexBound(k, Step, hi - lo);
      assert SampleUserAtBeat(c, b).None?;
      SilentScanDown(c, hi, lo, k + 1);
    }
  }

  /** A note with no voiced sample within half a beat of it falls back to
      the reference start and end with a null pitch, and so is no issue. */
  lemma SilentNoteNotIssue(c: Ctx, n: MidiRef.Note, tol: real)
    requires PositivePeriod(c.track) && tol >= 0.0
    requires SilentOver(c, n.startBeat - Margin, MidiRef.EndBeat(n) + Margin)
    ensures UserBar(c, n) == Bar(n.startBeat, MidiRef.EndBeat(n), None)
    ensures !IsIssue(UserBar(c, n), n, tol)
  {
    var start := n.startBeat;
    var end := MidiRef.EndBeat(n);
    SilentScanUp(c, start - Margin, end + Margin, 0);
    SilentScanDown(c, end + Margin, start - Margin, 0);
    assert SilentOver(c, start, end);
    SilentWindow(c, start, end, 0);
  }

  /* ---------------------------------------------------------------------
     The whole comparison
     --------------------------------------------------------------------- */

  /** The median of the window's samples (src/analysis.js:163-174). */
  method MeasureUserPitch(c: Ctx, n: MidiRef.Note) returns (uMidi: Option<real>)
    requires PositivePeriod(c.track)
    ensures uMidi == UserPitch(c, n)
  {
    var samples := CollectWindow(c, n.startBeat, n.startBeat + n.durationBeats);
    uMidi := None;
    if |samples| > 0 {
      var sorted := Sorting.Sort(samples);
      uMidi := Some(sorted[|samples| / 2]);
    }
  }

  /** The user's bar over one note (src/analysis.js:163-190). */
  method MeasureUserBar(c: Ctx, n: MidiRef.Note) returns (user: Bar)
    requires PositivePeriod(c.track)
    ensures user == UserBar(c, n)
  {
    var start := n.startBeat;
    var end := n.startBeat + n.durationBeats;
    var uMidi := MeasureUserPitch(c, n);
    var uStart := FindStart(c, start - Margin, end + Margin);
    var uEnd := FindEnd(c, end + Margin, start - Margin);
    user := Bar(if uStart.Some? then uStart.value else start,
                if uEnd.Some? then uEnd.value else end, uMidi);
  }

  /** The body of the loop over the notes. */
  method CompareNote(c: Ctx, tol: real, n: MidiRef.Note) returns (refBar: Bar, user: Bar, issue: Option<Issue>)
    requires PositivePeriod(c.track)
    ensures refBar == RefBar(n) && user == UserBar(c, n)
    ensures issue.Some? <==> IsIssue(user, n, tol)
    ensures issue.Some? ==> issue.value == IssueOf(user, n)
  {
    var start := n.startBeat;
    var end := n.startBeat + n.durationBeats;
    refBar := Bar(start, end, Some(n.midi as real));

    user := MeasureUserBar(c, n);

    var pitchDiff := if user.midi.None? then None else Some(user.midi.value - n.midi as real);
    var startDiff := user.x0 - start;
    var endDiff := user.x1 - end;
    if (pitchDiff.Some? && Abs(pitchDiff.value) > TolPitch) || Abs(startDiff) > tol || Abs(endDiff) > tol {
      issue := Some(Issue(start, n.midi, pitchDiff, startDiff, endDiff));
    } else {
      issue := None;
    }
  }

  /** The user bars of the first k notes, in order. */
  function UserBarsUpTo(c: Ctx, notes: seq<MidiRef.Note>, k: nat): (r: seq<Bar>)
    requires PositivePeriod(c.track) && k <= |notes|
    ensures |r| == k
  {
    if k == 0 then [] else UserBarsUpTo(c, notes, k - 1) + [UserBar(c, notes[k - 1])]
  }

  /** Entry j of the list is the bar of note j. */
  lemma {:induction false} UserBarsUpToAt(c: Ctx, notes: seq<MidiRef.Note>, k: nat, j: nat)
    requires PositivePeriod(c.track) && j < k <= |notes|
    ensures UserBarsUpTo(c, notes, k)[j] == UserBar(c, notes[j])
  {
    if j < k - 1 {
      UserBarsUpToAt(c, notes, k - 1, j);
    }
  }

  /** The three lists after the first i notes. */
  ghost predicate ComparedUpTo(c: Ctx, tol: real, notes: seq<MidiRef.Note>, i: nat,
                               barsRef: seq<Bar>, barsUser: seq<Bar>, issues: seq<Issue>)
    requires PositivePeriod(c.track)
  {
    && i <= |notes| && |barsRef| == i
    && (forall j :: 0 <= j < i ==> barsRef[j] == RefBar(notes[j]))
    && barsUser == UserBarsUpTo(c, notes, i)
    && issues == Issues(barsUser, notes, tol, i)
  }

  /** One turn of the loop over the notes. */
  method CompareStep(c: Ctx, tol: real, notes: seq<MidiRef.Note>, i: nat,
                     barsRef: seq<Bar>, barsUser: seq<Bar>, issues: seq<Issue>)
    returns (barsRef': seq<Bar>, barsUser': seq<Bar>, issues': seq<Issue>)
    requires PositivePeriod(c.track) && i < |notes|
    requires ComparedUpTo(c, tol, notes, i, barsRef, barsUser, issues)
    ensures ComparedUpTo(c, tol, notes, i + 1, barsRef', barsUser', issues')
  {
    var refBar, user, issue := CompareNote(c, tol, notes[i]);
    barsRef' := barsRef + [refBar];
    IssuesExtend(barsUser, [user], notes, tol, i);
    barsUser' := barsUser + [user];
    issues' := if issue.Some? then issues + [issue.value] else issues;
  }

  /** The loop over the reference notes. */
  method CompareNotes(c: Ctx, tol: real, notes: seq<MidiRef.Note>)
    returns (barsRef: seq<Bar>, barsUser: seq<Bar>, issues: seq<Issue>)
    requires PositivePeriod(c.track)
    ensures |barsRef| == |notes| && |barsUser| == |notes|
    ensures forall i :: 0 <= i < |notes| ==> barsRef[i] == RefBar(notes[i])
    ensures forall i :: 0 <= i < |notes| ==> barsUser[i] == UserBar(c, notes[i])
    ensures issues == Issues(barsUser, notes, tol, |notes|)
  {
    barsRef, barsUser, issues := [], [], [];
    var i := 0;
    while i < |notes|
      invariant 0 <= i <= |notes|
      invariant ComparedUpTo(c, tol, notes, i, barsRef, barsUser, issues)
    {
      barsRef, barsUser, issues := CompareStep(c, tol, notes, i, barsRef, barsUser, issues);
      i := i + 1;
    }
    forall j | 0 <= j < |notes| ensures barsUser[j] == UserBar(c, notes[j]) {
      UserBarsUpToAt(c, notes, |notes|, j);
    }
  }

  method BuildNoteComparisons(reference: MidiRef.Reference, track: PitchTrack) returns (res: Comparisons)
    requires reference.song.tempoBpm > 0.0 && ValidTrack(track)
    ensures var spb := 60.0 / reference.song.tempoBpm;
      res.offsetBeats == OffsetBeats(track, spb, reference.song.notes)
    ensures |res.barsRef| == |reference.song.notes| && |res.barsUser| == |reference.song.notes|
    ensures forall i :: 0 <= i < |reference.song.notes| ==>
      res.barsRef[i] == RefBar(reference.song.notes[i])
    ensures var c := Ctx(track, 60.0 / reference.song.tempoBpm, res.offsetBeats);
      forall i :: 0 <= i < |reference.song.notes| ==>
        res.barsUser[i] == UserBar(c, reference.song.notes[i])
    ensures res.issues == Issues(res.barsUser, reference.song.notes, TolBeats(reference.song.tempoBpm), |reference.song.notes|)
  {
    var notes := reference.song.notes;
    var spb := 60.0 / reference.song.tempoBpm;
    var firstVoicedSec := FindFirstVoicedSec(track);
    var offsetBeats := firstVoicedSec / spb - FirstRefBeat(notes);
    var c := Ctx(track, spb, offsetBeats);
    var barsRef, barsUser, issues := CompareNotes(c, TolBeats(reference.song.tempoBpm), notes);
    res := Comparisons(barsRef, barsUser, issues, offsetBeats);
  }
}
