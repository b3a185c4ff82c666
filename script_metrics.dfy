/** The scoring side of the single-page pipeline: `computeMetrics`
    (script.js:318-358), `generateCoachingTips` (script.js:414-421) and the
    demo melody used when a MIDI file cannot be loaded (script.js:219-228).
    The module globals `detectedOffset` and `manualOffset` are parameters,
    and WHITE_MIDI is passed in as `keys`. */
module ScriptMetrics {
  import opened Wrappers
  import opened PitchMath
  import ScriptKeys
  import ScriptPitch
  import MidiRef

  /** A note as the page's MIDI loader produces it. */
  datatype ScriptNote = ScriptNote(midi: nat, beatStart: real, beatEnd: real, time: real, duration: real, name: string)

  /** A voiced frame snapped to a white key, at its shifted time. */
  datatype Event = Event(t: real, midi: nat)

  datatype MetricIssue =
    | Miss(note: ScriptNote)
    | PitchError(cents: real, note: ScriptNote)
    | RhythmError(ms: real, note: ScriptNote)

  datatype Metrics = Metrics(pitchAcc: int, avgRhythmMs: int, wrongs: nat, issues: seq<MetricIssue>, audioEvents: seq<Event>)

  const TolCents: real := 50.0
  const TolMs: real := 120.0

  /** The lowest frequency that makes an event, in Hz. */
  const MinEventFreq: real := 60.0

  /** The page's own freqToMidi, without a null case. */
  function ScriptFreqToMidi(freq: real): (m: real)
    requires freq > 0.0
    ensures FreqToMidi(freq) == Some(m)
  {
    69.0 + 12.0 * Log2(freq / 440.0)
  }

  predicate ValidFrames(frames: ScriptPitch.PitchFrames)
  {
    |frames.f0| == |frames.t|
  }

  /* ---------------------------------------------------------------------
     Audio events
     --------------------------------------------------------------------- */

  /** The events of the first n frames: frames under 60 Hz are skipped, the
      rest snapped to a white key and shifted by the offset. */
  function EventsUpTo(keys: seq<nat>, frames: ScriptPitch.PitchFrames, offset: real, n: nat): (evs: seq<Event>)
    requires ValidFrames(frames) && n <= |frames.f0|
    ensures |evs| <= n
    ensures forall e :: e in evs ==> e.midi in keys
  {
    if n == 0 then []
    else
      var prev := EventsUpTo(keys, frames, offset, n - 1);
      var f := frames.f0[n - 1];
      if f < MinEventFreq then prev
      else
        var snapped := ScriptKeys.Snap(keys, Some(ScriptFreqToMidi(f)));
        if snapped.Some? then prev + [Event(frames.t[n - 1] + offset, snapped.value)] else prev
  }

  /** The reduce over the events: the first event nearest to target among
      the first n, -1 for none. */
  function NearestEvent(evs: seq<Event>, target: real, n: nat): (r: int)
    requires n <= |evs|
    ensures -1 <= r < n
    ensures r == -1 <==> n == 0
  {
    if n == 0 then -1
    else
      var prev := NearestEvent(evs, target, n - 1);
      if prev == -1 || Abs(evs[n - 1].t - target) < Abs(evs[prev].t - target) then n - 1 else prev
  }

  /** The event picked is nearest, and the first of the nearest ones. */
  lemma {:induction false} NearestEventIsNearest(evs: seq<Event>, target: real, n: nat)
    requires 0 < n <= |evs|
    ensures var r := NearestEvent(evs, target, n);
      (forall j :: 0 <= j < n ==> Abs(evs[r].t - target) <= Abs(evs[j].t - target)) &&
      (forall j :: 0 <= j < r ==> Abs(evs[r].t - target) < Abs(evs[j].t - target))
  {
    if n > 1 {
      NearestEventIsNearest(evs, target, n - 1);
    }
  }

  /* ---------------------------------------------------------------------
     The per-note tally
     --------------------------------------------------------------------- */

  datatype Tally = Tally(correct: nat, total: nat, rhythmErrMs: real, wrongs: nat, issues: seq<MetricIssue>)

  /** One note against its nearest event: a miss when there is none,
      otherwise a pitch comparison (±50 cents) and a timing comparison
      (±120 ms). */
  function Judge(t: Tally, n: ScriptNote, nearest: Option<Event>, targetT: real): (r: Tally)
    ensures nearest.None? ==> r.total == t.total && r.correct == t.correct && r.wrongs == t.wrongs + 1
    ensures nearest.Some? ==> r.total == t.total + 1 && r.correct + r.wrongs == t.correct + t.wrongs + 1
    ensures r.correct >= t.correct
  {
    if nearest.None? then
      Tally(t.correct, t.total, t.rhythmErrMs, t.wrongs + 1, t.issues + [Miss(n)])
    else
      var e := nearest.value;
      var cents := 100.0 * (e.midi as real - n.midi as real);
      var pitchOk := Abs(cents) <= TolCents;
      var ms := 1000.0 * Abs(e.t - targetT);
      var issues := t.issues + (if pitchOk then [] else [PitchError(cents, n)]) +
        (if ms > TolMs then [RhythmError(ms, n)] else []);
      Tally(if pitchOk then t.correct + 1 else t.correct, t.total + 1, t.rhythmErrMs + ms,
        if pitchOk then t.wrongs else t.wrongs + 1, issues)
  }

  /** One note of the loop. */
  function NoteStep(t: Tally, n: ScriptNote, evs: seq<Event>, offset: real): (r: Tally)
  {
    var targetT := n.time + offset;
    var k := NearestEvent(evs, targetT, |evs|);
    Judge(t, n, if k == -1 then None else Some(evs[k]), targetT)
  }

  function TallyUpTo(notes: seq<ScriptNote>, evs: seq<Event>, offset: real, n: nat): (t: Tally)
    requires n <= |notes|
    ensures t.correct <= t.total <= n
    ensures t.correct + t.wrongs == n
    ensures |evs| == 0 ==> t.total == 0
    ensures |evs| > 0 ==> t.total == n
  {
    if n == 0 then Tally(0, 0, 0.0, 0, [])
    else NoteStep(TallyUpTo(notes, evs, offset, n - 1), notes[n - 1], evs, offset)
  }

  /** computeMetrics. Every note is either a miss or pitch-compared, so the
      wrong notes are the notes that are not correct; the accuracy is a
      percentage. */
  function MetricsOf(keys: seq<nat>, notes: seq<ScriptNote>, frames: ScriptPitch.PitchFrames, offset: real): (m: Metrics)
    requires ValidFrames(frames)
    ensures 0 <= m.pitchAcc <= 100
    ensures m.wrongs <= |notes|
  {
    var evs := EventsUpTo(keys, frames, offset, |frames.f0|);
    var t := TallyUpTo(notes, evs, offset, |notes|);
    var pitchAcc := if t.total > 0 then Percent(t.correct, t.total) else 0;
    var avgRhythmMs := JsRound(t.rhythmErrMs / Max(1.0, t.total as real));
    Metrics(pitchAcc, avgRhythmMs, t.wrongs, t.issues, evs)
  }

  /** With no voiced frame every note is a miss and the accuracy is 0. */
  lemma NoEventsAllMissed(keys: seq<nat>, notes: seq<ScriptNote>, frames: ScriptPitch.PitchFrames, offset: real)
    requires ValidFrames(frames)
    requires forall i :: 0 <= i < |frames.f0| ==> frames.f0[i] < MinEventFreq
    ensures MetricsOf(keys, notes, frames, offset).wrongs == |notes|
    ensures MetricsOf(keys, notes, frames, offset).pitchAcc == 0
  {
    NoEvents(keys, frames, offset, |frames.f0|);
  }

  lemma {:induction false} NoEvents(keys: seq<nat>, frames: ScriptPitch.PitchFrames, offset: real, n: nat)
    requires ValidFrames(frames) && n <= |frames.f0|
    requires forall i :: 0 <= i < n ==> frames.f0[i] < MinEventFreq
    ensures EventsUpTo(keys, frames, offset, n) == []
  {
    if n > 0 {
      NoEvents(keys, frames, offset, n - 1);
    }
  }

  /* ---------------------------------------------------------------------
     The offset does not change the classification: it is added to event
     and note times alike.
     --------------------------------------------------------------------- */

  /** Two event lists that differ only by a constant time shift. */
  ghost predicate Shifted(e1: seq<Event>, o1: real, e2: seq<Event>, o2: real)
  {
    |e1| == |e2| &&
    forall i :: 0 <= i < |e1| ==> e1[i].midi == e2[i].midi && e1[i].t - o1 == e2[i].t - o2
  }

  lemma {:induction false} EventsShifted(keys: seq<nat>, frames: ScriptPitch.PitchFrames, o1: real, o2: real, n: nat)
    requires ValidFrames(frames) && n <= |frames.f0|
    ensures Shifted(EventsUpTo(keys, frames, o1, n), o1, EventsUpTo(keys, frames, o2, n), o2)
  {
    if n > 0 {
      EventsShifted(keys, frames, o1, o2, n - 1);
    }
  }

  lemma {:induction false} NearestShifted(e1: seq<Event>, o1: real, e2: seq<Event>, o2: real, time: real, n: nat)
    requires Shifted(e1, o1, e2, o2) && n <= |e1|
    ensures NearestEvent(e1, time + o1, n) == NearestEvent(e2, time + o2, n)
  {
    if n > 0 {
      NearestShifted(e1, o1, e2, o2, time, n - 1);
      var prev := NearestEvent(e1, time + o1, n - 1);
      assert Abs(e1[n - 1].t - (time + o1)) == Abs(e2[n - 1].t - (time + o2));
      if prev >= 0 {
        assert Abs(e1[prev].t - (time + o1)) == Abs(e2[prev].t - (time + o2));
      }
    }
  }

  /** Judging depends on the time difference only. */
  lemma JudgeShifted(t: Tally, note: ScriptNote, a: Event, ta: real, b: Event, tb: real)
    requires a.midi == b.midi && a.t - ta == b.t - tb
    ensures Judge(t, note, Some(a), ta) == Judge(t, note, Some(b), tb)
  {
    assert Abs(a.t - ta) == Abs(b.t - tb);
  }

  lemma NoteStepShifted(t: Tally, note: ScriptNote, e1: seq<Event>, o1: real, e2: seq<Event>, o2: real)
    requires Shifted(e1, o1, e2, o2)
    ensures NoteStep(t, note, e1, o1) == NoteStep(t, note, e2, o2)
  {
    NearestShifted(e1, o1, e2, o2, note.time, |e1|);
    var k := NearestEvent(e1, note.time + o1, |e1|);
    if k >= 0 {
      JudgeShifted(t, note, e1[k], note.time + o1, e2[k], note.time + o2);
    }
  }

  lemma {:induction false} TallyShifted(notes: seq<ScriptNote>, e1: seq<Event>, o1: real, e2: seq<Event>, o2: real, n: nat)
    requires Shifted(e1, o1, e2, o2) && n <= |notes|
    ensures TallyUpTo(notes, e1, o1, n) == TallyUpTo(notes, e2, o2, n)
  {
    if n > 0 {
      TallyShifted(notes, e1, o1, e2, o2, n - 1);
      NoteStepShifted(TallyUpTo(notes, e1, o1, n - 1), notes[n - 1], e1, o1, e2, o2);
    }
  }

  /** Changing the offset changes the events' times only. */
  lemma OffsetInvariant(keys: seq<nat>, notes: seq<ScriptNote>, frames: ScriptPitch.PitchFrames, o1: real, o2: real)
    requires ValidFrames(frames)
    ensures var m1 := MetricsOf(keys, notes, frames, o1);
      var m2 := MetricsOf(keys, notes, frames, o2);
      m1.pitchAcc == m2.pitchAcc && m1.avgRhythmMs == m2.avgRhythmMs &&
      m1.wrongs == m2.wrongs && m1.issues == m2.issues
  {
    var e1 := EventsUpTo(keys, frames, o1, |frames.f0|);
    var e2 := EventsUpTo(keys, frames, o2, |frames.f0|);
    EventsShifted(keys, frames, o1, o2, |frames.f0|);
    TallyShifted(notes, e1, o1, e2, o2, |notes|);
  }

  /* ---------------------------------------------------------------------
     The imperative computeMetrics
     --------------------------------------------------------------------- */

  method BuildEvents(keys: seq<nat>, frames: ScriptPitch.PitchFrames, offset: real) returns (evs: seq<Event>)
    requires ValidFrames(frames)
    ensures evs == EventsUpTo(keys, frames, offset, |frames.f0|)
  {
    evs := [];
    var i := 0;
    while i < |frames.f0|
      invariant 0 <= i <= |frames.f0|
      invariant evs == EventsUpTo(keys, frames, offset, i)
    {
      var f := frames.f0[i];
      if f >= MinEventFreq {
        var m := 69.0 + 12.0 * Log2(f / 440.0);
        var snapped := ScriptKeys.SnapToWhiteKey(keys, Some(m));
        if snapped.Some? {
          evs := evs + [Event(frames.t[i] + offset, snapped.value)];
        }
      }
      i := i + 1;
    }
  }

  /** The body of the loop over the notes. */
  method CompareNote(correct: nat, total: nat, errMs: real, wrongs: nat, issues: seq<MetricIssue>,
                     n: ScriptNote, evs: seq<Event>, offset: real)
    returns (correct': nat, total': nat, errMs': real, wrongs': nat, issues': seq<MetricIssue>)
    ensures Tally(correct', total', errMs', wrongs', issues') == NoteStep(Tally(correct, total, errMs, wrongs, issues), n, evs, offset)
  {
    correct', total', errMs', wrongs', issues' := correct, total, errMs, wrongs, issues;
    var targetT := n.time + offset;
    var k := NearestEvent(evs, targetT, |evs|);
    if k == -1 {
      wrongs' := wrongs' + 1;
      issues' := issues' + [Miss(n)];
    } else {
      var e := evs[k];
      var cents := 100.0 * (e.midi as real - n.midi as real);
      total' := total' + 1;
      if Abs(cents) <= TolCents {
        correct' := correct' + 1;
      } else {
        wrongs' := wrongs' + 1;
        issues' := issues' + [PitchError(cents, n)];
      }
      var ms := 1000.0 * Abs(e.t - targetT);
      errMs' := errMs' + ms;
      if ms > TolMs {
        issues' := issues' + [RhythmError(ms, n)];
      }
    }
  }

  method ComputeMetrics(keys: seq<nat>, notes: seq<ScriptNote>, frames: ScriptPitch.PitchFrames,
                        detectedOffset: real, manualOffset: real) returns (m: Metrics)
    requires ValidFrames(frames)
    ensures m == MetricsOf(keys, notes, frames, detectedOffset + manualOffset)
  {
    var offset := detectedOffset + manualOffset;
    var evs := BuildEvents(keys, frames, offset);
    var correctPitch, totalPitch, wrongs := 0, 0, 0;
    var rhythmErrMs := 0.0;
    var issues: seq<MetricIssue> := [];
    var i := 0;
    while i < |notes|
      invariant 0 <= i <= |notes|
      invariant Tally(correctPitch, totalPitch, rhythmErrMs, wrongs, issues) == TallyUpTo(notes, evs, offset, i)
    {
      correctPitch, totalPitch, rhythmErrMs, wrongs, issues :=
        CompareNote(correctPitch, totalPitch, rhythmErrMs, wrongs, issues, notes[i], evs, offset);
      i := i + 1;
    }
    var pitchAcc := if totalPitch > 0 then JsRound(100.0 * correctPitch as real / totalPitch as real) else 0;
    var avgRhythmMs := JsRound(rhythmErrMs / Max(1.0, totalPitch as real));
    m := Metrics(pitchAcc, avgRhythmMs, wrongs, issues, evs);
  }

  /* ---------------------------------------------------------------------
     Coaching tips
     --------------------------------------------------------------------- */

  const PitchTip := "고음에서 음이 조금 흔들려요. 호흡을 길게 가져가 보세요."
  const RhythmTip := "박자가 약간 빨라요. 메트로놈과 함께 연습해 보세요."
  const RepeatTip := "어려운 구간은 느리게 반복해서 정확도를 높여보세요."
  const SteadyTip := "전체적으로 안정적이에요. 현재 템포로 한 번 더 반복해 보세요."

  lemma TipsDistinct()
    ensures PitchTip != RhythmTip && PitchTip != RepeatTip && PitchTip != SteadyTip
    ensures RhythmTip != RepeatTip && RhythmTip != SteadyTip && RepeatTip != SteadyTip
  {
    assert PitchTip[0] == '고' && RhythmTip[0] == '박' && RepeatTip[0] == '어' && SteadyTip[0] == '전';
  }

  /** One tip per rule that fires, the steady tip when none does, at most
      five. The issue list it is also given is not used. */
  function CoachingTips(pitchAcc: int, avgRhythmMs: int, wrongs: nat): (tips: seq<string>)
    ensures 1 <= |tips| <= 5
    ensures (SteadyTip in tips) <==> !(pitchAcc < 80 || avgRhythmMs > 100 || wrongs > 3)
    ensures (PitchTip in tips) <==> pitchAcc < 80
    ensures (RhythmTip in tips) <==> avgRhythmMs > 100
    ensures (RepeatTip in tips) <==> wrongs > 3
  {
    var fired := (if pitchAcc < 80 then [PitchTip] else []) +
      (if avgRhythmMs > 100 then [RhythmTip] else []) +
      (if wrongs > 3 then [RepeatTip] else []);
    var tips := if |fired| == 0 then [SteadyTip] else fired;
    TipsDistinct();
    assert tips[..|tips|] == tips;
    tips[..if |tips| < 5 then |tips| else 5]
  }

  /* ---------------------------------------------------------------------
     The demo melody (C C G) at 120 BPM, 480 ticks per beat
     --------------------------------------------------------------------- */

  datatype ScriptLyric = ScriptLyric(beat: real, text: string)
  datatype ScriptMidi = ScriptMidi(notes: seq<ScriptNote>, tempo: real, ppq: nat, lyrics: seq<ScriptLyric>)

  function DemoMelody(): ScriptMidi
  {
    ScriptMidi(
      [ ScriptNote(60, 0.0, 1.0, 0.0, 0.5, "C4"),
        ScriptNote(60, 1.0, 2.0, 0.5, 0.5, "C4"),
        ScriptNote(67, 2.0, 4.0, 1.0, 1.0, "G4") ],
      120.0, 480,
      [ScriptLyric(0.0, "반"), ScriptLyric(1.0, "짝"), ScriptLyric(2.0, "반짝")])
  }

  /** The demo melody is consistent with its tempo: seconds are beats times
      60 / 120, the notes follow each other without gaps, and every name is
      the note's label. */
  lemma DemoMelodyConsistent()
    ensures var d := DemoMelody();
      forall i :: 0 <= i < |d.notes| ==>
        d.notes[i].time == d.notes[i].beatStart * 60.0 / d.tempo &&
        d.notes[i].duration == (d.notes[i].beatEnd - d.notes[i].beatStart) * 60.0 / d.tempo &&
        d.notes[i].name == MidiRef.MidiToNoteLabel(d.notes[i].midi)
    ensures var d := DemoMelody();
      forall i :: 0 < i < |d.notes| ==> d.notes[i].beatStart == d.notes[i - 1].beatEnd
  {
    MidiRef.NoteLabelExamples();
    assert MidiRef.MidiToNoteLabel(67) == "G4" by {
      assert 67 % 12 == 7 && 67 / 12 - 1 == 4;
    }
  }
}
