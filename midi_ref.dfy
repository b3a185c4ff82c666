/** The reference melody (src/midi.js): the built-in song table, the
    normaliser that resamples a note list onto a 0.05-beat grid, the
    MIDI-number labels and the Y-axis tick builders. */
module MidiRef {
  import opened Wrappers
  import opened Text
  import Sorting

  /* ---------------------------------------------------------------------
     Data model
     --------------------------------------------------------------------- */

  /** A note in beats: it sounds over the half-open interval
      [startBeat, startBeat + durationBeats). */
  datatype Note = Note(startBeat: real, durationBeats: real, midi: nat)

  datatype Lyric = Lyric(beat: real, text: string)

  /** An entry of the built-in song table. */
  datatype Song = Song(
    id: string,
    title: string,
    tempoBpm: real,
    timeSig: (nat, nat),
    key: string,
    lyrics: seq<Lyric>,
    notes: seq<Note>)

  /** One point of the resampled reference curve. */
  datatype Sample = Sample(beat: real, midi: Option<nat>)

  /** The normalised reference: the song's own fields (the `...ref` spread)
      plus totalBeats, beatStep and the sampled curve. */
  datatype Reference = Reference(
    song: Song,
    totalBeats: real,
    beatStep: real,
    samples: seq<Sample>)

  /** A labelled Y-axis tick. */
  datatype Tick = Tick(value: nat, tag: string)

  function EndBeat(n: Note): real
  {
    n.startBeat + n.durationBeats
  }

  predicate Covers(n: Note, beat: real)
  {
    n.startBeat <= beat < EndBeat(n)
  }

  const BeatStep: real := 0.05

  /* ---------------------------------------------------------------------
     Built-in song table (src/midi.js:3-76)
     --------------------------------------------------------------------- */

  function TwinkleNotes(): seq<Note>
  {
    [ // measure 1: C C G G
      Note(0.0, 1.0, 60), Note(1.0, 1.0, 60), Note(2.0, 1.0, 67), Note(3.0, 1.0, 67),
      // measure 2: A A G(2)
      Note(4.0, 1.0, 69), Note(5.0, 1.0, 69), Note(6.0, 2.0, 67),
      // measure 3: F F E E
      Note(8.0, 1.0, 65), Note(9.0, 1.0, 65), Note(10.0, 1.0, 64), Note(11.0, 1.0, 64),
      // measure 4: D D C(2)
      Note(12.0, 1.0, 62), Note(13.0, 1.0, 62), Note(14.0, 2.0, 60),
      // measure 5: G G F F
      Note(16.0, 1.0, 67), Note(17.0, 1.0, 67), Note(18.0, 1.0, 65), Note(19.0, 1.0, 65),
      // measure 6: E E D(2)
      Note(20.0, 1.0, 64), Note(21.0, 1.0, 64), Note(22.0, 2.0, 62),
      // measure 7: G G F F
      Note(24.0, 1.0, 67), Note(25.0, 1.0, 67), Note(26.0, 1.0, 65), Note(27.0, 1.0, 65),
      // measure 8: E E D(2)
      Note(28.0, 1.0, 64), Note(29.0, 1.0, 64), Note(30.0, 2.0, 62),
      // measure 9: C C G G
      Note(32.0, 1.0, 60), Note(33.0, 1.0, 60), Note(34.0, 1.0, 67), Note(35.0, 1.0, 67),
      // measure 10: A A G(2)
      Note(36.0, 1.0, 69), Note(37.0, 1.0, 69), Note(38.0, 2.0, 67)
    ]
  }

  function TwinkleLyrics(): seq<Lyric>
  {
    [ Lyric(0.0, "반"), Lyric(1.0, "짝"), Lyric(2.0, "반"), Lyric(3.0, "짝"),
      Lyric(4.0, "작"), Lyric(5.0, "은"), Lyric(6.0, "별"),
      Lyric(8.0, "아"), Lyric(9.0, "름"), Lyric(10.0, "답"), Lyric(11.0, "게"),
      Lyric(12.0, "비"), Lyric(13.0, "치"), Lyric(14.0, "네"),
      Lyric(16.0, "동"), Lyric(17.0, "쪽"), Lyric(18.0, "하"), Lyric(19.0, "늘"),
      Lyric(20.0, "에"), Lyric(21.0, "서"), Lyric(22.0, "도"),
      Lyric(24.0, "서"), Lyric(25.0, "쪽"), Lyric(26.0, "하"), Lyric(27.0, "늘"),
      Lyric(28.0, "에"), Lyric(29.0, "서"), Lyric(30.0, "도"),
      Lyric(32.0, "반"), Lyric(33.0, "짝"), Lyric(34.0, "반"), Lyric(35.0, "짝"),
      Lyric(36.0, "작"), Lyric(37.0, "은"), Lyric(38.0, "별")
    ]
  }

  function Twinkle(): Song
  {
    Song("twinkle", "작은 별 (4/4, C 메이저, ♩=120)", 120.0, (4, 4), "C",
         TwinkleLyrics(), TwinkleNotes())
  }

  function BuiltIn(): seq<Song>
  {
    [Twinkle()]
  }

  /* ---------------------------------------------------------------------
     Normalisation (src/midi.js:89-98)
     --------------------------------------------------------------------- */

  /** `Math.max(...notes.map(n => n.startBeat + n.durationBeats))`. */
  function MaxEnd(notes: seq<Note>): (m: real)
    requires |notes| > 0
    ensures forall n :: n in notes ==> EndBeat(n) <= m
    ensures exists n :: n in notes && EndBeat(n) == m
  {
    if |notes| == 1 then EndBeat(notes[0])
    else
      var rest := MaxEnd(notes[1..]);
      assert forall n :: n in notes <==> n == notes[0] || n in notes[1..] by {
        assert notes == [notes[0]] + notes[1..];
      }
      if EndBeat(notes[0]) < rest then rest else EndBeat(notes[0])
  }

  /** `notes.find(n => beat is inside n)`, as the index of the first note,
      in list order, whose half-open interval contains `beat`. */
  function FirstCovering(notes: seq<Note>, beat: real): (r: Option<nat>)
    ensures r.Some? ==> r.value < |notes| && Covers(notes[r.value], beat)
    ensures r.Some? ==> forall j :: 0 <= j < r.value ==> !Covers(notes[j], beat)
    ensures r.None? <==> forall j :: 0 <= j < |notes| ==> !Covers(notes[j], beat)
  {
    if |notes| == 0 then None
    else if Covers(notes[0], beat) then Some(0)
    else match FirstCovering(notes[1..], beat)
      case None => None
      case Some(i) => Some(i + 1)
  }

  /** The pitch the reference curve takes at `beat`. */
  function ActiveMidi(notes: seq<Note>, beat: real): Option<nat>
  {
    match FirstCovering(notes, beat)
    case None => None
    case Some(i) => Some(notes[i].midi)
  }

  /** Everything normalizeReference promises about its result. */
  ghost predicate IsNormalization(song: Song, r: Reference)
    requires |song.notes| > 0
  {
    && r.song == song
    && r.beatStep == BeatStep
    && r.totalBeats == MaxEnd(song.notes)
    && (forall k :: 0 <= k < |r.samples| ==>
          r.samples[k].beat == k as real * BeatStep <= r.totalBeats)
    && (forall k :: 0 <= k < |r.samples| ==>
          r.samples[k].midi == ActiveMidi(song.notes, r.samples[k].beat))
    && |r.samples| as real * BeatStep > r.totalBeats
  }

  /** The k-th sample of a normalization: grid beat k and the pitch
      sounding there. */
  lemma NormalizedSample(song: Song, r: Reference, k: nat)
    requires |song.notes| > 0 && IsNormalization(song, r) && k < |r.samples|
    ensures r.samples[k].beat == k as real * 0.05
    ensures r.samples[k].midi == ActiveMidi(song.notes, k as real * 0.05)
  {
  }

  /** The samples of a normalization sit on the grid. */
  lemma NormalizedBeats(song: Song, r: Reference)
    requires |song.notes| > 0 && IsNormalization(song, r)
    ensures forall j :: 0 <= j < |r.samples| ==> r.samples[j].beat == j as real * 0.05
  {
  }

  /** The samples so far sit on the grid, within totalBeats, each with the
      pitch active at its beat. */
  ghost predicate OnGrid(notes: seq<Note>, totalBeats: real, samples: seq<Sample>)
  {
    forall j :: 0 <= j < |samples| ==>
      samples[j] == Sample(j as real * BeatStep, ActiveMidi(notes, j as real * BeatStep)) &&
      samples[j].beat <= totalBeats
  }

  lemma OnGridSnoc(notes: seq<Note>, totalBeats: real, samples: seq<Sample>, b: real)
    requires OnGrid(notes, totalBeats, samples)
    requires b == |samples| as real * BeatStep <= totalBeats
    ensures OnGrid(notes, totalBeats, samples + [Sample(b, ActiveMidi(notes, b))])
  {
    var next := samples + [Sample(b, ActiveMidi(notes, b))];
    forall j | 0 <= j < |next|
      ensures next[j] == Sample(j as real * BeatStep, ActiveMidi(notes, j as real * BeatStep)) &&
        next[j].beat <= totalBeats
    {
      if j < |samples| {
        assert next[j] == samples[j];
      }
    }
  }

  /** A full grid is a normalisation. */
  lemma GridIsNormalization(song: Song, totalBeats: real, samples: seq<Sample>)
    requires |song.notes| > 0 && totalBeats == MaxEnd(song.notes)
    requires OnGrid(song.notes, totalBeats, samples)
    requires |samples| as real * BeatStep > totalBeats
    ensures IsNormalization(song, Reference(song, totalBeats, BeatStep, samples))
  {
    forall k | 0 <= k < |samples|
      ensures samples[k].beat == k as real * BeatStep <= totalBeats
      ensures samples[k].midi == ActiveMidi(song.notes, samples[k].beat)
    {
      assert samples[k] == Sample(k as real * BeatStep, ActiveMidi(song.notes, k as real * BeatStep));
    }
    var r := Reference(song, totalBeats, BeatStep, samples);
    assert r.samples == samples && r.totalBeats == totalBeats;
  }

  /** normalizeReference: resample the notes on the grid k * 0.05 for every
      k with k * 0.05 <= totalBeats. The source's `b += 0.05` accumulation
      is replaced by the exact multiple. */
  method NormalizeReference(song: Song) returns (r: Reference)
    requires |song.notes| > 0
    ensures IsNormalization(song, r)
  {
    var totalBeats := MaxEnd(song.notes);
    var samples: seq<Sample> := [];
    var k := 0;
    while k as real * BeatStep <= totalBeats
      invariant |samples| == k
      invariant OnGrid(song.notes, totalBeats, samples)
      decreases (20.0 * totalBeats).Floor + 1 - k
    {
      var b := k as real * BeatStep;
      OnGridSnoc(song.notes, totalBeats, samples, b);
      samples := samples + [Sample(b, ActiveMidi(song.notes, b))];
      k := k + 1;
    }
    GridIsNormalization(song, totalBeats, samples);
    r := Reference(song, totalBeats, BeatStep, samples);
  }

  /** loadReference: the normalised built-in song with that id, or the
      error 'Unknown song id'. */
  method LoadReference(songId: string) returns (r: Result<Reference>)
    ensures r.Success? <==> exists s :: s in BuiltIn() && s.id == songId
    ensures r.Success? ==> IsNormalization(Twinkle(), r.value)
    ensures r.Failure? ==> r.error == "Unknown song id"
  {
    if songId == Twinkle().id {
      TwinkleContiguous();
      var normalized := NormalizeReference(Twinkle());
      r := Success(normalized);
    } else {
      r := Failure("Unknown song id");
    }
  }

  /** The built-in melody: 35 notes, starting at beat 0, each with a
      positive duration and starting where the previous one ends. */
  lemma TwinkleContiguous()
    ensures |TwinkleNotes()| == 35 && |TwinkleLyrics()| == 35
    ensures TwinkleNotes()[0].startBeat == 0.0
    ensures forall i :: 0 <= i < 35 ==> TwinkleNotes()[i].durationBeats > 0.0
    ensures forall i :: 0 <= i < 34 ==>
      TwinkleNotes()[i + 1].startBeat == EndBeat(TwinkleNotes()[i])
  {
    var ns := TwinkleNotes();
    forall i | 0 <= i < 34 ensures ns[i + 1].startBeat == EndBeat(ns[i]) {
      ContiguousAt(i);
    }
  }

  lemma ContiguousAt(i: nat)
    requires i < 34
    ensures TwinkleNotes()[i].durationBeats > 0.0
    ensures TwinkleNotes()[i + 1].durationBeats > 0.0
    ensures TwinkleNotes()[i + 1].startBeat == EndBeat(TwinkleNotes()[i])
  {
    var ns := TwinkleNotes();
    if i < 17 {
      if i < 8 {
        if i < 4 {} else {}
      } else {
        if i < 12 {} else {}
      }
    } else {
      if i < 25 {
        if i < 21 {} else {}
      } else {
        if i < 29 {} else {}
      }
    }
  }

  /** Starts strictly increase and the song spans 40 beats, the "10
      measures (40 beats)" of its comment. */
  lemma TwinkleSpansFortyBeats()
    ensures forall i :: 0 <= i < 34 ==>
      TwinkleNotes()[i].startBeat < TwinkleNotes()[i + 1].startBeat
    ensures MaxEnd(TwinkleNotes()) == 40.0
  {
    var ns := TwinkleNotes();
    TwinkleContiguous();
    forall i | 0 <= i < 34 ensures ns[i].startBeat < ns[i + 1].startBeat {
      ContiguousAt(i);
    }
    StartsBounded(ns);
  }

  /** Each start is at least the index (every duration is at least 1), and
      a contiguous list ends where its last note ends. */
  lemma StartsBounded(ns: seq<Note>)
    requires |ns| > 0
    requires forall i :: 0 <= i < |ns| - 1 ==> ns[i + 1].startBeat == EndBeat(ns[i])
    requires forall i :: 0 <= i < |ns| ==> ns[i].durationBeats > 0.0
    ensures MaxEnd(ns) == EndBeat(ns[|ns| - 1])
  {
    if |ns| > 1 {
      StartsBounded(ns[1..]);
      assert ns[0] == ns[0];
      assert EndBeat(ns[0]) <= ns[1].startBeat < EndBeat(ns[1..][0]);
      EndsIncrease(ns[1..], 0);
    }
  }

  lemma EndsIncrease(ns: seq<Note>, i: nat)
    requires i < |ns|
    requires forall i :: 0 <= i < |ns| - 1 ==> ns[i + 1].startBeat == EndBeat(ns[i])
    requires forall i :: 0 <= i < |ns| ==> ns[i].durationBeats > 0.0
    ensures EndBeat(ns[i]) <= EndBeat(ns[|ns| - 1])
    decreases |ns| - i
  {
    if i < |ns| - 1 {
      EndsIncrease(ns, i + 1);
    }
  }

  /* ---------------------------------------------------------------------
     Note labels (src/midi.js:101-117)
     --------------------------------------------------------------------- */

  function PitchClassNames(): seq<string>
  {
    ["C", "C#", "D", "D#", "E", "F", "F#", "G", "G#", "A", "A#", "B"]
  }

  predicate IsWhite(midi: nat)
  {
    midi % 12 in {0, 2, 4, 5, 7, 9, 11}
  }

  /** midiToNoteLabel, e.g. 60 -> "C4" and 69 -> "A4". */
  function MidiToNoteLabel(midi: nat): (s: string)
    ensures |s| >= 2
  {
    PitchClassNames()[midi % 12] + IntToString(midi / 12 - 1)
  }

  /** midiToNaturalName: the natural letter at or just below the pitch
      class, with the octave of `midi` itself. */
  function MidiToNaturalName(midi: nat): (s: string)
  {
    NaturalLetters()[midi % 12] + IntToString(midi / 12 - 1)
  }

  /** The natural letter of each pitch class, sharps folded down. */
  function NaturalLetters(): seq<string>
  {
    ["C", "C", "D", "D", "E", "F", "F", "G", "G", "A", "A", "B"]
  }

  /** The natural letter of pitch class c is the name of the white class
      at or just below it. */
  lemma NaturalLetterOf(c: nat)
    requires c < 12
    ensures IsWhite(c) ==> NaturalLetters()[c] == PitchClassNames()[c]
    ensures !IsWhite(c) ==> c >= 1 && NaturalLetters()[c] == PitchClassNames()[c - 1]
  {
    if c == 0 {} else if c == 1 {} else if c == 2 {} else if c == 3 {}
    else if c == 4 {} else if c == 5 {} else if c == 6 {} else if c == 7 {}
    else if c == 8 {} else if c == 9 {} else if c == 10 {} else {}
  }

  /** The white key a natural name stands for: the key itself, or the one a
      semitone below a black key. */
  function NaturalAtOrBelow(midi: nat): (w: nat)
    ensures IsWhite(w) && w <= midi <= w + 1 && w / 12 == midi / 12
  {
    if IsWhite(midi) then midi else midi - 1
  }

  function PitchClassOf(name: string): (r: Option<nat>)
  {
    if name == "C" then Some(0) else if name == "C#" then Some(1)
    else if name == "D" then Some(2) else if name == "D#" then Some(3)
    else if name == "E" then Some(4) else if name == "F" then Some(5)
    else if name == "F#" then Some(6) else if name == "G" then Some(7)
    else if name == "G#" then Some(8) else if name == "A" then Some(9)
    else if name == "A#" then Some(10) else if name == "B" then Some(11)
    else None
  }

  /** Reads a note tag back: a pitch-class name, then the octave. */
  function ParseNoteLabel(s: string): Option<int>
  {
    var nameLength := if |s| >= 2 && s[1] == '#' then 2 else 1;
    if |s| < nameLength then None
    else match (PitchClassOf(s[..nameLength]), ParseInt(s[nameLength..]))
      case (Some(pc), Some(octave)) => Some((octave + 1) * 12 + pc)
      case _ => None
  }

  lemma NoteLabelRoundTrip(midi: nat)
    ensures ParseNoteLabel(MidiToNoteLabel(midi)) == Some(midi)
  {
    var pc := midi % 12;
    var o := midi / 12 - 1;
    ParseIntToString(o);
    PitchClassOfName(pc);
    NameShape(pc);
    ParseLabelParts(PitchClassNames()[pc], IntToString(o), pc, o);
    assert (o + 1) * 12 + pc == midi;
  }

  /** A pitch-class name is a letter, possibly followed by '#'. */
  lemma NameShape(pc: nat)
    requires pc < 12
    ensures var n := PitchClassNames()[pc];
      (|n| == 1 && n[0] != '#') || (|n| == 2 && n[1] == '#')
  {
  }

  /** A name followed by an octave text reads back as its key. */
  lemma ParseLabelParts(name: string, octave: string, pc: nat, o: int)
    requires PitchClassOf(name) == Some(pc) && ParseInt(octave) == Some(o)
    requires (|name| == 1 && |octave| > 0 && octave[0] != '#') || (|name| == 2 && name[1] == '#')
    ensures ParseNoteLabel(name + octave) == Some((o + 1) * 12 + pc)
  {
    var s := name + octave;
    if |name| == 2 {
      assert s[1] == '#';
      assert s[..2] == name && s[2..] == octave;
    } else {
      assert s[1] == octave[0];
      assert s[..1] == name && s[1..] == octave;
    }
  }

  lemma PitchClassOfName(pc: nat)
    requires pc < 12
    ensures PitchClassOf(PitchClassNames()[pc]) == Some(pc)
  {
    if pc == 0 {} else if pc == 1 {} else if pc == 2 {} else if pc == 3 {}
    else if pc == 4 {} else if pc == 5 {} else if pc == 6 {} else if pc == 7 {}
    else if pc == 8 {} else if pc == 9 {} else if pc == 10 {} else {}
  }

  /** Distinct MIDI numbers have distinct labels. */
  lemma NoteLabelInjective(a: nat, b: nat)
    requires MidiToNoteLabel(a) == MidiToNoteLabel(b)
    ensures a == b
  {
    NoteLabelRoundTrip(a);
    NoteLabelRoundTrip(b);
  }

  lemma NoteLabelExamples()
    ensures MidiToNoteLabel(60) == "C4"
    ensures MidiToNoteLabel(69) == "A4"
  {
  }

  /** Every semitone is named after the natural key at or just below it;
      sharps map down and the octave is unchanged. */
  lemma NaturalNameIsLabelOfNatural(midi: nat)
    ensures MidiToNaturalName(midi) == MidiToNoteLabel(NaturalAtOrBelow(midi))
  {
    var c := midi % 12;
    var w := NaturalAtOrBelow(midi);
    NaturalLetterOf(c);
    if !IsWhite(midi) {
      assert w % 12 == c - 1;
    }
  }

  /** Two keys share a natural name exactly when they share the natural key
      at or below them. */
  lemma NaturalNameEquality(a: nat, b: nat)
    ensures MidiToNaturalName(a) == MidiToNaturalName(b) <==> NaturalAtOrBelow(a) == NaturalAtOrBelow(b)
  {
    NaturalNameIsLabelOfNatural(a);
    NaturalNameIsLabelOfNatural(b);
    if MidiToNaturalName(a) == MidiToNaturalName(b) {
      NoteLabelInjective(NaturalAtOrBelow(a), NaturalAtOrBelow(b));
    }
  }

  /* ---------------------------------------------------------------------
     Y-axis ticks (src/midi.js:119-147)
     --------------------------------------------------------------------- */

  /** The tag pattern `/^[A-G][0-9]+$/`. */
  predicate IsPlainNoteName(s: string)
  {
    |s| >= 2 && 'A' <= s[0] <= 'G' && AllDigits(s[1..])
  }

  lemma NaturalNameIsPlain(midi: nat)
    requires midi >= 12
    ensures IsPlainNoteName(MidiToNaturalName(midi))
  {
    var s := MidiToNaturalName(midi);
    assert s[1..] == IntToString(midi / 12 - 1);
  }

  predicate LabelsDistinct(ticks: seq<Tick>)
  {
    forall i, j :: 0 <= i < j < |ticks| ==> ticks[i].tag != ticks[j].tag
  }

  ghost predicate ValuesAscending(ticks: seq<Tick>)
  {
    forall i, j :: 0 <= i < j < |ticks| ==> ticks[i].value < ticks[j].value
  }

  function Tags(ticks: seq<Tick>): set<string>
  {
    set t | t in ticks :: t.tag
  }

  /** The `seen`-set filter of both tick builders: keep a tick only when no
      earlier tick carried its tag. */
  function FirstPerTag(ticks: seq<Tick>): seq<Tick>
  {
    if ticks == [] then []
    else
      var init := ticks[..|ticks| - 1];
      var last := ticks[|ticks| - 1];
      FirstPerTag(init) + (if last.tag in Tags(init) then [] else [last])
  }

  lemma FirstPerTagSnoc(init: seq<Tick>, t: Tick)
    ensures FirstPerTag(init + [t]) == FirstPerTag(init) + (if t.tag in Tags(init) then [] else [t])
  {
    assert (init + [t])[..|init|] == init;
  }

  lemma TagsSnoc(init: seq<Tick>, t: Tick)
    ensures Tags(init + [t]) == Tags(init) + {t.tag}
  {
    var s := init + [t];
    forall x | x in s ensures x in init || x == t {
    }
    forall x | x in init ensures x in s {
    }
  }

  /** A kept tick is the first tick of the input that carries its tag. */
  lemma {:induction false} FirstPerTagIsFirst(ticks: seq<Tick>)
    ensures forall t :: t in FirstPerTag(ticks) ==>
      exists k :: 0 <= k < |ticks| && ticks[k] == t && t.tag !in Tags(ticks[..k])
  {
    if ticks != [] {
      var init := ticks[..|ticks| - 1];
      var last := ticks[|ticks| - 1];
      FirstPerTagIsFirst(init);
      var f := FirstPerTag(init);
      forall t | t in FirstPerTag(ticks)
        ensures exists k :: 0 <= k < |ticks| && ticks[k] == t && t.tag !in Tags(ticks[..k])
      {
        if t in f {
          var k :| 0 <= k < |init| && init[k] == t && t.tag !in Tags(init[..k]);
          assert ticks[..k] == init[..k];
        } else {
          assert ticks[..|ticks| - 1] == init;
        }
      }
    }
  }

  /** Kept ticks carry every tag of the input... */
  lemma {:induction false} FirstPerTagTags(ticks: seq<Tick>)
    ensures Tags(FirstPerTag(ticks)) == Tags(ticks)
  {
    if ticks != [] {
      var init := ticks[..|ticks| - 1];
      var last := ticks[|ticks| - 1];
      assert ticks == init + [last];
      FirstPerTagTags(init);
      TagsSnoc(init, last);
      if last.tag !in Tags(init) {
        TagsSnoc(FirstPerTag(init), last);
      }
    }
  }

  /** ...each of them once... */
  lemma {:induction false} FirstPerTagDistinct(ticks: seq<Tick>)
    ensures LabelsDistinct(FirstPerTag(ticks))
  {
    if ticks != [] {
      var init := ticks[..|ticks| - 1];
      var last := ticks[|ticks| - 1];
      FirstPerTagDistinct(init);
      FirstPerTagTags(init);
      var f := FirstPerTag(init);
      if last.tag !in Tags(init) {
        forall i | 0 <= i < |f| ensures f[i].tag != last.tag {
          assert f[i].tag in Tags(f);
        }
      }
    }
  }

  /** ...and in the order of the input. */
  lemma {:induction false} FirstPerTagAscending(ticks: seq<Tick>)
    requires ValuesAscending(ticks)
    ensures ValuesAscending(FirstPerTag(ticks))
  {
    if ticks != [] {
      var init := ticks[..|ticks| - 1];
      var last := ticks[|ticks| - 1];
      assert ValuesAscending(init);
      FirstPerTagAscending(init);
      FirstPerTagIsFirst(init);
      var f := FirstPerTag(init);
      forall i | 0 <= i < |f| ensures f[i].value < last.value {
        assert f[i] in f;
        var k :| 0 <= k < |init| && init[k] == f[i] && f[i].tag !in Tags(init[..k]);
      }
    }
  }

  /** Keeping the first of each tag over an ascending list keeps, for every
      tag, its lowest value. */
  lemma FirstPerTagKeepsLowest(ticks: seq<Tick>, t: Tick, u: Tick)
    requires ValuesAscending(ticks)
    requires t in FirstPerTag(ticks) && u in ticks && u.tag == t.tag
    ensures t.value <= u.value
  {
    FirstPerTagIsFirst(ticks);
    var k :| 0 <= k < |ticks| && ticks[k] == t && t.tag !in Tags(ticks[..k]);
    var j :| 0 <= j < |ticks| && ticks[j] == u;
  }

  /** One more input tick: its tag joins the seen set, and it is kept
      exactly when its tag is new. */
  lemma PrefixStep(all: seq<Tick>, i: nat)
    requires i < |all|
    ensures Tags(all[..i + 1]) == Tags(all[..i]) + {all[i].tag}
    ensures FirstPerTag(all[..i + 1]) ==
      FirstPerTag(all[..i]) + (if all[i].tag in Tags(all[..i]) then [] else [all[i]])
  {
    assert all[..i + 1] == all[..i] + [all[i]];
    TagsSnoc(all[..i], all[i]);
    FirstPerTagSnoc(all[..i], all[i]);
  }

  /** The `seen`-set loop itself (src/midi.js:127-133, 141-146). */
  method KeepFirstPerTag(all: seq<Tick>) returns (ticks: seq<Tick>)
    ensures ticks == FirstPerTag(all)
  {
    var seen: set<string> := {};
    ticks := [];
    var i := 0;
    while i < |all|
      invariant 0 <= i <= |all|
      invariant seen == Tags(all[..i])
      invariant ticks == FirstPerTag(all[..i])
    {
      var t := all[i];
      PrefixStep(all, i);
      if t.tag !in seen {
        ticks := ticks + [t];
        seen := seen + {t.tag};
      }
      i := i + 1;
    }
    assert all[..|all|] == all;
  }

  function AxisTick(m: nat): Tick
  {
    Tick(m, MidiToNaturalName(m))
  }

  /** The candidate ticks: one per key from C2 (36) to F5 (77). */
  ghost predicate AllAxisTicks(all: seq<Tick>)
  {
    |all| == 42 && forall i :: 0 <= i < |all| ==> all[i] == AxisTick(36 + i)
  }

  /** Only white keys survive the first-per-name filter: a black key's name
      is that of the white key just below it, which comes first. */
  lemma KeptAxisTicksWhite(all: seq<Tick>)
    requires AllAxisTicks(all)
    ensures forall t :: t in FirstPerTag(all) ==>
      36 <= t.value <= 77 && IsWhite(t.value) && t.tag == MidiToNaturalName(t.value)
  {
    FirstPerTagIsFirst(all);
    forall t | t in FirstPerTag(all)
      ensures 36 <= t.value <= 77 && IsWhite(t.value) && t.tag == MidiToNaturalName(t.value)
    {
      var k :| 0 <= k < |all| && all[k] == t && t.tag !in Tags(all[..k]);
      assert t == AxisTick(36 + k);
      if !IsWhite(t.value) {
        BlackTickNameTaken(all, k);
        assert false;
      }
    }
  }

  /** The tick of a black key 36 + k carries a name an earlier tick has. */
  lemma BlackTickNameTaken(all: seq<Tick>, k: nat)
    requires AllAxisTicks(all) && k < |all| && !IsWhite(36 + k)
    ensures all[k].tag in Tags(all[..k])
  {
    assert k >= 1;
    assert all[k] == AxisTick(36 + k) && all[k - 1] == AxisTick(35 + k);
    BlackTickSharesTag(36 + k);
    TagInPrefix(all, k - 1, k);
  }

  /** A black key's tick carries the tag of the tick just below it. */
  lemma BlackTickSharesTag(m: nat)
    requires !IsWhite(m) && m >= 1
    ensures AxisTick(m).tag == AxisTick(m - 1).tag
  {
    BlackSharesNameBelow(m);
  }

  lemma TagInPrefix(ticks: seq<Tick>, j: nat, k: nat)
    requires j < k <= |ticks|
    ensures ticks[j].tag in Tags(ticks[..k])
  {
    assert ticks[..k][j] == ticks[j];
  }

  /** A black key carries the name of the white key just below it. */
  lemma BlackSharesNameBelow(m: nat)
    requires !IsWhite(m) && m >= 1
    ensures MidiToNaturalName(m) == MidiToNaturalName(m - 1)
  {
    NaturalNameEquality(m, m - 1);
  }

  /** Every white key of the range keeps its tick. */
  lemma WhiteAxisTicksKept(all: seq<Tick>)
    requires AllAxisTicks(all)
    ensures forall w: nat :: 36 <= w <= 77 && IsWhite(w) ==> AxisTick(w) in FirstPerTag(all)
  {
    FirstPerTagTags(all);
    KeptAxisTicksWhite(all);
    forall w: nat | 36 <= w <= 77 && IsWhite(w) ensures AxisTick(w) in FirstPerTag(all) {
      assert all[w - 36] == AxisTick(w);
      assert AxisTick(w).tag in Tags(all);
      var t :| t in FirstPerTag(all) && t.tag == AxisTick(w).tag;
      assert IsWhite(t.value) && t.tag == MidiToNaturalName(t.value);
      NaturalNameEquality(t.value, w);
      assert t.value == w;
    }
  }

  /** buildYAxisTicks: from C2 (36) to F5 (77), one tick per natural name,
      the first (lowest) key that carries it. The result is exactly the white
      keys of that range, ascending. */
  method BuildYAxisTicks() returns (ticks: seq<Tick>)
    ensures ValuesAscending(ticks)
    ensures forall t :: t in ticks ==> 36 <= t.value <= 77 && IsWhite(t.value)
    ensures forall t :: t in ticks ==> t.tag == MidiToNaturalName(t.value)
    ensures forall m: nat :: 36 <= m <= 77 && IsWhite(m) ==> AxisTick(m) in ticks
    ensures LabelsDistinct(ticks)
  {
    var all := AxisCandidates();
    ticks := KeepFirstPerTag(all);
    FirstPerTagDistinct(all);
    AxisCandidatesAscending(all);
    FirstPerTagAscending(all);
    KeptAxisTicksWhite(all);
    WhiteAxisTicksKept(all);
  }

  /** The first loop of buildYAxisTicks: every key whose name passes the
      plain-name pattern, which all of them do. */
  method AxisCandidates() returns (all: seq<Tick>)
    ensures AllAxisTicks(all)
  {
    all := [];
    var m := 36;
    while m <= 77
      invariant 36 <= m <= 78
      invariant |all| == m - 36
      invariant forall i :: 0 <= i < |all| ==> all[i] == AxisTick(36 + i)
    {
      var tag := MidiToNaturalName(m);
      NaturalNameIsPlain(m);
      if IsPlainNoteName(tag) {
        all := all + [Tick(m, tag)];
      }
      m := m + 1;
    }
  }

  lemma AxisCandidatesAscending(all: seq<Tick>)
    requires AllAxisTicks(all)
    ensures ValuesAscending(all)
  {
    forall i, j | 0 <= i < j < |all| ensures all[i].value < all[j].value {
      assert all[i] == AxisTick(36 + i) && all[j] == AxisTick(36 + j);
    }
  }

  /** `reference.notes.map(n => n.midi)`. */
  function Pitches(notes: seq<Note>): (r: seq<nat>)
    ensures |r| == |notes|
    ensures forall i :: 0 <= i < |notes| ==> r[i] == notes[i].midi
  {
    if notes == [] then [] else [notes[0].midi] + Pitches(notes[1..])
  }

  /** `mids.map(m => ({ value: m, label: midiToNaturalName(m) }))`. */
  function AxisTicks(mids: seq<nat>): (r: seq<Tick>)
    ensures |r| == |mids|
    ensures forall i :: 0 <= i < |mids| ==> r[i] == AxisTick(mids[i])
  {
    if mids == [] then [] else [AxisTick(mids[0])] + AxisTicks(mids[1..])
  }

  lemma AxisTicksAscending(mids: seq<nat>)
    requires Sorting.StrictlyAscending(mids)
    ensures ValuesAscending(AxisTicks(mids))
  {
  }

  /** Every kept tick is labelled by its own pitch, and that pitch is one of
      `mids`. */
  lemma KeptAxisTicksFromMids(mids: seq<nat>)
    ensures forall t :: t in FirstPerTag(AxisTicks(mids)) ==>
      t.tag == MidiToNaturalName(t.value) && t.value in mids
  {
    var all := AxisTicks(mids);
    FirstPerTagIsFirst(all);
    forall t | t in FirstPerTag(all) ensures t.tag == MidiToNaturalName(t.value) && t.value in mids {
      var k :| 0 <= k < |all| && all[k] == t && t.tag !in Tags(all[..k]);
    }
  }

  /** Every pitch of `mids` has its natural name among the kept ticks, on a
      tick whose pitch is no higher. */
  lemma KeptAxisTicksCoverMids(mids: seq<nat>, v: nat)
    requires Sorting.StrictlyAscending(mids)
    requires v in mids
    ensures exists t :: t in FirstPerTag(AxisTicks(mids)) && t.tag == MidiToNaturalName(v)
    ensures forall t :: t in FirstPerTag(AxisTicks(mids)) && t.tag == MidiToNaturalName(v) ==> t.value <= v
  {
    var all := AxisTicks(mids);
    var k :| 0 <= k < |mids| && mids[k] == v;
    assert all[k] == AxisTick(v);
    FirstPerTagTags(all);
    assert AxisTick(v).tag in Tags(all);
    AxisTicksAscending(mids);
    forall t | t in FirstPerTag(all) && t.tag == MidiToNaturalName(v) ensures t.value <= v {
      FirstPerTagKeepsLowest(all, t, AxisTick(v));
    }
  }

  /** buildYAxisTicksFromReference: the distinct pitches of the notes,
      ascending, keeping for each natural name only its lowest pitch. */
  method BuildYAxisTicksFromReference(notes: seq<Note>) returns (ticks: seq<Tick>)
    ensures ValuesAscending(ticks)
    ensures forall t :: t in ticks ==> t.tag == MidiToNaturalName(t.value)
    ensures forall t :: t in ticks ==> exists n :: n in notes && n.midi == t.value
    ensures LabelsDistinct(ticks)
    ensures forall n :: n in notes ==> exists t :: t in ticks && t.tag == MidiToNaturalName(n.midi)
    ensures forall n, t :: n in notes && t in ticks && t.tag == MidiToNaturalName(n.midi) ==> t.value <= n.midi
  {
    var pitches := Pitches(notes);
    var mids := Sorting.SortedDistinct(pitches);
    var all := AxisTicks(mids);
    ticks := KeepFirstPerTag(all);
    FirstPerTagDistinct(all);
    AxisTicksAscending(mids);
    FirstPerTagAscending(all);
    KeptAxisTicksFromMids(mids);
    forall t | t in ticks ensures exists n :: n in notes && n.midi == t.value {
      var j :| 0 <= j < |pitches| && pitches[j] == t.value;
      assert notes[j] in notes;
    }
    forall n | n in notes
      ensures exists t :: t in ticks && t.tag == MidiToNaturalName(n.midi)
      ensures forall t :: t in ticks && t.tag == MidiToNaturalName(n.midi) ==> t.value <= n.midi
    {
      var j :| 0 <= j < |notes| && notes[j] == n;
      assert pitches[j] == n.midi;
      KeptAxisTicksCoverMids(mids, n.midi);
    }
  }
}
