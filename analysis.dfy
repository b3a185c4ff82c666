/** analyzeAgainstReference (src/analysis.js:7-122): the user's pitch track
    sampled on the reference's beat grid, corrected by the four passes of
    PitchPasses, compared with the reference point by point, and scored. */
module Analysis {
  import opened Wrappers
  import opened PitchMath
  import opened PitchTracks
  import opened PitchPasses
  import opened Onsets
  import MidiRef

  /** ±50 cents: a pitch within half a semitone of the reference is right. */
  const PitchTolerance: real := 0.5

  /** What the source takes for granted of its inputs: a positive tempo, a
      positive grid step (else the grid loop would not end) and a positive
      frame period. */
  predicate AnalysisInputs(reference: MidiRef.Reference, track: PitchTrack)
  {
    reference.song.tempoBpm > 0.0 && reference.beatStep > 0.0 && PositivePeriod(track)
  }

  function SecondsPerBeat(reference: MidiRef.Reference): (spb: real)
    requires reference.song.tempoBpm > 0.0
    ensures spb > 0.0
  {
    60.0 / reference.song.tempoBpm
  }

  /** The grid runs up to one step past the reference's end. */
  function MaxBeat(reference: MidiRef.Reference): real
  {
    reference.totalBeats + reference.beatStep
  }

  /** A grid point is marked wrong when both pitches are present and they
      differ by more than the tolerance. */
  predicate Wrong(r: Option<real>, u: Option<real>)
  {
    r.Some? && u.Some? && Abs(u.value - r.value) > PitchTolerance
  }

  /* ---------------------------------------------------------------------
     Grid sampling (src/analysis.js:28-42)
     --------------------------------------------------------------------- */

  /** `refByBeat.find(p => Math.abs(p.beat - b) < half)`, as the index of
      the first sample that close to b. */
  function FirstNear(samples: seq<MidiRef.Sample>, b: real, half: real): (r: Option<nat>)
    ensures r.Some? ==> r.value < |samples| && Abs(samples[r.value].beat - b) < half
    ensures r.Some? ==> forall j :: 0 <= j < r.value ==> Abs(samples[j].beat - b) >= half
    ensures r.None? <==> forall j :: 0 <= j < |samples| ==> Abs(samples[j].beat - b) >= half
  {
    if |samples| == 0 then None
    else if Abs(samples[0].beat - b) < half then Some(0)
    else match FirstNear(samples[1..], b, half)
      case None => None
      case Some(i) => Some(i + 1)
  }

  /** The reference pitch at grid beat b: that of the first sample within
      half a step, null when there is none or when it is a rest. */
  function RefMidiAt(samples: seq<MidiRef.Sample>, b: real, half: real): Option<real>
  {
    match FirstNear(samples, b, half)
    case None => None
    case Some(j) =>
      match samples[j].midi
      case None => None
      case Some(m) => Some(m as real)
  }

  /** The frame nearest to beat b: Math.round(b * secondsPerBeat / hopSeconds). */
  function FrameAt(track: PitchTrack, spb: real, b: real): int
    requires PositivePeriod(track)
  {
    JsRound(b * spb / HopSeconds(track))
  }

  /** The user's pitch at grid beat b: freqToMidi of the nearest frame's f0,
      null outside the track, for an unvoiced frame, or for a pitch <= 0. */
  function UserMidiAt(track: PitchTrack, spb: real, b: real): (u: Option<real>)
    requires PositivePeriod(track)
    ensures u.Some? ==> u.value > 0.0
    ensures u.Some? <==>
      var idx := FrameAt(track, spb, b);
      0 <= idx < |track.f0| && FreqToMidi(track.f0[idx]).Some? && FreqToMidi(track.f0[idx]).value > 0.0
    ensures u.Some? ==> u == FreqToMidi(track.f0[FrameAt(track, spb, b)])
  {
    var idx := FrameAt(track, spb, b);
    var m := if 0 <= idx < |track.f0| then FreqToMidi(track.f0[idx]) else None;
    if m.Some? && m.value <= 0.0 then None else m
  }

  /** The grid beats are 0, step, 2 step, ... as far as max, and no further. */
  ghost predicate OnGrid(beats: seq<real>, step: real, max: real)
  {
    && (forall k :: 0 <= k < |beats| ==> beats[k] == k as real * step && beats[k] <= max)
    && |beats| as real * step > max
  }

  /** The user-pitch curve read at the given beats. */
  function UserAtBeats(track: PitchTrack, spb: real, beats: seq<real>): (u: Pitches)
    requires PositivePeriod(track)
    ensures |u| == |beats|
  {
    seq(|beats|, k requires 0 <= k < |beats| => UserMidiAt(track, spb, beats[k]))
  }

  /** The reference curve read at the given beats. */
  function RefAtBeats(samples: seq<MidiRef.Sample>, beats: seq<real>, half: real): (r: Pitches)
    ensures |r| == |beats|
  {
    seq(|beats|, k requires 0 <= k < |beats| => RefMidiAt(samples, beats[k], half))
  }

  /** Reading one more beat appends its reference pitch. */
  lemma RefAtBeatsSnoc(samples: seq<MidiRef.Sample>, beats: seq<real>, half: real, b: real)
    ensures RefAtBeats(samples, beats + [b], half) ==
      RefAtBeats(samples, beats, half) + [RefMidiAt(samples, b, half)]
  {
    var l := RefAtBeats(samples, beats + [b], half);
    var r := RefAtBeats(samples, beats, half) + [RefMidiAt(samples, b, half)];
    forall k | 0 <= k < |l| ensures l[k] == r[k] {
      assert (beats + [b])[k] == if k < |beats| then beats[k] else b;
    }
  }

  /** Reading one more beat appends its user pitch. */
  lemma UserAtBeatsSnoc(track: PitchTrack, spb: real, beats: seq<real>, b: real)
    requires PositivePeriod(track)
    ensures UserAtBeats(track, spb, beats + [b]) ==
      UserAtBeats(track, spb, beats) + [UserMidiAt(track, spb, b)]
  {
    var l := UserAtBeats(track, spb, beats + [b]);
    var r := UserAtBeats(track, spb, beats) + [UserMidiAt(track, spb, b)];
    forall k | 0 <= k < |l| ensures l[k] == r[k] {
      assert (beats + [b])[k] == if k < |beats| then beats[k] else b;
    }
  }

  /** The grid loop: four arrays pushed in step, one entry per grid beat
      b = k * step while b <= maxBeat. */
  method SampleGrid(samples: seq<MidiRef.Sample>, step: real, maxBeat: real, track: PitchTrack, spb: real)
    returns (beats: seq<real>, refMidi: Pitches, userMidi: Pitches, mask: seq<bool>)
    requires step > 0.0 && PositivePeriod(track)
    ensures |beats| == |refMidi| == |userMidi| == |mask|
    ensures OnGrid(beats, step, maxBeat)
    ensures refMidi == RefAtBeats(samples, beats, step / 2.0)
    ensures userMidi == UserAtBeats(track, spb, beats)
    ensures forall k :: 0 <= k < |beats| ==> mask[k] == Wrong(refMidi[k], userMidi[k])
  {
    beats, refMidi, userMidi, mask := [], [], [], [];
    var k := 0;
    while k as real * step <= maxBeat
      invariant k >= 0 && |beats| == k && |refMidi| == k && |userMidi| == k && |mask| == k
      invariant forall j :: 0 <= j < k ==> beats[j] == j as real * step && beats[j] <= maxBeat
      invariant refMidi == RefAtBeats(samples, beats, step / 2.0)
      invariant userMidi == UserAtBeats(track, spb, beats)
      invariant forall j :: 0 <= j < k ==> mask[j] == Wrong(refMidi[j], userMidi[j])
      decreases (maxBeat / step).Floor + 1 - k
    {
      GridIndexBound(k, step, maxBeat);
      var b := k as real * step;
      RefAtBeatsSnoc(samples, beats, step / 2.0, b);
      UserAtBeatsSnoc(track, spb, beats, b);
      beats := beats + [b];
      var rMidi := RefMidiAt(samples, b, step / 2.0);
      refMidi := refMidi + [rMidi];
      var uMidi := UserMidiAt(track, spb, b);
      userMidi := userMidi + [uMidi];
      mask := mask + [Wrong(rMidi, uMidi)];
      k := k + 1;
    }
  }

  /** On a reference built by normalizeReference, the grid reads the
      sample at the same index: the pitch of the note sounding there. */
  lemma RefMidiOnNormalizedGrid(song: MidiRef.Song, reference: MidiRef.Reference, k: nat)
    requires |song.notes| > 0 && MidiRef.IsNormalization(song, reference)
    requires k < |reference.samples|
    ensures RefMidiAt(reference.samples, k as real * 0.05, 0.025) ==
      match MidiRef.ActiveMidi(song.notes, k as real * 0.05)
      case None => None
      case Some(m) => Some(m as real)
  {
    var samples := reference.samples;
    MidiRef.NormalizedSample(song, reference, k);
    MidiRef.NormalizedBeats(song, reference);
    RefMidiOnGrid(samples, k);
  }

  /** On samples spaced one step apart from beat 0, the grid read at the
      k-th grid beat is the pitch of sample k. */
  lemma RefMidiOnGrid(samples: seq<MidiRef.Sample>, k: nat)
    requires k < |samples|
    requires forall j :: 0 <= j < |samples| ==> samples[j].beat == j as real * 0.05
    ensures RefMidiAt(samples, k as real * 0.05, 0.025) ==
      match samples[k].midi
      case None => None
      case Some(m) => Some(m as real)
  {
    GridReadsOwnSample(samples, k);
  }

  /** On samples spaced one step apart from beat 0, FirstNear at the k-th
      grid beat finds sample k. */
  lemma GridReadsOwnSample(samples: seq<MidiRef.Sample>, k: nat)
    requires k < |samples|
    requires forall j :: 0 <= j < |samples| ==> samples[j].beat == j as real * 0.05
    ensures FirstNear(samples, k as real * 0.05, 0.025) == Some(k)
  {
    var b := k as real * 0.05;
    forall j | 0 <= j < k ensures Abs(samples[j].beat - b) >= 0.025 {
      GridPointsApart(j, k);
    }
    FirstNearIs(samples, b, 0.025, k);
  }

  /** Two distinct grid points lie a whole step apart. */
  lemma GridPointsApart(j: nat, k: nat)
    requires j < k
    ensures Abs(j as real * 0.05 - k as real * 0.05) >= 0.025
  {
    assert (k - j) as real >= 1.0;
    assert k as real * 0.05 - j as real * 0.05 == (k - j) as real * 0.05;
  }

  /** The sample FirstNear picks is the one near b with none before it. */
  lemma FirstNearIs(samples: seq<MidiRef.Sample>, b: real, half: real, k: nat)
    requires k < |samples| && Abs(samples[k].beat - b) < half
    requires forall j :: 0 <= j < k ==> Abs(samples[j].beat - b) >= half
    ensures FirstNear(samples, b, half) == Some(k)
  {
  }

  /* ---------------------------------------------------------------------
     Mask recompute and scores (src/analysis.js:101-119)
     --------------------------------------------------------------------- */

  /** The recompute loop: the mask is overwritten from the corrected curve. */
  method RecomputeMask(mask: array<bool>, refMidi: Pitches, userMidi: Pitches)
    requires mask.Length == |refMidi| == |userMidi|
    modifies mask
    ensures forall k :: 0 <= k < mask.Length ==> mask[k] == Wrong(refMidi[k], userMidi[k])
  {
    var i := 0;
    while i < mask.Length
      invariant 0 <= i <= mask.Length
      invariant forall k :: 0 <= k < i ==> mask[k] == Wrong(refMidi[k], userMidi[k])
    {
      mask[i] := refMidi[i].Some? && userMidi[i].Some? && Abs(userMidi[i].value - refMidi[i].value) > PitchTolerance;
      i := i + 1;
    }
  }

  /** Grid points before n where both pitches are present. */
  function Comparable(ref: Pitches, user: Pitches, n: nat): (c: nat)
    requires n <= |ref| && n <= |user|
    ensures c <= n
  {
    if n == 0 then 0
    else Comparable(ref, user, n - 1) + (if ref[n - 1].Some? && user[n - 1].Some? then 1 else 0)
  }

  /** Comparable points before n within the tolerance. */
  function Correct(ref: Pitches, user: Pitches, n: nat): nat
    requires n <= |ref| && n <= |user|
  {
    if n == 0 then 0
    else
      var within := ref[n - 1].Some? && user[n - 1].Some? &&
        Abs(user[n - 1].value - ref[n - 1].value) <= PitchTolerance;
      Correct(ref, user, n - 1) + (if within then 1 else 0)
  }

  /** Points before n the mask marks wrong. */
  function Marked(ref: Pitches, user: Pitches, n: nat): nat
    requires n <= |ref| && n <= |user|
  {
    if n == 0 then 0
    else Marked(ref, user, n - 1) + (if Wrong(ref[n - 1], user[n - 1]) then 1 else 0)
  }

  /** Every comparable point is either correct or marked in the mask, never
      both: the score and the mask agree. */
  lemma {:induction false} CorrectPlusMarked(ref: Pitches, user: Pitches, n: nat)
    requires n <= |ref| && n <= |user|
    ensures Correct(ref, user, n) + Marked(ref, user, n) == Comparable(ref, user, n)
  {
    if n > 0 {
      CorrectPlusMarked(ref, user, n - 1);
    }
  }

  /** pitchScore: the rounded percentage of comparable points within the
      tolerance, 0 when nothing is comparable. */
  function PitchScore(ref: Pitches, user: Pitches): (s: int)
    requires |ref| == |user|
    ensures 0 <= s <= 100
    ensures Comparable(ref, user, |ref|) == 0 ==> s == 0
    ensures Comparable(ref, user, |ref|) > 0 && Marked(ref, user, |ref|) == 0 ==> s == 100
    ensures Correct(ref, user, |ref|) == 0 ==> s == 0
  {
    var n := |ref|;
    CorrectPlusMarked(ref, user, n);
    var comparable := Comparable(ref, user, n);
    if comparable == 0 then 0 else Percent(Correct(ref, user, n), comparable)
  }

  /** Math.round(0.6 p + 0.4 r): a weighted mean, so it lies between the two
      scores. */
  function TotalScore(p: int, r: int): (t: int)
    requires 0 <= p <= 100 && 0 <= r <= 100
    ensures 0 <= t <= 100
    ensures (if p < r then p else r) <= t <= (if p < r then r else p)
  {
    JsRound(p as real * 0.6 + r as real * 0.4)
  }

  /** The verdict tier, 3 the best: >= 90, >= 75, >= 60, otherwise 0. */
  function VerdictTier(total: int): (t: nat)
    ensures t <= 3
    ensures t == 3 <==> total >= 90
    ensures t == 2 <==> 75 <= total < 90
    ensures t == 1 <==> 60 <= total < 75
    ensures t == 0 <==> total < 60
  {
    if total >= 90 then 3 else if total >= 75 then 2 else if total >= 60 then 1 else 0
  }

  const VerdictTexts: seq<string> := ["더 연습해요", "괜찮아요", "좋아요", "참 잘했어요"]

  function Verdict(total: int): string
  {
    VerdictTexts[VerdictTier(total)]
  }

  /** A higher total never earns a lower verdict. */
  lemma VerdictMonotone(a: int, b: int)
    requires a <= b
    ensures VerdictTier(a) <= VerdictTier(b)
  {
  }

  /* ---------------------------------------------------------------------
     The whole analysis
     --------------------------------------------------------------------- */

  /** `userMidiSeries`: every frame's beat and pitch; a frame without an
      f0 value reads as null. */
  function UserSeries(track: PitchTrack, spb: real): (s: seq<SeriesPoint>)
    requires spb > 0.0
    ensures |s| == |track.times|
  {
    seq(|track.times|, i requires 0 <= i < |track.times| =>
      SeriesPoint(track.times[i] / spb, if i < |track.f0| then FreqToMidi(track.f0[i]) else None))
  }

  function NoteStarts(notes: seq<MidiRef.Note>): (s: seq<real>)
    ensures |s| == |notes|
    ensures forall i :: 0 <= i < |notes| ==> s[i] == notes[i].startBeat
  {
    if notes == [] then [] else [notes[0].startBeat] + NoteStarts(notes[1..])
  }

  datatype AnalysisResult = AnalysisResult(
    beats: seq<real>,
    refMidi: Pitches,
    userMidi: Pitches,
    incorrectMask: seq<bool>,
    pitchScore: int,
    rhythmScore: int,
    totalScore: int,
    verdict: string)

  /** The four passes run on one array, in the source's order; every
      present pitch of the result lies in [36, 77]. */
  method CorrectCurve(raw: Pitches, refMidi: Pitches) returns (userMidi: Pitches)
    requires |refMidi| == |raw|
    ensures userMidi == Corrected(raw, refMidi)
    ensures PresentWithin(userMidi, 36.0, 77.0)
  {
    var u := new Option<real>[|raw|](i requires 0 <= i < |raw| => raw[i]);
    assert u[..] == raw;
    MedianPassInPlace(u);
    OctavePassInPlace(u, refMidi);
    ghost var shifted := u[..];
    assert shifted == OctavePass(MedianPass(raw), refMidi);
    DespikePassInPlace(u);
    assert u[..] == Despike(shifted);
    EmaPassInPlace(u);
    userMidi := u[..];
    CorrectedWithin(raw, refMidi);
  }

  /** The curve half of analyzeAgainstReference: the grid read of both
      pitches, the corrected user curve and the recomputed mask. */
  method GridCurves(reference: MidiRef.Reference, track: PitchTrack)
    returns (beats: seq<real>, refMidi: Pitches, userMidi: Pitches, mask: seq<bool>)
    requires AnalysisInputs(reference, track)
    ensures |beats| == |refMidi| == |userMidi| == |mask|
    ensures OnGrid(beats, reference.beatStep, MaxBeat(reference))
    ensures refMidi == RefAtBeats(reference.samples, beats, reference.beatStep / 2.0)
    ensures userMidi == Corrected(UserAtBeats(track, SecondsPerBeat(reference), beats), refMidi)
    ensures PresentWithin(userMidi, 36.0, 77.0)
    ensures forall k :: 0 <= k < |beats| ==> mask[k] == Wrong(refMidi[k], userMidi[k])
  {
    var spb := SecondsPerBeat(reference);
    var raw, mask0;
    beats, refMidi, raw, mask0 :=
      SampleGrid(reference.samples, reference.beatStep, MaxBeat(reference), track, spb);
    userMidi := CorrectCurve(raw, refMidi);
    mask := MaskOf(refMidi, userMidi);
  }

  /** The mask array, recomputed from the corrected curve. */
  method MaskOf(refMidi: Pitches, userMidi: Pitches) returns (mask: seq<bool>)
    requires |refMidi| == |userMidi|
    ensures |mask| == |refMidi|
    ensures forall k :: 0 <= k < |mask| ==> mask[k] == Wrong(refMidi[k], userMidi[k])
  {
    var m := new bool[|refMidi|];
    RecomputeMask(m, refMidi, userMidi);
    mask := m[..];
  }

  method AnalyzeAgainstReference(reference: MidiRef.Reference, track: PitchTrack)
    returns (res: AnalysisResult)
    requires AnalysisInputs(reference, track)
    ensures |res.beats| == |res.refMidi| == |res.userMidi| == |res.incorrectMask|
    ensures OnGrid(res.beats, reference.beatStep, MaxBeat(reference))
    ensures res.refMidi == RefAtBeats(reference.samples, res.beats, reference.beatStep / 2.0)
    ensures res.userMidi ==
      Corrected(UserAtBeats(track, SecondsPerBeat(reference), res.beats), res.refMidi)
    ensures PresentWithin(res.userMidi, 36.0, 77.0)
    ensures forall k :: 0 <= k < |res.beats| ==>
      res.incorrectMask[k] == Wrong(res.refMidi[k], res.userMidi[k])
    ensures res.pitchScore == PitchScore(res.refMidi, res.userMidi)
    ensures res.rhythmScore ==
      RhythmScore(NoteStarts(reference.song.notes),
                  Dedup(RawOnsets(UserSeries(track, SecondsPerBeat(reference)))))
    ensures 0 <= res.pitchScore <= 100 && 0 <= res.rhythmScore <= 100
    ensures res.totalScore == TotalScore(res.pitchScore, res.rhythmScore)
    ensures res.verdict == Verdict(res.totalScore)
  {
    var beats, refMidi, userMidi, mask := GridCurves(reference, track);
    var pitchScore := PitchScore(refMidi, userMidi);
    var series := UserSeries(track, SecondsPerBeat(reference));
    var refOnsets := NoteStarts(reference.song.notes);
    var userOnsets := DetectUserOnsets(series);
    var rhythmScore := ComputeRhythmScore(refOnsets, userOnsets);
    var totalScore := TotalScore(pitchScore, rhythmScore);
    res := AnalysisResult(beats, refMidi, userMidi, mask, pitchScore, rhythmScore,
                          totalScore, Verdict(totalScore));
  }
}
