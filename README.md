# Singing practice: a verified model of the analysis core

The repository is a browser app for singing practice. The user sings along
with a reference melody. The app tracks the pitch of the recording, lines
it up with the melody and scores it. This project models that pipeline in
Dafny and proves what each step promises.

- **Reference melodies** (`midi_ref.dfy`, module `MidiRef`). This covers
  the built-in song table and the song lookup. It also covers the resampling
  of a note list onto a grid of 0.05 beat, the note-name labels and the two
  Y-axis tick builders.
- **Audio front end** (`audio.dfy`, `pitch_track.dfy`). This is the channel
  downmix, peak normalisation to 0.9, and the framing of the processed
  samples into 4096-sample frames every 256 samples. Detected frequencies
  are gated to the singing range.
- **Scoring against the reference** (`analysis.dfy`, `pitch_passes.dfy`,
  `onsets.dfy`, `comparisons.dfy`). The user's pitch is sampled on the beat
  grid. It then goes through four in-place correction passes: a median,
  octave correction, clamp and despike, and an exponential moving average.
  From the result come the pitch, rhythm and total scores and the verdict.
  Onsets are extracted and matched greedily. The per-note bars and issues
  are built here too.
- **The older single-page pipeline** (`script_*.dfy`, `wav.dfy`). This has
  the white-key axis and key snapping, and the manual offset buttons. It has
  the autocorrelation pitch tracker, the energy-threshold onset, the
  binary-event cross-correlation alignment, the nearest-event metrics and
  the coaching tips. It also has the byte-exact 44-byte RIFF/WAVE writer.
- **The result view** (`viz.dfy`). This is the 16-beat page and its
  prev/next buttons, and the clipping of bars to the page. It also builds
  the issue crosses and error-label parts, the bar-and-beat lyric labels and
  their parse-back, and the A/B playback seek target.

Shared pieces:

- `wrappers.dfy` holds `Option` for JavaScript `null` and `Result` for a
  thrown error.
- `pitch_math.dfy` holds the Hz/MIDI conversions, Math.round as
  floor(x + 1/2), and the base-two logarithm.
- `sorting.dfy` holds the numeric sort and the median pick.
- `text.dfy` holds integers as decimal text and their `parseInt` reading.

The form follows the source:

- Arrays rewritten in place become Dafny arrays.
- Mutable state becomes a class. These are the page start of the result
  view and the manual offset.
- Push loops and scans become methods with loop invariants. Each is proved
  against a specification function.
- Pure lookups stay functions.

Pitch and time values are `real`. A nullable pitch is `Option<real>`. The
module globals `detectedOffset`, `manualOffset` and
`globalNoteView.offsetBeats` are explicit parameters.

## Model

| member | source | states |
|---|---|---|
| PitchMath.JsRound | src/analysis.js:111 | Math.round gives the integer within half a unit, halves going up |
| PitchMath.Percent | src/analysis.js:111 | a rounded percentage of a ratio between 0 and 1 lies in 0..100, is 100 for the whole and 0 for nothing |
| PitchMath.GridIndexBound | src/midi.js:94 | a grid point k * step that is still within the loop bound has k at most floor(max / step) |
| PitchMath.FreqToMidi | src/analysis.js:2-5 | no pitch exactly for a missing or non-positive frequency |
| PitchMath.FreqToMidiOfA4 | src/analysis.js:4 | 440 Hz is MIDI 69 |
| PitchMath.MidiToFreq | src/viz.js:431-433 | every MIDI number has a positive frequency |
| PitchMath.MidiToFreqOfA4 | src/viz.js:432 | MIDI 69 is 440 Hz |
| PitchMath.MidiFreqRoundTrip | src/analysis.js:2-5 | freqToMidi inverts midiToFreq for every MIDI number |
| PitchMath.FreqToMidiOctave | src/analysis.js:4 | doubling a frequency raises its MIDI number by exactly 12 |
| PitchMath.FreqToMidiMonotone | src/analysis.js:4 | a higher frequency has a higher MIDI number |
| PitchMath.Log2OfPow2 | src/analysis.js:4 | the logarithm inverts the power of two exactly |
| PitchMath.Log2StrictlyIncreasing | src/analysis.js:4 | the logarithm is strictly increasing |
| Sorting.SortSpec | src/analysis.js:53 | the numeric sort returns an ascending permutation of its input |
| Sorting.InsertSpec | src/analysis.js:53 | one insertion keeps an ascending list ascending and adds exactly the new value |
| Sorting.Median | src/analysis.js:53-54 | the middle element of the sorted values is one of the values |
| Sorting.MedianSplits | src/analysis.js:53-54 | the sorted values before the middle are no larger than the median and those after it no smaller |
| Sorting.MedianBetween | src/analysis.js:53-54 | the median lies within any bounds that hold every value |
| Sorting.SortedDistinct | src/midi.js:138 | `Array.from(new Set(xs)).sort` is strictly ascending and holds exactly the members of xs |
| Text.NatToString | src/midi.js:105 | a non-negative integer prints as decimal digits with no leading zero |
| Text.IntToString | src/midi.js:105 | an integer prints as digits, with a leading minus exactly when it is negative |
| Text.ParseIntToString | src/midi.js:105 | printing an integer and reading it back gives the integer |
| Text.IntToStringInjective | src/midi.js:105 | distinct integers print differently |
| MidiRef.MaxEnd | src/midi.js:92 | totalBeats is the largest note end: no note ends after it and some note ends exactly at it |
| MidiRef.FirstCovering | src/midi.js:95 | the `find` returns the first note whose half-open interval holds the beat, and nothing exactly when no note holds it |
| MidiRef.NormalizeReference | src/midi.js:89-99 | the result keeps the song, has beatStep 0.05 and totalBeats the largest note end, and its samples are the grid beats k * 0.05 up to totalBeats, each with the pitch of the first note sounding there or none |
| MidiRef.NormalizedSample | src/midi.js:94-96 | sample k of a normalisation sits at beat k * 0.05 and carries the pitch sounding there |
| MidiRef.GridIsNormalization | src/midi.js:94-98 | a grid that runs past totalBeats, one sample per step, is exactly the normalised reference |
| MidiRef.LoadReference | src/midi.js:82-87 | a known id yields the normalised built-in song; any other id fails with "Unknown song id" |
| MidiRef.TwinkleContiguous | src/midi.js:24-74 | the built-in melody has 35 notes and 35 lyrics, starts at beat 0, and each note starts where the previous one ends |
| MidiRef.TwinkleSpansFortyBeats | src/midi.js:11-74 | note starts strictly increase and the song spans 40 beats, the ten 4/4 measures its comment announces |
| MidiRef.StartsBounded | src/midi.js:92 | for notes laid end to end, the largest end is the end of the last note |
| MidiRef.MidiToNoteLabel | src/midi.js:101-106 | a label is a pitch-class name followed by the octave, at least two characters |
| MidiRef.NoteLabelRoundTrip | src/midi.js:101-106 | a label reads back as the MIDI number it came from |
| MidiRef.NoteLabelInjective | src/midi.js:101-106 | distinct MIDI numbers get distinct labels |
| MidiRef.NoteLabelExamples | src/midi.js:101-106 | 60 is "C4" and 69 is "A4" |
| MidiRef.NaturalAtOrBelow | src/midi.js:110-115 | the natural key for a pitch is white, in the same octave, and equal to the pitch or one semitone below |
| MidiRef.NaturalNameIsLabelOfNatural | src/midi.js:108-117 | the natural name of a pitch is the note label of the white key at or just below it |
| MidiRef.NaturalNameEquality | src/midi.js:108-117 | two pitches share a natural name exactly when they share that white key |
| MidiRef.NaturalNameIsPlain | src/midi.js:124 | from C0 (12) up, every natural name matches `/^[A-G][0-9]+$/` |
| MidiRef.BlackSharesNameBelow | src/midi.js:112-126 | a black key takes the natural name of the key just below it |
| MidiRef.FirstPerTagIsFirst | src/midi.js:127-133 | every kept tick is a tick of the input whose tag no earlier tick has |
| MidiRef.FirstPerTagTags | src/midi.js:127-133 | the kept ticks carry every tag of the input |
| MidiRef.FirstPerTagDistinct | src/midi.js:127-133 | no tag is kept twice |
| MidiRef.FirstPerTagAscending | src/midi.js:127-133 | the filter keeps ascending ticks ascending |
| MidiRef.FirstPerTagKeepsLowest | src/midi.js:127-133 | over ascending ticks, the kept tick of each tag has the lowest value carrying that tag |
| MidiRef.KeepFirstPerTag | src/midi.js:127-133 | the `seen`-set loop returns exactly the first tick of each tag, in input order |
| MidiRef.AxisCandidates | src/midi.js:121-125 | the candidates are the keys 36 to 77 in order, each with its natural name |
| MidiRef.KeptAxisTicksWhite | src/midi.js:119-134 | only white keys in 36-77 survive the filter, each with its own name |
| MidiRef.WhiteAxisTicksKept | src/midi.js:119-134 | every white key from C2 to F5 keeps its tick |
| MidiRef.BuildYAxisTicks | src/midi.js:119-134 | the ticks are ascending, distinct in label, exactly the white keys from C2 (36) to F5 (77), each labelled by its natural name |
| MidiRef.Pitches | src/midi.js:138 | the note pitches, position by position |
| MidiRef.AxisTicks | src/midi.js:139 | one tick per pitch, labelled by its natural name |
| MidiRef.KeptAxisTicksFromMids | src/midi.js:139-146 | every kept tick is labelled by its own pitch, which is one of the input pitches |
| MidiRef.KeptAxisTicksCoverMids | src/midi.js:138-146 | every input pitch has its name among the kept ticks, on a tick no higher than itself |
| MidiRef.BuildYAxisTicksFromReference | src/midi.js:137-147 | the ticks are ascending and distinct in label; each comes from a note pitch and is named after it; every note's natural name appears, on the lowest pitch with that name |
| PitchPasses.Neighbour | src/analysis.js:82-83 | an index outside the array reads as undefined, treated as null |
| PitchPasses.PresentValues | src/analysis.js:47-51 | the window's values are exactly the non-null entries at indices inside both the window and the array |
| PitchPasses.MedianAt | src/analysis.js:45-55 | none exactly when the window of half-width floor(w/2) holds no value; otherwise one of the window's values |
| PitchPasses.WindowMedian | src/analysis.js:45-55 | the collect, sort and pick loop computes that median from the array |
| PitchPasses.MedianPassUpToFrame | src/analysis.js:56-58 | iteration n writes only index n, so later entries still hold their input values |
| PitchPasses.MedianPassEntry | src/analysis.js:56-58 | the pass keeps nulls and non-nulls where they are; each non-null entry becomes the 9-wide median of the array as the loop has left it, one of that window's values |
| PitchPasses.MedianPassSameNulls | src/analysis.js:56-58 | the smoothed curve is null at exactly the input's null places |
| PitchPasses.MedianPassWithin | src/analysis.js:56-58 | median smoothing never leaves a range that holds every input value |
| PitchPasses.MedianPassInPlace | src/analysis.js:56-61 | the in-place loop leaves the array equal to the median pass of its old contents |
| PitchPasses.MedianStepInPlace | src/analysis.js:57-58 | one turn: a null entry stays, a non-null one becomes the median of the current array |
| PitchPasses.OctaveScanFacts | src/analysis.js:68-74 | the k-loop leaves a shift in -2..2 no farther from the reference than any other, strictly nearer than the unshifted pitch when it moves, and the first of equally near shifts |
| PitchPasses.OctaveShift | src/analysis.js:68-74 | the chosen shift is in -2..2 and is nearest to the reference; it differs from 0 only when strictly nearer than 0, and no smaller shift is as near |
| PitchPasses.NearestOctave | src/analysis.js:66-75 | the inner loop returns the pitch moved by that octave shift |
| PitchPasses.OctaveFix | src/analysis.js:65-75 | an entry is shifted only when both user and reference are present; a null stays null |
| PitchPasses.OctavePassEntry | src/analysis.js:64-76 | the octave pass keeps nulls, leaves entries with no reference alone, moves the rest by whole octaves (at most two) and never moves them farther from the reference |
| PitchPasses.OctavePassInPlace | src/analysis.js:64-76 | the in-place loop leaves the array equal to the octave pass of its old contents |
| PitchPasses.OctaveStepInPlace | src/analysis.js:65-75 | one turn changes only entry i |
| PitchPasses.ClampRange | src/analysis.js:81 | the clamp lands in [36, 77], leaves values inside it alone and maps values outside it to the nearer end |
| PitchPasses.DespikeUpToFrame | src/analysis.js:79-89 | iteration n writes only index n |
| PitchPasses.DespikeEntry | src/analysis.js:79-89 | a null stays null; a kept entry is the clamped input; a present entry becomes null exactly when its clamped value lies more than 8 from both present neighbours, the left one already processed and the right one not yet |
| PitchPasses.DespikeWithin | src/analysis.js:81 | after the pass every present pitch lies in [36, 77] |
| PitchPasses.DespikePassInPlace | src/analysis.js:79-89 | the in-place loop leaves the array equal to the despike pass of its old contents |
| PitchPasses.EmaUpToFrame | src/analysis.js:96-99 | iteration n writes only index n, and entry 0 is never written |
| PitchPasses.EmaEntry | src/analysis.js:95-99 | nulls stay where they are; entry 0 and entries after a null keep their value; the others are 0.2 of themselves plus 0.8 of the already smoothed previous entry |
| PitchPasses.EmaWithin | src/analysis.js:95-99 | the smoothing never leaves a range that holds every input value |
| PitchPasses.EmaPassInPlace | src/analysis.js:96-99 | the in-place loop leaves the array equal to the EMA pass of its old contents |
| PitchPasses.CorrectedWithin | src/analysis.js:56-99 | after the four passes every present pitch lies in [36, 77] |
| Onsets.RawOnsetsUpTo | src/analysis.js:207-212 | the raw onsets before point n are exactly the beats of points where voicing turns on or the pitch jumps by more than 1.5 |
| Onsets.Dedup | src/analysis.js:214-217 | the kept onsets are never more than the raw ones, and some onset is kept when there is any |
| Onsets.DedupGaps | src/analysis.js:214-217 | consecutive kept onsets lie more than 0.2 beat apart |
| Onsets.DedupSubsequence | src/analysis.js:214-217 | the kept onsets are a subsequence of the raw ones, starting with the first |
| Onsets.DedupCovers | src/analysis.js:214-217 | every raw onset lies within 0.2 beat of a kept one |
| Onsets.DetectUserOnsets | src/analysis.js:203-219 | the two loops compute the de-duplicated raw onsets |
| Onsets.NearestUnusedUpTo | src/analysis.js:229-233 | the scan finds an index below n that is not yet used |
| Onsets.NearestUnusedUpToIsNearest | src/analysis.js:229-233 | none exactly when every index is used; otherwise the unused onset nearest the reference onset, the first of equally near ones |
| Onsets.MatchUpTo | src/analysis.js:224-235 | the number of matches is at most the reference onsets examined and equals the number of distinct user onsets claimed |
| Onsets.MatchedAtMostUsers | src/analysis.js:225-234 | no user onset is claimed twice, so matches are at most the user onsets |
| Onsets.RhythmScore | src/analysis.js:221-237 | the score is in 0..100 and is 0 when either list is empty |
| Onsets.RhythmScoreExtremes | src/analysis.js:236 | all reference onsets matched gives 100; none gives 0 |
| Onsets.NearestUnusedIndex | src/analysis.js:227-233 | -1 exactly when no onset is unused; otherwise the nearest unused index and its distance |
| Onsets.ComputeRhythmScore | src/analysis.js:221-237 | the nested loops compute the rhythm score |
| Analysis.SecondsPerBeat | src/analysis.js:9 | 60 / tempo is a positive period for a positive tempo |
| Analysis.FirstNear | src/analysis.js:30 | the `find` returns the first sample within half a step of the grid beat, and nothing exactly when no sample is that near |
| Analysis.UserMidiAt | src/analysis.js:34-38 | the user's pitch at a grid beat is present exactly when the rounded frame index is inside the track and freqToMidi of its f0 is a positive number, and then it is that number |
| Analysis.RefAtBeatsSnoc | src/analysis.js:29-32 | reading one more grid beat appends exactly that beat's reference pitch |
| Analysis.UserAtBeatsSnoc | src/analysis.js:33-39 | reading one more grid beat appends exactly that beat's user pitch |
| Analysis.SampleGrid | src/analysis.js:21-42 | the loop pushes the four arrays in step, over the beats k * step up to maxBeat and no further, with each entry the reference and user pitch read at its beat and the mask true exactly where both are present and more than half a semitone apart |
| Analysis.RefMidiOnNormalizedGrid | src/analysis.js:16-31 | on a normalised reference, the grid reads at beat k * 0.05 the pitch of the note sounding there |
| Analysis.RefMidiOnGrid | src/analysis.js:30-31 | on samples spaced 0.05 from beat 0, grid point k reads sample k |
| Analysis.GridReadsOwnSample | src/analysis.js:30 | on that grid, the `find` at beat k * 0.05 returns sample k |
| Analysis.FirstNearIs | src/analysis.js:30 | the sample the `find` returns is the first one near the beat |
| Analysis.RecomputeMask | src/analysis.js:101-106 | the mask is overwritten: true exactly where both corrected pitches are present and more than half a semitone apart |
| Analysis.MaskOf | src/analysis.js:101-106 | the mask array has one entry per grid point, recomputed from the corrected curve |
| Analysis.Comparable | src/analysis.js:109 | the comparable points are never more than the grid points |
| Analysis.CorrectPlusMarked | src/analysis.js:105-110 | every comparable point is either within tolerance or marked in the mask, never both |
| Analysis.PitchScore | src/analysis.js:109-111 | the pitch score is in 0..100; 0 with no comparable point or none correct; 100 when comparable points exist and none is marked wrong |
| Analysis.TotalScore | src/analysis.js:118 | the total is in 0..100 and lies between the pitch and rhythm scores |
| Analysis.VerdictTier | src/analysis.js:119 | the verdict tiers are >= 90, 75..89, 60..74 and below 60 |
| Analysis.VerdictMonotone | src/analysis.js:119 | a higher total never earns a lower verdict |
| Analysis.UserSeries | src/analysis.js:10-13 | one series point per frame time |
| Analysis.NoteStarts | src/analysis.js:114 | the reference onsets are the note start beats, position by position |
| Analysis.CorrectCurve | src/analysis.js:44-99 | the four passes, run in order on one array, give the corrected curve, whose every present pitch lies in [36, 77] |
| Analysis.GridCurves | src/analysis.js:7-106 | the grid curves, with the user curve corrected and the mask recomputed from it |
| Analysis.AnalyzeAgainstReference | src/analysis.js:7-122 | the result holds the grid beats, the reference curve read on them, the corrected user curve (within [36, 77]), the recomputed mask, the pitch score over comparable points, the rhythm score of the note starts against the de-duplicated user onsets, their rounded 0.6/0.4 mix and its verdict |
| NoteComparisons.FirstVoiced | src/analysis.js:130-136 | the first frame above 60 Hz, and none exactly when no frame is above 60 Hz |
| NoteComparisons.FindFirstVoicedSec | src/analysis.js:129-136 | the loop with its `break` returns that frame's time, or 0 |
| NoteComparisons.OffsetBeats | src/analysis.js:137-138 | the offset, in seconds, moves the first note's start onto the first voiced time |
| NoteComparisons.SampleUserAtBeat | src/analysis.js:144-151 | the aligned beat's frame gives a pitch exactly when it is inside the track with a positive f0, and then it is freqToMidi of that f0 |
| NoteComparisons.ScanUp | src/analysis.js:178-181 | a found start is a voiced beat inside the scan range |
| NoteComparisons.ScanDown | src/analysis.js:182-185 | a found end is a voiced beat inside the scan range |
| NoteComparisons.CollectWindow | src/analysis.js:165-170 | the loop collects the voiced samples at start + j * 0.05 below the end |
| NoteComparisons.FindStart | src/analysis.js:177-181 | the upward scan with its `break` finds the first voiced beat |
| NoteComparisons.FindEnd | src/analysis.js:182-185 | the downward scan with its `break` finds the last voiced beat |
| NoteComparisons.UserBarEnds | src/analysis.js:177-189 | each end of the user's bar is the note's own end or a voiced beat within half a beat of the note |
| NoteComparisons.TolBeats | src/analysis.js:156-157 | ±100 ms is a positive number of beats |
| NoteComparisons.Issues | src/analysis.js:191-197 | no more issues than notes |
| NoteComparisons.IssuesSubsequence | src/analysis.js:191-197 | the issues are, in note order, exactly those of the notes whose pitch is off by more than 0.5 or whose start or end is off by more than the tolerance |
| NoteComparisons.SilentNoteNotIssue | src/analysis.js:186-194 | a note with no voiced sample within half a beat falls back to its own ends with no pitch, and is not an issue |
| NoteComparisons.MeasureUserPitch | src/analysis.js:164-175 | the sorted window's middle sample, or none when the window is silent |
| NoteComparisons.MeasureUserBar | src/analysis.js:163-189 | the user's bar: both scans, their fallbacks and the window median |
| NoteComparisons.CompareNote | src/analysis.js:160-197 | one note gives its reference bar, its user bar and an issue exactly when the issue test holds |
| NoteComparisons.UserBarsUpToAt | src/analysis.js:189 | entry j of the user bars is the bar of note j |
| NoteComparisons.CompareNotes | src/analysis.js:159-198 | one reference bar and one user bar per note, in note order, and the issues of those bars |
| NoteComparisons.BuildNoteComparisons | src/analysis.js:125-201 | the offset of the first voiced frame, a bar pair per note and the issues, with the ±100 ms tolerance in beats |
| ScriptKeys.BuildWhiteMidi | script.js:59-66 | WHITE_MIDI is strictly ascending and holds exactly the white keys from A2 (45) to G5 (79) |
| ScriptKeys.WhiteNames | script.js:68-75 | WHITE_NAMES labels each key with midiToNoteLabel's name and octave |
| ScriptKeys.WhiteNamesDistinct | script.js:75 | distinct keys get distinct axis labels |
| ScriptKeys.NearestKeyFacts | script.js:264-268 | the scan holds the first key strictly nearer than the running distance, beginning at 1e9 |
| ScriptKeys.SnapNone | script.js:264-269 | no key wins only when every key lies 1e9 or more away |
| ScriptKeys.SnapSome | script.js:264-269 | the key picked is a member nearest the pitch, and the lowest of equally near keys |
| ScriptKeys.Snap | script.js:262-270 | a non-finite pitch snaps to nothing; a snapped key is a white key |
| ScriptKeys.SnapNearest | script.js:262-270 | the snapped key is the nearest white key (the lowest on a tie); nothing exactly when every key is 1e9 or more away |
| ScriptKeys.SnapToWhiteKey | script.js:262-270 | the loop with its running best and distance computes that key |
| ScriptOffset.Clamp | script.js:79 | the clamp lies within the bounds, keeps values inside them and maps the rest to the nearer bound |
| ScriptOffset.Pressed | script.js:114-116 | after one button press the offset is within ±2 s |
| ScriptOffset.PressesStayInRange | script.js:114-116 | after any presses the offset is within ±2 s, given one press or a start within range |
| ScriptOffset.OffsetControl.constructor | script.js:108 | the stored offset, or 0 when nothing parses |
| ScriptOffset.OffsetControl.Press | script.js:114-119 | a press moves the offset by delta and clamps it to ±2 s |
| ScriptPitch.BestLagUpTo | script.js:243-251 | the running best is the first lag with the largest positive correlation, or lag 0 with correlation 0 when none is positive |
| ScriptPitch.FrameF0 | script.js:252 | a frame's f0 is 0 or at least 80 Hz |
| ScriptPitch.LagFrequencyBound | script.js:246-252 | a lag of at most floor(sr / 80) samples is a frequency of at least 80 Hz |
| ScriptPitch.Correlation | script.js:248-249 | the inner loop sums the products, an out-of-range read counting 0 |
| ScriptPitch.BestLag | script.js:243-251 | the lag loop returns the running best over minLag..maxLag |
| ScriptPitch.EstimatePitchTrack | script.js:233-256 | the typed-array allocation throws for a buffer shorter than one frame, and for a zero hop (below 100 Hz) unless the buffer is exactly one frame, which gives an empty track; otherwise there are floor((len - size) / hop) frames, each with its best-lag f0 and time i * hop / sr |
| ScriptPitch.PitchFrame | script.js:242-253 | one frame iteration gives its f0 and time |
| ScriptPitch.Energy | script.js:280-285 | a sum of squares is never negative |
| ScriptPitch.BaselineLength | script.js:279 | the baseline is at most the buffer |
| ScriptPitch.Threshold2 | script.js:281-282 | the squared threshold is at least 0.02 squared |
| ScriptPitch.FirstLoud | script.js:283-288 | the first loud window at or after k, with none loud before it; none exactly when no later window is loud |
| ScriptPitch.WindowEnergy | script.js:284-285 | the inner loop sums the window's squares |
| ScriptPitch.DetectOnset | script.js:273-290 | the start in seconds of the first window louder than the threshold, or 0 |
| ScriptAlign.BinsOf | script.js:299-302 | bin i is set exactly when some time falls in it; times outside the array set nothing |
| ScriptAlign.OverlapUpTo | script.js:308-311 | the overlap over n bins is at most n |
| ScriptAlign.ShiftScore | script.js:307-311 | the inner loop counts the bins set in both lists at that shift |
| ScriptAlign.BestShift | script.js:304-313 | the shift in -50..50 with the largest overlap, the first of equal ones |
| ScriptAlign.FineAlign | script.js:293-315 | 0 when either list is empty; a throw when the bin count is negative; otherwise the best shift times 10 ms |
| ScriptMetrics.ScriptFreqToMidi | script.js:258-260 | the page's freqToMidi agrees with the module's on every positive frequency |
| ScriptMetrics.EventsUpTo | script.js:326-335 | no more events than frames, each on a white key |
| ScriptMetrics.NearestEvent | script.js:340-344 | the reduce returns an index below n, and none exactly when there are no events |
| ScriptMetrics.NearestEventIsNearest | script.js:340-344 | the event picked is nearest the target and the first of equally near ones |
| ScriptMetrics.Judge | script.js:345-351 | a missing event adds a wrong and compares nothing; otherwise exactly one comparison, either correct or wrong |
| ScriptMetrics.TallyUpTo | script.js:338-352 | correct notes are at most the compared ones, which are at most the notes; every note is correct or wrong; notes are compared exactly when there are events |
| ScriptMetrics.MetricsOf | script.js:318-358 | the accuracy is in 0..100 and the wrong notes are at most the notes |
| ScriptMetrics.NoEventsAllMissed | script.js:329-354 | with no frame at 60 Hz or above, every note is a miss and the accuracy is 0 |
| ScriptMetrics.NearestShifted | script.js:339-344 | the nearest event does not move when events and target shift together |
| ScriptMetrics.TallyShifted | script.js:338-352 | the tally does not change when events and targets shift together |
| ScriptMetrics.OffsetInvariant | script.js:333-355 | the metrics do not depend on the offset, which moves events and targets alike |
| ScriptMetrics.BuildEvents | script.js:326-335 | the event loop computes the events of all frames |
| ScriptMetrics.CompareNote | script.js:339-351 | one turn of the note loop updates the counters as one note step |
| ScriptMetrics.ComputeMetrics | script.js:318-358 | the loops compute the metrics at the total offset |
| ScriptMetrics.CoachingTips | script.js:414-421 | one tip per rule that fires, the steady tip exactly when none does, at most five |
| ScriptMetrics.DemoMelodyConsistent | script.js:221-228 | the fallback melody's seconds are its beats at 120 bpm, its names are the note labels, and its notes follow each other |
| WavWriter.Ascii | script.js:193-195 | writeUTFBytes writes one byte per character, its code modulo 256 |
| WavWriter.U16RoundTrip | script.js:173-178 | a little-endian 16-bit field reads back as its value modulo 2^16 |
| WavWriter.U32RoundTrip | script.js:169-180 | a little-endian 32-bit field reads back as its value modulo 2^32 |
| WavWriter.SampleCode | script.js:185-187 | a sample's code lies in the 16-bit range; full scale and beyond clip to 0x7FFF and -0x8000, silence is 0, and the sign is kept |
| WavWriter.I16RoundTrip | script.js:187 | a code in the 16-bit range reads back as itself in two's complement |
| WavWriter.SamplesLengthClosed | script.js:164-190 | the first i frames take 2 * i * channels bytes |
| WavWriter.FileLengthClosed | script.js:164 | the file has buffer.length * channels * 2 + 44 bytes |
| WavWriter.WavLength | script.js:164-191 | the file has exactly the length the writer allocates |
| WavWriter.WavLayout | script.js:167-190 | the file is the 44-byte header followed by the sample bytes |
| WavWriter.RiffFields | script.js:168-170 | the RIFF descriptor reads 'RIFF', the length minus 8, 'WAVE' |
| WavWriter.FormatFields | script.js:171-174 | the format half reads 'fmt ', size 16, PCM format 1 and the channel count |
| WavWriter.RatesFields | script.js:175-178 | the rates half reads the sample rate, the byte rate rate * 2 * channels, the block align channels * 2 and 16 bits |
| WavWriter.DataFields | script.js:179-180 | the data header reads 'data' and the length minus 44 |
| WavWriter.HeaderFields | script.js:167-180 | each of the header's fields, read back at its offset in the 44-byte header, holds the value the writer stored |
| WavWriter.SampleAt | script.js:182-190 | sample c of frame i sits at byte 44 + 2 i channels + 2 c and reads back as its 16-bit code |
| WavWriter.SampleDecodes | script.js:183-189 | sample c of frame i reads back from the sample bytes as its code |
| WavWriter.Put | script.js:187-194 | a write of bytes at an offset puts exactly those bytes there and leaves the bytes before and after it alone |
| WavWriter.WriteUtfBytes | script.js:193-195 | the loop writes the tag's bytes at the offset, one per character, and leaves every other byte alone |
| WavWriter.SetUint16 | script.js:173 | setUint16 writes the two little-endian bytes at the offset and leaves every other byte alone |
| WavWriter.SetUint32 | script.js:169 | setUint32 writes the four little-endian bytes at the offset and leaves every other byte alone |
| WavWriter.WriteRiffChunk | script.js:168-170 | the first 12 bytes are the RIFF descriptor and bytes 12 on are untouched |
| WavWriter.WriteFmtFormat | script.js:171-174 | bytes 12-23 are the format half of the 'fmt ' chunk; bytes before 12 and from 24 on are untouched |
| WavWriter.WriteFmtRates | script.js:175-178 | bytes 24-35 are the rates half of the 'fmt ' chunk; bytes before 24 and from 36 on are untouched |
| WavWriter.WriteDataChunkHeader | script.js:179-180 | bytes 36-43 are the 'data' header; bytes before 36 and from 44 on are untouched |
| WavWriter.WriteHeader | script.js:167-180 | the first 44 bytes are the whole header and the sample area from byte 44 on is untouched |
| WavWriter.ClampAndScale | script.js:186-187 | the loop's clamp to [-1, 1] and scale by 0x8000 or 0x7FFF yield exactly the sample's 16-bit code, which lies in -32768..32767 |
| WavWriter.WriteFrame | script.js:184-189 | the channel loop writes frame i's codes at the moving offset, keeping the bytes before and after the frame |
| WavWriter.WriteNextFrame | script.js:183-190 | one turn of the frame loop extends the written prefix by frame i and leaves the later bytes alone |
| WavWriter.WriteSamples | script.js:182-190 | the frame loop writes every frame after the header, in order |
| WavWriter.BufferToWav | script.js:162-192 | the bytes of the WAV file are the header and every sample's code, frame by frame |
| AudioFrames.ShareIsMean | src/audio.js:19-22 | adding each channel's share gives the channel sum divided by the channel count |
| AudioFrames.MixedUpTo | src/audio.js:17-22 | the mono buffer has the input's length |
| AudioFrames.Downmix | src/audio.js:17-22 | the loops over a zero-filled buffer leave, after all channels, the mixed buffer |
| AudioFrames.DownmixIsMean | src/audio.js:17-22 | each mono sample is the mean of the channels' samples, or 0 with no channel |
| AudioFrames.PeakFacts | src/audio.js:32-33 | the peak bounds every magnitude and is reached unless it is 0, and a peak of 0 means silence |
| AudioFrames.PeakAtMost | src/audio.js:32-33 | a bound on every magnitude bounds the peak |
| AudioFrames.Normalized | src/audio.js:34-37 | normalisation keeps the buffer's length |
| AudioFrames.ScaledMagnitude | src/audio.js:35-36 | scaling by 0.9 / peak keeps every magnitude within 0.9 and takes the peak to exactly 0.9 |
| AudioFrames.NormalizedPeak | src/audio.js:30-37 | a buffer with sound peaks at exactly 0.9 afterwards; a silent buffer is left unchanged |
| AudioFrames.NormalizedSigns | src/audio.js:36 | normalisation keeps the sign of every sample |
| AudioFrames.FindPeak | src/audio.js:32-33 | the running-max loop computes the peak |
| AudioFrames.Normalize | src/audio.js:30-37 | the in-place loop leaves the buffer normalised |
| AudioFrames.PreprocessBuffer | src/audio.js:11-39 | the processed signal is the normalised rendering of the downmix |
| AudioFrames.FrameCountExact | src/audio.js:55 | frame k exists exactly when k * 256 + 4096 is below the length |
| AudioFrames.Gate | src/audio.js:57-59 | the gated frequency is 0 or within [80, 1000]; an in-range detection passes through; a failed one is 0 |
| AudioFrames.FrameTrack | src/audio.js:49-67 | one time and one f0 per frame; frame k starts at k * 256 samples, its time is that over the sample rate, and its f0 is the gated detection of its 4096 samples |
| AudioFrames.FrameTimesStep | src/audio.js:60 | frame times step by exactly 256 / sampleRate, so they strictly increase |
| AudioFrames.AnalyzePitchTrack | src/audio.js:41-69 | the track carries the sample rate, frame size 4096 and hop 256, and one time and gated f0 per frame of the preprocessed signal |
| VizWindow.MaxStart | src/viz.js:222 | the last page start is a non-negative integer, at most max(0, totalBeats − 16) and within one beat of totalBeats − 16 |
| VizWindow.ClickStaysInRange | src/viz.js:217-225 | one ← or → click keeps windowStart within [0, maxStart]; it moves by exactly 16 unless it is clamped to 0 (←) or to maxStart (→) |
| VizWindow.ClicksStayInRange | src/viz.js:217-225 | any sequence of clicks keeps windowStart within [0, maxStart] |
| VizWindow.PageView.constructor | src/viz.js:50-51 | a rendered result starts on page 0, with the page-start invariant established |
| VizWindow.PageView.Prev | src/viz.js:217-220 | the ← handler sets windowStart to max(0, windowStart − 16) and keeps it within [0, maxStart] |
| VizWindow.PageView.Next | src/viz.js:221-225 | the → handler sets windowStart to min(maxStart, windowStart + 16) and keeps it within [0, maxStart] |
| VizWindow.PageInfo | src/viz.js:54-58 | the page's first bar is at least 1, the last bar is at most four bars later (three on a page that starts on a bar line) and never past floor(totalBeats / 4) |
| VizWindow.Segment | src/viz.js:66-72 | pushLine adds nothing or exactly three points; three exactly when the bar clipped to [ws, ws + 16] has x1 > x0, and then the clipped endpoints carrying the bar's midi followed by a gap |
| VizWindow.OffPageIsEmpty | src/viz.js:67 | the early return for a bar wholly off the page agrees with the x1 ≤ x0 test, so it never changes what is drawn |
| VizWindow.SegmentOnPage | src/viz.js:66-72 | every point pushLine emits lies in [ws, ws + 16] and carries the bar's pitch |
| VizWindow.Lines | src/viz.js:73-74 | the line arrays are made of whole three-point segments |
| VizWindow.LinesOnPage | src/viz.js:73-74 | every drawn point lies on the page and carries the pitch of a drawn bar; user bars with a null midi are never drawn |
| VizWindow.BuildLines | src/viz.js:66-74 | the forEach over the bars pushes exactly the segments of the drawn bars, in bar order |
| VizWindow.Tempo | src/viz.js:94 | the tempo with its 120 bpm fallback is never zero, so the millisecond conversion is defined |
| VizWindow.LabelPartsThresholds | src/viz.js:89-103 | a label gets a cents part iff the pitch difference is known and its cents exceed 50, and a start or end part iff that difference exceeds 100 ms at the tempo; at most three parts |
| VizWindow.IssueMarks | src/viz.js:84-105 | crosses and the cross index map grow together, one entry per issue on the page at most |
| VizWindow.CrossesAtIssues | src/viz.js:85-87 | cross k is drawn at the beat and pitch of issue crossIndexMap[k], and that issue is on the page |
| VizWindow.CrossIndexAscending | src/viz.js:84-87 | the cross index map is strictly increasing and below the number of issues, so crosses follow issue order |
| VizWindow.EveryIssueOnPageCrossed | src/viz.js:85-87 | every issue whose beat lies in [ws, ws + 16] gets a cross |
| VizWindow.LabelsOfIssues | src/viz.js:89-103 | every error label has at least one part and is the label of an issue on the page, placed at its beat and 0.8 above its pitch |
| VizWindow.PlaceholderIffNoIssues | src/viz.js:79-83 | the placeholder label appears iff there are no issues, and then the marks are exactly one cross at (ws + 2, 60) with index 0 and one label at (ws + 2, 61) |
| VizWindow.BuildIssueMarks | src/viz.js:79-106 | the issue loop builds exactly the placeholder or the per-issue crosses, indices and labels |
| VizWindow.BuildSlice | src/viz.js:60-110 | buildSlice returns the reference lines, the user lines without silent bars, and the issue marks of the page |
| VizWindow.LyricsOnPage | src/viz.js:117 | a lyric is shown exactly when its beat lies in [ws, ws + 16); never more lyrics than the reference has |
| VizWindow.DigitRun | src/viz.js:370 | the `\d+` of the label pattern: a run of digits that stops at a non-digit or the end of the text |
| VizWindow.BarAndBeatSplit | src/viz.js:119-120 | for a beat ≥ 0 the bar m is at least 1, the beat b' lies in 1..4, and (m − 1)·4 + (b' − 1) is the whole beat |
| VizWindow.ParseLabelOf | src/viz.js:370-373 | a text of digits, a bar sign, digits and ':' matches the label pattern and parses to the two numbers |
| VizWindow.LyricLabelRoundTrip | src/viz.js:118-122 | the bar-and-beat label of a lyric at a beat ≥ 0 parses back in highlightLyrics (src/viz.js:370-374) to the floor of that beat |
| VizWindow.HighlightedLyric | src/viz.js:364-385 | a shown lyric lights up exactly when the played beat is within half a beat of its whole beat |
| VizWindow.SeekTarget | src/viz.js:283 | the seek lies in [0, max(0, duration − dur)], equals the wanted time when a whole clip fits after it, and is clamped to 0 below and to duration − dur above |
| VizWindow.PlayAbSeekExact | src/viz.js:253-283 | playAB seeks to (beat + offsetBeats)·60/tempo whenever that time leaves room for the 0.6 s clip |
| VizWindow.PlayUserSeek | src/viz.js:396-412 | playUserAtBeat's seek lies in [0, max(0, duration − 0.5)] |

## Left out

- src/ui.js and vite.config.js are not part of this model. One builds the DOM and drives the pages; the other is build configuration.
- The WebAudio parts are not modelled: `decodeAudioFile` (src/audio.js:3-8) and the biquad filter chain rendered offline (src/audio.js:14-29). The filter chain is a function parameter of the preprocessing model.
- The pitchfinder YIN detector (src/audio.js:48) is a function parameter. Only what the framing loop does with its result is modelled.
- Chart.js rendering, Tone.js and HTML audio playback, the moving playhead, bar and lyric blink timers, and the debouncing of clicks are not modelled (src/viz.js:112-215, 230-429; script.js:361-411). These are I/O and timing. Of playAB, playUserAtBeat and highlightLyrics only the seek time and the label match are modelled.
- The DOM and page handling (`showPage`, `toggleDark`, `updateOffsetDisplay`, the file and demo buttons), localStorage, alerts, Blob/URL creation and the PNG/JSON/PDF exports (script.js:11-160, 477-522) are not modelled. These are UI and I/O. Of `bufferToWavUrl` the bytes are modelled but not the Blob.
- The demo button's synthesised beeps (`writeTone`, script.js:141-147) are not modelled. They are floating-point sine synthesis of a sample buffer; the WAV writer takes any buffer.
- `loadMidi`'s `fetch` and `@tonejs/midi` parsing (script.js:198-217) are not modelled. These are a network call and a foreign parser. Only its fallback demo melody (script.js:221-228) is kept.
- `getBuiltInSongs` (src/midi.js:78-80) returns the song table as it is. The table itself is `MidiRef.BuiltIn`.
- The local `midiToNaturalName` of src/viz.js:435-440 is not modelled separately. Its body is the same as `midiToNoteLabel` (src/midi.js:101-106), which `MidiRef.MidiToNoteLabel` models.
- The cooperative yields (`await new Promise(setTimeout)`, src/analysis.js:60 and src/audio.js:64-66) have no effect on the values. The loops are plain loops.
- Floating point is modelled with exact reals. NaN, Infinity and rounding error are not modelled. A JavaScript `null` or a missing value is `None`.
- `toFixed` and the rest of the number formatting in labels, tips and page text are not modelled. Error-label parts carry the rounded magnitudes, not their text.
- PitchMath.Log2: the real base-two logarithm cannot be defined here. It is an exact stand-in: exact at every power of two, linear between them and strictly increasing. Only properties that also hold of the real log2 are stated, such as log2(1) = 0, log2(2x) = 1 + log2(x) and monotonicity. So FreqToMidi is exact at 440·2^k but only approximates 69 + 12·log2(f/440) elsewhere.
- PitchMath.MidiToFreq uses the matching stand-in for 2^x. The stand-in is exact at integer exponents.
- The `b += step` accumulations (src/midi.js:94; src/analysis.js:28, 167, 178, 182) are modelled as b = k·step with an integer k. The float loop can gain or lose a last grid point at its boundary through accumulated rounding.
- ScriptPitch.DetectOnset compares the mean square of a window with thr² instead of its square root with thr. The two agree on reals because both sides are non-negative.
- ScriptPitch.DetectOnset requires an integral sample rate of at least 100 Hz. Below that the hop is 0 samples, so the scan never moves past the first window and runs forever unless that window is loud. ScriptPitch.EstimatePitchTrack takes any integral rate and models the zero hop as the source evaluates it.
- Analysis.AnalyzeAgainstReference requires a positive tempo, a positive grid step and a positive frame period. With a zero tempo the source divides by zero, and with a zero step its grid loop never ends.
- NoteComparisons.BuildNoteComparisons requires a positive tempo and a track with one time per f0 value. `analyzePitchTrack` builds every track that way.
- VizWindow.PlayUserSeek requires a non-zero tempo. Its caller (src/viz.js:197) passes the raw `reference.tempoBpm`, without the 120 bpm fallback, and the one built-in song has tempo 120 (src/midi.js:7). For a zero tempo the source divides by zero: the seek is then duration − 0.5 (at least 0) for a positive beat plus offset, 0 for a negative one, and NaN at exactly zero; none of that is modelled.
- MidiRef.NormalizeReference requires at least one note. Over an empty list the source's `Math.max()` gives −Infinity.
- MidiRef.MidiToNoteLabel, MidiRef.MidiToNaturalName: these take a `nat`. For a negative midi JavaScript's `%` indexes outside the name table and prints `undefined`.
- ScriptAlign.FineAlign does not assume sorted inputs. It uses the last element as the source does, and writes outside the typed array are dropped as in JavaScript. Bin counts below zero throw, which is modelled as an error.
