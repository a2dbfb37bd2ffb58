# Guitar Tab Reader — a verified model of the renderer's logic

Guitar Tab Reader is a desktop reader for Guitar Pro tablature. The score
engine renders and plays the tab. The application's own logic sits in the
renderer's hooks and components; the main process adds a few file
handlers. This project models that logic in Dafny and proves what it
promises:

- **Practice loop** (`usePracticeMode`, `PracticeModePanel`):
  - translates a 1-based bar range into a tick range;
  - arms, starts, stops and disarms a loop on an abstract player;
  - counts finished loops and ramps the tempo up to a cap;
  - clamps the panel's inputs.
- **Chord naming** (`useActiveChord`):
  - `detectChordName` reduces MIDI numbers to pitch classes and picks the root from the lowest note;
  - it matches an ordered rule list;
  - the live handler prefers a chord annotation, builds a per-string fret array otherwise, and keeps the previous chord when fewer than two notes sound.
- **Fretboard and chord box** (`useFretboard`, `Fretboard`, `ChordDiagram`):
  - note names;
  - flattening the active notes;
  - string-to-row inversion and fret-to-x placement;
  - marker, label and fret-number placement;
  - the chord box's window, marks and barre extent.
- **Small state cores**:
  - the recent-projects list (`useProjects`);
  - track selection, tempo and program changes (`useAlphaTab`);
  - the application shell's handlers, keys and title (`App`);
  - the resizable panel (`useResizable`);
  - the instrument table (`TrackPanel`);
  - the colour theme (`ThemeContext`);
  - the file-name derivation and result tags of the main process's file handlers.

Each source file is one module. The score engine is modelled as the class
`AlphaTab.Player`, a record of the properties the hooks read and write:
- tempo and speed;
- the playback range and the looping flag;
- the count-in;
- playing, loaded score, tracks and selection.

Tempos and tempo increments are whole hundredths (1.0 is 100, the
0.05 step is 5), so the ramp `min(loopTempo + increment, maxTempo)` is
exact. Storage contents, dialog answers, file-system outcomes, `JSON.parse`
results and `Date.now()` enter as parameters.

Where the code does less than its own comments, names or fallbacks
suggest, the model follows the code:
- **`setRange`** (usePracticeMode.ts:81-84) clamps only the start: with a start below 1 it stores `endBar < startBar`, so `(0, 0)` becomes `(1, 0)`.
- **Tempo ramp** (usePracticeMode.ts:124-149, commented "gradual tempo increase") is `min(loopTempo + increment, maxTempo)`, which goes down when `loopTempo > maxTempo`.
- **`activate`** (usePracticeMode.ts:65-68) has no guard: each call overwrites the saved tempo, so a second call loses the tempo to restore.
- **Live chord retention** (useActiveChord.ts:90-93, commented "Not enough notes for a chord") counts MIDI notes, not distinct pitches: one pitch on two strings is enough for a chord.
- **Windows paths** (src/main/index.ts:62-63 and 110-111): the backslash fallback runs only for paths ending in '/', and its result then still ends in '/' (the path `a\b/` gives `b/`). A path with no '/' already yields the whole path from the first split, so it becomes its own file name, backslashes included.
- **Rule order in `detectChordName`** (useActiveChord.ts:25-34, whose comments list "Minor 7: 0,3,7,10" and "Major 7: 0,4,7,11"):
  - the `m7` rule can never fire;
  - a major-seventh chord is labelled as plain major.

## Model

| member | source | states |
|---|---|---|
| PracticeMode.TickRangeOf | src/renderer/src/hooks/usePracticeMode.ts:52-63 | a range exists iff there is a score, the clamped start index is not past the clamped end index and is a bar index (at or before the last bar); it then runs from the start of bar startIdx to the end of bar endIdx |
| PracticeMode.NoBarsNoRange | src/renderer/src/hooks/usePracticeMode.ts:53-56 | a score with no bars never yields a range |
| PracticeMode.InRangeResolves | src/renderer/src/hooks/usePracticeMode.ts:58-62 | bar numbers 1 ≤ start ≤ end ≤ bar count select exactly the ticks from bar start-1 to the end of bar end-1 |
| PracticeMode.StartsMonotone | src/renderer/src/hooks/usePracticeMode.ts:58-62 | in a well-timed score, bar starts never decrease |
| PracticeMode.RangeIsNonEmpty | src/renderer/src/hooks/usePracticeMode.ts:58-62 | with non-decreasing starts and positive durations, a range's start tick is before its end tick |
| PracticeMode.NormalizedRangeOrder | src/renderer/src/hooks/usePracticeMode.ts:81-84 | setRange stores a start ≥ 1; end ≥ start only when the given start is ≥ 1; an ordered range is kept as given; (5,2) becomes (5,5) and (0,0) becomes (1,0) |
| PracticeMode.RampStep | src/renderer/src/hooks/usePracticeMode.ts:134-137 | one ramp step never exceeds maxTempo, and it does not lower the tempo iff loopTempo ≤ maxTempo |
| PracticeMode.RampStepsClosedForm | src/renderer/src/hooks/usePracticeMode.ts:129-142 | after n finished loops with gradual increase the loop tempo is min(loopTempo + n·increment, maxTempo) |
| PracticeMode.RampMonotone | src/renderer/src/hooks/usePracticeMode.ts:129-142 | starting at or below the cap, the ramped tempo never decreases over loops and stays at or below maxTempo |
| PracticeMode.PracticeSession.constructor | src/renderer/src/hooks/usePracticeMode.ts:35-47 | the defaults: inactive, bars 1 to 4, loop tempo 1.0, increase off with step 0.05 and cap 1.0, no loops, count-in off, saved tempo 1.0, not looping |
| PracticeMode.PracticeSession.Activate | src/renderer/src/hooks/usePracticeMode.ts:65-68 | the current tempo is saved on every call (no guard) and the session is active |
| PracticeMode.PracticeSession.StopLoop | src/renderer/src/hooks/usePracticeMode.ts:114-122 | playback stops, the range is cleared, looping is off, the saved tempo is restored, count-in and loop count are 0 |
| PracticeMode.PracticeSession.Deactivate | src/renderer/src/hooks/usePracticeMode.ts:70-79 | everything stopLoop does, and the session is inactive |
| PracticeMode.StopTwice | src/renderer/src/hooks/usePracticeMode.ts:70-122 | a second stopLoop or deactivate changes nothing further: the session is stopped at the saved tempo, and only the fields a single call touches can differ from before |
| PracticeMode.PracticeSession.SetRange | src/renderer/src/hooks/usePracticeMode.ts:81-84 | the stored bar pair is the normalised range (start at least 1, end at least start) |
| PracticeMode.PracticeSession.SetLoopTempo | src/renderer/src/hooks/usePracticeMode.ts:86-88 | the loop tempo becomes the given value and nothing else changes |
| PracticeMode.PracticeSession.SetGradualIncrease | src/renderer/src/hooks/usePracticeMode.ts:168 | only the gradual-increase flag changes |
| PracticeMode.PracticeSession.SetTempoIncrement | src/renderer/src/hooks/usePracticeMode.ts:169 | only the increment changes |
| PracticeMode.PracticeSession.SetMaxTempo | src/renderer/src/hooks/usePracticeMode.ts:170 | only the tempo cap changes |
| PracticeMode.PracticeSession.ToggleCountIn | src/renderer/src/hooks/usePracticeMode.ts:90-92 | the count-in flag flips |
| PracticeMode.PracticeSession.StartLoop | src/renderer/src/hooks/usePracticeMode.ts:94-112 | without a tick range nothing changes; otherwise playback stops, the range, looping, loop tempo and count-in (1 or 0) reach the player, the loop count restarts and exactly one deferred play is scheduled |
| PracticeMode.PracticeSession.FireDeferredPlay | src/renderer/src/hooks/usePracticeMode.ts:109-111 | a scheduled play toggles playback unconditionally and is consumed; with none pending nothing happens |
| PracticeMode.PracticeSession.PlayerFinished | src/renderer/src/hooks/usePracticeMode.ts:125-149 | nothing unless subscribed, active and looping; then the loop count grows by exactly one and, with gradual increase, the ramped tempo is stored and applied to the player |
| PracticeMode.RampThenDeactivate | src/renderer/src/hooks/usePracticeMode.ts:65-149 | arming, looping n times with increase, then disarming leaves the ramped loop tempo and restores the tempo saved when arming |
| PracticePanel.NumberOr | src/renderer/src/components/PracticeModePanel.tsx:25 | `Number(v) \|\| d`: the input unless it is NaN or 0, then the default |
| PracticePanel.StartBarValue | src/renderer/src/components/PracticeModePanel.tsx:24-30 | the start bar is at least 1 even with no bars and at most the bar count when there are bars; an input within [1, bar count] is kept, one above the bar count gives the bar count, and a missing, zero or lower input gives 1 |
| PracticePanel.EndBarValue | src/renderer/src/components/PracticeModePanel.tsx:32-38 | the end bar is never below the start bar nor above max(start, bar count); an input within [start, bar count] is kept, one below the start gives the start, one above the bar count gives max(start, bar count), and a missing or zero input counts as 1 |
| PracticePanel.IncrementValue | src/renderer/src/components/PracticeModePanel.tsx:47-52 | the increment lies in [0.01, 0.5]; an input within that range is kept, a missing (NaN) or zero input gives 0.05, one above 0.5 gives 0.5 and a negative one gives 0.01 |
| PracticePanel.StartBarChanged | src/renderer/src/components/PracticeModePanel.tsx:24-30 | the start input sets start to the clamped value and end to max(start, old end), so 1 ≤ start ≤ end |
| PracticePanel.EndBarChanged | src/renderer/src/components/PracticeModePanel.tsx:32-38 | the end input keeps the start and sets an end never below it |
| PracticePanel.IncrementChanged | src/renderer/src/components/PracticeModePanel.tsx:47-52 | the stored increment is the clamped input, within [0.01, 0.5] |
| PracticePanel.LoopTempoSlid | src/renderer/src/components/PracticeModePanel.tsx:119-126 | a loop tempo taken from the slider lies in [0.25, 2] |
| PracticePanel.MaxTempoSlid | src/renderer/src/components/PracticeModePanel.tsx:157-164 | a tempo cap taken from the slider lies in [0.5, 2] |
| PracticePanel.RampStaysOnScale | src/renderer/src/components/PracticeModePanel.tsx:119-164 | with slider values and an input-clamped step, the ramp never leaves the loop-tempo slider's scale and stays under the cap after a loop |
| PracticePanel.LoopBadge | src/renderer/src/components/PracticeModePanel.tsx:78-82 | the badge shows iff the session is active and the loop count is positive, and it shows that count |
| PracticePanel.ButtonShown | src/renderer/src/components/PracticeModePanel.tsx:186-196 | the Stop button shows iff the session is active |
| PracticePanel.StartPressed | src/renderer/src/components/PracticeModePanel.tsx:186-196 | Start arms the session with the current tempo saved, then starts the loop: with no resolvable range the player, loop count, looping flag and pending plays stay as they were; otherwise playback stops, the range, looping, loop tempo (and engine speed) and count-in go to the player, the count restarts and one play is scheduled; no other field changes |
| PracticePanel.StopPressed | src/renderer/src/components/PracticeModePanel.tsx:186-196 | Stop leaves a stopped, inactive session at the saved tempo |
| PracticePanel.PressButton | src/renderer/src/components/PracticeModePanel.tsx:186-196 | the shown button arms an inactive session and disarms an active one |
| Chord.Lowest | src/renderer/src/hooks/useActiveChord.ts:19 | the lowest note is one of the notes and no note is lower |
| Chord.SoundsIff | src/renderer/src/hooks/useActiveChord.ts:15 | a pitch class sounds iff some note has it as its value mod 12 |
| Chord.PitchClassesSpec | src/renderer/src/hooks/useActiveChord.ts:15 | the pitch classes are strictly ascending and are exactly the classes 0..11 that some note has |
| Chord.IntervalsAboveRoot | src/renderer/src/hooks/useActiveChord.ts:19-21 | each interval lies in 0..11, and i is an interval (`has(i)`) exactly when the pitch class i semitones above the root sounds |
| Chord.Classify | src/renderer/src/hooks/useActiveChord.ts:25-46 | every shape the rules name has the intervals it is built from (a power chord also exactly two pitch classes), and the m7 shape is never named |
| Chord.Suffix | src/renderer/src/hooks/useActiveChord.ts:25-46 | the suffix is empty exactly for a major chord and for the no-match fallback |
| Chord.DetectChordName | src/renderer/src/hooks/useActiveChord.ts:13-47 | the label is empty exactly when there are no notes, and otherwise begins with the root's name |
| Chord.Root | src/renderer/src/hooks/useActiveChord.ts:19 | the root is a pitch class 0..11 |
| Chord.RootSounds | src/renderer/src/hooks/useActiveChord.ts:19-20 | the root is always one of the pitch classes of a non-empty input |
| Chord.LabelShape | src/renderer/src/hooks/useActiveChord.ts:13-47 | the label is empty iff the input is; otherwise it is the root's name plus one quality suffix; a single pitch class (octaves included) gives the bare name |
| Chord.SinglePitchClass | src/renderer/src/hooks/useActiveChord.ts:14-16 | with fewer than two pitch classes the only one is the root's |
| Chord.Minor7Unreachable | src/renderer/src/hooks/useActiveChord.ts:26-34 | the rule order never yields the m7 quality |
| Chord.Major7NeedsMinorThird | src/renderer/src/hooks/useActiveChord.ts:26-34 | {0,4,7,11} without 3 and 10 is labelled major; maj7 is chosen only when a minor third also sounds |
| Chord.PitchClassesAre | src/renderer/src/hooks/useActiveChord.ts:15 | an ascending list of classes, each witnessed by a note and covering all notes, is the pitch-class list |
| Chord.LowestIs | src/renderer/src/hooks/useActiveChord.ts:19 | a note no other note is below is the lowest |
| Chord.AscendingUnique | src/renderer/src/hooks/useActiveChord.ts:15 | two strictly ascending lists with the same members are equal |
| Chord.Labelled | src/renderer/src/hooks/useActiveChord.ts:13-47 | the label is fixed by the pitch classes, the lowest note's class and the first matching rule |
| Chord.ExampleMajor | src/renderer/src/hooks/useActiveChord.ts:26-27 | {60,64,67} is labelled "C" |
| Chord.ExampleMajorShape | src/renderer/src/hooks/useActiveChord.ts:26-27 | {60,64,67} has classes [0,4,7], root 0 and the major rule |
| Chord.ExampleMinor | src/renderer/src/hooks/useActiveChord.ts:28-29 | {60,63,67} is labelled "Cm" |
| Chord.ExampleMinorShape | src/renderer/src/hooks/useActiveChord.ts:28-29 | {60,63,67} has classes [0,3,7] and the minor rule |
| Chord.ExampleDominant7 | src/renderer/src/hooks/useActiveChord.ts:30-31 | {60,64,67,70} is labelled "C7" |
| Chord.ExampleDominant7Shape | src/renderer/src/hooks/useActiveChord.ts:30-31 | {60,64,67,70} has classes [0,4,7,10] and the dominant-seventh rule |
| Chord.ExampleDiminished | src/renderer/src/hooks/useActiveChord.ts:36-37 | {60,63,66} is labelled "Cdim" |
| Chord.ExampleDiminishedShape | src/renderer/src/hooks/useActiveChord.ts:36-37 | {60,63,66} has classes [0,3,6] and the diminished rule |
| Chord.ExampleAugmented | src/renderer/src/hooks/useActiveChord.ts:38-39 | {60,64,68} is labelled "Caug" |
| Chord.ExampleAugmentedShape | src/renderer/src/hooks/useActiveChord.ts:38-39 | {60,64,68} has classes [0,4,8] and the augmented rule |
| Chord.ExampleSus4 | src/renderer/src/hooks/useActiveChord.ts:40-41 | {60,65,67} is labelled "Csus4" |
| Chord.ExampleSus4Shape | src/renderer/src/hooks/useActiveChord.ts:40-41 | {60,65,67} has classes [0,5,7] and the sus4 rule |
| Chord.ExampleSus2 | src/renderer/src/hooks/useActiveChord.ts:42-43 | {60,62,67} is labelled "Csus2" |
| Chord.ExampleSus2Shape | src/renderer/src/hooks/useActiveChord.ts:42-43 | {60,62,67} has classes [0,2,7] and the sus2 rule |
| Chord.ExamplePower | src/renderer/src/hooks/useActiveChord.ts:44 | {60,67} is labelled "C5" |
| Chord.ExamplePowerShape | src/renderer/src/hooks/useActiveChord.ts:44 | {60,67} has classes [0,7] and the power-chord rule |
| Chord.ExampleMajor7AsMajor | src/renderer/src/hooks/useActiveChord.ts:26-36 | {60,64,67,71} is labelled "C", not "Cmaj7" |
| Chord.ExampleMajor7AsMajorShape | src/renderer/src/hooks/useActiveChord.ts:26-36 | {60,64,67,71} has classes [0,4,7,11] and hits the major rule first |
| Chord.ExampleInversion | src/renderer/src/hooks/useActiveChord.ts:19-46 | {64,67,72} is labelled "E": the lowest note picks the root and no rule matches |
| Chord.ExampleInversionShape | src/renderer/src/hooks/useActiveChord.ts:19-46 | {64,67,72} has root 4 and intervals {0,3,8} (listed [8,0,3] in pitch-class order) and no rule matches them |
| Chord.ExampleOctaves | src/renderer/src/hooks/useActiveChord.ts:14-16 | {48,60,72} (one pitch class) is labelled "C" |
| ActiveChord.FirstAnnotation | src/renderer/src/hooks/useActiveChord.ts:60-71 | none iff no beat has an annotation; otherwise the annotation of the first beat that has one |
| ActiveChord.FromAnnotation | src/renderer/src/hooks/useActiveChord.ts:63-68 | the annotation is copied verbatim, with absent strings or barre frets as empty lists |
| ActiveChord.Place | src/renderer/src/hooks/useActiveChord.ts:80-82 | placing a note keeps one entry per string |
| ActiveChord.StringsAfter | src/renderer/src/hooks/useActiveChord.ts:74-75 | the string array has one entry per string: the tuning's length, or 6 when it is empty |
| ActiveChord.LastFretOn | src/renderer/src/hooks/useActiveChord.ts:80-82 | a string's fret is -1 or the fret of a note played on it |
| ActiveChord.StringsAreLastFrets | src/renderer/src/hooks/useActiveChord.ts:78-88 | each string holds the fret of the last note on it, -1 when none, notes off the strings being ignored |
| ActiveChord.AfterOneMore | src/renderer/src/hooks/useActiveChord.ts:78-88 | one more note updates only its string and adds its MIDI number only where the tuning has an entry |
| ActiveChord.MinPositive | src/renderer/src/hooks/useActiveChord.ts:95-96 | none iff no fret is positive; otherwise the smallest positive fret |
| ActiveChord.FirstFret | src/renderer/src/hooks/useActiveChord.ts:95-96 | the first fret is the smallest positive fret, or 1 when there is none |
| ActiveChord.MidiNonNegative | src/renderer/src/hooks/useActiveChord.ts:83-85 | tuning pitches plus frets are valid MIDI numbers |
| ActiveChord.TunedCount | src/renderer/src/hooks/useActiveChord.ts:83-85 | the number of notes that have a tuning entry never exceeds the number of notes |
| ActiveChord.MidiCount | src/renderer/src/hooks/useActiveChord.ts:83-85 | one MIDI number is pushed per note on a tuned string |
| ActiveChord.Infer | src/renderer/src/hooks/useActiveChord.ts:58-100 | a shown chord is replaced but never cleared, and an annotation on any beat always yields a chord of that name |
| ActiveChord.AnnotationWins | src/renderer/src/hooks/useActiveChord.ts:60-71 | when a beat carries an annotation, the first one becomes the chord and nothing is classified |
| ActiveChord.FewNotesKeepPrevious | src/renderer/src/hooks/useActiveChord.ts:90-93 | fewer than two MIDI notes leave the previous chord in place |
| ActiveChord.EmptyTuningKeepsPrevious | src/renderer/src/hooks/useActiveChord.ts:74-93 | with no tuning no MIDI note is produced, so the previous chord stays |
| ActiveChord.EmptyTuningCount | src/renderer/src/hooks/useActiveChord.ts:83-85 | no note has a tuning entry when the tuning is empty |
| ActiveChord.ClassifiedShape | src/renderer/src/hooks/useActiveChord.ts:95-99 | a classified chord is named by detectChordName of the notes' MIDI numbers, has one entry per string, each the last fret played there or -1, a first fret equal to the lowest positive fret of those strings (1 when none), and no barres |
| ActiveChord.UnisonIsAChord | src/renderer/src/hooks/useActiveChord.ts:90-99 | open high E with the B string at fret 5 (the same pitch twice) gives the chord "E" |
| ActiveChord.UnisonName | src/renderer/src/hooks/useActiveChord.ts:14-16 | two equal MIDI numbers 64 are named "E" |
| ActiveChord.PlaceNotes | src/renderer/src/hooks/useActiveChord.ts:78-88 | the nested loop fills the string array in place and pushes the MIDI list as the note-by-note specification says |
| ActiveChord.BuildShape | src/renderer/src/hooks/useActiveChord.ts:74-88 | the strings array and MIDI list built over all active beats equal the specification over the flattened notes |
| ActiveChord.ChordTracker.constructor | src/renderer/src/hooks/useActiveChord.ts:53 | no chord at first |
| ActiveChord.ChordTracker.OnActiveBeatsChanged | src/renderer/src/hooks/useActiveChord.ts:58-100 | the new chord is the inference from the previous chord, the beats and the tuning |
| Beats.FlattenAppend | src/renderer/src/hooks/useFretboard.ts:40-44 | flattening two runs of beats is flattening each in turn |
| Beats.FlattenSnoc | src/renderer/src/hooks/useFretboard.ts:40-44 | one more beat appends exactly its notes |
| Beats.FlattenMembers | src/renderer/src/hooks/useFretboard.ts:40-44 | a note is collected iff some beat has it |
| Beats.StringCount | src/renderer/src/hooks/useFretboard.ts:32 | the string count is the tuning's length, or 6 when the tuning is empty |
| FretboardHook.MidiToNoteName | src/renderer/src/hooks/useFretboard.ts:18-20 | a name is a pitch-class name followed by at least one octave character (NoteNameRoundTrip reads it back) |
| FretboardHook.NameIndexFrom | src/renderer/src/hooks/useFretboard.ts:16 | a found index names the given note |
| FretboardHook.NameIndexOfName | src/renderer/src/hooks/useFretboard.ts:16 | each note name is found at its own index |
| FretboardHook.NameShape | src/renderer/src/hooks/useFretboard.ts:16 | a note name has one or two characters, the second being '#' |
| FretboardHook.NoteNameRoundTrip | src/renderer/src/hooks/useFretboard.ts:18-20 | a note name and octave parse back to the MIDI number they were made from |
| FretboardHook.NoteNameInjective | src/renderer/src/hooks/useFretboard.ts:18-20 | distinct MIDI numbers get distinct names |
| FretboardHook.MiddleC | src/renderer/src/hooks/useFretboard.ts:18-20 | 60 is named "C4" |
| FretboardHook.LowE | src/renderer/src/hooks/useFretboard.ts:18-20 | 40 is named "E2" |
| FretboardHook.TuningOf | src/renderer/src/hooks/useFretboard.ts:30-31 | the tuning is that of the first staff of the first selected track; no selected track, or one without a staff, gives the empty tuning |
| FretboardHook.FretboardFollowsPlainClick | src/renderer/src/hooks/useFretboard.ts:30-33 | after a plain click the tuning and string count are the clicked track's (six strings without one) |
| FretboardHook.CollectNotes | src/renderer/src/hooks/useFretboard.ts:39-44 | the nested loop collects every note of every beat, in order |
| FretboardHook.FretboardFeed.constructor | src/renderer/src/hooks/useFretboard.ts:26 | no active notes at first |
| FretboardHook.FretboardFeed.OnActiveBeatsChanged | src/renderer/src/hooks/useFretboard.ts:38-46 | the active notes are replaced by the beats' notes, nothing filtered: a note is active iff some beat has it |
| Fretboard.SingleMarkerFrets | src/renderer/src/components/Fretboard.tsx:11-12 | single markers are listed exactly at frets 3, 5, 7, 9 and 15 |
| Fretboard.NoteCircles | src/renderer/src/components/Fretboard.tsx:156-180 | exactly one circle per active note, in input order, each at its note's place |
| Fretboard.NoteXPlacement | src/renderer/src/components/Fretboard.tsx:161-164 | the open position is at x 39, fret f ≥ 1 at 17 + 50f, strictly increasing, right of the open position and between its two fret lines |
| Fretboard.RowInversion | src/renderer/src/components/Fretboard.tsx:159-160 | string 1 is the bottom row, the last string row 0, and no two strings share a row |
| Fretboard.LabelMatchesNotes | src/renderer/src/components/Fretboard.tsx:100-115 | a string's label row reads the tuning entry of that same string, so labels and circles line up |
| Fretboard.CircleInsideBoard | src/renderer/src/components/Fretboard.tsx:153-164 | the board is 42 + 50·frets wide and 20·(strings-1) + 32 high, and every circle lies inside it |
| Fretboard.FretLines | src/renderer/src/components/Fretboard.tsx:38-51 | one fret line per fret and the nut, evenly spaced by the fret width |
| Fretboard.MarkerAt | src/renderer/src/components/Fretboard.tsx:55-67 | a fret gets at most one marker: single at 3, 5, 7, 9, 15, double at 12, none elsewhere |
| Fretboard.MarkersOrdered | src/renderer/src/components/Fretboard.tsx:55-67 | markers lie on frets 1..n in strictly increasing order |
| Fretboard.MarkersPlaced | src/renderer/src/components/Fretboard.tsx:55-67 | a single marker appears iff its fret is a single-marker fret on the board, a double one iff the fret is 12 and on the board |
| Fretboard.FretMarkers | src/renderer/src/components/Fretboard.tsx:55-67 | the marker loop produces exactly the specified markers |
| Fretboard.FretNumbers | src/renderer/src/components/Fretboard.tsx:119-135 | the fret numbers are exactly the odd frets on the board, ascending |
| Fretboard.RowLabel | src/renderer/src/components/Fretboard.tsx:100-115 | the label built for a row sits on that row |
| Fretboard.LabelsBelowOrdered | src/renderer/src/components/Fretboard.tsx:100-115 | the labels of the first rows are in strictly increasing row order below the bound |
| Fretboard.LabelsBelowNamed | src/renderer/src/components/Fretboard.tsx:100-115 | every label names the tuning entry of its row's string |
| Fretboard.LabelsBelowCover | src/renderer/src/components/Fretboard.tsx:100-115 | every row whose string has a tuning entry gets a label |
| Fretboard.StringLabels | src/renderer/src/components/Fretboard.tsx:100-115 | one label per row whose string is tuned, top to bottom, each naming its own string's pitch; rows without an entry get none |
| ChordDiagram.Size | src/renderer/src/components/ChordDiagram.tsx:20-21 | the box is 40 + 16·(strings-1) wide and 166 high |
| ChordDiagram.BaseFret | src/renderer/src/components/ChordDiagram.tsx:23-24 | the window starts at fret 1 iff the first fret is at most 1, else at the first fret |
| ChordDiagram.HeaderCases | src/renderer/src/components/ChordDiagram.tsx:45-71 | the nut is drawn iff the first fret is at most 1; a fret number is drawn only away from the nut and it is the first fret |
| ChordDiagram.MarkCases | src/renderer/src/components/ChordDiagram.tsx:138-183 | -1 gives an X, 0 an open circle, any other fret a dot iff its window row is 1 to 5, else nothing |
| ChordDiagram.DotInsideGrid | src/renderer/src/components/ChordDiagram.tsx:170-172 | a dot sits mid-row, strictly inside the grid |
| ChordDiagram.MarkLimit | src/renderer/src/components/ChordDiagram.tsx:134 | marks are produced for no more strings than both the string count and the array length |
| ChordDiagram.MarksBounded | src/renderer/src/components/ChordDiagram.tsx:134-183 | at most one mark per string, and only for strings below the limit |
| ChordDiagram.BarreExtentSpec | src/renderer/src/components/ChordDiagram.tsx:111-118 | the barre spans from the leftmost to the rightmost string holding its fret; with none, from numStrings-1 to 0 |
| ChordDiagram.BarreExtent | src/renderer/src/components/ChordDiagram.tsx:111-118 | the scan loop finds the extent the specification gives |
| ChordDiagram.BarresInWindow | src/renderer/src/components/ChordDiagram.tsx:106-130 | a barre is drawn iff its fret lies in the window, at most one per barre fret |
| ChordDiagram.FretLinesOf | src/renderer/src/components/ChordDiagram.tsx:74-87 | six fret lines, 22 units apart, below the nut |
| ChordDiagram.StringLinesOf | src/renderer/src/components/ChordDiagram.tsx:89-103 | one vertical line per string, 16 units apart |
| ChordDiagram.GridLines | src/renderer/src/components/ChordDiagram.tsx:74-103 | the drawing holds exactly 6 fret lines and one string line per string |
| ChordDiagram.Barres | src/renderer/src/components/ChordDiagram.tsx:106-131 | the barre loop draws exactly the specified barres, in order |
| ChordDiagram.Marks | src/renderer/src/components/ChordDiagram.tsx:134-184 | the mark loop draws exactly the specified marks, in string order |
| ChordDiagram.Render | src/renderer/src/components/ChordDiagram.tsx:16-191 | the pushed elements are the name, the header, the grid, the barres and the marks, as the drawing function states |
| Projects.WithoutPath | src/renderer/src/hooks/useProjects.ts:44 | the filter keeps exactly the entries with another path |
| Projects.WithoutPathAppend | src/renderer/src/hooks/useProjects.ts:44 | the filter keeps the order of what it keeps |
| Projects.WithoutAbsentPath | src/renderer/src/hooks/useProjects.ts:44 | a list without the path is unchanged |
| Projects.AddProject | src/renderer/src/hooks/useProjects.ts:42-48 | the new entry comes first, followed by every other entry in its old order |
| Projects.AddProjectCounts | src/renderer/src/hooks/useProjects.ts:44-45 | after adding, exactly one entry has the path and the list grows by one iff the path was new |
| Projects.AddNewProject | src/renderer/src/hooks/useProjects.ts:44-45 | a new path is simply put in front |
| Projects.RemoveProject | src/renderer/src/hooks/useProjects.ts:51-57 | removing keeps exactly the entries with another path |
| Projects.CountPath | src/renderer/src/hooks/useProjects.ts:44 | the count is zero iff no entry has the path |
| Projects.WithoutPathLength | src/renderer/src/hooks/useProjects.ts:44 | the filter removes exactly the entries with the path |
| Projects.RemoveIdempotent | src/renderer/src/hooks/useProjects.ts:51-57 | removing twice is removing once and leaves no entry for the path |
| Projects.RemoveAfterAdd | src/renderer/src/hooks/useProjects.ts:42-57 | removing what was just added leaves the old list without that path |
| Projects.EntryOf | src/renderer/src/hooks/useProjects.ts:17-24 | an element is an entry iff it is an object with string filePath and fileName and numeric addedAt |
| Projects.KeepEntries | src/renderer/src/hooks/useProjects.ts:17-24 | the type filter never adds elements |
| Projects.KeepEntriesAppend | src/renderer/src/hooks/useProjects.ts:17-24 | the filter keeps the order of what it keeps |
| Projects.KeepEntriesMembers | src/renderer/src/hooks/useProjects.ts:17-24 | an entry is loaded iff a stored element stands for it |
| Projects.LoadProjects | src/renderer/src/hooks/useProjects.ts:11-28 | nothing stored, unparsable text or a non-array gives the empty list; an array gives its well-formed entries |
| Projects.Encode | src/renderer/src/hooks/useProjects.ts:30-32 | saving writes one object per entry, in order |
| Projects.LoadSaveRoundTrip | src/renderer/src/hooks/useProjects.ts:11-32 | a saved list loads back unchanged |
| Projects.LoadSkipsMalformed | src/renderer/src/hooks/useProjects.ts:17-24 | a malformed element is skipped and the entries around it keep their order |
| Projects.ProjectStore.constructor | src/renderer/src/hooks/useProjects.ts:40 | the initial list is what the storage key loads to |
| Projects.ProjectStore.Add | src/renderer/src/hooks/useProjects.ts:42-48 | the list becomes addProject's result and is persisted so that it loads back |
| Projects.ProjectStore.Remove | src/renderer/src/hooks/useProjects.ts:51-57 | the list becomes removeProject's result and is persisted so that it loads back |
| AlphaTab.WithoutIndex | src/renderer/src/hooks/useAlphaTab.ts:163-165 | the filter keeps exactly the tracks with another index, and a list without that index is unchanged |
| AlphaTab.NewSelection | src/renderer/src/hooks/useAlphaTab.ts:157-179 | a click never empties the selection and never brings in a track other than the clicked one |
| AlphaTab.NewSelectionCases | src/renderer/src/hooks/useAlphaTab.ts:157-179 | never empty; without append exactly [track]; appending an unselected track adds it last; appending a selected one removes it, or gives [track] when nothing would remain |
| AlphaTab.AppendToggleTwice | src/renderer/src/hooks/useAlphaTab.ts:163-170 | appending an unselected track twice restores the selection |
| AlphaTab.WithoutIndexAppend | src/renderer/src/hooks/useAlphaTab.ts:163-165 | removing a just-appended track's index gives back the earlier selection |
| AlphaTab.WithoutIndexAll | src/renderer/src/hooks/useAlphaTab.ts:163-168 | removing the index every track has leaves nothing, which is why the fallback is needed |
| AlphaTab.WithProgram | src/renderer/src/hooks/useAlphaTab.ts:197-207 | only the tracks with the given index change program; everything else stays |
| AlphaTab.Player.constructor | src/renderer/src/hooks/useAlphaTab.ts:56-64 | the initial state: no score, no tracks or selection, tempo 1.0, not playing |
| AlphaTab.Player.Stop | src/renderer/src/hooks/useAlphaTab.ts:140-142 | with an engine playback stops; without one nothing changes |
| AlphaTab.Player.PlayPause | src/renderer/src/hooks/useAlphaTab.ts:136-138 | with an engine playback toggles |
| AlphaTab.Player.SetTempo | src/renderer/src/hooks/useAlphaTab.ts:144-149 | the state tempo and (with an engine) the player speed both become the value |
| AlphaTab.Player.SetPlaybackRange | src/renderer/src/hooks/usePracticeMode.ts:101 | the player's range becomes the given one |
| AlphaTab.Player.SetLooping | src/renderer/src/hooks/usePracticeMode.ts:102 | the player's looping flag becomes the given one |
| AlphaTab.Player.SetCountIn | src/renderer/src/hooks/usePracticeMode.ts:104 | the player's count-in becomes the given volume |
| AlphaTab.Player.LoadFile | src/renderer/src/hooks/useAlphaTab.ts:130-134 | with an engine the data is loaded; without one nothing changes |
| AlphaTab.Player.ScoreLoaded | src/renderer/src/hooks/useAlphaTab.ts:91-97 | tracks are copied and the selection resets to the first track only when there are tracks |
| AlphaTab.Player.SelectTrack | src/renderer/src/hooks/useAlphaTab.ts:157-179 | without an engine nothing changes; otherwise the selection is the new one and exactly it is rendered |
| AlphaTab.Player.ChangeTrackProgram | src/renderer/src/hooks/useAlphaTab.ts:197-207 | nothing without an engine or a score; otherwise that track's program changes in the list, the selection, the render and the score |
| App.TempoUp | src/renderer/src/App.tsx:151-154 | the up key adds 0.05 but never goes above 2 |
| App.TempoDown | src/renderer/src/App.tsx:155-158 | the down key subtracts 0.05 but never goes below 0.25 |
| App.TempoKeys | src/renderer/src/App.tsx:151-158 | the keys keep a tempo in [0.25, 2]; away from the ends one undoes the other |
| App.TempoKeysRepeated | src/renderer/src/App.tsx:151-158 | any sequence of tempo key presses from a tempo in range stays in range |
| App.NextIndex | src/renderer/src/App.tsx:171-176 | the next track index is the following one, wrapping from the last to the first |
| App.PrevIndex | src/renderer/src/App.tsx:177-182 | the previous track index is the preceding one, wrapping from the first to the last |
| App.TrackCycle | src/renderer/src/App.tsx:171-182 | next then previous (or previous then next) returns to the same track |
| App.Title | src/renderer/src/App.tsx:202-207 | without a file name the title is the app's name; otherwise it starts with the file name and ends with " — Guitar Tab Reader" |
| App.DirtyMarkShows | src/renderer/src/App.tsx:203-205 | a dirty file's title differs from the clean one by exactly the " •" mark after the name |
| App.AppState.constructor | src/renderer/src/App.tsx:33-38 | no file, clean, no failing paths, practice panel closed |
| App.AppState.FileOpened | src/renderer/src/App.tsx:42-55 | the file becomes the open one and is registered; its path stops failing and other failing paths stay |
| App.AppState.ProjectSelected | src/renderer/src/App.tsx:57-71 | re-selecting the open file does nothing; a failed read marks the path and opens nothing; a successful one opens and loads the file and clears the dirty flag |
| App.AppState.ProjectRemoved | src/renderer/src/App.tsx:73-84 | the path leaves both the project list and the failing set |
| App.AppState.FileDropped | src/renderer/src/App.tsx:86-93 | a dropped file becomes the open file under the dropped name and path, is registered first in the persisted project list, leaves the failing set, is loaded when the engine exists, and is clean |
| App.AppState.PracticePanelKey | src/renderer/src/App.tsx:190-194 | Ctrl/Cmd+L (`handleTogglePracticeMode`, App.tsx:99-101) flips whether the practice panel is open |
| App.AppState.OpenShortcut | src/renderer/src/App.tsx:126-135 | a cancelled dialog changes nothing; a chosen file is opened, loaded and clean |
| App.AppState.SaveShortcut | src/renderer/src/App.tsx:138-148 | the dirty flag clears exactly when a score and a path exist and the write succeeds |
| App.AppState.TempoKey | src/renderer/src/App.tsx:151-158 | the tempo key sets the player tempo to the clamped step and keeps it in range |
| App.AppState.TrackKey | src/renderer/src/App.tsx:171-182 | with tracks and the engine present, the next or previous track (cyclically) alone is selected and rendered; with no tracks or no engine the selection and the rendered tracks stay as they were |
| App.AppState.SpaceKey | src/renderer/src/App.tsx:118-123 | space toggles playback only outside text fields, with a score loaded and the player ready |
| App.AppState.WindowTitle | src/renderer/src/App.tsx:202-207 | without an open file the title is the app's name |
| Resizable.InitialWidth | src/renderer/src/hooks/useResizable.ts:11-20 | the stored width is used only when it is a number within the bounds, else the default |
| Resizable.Clamp | src/renderer/src/hooks/useResizable.ts:41 | the clamped width never exceeds the maximum, is at least the minimum when the bounds are ordered, and keeps a width already in bounds |
| Resizable.ClampProperties | src/renderer/src/hooks/useResizable.ts:41 | clamping is idempotent and order-preserving |
| Resizable.Panel.constructor | src/renderer/src/hooks/useResizable.ts:11-24 | mounting reads the stored width and starts not dragging |
| Resizable.Panel.MouseDown | src/renderer/src/hooks/useResizable.ts:26-35 | a drag starts and records the pointer position and the current width |
| Resizable.Panel.MouseMove | src/renderer/src/hooks/useResizable.ts:38-43 | ignored unless dragging; otherwise the start width plus the pointer's travel, clamped, so it stays in bounds |
| Resizable.Panel.MouseUp | src/renderer/src/hooks/useResizable.ts:45-53 | ignored unless dragging; otherwise the drag ends and the unchanged width is stored so the next mount reads it back |
| Resizable.Drag | src/renderer/src/hooks/useResizable.ts:26-53 | a whole drag ends in bounds at a width fixed by the last pointer position only, and that width is what the next mount reads |
| TrackPanel.MapKeys | src/renderer/src/components/TrackPanel.tsx:89-95 | the map's keys are exactly the listed programs |
| TrackPanel.MapOfUnique | src/renderer/src/components/TrackPanel.tsx:89-95 | with unique programs every entry's program maps to its own name |
| TrackPanel.BuildProgramNameMap | src/renderer/src/components/TrackPanel.tsx:90-95 | the nested loop builds the map the specification gives |
| TrackPanel.InstrumentName | src/renderer/src/components/TrackPanel.tsx:97-99 | a listed program shows the table's name; an unlisted one "Program " and its number |
| TrackPanel.FallbackNameRoundTrip | src/renderer/src/components/TrackPanel.tsx:97-99 | the fallback name gives the program number back |
| TrackPanel.AscendingIsUnique | src/renderer/src/components/TrackPanel.tsx:23-87 | ascending programs are unique |
| TrackPanel.TableAscending | src/renderer/src/components/TrackPanel.tsx:23-87 | the table lists its programs in strictly increasing order across all groups, so none is overwritten |
| TrackPanel.TableLookup | src/renderer/src/components/TrackPanel.tsx:89-99 | every listed program shows its own table name |
| TrackPanel.UnlistedProgram | src/renderer/src/components/TrackPanel.tsx:97-99 | a program the table lacks shows as "Program " and its number |
| TrackPanel.TableExamples | src/renderer/src/components/TrackPanel.tsx:27-36 | program 0 is "Acoustic Grand Piano" and 24 is "Nylon Guitar" |
| TrackPanel.ShowsSelected | src/renderer/src/components/TrackPanel.tsx:154 | a track shows as selected iff some selected track has its index |
| TrackPanel.TrackClicked | src/renderer/src/components/TrackPanel.tsx:107-113 | a click appends iff Meta or Ctrl is held; a plain click selects only that track; with the engine present the new selection is rendered, and without it the selection and the rendered tracks stay as they were |
| Theme.ThemeName | src/renderer/src/contexts/ThemeContext.tsx:3 | a theme is stored as "light" or "dark" |
| Theme.ParseTheme | src/renderer/src/contexts/ThemeContext.tsx:18 | a stored text names a theme iff it is "light" or "dark" |
| Theme.ThemeNameRoundTrip | src/renderer/src/contexts/ThemeContext.tsx:18-33 | a stored theme reads back as itself |
| Theme.InitialTheme | src/renderer/src/contexts/ThemeContext.tsx:15-25 | a stored theme wins; otherwise light iff the system prefers light |
| Theme.Toggled | src/renderer/src/contexts/ThemeContext.tsx:45-47 | toggling always changes the theme |
| Theme.ToggleTwice | src/renderer/src/contexts/ThemeContext.tsx:45-47 | toggling twice restores the theme |
| Theme.StoredThemeWins | src/renderer/src/contexts/ThemeContext.tsx:15-25 | a stored theme is chosen whatever the system prefers |
| Theme.ThemeState.constructor | src/renderer/src/contexts/ThemeContext.tsx:28 | the initial theme is the one getInitialTheme decides |
| Theme.ThemeState.Apply | src/renderer/src/contexts/ThemeContext.tsx:30-35 | the document shows the theme, and storage holds it when writes succeed |
| Theme.ThemeState.Mount | src/renderer/src/contexts/ThemeContext.tsx:50-56 | mounting applies and persists the initial theme |
| Theme.ThemeState.SetTheme | src/renderer/src/contexts/ThemeContext.tsx:37-43 | the state, the document and (when writable) storage all take the theme |
| Theme.ThemeState.ToggleTheme | src/renderer/src/contexts/ThemeContext.tsx:45-47 | the other theme is set on the state and the document; storage gets its name when writable and is otherwise untouched, so the next start reads it whatever the system prefers |
| Theme.ThemeState.SystemChange | src/renderer/src/contexts/ThemeContext.tsx:59-66 | a system change is followed (state, document and, when writable, storage) only when no theme is stored; otherwise nothing changes |
| Theme.MountThenSystemChange | src/renderer/src/contexts/ThemeContext.tsx:50-66 | once mounted with working storage, system changes are ignored |
| MainIpc.AfterLast | src/main/index.ts:62-63 | `split(c).pop()` is the suffix after the last c, containing no c |
| MainIpc.AfterLastNone | src/main/index.ts:62-63 | a string without c comes back whole |
| MainIpc.AfterLastEmpty | src/main/index.ts:62-63 | the result is empty iff the string is empty or ends with c |
| MainIpc.AfterLastTail | src/main/index.ts:62-63 | whatever precedes the last c does not matter |
| MainIpc.FileNameOf | src/main/index.ts:62-63 | the empty path is "Unknown"; any other path is named by a non-empty tail of itself |
| MainIpc.UnknownOnlyForEmpty | src/main/index.ts:62-63 | both splits are empty, so "Unknown" is used, iff the path is empty |
| MainIpc.NoSlashKeepsWholePath | src/main/index.ts:62-63 | a path without '/' is its own name, backslashes included |
| MainIpc.SlashPathName | src/main/index.ts:62-63 | a path with a final segment after its last '/' is named by that segment |
| MainIpc.BackslashOnlyAfterTrailingSlash | src/main/index.ts:62-63 | the backslash split is used only for paths ending in '/', and then the name ends in '/' |
| MainIpc.ReadPath | src/main/index.ts:103-116 | FILE_NOT_FOUND iff the path does not exist, READ_ERROR iff reading throws, otherwise the data, the path and its name |
| MainIpc.OpenFile | src/main/index.ts:57-67 | null iff cancelled or nothing chosen; otherwise the first file with its name |
| MainIpc.SaveFile | src/main/index.ts:81-86 | false iff cancelled or without a path |
| Text.NatToString | src/renderer/src/components/TrackPanel.tsx:98 | decimal digits without a leading zero |
| Text.IntToString | src/renderer/src/components/TrackPanel.tsx:98 | a minus sign iff the number is negative |
| Text.ParseNatToString | src/renderer/src/components/TrackPanel.tsx:98 | printed digits read back as the number |
| Text.IntToStringRoundTrip | src/renderer/src/components/TrackPanel.tsx:98 | a printed integer reads back as itself |
| Text.IntToStringInjective | src/renderer/src/components/TrackPanel.tsx:98 | distinct integers print differently |

## Left out

- Rendering: JSX, SVG attributes, CSS, the renderer-only components, the toolbar's slider forwarding, zoom, fullscreen and export. Only the integer geometry and element lists are modelled.
- The score engine: loading, rendering, synthesis, export and theme colours. It appears only as the property record `AlphaTab.Player`. Mute, solo, volume and stave profile are not part of that record.
- Floating point: tempo and tempo increment are whole hundredths. An increment typed with more than two decimals is not representable. Zoom (an unclamped ±0.1 step) is left out.
- Time and scheduling:
  - the 50 ms timer of `startLoop` is a counter of deferred plays, consumed by `FireDeferredPlay`;
  - React's batching, effect dependency lists and the lag of `loopTempoRef` behind the state are not modelled;
  - handlers run one after another;
  - subscribing and unsubscribing the engine events is reduced to a guard on the engine's presence.
- Projects.ProjectStore.Add, Projects.ProjectStore.Remove: always persist the new list. In the source, `saveProjects` (useProjects.ts:30-32) calls `localStorage.setItem` without a try/catch, unlike the theme's writes. A write that throws (quota exceeded, storage disabled) would escape the handler after the state update; that is not modelled.
- Resizable: widths and pointer positions are whole pixels. In the source, the stored width read back with `Number()` (useResizable.ts:14) and the mouse's `clientX` (useResizable.ts:30, 40) may be fractional; fractional widths are not modelled.
- Storage, dialogs, the file system, IPC, `JSON.parse`, `Number()` and `Date.now()`:
  - these are parameters: the parsed JSON value, a dialog's answer, whether the path exists, the bytes read, whether the write throws, the current time;
  - JSON numbers are integers;
  - extra fields of a stored entry are dropped on load.
- The save dialog's and open dialog's own reads and writes throwing are not modelled. Only the branches that the handlers' results show are modelled.
- Keyboard decoding beyond the conditions the handlers test: the focused element's tag, a score being present and the player being ready.
- ActiveChord.Infer, ActiveChord.ChordTracker.OnActiveBeatsChanged, Chord.DetectChordName, FretboardHook.MidiToNoteName, Fretboard.StringLabels: require non-negative MIDI numbers and frets. Negative values, which the source would index with a negative remainder, are not modelled.
- PracticePanel.StartBarValue, PracticePanel.EndBarValue, PracticeMode.TickRangeOf: bar numbers are integers. A fractional entry such as 2.5 is not modelled. The source would store it as is, and `getTickRange` would then index `masterBars` with a fraction, get `undefined` and throw on reading its start.
- Chord.Intervals: the intervals are kept in pitch-class order, so the source's sort of them is not modelled. The rules only test membership (`has`), so the order never changes a label.
- TrackPanel: the program chosen in the select box arrives as an integer. Its `Number(value)` parsing is not modelled.
- FretboardHook: the hook returns a copy of the tuning, and its event subscription is removed on cleanup. Neither is modelled; the tuning is a value here.
- PracticeMode.PracticeSession.PlayerFinished: the event subscription, which exists only while the engine is present and the session is active, becomes a guard at the head of the method. The tempo read is the loop tempo cell itself, not a lagging ref.
