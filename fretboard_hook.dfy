/**
 * `useFretboard`: the note name of a MIDI number, the tuning and string
 * count of the first selected track, and the list of sounding notes that
 * each `activeBeatsChanged` event replaces.
 */
module FretboardHook {
  import opened Wrappers
  import opened Text
  import opened Beats
  import opened AlphaTab

  /** The fretboard always shows 22 frets. */
  const NUM_FRETS := 22

  /** `midiToNoteName`: the pitch-class name followed by the octave, `floor(m / 12) - 1`. */
  function MidiToNoteName(m: int): (s: string)
    requires m >= 0
    ensures |s| >= 2
  {
    NOTE_NAMES[m % 12] + IntToString(m / 12 - 1)
  }

  /** The position of `name` among the pitch-class names, searching from `k`. */
  function NameIndexFrom(name: string, k: nat): (r: Option<nat>)
    requires k <= 12
    ensures r.Some? ==> k <= r.value < 12 && NOTE_NAMES[r.value] == name
    decreases 12 - k
  {
    if k == 12 then None
    else if NOTE_NAMES[k] == name then Some(k)
    else NameIndexFrom(name, k + 1)
  }

  predicate IntText(s: string) {
    |s| >= 1 && (if s[0] == '-' then AllDigits(s[1..]) else AllDigits(s))
  }

  /**
   * Reads a note name such as "C4" or "F#-1" back into its MIDI number:
   * a pitch-class name (two characters when the second is '#') followed by
   * a decimal octave.
   */
  function ParseNoteName(s: string): Option<int> {
    if |s| == 0 then None
    else
      var len := if |s| >= 2 && s[1] == '#' then 2 else 1;
      match NameIndexFrom(s[..len], 0)
      case None => None
      case Some(k) =>
        if IntText(s[len..]) then Some(12 * (ParseInt(s[len..]) + 1) + k) else None
  }

  /** Every pitch-class name is found at its own index. */
  lemma NameIndexOfName(k: nat)
    requires k < 12
    ensures NameIndexFrom(NOTE_NAMES[k], 0) == Some(k)
  {
    if k == 0 {} else if k == 1 {} else if k == 2 {} else if k == 3 {}
    else if k == 4 {} else if k == 5 {} else if k == 6 {} else if k == 7 {}
    else if k == 8 {} else if k == 9 {} else if k == 10 {} else {}
  }

  /** Names are one letter, or a letter and '#'. */
  lemma NameShape(k: nat)
    requires k < 12
    ensures 1 <= |NOTE_NAMES[k]| <= 2
    ensures |NOTE_NAMES[k]| == 2 ==> NOTE_NAMES[k][1] == '#'
  {
    if k == 0 {} else if k == 1 {} else if k == 2 {} else if k == 3 {}
    else if k == 4 {} else if k == 5 {} else if k == 6 {} else if k == 7 {}
    else if k == 8 {} else if k == 9 {} else if k == 10 {} else {}
  }

  /** A note name determines its MIDI number: reading it back gives the number. */
  lemma NoteNameRoundTrip(m: int)
    requires m >= 0
    ensures ParseNoteName(MidiToNoteName(m)) == Some(m)
  {
    var k := m % 12;
    var octave := IntToString(m / 12 - 1);
    var s := MidiToNoteName(m);
    NameShape(k);
    NameIndexOfName(k);
    IntToStringRoundTrip(m / 12 - 1);
    var len := |NOTE_NAMES[k]|;
    assert s == NOTE_NAMES[k] + octave;
    if len == 1 {
      assert s[1] == octave[0];
      assert octave[0] == '-' || IsDigit(octave[0]);
    }
    assert s[..len] == NOTE_NAMES[k];
    assert s[len..] == octave;
  }

  /** Different MIDI numbers get different names. */
  lemma NoteNameInjective(m: int, n: int)
    requires m >= 0 && n >= 0
    requires MidiToNoteName(m) == MidiToNoteName(n)
    ensures m == n
  {
    NoteNameRoundTrip(m);
    NoteNameRoundTrip(n);
  }

  /** Middle C is "C4". */
  lemma MiddleC(m: int)
    requires m == 60
    ensures MidiToNoteName(m) == "C4"
  {
    assert m % 12 == 0 && m / 12 - 1 == 4;
  }

  /** The open low E string of a guitar is "E2". */
  lemma LowE(m: int)
    requires m == 40
    ensures MidiToNoteName(m) == "E2"
  {
    assert m % 12 == 4 && m / 12 - 1 == 2;
  }

  /** The tuning of the first staff of the first selected track, or none. */
  function TuningOf(selected: seq<Track>): (tuning: seq<int>)
    ensures selected == [] || selected[0].staves == [] ==> tuning == []
    ensures selected != [] && selected[0].staves != [] ==> tuning == selected[0].staves[0].tuning
  {
    if selected != [] && selected[0].staves != [] then selected[0].staves[0].tuning else []
  }

  /** After a plain click, the fretboard shows the clicked track's strings (six when it has no staff). */
  lemma FretboardFollowsPlainClick(selected: seq<Track>, track: Track)
    ensures var tuning := TuningOf(NewSelection(selected, track, false));
      && tuning == (if track.staves != [] then track.staves[0].tuning else [])
      && StringCount(tuning) == (if track.staves != [] && track.staves[0].tuning != [] then |track.staves[0].tuning| else 6)
  {
  }

  /** The handler's nested loops: every note of every beat, in order. */
  method CollectNotes(beats: seq<Beat>) returns (notes: seq<Note>)
    ensures notes == Flatten(beats)
  {
    notes := [];
    var b := 0;
    while b < |beats|
      invariant 0 <= b <= |beats|
      invariant notes == Flatten(beats[..b])
    {
      var j := 0;
      while j < |beats[b].notes|
        invariant 0 <= j <= |beats[b].notes|
        invariant notes == Flatten(beats[..b]) + beats[b].notes[..j]
      {
        notes := notes + [beats[b].notes[j]];
        j := j + 1;
      }
      assert beats[b].notes[..j] == beats[b].notes;
      FlattenSnoc(beats, b);
      b := b + 1;
    }
    assert beats[..b] == beats;
  }

  /** The `activeNotes` cell of the hook. */
  class FretboardFeed {
    var activeNotes: seq<Note>

    constructor ()
      ensures activeNotes == []
    {
      activeNotes := [];
    }

    /** `activeBeatsChanged`: the active notes are replaced wholesale, nothing filtered. */
    method OnActiveBeatsChanged(beats: seq<Beat>)
      modifies this
      ensures activeNotes == Flatten(beats)
      ensures forall n :: n in activeNotes <==> exists b :: 0 <= b < |beats| && n in beats[b].notes
    {
      activeNotes := CollectNotes(beats);
      forall n: Note
        ensures n in activeNotes <==> exists b :: 0 <= b < |beats| && n in beats[b].notes
      {
        FlattenMembers(beats, n);
      }
    }
  }
}
