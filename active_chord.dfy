/**
 * `useActiveChord`'s `activeBeatsChanged` handler: the chord shown for the
 * beats sounding now. An annotation in the tab wins; otherwise the notes
 * are placed on a per-string fret array and turned into MIDI numbers
 * through the tuning, and the chord is named by the classifier. With
 * fewer than two MIDI numbers the previous chord stays on screen.
 */
module ActiveChord {
  import opened Wrappers
  import opened Beats
  import opened Chord

  /** The displayed chord: per-string frets (-1 muted) and barre frets. */
  datatype Shape = Shape(name: string, firstFret: int, strings: seq<int>, barreFrets: seq<int>)

  /** The annotation of the first beat that carries one. */
  function FirstAnnotation(beats: seq<Beat>): (r: Option<ChordInfo>)
    ensures r.None? <==> forall b :: 0 <= b < |beats| ==> beats[b].chord.None?
    ensures r.Some? ==> exists b :: (0 <= b < |beats| && beats[b].chord == Some(r.value)
      && forall e :: 0 <= e < b ==> beats[e].chord.None?)
  {
    if beats == [] then None
    else if beats[0].chord.Some? then beats[0].chord
    else
      var r := FirstAnnotation(beats[1..]);
      assert forall b :: 1 <= b < |beats| ==> beats[b] == beats[1..][b - 1];
      r
  }

  /** An annotation copied as is; absent shape arrays become empty. */
  function FromAnnotation(c: ChordInfo): (s: Shape)
    ensures s.name == c.name && s.firstFret == c.firstFret
    ensures s.strings == (if c.strings.Some? then c.strings.value else [])
    ensures s.barreFrets == (if c.barreFrets.Some? then c.barreFrets.value else [])
  {
    Shape(c.name, c.firstFret, c.strings.GetOr([]), c.barreFrets.GetOr([]))
  }

  /** One note on the fret array: written at index `str - 1` when that is a string, ignored otherwise. */
  function Place(strings: seq<int>, n: Note): (r: seq<int>)
    ensures |r| == |strings|
  {
    if 0 <= n.str - 1 < |strings| then strings[n.str - 1 := n.fret] else strings
  }

  /** The fret array after the notes `ns`, starting from all strings muted. */
  function StringsAfter(ns: seq<Note>, tuning: seq<int>): (r: seq<int>)
    ensures |r| == StringCount(tuning)
  {
    if ns == [] then seq(StringCount(tuning), _ => -1)
    else Place(StringsAfter(ns[..|ns| - 1], tuning), ns[|ns| - 1])
  }

  /** The MIDI numbers the notes `ns` yield: open pitch plus fret, for notes on a string the tuning describes. */
  function MidiAfter(ns: seq<Note>, tuning: seq<int>): seq<int> {
    if ns == [] then []
    else
      var n := ns[|ns| - 1];
      var idx := n.str - 1;
      MidiAfter(ns[..|ns| - 1], tuning)
        + (if 0 <= idx < StringCount(tuning) && idx < |tuning| then [tuning[idx] + n.fret] else [])
  }

  /** The fret of the last note of `ns` on string `s + 1`, or -1 when none is. */
  function LastFretOn(ns: seq<Note>, s: int): (f: int)
    ensures f == -1 || exists i :: 0 <= i < |ns| && ns[i].str == s + 1 && ns[i].fret == f
  {
    if ns == [] then -1
    else if ns[|ns| - 1].str == s + 1 then ns[|ns| - 1].fret
    else
      var f := LastFretOn(ns[..|ns| - 1], s);
      assert forall i :: 0 <= i < |ns| - 1 ==> ns[..|ns| - 1][i] == ns[i];
      f
  }

  /** Later notes on a string overwrite earlier ones: each entry is the last fret played on that string. */
  lemma {:induction false} StringsAreLastFrets(ns: seq<Note>, tuning: seq<int>, s: int)
    requires 0 <= s < StringCount(tuning)
    ensures StringsAfter(ns, tuning)[s] == LastFretOn(ns, s)
  {
    if ns != [] {
      StringsAreLastFrets(ns[..|ns| - 1], tuning, s);
    }
  }

  /** The smallest positive fret, if any. */
  function MinPositive(strings: seq<int>): (r: Option<int>)
    ensures r.None? <==> forall i :: 0 <= i < |strings| ==> strings[i] <= 0
    ensures r.Some? ==> (r.value > 0 && r.value in strings
      && forall i :: 0 <= i < |strings| && strings[i] > 0 ==> r.value <= strings[i])
  {
    if strings == [] then None
    else
      var rest := MinPositive(strings[1..]);
      assert forall i :: 1 <= i < |strings| ==> strings[i] == strings[1..][i - 1];
      if strings[0] <= 0 then rest
      else if rest.Some? && rest.value < strings[0] then rest
      else Some(strings[0])
  }

  /** `Math.min(...strings.filter(f => f > 0))`, or 1 when no string is fretted. */
  function FirstFret(strings: seq<int>): (f: int)
    ensures f >= 1
    ensures (forall i :: 0 <= i < |strings| ==> strings[i] <= 0) ==> f == 1
    ensures (exists i :: 0 <= i < |strings| && strings[i] > 0) ==>
      f in strings && forall i :: 0 <= i < |strings| && strings[i] > 0 ==> f <= strings[i]
  {
    match MinPositive(strings)
    case None => 1
    case Some(m) => m
  }

  /** MIDI numbers are never negative when the tuning and the frets are not. */
  predicate NonNegative(xs: seq<int>) { forall i :: 0 <= i < |xs| ==> xs[i] >= 0 }

  predicate FretsNonNegative(ns: seq<Note>) { forall i :: 0 <= i < |ns| ==> ns[i].fret >= 0 }

  lemma {:induction false} MidiNonNegative(ns: seq<Note>, tuning: seq<int>)
    requires NonNegative(tuning) && FretsNonNegative(ns)
    ensures AllMidi(MidiAfter(ns, tuning))
  {
    if ns != [] {
      MidiNonNegative(ns[..|ns| - 1], tuning);
    }
  }

  /**
   * The chord shown after an event with `beats`, given the one shown before:
   * once a chord is shown it is replaced but never cleared, and an
   * annotated chord always replaces it.
   */
  function Infer(prev: Option<Shape>, beats: seq<Beat>, tuning: seq<int>): (r: Option<Shape>)
    requires NonNegative(tuning) && FretsNonNegative(Flatten(beats))
    ensures r == prev || r.Some?
    ensures FirstAnnotation(beats).Some? ==> r.Some? && r.value.name == FirstAnnotation(beats).value.name
  {
    match FirstAnnotation(beats)
    case Some(c) => Some(FromAnnotation(c))
    case None =>
      var ns := Flatten(beats);
      var midi := MidiAfter(ns, tuning);
      MidiNonNegative(ns, tuning);
      if |midi| < 2 then prev
      else
        var strings := StringsAfter(ns, tuning);
        Some(Shape(DetectChordName(midi), FirstFret(strings), strings, []))
  }

  /** Notes on strings the tuning describes (each of them yields one MIDI number). */
  function TunedCount(ns: seq<Note>, tuning: seq<int>): (c: nat)
    ensures c <= |ns|
  {
    if ns == [] then 0
    else TunedCount(ns[..|ns| - 1], tuning) + (if 0 <= ns[|ns| - 1].str - 1 < |tuning| then 1 else 0)
  }

  /** One MIDI number per note on a tuned string: duplicates are counted, not merged. */
  lemma {:induction false} MidiCount(ns: seq<Note>, tuning: seq<int>)
    ensures |MidiAfter(ns, tuning)| == TunedCount(ns, tuning)
  {
    if ns != [] {
      MidiCount(ns[..|ns| - 1], tuning);
    }
  }

  /** The first annotation wins, copied verbatim; no classification runs. */
  lemma AnnotationWins(prev: Option<Shape>, beats: seq<Beat>, tuning: seq<int>, b: nat, c: ChordInfo)
    requires NonNegative(tuning) && FretsNonNegative(Flatten(beats))
    requires b < |beats| && beats[b].chord == Some(c)
    requires forall e :: 0 <= e < b ==> beats[e].chord.None?
    ensures Infer(prev, beats, tuning) == Some(FromAnnotation(c))
  {
    var r := FirstAnnotation(beats);
    var b' :| 0 <= b' < |beats| && beats[b'].chord == Some(r.value)
      && forall e :: 0 <= e < b' ==> beats[e].chord.None?;
    assert b' == b;
  }

  /** Without an annotation, fewer than two notes on tuned strings keep the previous chord. */
  lemma FewNotesKeepPrevious(prev: Option<Shape>, beats: seq<Beat>, tuning: seq<int>)
    requires NonNegative(tuning) && FretsNonNegative(Flatten(beats))
    requires forall b :: 0 <= b < |beats| ==> beats[b].chord.None?
    requires TunedCount(Flatten(beats), tuning) < 2
    ensures Infer(prev, beats, tuning) == prev
  {
    MidiCount(Flatten(beats), tuning);
  }

  /** With an empty tuning nothing is ever classified: only an annotation can change the chord. */
  lemma EmptyTuningKeepsPrevious(prev: Option<Shape>, beats: seq<Beat>)
    requires FretsNonNegative(Flatten(beats))
    requires forall b :: 0 <= b < |beats| ==> beats[b].chord.None?
    ensures Infer(prev, beats, []) == prev
  {
    EmptyTuningCount(Flatten(beats));
    FewNotesKeepPrevious(prev, beats, []);
  }

  lemma {:induction false} EmptyTuningCount(ns: seq<Note>)
    ensures TunedCount(ns, []) == 0
  {
    if ns != [] {
      EmptyTuningCount(ns[..|ns| - 1]);
    }
  }

  /**
   * A classified chord is named by the MIDI numbers of the notes, has one
   * entry per string, each the last fret played there or -1, starts at the
   * lowest fretted position of those strings, and has no barres.
   */
  lemma ClassifiedShape(prev: Option<Shape>, beats: seq<Beat>, tuning: seq<int>)
    requires NonNegative(tuning) && FretsNonNegative(Flatten(beats))
    requires forall b :: 0 <= b < |beats| ==> beats[b].chord.None?
    requires TunedCount(Flatten(beats), tuning) >= 2
    ensures var r := Infer(prev, beats, tuning);
      && r.Some? && |r.value.strings| == StringCount(tuning) && r.value.barreFrets == []
      && (MidiNonNegative(Flatten(beats), tuning); r.value.name == DetectChordName(MidiAfter(Flatten(beats), tuning)))
      && r.value.firstFret == FirstFret(r.value.strings) && r.value.firstFret >= 1
      && forall s :: 0 <= s < StringCount(tuning) ==> r.value.strings[s] == LastFretOn(Flatten(beats), s)
  {
    MidiCount(Flatten(beats), tuning);
    forall s | 0 <= s < StringCount(tuning) {
      StringsAreLastFrets(Flatten(beats), tuning, s);
    }
  }

  /**
   * One pitch sounded on two strings is enough for a chord: the count is
   * of MIDI numbers, not distinct pitches. Open high E and the B string
   * at fret 5 both give E4, and the label is "E".
   */
  lemma UnisonIsAChord(beats: seq<Beat>, tuning: seq<int>)
    requires tuning == [64, 59, 55, 50, 45, 40]
    requires beats == [Beat(None, [Note(1, 0), Note(2, 5)])]
    ensures Infer(None, beats, tuning).Some?
    ensures Infer(None, beats, tuning).value.name == "E"
  {
    UnisonMidi(beats, tuning);
    UnisonName([64, 64]);
  }

  /** The two notes of the unison example yield E4 twice. */
  lemma UnisonMidi(beats: seq<Beat>, tuning: seq<int>)
    requires tuning == [64, 59, 55, 50, 45, 40]
    requires beats == [Beat(None, [Note(1, 0), Note(2, 5)])]
    ensures Flatten(beats) == [Note(1, 0), Note(2, 5)]
    ensures MidiAfter(Flatten(beats), tuning) == [64, 64]
  {
    var ns := Flatten(beats);
    assert ns == [Note(1, 0), Note(2, 5)] by {
      assert beats[..0] == [];
      assert Flatten(beats[..0]) == [];
    }
    var one := ns[..1];
    assert one == [Note(1, 0)];
    assert one[..0] == [];
    assert MidiAfter(one, tuning) == [64];
    assert MidiAfter(ns, tuning) == [64, 64];
  }

  lemma UnisonName(midi: seq<int>)
    requires midi == [64, 64]
    ensures DetectChordName(midi) == "E"
  {
    var pcs := [4];
    assert forall i :: 0 <= i < |midi| ==> midi[i] % 12 in pcs by {
      forall i | 0 <= i < |midi| ensures midi[i] % 12 in pcs {
        if i == 0 {} else {}
      }
    }
    PitchClassesAre(midi, pcs, [0]);
    assert DetectChordName(midi) == Text.NOTE_NAMES[4];
    NameOfE();
  }

  /** Adding one note: its fret is placed and its MIDI number, if any, appended. */
  lemma AfterOneMore(ns: seq<Note>, n: Note, tuning: seq<int>)
    ensures StringsAfter(ns + [n], tuning) == Place(StringsAfter(ns, tuning), n)
    ensures MidiAfter(ns + [n], tuning) == MidiAfter(ns, tuning)
      + (if 0 <= n.str - 1 < StringCount(tuning) && n.str - 1 < |tuning| then [tuning[n.str - 1] + n.fret] else [])
  {
    assert (ns + [n])[..|ns|] == ns;
  }

  /** The inner loop: the notes of one beat, placed on the array in order. */
  method PlaceNotes(a: array<int>, midi0: seq<int>, notes: seq<Note>, tuning: seq<int>, ghost done: seq<Note>)
    returns (midi: seq<int>)
    requires a[..] == StringsAfter(done, tuning) && midi0 == MidiAfter(done, tuning)
    modifies a
    ensures a[..] == StringsAfter(done + notes, tuning) && midi == MidiAfter(done + notes, tuning)
  {
    midi := midi0;
    var j := 0;
    assert done + notes[..j] == done;
    while j < |notes|
      invariant 0 <= j <= |notes|
      invariant a[..] == StringsAfter(done + notes[..j], tuning)
      invariant midi == MidiAfter(done + notes[..j], tuning)
    {
      var note := notes[j];
      AfterOneMore(done + notes[..j], note, tuning);
      assert done + notes[..j + 1] == (done + notes[..j]) + [note];
      var idx := note.str - 1;
      if 0 <= idx < a.Length {
        a[idx] := note.fret;
        if idx < |tuning| {
          midi := midi + [tuning[idx] + note.fret];
        }
      }
      j := j + 1;
    }
    assert notes[..j] == notes;
  }

  /** The handler's fret array and MIDI list, built in place by nested loops. */
  method BuildShape(beats: seq<Beat>, tuning: seq<int>) returns (strings: seq<int>, midi: seq<int>)
    ensures strings == StringsAfter(Flatten(beats), tuning)
    ensures midi == MidiAfter(Flatten(beats), tuning)
  {
    var a := new int[StringCount(tuning)](_ => -1);
    midi := [];
    assert a[..] == StringsAfter([], tuning);
    var b := 0;
    while b < |beats|
      invariant 0 <= b <= |beats|
      invariant a[..] == StringsAfter(Flatten(beats[..b]), tuning)
      invariant midi == MidiAfter(Flatten(beats[..b]), tuning)
    {
      midi := PlaceNotes(a, midi, beats[b].notes, tuning, Flatten(beats[..b]));
      FlattenSnoc(beats, b);
      b := b + 1;
    }
    assert beats[..b] == beats;
    strings := a[..];
  }

  /** The hook's `chord` cell. */
  class ChordTracker {
    var chord: Option<Shape>

    constructor ()
      ensures chord == None
    {
      chord := None;
    }

    /** `activeBeatsChanged`: the first annotation, else the classified notes, else the chord kept. */
    method OnActiveBeatsChanged(beats: seq<Beat>, tuning: seq<int>)
      requires NonNegative(tuning) && FretsNonNegative(Flatten(beats))
      modifies this
      ensures chord == Infer(old(chord), beats, tuning)
    {
      var b := 0;
      while b < |beats|
        invariant 0 <= b <= |beats|
        invariant forall e :: 0 <= e < b ==> beats[e].chord.None?
      {
        if beats[b].chord.Some? {
          AnnotationWins(chord, beats, tuning, b, beats[b].chord.value);
          chord := Some(FromAnnotation(beats[b].chord.value));
          return;
        }
        b := b + 1;
      }
      var strings, midi := BuildShape(beats, tuning);
      if |midi| < 2 {
        return;
      }
      MidiNonNegative(Flatten(beats), tuning);
      chord := Some(Shape(DetectChordName(midi), FirstFret(strings), strings, []));
    }
  }
}
