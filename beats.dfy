/**
 * The part of the engine's `activeBeatsChanged` event that the renderer
 * reads: the beats sounding now, each with its notes and, possibly, a
 * chord annotation written in the tab.
 */
module Beats {
  import opened Wrappers

  /** A played note: `str` is the 1-based string number, `fret` the fret (0 = open). */
  datatype Note = Note(str: int, fret: int)

  /** A chord annotation as stored in the score; the shape arrays may be absent. */
  datatype ChordInfo = ChordInfo(name: string, firstFret: int, strings: Option<seq<int>>, barreFrets: Option<seq<int>>)

  datatype Beat = Beat(chord: Option<ChordInfo>, notes: seq<Note>)

  /** Every note of every beat, beat by beat and in order within a beat. */
  function Flatten(beats: seq<Beat>): seq<Note> {
    if beats == [] then []
    else Flatten(beats[..|beats| - 1]) + beats[|beats| - 1].notes
  }

  /** Flattening distributes over concatenation of beat lists. */
  lemma {:induction false} FlattenAppend(a: seq<Beat>, b: seq<Beat>)
    ensures Flatten(a + b) == Flatten(a) + Flatten(b)
    decreases |b|
  {
    if b == [] {
      assert a + b == a;
    } else {
      var c := a + b;
      assert c[..|c| - 1] == a + b[..|b| - 1];
      FlattenAppend(a, b[..|b| - 1]);
    }
  }

  /** One more beat adds exactly its notes at the end. */
  lemma FlattenSnoc(beats: seq<Beat>, i: nat)
    requires i < |beats|
    ensures Flatten(beats[..i + 1]) == Flatten(beats[..i]) + beats[i].notes
  {
    assert beats[..i + 1][..i] == beats[..i];
  }

  /** A note is in the flattening iff some beat holds it. */
  lemma {:induction false} FlattenMembers(beats: seq<Beat>, n: Note)
    ensures n in Flatten(beats) <==> exists b :: 0 <= b < |beats| && n in beats[b].notes
  {
    if beats != [] {
      var init := beats[..|beats| - 1];
      FlattenMembers(init, n);
      if n in Flatten(init) {
        var b :| 0 <= b < |init| && n in init[b].notes;
        assert n in beats[b].notes;
      }
    }
  }

  /** `tuning.length || 6`: the number of strings a tuning describes, six when it is empty. */
  function StringCount(tuning: seq<int>): (n: nat)
    ensures n >= 1
    ensures tuning != [] ==> n == |tuning|
    ensures tuning == [] ==> n == 6
  {
    if |tuning| == 0 then 6 else |tuning|
  }
}
