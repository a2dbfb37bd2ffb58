/**
 * The chord classifier (`detectChordName`): MIDI numbers are reduced to
 * pitch classes, the root is the pitch class of the lowest MIDI number,
 * and the intervals above the root are matched against an ordered list of
 * chord shapes, the first match naming the chord.
 */
module Chord {
  import opened Text

  /** The lowest MIDI number (`reduce((a, b) => a < b ? a : b)`). */
  function Lowest(notes: seq<int>): (m: int)
    requires |notes| > 0
    ensures m in notes
    ensures forall i :: 0 <= i < |notes| ==> m <= notes[i]
  {
    if |notes| == 1 then notes[0]
    else
      var rest := Lowest(notes[1..]);
      if notes[0] < rest then notes[0] else rest
  }

  /** Some note of `notes` at position `k` or later has pitch class `pc`. */
  predicate SoundsFrom(notes: seq<int>, k: nat, pc: int)
    decreases |notes| - k
  {
    k < |notes| && (notes[k] % 12 == pc || SoundsFrom(notes, k + 1, pc))
  }

  /** Some note of `notes` has pitch class `pc`. */
  predicate Sounds(notes: seq<int>, pc: int) {
    SoundsFrom(notes, 0, pc)
  }

  lemma {:induction false} SoundsFromIff(notes: seq<int>, k: nat, pc: int)
    ensures SoundsFrom(notes, k, pc) <==> exists i :: k <= i < |notes| && notes[i] % 12 == pc
    decreases |notes| - k
  {
    if k < |notes| {
      SoundsFromIff(notes, k + 1, pc);
    }
  }

  lemma SoundsIff(notes: seq<int>, pc: int)
    ensures Sounds(notes, pc) <==> exists i :: 0 <= i < |notes| && notes[i] % 12 == pc
  {
    SoundsFromIff(notes, 0, pc);
  }

  /** The pitch classes from `p` up to 11 that sound, in ascending order. */
  function PitchClassesFrom(notes: seq<int>, p: nat): seq<int>
    requires p <= 12
    decreases 12 - p
  {
    if p == 12 then []
    else (if Sounds(notes, p) then [p] else []) + PitchClassesFrom(notes, p + 1)
  }

  /** `[...new Set(notes.map(n => n % 12))].sort()`: the distinct pitch classes, ascending. */
  function PitchClasses(notes: seq<int>): seq<int> {
    PitchClassesFrom(notes, 0)
  }

  lemma {:induction false} PitchClassesFromSpec(notes: seq<int>, p: nat)
    requires p <= 12
    ensures var pcs := PitchClassesFrom(notes, p);
      && (forall i, j :: 0 <= i < j < |pcs| ==> pcs[i] < pcs[j])
      && (forall i :: 0 <= i < |pcs| ==> p <= pcs[i] < 12)
      && (forall q :: q in pcs <==> p <= q < 12 && Sounds(notes, q))
    decreases 12 - p
  {
    if p < 12 {
      PitchClassesFromSpec(notes, p + 1);
    }
  }

  /** The pitch classes are sorted, distinct, within 0..11, and exactly those that sound. */
  lemma PitchClassesSpec(notes: seq<int>)
    ensures var pcs := PitchClasses(notes);
      && (forall i, j :: 0 <= i < j < |pcs| ==> pcs[i] < pcs[j])
      && (forall q :: q in pcs <==> 0 <= q < 12 && exists i :: 0 <= i < |notes| && notes[i] % 12 == q)
  {
    PitchClassesFromSpec(notes, 0);
    forall q | 0 <= q < 12 {
      SoundsIff(notes, q);
    }
  }

  /** `(p - root + 12) % 12` for each pitch class: its interval above the root. */
  function Intervals(pcs: seq<int>, root: int): (iv: seq<int>)
    ensures |iv| == |pcs|
    ensures forall k :: 0 <= k < |pcs| ==> iv[k] == (pcs[k] - root + 12) % 12
  {
    seq(|pcs|, k requires 0 <= k < |pcs| => (pcs[k] - root + 12) % 12)
  }

  /** Reduction modulo 12 below 24 subtracts 12 at most once. */
  lemma Mod12(x: int)
    requires 0 <= x < 24
    ensures x % 12 == if x < 12 then x else x - 12
  {
  }

  /**
   * For pitch classes and a root within 0..11, each interval lies in 0..11
   * and `i` is an interval exactly when the class `i` semitones above the
   * root is one of the pitch classes.
   */
  lemma IntervalsAboveRoot(pcs: seq<int>, root: int)
    requires forall k :: 0 <= k < |pcs| ==> 0 <= pcs[k] < 12
    requires 0 <= root < 12
    ensures forall k :: 0 <= k < |pcs| ==> 0 <= Intervals(pcs, root)[k] < 12
    ensures forall i :: 0 <= i < 12 ==> (i in Intervals(pcs, root) <==> (root + i) % 12 in pcs)
  {
    var iv := Intervals(pcs, root);
    forall k | 0 <= k < |pcs|
      ensures 0 <= iv[k] < 12
    {
      Mod12(pcs[k] - root + 12);
    }
    forall i | 0 <= i < 12
      ensures i in iv <==> (root + i) % 12 in pcs
    {
      Mod12(root + i);
      if i in iv {
        var k :| 0 <= k < |iv| && iv[k] == i;
        Mod12(pcs[k] - root + 12);
      }
      if (root + i) % 12 in pcs {
        var k :| 0 <= k < |pcs| && pcs[k] == (root + i) % 12;
        Mod12(pcs[k] - root + 12);
      }
    }
  }

  /** The chord shapes, in the order they are tried. */
  datatype Quality =
    | Major | Minor | Dominant7 | Minor7 | Major7
    | Diminished | Augmented | Sus4 | Sus2 | Power | RootOnly

  /**
   * The first shape that the intervals match; `count` is the number of
   * distinct pitch classes. Every shape named is built from intervals that
   * are present, and the minor-seventh shape is never named.
   */
  function Classify(iv: seq<int>, count: nat): (q: Quality)
    ensures q == Major ==> 4 in iv && 7 in iv
    ensures q == Minor ==> 3 in iv && 7 in iv
    ensures q == Dominant7 ==> 4 in iv && 7 in iv && 10 in iv
    ensures q == Major7 ==> 4 in iv && 7 in iv && 11 in iv
    ensures q == Diminished ==> 3 in iv && 6 in iv
    ensures q == Augmented ==> 4 in iv && 8 in iv
    ensures q == Sus4 ==> 5 in iv && 7 in iv
    ensures q == Sus2 ==> 2 in iv && 7 in iv
    ensures q == Power ==> 7 in iv && count == 2
    ensures q != Minor7
  {
    if 4 in iv && 7 in iv && 3 !in iv && 10 !in iv then Major
    else if 3 in iv && 7 in iv && 4 !in iv then Minor
    else if 4 in iv && 7 in iv && 10 in iv then Dominant7
    else if 3 in iv && 7 in iv && 10 in iv then Minor7
    else if 4 in iv && 7 in iv && 11 in iv then Major7
    else if 3 in iv && 6 in iv && 7 !in iv then Diminished
    else if 4 in iv && 8 in iv then Augmented
    else if 5 in iv && 7 in iv && 3 !in iv && 4 !in iv then Sus4
    else if 2 in iv && 7 in iv && 3 !in iv && 4 !in iv then Sus2
    else if 7 in iv && count == 2 then Power
    else RootOnly
  }

  /** The suffix after the root's name: empty only for major and for no matching shape. */
  function Suffix(q: Quality): (s: string)
    ensures s == "" <==> q == Major || q == RootOnly
  {
    match q
    case Major => ""
    case Minor => "m"
    case Dominant7 => "7"
    case Minor7 => "m7"
    case Major7 => "maj7"
    case Diminished => "dim"
    case Augmented => "aug"
    case Sus4 => "sus4"
    case Sus2 => "sus2"
    case Power => "5"
    case RootOnly => ""
  }

  /** The root: the pitch class of the lowest MIDI number. */
  function Root(notes: seq<int>): (r: int)
    requires |notes| > 0
    ensures 0 <= r < 12
  {
    Lowest(notes) % 12
  }

  /** MIDI numbers as the source produces them: open-string pitch plus fret, never negative. */
  predicate AllMidi(notes: seq<int>) { forall i :: 0 <= i < |notes| ==> notes[i] >= 0 }

  /** `detectChordName`: empty exactly for no notes, and otherwise led by the root's name. */
  function DetectChordName(notes: seq<int>): (name: string)
    requires AllMidi(notes)
    ensures name == "" <==> notes == []
    ensures notes != [] ==>
      |NOTE_NAMES[Root(notes)]| <= |name| && name[..|NOTE_NAMES[Root(notes)]|] == NOTE_NAMES[Root(notes)]
  {
    if notes == [] then ""
    else
      var pcs := PitchClasses(notes);
      RootSounds(notes);
      PitchClassesSpec(notes);
      NoteNameNonEmpty(Root(notes));
      if |pcs| < 2 then
        SinglePitchClass(notes);
        NOTE_NAMES[pcs[0]]
      else
        var root := Root(notes);
        NOTE_NAMES[root] + Suffix(Classify(Intervals(pcs, root), |pcs|))
  }

  /** A non-empty input always has at least one pitch class, and the lowest note's is one of them. */
  lemma RootSounds(notes: seq<int>)
    requires |notes| > 0
    ensures Root(notes) in PitchClasses(notes)
  {
    PitchClassesSpec(notes);
    var i :| 0 <= i < |notes| && notes[i] == Lowest(notes);
    assert notes[i] % 12 == Root(notes);
  }

  /**
   * Every label is the root's name followed by one of the ten suffixes:
   * a single pitch class (octave doublings included) gives the bare name,
   * and only the empty input gives the empty label.
   */
  lemma LabelShape(notes: seq<int>)
    requires AllMidi(notes)
    ensures notes == [] <==> DetectChordName(notes) == ""
    ensures notes != [] ==>
      exists q: Quality :: DetectChordName(notes) == NOTE_NAMES[Root(notes)] + Suffix(q)
    ensures notes != [] && |PitchClasses(notes)| == 1 ==>
      DetectChordName(notes) == NOTE_NAMES[Root(notes)]
  {
    if notes != [] {
      var pcs := PitchClasses(notes);
      var root := Root(notes);
      var q := if |pcs| < 2 then RootOnly else Classify(Intervals(pcs, root), |pcs|);
      if |pcs| < 2 {
        SinglePitchClass(notes);
        assert DetectChordName(notes) == NOTE_NAMES[pcs[0]];
      }
      assert DetectChordName(notes) == NOTE_NAMES[root] + Suffix(q);
      NoteNameNonEmpty(root);
    }
  }

  /** With fewer than two pitch classes, the only one is the root's. */
  lemma SinglePitchClass(notes: seq<int>)
    requires |notes| > 0 && |PitchClasses(notes)| < 2
    ensures PitchClasses(notes) == [Root(notes)]
  {
    RootSounds(notes);
    var pcs := PitchClasses(notes);
    var k :| 0 <= k < |pcs| && pcs[k] == Root(notes);
    assert |pcs| == 1 && k == 0;
    assert pcs == [pcs[0]];
  }

  /** The name of pitch class 4. */
  lemma NameOfE()
    ensures NOTE_NAMES[4] == "E"
  {
  }

  lemma NoteNameNonEmpty(pc: int)
    requires 0 <= pc < 12
    ensures |NOTE_NAMES[pc]| > 0
  {
  }

  /** The minor-seventh shape is never chosen: minor takes it without a 4, dominant seventh with one. */
  lemma Minor7Unreachable(iv: seq<int>, count: nat)
    ensures Classify(iv, count) != Minor7
  {
  }

  /** A major-seventh chord (0, 4, 7, 11) is classified as plain major; major seventh needs a minor third as well. */
  lemma Major7NeedsMinorThird(iv: seq<int>, count: nat)
    ensures 4 in iv && 7 in iv && 11 in iv && 3 !in iv && 10 !in iv ==> Classify(iv, count) == Major
    ensures Classify(iv, count) == Major7 ==> 3 in iv && 4 in iv && 7 in iv && 11 in iv && 10 !in iv
  {
  }

  /** Two strictly ascending sequences with the same elements are equal. */
  lemma {:induction false} AscendingUnique(a: seq<int>, b: seq<int>)
    requires forall i, j :: 0 <= i < j < |a| ==> a[i] < a[j]
    requires forall i, j :: 0 <= i < j < |b| ==> b[i] < b[j]
    requires forall q :: q in a <==> q in b
    ensures a == b
    decreases |a|
  {
    assert b != [] ==> b[0] in b && b[0] in a;
    assert a != [] ==> a[0] in a && a[0] in b;
    if a != [] {
      assert a[0] == b[0];
      forall q
        ensures q in a[1..] <==> q in b[1..]
      {
        if q in a[1..] {
          assert q in b && q != b[0];
        }
        if q in b[1..] {
          assert q in a && q != a[0];
        }
      }
      AscendingUnique(a[1..], b[1..]);
      assert a == [a[0]] + a[1..];
      assert b == [b[0]] + b[1..];
    }
  }

  /** The pitch classes of `notes` are `pcs` when `pcs` ascends and holds exactly the classes that sound. */
  lemma PitchClassesAre(notes: seq<int>, pcs: seq<int>, w: seq<int>)
    requires forall i, j :: 0 <= i < j < |pcs| ==> pcs[i] < pcs[j]
    requires forall k :: 0 <= k < |pcs| ==> 0 <= pcs[k] < 12
    requires forall i :: 0 <= i < |notes| ==> notes[i] % 12 in pcs
    requires |w| == |pcs| && forall k :: 0 <= k < |w| ==> 0 <= w[k] < |notes| && notes[w[k]] % 12 == pcs[k]
    ensures PitchClasses(notes) == pcs
  {
    PitchClassesSpec(notes);
    forall q | q in pcs
      ensures exists i :: 0 <= i < |notes| && notes[i] % 12 == q
    {
      var k :| 0 <= k < |pcs| && pcs[k] == q;
      assert notes[w[k]] % 12 == q;
    }
    AscendingUnique(PitchClasses(notes), pcs);
  }

  /** The lowest note is `notes[low]` when no note is below it. */
  lemma LowestIs(notes: seq<int>, low: int)
    requires 0 <= low < |notes|
    requires forall i :: 0 <= i < |notes| ==> notes[low] <= notes[i]
    ensures Lowest(notes) == notes[low]
  {
  }

  /**
   * `pcs` ascends within 0..11 and holds every note's class, `w` gives a
   * note for each class, and `notes[low]` is the lowest note.
   */
  predicate Describes(notes: seq<int>, pcs: seq<int>, w: seq<int>, low: int) {
    && AllMidi(notes)
    && (forall i, j :: 0 <= i < j < |pcs| ==> pcs[i] < pcs[j])
    && (forall k :: 0 <= k < |pcs| ==> 0 <= pcs[k] < 12)
    && (forall i :: 0 <= i < |notes| ==> notes[i] % 12 in pcs)
    && |w| == |pcs| && (forall k :: 0 <= k < |w| ==> 0 <= w[k] < |notes| && notes[w[k]] % 12 == pcs[k])
    && 0 <= low < |notes| && (forall i :: 0 <= i < |notes| ==> notes[low] <= notes[i])
  }

  /** The label of an input with at least two pitch classes, from such a description, its root, intervals and shape. */
  lemma Labelled(notes: seq<int>, pcs: seq<int>, w: seq<int>, low: int, root: int, iv: seq<int>, q: Quality, name: string)
    requires Describes(notes, pcs, w, low) && |pcs| >= 2 && notes[low] % 12 == root
    requires Intervals(pcs, root) == iv && Classify(iv, |pcs|) == q
    requires 0 <= root < 12 && name == NOTE_NAMES[root] + Suffix(q)
    ensures DetectChordName(notes) == name
  {
    PitchClassesAre(notes, pcs, w);
    LowestIs(notes, low);
  }

  // Worked examples. Each chord is described by a helper lemma of its own,
  // apart from the label, which keeps each proof small.

  /** Three notes, lowest first, with ascending classes `pcs` witnessed by the notes at `w`. */
  lemma DescribesThree(n: seq<int>, pcs: seq<int>, w: seq<int>)
    requires |n| == 3 && |pcs| == 3 && |w| == 3
    requires 0 <= n[0] <= n[1] && n[0] <= n[2]
    requires 0 <= pcs[0] < pcs[1] < pcs[2] < 12
    requires 0 <= w[0] < 3 && 0 <= w[1] < 3 && 0 <= w[2] < 3
    requires n[w[0]] % 12 == pcs[0] && n[w[1]] % 12 == pcs[1] && n[w[2]] % 12 == pcs[2]
    requires n[0] % 12 in pcs && n[1] % 12 in pcs && n[2] % 12 in pcs
    ensures Describes(n, pcs, w, 0)
  {
    assert AllMidi(n) by {
      forall i | 0 <= i < |n| ensures n[i] >= 0 {
        if i == 0 {} else if i == 1 {} else {}
      }
    }
    assert forall i, j :: 0 <= i < j < |pcs| ==> pcs[i] < pcs[j] by {
      forall i, j | 0 <= i < j < |pcs| ensures pcs[i] < pcs[j] {
        if i == 0 && j == 2 {
          assert pcs[0] < pcs[1];
        }
      }
    }
    assert forall k :: 0 <= k < |pcs| ==> 0 <= pcs[k] < 12 by {
      forall k | 0 <= k < |pcs| ensures 0 <= pcs[k] < 12 {
        if k == 0 {} else if k == 1 {} else {}
      }
    }
    assert forall i :: 0 <= i < |n| ==> n[i] % 12 in pcs by {
      forall i | 0 <= i < |n| ensures n[i] % 12 in pcs {
        if i == 0 {} else if i == 1 {} else {}
      }
    }
    assert forall k :: 0 <= k < |w| ==> 0 <= w[k] < |n| && n[w[k]] % 12 == pcs[k] by {
      forall k | 0 <= k < |w| ensures 0 <= w[k] < |n| && n[w[k]] % 12 == pcs[k] {
        if k == 0 {} else if k == 1 {} else {}
      }
    }
    assert forall i :: 0 <= i < |n| ==> n[0] <= n[i] by {
      forall i | 0 <= i < |n| ensures n[0] <= n[i] {
        if i == 0 {} else if i == 1 {} else {}
      }
    }
  }

  /** Two notes, lowest first, with ascending classes `pcs`. */
  lemma DescribesTwo(n: seq<int>, pcs: seq<int>)
    requires |n| == 2 && |pcs| == 2
    requires 0 <= n[0] <= n[1]
    requires 0 <= pcs[0] < pcs[1] < 12
    requires n[0] % 12 == pcs[0] && n[1] % 12 == pcs[1]
    ensures Describes(n, pcs, [0, 1], 0)
  {
    var w := [0, 1];
    assert AllMidi(n) by {
      forall i | 0 <= i < |n| ensures n[i] >= 0 {
        if i == 0 {} else {}
      }
    }
    assert forall k :: 0 <= k < |pcs| ==> 0 <= pcs[k] < 12 by {
      forall k | 0 <= k < |pcs| ensures 0 <= pcs[k] < 12 {
        if k == 0 {} else {}
      }
    }
    assert forall i :: 0 <= i < |n| ==> n[i] % 12 in pcs by {
      forall i | 0 <= i < |n| ensures n[i] % 12 in pcs {
        if i == 0 {} else {}
      }
    }
    assert forall k :: 0 <= k < |w| ==> 0 <= w[k] < |n| && n[w[k]] % 12 == pcs[k] by {
      forall k | 0 <= k < |w| ensures 0 <= w[k] < |n| && n[w[k]] % 12 == pcs[k] {
        if k == 0 {} else {}
      }
    }
    assert forall i :: 0 <= i < |n| ==> n[0] <= n[i] by {
      forall i | 0 <= i < |n| ensures n[0] <= n[i] {
        if i == 0 {} else {}
      }
    }
  }

  /** Four notes, lowest first, with ascending classes `pcs` witnessed by the notes at `w`. */
  lemma DescribesFour(n: seq<int>, pcs: seq<int>, w: seq<int>)
    requires |n| == 4 && |pcs| == 4 && |w| == 4
    requires 0 <= n[0] <= n[1] && n[0] <= n[2] && n[0] <= n[3]
    requires 0 <= pcs[0] < pcs[1] < pcs[2] < pcs[3] < 12
    requires 0 <= w[0] < 4 && 0 <= w[1] < 4 && 0 <= w[2] < 4 && 0 <= w[3] < 4
    requires n[w[0]] % 12 == pcs[0] && n[w[1]] % 12 == pcs[1] && n[w[2]] % 12 == pcs[2] && n[w[3]] % 12 == pcs[3]
    requires n[0] % 12 in pcs && n[1] % 12 in pcs && n[2] % 12 in pcs && n[3] % 12 in pcs
    ensures Describes(n, pcs, w, 0)
  {
    assert AllMidi(n) by {
      forall i | 0 <= i < |n| ensures n[i] >= 0 {
        if i == 0 {} else if i == 1 {} else if i == 2 {} else {}
      }
    }
    assert forall i, j :: 0 <= i < j < |pcs| ==> pcs[i] < pcs[j] by {
      forall i, j | 0 <= i < j < |pcs| ensures pcs[i] < pcs[j] {
        assert pcs[0] < pcs[1] < pcs[2] < pcs[3];
      }
    }
    assert forall k :: 0 <= k < |pcs| ==> 0 <= pcs[k] < 12 by {
      forall k | 0 <= k < |pcs| ensures 0 <= pcs[k] < 12 {
        if k == 0 {} else if k == 1 {} else if k == 2 {} else {}
      }
    }
    assert forall i :: 0 <= i < |n| ==> n[i] % 12 in pcs by {
      forall i | 0 <= i < |n| ensures n[i] % 12 in pcs {
        if i == 0 {} else if i == 1 {} else if i == 2 {} else {}
      }
    }
    assert forall k :: 0 <= k < |w| ==> 0 <= w[k] < |n| && n[w[k]] % 12 == pcs[k] by {
      forall k | 0 <= k < |w| ensures 0 <= w[k] < |n| && n[w[k]] % 12 == pcs[k] {
        if k == 0 {} else if k == 1 {} else if k == 2 {} else {}
      }
    }
    assert forall i :: 0 <= i < |n| ==> n[0] <= n[i] by {
      forall i | 0 <= i < |n| ensures n[0] <= n[i] {
        if i == 0 {} else if i == 1 {} else if i == 2 {} else {}
      }
    }
  }

  /** The C major triad. */
  lemma ExampleMajor(n: seq<int>)
    requires n == [60, 64, 67]
    ensures DetectChordName(n) == "C"
  {
    ExampleMajorShape(n);
    Labelled(n, [0, 4, 7], [0, 1, 2], 0, 0, [0, 4, 7], Major, "C");
  }

  lemma ExampleMajorShape(n: seq<int>)
    requires n == [60, 64, 67]
    ensures Describes(n, [0, 4, 7], [0, 1, 2], 0) && n[0] % 12 == 0
    ensures Intervals([0, 4, 7], 0) == [0, 4, 7] && Classify([0, 4, 7], 3) == Major
  {
    DescribesThree(n, [0, 4, 7], [0, 1, 2]);
  }

  /** The C minor triad. */
  lemma ExampleMinor(n: seq<int>)
    requires n == [60, 63, 67]
    ensures DetectChordName(n) == "Cm"
  {
    ExampleMinorShape(n);
    Labelled(n, [0, 3, 7], [0, 1, 2], 0, 0, [0, 3, 7], Minor, "Cm");
  }

  lemma ExampleMinorShape(n: seq<int>)
    requires n == [60, 63, 67]
    ensures Describes(n, [0, 3, 7], [0, 1, 2], 0) && n[0] % 12 == 0
    ensures Intervals([0, 3, 7], 0) == [0, 3, 7] && Classify([0, 3, 7], 3) == Minor
  {
    DescribesThree(n, [0, 3, 7], [0, 1, 2]);
  }

  /** The C dominant seventh. */
  lemma ExampleDominant7(n: seq<int>)
    requires n == [60, 64, 67, 70]
    ensures DetectChordName(n) == "C7"
  {
    ExampleDominant7Shape(n);
    Labelled(n, [0, 4, 7, 10], [0, 1, 2, 3], 0, 0, [0, 4, 7, 10], Dominant7, "C7");
  }

  lemma ExampleDominant7Shape(n: seq<int>)
    requires n == [60, 64, 67, 70]
    ensures Describes(n, [0, 4, 7, 10], [0, 1, 2, 3], 0) && n[0] % 12 == 0
    ensures Intervals([0, 4, 7, 10], 0) == [0, 4, 7, 10] && Classify([0, 4, 7, 10], 4) == Dominant7
  {
    DescribesFour(n, [0, 4, 7, 10], [0, 1, 2, 3]);
  }

  /** The C diminished triad. */
  lemma ExampleDiminished(n: seq<int>)
    requires n == [60, 63, 66]
    ensures DetectChordName(n) == "Cdim"
  {
    ExampleDiminishedShape(n);
    Labelled(n, [0, 3, 6], [0, 1, 2], 0, 0, [0, 3, 6], Diminished, "Cdim");
  }

  lemma ExampleDiminishedShape(n: seq<int>)
    requires n == [60, 63, 66]
    ensures Describes(n, [0, 3, 6], [0, 1, 2], 0) && n[0] % 12 == 0
    ensures Intervals([0, 3, 6], 0) == [0, 3, 6] && Classify([0, 3, 6], 3) == Diminished
  {
    DescribesThree(n, [0, 3, 6], [0, 1, 2]);
  }

  /** The C augmented triad. */
  lemma ExampleAugmented(n: seq<int>)
    requires n == [60, 64, 68]
    ensures DetectChordName(n) == "Caug"
  {
    ExampleAugmentedShape(n);
    Labelled(n, [0, 4, 8], [0, 1, 2], 0, 0, [0, 4, 8], Augmented, "Caug");
  }

  lemma ExampleAugmentedShape(n: seq<int>)
    requires n == [60, 64, 68]
    ensures Describes(n, [0, 4, 8], [0, 1, 2], 0) && n[0] % 12 == 0
    ensures Intervals([0, 4, 8], 0) == [0, 4, 8] && Classify([0, 4, 8], 3) == Augmented
  {
    DescribesThree(n, [0, 4, 8], [0, 1, 2]);
  }

  /** C with a suspended fourth. */
  lemma ExampleSus4(n: seq<int>)
    requires n == [60, 65, 67]
    ensures DetectChordName(n) == "Csus4"
  {
    ExampleSus4Shape(n);
    Labelled(n, [0, 5, 7], [0, 1, 2], 0, 0, [0, 5, 7], Sus4, "Csus4");
  }

  lemma ExampleSus4Shape(n: seq<int>)
    requires n == [60, 65, 67]
    ensures Describes(n, [0, 5, 7], [0, 1, 2], 0) && n[0] % 12 == 0
    ensures Intervals([0, 5, 7], 0) == [0, 5, 7] && Classify([0, 5, 7], 3) == Sus4
  {
    DescribesThree(n, [0, 5, 7], [0, 1, 2]);
  }

  /** C with a suspended second. */
  lemma ExampleSus2(n: seq<int>)
    requires n == [60, 62, 67]
    ensures DetectChordName(n) == "Csus2"
  {
    ExampleSus2Shape(n);
    Labelled(n, [0, 2, 7], [0, 1, 2], 0, 0, [0, 2, 7], Sus2, "Csus2");
  }

  lemma ExampleSus2Shape(n: seq<int>)
    requires n == [60, 62, 67]
    ensures Describes(n, [0, 2, 7], [0, 1, 2], 0) && n[0] % 12 == 0
    ensures Intervals([0, 2, 7], 0) == [0, 2, 7] && Classify([0, 2, 7], 3) == Sus2
  {
    DescribesThree(n, [0, 2, 7], [0, 1, 2]);
  }

  /** The C power chord (root and fifth). */
  lemma ExamplePower(n: seq<int>)
    requires n == [60, 67]
    ensures DetectChordName(n) == "C5"
  {
    ExamplePowerShape(n);
    Labelled(n, [0, 7], [0, 1], 0, 0, [0, 7], Power, "C5");
  }

  lemma ExamplePowerShape(n: seq<int>)
    requires n == [60, 67]
    ensures Describes(n, [0, 7], [0, 1], 0) && n[0] % 12 == 0
    ensures Intervals([0, 7], 0) == [0, 7] && Classify([0, 7], 2) == Power
  {
    DescribesTwo(n, [0, 7]);
  }

  /** The C major seventh is labelled plain C: the major rule comes first. */
  lemma ExampleMajor7AsMajor(n: seq<int>)
    requires n == [60, 64, 67, 71]
    ensures DetectChordName(n) == "C"
  {
    ExampleMajor7AsMajorShape(n);
    Labelled(n, [0, 4, 7, 11], [0, 1, 2, 3], 0, 0, [0, 4, 7, 11], Major, "C");
  }

  lemma ExampleMajor7AsMajorShape(n: seq<int>)
    requires n == [60, 64, 67, 71]
    ensures Describes(n, [0, 4, 7, 11], [0, 1, 2, 3], 0) && n[0] % 12 == 0
    ensures Intervals([0, 4, 7, 11], 0) == [0, 4, 7, 11] && Classify([0, 4, 7, 11], 4) == Major
  {
    DescribesFour(n, [0, 4, 7, 11], [0, 1, 2, 3]);
  }

  /** First inversion of C major (E lowest): intervals 0, 3, 8 above E match no shape, so the bare root name. */
  lemma ExampleInversion(n: seq<int>)
    requires n == [64, 67, 72]
    ensures DetectChordName(n) == "E"
  {
    ExampleInversionShape(n);
    Labelled(n, [0, 4, 7], [2, 0, 1], 0, 4, [8, 0, 3], RootOnly, "E");
  }

  lemma ExampleInversionShape(n: seq<int>)
    requires n == [64, 67, 72]
    ensures Describes(n, [0, 4, 7], [2, 0, 1], 0) && n[0] % 12 == 4
    ensures Intervals([0, 4, 7], 4) == [8, 0, 3] && Classify([8, 0, 3], 3) == RootOnly
  {
    DescribesThree(n, [0, 4, 7], [2, 0, 1]);
  }

  /** Octave doublings of one pitch class give the bare note name. */
  lemma ExampleOctaves(n: seq<int>)
    requires n == [48, 60, 72]
    ensures DetectChordName(n) == "C"
  {
    PitchClassesAre(n, [0], [0]);
  }
}
