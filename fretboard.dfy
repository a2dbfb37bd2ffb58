/**
 * The fretboard drawing (`Fretboard`, `StaticElements`) as integer
 * geometry: where a sounding note's circle goes, where the string labels,
 * fret lines, inlay markers and fret numbers are, and the board's size.
 * String 1 is the lowest-pitched string and is drawn at the bottom.
 */
module Fretboard {
  import opened Beats
  import opened FretboardHook

  const FRET_WIDTH := 50
  const STRING_SPACING := 20
  const NUT_WIDTH := 6
  const LABEL_WIDTH := 36
  const PADDING_Y := 16

  /** Frets with a single inlay dot; fret 12 has two. */
  const FRET_MARKERS: seq<int> := [3, 5, 7, 9, 15]
  const DOUBLE_MARKER := 12

  /** Membership in the marker list, written out. */
  predicate SingleMarkerFret(f: int) { f == 3 || f == 5 || f == 7 || f == 9 || f == 15 }

  lemma SingleMarkerFrets(f: int)
    ensures f in FRET_MARKERS <==> SingleMarkerFret(f)
  {
  }

  function TotalWidth(numFrets: int): int {
    LABEL_WIDTH + NUT_WIDTH + numFrets * FRET_WIDTH
  }

  function TotalHeight(numStrings: int): int {
    (numStrings - 1) * STRING_SPACING + PADDING_Y * 2
  }

  /** The x of fret line `f` (line 0 is the nut's edge). */
  function FretLineX(f: int): int {
    LABEL_WIDTH + NUT_WIDTH + f * FRET_WIDTH
  }

  /** The y of display row `row` (row 0 at the top). */
  function RowY(row: int): int {
    PADDING_Y + row * STRING_SPACING
  }

  /** A note's display row: string `numStrings` on top, string 1 at the bottom. */
  function NoteRow(str: int, numStrings: int): int {
    numStrings - str
  }

  /** A note's x: in the middle of the nut when open, else halfway between its fret lines. */
  function NoteX(fret: int): int {
    if fret == 0 then LABEL_WIDTH + NUT_WIDTH / 2
    else LABEL_WIDTH + NUT_WIDTH + fret * FRET_WIDTH - FRET_WIDTH / 2
  }

  datatype Circle = Circle(cx: int, cy: int)

  /** The circle drawn for one active note. */
  function NoteCircle(n: Note, numStrings: int): Circle {
    Circle(NoteX(n.fret), RowY(NoteRow(n.str, numStrings)))
  }

  /** `activeNotes.map(...)`: one circle per active note, in order. */
  function NoteCircles(notes: seq<Note>, numStrings: int): (cs: seq<Circle>)
    ensures |cs| == |notes|
    ensures forall i :: 0 <= i < |notes| ==> cs[i] == NoteCircle(notes[i], numStrings)
  {
    seq(|notes|, i requires 0 <= i < |notes| => NoteCircle(notes[i], numStrings))
  }

  /** The tuning entry labelled on display row `s`. */
  function LabelIndex(s: int, numStrings: int): int {
    numStrings - 1 - s
  }

  /**
   * The note x positions: 39 for open strings and 17 + 50·f otherwise,
   * strictly increasing with the fret, every fretted note right of the
   * open position and strictly between its two fret lines.
   */
  lemma NoteXPlacement(f: int, g: int)
    ensures NoteX(0) == 39
    ensures f >= 1 ==> NoteX(f) == 17 + 50 * f
    ensures 1 <= f < g ==> NoteX(f) < NoteX(g)
    ensures f >= 1 ==> NoteX(0) < NoteX(f)
    ensures f >= 1 ==> FretLineX(f - 1) < NoteX(f) < FretLineX(f)
  {
  }

  /** String 1 is the bottom row, string numStrings row 0; rows and strings correspond one to one. */
  lemma RowInversion(str: int, numStrings: int)
    requires 1 <= str <= numStrings
    ensures 0 <= NoteRow(str, numStrings) < numStrings
    ensures NoteRow(1, numStrings) == numStrings - 1 && NoteRow(numStrings, numStrings) == 0
    ensures NoteRow(numStrings - NoteRow(str, numStrings), numStrings) == NoteRow(str, numStrings)
    ensures forall other :: NoteRow(other, numStrings) == NoteRow(str, numStrings) ==> other == str
  {
  }

  /** A string's label and its notes share a row: the row of string k shows tuning entry k - 1. */
  lemma LabelMatchesNotes(str: int, numStrings: int)
    requires 1 <= str <= numStrings
    ensures LabelIndex(NoteRow(str, numStrings), numStrings) == str - 1
  {
  }

  /** The board's size, and every note on a real string and fret is drawn inside it. */
  lemma CircleInsideBoard(n: Note, numStrings: int, numFrets: int)
    requires 1 <= n.str <= numStrings && 0 <= n.fret <= numFrets
    ensures TotalWidth(numFrets) == 42 + 50 * numFrets
    ensures TotalHeight(numStrings) == 20 * (numStrings - 1) + 32
    ensures 0 < NoteCircle(n, numStrings).cx < TotalWidth(numFrets)
    ensures PADDING_Y <= NoteCircle(n, numStrings).cy <= TotalHeight(numStrings) - PADDING_Y
  {
  }

  /** The fret lines: one per fret from the nut to the last fret. */
  method FretLines(numFrets: nat) returns (xs: seq<int>)
    ensures |xs| == numFrets + 1
    ensures forall f :: 0 <= f <= numFrets ==> xs[f] == FretLineX(f)
    ensures forall f :: 0 <= f < numFrets ==> xs[f + 1] - xs[f] == FRET_WIDTH
  {
    xs := [];
    var f := 0;
    while f <= numFrets
      invariant 0 <= f <= numFrets + 1
      invariant |xs| == f
      invariant forall k :: 0 <= k < f ==> xs[k] == FretLineX(k)
    {
      xs := xs + [FretLineX(f)];
      f := f + 1;
    }
  }

  /** An inlay: one dot, or two for the double marker. */
  datatype Marker = Single(fret: int) | Double(fret: int)

  /** The markers drawn for fret f alone. */
  function MarkerAt(f: int): (r: seq<Marker>)
    ensures |r| <= 1
    ensures forall m :: m in r ==> m.fret == f
    ensures forall g :: Single(g) in r <==> g == f && SingleMarkerFret(f)
    ensures forall g :: Double(g) in r <==> g == f && f == DOUBLE_MARKER
  {
    if f == DOUBLE_MARKER then [Double(f)] else if SingleMarkerFret(f) then [Single(f)] else []
  }

  /** The markers of frets 1 to n, in fret order. */
  function MarkersUpTo(n: int): seq<Marker>
    decreases n
  {
    if n <= 0 then [] else MarkersUpTo(n - 1) + MarkerAt(n)
  }

  /** Markers are drawn in fret order, within frets 1 to n. */
  lemma {:induction false} MarkersOrdered(n: int)
    ensures forall m :: m in MarkersUpTo(n) ==> 1 <= m.fret <= n
    ensures forall i, j :: 0 <= i < j < |MarkersUpTo(n)| ==> MarkersUpTo(n)[i].fret < MarkersUpTo(n)[j].fret
    decreases n
  {
    if n > 0 {
      MarkersOrdered(n - 1);
      var a, b := MarkersUpTo(n - 1), MarkerAt(n);
      var c: seq<Marker> := a + b;
      assert MarkersUpTo(n) == c;
      forall i, j | 0 <= i < j < |c|
        ensures c[i].fret < c[j].fret
      {
        if j >= |a| {
          assert c[j] in b;
          if i < |a| {
            assert c[i] in a;
          }
        }
      }
    }
  }

  /** Which frets carry markers: single ones only at 3, 5, 7, 9, 15 and a double one only at 12. */
  lemma {:induction false} MarkersPlaced(n: int)
    ensures forall f :: Single(f) in MarkersUpTo(n) <==> SingleMarkerFret(f) && f <= n
    ensures forall f :: Double(f) in MarkersUpTo(n) <==> f == DOUBLE_MARKER && f <= n
    decreases n
  {
    if n > 0 {
      MarkersPlaced(n - 1);
      var a, b := MarkersUpTo(n - 1), MarkerAt(n);
      assert MarkersUpTo(n) == a + b;
      forall m: Marker
        ensures m in MarkersUpTo(n) <==> m in a || m in b
      {
      }
    }
  }

  /** The marker loop of `StaticElements`. */
  method FretMarkers(numFrets: int) returns (markers: seq<Marker>)
    ensures markers == MarkersUpTo(numFrets)
  {
    markers := [];
    var f := 1;
    while f <= numFrets
      invariant 1 <= f <= (if numFrets >= 1 then numFrets + 1 else 1)
      invariant markers == MarkersUpTo(f - 1)
    {
      SingleMarkerFrets(f);
      if f == DOUBLE_MARKER {
        markers := markers + [Double(f)];
      } else if f in FRET_MARKERS {
        SingleMarkerFrets(f);
        markers := markers + [Single(f)];
      }
      f := f + 1;
    }
    assert numFrets < 1 ==> MarkersUpTo(numFrets) == [] == MarkersUpTo(f - 1);
  }

  /** The fret-number loop: every odd fret, in order. */
  method FretNumbers(numFrets: int) returns (nums: seq<int>)
    ensures forall i :: 0 <= i < |nums| ==> nums[i] == 2 * i + 1
    ensures forall f :: f in nums <==> 1 <= f <= numFrets && f % 2 == 1
  {
    nums := [];
    var f := 1;
    while f <= numFrets
      invariant f >= 1 && f % 2 == 1
      invariant |nums| == f / 2
      invariant forall i :: 0 <= i < |nums| ==> nums[i] == 2 * i + 1
      invariant forall g :: g in nums <==> 1 <= g < f && g % 2 == 1
      invariant f == 1 || f - 2 <= numFrets
    {
      nums := nums + [f];
      f := f + 2;
    }
  }

  /** A string label: its display row and the note name of the open string. */
  datatype Label = Label(row: int, text: string)

  predicate Pitches(tuning: seq<int>) { forall i :: 0 <= i < |tuning| ==> tuning[i] >= 0 }

  /** Label `l` sits on a row of the board and names the tuning entry that row shows. */
  predicate NamesItsRow(l: Label, tuning: seq<int>, numStrings: int)
    requires Pitches(tuning)
  {
    0 <= l.row < numStrings && 0 <= LabelIndex(l.row, numStrings) < |tuning|
    && l == RowLabel(tuning, numStrings, l.row)
  }

  /** The label of display row `r`: the note name of the tuning entry it shows. */
  function RowLabel(tuning: seq<int>, numStrings: int, r: int): (l: Label)
    requires Pitches(tuning) && 0 <= LabelIndex(r, numStrings) < |tuning|
    ensures l.row == r
  {
    Label(r, MidiToNoteName(tuning[LabelIndex(r, numStrings)]))
  }

  /** Some label of `labels` sits on row `r`. */
  predicate HasRow(labels: seq<Label>, r: int)
  {
    exists i :: 0 <= i < |labels| && labels[i].row == r
  }

  /** The labels of rows 0 .. s - 1, in row order: one per row whose tuning entry exists. */
  function LabelsBelow(tuning: seq<int>, numStrings: int, s: int): seq<Label>
    requires Pitches(tuning)
    decreases s
  {
    if s <= 0 then []
    else if 0 <= LabelIndex(s - 1, numStrings) < |tuning| then
      LabelsBelow(tuning, numStrings, s - 1) + [RowLabel(tuning, numStrings, s - 1)]
    else LabelsBelow(tuning, numStrings, s - 1)
  }

  /** The labels of the rows below `s` lie below `s`, in strictly increasing row order. */
  lemma {:induction false} LabelsBelowOrdered(tuning: seq<int>, numStrings: int, s: int)
    requires Pitches(tuning)
    ensures forall i :: 0 <= i < |LabelsBelow(tuning, numStrings, s)| ==>
      LabelsBelow(tuning, numStrings, s)[i].row < s
    ensures forall i, j :: 0 <= i < j < |LabelsBelow(tuning, numStrings, s)| ==>
      LabelsBelow(tuning, numStrings, s)[i].row < LabelsBelow(tuning, numStrings, s)[j].row
    decreases s
  {
    if s > 0 {
      LabelsBelowOrdered(tuning, numStrings, s - 1);
      var prev := LabelsBelow(tuning, numStrings, s - 1);
      var ls := LabelsBelow(tuning, numStrings, s);
      if 0 <= LabelIndex(s - 1, numStrings) < |tuning| {
        var last := RowLabel(tuning, numStrings, s - 1);
        assert ls == prev + [last];
        forall i | 0 <= i < |ls| ensures ls[i].row < s && (i < |prev| ==> ls[i] == prev[i]) {
          if i < |prev| {
            assert ls[i] == prev[i];
          }
        }
      } else {
        assert ls == prev;
      }
    }
  }

  /** Each label of the rows below `s` names the tuning entry its row shows. */
  lemma {:induction false} LabelsBelowNamed(tuning: seq<int>, numStrings: int, s: int)
    requires Pitches(tuning)
    ensures forall i :: 0 <= i < |LabelsBelow(tuning, numStrings, s)| ==>
      NamesItsRow(LabelsBelow(tuning, numStrings, s)[i], tuning, numStrings)
    decreases s
  {
    if s > 0 {
      LabelsBelowNamed(tuning, numStrings, s - 1);
      var prev := LabelsBelow(tuning, numStrings, s - 1);
      var ls := LabelsBelow(tuning, numStrings, s);
      if 0 <= LabelIndex(s - 1, numStrings) < |tuning| {
        var last := RowLabel(tuning, numStrings, s - 1);
        assert ls == prev + [last];
        assert NamesItsRow(last, tuning, numStrings);
        forall i | 0 <= i < |ls| ensures NamesItsRow(ls[i], tuning, numStrings) {
          if i < |prev| {
            assert ls[i] == prev[i];
          }
        }
      } else {
        assert ls == prev;
      }
    }
  }

  /** Every row below `s` (and on the board) whose tuning entry exists has a label. */
  lemma {:induction false} LabelsBelowCover(tuning: seq<int>, numStrings: int, s: int)
    requires Pitches(tuning)
    ensures forall r :: 0 <= r < s && 0 <= LabelIndex(r, numStrings) < |tuning| ==>
      HasRow(LabelsBelow(tuning, numStrings, s), r)
    decreases s
  {
    if s > 0 {
      LabelsBelowCover(tuning, numStrings, s - 1);
      var prev := LabelsBelow(tuning, numStrings, s - 1);
      var ls := LabelsBelow(tuning, numStrings, s);
      if 0 <= LabelIndex(s - 1, numStrings) < |tuning| {
        var last := RowLabel(tuning, numStrings, s - 1);
        assert ls == prev + [last];
        assert ls[|prev|] == last;
        assert HasRow(ls, s - 1);
        forall r | 0 <= r < s - 1 && 0 <= LabelIndex(r, numStrings) < |tuning|
          ensures HasRow(ls, r)
        {
          var i :| 0 <= i < |prev| && prev[i].row == r;
          assert ls[i] == prev[i];
        }
      }
    }
  }

  /** The label loop: row s is labelled with tuning entry numStrings - 1 - s, when that entry exists. */
  method StringLabels(tuning: seq<int>, numStrings: int) returns (labels: seq<Label>)
    requires Pitches(tuning)
    ensures forall i, j :: 0 <= i < j < |labels| ==> labels[i].row < labels[j].row
    ensures forall i :: 0 <= i < |labels| ==> NamesItsRow(labels[i], tuning, numStrings)
    ensures forall s :: 0 <= s < numStrings && LabelIndex(s, numStrings) < |tuning| ==> HasRow(labels, s)
  {
    labels := [];
    var s := 0;
    while s < numStrings
      invariant 0 <= s && (numStrings >= 0 ==> s <= numStrings)
      invariant labels == LabelsBelow(tuning, numStrings, s)
    {
      var idx := numStrings - 1 - s;
      if idx < |tuning| {
        labels := labels + [RowLabel(tuning, numStrings, s)];
      }
      s := s + 1;
    }
    LabelsBelowOrdered(tuning, numStrings, s);
    LabelsBelowNamed(tuning, numStrings, s);
    LabelsBelowCover(tuning, numStrings, s);
  }
}
