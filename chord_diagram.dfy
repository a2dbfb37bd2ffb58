/**
 * The chord box (`ChordDiagram`): a five-fret window starting at the
 * chord's first fret (or at the nut), one vertical line per string, a
 * mark above or on each string, and barre lines. The drawing is the list
 * of elements the component pushes, with integer coordinates.
 */
module ChordDiagram {
  import opened Wrappers
  import opened ActiveChord

  const STRING_SPACING := 16
  const FRET_SPACING := 22
  const FRETS_SHOWN := 5
  const PADDING_X := 20
  const PADDING_TOP := 32
  const NUT_HEIGHT := 4

  function Width(numStrings: int): int {
    PADDING_X * 2 + (numStrings - 1) * STRING_SPACING
  }

  function Height(): int {
    PADDING_TOP + FRETS_SHOWN * FRET_SPACING + 24
  }

  /** The diagram is 16 units wider per extra string and always 166 high. */
  lemma Size(numStrings: int)
    ensures Width(numStrings) == 40 + 16 * (numStrings - 1)
    ensures Width(numStrings + 1) - Width(numStrings) == STRING_SPACING
    ensures Height() == 166
  {
  }

  /** The window starts at the nut for first frets up to 1. */
  predicate IsAtNut(firstFret: int) { firstFret <= 1 }

  function BaseFret(firstFret: int): (b: int)
    ensures b >= 1
    ensures IsAtNut(firstFret) <==> b == 1 && firstFret <= 1
    ensures !IsAtNut(firstFret) ==> b == firstFret
  {
    if IsAtNut(firstFret) then 1 else firstFret
  }

  /** The row of a fret inside the window: 1 for the base fret. */
  function RelFret(fret: int, base: int): int { fret - base + 1 }

  predicate InWindow(rel: int) { 1 <= rel <= FRETS_SHOWN }

  /** The x of string s and the y of the middle of window row `rel`. */
  function StringX(s: int): int { PADDING_X + s * STRING_SPACING }

  function RowMidY(rel: int): int { PADDING_TOP + NUT_HEIGHT + rel * FRET_SPACING - FRET_SPACING / 2 }

  datatype Element =
    | ChordName(name: string)
    | Nut
    | FretLabel(fret: int)
    | FretLine(y: int)
    | StringLine(x: int)
    | BarreLine(fret: int, x1: int, x2: int, y: int)
    | Mute(x: int)
    | Open(x: int)
    | Dot(x: int, y: int)

  /** The nut when the window starts at fret 1, else the base fret's number. */
  function Header(firstFret: int): seq<Element> {
    if IsAtNut(firstFret) then [Nut] else [FretLabel(BaseFret(firstFret))]
  }

  /** The fret number is drawn exactly when the window is away from the nut, and it is the first fret. */
  lemma HeaderCases(firstFret: int)
    ensures Header(firstFret) == [Nut] <==> firstFret <= 1
    ensures forall b :: FretLabel(b) in Header(firstFret) <==> firstFret > 1 && b == firstFret
  {
  }

  /** The mark drawn for string s whose value is v: X when muted, O when open, a dot when the fret is in the window. */
  function MarkAt(v: int, s: int, base: int): seq<Element> {
    if v == -1 then [Mute(StringX(s))]
    else if v == 0 then [Open(StringX(s))]
    else if InWindow(RelFret(v, base)) then [Dot(StringX(s), RowMidY(RelFret(v, base)))]
    else []
  }

  lemma MarkCases(v: int, s: int, base: int)
    ensures MarkAt(v, s, base) == [Mute(StringX(s))] <==> v == -1
    ensures MarkAt(v, s, base) == [Open(StringX(s))] <==> v == 0
    ensures (exists y :: MarkAt(v, s, base) == [Dot(StringX(s), y)]) <==>
      v != -1 && v != 0 && 1 <= v - base + 1 <= 5
    ensures MarkAt(v, s, base) == [] <==> v != -1 && v != 0 && !(1 <= v - base + 1 <= 5)
  {
  }

  /** A dot sits in the middle of its window row, inside the grid. */
  lemma DotInsideGrid(v: int, s: int, base: int)
    requires v != -1 && v != 0 && InWindow(RelFret(v, base))
    ensures var y := RowMidY(RelFret(v, base));
      && y == 25 + 22 * (v - base + 1)
      && PADDING_TOP + NUT_HEIGHT < y < PADDING_TOP + NUT_HEIGHT + FRETS_SHOWN * FRET_SPACING
  {
  }

  /** The number of strings that get a mark: those below both the string count and the array length. */
  function MarkLimit(strings: seq<int>, numStrings: int): (k: nat)
    ensures k <= |strings|
    ensures numStrings >= 0 ==> k <= numStrings
  {
    if numStrings <= 0 then 0 else Min(numStrings, |strings|)
  }

  /** The marks of strings 0 to k - 1. */
  function MarksUpTo(strings: seq<int>, base: int, k: nat): seq<Element>
    requires k <= |strings|
  {
    if k == 0 then [] else MarksUpTo(strings, base, k - 1) + MarkAt(strings[k - 1], k - 1, base)
  }

  /** At most one mark per string, for strings below k only, in string order. */
  lemma {:induction false} MarksBounded(strings: seq<int>, base: int, k: nat)
    requires k <= |strings|
    ensures |MarksUpTo(strings, base, k)| <= k
    ensures forall e: Element :: e in MarksUpTo(strings, base, k) ==>
      (e.Mute? || e.Open? || e.Dot?) && exists s :: 0 <= s < k && e.x == StringX(s)
  {
    if k > 0 {
      MarksBounded(strings, base, k - 1);
      var a, b := MarksUpTo(strings, base, k - 1), MarkAt(strings[k - 1], k - 1, base);
      forall e: Element | e in a + b
        ensures (e.Mute? || e.Open? || e.Dot?) && exists s :: 0 <= s < k && e.x == StringX(s)
      {
        if e in a {
          var s :| 0 <= s < k - 1 && e.x == StringX(s);
        } else {
          assert e.x == StringX(k - 1);
        }
      }
    }
  }

  /** The last string matched by a barre fret, on the left: `min(numStrings - 1, matches)`. */
  function BarreLeft(strings: seq<int>, fret: int, numStrings: int): int {
    if strings == [] then numStrings - 1
    else
      var l := BarreLeft(strings[..|strings| - 1], fret, numStrings);
      if strings[|strings| - 1] == fret then Min(l, |strings| - 1) else l
  }

  /** On the right: `max(0, matches)`. */
  function BarreRight(strings: seq<int>, fret: int): int {
    if strings == [] then 0
    else
      var r := BarreRight(strings[..|strings| - 1], fret);
      if strings[|strings| - 1] == fret then Max(r, |strings| - 1) else r
  }

  /**
   * The barre spans the leftmost to the rightmost string holding its fret;
   * with no such string the extent is numStrings - 1 to 0.
   */
  lemma {:induction false} BarreExtentSpec(strings: seq<int>, fret: int, numStrings: int)
    ensures var l := BarreLeft(strings, fret, numStrings);
      && l <= numStrings - 1
      && (forall s :: 0 <= s < |strings| && strings[s] == fret ==> l <= s)
      && (l == numStrings - 1 || (0 <= l < |strings| && strings[l] == fret))
    ensures var r := BarreRight(strings, fret);
      && r >= 0
      && (forall s :: 0 <= s < |strings| && strings[s] == fret ==> s <= r)
      && (r == 0 || (0 <= r < |strings| && strings[r] == fret))
  {
    if strings != [] {
      var init := strings[..|strings| - 1];
      BarreExtentSpec(init, fret, numStrings);
      assert forall s :: 0 <= s < |init| ==> init[s] == strings[s];
    }
  }

  /** The barre loop's inner scan. */
  method BarreExtent(strings: seq<int>, fret: int, numStrings: int) returns (left: int, right: int)
    ensures left == BarreLeft(strings, fret, numStrings) && right == BarreRight(strings, fret)
  {
    left, right := numStrings - 1, 0;
    var s := 0;
    while s < |strings|
      invariant 0 <= s <= |strings|
      invariant left == BarreLeft(strings[..s], fret, numStrings)
      invariant right == BarreRight(strings[..s], fret)
    {
      assert strings[..s + 1][..s] == strings[..s];
      if strings[s] == fret {
        left := Min(left, s);
        right := Max(right, s);
      }
      s := s + 1;
    }
    assert strings[..s] == strings;
  }

  /** The barre line for one barre fret, when that fret is inside the window. */
  function BarreAt(fret: int, strings: seq<int>, numStrings: int, base: int): seq<Element> {
    var rel := RelFret(fret, base);
    if !InWindow(rel) then []
    else [BarreLine(fret, StringX(BarreLeft(strings, fret, numStrings)), StringX(BarreRight(strings, fret)), RowMidY(rel))]
  }

  function BarresOf(barreFrets: seq<int>, strings: seq<int>, numStrings: int, base: int): seq<Element> {
    if barreFrets == [] then []
    else
      BarresOf(barreFrets[..|barreFrets| - 1], strings, numStrings, base)
        + BarreAt(barreFrets[|barreFrets| - 1], strings, numStrings, base)
  }

  /** Barres outside the window are skipped; each drawn one is a barre fret inside it. */
  lemma {:induction false} BarresInWindow(barreFrets: seq<int>, strings: seq<int>, numStrings: int, base: int)
    ensures |BarresOf(barreFrets, strings, numStrings, base)| <= |barreFrets|
    ensures forall e: Element :: e in BarresOf(barreFrets, strings, numStrings, base) ==>
      e.BarreLine? && e.fret in barreFrets && InWindow(RelFret(e.fret, base))
    ensures forall f :: f in barreFrets && InWindow(RelFret(f, base)) ==>
      exists e: Element :: e in BarresOf(barreFrets, strings, numStrings, base) && e.BarreLine? && e.fret == f
  {
    if barreFrets != [] {
      var init := barreFrets[..|barreFrets| - 1];
      var last := barreFrets[|barreFrets| - 1];
      BarresInWindow(init, strings, numStrings, base);
      assert barreFrets == init + [last];
      var a, b := BarresOf(init, strings, numStrings, base), BarreAt(last, strings, numStrings, base);
      forall f | f in barreFrets && InWindow(RelFret(f, base))
        ensures exists e: Element :: e in a + b && e.BarreLine? && e.fret == f
      {
        if f == last {
          assert b[0] in a + b;
        } else {
          assert f in init;
          var e :| e in a && e.BarreLine? && e.fret == f;
          assert e in a + b;
        }
      }
    }
  }

  /** The six fret lines of the window, top to bottom. */
  function FretLinesOf(): (ls: seq<Element>)
    ensures |ls| == FRETS_SHOWN + 1
    ensures forall f :: 0 <= f <= FRETS_SHOWN ==> ls[f] == FretLine(PADDING_TOP + NUT_HEIGHT + f * FRET_SPACING)
  {
    seq(FRETS_SHOWN + 1, f requires 0 <= f <= FRETS_SHOWN => FretLine(PADDING_TOP + NUT_HEIGHT + f * FRET_SPACING))
  }

  /** One vertical line per string. */
  function StringLinesOf(numStrings: nat): (ls: seq<Element>)
    ensures |ls| == numStrings
    ensures forall s :: 0 <= s < numStrings ==> ls[s] == StringLine(StringX(s))
  {
    seq(numStrings, s requires 0 <= s < numStrings => StringLine(StringX(s)))
  }

  /** The whole element list of the diagram, in push order. */
  function Drawing(chord: Shape, numStrings: int): seq<Element> {
    var base := BaseFret(chord.firstFret);
    [ChordName(chord.name)] + Header(chord.firstFret) + FretLinesOf()
      + StringLinesOf(if numStrings < 0 then 0 else numStrings)
      + BarresOf(chord.barreFrets, chord.strings, numStrings, base)
      + MarksUpTo(chord.strings, base, MarkLimit(chord.strings, numStrings))
  }

  /** How many elements satisfy `p`. */
  function Count(es: seq<Element>, p: Element -> bool): (n: nat)
    ensures n <= |es|
  {
    if es == [] then 0 else Count(es[..|es| - 1], p) + (if p(es[|es| - 1]) then 1 else 0)
  }

  lemma {:induction false} CountAppend(a: seq<Element>, b: seq<Element>, p: Element -> bool)
    ensures Count(a + b, p) == Count(a, p) + Count(b, p)
    decreases |b|
  {
    if b == [] {
      assert a + b == a;
    } else {
      assert (a + b)[..|a + b| - 1] == a + b[..|b| - 1];
      assert (a + b)[|a + b| - 1] == b[|b| - 1];
      CountAppend(a, b[..|b| - 1], p);
    }
  }

  lemma {:induction false} CountAll(es: seq<Element>, p: Element -> bool)
    requires forall i :: 0 <= i < |es| ==> p(es[i])
    ensures Count(es, p) == |es|
  {
    if es != [] {
      CountAll(es[..|es| - 1], p);
    }
  }

  lemma {:induction false} CountNone(es: seq<Element>, p: Element -> bool)
    requires forall i :: 0 <= i < |es| ==> !p(es[i])
    ensures Count(es, p) == 0
  {
    if es != [] {
      CountNone(es[..|es| - 1], p);
    }
  }

  predicate IsFretLine(e: Element) { e.FretLine? }

  predicate IsStringLine(e: Element) { e.StringLine? }

  /** Neither a fret line nor a string line. */
  predicate NoGridLine(es: seq<Element>) {
    forall i :: 0 <= i < |es| ==> !es[i].FretLine? && !es[i].StringLine?
  }

  /** The name, the header, the barres and the marks are no grid lines. */
  lemma Decorations(chord: Shape, numStrings: int)
    ensures NoGridLine([ChordName(chord.name)] + Header(chord.firstFret))
    ensures NoGridLine(BarresOf(chord.barreFrets, chord.strings, numStrings, BaseFret(chord.firstFret))
      + MarksUpTo(chord.strings, BaseFret(chord.firstFret), MarkLimit(chord.strings, numStrings)))
  {
    var base := BaseFret(chord.firstFret);
    var barres := BarresOf(chord.barreFrets, chord.strings, numStrings, base);
    var marks := MarksUpTo(chord.strings, base, MarkLimit(chord.strings, numStrings));
    BarresInWindow(chord.barreFrets, chord.strings, numStrings, base);
    MarksBounded(chord.strings, base, MarkLimit(chord.strings, numStrings));
    var rest := barres + marks;
    forall i | 0 <= i < |rest|
      ensures !rest[i].FretLine? && !rest[i].StringLine?
    {
      if i < |barres| {
        assert rest[i] in barres;
      } else {
        assert rest[i] == marks[i - |barres|];
        assert rest[i] in marks;
      }
    }
  }

  /** Counting lines over head, fret lines, string lines and the rest. */
  lemma {:induction false} CountLayout(head: seq<Element>, frets: seq<Element>, strs: seq<Element>, rest: seq<Element>)
    requires NoGridLine(head) && NoGridLine(rest)
    requires forall i :: 0 <= i < |frets| ==> frets[i].FretLine?
    requires forall i :: 0 <= i < |strs| ==> strs[i].StringLine?
    ensures Count(head + frets + strs + rest, IsFretLine) == |frets|
    ensures Count(head + frets + strs + rest, IsStringLine) == |strs|
  {
    CountAppend(head + frets + strs, rest, IsFretLine);
    CountAppend(head + frets, strs, IsFretLine);
    CountAppend(head, frets, IsFretLine);
    CountNone(head, IsFretLine);
    CountAll(frets, IsFretLine);
    CountNone(strs, IsFretLine);
    CountNone(rest, IsFretLine);
    CountAppend(head + frets + strs, rest, IsStringLine);
    CountAppend(head + frets, strs, IsStringLine);
    CountAppend(head, frets, IsStringLine);
    CountNone(head, IsStringLine);
    CountNone(frets, IsStringLine);
    CountAll(strs, IsStringLine);
    CountNone(rest, IsStringLine);
  }

  /** Exactly six fret lines and one line per string are drawn. */
  lemma GridLines(chord: Shape, numStrings: nat)
    ensures Count(Drawing(chord, numStrings), IsFretLine) == FRETS_SHOWN + 1
    ensures Count(Drawing(chord, numStrings), IsStringLine) == numStrings
  {
    var base := BaseFret(chord.firstFret);
    var head := [ChordName(chord.name)] + Header(chord.firstFret);
    var rest := BarresOf(chord.barreFrets, chord.strings, numStrings, base)
      + MarksUpTo(chord.strings, base, MarkLimit(chord.strings, numStrings));
    Decorations(chord, numStrings);
    assert Drawing(chord, numStrings) == head + FretLinesOf() + StringLinesOf(numStrings) + rest;
    CountLayout(head, FretLinesOf(), StringLinesOf(numStrings), rest);
  }

  /** The barre loop: one line per barre fret inside the window, in order. */
  method Barres(barreFrets: seq<int>, strings: seq<int>, numStrings: int, base: int) returns (els: seq<Element>)
    ensures els == BarresOf(barreFrets, strings, numStrings, base)
  {
    els := [];
    var i := 0;
    while i < |barreFrets|
      invariant 0 <= i <= |barreFrets|
      invariant els == BarresOf(barreFrets[..i], strings, numStrings, base)
    {
      assert barreFrets[..i + 1][..i] == barreFrets[..i];
      var fret := barreFrets[i];
      var rel := fret - base + 1;
      if rel < 1 || rel > FRETS_SHOWN {
        i := i + 1;
        continue;
      }
      var left, right := BarreExtent(strings, fret, numStrings);
      els := els + [BarreLine(fret, PADDING_X + left * STRING_SPACING, PADDING_X + right * STRING_SPACING, RowMidY(rel))];
      i := i + 1;
    }
    assert barreFrets[..i] == barreFrets;
  }

  /** The mark loop: strings below both the string count and the array length. */
  method Marks(strings: seq<int>, numStrings: int, base: int) returns (els: seq<Element>)
    ensures els == MarksUpTo(strings, base, MarkLimit(strings, numStrings))
  {
    els := [];
    var s := 0;
    while s < numStrings && s < |strings|
      invariant 0 <= s <= MarkLimit(strings, numStrings)
      invariant els == MarksUpTo(strings, base, s)
    {
      var v := strings[s];
      var x := PADDING_X + s * STRING_SPACING;
      if v == -1 {
        els := els + [Mute(x)];
      } else if v == 0 {
        els := els + [Open(x)];
      } else {
        var rel := v - base + 1;
        if rel >= 1 && rel <= FRETS_SHOWN {
          els := els + [Dot(x, RowMidY(rel))];
        }
      }
      s := s + 1;
    }
  }

  /** The component: the name, the nut or fret number, the grid, the barres and the marks. */
  method Render(chord: Shape, numStrings: int) returns (elements: seq<Element>)
    ensures elements == Drawing(chord, numStrings)
  {
    var isAtNut := chord.firstFret <= 1;
    var base := if isAtNut then 1 else chord.firstFret;
    elements := [ChordName(chord.name)];
    if isAtNut {
      elements := elements + [Nut];
    } else {
      elements := elements + [FretLabel(base)];
    }
    var f := 0;
    while f <= FRETS_SHOWN
      invariant 0 <= f <= FRETS_SHOWN + 1
      invariant elements == [ChordName(chord.name)] + Header(chord.firstFret) + FretLinesOf()[..f]
    {
      elements := elements + [FretLine(PADDING_TOP + NUT_HEIGHT + f * FRET_SPACING)];
      f := f + 1;
    }
    ghost var n: nat := if numStrings < 0 then 0 else numStrings;
    var s := 0;
    while s < numStrings
      invariant 0 <= s && (numStrings >= 0 ==> s <= numStrings) && (numStrings < 0 ==> s == 0)
      invariant elements == [ChordName(chord.name)] + Header(chord.firstFret) + FretLinesOf() + StringLinesOf(n)[..s]
    {
      elements := elements + [StringLine(PADDING_X + s * STRING_SPACING)];
      s := s + 1;
    }
    assert StringLinesOf(n)[..s] == StringLinesOf(n);
    var barres := Barres(chord.barreFrets, chord.strings, numStrings, base);
    var marks := Marks(chord.strings, numStrings, base);
    elements := elements + barres + marks;
  }
}
