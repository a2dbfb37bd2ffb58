/**
 * The resizable side panel (`useResizable`): a width read from storage
 * when it is valid, and a drag driven by mouse-down, mouse-move and
 * mouse-up that keeps the width within its bounds and stores it when the
 * drag ends.
 */
module Resizable {
  import opened Wrappers

  /** What `Number(localStorage.getItem(key))` makes of the stored text. */
  datatype StoredWidth =
    | NoValue          // nothing stored, or the empty string
    | NotANumber
    | Number(v: int)

  /** The starting width: the stored one when it is a number within the bounds, else the default. */
  function InitialWidth(stored: StoredWidth, initialWidth: int, minWidth: int, maxWidth: int): (w: int)
    ensures stored.Number? && minWidth <= stored.v <= maxWidth ==> w == stored.v
    ensures !(stored.Number? && minWidth <= stored.v <= maxWidth) ==> w == initialWidth
    ensures minWidth <= initialWidth <= maxWidth ==> minWidth <= w <= maxWidth
  {
    match stored
    case Number(v) => if minWidth <= v <= maxWidth then v else initialWidth
    case _ => initialWidth
  }

  /** `Math.min(maxWidth, Math.max(minWidth, w))`. */
  function Clamp(w: int, minWidth: int, maxWidth: int): (c: int)
    ensures c <= maxWidth
    ensures minWidth <= maxWidth ==> minWidth <= c
    ensures minWidth <= w <= maxWidth ==> c == w
    ensures w < minWidth ==> c == Min(maxWidth, minWidth)
    ensures w > maxWidth ==> c == maxWidth
  {
    Min(maxWidth, Max(minWidth, w))
  }

  /** Clamping twice is clamping once, and clamping never reverses the order of two widths. */
  lemma ClampProperties(w: int, x: int, minWidth: int, maxWidth: int)
    requires minWidth <= maxWidth
    ensures Clamp(Clamp(w, minWidth, maxWidth), minWidth, maxWidth) == Clamp(w, minWidth, maxWidth)
    ensures w <= x ==> Clamp(w, minWidth, maxWidth) <= Clamp(x, minWidth, maxWidth)
  {
  }

  class Panel {
    const minWidth: int
    const maxWidth: int
    const initialWidth: int
    var storage: StoredWidth
    var width: int
    var isDragging: bool
    var startX: int
    var startWidth: int

    /** Mounting reads the stored width. */
    constructor (initialWidth: int, minWidth: int, maxWidth: int, stored: StoredWidth)
      ensures this.initialWidth == initialWidth && this.minWidth == minWidth && this.maxWidth == maxWidth
      ensures storage == stored && width == InitialWidth(stored, initialWidth, minWidth, maxWidth)
      ensures !isDragging && startX == 0 && startWidth == 0
    {
      this.initialWidth, this.minWidth, this.maxWidth := initialWidth, minWidth, maxWidth;
      storage := stored;
      width := InitialWidth(stored, initialWidth, minWidth, maxWidth);
      isDragging, startX, startWidth := false, 0, 0;
    }

    predicate InBounds()
      reads this
    {
      minWidth <= width <= maxWidth
    }

    /** Mouse-down on the handle: a drag starts from this pointer position and the current width. */
    method MouseDown(clientX: int)
      modifies this`isDragging, this`startX, this`startWidth
      ensures isDragging && startX == clientX && startWidth == width
    {
      isDragging := true;
      startX := clientX;
      startWidth := width;
    }

    /** Mouse-move: ignored unless dragging; otherwise the start width plus the pointer's travel, clamped. */
    method MouseMove(clientX: int)
      modifies this`width
      ensures !isDragging ==> width == old(width)
      ensures isDragging ==> width == Clamp(startWidth + (clientX - startX), minWidth, maxWidth)
      ensures isDragging && minWidth <= maxWidth ==> InBounds()
      ensures old(InBounds()) ==> InBounds()
    {
      if !isDragging {
        return;
      }
      width := Clamp(startWidth + (clientX - startX), minWidth, maxWidth);
    }

    /** Mouse-up: ignored unless dragging; otherwise the drag ends and the width is stored unchanged. */
    method MouseUp()
      modifies this`isDragging, this`storage
      ensures !old(isDragging) ==> !isDragging && storage == old(storage)
      ensures old(isDragging) ==> !isDragging && storage == Number(width)
      ensures old(isDragging) && InBounds() ==> InitialWidth(storage, initialWidth, minWidth, maxWidth) == width
    {
      if !isDragging {
        return;
      }
      isDragging := false;
      storage := Number(width);
    }
  }

  /**
   * A whole drag: press at `downX`, move through `moves`, release. The
   * moves do not accumulate: the final width depends on the last position
   * only, and it is what the next mount reads back.
   */
  method Drag(p: Panel, downX: int, moves: seq<int>)
    requires p.minWidth <= p.maxWidth
    requires moves != []
    modifies p
    ensures p.width == Clamp(old(p.width) + (moves[|moves| - 1] - downX), p.minWidth, p.maxWidth)
    ensures !p.isDragging && p.InBounds()
    ensures InitialWidth(p.storage, p.initialWidth, p.minWidth, p.maxWidth) == p.width
  {
    p.MouseDown(downX);
    var i := 0;
    while i < |moves|
      invariant 0 <= i <= |moves|
      invariant p.isDragging && p.startX == downX && p.startWidth == old(p.width)
      invariant i > 0 ==> p.width == Clamp(old(p.width) + (moves[i - 1] - downX), p.minWidth, p.maxWidth)
    {
      p.MouseMove(moves[i]);
      i := i + 1;
    }
    p.MouseUp();
  }
}
