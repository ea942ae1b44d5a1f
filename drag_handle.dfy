/**
 * The drag-handle directive: press, move and release handlers that update
 * the drag flag and the last position in place and emit deltas. Each handler
 * is proved to move the object's state as the matching function of module
 * Drag does; the object also keeps the telescoping invariant of the current
 * drag as part of its validity.
 */
module DragHandleDirective {
  import opened Drag

  class DragHandle {
    var draggingFlag: bool
    var lastY: int
    /** The document `mousemove`/`mouseup` listeners are registered. */
    var mouseListening: bool
    /** The document `touchmove`/`touchend` listeners are registered. */
    var touchListening: bool
    /** Every value emitted on the `dragging` output, in order. */
    ghost var emitted: seq<int>
    /** Where the current (or last) drag started, and how many values had been emitted then. */
    ghost var pressY: int
    ghost var dragStart: nat

    ghost function State(): Dragger
      reads this
    {
      Dragger(draggingFlag, lastY, mouseListening, touchListening, emitted)
    }

    /** The deltas emitted since the last press add up to the distance travelled since it. */
    ghost predicate Valid()
      reads this
    {
      && Drag.Valid(State())
      && dragStart <= |emitted|
      && Sum(emitted[dragStart..]) == lastY - pressY
    }

    constructor ()
      ensures Valid() && State() == Initial()
    {
      draggingFlag := false;
      lastY := 0;
      mouseListening := false;
      touchListening := false;
      emitted := [];
      pressY := 0;
      dragStart := 0;
    }

    method OnMouseDown(clientY: int)
      requires Valid()
      modifies this
      ensures Valid() && State() == Press(old(State()), clientY, Mouse)
      ensures pressY == clientY && dragStart == |emitted|
    {
      draggingFlag := true;
      lastY := clientY;
      mouseListening := true;
      pressY, dragStart := clientY, |emitted|;
    }

    method OnMove(clientY: int)
      requires Valid()
      modifies this
      ensures Valid() && State() == Move(old(State()), clientY)
      ensures pressY == old(pressY) && dragStart == old(dragStart)
    {
      if !draggingFlag { return; }
      var delta := clientY - lastY;
      lastY := clientY;
      EmitDelta(delta);
    }

    method OnUp()
      requires Valid()
      modifies this
      ensures Valid() && State() == Release(old(State()), Mouse)
      ensures pressY == old(pressY) && dragStart == old(dragStart)
    {
      draggingFlag := false;
      mouseListening := false;
    }

    method OnTouchStart(clientY: int)
      requires Valid()
      modifies this
      ensures Valid() && State() == Press(old(State()), clientY, Touch)
      ensures pressY == clientY && dragStart == |emitted|
    {
      draggingFlag := true;
      lastY := clientY;
      touchListening := true;
      pressY, dragStart := clientY, |emitted|;
    }

    method OnTouchMove(clientY: int)
      requires Valid()
      modifies this
      ensures Valid() && State() == Move(old(State()), clientY)
      ensures pressY == old(pressY) && dragStart == old(dragStart)
    {
      if !draggingFlag { return; }
      var delta := clientY - lastY;
      lastY := clientY;
      EmitDelta(delta);
    }

    method OnTouchEnd()
      requires Valid()
      modifies this
      ensures Valid() && State() == Release(old(State()), Touch)
      ensures pressY == old(pressY) && dragStart == old(dragStart)
    {
      draggingFlag := false;
      touchListening := false;
    }

    /** `dragging.emit(delta)`, right after `lastY` moved by `delta`. */
    ghost method EmitDelta(delta: int)
      requires dragStart <= |emitted| && Sum(emitted[dragStart..]) == lastY - delta - pressY
      modifies this`emitted
      ensures emitted == old(emitted) + [delta]
      ensures Sum(emitted[dragStart..]) == lastY - pressY
    {
      assert (emitted + [delta])[dragStart..] == emitted[dragStart..] + [delta];
      SumAppend(emitted[dragStart..], delta);
      emitted := emitted + [delta];
    }
  }
}
