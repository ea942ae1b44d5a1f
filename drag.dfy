/**
 * The drag-delta emitter as a state machine over values. A press starts a
 * drag at a position; each move during the drag emits the distance from the
 * last position and records the new one; a release ends the drag. Because
 * every delta is measured from the previous position, the deltas of one drag
 * add up to the distance travelled since the press.
 */
module Drag {

  /** Which input produced an event; each registers its own document listeners. */
  datatype Device = Mouse | Touch

  /**
   * The emitter's state: the drag flag, the last recorded position, whether
   * the document move/release listeners of each device are registered, and
   * every delta emitted so far.
   */
  datatype Dragger = Dragger(
    draggingFlag: bool,
    lastY: int,
    mouseListening: bool,
    touchListening: bool,
    emitted: seq<int>)

  function Sum(s: seq<int>): (r: int) {
    if s == [] then 0 else s[0] + Sum(s[1..])
  }

  lemma {:induction false} SumAppend(s: seq<int>, x: int)
    ensures Sum(s + [x]) == Sum(s) + x
  {
    if s != [] {
      assert (s + [x])[1..] == s[1..] + [x];
      SumAppend(s[1..], x);
    }
  }

  /** The state invariant: a drag in progress always has a device's listeners registered. */
  predicate Valid(s: Dragger) {
    s.draggingFlag ==> s.mouseListening || s.touchListening
  }

  function Initial(): (s: Dragger)
    ensures Valid(s) && !s.draggingFlag && s.emitted == []
    ensures !s.mouseListening && !s.touchListening && s.lastY == 0
  {
    Dragger(false, 0, false, false, [])
  }

  /** `onMouseDown` / `onTouchStart`: start a drag at `y` and register the device's listeners. */
  function Press(s: Dragger, y: int, d: Device): (r: Dragger)
    ensures Valid(r) && r.draggingFlag && r.lastY == y && r.emitted == s.emitted
    ensures d == Mouse ==> r.mouseListening && r.touchListening == s.touchListening
    ensures d == Touch ==> r.touchListening && r.mouseListening == s.mouseListening
  {
    match d
    case Mouse => s.(draggingFlag := true, lastY := y, mouseListening := true)
    case Touch => s.(draggingFlag := true, lastY := y, touchListening := true)
  }

  /**
   * `onMove` / `onTouchMove`: outside a drag nothing changes and nothing is
   * emitted; during a drag exactly one delta is emitted, the distance from
   * the last position to `y`, and `y` becomes the last position.
   */
  function Move(s: Dragger, y: int): (r: Dragger)
    ensures Valid(s) ==> Valid(r)
    ensures !s.draggingFlag ==> r == s
    ensures s.draggingFlag ==> && r.lastY == y
                               && |r.emitted| == |s.emitted| + 1
                               && r.emitted[..|s.emitted|] == s.emitted
                               && r.emitted[|s.emitted|] == y - s.lastY
                               && Sum(r.emitted) - Sum(s.emitted) == r.lastY - s.lastY
    ensures r.(lastY := s.lastY, emitted := s.emitted) == s
  {
    if !s.draggingFlag then s
    else
      var delta := y - s.lastY;
      SumAppend(s.emitted, delta);
      s.(lastY := y, emitted := s.emitted + [delta])
  }

  /** `onUp` / `onTouchEnd`: end the drag and unregister the device's listeners; `lastY` stays. */
  function Release(s: Dragger, d: Device): (r: Dragger)
    ensures Valid(r) && !r.draggingFlag && r.lastY == s.lastY && r.emitted == s.emitted
    ensures d == Mouse ==> !r.mouseListening && r.touchListening == s.touchListening
    ensures d == Touch ==> !r.touchListening && r.mouseListening == s.mouseListening
  {
    match d
    case Mouse => s.(draggingFlag := false, mouseListening := false)
    case Touch => s.(draggingFlag := false, touchListening := false)
  }

  /** The moves `ys`, in order: they only append to the emitted values, at most one per move. */
  function Moves(s: Dragger, ys: seq<int>): (r: Dragger)
    ensures Valid(s) ==> Valid(r)
    ensures r.draggingFlag == s.draggingFlag
    ensures |s.emitted| <= |r.emitted| <= |s.emitted| + |ys| && r.emitted[..|s.emitted|] == s.emitted
    decreases |ys|
  {
    if ys == [] then s else Moves(Move(s, ys[0]), ys[1..])
  }

  /**
   * During a drag, the moves `ys` emit one delta each, appended to what was
   * emitted before, and those deltas sum to the distance from the position
   * before the moves to the position after them.
   */
  lemma {:induction false} Telescoping(s: Dragger, ys: seq<int>)
    requires s.draggingFlag
    ensures var r := Moves(s, ys);
            && r.draggingFlag
            && |r.emitted| == |s.emitted| + |ys|
            && r.emitted[..|s.emitted|] == s.emitted
            && Sum(r.emitted[|s.emitted|..]) == r.lastY - s.lastY
            && (ys != [] ==> r.lastY == ys[|ys| - 1])
    decreases |ys|
  {
    if ys == [] {
      assert Moves(s, ys).emitted[|s.emitted|..] == [];
    } else {
      var s1 := Move(s, ys[0]);
      Telescoping(s1, ys[1..]);
      var r := Moves(s1, ys[1..]);
      var n := |s.emitted|;
      assert r.emitted[n..] == [ys[0] - s.lastY] + r.emitted[n + 1..] by {
        assert r.emitted[..n + 1] == s1.emitted;
      }
      assert r.emitted[n..][1..] == r.emitted[n + 1..];
    }
  }

  /** A press at `y0` followed by moves: the deltas of that drag sum to the current position minus `y0`. */
  lemma PressThenMoves(s: Dragger, y0: int, d: Device, ys: seq<int>)
    ensures var r := Moves(Press(s, y0, d), ys);
            |r.emitted| == |s.emitted| + |ys| && Sum(r.emitted[|s.emitted|..]) == r.lastY - y0
  {
    Telescoping(Press(s, y0, d), ys);
  }

  /** Outside a drag, no number of moves emits anything or changes anything. */
  lemma {:induction false} MovesWhileReleased(s: Dragger, ys: seq<int>)
    requires !s.draggingFlag
    ensures Moves(s, ys) == s
    decreases |ys|
  {
    if ys != [] {
      MovesWhileReleased(Move(s, ys[0]), ys[1..]);
    }
  }

  /** After a release, moves emit nothing until the next press. */
  lemma ReleaseThenMoves(s: Dragger, d: Device, ys: seq<int>)
    ensures Moves(Release(s, d), ys) == Release(s, d)
  {
    MovesWhileReleased(Release(s, d), ys);
  }

  /** Mouse and touch presses and releases agree on everything but which listeners they touch. */
  lemma TouchMatchesMouse(s: Dragger, y: int)
    ensures Press(s, y, Touch).(touchListening := s.touchListening)
         == Press(s, y, Mouse).(mouseListening := s.mouseListening)
    ensures Release(s, Touch).(touchListening := s.touchListening)
         == Release(s, Mouse).(mouseListening := s.mouseListening)
  {
  }
}
