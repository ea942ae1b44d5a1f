/**
 * The paged section navigator as a state machine over values: every handler
 * of the scroll container is a function from the old state (and the event's
 * payload) to the new state. The class in scroll_container.dfy is proved to
 * follow these functions step by step.
 */
module Paging {
  import opened Sections

  /** A tween started towards part `index`, whose last frame puts the content at `endY`. */
  datatype Tween = Tween(index: int, endY: int)

  /**
   * The navigator's state. `targetY` is the content offset the animation
   * library was last told to reach or set (by a tween's start and last
   * frame, or by a resize), and `started` logs every tween started so far;
   * both stand for effects on the DOM.
   */
  datatype Pager = Pager(
    currentIndex: int,
    scrolling: bool,
    hasScrolled: bool,
    activeSection: string,
    lastTouchY: int,
    viewHeight: int,
    targetY: int,
    started: seq<Tween>)

  /** A touch has to travel strictly more than this many pixels to page. */
  const TouchThreshold: int := 40

  function Abs(x: int): (r: int)
    ensures r >= 0 && (r == x || r == -x)
  {
    if x < 0 then -x else x
  }

  function Min(a: int, b: int): (r: int)
    ensures r <= a && r <= b && (r == a || r == b)
  {
    if a <= b then a else b
  }

  /** The state invariant every handler keeps. */
  predicate Valid(p: Pager) {
    && 0 <= p.currentIndex <= LastPart
    && IsPartId(p.activeSection)
    && (p.scrolling ==> |p.started| > 0)
    && forall i :: 0 <= i < |p.started| ==> 0 <= p.started[i].index <= LastPart
  }

  /** The content offset that shows part `index` at view height `h`. */
  function OffsetOf(index: int, h: int): (r: int) { -index * h }

  /** The content offset last requested shows the current part. */
  predicate Aligned(p: Pager) {
    p.targetY == OffsetOf(p.currentIndex, p.viewHeight)
  }

  /** `r` is `p` moved to part `k` with a tween towards part `k` started. */
  predicate MovedTo(p: Pager, r: Pager, k: int) {
    var y := OffsetOf(k, p.viewHeight);
    r == p.(currentIndex := k, scrolling := true, targetY := y, started := p.started + [Tween(k, y)])
  }

  /**
   * `r` is `p` after one step forward (or back) through the parts, ignoring
   * the touch anchor: outside the parts nothing changes; inside, the index
   * moves and a tween starts unless one is already in flight.
   */
  predicate Stepped(p: Pager, r: Pager, forward: bool) {
    var k := if forward then p.currentIndex + 1 else p.currentIndex - 1;
    var q := r.(lastTouchY := p.lastTouchY);
    if 0 <= k <= LastPart then
      if p.scrolling then q == p.(currentIndex := k) else MovedTo(p, q, k)
    else q == p
  }

  /** The state right after construction, with the window's inner height. */
  function Initial(innerHeight: int): (p: Pager)
    ensures Valid(p) && Aligned(p)
    ensures p.currentIndex == 0 && !p.scrolling && !p.hasScrolled && p.started == []
    ensures p.activeSection == Parts()[1].id && p.viewHeight == innerHeight
    ensures p.lastTouchY == 0 && p.targetY == 0
  {
    Pager(0, false, false, Parts()[1].id, 0, innerHeight, 0, [])
  }

  /**
   * The start half of `animateToPart`: unless a tween is in flight, take the
   * lock and start a tween to the offset of part `index` at the current
   * view height.
   */
  function AnimateToPart(p: Pager, index: int): (r: Pager)
    ensures r.scrolling
    ensures p.scrolling ==> r == p
    ensures !p.scrolling ==> MovedTo(p.(currentIndex := index), r.(currentIndex := index), index)
    ensures r.currentIndex == p.currentIndex
  {
    if p.scrolling then p
    else
      var y := OffsetOf(index, p.viewHeight);
      p.(scrolling := true, targetY := y, started := p.started + [Tween(index, y)])
  }

  /**
   * Tween `t` finishing: its last frame puts the content at its end offset,
   * then the `onComplete` half of `animateToPart` runs for `t.index`.
   */
  function CompleteAnimation(p: Pager, t: Tween): (r: Pager)
    requires 0 <= t.index
    ensures !r.scrolling && r.hasScrolled && r.targetY == t.endY
    ensures IsPartId(r.activeSection)
    ensures t.index <= LastPart ==> r.activeSection == Parts()[t.index].id
    ensures t.index > LastPart ==> r.activeSection == Parts()[LastPart].id
    ensures r.(scrolling := p.scrolling, hasScrolled := p.hasScrolled,
               activeSection := p.activeSection, targetY := p.targetY) == p
    ensures Valid(p) ==> Valid(r)
  {
    p.(scrolling := false, hasScrolled := true, targetY := t.endY,
       activeSection := Parts()[Min(t.index, |Parts()| - 1)].id)
  }

  function MoveToNext(p: Pager): (r: Pager)
    requires Valid(p)
    ensures Valid(r)
    ensures Stepped(p, r, true) && r.lastTouchY == p.lastTouchY
    ensures p.currentIndex == LastPart ==> r == p
  {
    if p.currentIndex < |Parts()| - 1 then
      AnimateToPart(p.(currentIndex := p.currentIndex + 1), p.currentIndex + 1)
    else p
  }

  function MoveToPrev(p: Pager): (r: Pager)
    requires Valid(p)
    ensures Valid(r)
    ensures Stepped(p, r, false) && r.lastTouchY == p.lastTouchY
    ensures p.currentIndex == 0 ==> r == p
  {
    if p.currentIndex > 0 then
      AnimateToPart(p.(currentIndex := p.currentIndex - 1), p.currentIndex - 1)
    else p
  }

  /**
   * A wheel event: ignored while a tween is in flight; otherwise a positive
   * `deltaY` pages forward and any other `deltaY`, zero included, pages back.
   */
  function OnWheel(p: Pager, deltaY: int): (r: Pager)
    requires Valid(p)
    ensures Valid(r)
    ensures p.scrolling ==> r == p
    ensures !p.scrolling ==> Stepped(p, r, deltaY > 0) && r.lastTouchY == p.lastTouchY
  {
    if p.scrolling then p
    else if deltaY > 0 then MoveToNext(p)
    else MoveToPrev(p)
  }

  /** A touch start records the finger position, even while a tween is in flight. */
  function OnTouchStart(p: Pager, y: int): (r: Pager)
    ensures r.lastTouchY == y && r.(lastTouchY := p.lastTouchY) == p
  {
    p.(lastTouchY := y)
  }

  /**
   * A touch move: ignored while a tween is in flight or while the finger is
   * within the threshold of the recorded position (the position is then
   * kept); beyond it, an upward swipe pages forward, a downward one back, and
   * the new position is recorded.
   */
  function OnTouchMove(p: Pager, y: int): (r: Pager)
    requires Valid(p)
    ensures Valid(r)
    ensures p.scrolling || Abs(p.lastTouchY - y) <= TouchThreshold ==> r == p
    ensures !p.scrolling && Abs(p.lastTouchY - y) > TouchThreshold ==>
              Stepped(p, r, p.lastTouchY - y > 0) && r.lastTouchY == y
  {
    if p.scrolling then p
    else
      var delta := p.lastTouchY - y;
      if Abs(delta) > TouchThreshold then
        var q := if delta > 0 then MoveToNext(p) else MoveToPrev(p);
        q.(lastTouchY := y)
      else p
  }

  /**
   * Navigation by id: an id that is no navigation item, or the id of the
   * current part, changes nothing; otherwise the index moves to that part,
   * which is never the cover, and a tween starts unless one is in flight.
   */
  function OnNavigate(p: Pager, id: string): (r: Pager)
    requires Valid(p)
    ensures Valid(r)
    ensures !IsNavId(id) ==> r == p
    ensures Parts()[p.currentIndex].id == id ==> r == p
    ensures IsNavId(id) && Parts()[p.currentIndex].id != id ==>
              && 1 <= r.currentIndex <= LastPart
              && Parts()[r.currentIndex].id == id
              && (if p.scrolling then r == p.(currentIndex := r.currentIndex)
                  else MovedTo(p, r, r.currentIndex))
    ensures r.currentIndex == p.currentIndex || r.currentIndex >= 1
  {
    match NavTarget(id)
    case None => p
    case Some(target) =>
      if target == p.currentIndex then p
      else AnimateToPart(p.(currentIndex := target), target)
  }

  /**
   * A window resize: the index stays, the view height is re-read, and the
   * content is set at the current part for the new height. A tween in
   * flight is not stopped: it keeps its end offset.
   */
  function OnResize(p: Pager, innerHeight: int): (r: Pager)
    ensures r.viewHeight == innerHeight && Aligned(r)
    ensures r.(viewHeight := p.viewHeight, targetY := p.targetY) == p
    ensures Valid(p) ==> Valid(r)
  {
    p.(viewHeight := innerHeight, targetY := OffsetOf(p.currentIndex, innerHeight))
  }

  /** The events the navigator reacts to. `TweenComplete` is the in-flight tween finishing. */
  datatype Event =
    | Wheel(deltaY: int)
    | TouchStart(y: int)
    | TouchMove(y: int)
    | Navigate(id: string)
    | TweenComplete
    | Resize(innerHeight: int)

  /** One event; a completion arrives only for a tween in flight, the last one started. */
  function Step(p: Pager, e: Event): (r: Pager)
    requires Valid(p)
    ensures Valid(r)
    ensures |p.started| <= |r.started| <= |p.started| + 1 && r.started[..|p.started|] == p.started
  {
    match e
    case Wheel(d) => OnWheel(p, d)
    case TouchStart(y) => OnTouchStart(p, y)
    case TouchMove(y) => OnTouchMove(p, y)
    case Navigate(id) => OnNavigate(p, id)
    case TweenComplete =>
      if p.scrolling then CompleteAnimation(p, p.started[|p.started| - 1]) else p
    case Resize(h) => OnResize(p, h)
  }

  /** A sequence of events, in order. */
  function Run(p: Pager, es: seq<Event>): (r: Pager)
    requires Valid(p)
    ensures Valid(r)
    ensures |p.started| <= |r.started| <= |p.started| + |es| && r.started[..|p.started|] == p.started
    decreases |es|
  {
    if es == [] then p else Run(Step(p, es[0]), es[1..])
  }

  /**
   * The content is in sync: the offset last requested shows the current
   * part, and a tween in flight heads for the current part and ends there.
   */
  predicate InSync(p: Pager) {
    && Valid(p)
    && Aligned(p)
    && (p.scrolling ==> p.started[|p.started| - 1] == Tween(p.currentIndex, p.targetY))
  }

  /**
   * The events that can put the content out of sync: during a tween, a
   * navigation click (it moves the index but starts no tween) and a resize
   * to a new height (the tween still ends at its old-height offset).
   */
  predicate Disturbs(p: Pager, e: Event) {
    p.scrolling && (e.Navigate? || (e.Resize? && e.innerHeight != p.viewHeight))
  }

  /** No event of the run `es` from `p` disturbs the state it arrives in. */
  predicate Undisturbed(p: Pager, es: seq<Event>)
    requires Valid(p)
    decreases |es|
  {
    es == [] || (!Disturbs(p, es[0]) && Undisturbed(Step(p, es[0]), es[1..]))
  }

  /** Every event that does not disturb the content keeps it in sync. */
  lemma StepKeepsInSync(p: Pager, e: Event)
    requires InSync(p)
    requires !Disturbs(p, e)
    ensures InSync(Step(p, e))
  {
  }

  /** A run of events none of which disturbs the content keeps it in sync. */
  lemma {:induction false} RunKeepsInSync(p: Pager, es: seq<Event>)
    requires InSync(p)
    requires Undisturbed(p, es)
    ensures InSync(Run(p, es))
    decreases |es|
  {
    if es != [] {
      StepKeepsInSync(p, es[0]);
      RunKeepsInSync(Step(p, es[0]), es[1..]);
    }
  }

  /** In sync, a finishing tween marks the current part active and leaves the content there. */
  lemma CompletionShowsCurrentPart(p: Pager)
    requires InSync(p) && p.scrolling
    ensures Step(p, TweenComplete).activeSection == Parts()[p.currentIndex].id
    ensures !Step(p, TweenComplete).scrolling && Aligned(Step(p, TweenComplete))
  {
  }

  /**
   * As written, `onNavigate` does not check the lock: a navigation click
   * while a tween is in flight moves the index to the clicked part without a
   * tween, and the finishing tween then marks the part it was started
   * towards active and leaves the content at that part's offset.
   */
  lemma NavigateDuringTweenCompletesOldPart(p: Pager, id: string)
    requires Valid(p) && p.scrolling && IsNavId(id)
    ensures var t := p.started[|p.started| - 1];
            var r := Step(Step(p, Navigate(id)), TweenComplete);
            && Parts()[r.currentIndex].id == id
            && r.started == p.started
            && r.activeSection == Parts()[t.index].id
            && r.targetY == t.endY
  {
  }

  /** A wheel tick, then a click on `credits` during the tween, then the tween finishing. */
  lemma NavigateDuringTweenKeepsOldTarget()
    ensures var p1 := Step(Initial(800), Wheel(1));
            var p2 := Step(p1, Navigate("credits"));
            var p3 := Step(p2, TweenComplete);
            && p1.scrolling && p1.currentIndex == 1
            && p2.currentIndex == 4 && p2.started == p1.started && !InSync(p2)
            && p3.currentIndex == 4 && p3.activeSection == "intro" && p3.targetY == -800
  {
  }

  /**
   * A resize during a tween re-sets the content for the new height, but the
   * tween keeps running and its last frame puts the content back at the
   * offset computed from the old height.
   */
  lemma ResizeDuringTweenEndsAtOldOffset(p: Pager, h: int)
    requires Valid(p) && p.scrolling
    ensures var t := p.started[|p.started| - 1];
            var r := Step(Step(p, Resize(h)), TweenComplete);
            && r.currentIndex == p.currentIndex && r.viewHeight == h
            && r.targetY == t.endY
  {
  }

  /** A wheel tick at height 800, a resize to 600 during the tween, then the tween finishing. */
  lemma ResizeDuringTweenLeavesContentOffPart()
    ensures var p1 := Step(Initial(800), Wheel(1));
            var p2 := Step(p1, Resize(600));
            var p3 := Step(p2, TweenComplete);
            && InSync(p1) && p2.targetY == -600
            && p3.currentIndex == 1 && p3.viewHeight == 600 && p3.targetY == -800
            && !Aligned(p3)
  {
  }

  /** The cover is never the target of a tween started by navigation. */
  lemma NavigationNeverStartsCover(p: Pager, id: string)
    requires Valid(p)
    ensures var r := OnNavigate(p, id);
            |r.started| > |p.started| ==> r.started[|p.started|].index >= 1
  {
  }
}
