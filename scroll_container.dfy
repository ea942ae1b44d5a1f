/**
 * The scroll container component: a paged navigator whose handlers update
 * its fields in place. Each handler is proved to move the object's state
 * exactly as the matching function of module Paging does, so what is proved
 * about those functions holds of the object.
 */
module ScrollContainerComponent {
  import opened Sections
  import Paging

  class ScrollContainer {
    var currentIndex: int
    var viewHeight: int
    var hasScrolled: bool
    var scrolling: bool
    var lastTouchY: int
    var activeSection: string
    /** The content offset the animation library was last told to reach or set. */
    ghost var targetY: int
    /** Every tween started, in order: its part index and its end offset. */
    ghost var started: seq<Paging.Tween>

    /** The object's state as a value. */
    ghost function State(): Paging.Pager
      reads this
    {
      Paging.Pager(currentIndex, scrolling, hasScrolled, activeSection, lastTouchY, viewHeight,
                   targetY, started)
    }

    ghost predicate Valid()
      reads this
    {
      Paging.Valid(State())
    }

    /** The field initialisers, with the window's inner height. */
    constructor (innerHeight: int)
      ensures Valid() && State() == Paging.Initial(innerHeight)
    {
      currentIndex := 0;
      viewHeight := innerHeight;
      hasScrolled := false;
      scrolling := false;
      lastTouchY := 0;
      activeSection := Parts()[1].id;
      targetY := 0;
      started := [];
    }

    /** `ngAfterViewInit`: re-reads the view height and puts the content at offset 0. */
    method AfterViewInit(innerHeight: int)
      requires Valid()
      modifies this
      ensures Valid() && State() == old(State()).(viewHeight := innerHeight, targetY := 0)
    {
      viewHeight := innerHeight;
      targetY := 0;
    }

    method OnWheel(deltaY: int)
      requires Valid()
      modifies this
      ensures Valid() && State() == Paging.OnWheel(old(State()), deltaY)
    {
      if scrolling { return; }
      if deltaY > 0 { MoveToNext(); } else { MoveToPrev(); }
    }

    method OnTouchStart(clientY: int)
      requires Valid()
      modifies this
      ensures Valid() && State() == Paging.OnTouchStart(old(State()), clientY)
    {
      lastTouchY := clientY;
    }

    method OnTouchMove(clientY: int)
      requires Valid()
      modifies this
      ensures Valid() && State() == Paging.OnTouchMove(old(State()), clientY)
    {
      if scrolling { return; }
      var y := clientY;
      var delta := lastTouchY - y;
      if Paging.Abs(delta) > Paging.TouchThreshold {
        if delta > 0 { MoveToNext(); } else { MoveToPrev(); }
        lastTouchY := y;
      }
    }

    method MoveToNext()
      requires Valid()
      modifies this
      ensures Valid() && State() == Paging.MoveToNext(old(State()))
    {
      if currentIndex < |Parts()| - 1 {
        currentIndex := currentIndex + 1;
        AnimateToPart(currentIndex);
      }
    }

    method MoveToPrev()
      requires Valid()
      modifies this
      ensures Valid() && State() == Paging.MoveToPrev(old(State()))
    {
      if currentIndex > 0 {
        currentIndex := currentIndex - 1;
        AnimateToPart(currentIndex);
      }
    }

    /** Starts the tween towards part `index`; its completion is CompleteAnimation(index). */
    method AnimateToPart(index: int)
      requires Valid() && 0 <= index <= LastPart
      modifies this
      ensures Valid() && State() == Paging.AnimateToPart(old(State()), index)
    {
      if scrolling { return; }
      scrolling := true;
      var y := -index * viewHeight;
      targetY := y;
      started := started + [Paging.Tween(index, y)];
    }

    /**
     * The tween in flight, started towards `index`, finishing: its last frame
     * puts the content at its end offset, then its `onComplete` callback runs.
     */
    method CompleteAnimation(index: int)
      requires Valid() && scrolling && index == started[|started| - 1].index
      modifies this
      ensures Valid() && State() == Paging.CompleteAnimation(old(State()), old(started[|started| - 1]))
      ensures State() == Paging.Step(old(State()), Paging.TweenComplete)
    {
      targetY := started[|started| - 1].endY;
      scrolling := false;
      hasScrolled := true;
      activeSection := Parts()[Paging.Min(index, |Parts()| - 1)].id;
    }

    method OnNavigate(navId: string)
      requires Valid()
      modifies this
      ensures Valid() && State() == Paging.OnNavigate(old(State()), navId)
    {
      var navIndex := IndexOfId(NavItems(), navId);
      if navIndex.None? { return; }
      var targetPartIndex := navIndex.value + 1;
      if targetPartIndex == currentIndex { return; }
      currentIndex := targetPartIndex;
      AnimateToPart(currentIndex);
    }

    method OnResize(innerHeight: int)
      requires Valid()
      modifies this
      ensures Valid() && State() == Paging.OnResize(old(State()), innerHeight)
    {
      viewHeight := innerHeight;
      targetY := -currentIndex * viewHeight;
    }
  }
}
