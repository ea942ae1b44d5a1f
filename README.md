# Paged scrollytelling navigator and drag-delta emitter, in Dafny

This project models the two state machines at the heart of a single-page
scrollytelling site built with Angular.

- **The paged section navigator** (`ScrollContainer`). The page is a fixed
  list of five parts: cover, intro, preface, events and credits. A wheel
  tick or a touch swipe moves the content one part forward or back, with a
  tween from the animation library. A click in the side navigation jumps to
  a part by id. The navigation items are the parts without the cover. A
  `scrolling` lock keeps a new wheel or swipe from starting a tween while
  one is in flight. When the tween finishes, its completion callback
  releases the lock and records the active section. A window resize keeps
  the part and re-positions the content for the new view height.
- **The drag-delta emitter** (`DragHandle`). A mouse press or touch start
  begins a drag. Each move during the drag emits the distance from the last
  position and records the new position. A release ends the drag.

Each component has two layers:

- a pure state machine: module `Paging` (with `Sections`) and module `Drag`.
  Their transition functions carry the contracts, and the lemmas about runs
  of events sit beside them;
- a class with the source's fields: `ScrollContainerComponent.ScrollContainer`
  and `DragHandleDirective.DragHandle`. Each handler updates the fields in
  place and is proved to move the object's state exactly as its transition
  function does.

Effects on the page become ghost state:

- the content offset the animation library was last told to reach or set is
  `targetY` (a tween's start and its last frame, a resize, the first render);
- the tweens started are logged in `started`, each with its part index and
  the end offset it was given when it started;
- the values emitted on the `dragging` output are logged in `emitted`;
- document listener registration is one boolean per device. Mouse and touch
  register different document listeners.

`window.innerHeight` becomes a parameter. Pixel quantities are `int`: the
source only subtracts, compares and multiplies them by a part index.

Three behaviours of the code are modelled as written:

- `activeSection` starts as the intro's id while `currentIndex` is 0.
- `onNavigate` does not check the lock. A navigation click during a tween
  therefore moves `currentIndex` without starting a tween. The tween in
  flight then finishes, marks the part it was started towards as active,
  and leaves the content at that part
  (`Paging.NavigateDuringTweenCompletesOldPart`, with a concrete run in
  `Paging.NavigateDuringTweenKeepsOldTarget`).
- `onResize` sets the content for the new height but does not stop a tween
  in flight. That tween's end offset was computed from the old height when
  it started, so its last frame leaves the content off the current part at
  the new height (`Paging.ResizeDuringTweenEndsAtOldOffset`, with a concrete
  run in `Paging.ResizeDuringTweenLeavesContentOffPart`).

`Paging.RunKeepsInSync` proves that these two are the only ways the content
gets out of step: in a run where no navigation click and no change of height
arrives during a tween, the offset last requested always shows the current
part, and any tween in flight ends there.

The source field `label` of a part is called `caption`, because `label` is a
Dafny keyword.

The scroll container pages by whole parts: it measures no section offsets
and computes no progress percentage.

## Model

| member | source | states |
|---|---|---|
| Sections.IndexOfId | src/app/components/scroll-container/scroll-container.ts:123 | the `findIndex` lookup: the first position whose id matches, or None exactly when no entry has that id |
| Sections.NavTarget | src/app/components/scroll-container/scroll-container.ts:123-125 | a navigation id resolves to navigation index + 1. That part carries the id and is never the cover (index >= 1). An id resolves exactly when it is a navigation item's id |
| Sections.Parts | src/app/components/scroll-container/scroll-container.ts:33-39 | the `parts` field: five parts with distinct ids, the cover first and without a label |
| Sections.NavItems | src/app/components/scroll-container/scroll-container.ts:42 | the `navItems` field: the parts after the cover, in order, so no navigation item is the cover |
| Sections.NavTargetUnique | src/app/components/scroll-container/scroll-container.ts:123-126 | the resolved part is the only part with that id, so the `targetPartIndex === currentIndex` test means "already at that part" |
| Paging.Initial | src/app/components/scroll-container/scroll-container.ts:27-44 | the initial state: index 0, not scrolling, nothing started, active section the intro's id (not the cover's), touch anchor and target offset 0, the given view height; it is valid and aligned |
| Paging.AnimateToPart | src/app/components/scroll-container/scroll-container.ts:102-108 | starting a tween always leaves the lock held. While one is in flight nothing changes. Otherwise exactly one tween towards `index` is logged with end offset `-index * viewHeight`, and that offset is requested. The index is untouched |
| Paging.CompleteAnimation | src/app/components/scroll-container/scroll-container.ts:107-118 | the tween's last frame puts the content at its end offset. Completion then clears the lock and sets `hasScrolled`. The active section becomes `parts[min(index, 4)].id`, always a registered id. Nothing else changes and the invariant is kept |
| Paging.MoveToNext | src/app/components/scroll-container/scroll-container.ts:88-93 | one step forward: below the last part the index increments and a tween towards it starts (unless locked). At the last part nothing changes. The invariant is kept |
| Paging.MoveToPrev | src/app/components/scroll-container/scroll-container.ts:95-100 | one step back: above part 0 the index decrements and a tween starts (unless locked). At part 0 nothing changes. The invariant is kept |
| Paging.OnWheel | src/app/components/scroll-container/scroll-container.ts:66-71 | while scrolling, no state changes. Otherwise `deltaY > 0` steps forward and any other `deltaY`, 0 included, steps back. The touch anchor is kept |
| Paging.OnTouchStart | src/app/components/scroll-container/scroll-container.ts:73-75 | records the finger position and changes nothing else, even during a tween |
| Paging.OnTouchMove | src/app/components/scroll-container/scroll-container.ts:77-86 | while scrolling, or when the finger moved at most 40px from the anchor, nothing changes, `lastTouchY` included. Beyond 40px a positive `lastTouchY - y` steps forward and a non-positive one steps back, then `lastTouchY := y` |
| Paging.OnNavigate | src/app/components/scroll-container/scroll-container.ts:122-129 | an id that is no navigation item, or the current part's id: no-op. Otherwise the index moves to the part with that id, which is never the cover, and a tween starts only if none is in flight. The invariant is kept |
| Paging.OnResize | src/app/components/scroll-container/scroll-container.ts:131-136 | the index stays, the view height becomes the new one, and the target offset becomes `-currentIndex * viewHeight` for the new height. Nothing else changes |
| Paging.Step | src/app/components/scroll-container/scroll-container.ts:66-136 | every event keeps the invariant: index in `[0, 4]`, active section registered, the lock only with a tween logged, every tween towards a part. The tween log only grows, by at most one entry |
| Paging.Run | src/app/components/scroll-container/scroll-container.ts:66-136 | any sequence of events keeps the invariant, and the log grows by at most one tween per event |
| Paging.StepKeepsInSync | src/app/components/scroll-container/scroll-container.ts:66-136 | every event other than a navigation click or a change of height during a tween keeps the content in sync: the offset last requested shows the current part, and a tween in flight heads there and ends at that offset |
| Paging.RunKeepsInSync | src/app/components/scroll-container/scroll-container.ts:66-136 | a run in which no navigation click and no change of height arrives during a tween keeps the content in sync with the current part |
| Paging.CompletionShowsCurrentPart | src/app/components/scroll-container/scroll-container.ts:107-118 | in sync, the finishing tween marks the current part as active, releases the lock and leaves the content at the current part |
| Paging.NavigateDuringTweenCompletesOldPart | src/app/components/scroll-container/scroll-container.ts:102-128 | for any navigation id clicked during a tween: the index ends at the clicked part, no tween is added, and completion marks the tween's own part active with the content at that tween's end offset |
| Paging.ResizeDuringTweenEndsAtOldOffset | src/app/components/scroll-container/scroll-container.ts:102-134 | a resize during a tween keeps the index and takes the new height, but the finishing tween leaves the content at the end offset it was started with |
| Paging.ResizeDuringTweenLeavesContentOffPart | src/app/components/scroll-container/scroll-container.ts:102-134 | a wheel tick at height 800, then a resize to 600: the content ends at -800 while part 1 at the new height is at -600 |
| Paging.NavigateDuringTweenKeepsOldTarget | src/app/components/scroll-container/scroll-container.ts:122-128 | a wheel tick, then a click on `credits` during the tween: the index becomes 4 with no new tween, and completion marks `intro` active with the content at part 1 |
| Paging.NavigationNeverStartsCover | src/app/components/scroll-container/scroll-container.ts:125-128 | a tween started by navigation never heads to the cover |
| ScrollContainerComponent.ScrollContainer.constructor | src/app/components/scroll-container/scroll-container.ts:27-44 | the new object is valid and in the state `Paging.Initial` |
| ScrollContainerComponent.ScrollContainer.AfterViewInit | src/app/components/scroll-container/scroll-container.ts:50-54 | re-reads the view height and requests content offset 0. Nothing else changes |
| ScrollContainerComponent.ScrollContainer.OnWheel | src/app/components/scroll-container/scroll-container.ts:66-71 | the new state is `Paging.OnWheel` of the old one, and validity is kept |
| ScrollContainerComponent.ScrollContainer.OnTouchStart | src/app/components/scroll-container/scroll-container.ts:73-75 | the new state is `Paging.OnTouchStart` of the old one |
| ScrollContainerComponent.ScrollContainer.OnTouchMove | src/app/components/scroll-container/scroll-container.ts:77-86 | the new state is `Paging.OnTouchMove` of the old one, and validity is kept |
| ScrollContainerComponent.ScrollContainer.MoveToNext | src/app/components/scroll-container/scroll-container.ts:88-93 | the new state is `Paging.MoveToNext` of the old one |
| ScrollContainerComponent.ScrollContainer.MoveToPrev | src/app/components/scroll-container/scroll-container.ts:95-100 | the new state is `Paging.MoveToPrev` of the old one |
| ScrollContainerComponent.ScrollContainer.AnimateToPart | src/app/components/scroll-container/scroll-container.ts:102-113 | the start of a tween: the new state is `Paging.AnimateToPart` of the old one |
| ScrollContainerComponent.ScrollContainer.CompleteAnimation | src/app/components/scroll-container/scroll-container.ts:107-118 | the last frame and `onComplete` callback of the tween in flight: the new state is `Paging.CompleteAnimation` for that tween, which is the `TweenComplete` step |
| ScrollContainerComponent.ScrollContainer.OnNavigate | src/app/components/scroll-container/scroll-container.ts:122-129 | the new state is `Paging.OnNavigate` of the old one |
| ScrollContainerComponent.ScrollContainer.OnResize | src/app/components/scroll-container/scroll-container.ts:131-136 | the new state is `Paging.OnResize` of the old one |
| Drag.SumAppend | src/app/directives/drag-handle.ts:25-27 | appending a delta adds it to the sum of the emitted values |
| Drag.Initial | src/app/directives/drag-handle.ts:8-10 | not dragging, last position 0, no listeners, nothing emitted |
| Drag.Press | src/app/directives/drag-handle.ts:14-21 | a press sets the drag flag and `lastY` to the press position and registers that device's listeners. Nothing is emitted and the other device's listeners are untouched |
| Drag.Move | src/app/directives/drag-handle.ts:23-28 | outside a drag nothing changes. During a drag exactly `clientY - lastY` is appended to the emitted values, `lastY := clientY`, and the sum of the emitted values grows by the distance moved |
| Drag.Release | src/app/directives/drag-handle.ts:30-34 | a release clears the drag flag and unregisters that device's listeners. `lastY` and the emitted values stay |
| Drag.Moves | src/app/directives/drag-handle.ts:23-28 | a run of moves keeps the drag flag and the invariant and only appends to the emitted values, at most one per move |
| Drag.Telescoping | src/app/directives/drag-handle.ts:23-28 | during a drag, n moves emit n deltas after the earlier ones. Those deltas sum to the final position minus the position before the moves. The final position is the last move's |
| Drag.PressThenMoves | src/app/directives/drag-handle.ts:14-28 | after a press at `y0` and any moves, the deltas of that drag sum to the current `lastY` minus `y0` |
| Drag.MovesWhileReleased | src/app/directives/drag-handle.ts:24 | outside a drag, any number of moves changes nothing and emits nothing |
| Drag.ReleaseThenMoves | src/app/directives/drag-handle.ts:30-34 | after a release, no move emits anything until the next press |
| Drag.TouchMatchesMouse | src/app/directives/drag-handle.ts:37-57 | touch start and touch end act on the drag flag, `lastY` and the emitted values exactly as mouse down and mouse up do. Only the listener flag differs |
| DragHandleDirective.DragHandle.constructor | src/app/directives/drag-handle.ts:8-10 | the new object is valid and in the state `Drag.Initial` |
| DragHandleDirective.DragHandle.OnMouseDown | src/app/directives/drag-handle.ts:14-21 | the new state is `Drag.Press(old, clientY, Mouse)`. The press position is recorded for the telescoping invariant |
| DragHandleDirective.DragHandle.OnMove | src/app/directives/drag-handle.ts:23-28 | the new state is `Drag.Move(old, clientY)`. Validity is kept: the deltas since the press sum to `lastY` minus the press position |
| DragHandleDirective.DragHandle.OnUp | src/app/directives/drag-handle.ts:30-34 | the new state is `Drag.Release(old, Mouse)` |
| DragHandleDirective.DragHandle.OnTouchStart | src/app/directives/drag-handle.ts:37-43 | the new state is `Drag.Press(old, clientY, Touch)` |
| DragHandleDirective.DragHandle.OnTouchMove | src/app/directives/drag-handle.ts:45-51 | the new state is `Drag.Move(old, clientY)`, the same function as for the mouse |
| DragHandleDirective.DragHandle.EmitDelta | src/app/directives/drag-handle.ts:25-27 | `dragging.emit(delta)` appends exactly `delta` to the emitted values, which keeps the deltas since the press summing to `lastY` minus the press position |
| DragHandleDirective.DragHandle.OnTouchEnd | src/app/directives/drag-handle.ts:53-57 | the new state is `Drag.Release(old, Touch)` |

## Left out

- The animation library's tweens are reduced to their discrete start and completion events: easing, duration, intermediate frames and the `onUpdate` emissions of `scrollActive` are not modelled. The cover's intro timeline is not part of this model.
- `setupSectionStyles` (the sections' minimum height and the last section's bottom padding) is left out: it only writes DOM styles.
- `preventDefault` calls are left out: they have no effect on the component's state.
- `document.addEventListener` / `removeEventListener` are reduced to one registration flag per device. The model's move handlers are the handler functions themselves, so a move is modelled whether or not the document would deliver it.
- `window.innerHeight` and the touch/mouse `clientY` and wheel `deltaY` are parameters. JavaScript numbers are modelled as unbounded integers, since only subtraction, comparison and multiplication by a part index are applied to them.
- `gsap.set` in `ngAfterViewInit` and `onResize` is recorded only as the offset `targetY`. A tween in flight is modelled only by its start and its last frame: the frames between, which the set offset is overwritten by, are not modelled.
- The scroll service is not part of this model: it only forwards the values it is given to its subjects.
- The custom scrollbar component is not part of this model: it only declares inputs and an output.
- The preface and app components are not part of this model: the preface is an empty class, and the app component declares only a reference to the container element.
- The cover's test is not part of this model: it only checks that the component is created.
