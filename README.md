# ReallySimpleInfiniteScroll in Dafny

A model of the `ReallySimpleInfiniteScroll` React component: a scrollable
container that asks its consumer for more items when the user scrolls near
the loading edge, keeps the visible content still when items are added in
inverse ("chat") mode, and tracks when a burst of scroll events has settled.

The model follows the component's own split:

- `Axes` (`axes.dfy`) resolves the `axis` prop to the DOM properties read and
  written (`scrollTop`/`scrollLeft`, `offsetHeight`/`offsetWidth`,
  `clientHeight`/`clientWidth`, `scrollHeight`/`scrollWidth`), and selects
  the scrollbar-presence test for an axis.
- `Dom` (`dom.dfy`) is the scrollable element: a class with the eight
  properties, read and written by name.
- `ComponentProps` (`component_props.dfy`) holds the props and the item-count
  comparisons between two renders, with JavaScript's rules for `<` and `!==`
  on undefined counts.
- `LoadSession`, `EdgeDetector`, `PositionPreserver` and `LoadingCycle` give
  the loading cycle as pure state transitions (a scroll event, a re-render)
  and prove its properties over whole event histories.
- `SettleTracker` gives the `isScrolling` flag and the shared settle promise
  as pure transitions, again with properties over histories.
- `Navigation` gives the start and end offsets and the `scrollIntoView` call.
- `InfiniteScroll` (`infinite_scroll.dfy`) is the component class
  `ReallySimpleInfiniteScroll` with the source's instance fields. Each method
  is written the way the source does it and is proved to produce the state
  the pure transitions describe. `Rerender` drives one React update in order
  (new props, snapshot, DOM commit, `componentDidUpdate`).

The element is `null` while unmounted. Pixel readouts are integers. The
default edge offset `offsetDim / 2` is computed exactly as a `real`. Calls
into the outside world become observable results: `HandleScroll` returns
whether it called `onInfiniteLoad`, `OnScrollStop` returns the promise it
resolved, and `ScrollToId` returns the `scrollIntoView` call it makes. Ghost
counters record how many loads were requested, how many loading cycles were
closed and which promises were resolved.

Some behaviours of the code are easy to miss, and the model keeps them as written:

- `isLoading` is cleared when `isInfiniteLoading` falls from true to false,
  even if the item count did not change.
- The inverse-mode offset restoration happens only in an update that also
  clears `isLoading`.
- The first item-count change scrolls to the start in forward mode too.
- `hasScrollbarFunction` with no argument selects the horizontal test, even
  though the default axis is vertical.

The source demands two things of its callers. Without them it raises a
TypeError, so the model states them as `requires`:

- The element must be mounted wherever the source reads it without a check.
  That is the snapshot when the item count grew, and the inverse restore.
- When the current props have children, the previous props must have had
  children too (`Comparable`).

## Model

| member | source | states |
|---|---|---|
| Axes.ResolveAxis | src/index.js:145-147 | only `"x"` selects the horizontal axis; every other value, absent included, selects the vertical one |
| Axes.ScrollProperty | src/index.js:149-151 | the result is the scroll-offset property of the given axis |
| Axes.OffsetProperty | src/index.js:153-155 | the result is the offset-extent property of the given axis |
| Axes.ClientDimProperty | src/index.js:157-159 | the result is the client-extent property of the given axis |
| Axes.ScrollDimProperty | src/index.js:161-163 | the result is the content-extent property of the given axis |
| Axes.PropertyForIsBijective | src/index.js:149-163 | the four resolvers together map (axis, role) pairs one-to-one onto the eight DOM properties |
| Axes.ScrollbarDetectorFor | src/index.js:165-167 | the vertical test is chosen exactly for the argument `"y"` |
| Axes.DetectorMatchesAxis | src/index.js:165-167 | naming an axis selects the test for that axis, and the two tests differ |
| Dom.Element.Set | src/index.js:188-192 | writing a property by name changes that property and no other |
| ComponentProps.IncreasedImpliesChanged | src/index.js:64-68 | a grown item count is a changed one; two undefined counts never differ |
| ComponentProps.ChildrenTakePrecedence | src/index.js:83-88 | when children are passed, their number decides the comparison and `length` is ignored |
| EdgeDetector.ThresholdIsDistance | src/index.js:261-270 | the threshold is reached exactly when the loading edge is at most the edge offset away |
| EdgeDetector.OnScroll | src/index.js:240-275 | while loading nothing changes; otherwise a load is requested, once, exactly when the gate is open and the threshold reached; the one-load-per-cycle invariant is kept |
| EdgeDetector.ClosedGateChangesNothing | src/index.js:240-245 | no callback, unmounted, an open cycle, or a closed `hasMore` gate: the scroll changes nothing |
| EdgeDetector.NoMoreBlocksLoading | src/index.js:242 | `hasMore == false` blocks every load |
| EdgeDetector.UndefinedHasMoreDefersToInfiniteLoading | src/index.js:242 | with `hasMore` undefined, the gate is open iff `isInfiniteLoading` is false |
| EdgeDetector.OpenGateAndLoadingComponent | src/index.js:240-245 | an open gate with `hasMore` defined means the loading component is rendered; with it undefined it is not |
| EdgeDetector.ForwardBoundary | src/index.js:262-267 | forward mode: reaching the content extent exactly triggers, one pixel less does not |
| EdgeDetector.InverseBoundary | src/index.js:268-270 | inverse mode: an offset equal to the edge offset triggers, one more does not |
| EdgeDetector.DefaultEdgeOffsetIsHalf | src/index.js:255-259 | the default edge offset is half the offset extent read at that event, as a doubled integer comparison |
| EdgeDetector.NegativeOffsetOnEmptyElement | src/index.js:255-270 | a negative supplied offset over an all-zero element triggers in neither mode |
| EdgeDetector.NegativeOffsetDisablesInverse | src/index.js:268-270 | a negative supplied offset never triggers inverse mode at a non-negative offset |
| EdgeDetector.ThresholdMonotone | src/index.js:261-270 | moving towards the loading edge keeps the threshold reached |
| PositionPreserver.TakeSnapshot | src/index.js:62-80 | a snapshot exists iff the item count grew, and it is the distance from the offset to the content's end |
| PositionPreserver.AnchorPreserved | src/index.js:113-121 | the restored offset keeps the distance to the content's end and moves by exactly the growth |
| PositionPreserver.RestoreExample | src/index.js:113-121 | extent 1000 at offset 600 growing to 1400 restores offset 1000 |
| PositionPreserver.OnUpdate | src/index.js:96-126 | an update closes an open cycle exactly when the clearing condition holds, never opens one and never requests a load |
| PositionPreserver.InfiniteLoadingEndCloses | src/index.js:99 | `isInfiniteLoading` falling from true to false closes the cycle whatever the item count did |
| PositionPreserver.CountChangeWithMoreCloses | src/index.js:102-110 | a changed item count closes the cycle when `hasMore` is true now or was before |
| PositionPreserver.OtherUpdatesKeepCycle | src/index.js:96-112 | no other update changes the loading state |
| Navigation.StartEndMirror | src/index.js:169-183 | start and end swap between the directions; each is 0 or the content extent |
| Navigation.EndReachesLoadingEdge | src/index.js:177-183 | the end is the loading edge in both directions: scrolling there reaches any non-negative threshold |
| Navigation.StartIsFarFromLoadingEdge | src/index.js:169-175 | at the start offset the loading edge is `scrollDim - clientDim` away in forward mode and `scrollDim` away in inverse mode (the written offset is not clamped) |
| SettleTracker.OnScroll | src/index.js:228-233 | a scroll marks scrolling and keeps the pending promise, or creates a fresh one when none exists |
| SettleTracker.OnSettle | src/index.js:213-218 | settling resolves the pending promise, if any, clears `isScrolling` and drops the promise |
| SettleTracker.AwaitedPromiseResolvesAtSettle | src/index.js:207-211 | an awaited promise is unresolved and the next settle resolves it; a settled component hands out a resolved one |
| SettleTracker.RunKeepsValid | src/index.js:213-236 | over any history of scrolls and settles no promise is resolved twice, and a promise is pending exactly while scrolling |
| SettleTracker.BurstSharesOnePromise | src/index.js:229-233 | a burst of scroll events from settled creates exactly one promise, shared by the whole burst |
| SettleTracker.BurstThenSettleResolvesOnce | src/index.js:228-236 | a burst followed by a settle resolves exactly that one promise and ends settled |
| LoadingCycle.RunKeepsCycleInvariant | src/index.js:240-275 | over any history of scrolls and re-renders, each closed cycle had exactly one load request, and an open cycle one more |
| LoadingCycle.AtMostOneLoadPerCycle | src/index.js:271-274 | from a fresh component, load requests exceed closed cycles by one exactly while loading, and never by more |
| LoadingCycle.ScrollsWhileLoadingChangeNothing | src/index.js:244 | while a cycle is open, any number of scroll events requests nothing |
| LoadingCycle.LoadingImpliesRequested | src/index.js:272-273 | `isLoading` is never true without a load request |
| LoadingCycle.SecondScrollDoesNotReload | src/index.js:240-274 | five items, `hasMore`, default threshold: a scroll meeting the forward test requests one load and sets `isLoading`, so a second scroll before the count changes requests none |
| LoadingCycle.RepeatedLoading | src/index.test.js:590-705 | load, `isInfiniteLoading` rises, items arrive, load again, `hasMore` ends: two loads, both cycles closed, the last scroll requests nothing |
| InfiniteScroll.ReallySimpleInfiniteScroll.constructor | src/index.js:39-52 | a new component is unmounted, not loading, not scrolling, with no pending promise |
| InfiniteScroll.ReallySimpleInfiniteScroll.ComponentDidMount | src/index.js:54-56 | mounting scrolls to the start |
| InfiniteScroll.ReallySimpleInfiniteScroll.ScrollTo | src/index.js:185-194 | writes an integer target, or copies the named property, into the given property; unmounted: nothing |
| InfiniteScroll.ReallySimpleInfiniteScroll.ScrollToStart | src/index.js:169-175 | writes 0 forward and the content extent inverse into the scroll offset, nothing else |
| InfiniteScroll.ReallySimpleInfiniteScroll.ScrollToEnd | src/index.js:177-183 | writes the content extent forward and 0 inverse into the scroll offset, nothing else |
| InfiniteScroll.ReallySimpleInfiniteScroll.ScrollToId | src/index.js:199-205 | no call when the map, the id or the element is missing; otherwise one call on that element, options replacing `alignToTop`, which defaults to true |
| InfiniteScroll.ReallySimpleInfiniteScroll.ScrollStopPromise | src/index.js:207-211 | the shared pending promise exactly while scrolling, else an already-resolved one |
| InfiniteScroll.ReallySimpleInfiniteScroll.OnScrollStop | src/index.js:213-218 | the settle transition, returning the promise it resolved; loading state untouched |
| InfiniteScroll.ReallySimpleInfiniteScroll.HandleScroll | src/index.js:220-276 | the settle and edge-detector transitions, with the result saying whether `onInfiniteLoad` was called |
| InfiniteScroll.ReallySimpleInfiniteScroll.GetSnapshotBeforeUpdate | src/index.js:62-80 | a snapshot iff the item count grew, holding content extent minus offset; it is `TakeSnapshot` of the current readouts |
| InfiniteScroll.ReallySimpleInfiniteScroll.ComponentDidUpdate | src/index.js:82-127 | the cycle-close transition; the scroll offset becomes the restored one, else the start on the first count change, else stays |
| InfiniteScroll.Rerender | src/index.js:62-127 | the whole new state: load state by `OnUpdate`, settle state unchanged, the scroll-to-start flag set on a count change, the content extent committed and every other element property kept; the offset is restored (keeping the distance to the content's end) when inverse, grown and closing, else the start on the first count change, else unchanged |

## Left out

- Rendering (`render`, `loadingComponentRenderer`, CSS class names) is left out; only the condition `hasMore || isInfiniteLoading` that shows the loading component is kept (`ShowsLoadingComponent`).
- Forwarding of `onScroll` and the mouse-event props is left out: they pass events through and decide nothing.
- The debounce timer is left out: the environment calls `OnScrollStop` when 100 ms pass without a scroll event. Timing is not modelled.
- Promises are modelled by identities and a record of resolutions, not by JavaScript's asynchronous resolution.
- `scrollIntoView` and the two scrollbar-presence tests are foreign DOM and library calls. The model returns the call it would make, or names the test it selects.
- `getNode()` is the `node` field itself.
- The browser clamps a written scroll offset into the scrollable range. The model does not: it stores the value written.
- Pixel readouts and `infiniteLoadBeginEdgeOffset` are integers. Fractional values are not modelled, and neither is the `isInt` branch of `scrollTo` for a non-integer number.
- JavaScript truthiness of props that are not booleans is not modelled. A single child that is not an array (whose `length` is undefined) is not modelled either.
- InfiniteScroll.ReallySimpleInfiniteScroll.GetSnapshotBeforeUpdate: requires a mounted element when the item count grew, and `Comparable` props; the source raises a TypeError otherwise, which is not modelled.
- InfiniteScroll.ReallySimpleInfiniteScroll.ComponentDidUpdate: requires a mounted element on the inverse-restore path, and `Comparable` props; the source raises a TypeError otherwise, which is not modelled.
- InfiniteScroll.Rerender: requires a mounted element and `Comparable` props, for the same TypeErrors; React runs the update hooks only on a mounted component.
- The React reconciler is reduced to `Rerender`. The DOM commit is modelled as a change of the content extent only.
