/**
 * The `ReallySimpleInfiniteScroll` component: its instance fields, the
 * scroll handler, the two update hooks, the settle tracker and the
 * imperative navigation API, each proved against the pure step functions
 * of the subsystems.
 */
module InfiniteScroll {
  import opened Wrappers
  import opened Axes
  import opened Dom
  import opened ComponentProps
  import opened LoadSession
  import opened Navigation
  import EdgeDetector
  import PositionPreserver
  import SettleTracker

  class ReallySimpleInfiniteScroll {
    /** The current props; the environment replaces them on a re-render. */
    var props: Props
    /** The scrollable element behind the ref; null while unmounted. */
    var node: Element?

    var isLoading: bool
    var isScrolling: bool
    /** The pending settle promise together with its resolver. */
    var lastScrollStopPromise: Option<SettleTracker.PromiseId>
    /** The identity the next settle promise is created with. */
    var nextPromiseId: SettleTracker.PromiseId
    var componentDidUpdateHasScrolledToStart: bool

    /** Calls of `onInfiniteLoad` so far. */
    ghost var loadCalls: nat
    /** Updates that cleared `isLoading` so far. */
    ghost var closedCycles: nat
    /** Settle promises resolved so far, in order. */
    ghost var resolvedPromises: seq<SettleTracker.PromiseId>

    ghost function Loading(): LoadState
      reads this
    {
      LoadState(isLoading, loadCalls, closedCycles)
    }

    ghost function Settling(): SettleTracker.SettleState
      reads this
    {
      SettleTracker.SettleState(isScrolling, lastScrollStopPromise, nextPromiseId, resolvedPromises)
    }

    ghost predicate Valid()
      reads this
    {
      CycleInvariant(Loading()) && SettleTracker.Valid(Settling())
    }

    /** The axis the current props select. */
    function CurrentAxis(): Axis
      reads this
    {
      ResolveAxis(props.axis)
    }

    /** The element's readouts along the current axis; absent while unmounted. */
    function Surface(): Option<Extents>
      reads this, node
    {
      if node == null then None else Some(node.ExtentsOn(CurrentAxis()))
    }

    constructor (p: Props)
      ensures Valid() && props == p && node == null
      ensures Loading() == LoadSession.Initial && Settling() == SettleTracker.Initial
      ensures !componentDidUpdateHasScrolledToStart
    {
      props := p;
      node := null;
      isLoading, isScrolling := false, false;
      lastScrollStopPromise, nextPromiseId := None, 0;
      componentDidUpdateHasScrolledToStart := false;
      loadCalls, closedCycles, resolvedPromises := 0, 0, [];
    }

    /** `componentDidMount`: scrolls to the start. */
    method ComponentDidMount()
      modifies node
      ensures node != null ==>
        node.Wrote(ScrollProperty(CurrentAxis()), StartOffset(props.displayInverse, old(node.ExtentsOn(CurrentAxis()))))
    {
      ScrollToStart();
    }

    /**
     * Writes `prop` of the element: an integer target as is, a property name
     * as that property's current value. Nothing happens while unmounted.
     */
    method ScrollTo(prop: Prop, target: ScrollTarget)
      modifies node
      ensures node != null ==>
        node.Wrote(prop, if target.Position? then target.value else old(node.Get(target.prop)))
    {
      var scrollableContentNode := node;
      if scrollableContentNode != null {
        var v := match target
          case Position(x) => x
          case PropertyOf(q) => scrollableContentNode.Get(q);
        scrollableContentNode.Set(prop, v);
      }
    }

    /** Scrolls to the start: 0 forward, the content extent inverse. */
    method ScrollToStart()
      modifies node
      ensures node != null ==>
        node.Wrote(ScrollProperty(CurrentAxis()), StartOffset(props.displayInverse, old(node.ExtentsOn(CurrentAxis()))))
    {
      var axis := CurrentAxis();
      ScrollTo(ScrollProperty(axis), if !props.displayInverse then Position(0) else PropertyOf(ScrollDimProperty(axis)));
    }

    /** Scrolls to the end: the content extent forward, 0 inverse. */
    method ScrollToEnd()
      modifies node
      ensures node != null ==>
        node.Wrote(ScrollProperty(CurrentAxis()), EndOffset(props.displayInverse, old(node.ExtentsOn(CurrentAxis()))))
    {
      var axis := CurrentAxis();
      ScrollTo(ScrollProperty(axis), if !props.displayInverse then PropertyOf(ScrollDimProperty(axis)) else Position(0));
    }

    /**
     * Scrolls item `id` into view: returns the native call it makes, or
     * nothing when the map, the id or the mounted element is missing.
     * `alignToTop` defaults to true; options, when given, replace it.
     */
    method ScrollToId(id: ItemId, alignToTop: Option<bool>, scrollIntoViewOptions: Option<ScrollIntoViewOptions>)
      returns (call: Option<IntoViewCall>)
      ensures call.None? <==>
        props.itemIdRefMap.None? || id !in props.itemIdRefMap.value || props.itemIdRefMap.value[id].current.None?
      ensures call.Some? ==> call.value.target == props.itemIdRefMap.value[id].current.value
      ensures call.Some? ==> (call.value.argument.WithOptions? <==> scrollIntoViewOptions.Some?)
      ensures call.Some? && scrollIntoViewOptions.Some? ==> call.value.argument.options == scrollIntoViewOptions.value
      ensures call.Some? && scrollIntoViewOptions.None? ==> call.value.argument.alignToTop == (alignToTop != Some(false))
    {
      call := None;
      if props.itemIdRefMap.Some? && id in props.itemIdRefMap.value {
        var ref := props.itemIdRefMap.value[id];
        if ref.current.Some? {
          var align := if alignToTop.Some? then alignToTop.value else true;
          var argument := if scrollIntoViewOptions.Some? then WithOptions(scrollIntoViewOptions.value) else AlignToTop(align);
          call := Some(IntoViewCall(ref.current.value, argument));
        }
      }
    }

    /** `scrollStopPromise`: the shared pending promise while scrolling, else an already-resolved one. */
    method ScrollStopPromise() returns (signal: SettleTracker.StopSignal)
      requires Valid()
      ensures signal == SettleTracker.StopSignalOf(Settling())
      ensures signal.AwaitSettle? <==> isScrolling
      ensures signal.AwaitSettle? ==> Some(signal.promise) == lastScrollStopPromise
    {
      if isScrolling && lastScrollStopPromise.Some? {
        signal := SettleTracker.AwaitSettle(lastScrollStopPromise.value);
      } else {
        signal := SettleTracker.AlreadySettled;
      }
    }

    /**
     * `onScrollStop`, fired by the debounce timer once the scroll events stop:
     * resolves the pending promise, if any, and returns it.
     */
    method OnScrollStop() returns (resolved: Option<SettleTracker.PromiseId>)
      requires Valid()
      modifies this
      ensures Valid()
      ensures Settling() == SettleTracker.OnSettle(old(Settling()))
      ensures resolved == old(lastScrollStopPromise)
      ensures Loading() == old(Loading()) && props == old(props) && node == old(node)
      ensures componentDidUpdateHasScrolledToStart == old(componentDidUpdateHasScrolledToStart)
    {
      resolved := lastScrollStopPromise;
      if resolved.Some? {
        resolvedPromises := resolvedPromises + [resolved.value];
      }
      isScrolling := false;
      lastScrollStopPromise := None;
    }

    /**
     * `handleScroll`: marks the component as scrolling, shares or creates the
     * settle promise, and runs the edge detector; returns whether it called
     * `onInfiniteLoad`.
     */
    method HandleScroll() returns (loadRequested: bool)
      requires Valid()
      modifies this
      ensures Valid()
      ensures Settling() == SettleTracker.OnScroll(old(Settling()))
      ensures Loading() == EdgeDetector.OnScroll(old(Loading()), props, Surface())
      ensures loadRequested <==> Loading().loadCalls == old(Loading().loadCalls) + 1
      ensures props == old(props) && node == old(node)
      ensures componentDidUpdateHasScrolledToStart == old(componentDidUpdateHasScrolledToStart)
    {
      isScrolling := true;
      if lastScrollStopPromise.None? {
        lastScrollStopPromise := Some(nextPromiseId);
        nextPromiseId := nextPromiseId + 1;
      }
      // The debounced onScrollStop is rescheduled here; the environment fires it.

      loadRequested := false;
      if props.hasOnInfiniteLoad
        && (if props.hasMore.Some? then props.hasMore.value else !props.isInfiniteLoading)
        && node != null
        && !isLoading
      {
        var axis := CurrentAxis();
        var currentScroll := node.Get(ScrollProperty(axis));
        var currentDim := node.Get(OffsetProperty(axis));
        var scrollDim := node.Get(ScrollDimProperty(axis));
        var edgeOffset := if props.infiniteLoadBeginEdgeOffset.Some?
          then props.infiniteLoadBeginEdgeOffset.value as real
          else currentDim as real / 2.0;
        var thresholdReached := false;
        if !props.displayInverse {
          var clientDim := node.Get(ClientDimProperty(axis));
          thresholdReached := (currentScroll + clientDim) as real + edgeOffset >= scrollDim as real;
        } else {
          thresholdReached := currentScroll as real <= edgeOffset;
        }
        if thresholdReached {
          isLoading := true;
          loadCalls := loadCalls + 1;
          loadRequested := true;
        }
      }
    }

    /**
     * `getSnapshotBeforeUpdate`, run with the new props before the DOM is
     * updated: when the item count grew, the distance from the offset to the
     * content's end.
     */
    method GetSnapshotBeforeUpdate(prevProps: Props) returns (snapshot: Option<PositionPreserver.Snapshot>)
      requires Comparable(prevProps, props)
      requires CountIncreased(prevProps, props) ==> node != null
      ensures snapshot.Some? <==> CountIncreased(prevProps, props)
      ensures snapshot.Some? ==> snapshot.value.scrollDelta == Surface().value.scrollDim - Surface().value.scroll
      ensures CountIncreased(prevProps, props) ==>
        snapshot == PositionPreserver.TakeSnapshot(prevProps, props, Surface().value)
    {
      if CountIncreased(prevProps, props) {
        var list := node;
        var axis := CurrentAxis();
        var scrollDelta := list.Get(ScrollDimProperty(axis)) - list.Get(ScrollProperty(axis));
        snapshot := Some(PositionPreserver.Snapshot(scrollDelta));
      } else {
        snapshot := None;
      }
    }

    /**
     * `componentDidUpdate`: on the first item-count change, scroll to the
     * start; then, if the update closes the loading cycle, restore the
     * offset from the snapshot in inverse mode and clear `isLoading`.
     */
    method ComponentDidUpdate(prevProps: Props, snapshot: Option<PositionPreserver.Snapshot>)
      requires Valid() && Comparable(prevProps, props)
      requires PositionPreserver.ClearsLoading(isLoading, prevProps, props) && props.displayInverse && snapshot.Some?
        ==> node != null
      modifies this, node
      ensures Valid()
      ensures props == old(props) && node == old(node) && Settling() == old(Settling())
      ensures Loading() == PositionPreserver.OnUpdate(old(Loading()), prevProps, props)
      ensures componentDidUpdateHasScrolledToStart ==
        (old(componentDidUpdateHasScrolledToStart) || CountChanged(prevProps, props))
      ensures node != null ==>
        var axis := CurrentAxis();
        var restores := PositionPreserver.ClearsLoading(old(isLoading), prevProps, props)
          && props.displayInverse && snapshot.Some?;
        var scrollsToStart := CountChanged(prevProps, props) && !old(componentDidUpdateHasScrolledToStart);
        node.Wrote(ScrollProperty(axis),
          if restores then PositionPreserver.RestoredScroll(snapshot.value, old(node.Get(ScrollDimProperty(axis))))
          else if scrollsToStart then StartOffset(props.displayInverse, old(node.ExtentsOn(axis)))
          else old(node.Get(ScrollProperty(axis))))
    {
      var countChanged := CountChanged(prevProps, props);
      if countChanged && !componentDidUpdateHasScrolledToStart {
        ScrollToStart();
        componentDidUpdateHasScrolledToStart := true;
      }

      if isLoading
        && ((prevProps.isInfiniteLoading && !props.isInfiniteLoading)
            || ((Truthy(props.hasMore) || Truthy(prevProps.hasMore)) && countChanged))
      {
        if props.displayInverse && snapshot.Some? {
          var list := node;
          var axis := CurrentAxis();
          var scrollTo := list.Get(ScrollDimProperty(axis)) - snapshot.value.scrollDelta;
          ScrollTo(ScrollProperty(axis), Position(scrollTo));
        }
        isLoading := false;
        closedCycles := closedCycles + 1;
      }
    }
  }

  /**
   * One re-render of a mounted component, in React's order: the new props
   * arrive, the snapshot is taken, the DOM commit changes the content extent
   * to `scrollDimAfter`, and `componentDidUpdate` runs. In inverse mode,
   * when items were added and the loading cycle closes, the viewport keeps
   * its distance from the content's end.
   */
  method Rerender(c: ReallySimpleInfiniteScroll, newProps: Props, scrollDimAfter: int)
    requires c.Valid() && c.node != null && Comparable(c.props, newProps)
    modifies c, c.node
    ensures c.Valid() && c.props == newProps && c.node == old(c.node)
    ensures c.Loading() == PositionPreserver.OnUpdate(old(c.Loading()), old(c.props), newProps)
    ensures c.Settling() == old(c.Settling())
    ensures c.componentDidUpdateHasScrolledToStart ==
      (old(c.componentDidUpdateHasScrolledToStart) || CountChanged(old(c.props), newProps))
    ensures var axis := ResolveAxis(newProps.axis);
      c.node.Get(ScrollDimProperty(axis)) == scrollDimAfter
      && forall q :: q != ScrollDimProperty(axis) && q != ScrollProperty(axis) ==> c.node.Get(q) == old(c.node.Get(q))
    ensures var axis := ResolveAxis(newProps.axis);
      var restores := newProps.displayInverse && CountIncreased(old(c.props), newProps)
        && PositionPreserver.ClearsLoading(old(c.isLoading), old(c.props), newProps);
      var scrollsToStart := CountChanged(old(c.props), newProps) && !old(c.componentDidUpdateHasScrolledToStart);
      c.node.Get(ScrollProperty(axis)) ==
        if restores then scrollDimAfter - old(c.node.Get(ScrollDimProperty(axis)) - c.node.Get(ScrollProperty(axis)))
        else if scrollsToStart then (if !newProps.displayInverse then 0 else scrollDimAfter)
        else old(c.node.Get(ScrollProperty(axis)))
    ensures var axis := ResolveAxis(newProps.axis);
      newProps.displayInverse && CountIncreased(old(c.props), newProps)
        && PositionPreserver.ClearsLoading(old(c.isLoading), old(c.props), newProps)
      ==> (c.node.Get(ScrollDimProperty(axis)) == scrollDimAfter
           && scrollDimAfter - c.node.Get(ScrollProperty(axis))
              == old(c.node.Get(ScrollDimProperty(axis)) - c.node.Get(ScrollProperty(axis))))
    ensures var axis := ResolveAxis(newProps.axis);
      !newProps.displayInverse && !(CountChanged(old(c.props), newProps) && !old(c.componentDidUpdateHasScrolledToStart))
      ==> c.node.Get(ScrollProperty(axis)) == old(c.node.Get(ScrollProperty(axis)))
  {
    var prevProps := c.props;
    c.props := newProps;
    var snapshot := c.GetSnapshotBeforeUpdate(prevProps);
    var axis := c.CurrentAxis();
    c.node.Set(ScrollDimProperty(axis), scrollDimAfter);
    c.ComponentDidUpdate(prevProps, snapshot);
  }
}
