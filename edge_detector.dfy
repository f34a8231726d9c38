/**
 * The edge detector run on every scroll event: a gate, a threshold test
 * against the loading edge, and at most one load request per loading cycle.
 */
module EdgeDetector {
  import opened Wrappers
  import opened Dom
  import opened ComponentProps
  import opened LoadSession

  /**
   * Whether a load may be requested at all: a callback is registered, more
   * items exist (`hasMore` when it is defined, otherwise "the caller is not
   * loading"), the element is mounted and no loading cycle is open.
   */
  predicate GateOpen(p: Props, mounted: bool, isLoading: bool) {
    p.hasOnInfiniteLoad
    && (if p.hasMore.Some? then p.hasMore.value else !p.isInfiniteLoading)
    && mounted
    && !isLoading
  }

  /**
   * The distance from the loading edge at which loading begins: the supplied
   * offset, or half of the element's current offset extent.
   */
  function EdgeOffset(supplied: Option<int>, offsetDim: int): real {
    if supplied.Some? then supplied.value as real else offsetDim as real / 2.0
  }

  /**
   * The threshold test: forward, the far end of the viewport plus the edge
   * offset reaches the content extent; inverse, the offset is within the
   * edge offset of the start.
   */
  predicate ThresholdReached(inverse: bool, e: Extents, edge: real) {
    if !inverse then (e.scroll + e.clientDim) as real + edge >= e.scrollDim as real
    else e.scroll as real <= edge
  }

  /**
   * How far the viewport is from the loading edge: the content past the
   * viewport's end in forward mode, the scroll offset in inverse mode.
   */
  function DistanceToLoadingEdge(inverse: bool, e: Extents): int {
    if !inverse then e.scrollDim - (e.scroll + e.clientDim) else e.scroll
  }

  /** The threshold is reached exactly when the loading edge is at most `edge` away. */
  lemma ThresholdIsDistance(inverse: bool, e: Extents, edge: real)
    ensures ThresholdReached(inverse, e, edge) <==> DistanceToLoadingEdge(inverse, e) as real <= edge
  {
  }

  /** Whether a scroll event over `surface` (absent when unmounted) requests a load. */
  predicate Triggers(p: Props, surface: Option<Extents>, isLoading: bool) {
    GateOpen(p, surface.Some?, isLoading)
    && surface.Some?
    && ThresholdReached(p.displayInverse, surface.value,
                        EdgeOffset(p.infiniteLoadBeginEdgeOffset, surface.value.offsetDim))
  }

  /**
   * The loading state after one scroll event. While a cycle is open nothing
   * changes; otherwise a load is requested exactly when the event triggers,
   * which opens a cycle.
   */
  function OnScroll(s: LoadState, p: Props, surface: Option<Extents>): (t: LoadState)
    ensures s.isLoading ==> t == s
    ensures t.isLoading <==> s.isLoading || Triggers(p, surface, false)
    ensures t.loadCalls == s.loadCalls + (if t.isLoading && !s.isLoading then 1 else 0)
    ensures t.closedCycles == s.closedCycles
    ensures CycleInvariant(s) ==> CycleInvariant(t)
  {
    if Triggers(p, surface, s.isLoading) then
      s.(isLoading := true, loadCalls := s.loadCalls + 1)
    else
      s
  }

  /** A closed gate leaves the loading state untouched, whatever the readouts. */
  lemma ClosedGateChangesNothing(s: LoadState, p: Props, surface: Option<Extents>)
    requires !GateOpen(p, surface.Some?, s.isLoading)
    ensures OnScroll(s, p, surface) == s
  {
  }

  /** `hasMore == false` blocks loading even when the caller is not loading. */
  lemma NoMoreBlocksLoading(s: LoadState, p: Props, surface: Option<Extents>)
    requires p.hasMore == Some(false)
    ensures OnScroll(s, p, surface) == s
  {
  }

  /**
   * With `hasMore` undefined, `isInfiniteLoading` decides the gate: loading
   * blocks it, not loading opens it (given a callback, a mounted element and
   * no open cycle).
   */
  lemma UndefinedHasMoreDefersToInfiniteLoading(p: Props, isLoading: bool)
    requires p.hasMore.None? && p.hasOnInfiniteLoad && !isLoading
    ensures GateOpen(p, true, isLoading) <==> !p.isInfiniteLoading
  {
  }

  /**
   * With `hasMore` defined, an open gate means the loading component is on
   * screen; with it undefined the gate opens only while the caller reports
   * no loading, so the component is then hidden.
   */
  lemma OpenGateAndLoadingComponent(p: Props, mounted: bool, isLoading: bool)
    requires GateOpen(p, mounted, isLoading)
    ensures p.hasMore.Some? ==> ShowsLoadingComponent(p)
    ensures p.hasMore.None? ==> !ShowsLoadingComponent(p)
  {
  }

  /**
   * Forward boundary: the threshold is inclusive, so reaching the content
   * extent exactly triggers, and one pixel less does not.
   */
  lemma ForwardBoundary(e: Extents, k: int)
    requires e.scroll + e.clientDim + k == e.scrollDim
    ensures ThresholdReached(false, e, EdgeOffset(Some(k), e.offsetDim))
    ensures !ThresholdReached(false, e.(scroll := e.scroll - 1), EdgeOffset(Some(k), e.offsetDim))
  {
  }

  /** Inverse boundary: an offset equal to the edge offset triggers, one more does not. */
  lemma InverseBoundary(e: Extents, k: int)
    requires e.scroll == k
    ensures ThresholdReached(true, e, EdgeOffset(Some(k), e.offsetDim))
    ensures !ThresholdReached(true, e.(scroll := k + 1), EdgeOffset(Some(k), e.offsetDim))
  {
  }

  /**
   * The default edge offset is half the offset extent read at this event:
   * the test is the same as the doubled integer comparison.
   */
  lemma DefaultEdgeOffsetIsHalf(inverse: bool, e: Extents)
    ensures ThresholdReached(inverse, e, EdgeOffset(None, e.offsetDim)) <==>
      if !inverse then 2 * (e.scroll + e.clientDim) + e.offsetDim >= 2 * e.scrollDim
      else 2 * e.scroll <= e.offsetDim
  {
  }

  /** A negative supplied offset over an all-zero element triggers in neither mode. */
  lemma NegativeOffsetOnEmptyElement(inverse: bool, k: int)
    requires k < 0
    ensures !ThresholdReached(inverse, Extents(0, 0, 0, 0), EdgeOffset(Some(k), 0))
  {
  }

  /** A negative supplied offset never triggers in inverse mode at a non-negative offset. */
  lemma NegativeOffsetDisablesInverse(e: Extents, k: int)
    requires k < 0 && e.scroll >= 0
    ensures !ThresholdReached(true, e, EdgeOffset(Some(k), e.offsetDim))
  {
  }

  /**
   * Moving towards the loading edge keeps the threshold reached: further
   * forward in forward mode, nearer the start in inverse mode.
   */
  lemma ThresholdMonotone(inverse: bool, e: Extents, scroll': int, edge: real)
    requires ThresholdReached(inverse, e, edge)
    requires if !inverse then scroll' >= e.scroll else scroll' <= e.scroll
    ensures ThresholdReached(inverse, e.(scroll := scroll'), edge)
  {
  }
}
