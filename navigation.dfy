/** The imperative navigation API: where the start and the end of the list are. */
module Navigation {
  import opened Axes
  import opened Dom
  import opened ComponentProps
  import opened EdgeDetector

  /** What `scrollTo` is given: an integer offset, or the name of a property to copy. */
  datatype ScrollTarget = Position(value: int) | PropertyOf(prop: Prop)

  /** The offset `scrollToStart` writes: 0 forward, the content extent inverse. */
  function StartOffset(inverse: bool, e: Extents): int {
    if !inverse then 0 else e.scrollDim
  }

  /** The offset `scrollToEnd` writes: the content extent forward, 0 inverse. */
  function EndOffset(inverse: bool, e: Extents): int {
    if !inverse then e.scrollDim else 0
  }

  /** Start and end swap places between the two display directions. */
  lemma StartEndMirror(inverse: bool, e: Extents)
    ensures StartOffset(inverse, e) == EndOffset(!inverse, e)
    ensures {StartOffset(inverse, e), EndOffset(inverse, e)} == {0, e.scrollDim}
  {
  }

  /**
   * The end of the list is the loading edge in both directions: scrolling
   * there reaches the threshold for any non-negative edge offset.
   */
  lemma EndReachesLoadingEdge(inverse: bool, e: Extents, edge: real)
    requires edge >= 0.0 && e.clientDim >= 0
    ensures ThresholdReached(inverse, e.(scroll := EndOffset(inverse, e)), edge)
  {
  }

  /** At the start, the loading edge is the whole scrollable distance away. */
  lemma StartIsFarFromLoadingEdge(inverse: bool, e: Extents)
    ensures DistanceToLoadingEdge(inverse, e.(scroll := StartOffset(inverse, e))) ==
      if !inverse then e.scrollDim - e.clientDim else e.scrollDim
  {
  }

  /** The options object `scrollIntoView` may be given. */
  datatype ScrollIntoViewOptions = ScrollIntoViewOptions(behavior: string, block: string, inline: string)

  /** The single argument passed to `scrollIntoView`: the options when given, else the flag. */
  datatype IntoViewArgument = AlignToTop(alignToTop: bool) | WithOptions(options: ScrollIntoViewOptions)

  /** A call of the native `scrollIntoView` on one item element. */
  datatype IntoViewCall = IntoViewCall(target: ElementHandle, argument: IntoViewArgument)
}
