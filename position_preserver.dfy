/**
 * The position preserver and the close of a loading cycle, run around a
 * re-render: a snapshot of the distance to the content's end is taken
 * before the DOM update, restored after it in inverse mode, and the update
 * decides whether the open loading cycle is over.
 */
module PositionPreserver {
  import opened Wrappers
  import opened Dom
  import opened ComponentProps
  import opened LoadSession

  /** The content extent beyond the scroll offset, captured before the DOM update. */
  datatype Snapshot = Snapshot(scrollDelta: int)

  /**
   * The snapshot taken before an update: present exactly when the item count
   * grew, and then it is the distance from the offset to the content's end.
   */
  function TakeSnapshot(prev: Props, cur: Props, e: Extents): (snap: Option<Snapshot>)
    requires Comparable(prev, cur)
    ensures snap.Some? <==> CountIncreased(prev, cur)
    ensures snap.Some? ==> e.scroll + snap.value.scrollDelta == e.scrollDim
  {
    if CountIncreased(prev, cur) then Some(Snapshot(e.scrollDim - e.scroll)) else None
  }

  /**
   * Whether an update closes the loading cycle: one is open, and either the
   * caller's `isInfiniteLoading` went from true to false, or `hasMore` is or
   * was true and the item count changed.
   */
  predicate ClearsLoading(isLoading: bool, prev: Props, cur: Props)
    requires Comparable(prev, cur)
  {
    isLoading
    && ((prev.isInfiniteLoading && !cur.isInfiniteLoading)
        || ((Truthy(cur.hasMore) || Truthy(prev.hasMore)) && CountChanged(prev, cur)))
  }

  /** The offset written back in inverse mode, for the content extent after the update. */
  function RestoredScroll(snap: Snapshot, scrollDimAfter: int): int {
    scrollDimAfter - snap.scrollDelta
  }

  /**
   * Restoring keeps the viewport where it was relative to the content's end:
   * the distance to the end is the one before the update, and the offset
   * moves by exactly as much as the content grew.
   */
  lemma AnchorPreserved(prev: Props, cur: Props, before: Extents, scrollDimAfter: int)
    requires Comparable(prev, cur) && CountIncreased(prev, cur)
    ensures TakeSnapshot(prev, cur, before).Some?
    ensures var r := RestoredScroll(TakeSnapshot(prev, cur, before).value, scrollDimAfter);
      scrollDimAfter - r == before.scrollDim - before.scroll
      && r - before.scroll == scrollDimAfter - before.scrollDim
  {
  }

  /** Content extent 1000 at offset 600, growing to 1400, restores the offset to 1000. */
  lemma RestoreExample(prev: Props, cur: Props, e: Extents)
    requires Comparable(prev, cur) && CountIncreased(prev, cur)
    requires e.scroll == 600 && e.scrollDim == 1000
    ensures TakeSnapshot(prev, cur, e) == Some(Snapshot(400))
    ensures RestoredScroll(TakeSnapshot(prev, cur, e).value, 1400) == 1000
  {
  }

  /**
   * The loading state after an update: an open cycle is closed exactly when
   * the update clears it; an update never opens one and never requests a load.
   */
  function OnUpdate(s: LoadState, prev: Props, cur: Props): (t: LoadState)
    requires Comparable(prev, cur)
    ensures !s.isLoading ==> t == s
    ensures t.isLoading <==> s.isLoading && !ClearsLoading(true, prev, cur)
    ensures t.loadCalls == s.loadCalls
    ensures t.closedCycles == s.closedCycles + (if s.isLoading && !t.isLoading then 1 else 0)
    ensures CycleInvariant(s) ==> CycleInvariant(t)
  {
    if ClearsLoading(s.isLoading, prev, cur) then
      s.(isLoading := false, closedCycles := s.closedCycles + 1)
    else
      s
  }

  /**
   * The caller's `isInfiniteLoading` going from true to false closes the
   * cycle on its own, whatever happened to the item count.
   */
  lemma InfiniteLoadingEndCloses(s: LoadState, prev: Props, cur: Props)
    requires Comparable(prev, cur)
    requires s.isLoading && prev.isInfiniteLoading && !cur.isInfiniteLoading
    ensures !OnUpdate(s, prev, cur).isLoading
  {
  }

  /** A changed item count closes the cycle when `hasMore` is true now or was before. */
  lemma CountChangeWithMoreCloses(s: LoadState, prev: Props, cur: Props)
    requires Comparable(prev, cur)
    requires s.isLoading && (Truthy(cur.hasMore) || Truthy(prev.hasMore)) && CountChanged(prev, cur)
    ensures !OnUpdate(s, prev, cur).isLoading
  {
  }

  /**
   * No other update closes the cycle: without the `isInfiniteLoading` fall
   * and without a count change under `hasMore`, the state is unchanged.
   */
  lemma OtherUpdatesKeepCycle(s: LoadState, prev: Props, cur: Props)
    requires Comparable(prev, cur)
    requires !(prev.isInfiniteLoading && !cur.isInfiniteLoading)
    requires !((Truthy(cur.hasMore) || Truthy(prev.hasMore)) && CountChanged(prev, cur))
    ensures OnUpdate(s, prev, cur) == s
  {
  }
}
