/**
 * The loading session: the component's `isLoading` flag together with a
 * record of how many load requests were made and how many loading cycles
 * were closed.
 */
module LoadSession {
  /**
   * `isLoading` as the component holds it; `loadCalls` counts calls of
   * `onInfiniteLoad`, `closedCycles` the updates that cleared `isLoading`.
   */
  datatype LoadState = LoadState(isLoading: bool, loadCalls: nat, closedCycles: nat)

  /** The state of a freshly constructed component. */
  const Initial := LoadState(false, 0, 0)

  /**
   * Exactly one load request per loading cycle: one for each cycle already
   * closed, and one more exactly while a cycle is open.
   */
  predicate CycleInvariant(s: LoadState) {
    s.loadCalls == s.closedCycles + (if s.isLoading then 1 else 0)
  }
}
