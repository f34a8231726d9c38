/**
 * The loading cycle over whole event histories: scroll events run the edge
 * detector, re-renders run the cycle close; together they request at most
 * one load per cycle.
 */
module LoadingCycle {
  import opened Wrappers
  import opened Dom
  import opened ComponentProps
  import opened LoadSession
  import EdgeDetector
  import PositionPreserver

  /** A scroll event over the element (absent when unmounted), or a re-render from `prev` to `cur`. */
  datatype Event =
    | Scrolled(props: Props, surface: Option<Extents>)
    | Updated(prev: Props, cur: Props)

  predicate WellFormed(ev: Event) {
    ev.Updated? ==> Comparable(ev.prev, ev.cur)
  }

  predicate AllWellFormed(evs: seq<Event>) {
    forall i | 0 <= i < |evs| :: WellFormed(evs[i])
  }

  function Step(s: LoadState, ev: Event): LoadState
    requires WellFormed(ev)
  {
    match ev
    case Scrolled(p, surface) => EdgeDetector.OnScroll(s, p, surface)
    case Updated(prev, cur) => PositionPreserver.OnUpdate(s, prev, cur)
  }

  /** The loading state after a history of events. */
  function Run(s: LoadState, evs: seq<Event>): LoadState
    requires AllWellFormed(evs)
    decreases |evs|
  {
    if evs == [] then s else Run(Step(s, evs[0]), evs[1..])
  }

  /**
   * Over every history, each closed cycle saw exactly one load request and
   * the open cycle, if any, exactly one more.
   */
  lemma {:induction false} RunKeepsCycleInvariant(s: LoadState, evs: seq<Event>)
    requires AllWellFormed(evs) && CycleInvariant(s)
    ensures CycleInvariant(Run(s, evs))
    decreases |evs|
  {
    if evs != [] {
      RunKeepsCycleInvariant(Step(s, evs[0]), evs[1..]);
    }
  }

  /** From a fresh component, load requests never outnumber closed cycles by more than one. */
  lemma AtMostOneLoadPerCycle(evs: seq<Event>)
    requires AllWellFormed(evs)
    ensures Run(Initial, evs).loadCalls <= Run(Initial, evs).closedCycles + 1
    ensures Run(Initial, evs).isLoading <==> Run(Initial, evs).loadCalls == Run(Initial, evs).closedCycles + 1
  {
    RunKeepsCycleInvariant(Initial, evs);
  }

  predicate OnlyScrolls(evs: seq<Event>) {
    forall i | 0 <= i < |evs| :: evs[i].Scrolled?
  }

  /** While a cycle is open, any number of scroll events requests nothing and changes nothing. */
  lemma {:induction false} ScrollsWhileLoadingChangeNothing(s: LoadState, evs: seq<Event>)
    requires s.isLoading && OnlyScrolls(evs)
    ensures AllWellFormed(evs) && Run(s, evs) == s
    decreases |evs|
  {
    if evs != [] {
      ScrollsWhileLoadingChangeNothing(s, evs[1..]);
    }
  }

  /**
   * Without a load request the cycle cannot be open: from a fresh component,
   * a history in which loading is open has requested at least one load.
   */
  lemma LoadingImpliesRequested(evs: seq<Event>)
    requires AllWellFormed(evs) && Run(Initial, evs).isLoading
    ensures Run(Initial, evs).loadCalls >= 1
  {
    RunKeepsCycleInvariant(Initial, evs);
  }

  /** Props with `hasMore`, a callback, `length` items, and nothing else set. */
  function ListProps(hasMore: bool, isInfiniteLoading: bool, items: nat): Props {
    Props(None, false, Some(hasMore), isInfiniteLoading, None, true, Some(items), Some(items), None)
  }

  /**
   * Five items, `hasMore`, default threshold: a scroll that satisfies the
   * forward test requests one load, and a second scroll before the item
   * count changes requests nothing more.
   */
  lemma SecondScrollDoesNotReload(e: Extents)
    requires 2 * (e.scroll + e.clientDim) + e.offsetDim >= 2 * e.scrollDim
    ensures var p := ListProps(true, false, 5);
      Run(Initial, [Scrolled(p, Some(e)), Scrolled(p, Some(e))]) == LoadState(true, 1, 0)
  {
    var p := ListProps(true, false, 5);
    var evs := [Scrolled(p, Some(e)), Scrolled(p, Some(e))];
    EdgeDetector.DefaultEdgeOffsetIsHalf(false, e);
    var s1 := Step(Initial, evs[0]);
    assert s1 == LoadState(true, 1, 0);
    assert Run(s1, evs[1..]) == s1 by {
      ScrollsWhileLoadingChangeNothing(s1, evs[1..]);
    }
  }

  /**
   * Repeated loading over an element whose extents are all zero: load,
   * `isInfiniteLoading` rises (the cycle stays open), items grow while it
   * falls (closed), load again, `hasMore` turns false with more items
   * (closed), and a last scroll requests nothing. Two loads in all.
   */
  lemma RepeatedLoading()
    ensures
      var zero := Some(Extents(0, 0, 0, 0));
      var p1, p2, p3, p4 := ListProps(true, false, 1), ListProps(true, true, 1),
                            ListProps(true, false, 2), ListProps(false, false, 5);
      var evs := [Scrolled(p1, zero), Updated(p1, p2), Updated(p2, p3), Scrolled(p3, zero),
                  Updated(p3, p4), Scrolled(p4, zero)];
      AllWellFormed(evs) && Run(Initial, evs) == LoadState(false, 2, 2)
  {
    var zero := Some(Extents(0, 0, 0, 0));
    var p1, p2, p3, p4 := ListProps(true, false, 1), ListProps(true, true, 1),
                          ListProps(true, false, 2), ListProps(false, false, 5);
    var evs := [Scrolled(p1, zero), Updated(p1, p2), Updated(p2, p3), Scrolled(p3, zero),
                Updated(p3, p4), Scrolled(p4, zero)];
    var s1 := Step(Initial, evs[0]);
    assert s1 == LoadState(true, 1, 0);
    var s2 := Step(s1, evs[1]);
    assert s2 == s1;
    var s3 := Step(s2, evs[2]);
    assert s3 == LoadState(false, 1, 1);
    var s4 := Step(s3, evs[3]);
    assert s4 == LoadState(true, 2, 1);
    var s5 := Step(s4, evs[4]);
    assert s5 == LoadState(false, 2, 2);
    var s6 := Step(s5, evs[5]);
    assert s6 == s5;
    assert Run(s5, evs[5..]) == s6 by { assert evs[5..][1..] == []; }
    assert Run(s4, evs[4..]) == Run(s5, evs[5..]) by { assert evs[4..][1..] == evs[5..]; }
    assert Run(s3, evs[3..]) == Run(s4, evs[4..]) by { assert evs[3..][1..] == evs[4..]; }
    assert Run(s2, evs[2..]) == Run(s3, evs[3..]) by { assert evs[2..][1..] == evs[3..]; }
    assert Run(s1, evs[1..]) == Run(s2, evs[2..]) by { assert evs[1..][1..] == evs[2..]; }
  }
}
