/**
 * The scroll-settle tracker: scroll events mark the component as scrolling
 * and share one pending settle promise; the debounced settle resolves it,
 * clears the flag and drops the promise.
 */
module SettleTracker {
  import opened Wrappers

  /** Identity of a settle promise. */
  type PromiseId = nat

  /**
   * `isScrolling` and the pending promise (with its resolver) as the
   * component holds them; `nextId` is the identity the next promise gets and
   * `resolved` lists the promises resolved so far, in order.
   */
  datatype SettleState = SettleState(
    isScrolling: bool,
    pending: Option<PromiseId>,
    nextId: PromiseId,
    resolved: seq<PromiseId>)

  /** What `scrollStopPromise` returns. */
  datatype StopSignal = AwaitSettle(promise: PromiseId) | AlreadySettled

  const Initial := SettleState(false, None, 0, [])

  /**
   * A pending promise exists exactly while scrolling, was handed out and is
   * not resolved yet; no promise is resolved twice.
   */
  ghost predicate Valid(s: SettleState) {
    (s.isScrolling <==> s.pending.Some?)
    && (s.pending.Some? ==> s.pending.value < s.nextId && s.pending.value !in s.resolved)
    && (forall i | 0 <= i < |s.resolved| :: s.resolved[i] < s.nextId)
    && (forall i, j | 0 <= i < j < |s.resolved| :: s.resolved[i] != s.resolved[j])
  }

  /**
   * A scroll event: scrolling from now on; the pending promise is kept if
   * there is one, so a burst of events shares it, and created otherwise.
   */
  function OnScroll(s: SettleState): (t: SettleState)
    ensures t.isScrolling && t.pending.Some?
    ensures s.pending.Some? ==> t.pending == s.pending && t.nextId == s.nextId
    ensures s.pending.None? ==> t.pending == Some(s.nextId) && t.nextId == s.nextId + 1
    ensures t.resolved == s.resolved
    ensures Valid(s) ==> Valid(t)
  {
    if s.pending.Some? then s.(isScrolling := true)
    else s.(isScrolling := true, pending := Some(s.nextId), nextId := s.nextId + 1)
  }

  /**
   * The debounced settle: resolves the pending promise, if any, then clears
   * `isScrolling` and drops the promise.
   */
  function OnSettle(s: SettleState): (t: SettleState)
    ensures !t.isScrolling && t.pending.None? && t.nextId == s.nextId
    ensures t.resolved == s.resolved + (if s.pending.Some? then [s.pending.value] else [])
    ensures Valid(s) ==> Valid(t)
  {
    s.(isScrolling := false, pending := None,
       resolved := s.resolved + (if s.pending.Some? then [s.pending.value] else []))
  }

  /** `scrollStopPromise`: the shared pending promise while scrolling, else a resolved one. */
  function StopSignalOf(s: SettleState): StopSignal {
    if s.isScrolling && s.pending.Some? then AwaitSettle(s.pending.value) else AlreadySettled
  }

  /**
   * A promise handed out by `scrollStopPromise` is not resolved yet, and the
   * next settle resolves it; after that the signal is an already-settled one.
   */
  lemma AwaitedPromiseResolvesAtSettle(s: SettleState)
    requires Valid(s)
    ensures StopSignalOf(s).AwaitSettle? ==>
      StopSignalOf(s).promise !in s.resolved && StopSignalOf(s).promise in OnSettle(s).resolved
    ensures StopSignalOf(OnSettle(s)) == AlreadySettled
    ensures StopSignalOf(s) == AlreadySettled <==> !s.isScrolling
  {
  }

  datatype Tick = ScrollTick | SettleTick

  function Step(s: SettleState, t: Tick): SettleState {
    if t == ScrollTick then OnScroll(s) else OnSettle(s)
  }

  /** The tracker's state after a sequence of scroll events and settles. */
  function Run(s: SettleState, ticks: seq<Tick>): SettleState
    decreases |ticks|
  {
    if ticks == [] then s else Run(Step(s, ticks[0]), ticks[1..])
  }

  /** Every sequence of events keeps the tracker valid: no promise is ever resolved twice. */
  lemma {:induction false} RunKeepsValid(s: SettleState, ticks: seq<Tick>)
    requires Valid(s)
    ensures Valid(Run(s, ticks))
    decreases |ticks|
  {
    if ticks != [] {
      RunKeepsValid(Step(s, ticks[0]), ticks[1..]);
    }
  }

  lemma {:induction false} RunAppend(s: SettleState, a: seq<Tick>, b: seq<Tick>)
    ensures Run(s, a + b) == Run(Run(s, a), b)
    decreases |a|
  {
    if a == [] {
      assert a + b == b;
    } else {
      assert (a + b)[0] == a[0] && (a + b)[1..] == a[1..] + b;
      RunAppend(Step(s, a[0]), a[1..], b);
    }
  }

  /** A burst of `n` scroll events. */
  function Scrolls(n: nat): (ticks: seq<Tick>)
    ensures |ticks| == n && forall i | 0 <= i < n :: ticks[i] == ScrollTick
  {
    seq(n, _ => ScrollTick)
  }

  /**
   * A burst of `n >= 1` scroll events starting while settled creates one
   * promise, the next identity, and every event of the burst shares it.
   */
  lemma {:induction false} BurstSharesOnePromise(s: SettleState, n: nat)
    requires !s.isScrolling && s.pending.None? && n >= 1
    ensures Run(s, Scrolls(n)) == s.(isScrolling := true, pending := Some(s.nextId), nextId := s.nextId + 1)
  {
    if n == 1 {
      assert Scrolls(1)[1..] == [];
    } else {
      assert Scrolls(n) == Scrolls(n - 1) + [ScrollTick];
      RunAppend(s, Scrolls(n - 1), [ScrollTick]);
      BurstSharesOnePromise(s, n - 1);
    }
  }

  /**
   * A burst of scroll events followed by one settle resolves exactly one
   * promise, the one every awaiter of the burst was given, and ends settled.
   */
  lemma BurstThenSettleResolvesOnce(s: SettleState, n: nat)
    requires Valid(s) && !s.isScrolling && n >= 1
    ensures StopSignalOf(Run(s, Scrolls(n))) == AwaitSettle(s.nextId)
    ensures Run(s, Scrolls(n) + [SettleTick]).resolved == s.resolved + [s.nextId]
    ensures !Run(s, Scrolls(n) + [SettleTick]).isScrolling
  {
    BurstSharesOnePromise(s, n);
    RunAppend(s, Scrolls(n), [SettleTick]);
  }
}
