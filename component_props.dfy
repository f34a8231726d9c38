/**
 * The props the component reads, and how it compares the item count of
 * two consecutive renders.
 */
module ComponentProps {
  import opened Wrappers

  type ItemId = string

  /** Identity of a rendered item element held by a caller-owned ref. */
  type ElementHandle = nat

  /** A React ref object: `current` is absent until the element mounts. */
  datatype Ref = Ref(current: Option<ElementHandle>)

  /**
   * The props the core reads. `children` is the number of child nodes, absent
   * when no children are passed; `hasOnInfiniteLoad` says whether an
   * `onInfiniteLoad` callback is registered.
   */
  datatype Props = Props(
    axis: Option<string>,
    displayInverse: bool,
    hasMore: Option<bool>,
    isInfiniteLoading: bool,
    infiniteLoadBeginEdgeOffset: Option<int>,
    hasOnInfiniteLoad: bool,
    children: Option<nat>,
    length: Option<int>,
    itemIdRefMap: Option<map<ItemId, Ref>>)

  /** JavaScript truthiness of an optional boolean prop. */
  predicate Truthy(b: Option<bool>) {
    b == Some(true)
  }

  /**
   * Whether the previous render's item count can be read: when the current
   * props have children the source reads `prevProps.children.length`, which
   * raises a TypeError if the previous props had none.
   */
  predicate Comparable(prev: Props, cur: Props) {
    cur.children.Some? ==> prev.children.Some?
  }

  /** The item count of `p`, counted the way the current render decides. */
  function ItemCount(p: Props, byChildren: bool): Option<int>
    requires byChildren ==> p.children.Some?
  {
    if byChildren then Some(p.children.value) else p.length
  }

  /**
   * `prev < cur` on the two item counts; a comparison with an undefined
   * count is false in JavaScript.
   */
  predicate CountIncreased(prev: Props, cur: Props)
    requires Comparable(prev, cur)
  {
    var byChildren := cur.children.Some?;
    var before, after := ItemCount(prev, byChildren), ItemCount(cur, byChildren);
    before.Some? && after.Some? && before.value < after.value
  }

  /** `prev !== cur` on the two item counts; undefined equals only undefined. */
  predicate CountChanged(prev: Props, cur: Props)
    requires Comparable(prev, cur)
  {
    var byChildren := cur.children.Some?;
    ItemCount(prev, byChildren) != ItemCount(cur, byChildren)
  }

  /** A growing item count is a changed one; a change between two undefined counts is impossible. */
  lemma IncreasedImpliesChanged(prev: Props, cur: Props)
    requires Comparable(prev, cur)
    ensures CountIncreased(prev, cur) ==> CountChanged(prev, cur)
    ensures cur.children.None? && prev.length.None? && cur.length.None? ==> !CountChanged(prev, cur)
  {
  }

  /**
   * When a children array is passed, `length` is ignored: the children
   * decide, even when both disagree.
   */
  lemma ChildrenTakePrecedence(prev: Props, cur: Props, n: nat, m: nat)
    requires prev.children == Some(n) && cur.children == Some(m)
    ensures CountIncreased(prev, cur) <==> n < m
    ensures CountChanged(prev, cur) <==> n != m
  {
  }

  /** Whether the loading component is rendered next to the items. */
  predicate ShowsLoadingComponent(p: Props) {
    Truthy(p.hasMore) || p.isInfiniteLoading
  }
}
