/**
 * Axis resolution: which DOM element properties the component reads and
 * writes for the scrolling axis it is configured with.
 */
module Axes {
  import opened Wrappers

  datatype Axis = X | Y

  /** The four parts a property plays for the component on one axis. */
  datatype Role = ScrollOffset | OffsetExtent | ClientExtent | ScrollExtent

  /** The DOM element properties the component may touch. */
  datatype Prop =
    | ScrollTop | ScrollLeft
    | OffsetHeight | OffsetWidth
    | ClientHeight | ClientWidth
    | ScrollHeight | ScrollWidth

  /** The axis a DOM property measures: height-like properties are vertical. */
  function AxisOfProp(p: Prop): Axis {
    match p
    case ScrollTop | OffsetHeight | ClientHeight | ScrollHeight => Y
    case ScrollLeft | OffsetWidth | ClientWidth | ScrollWidth => X
  }

  /** What a DOM property measures, independently of its axis. */
  function RoleOfProp(p: Prop): Role {
    match p
    case ScrollTop | ScrollLeft => ScrollOffset
    case OffsetHeight | OffsetWidth => OffsetExtent
    case ClientHeight | ClientWidth => ClientExtent
    case ScrollHeight | ScrollWidth => ScrollExtent
  }

  /** The name a caller writes in the `axis` prop to select an axis. */
  function AxisName(a: Axis): string {
    if a == X then "x" else "y"
  }

  /** The `axis` prop resolved: only the string "x" selects the horizontal axis. */
  function ResolveAxis(axis: Option<string>): (a: Axis)
    ensures axis == Some(AxisName(X)) ==> a == X
    ensures axis != Some(AxisName(X)) ==> a == Y
  {
    if axis == Some("x") then X else Y
  }

  function ScrollProperty(a: Axis): (p: Prop)
    ensures AxisOfProp(p) == a && RoleOfProp(p) == ScrollOffset
  {
    match a
    case Y => ScrollTop
    case X => ScrollLeft
  }

  function OffsetProperty(a: Axis): (p: Prop)
    ensures AxisOfProp(p) == a && RoleOfProp(p) == OffsetExtent
  {
    match a
    case Y => OffsetHeight
    case X => OffsetWidth
  }

  function ClientDimProperty(a: Axis): (p: Prop)
    ensures AxisOfProp(p) == a && RoleOfProp(p) == ClientExtent
  {
    match a
    case Y => ClientHeight
    case X => ClientWidth
  }

  function ScrollDimProperty(a: Axis): (p: Prop)
    ensures AxisOfProp(p) == a && RoleOfProp(p) == ScrollExtent
  {
    match a
    case Y => ScrollHeight
    case X => ScrollWidth
  }

  /** The resolver for one role, as a single function of axis and role. */
  function PropertyFor(a: Axis, r: Role): Prop {
    match r
    case ScrollOffset => ScrollProperty(a)
    case OffsetExtent => OffsetProperty(a)
    case ClientExtent => ClientDimProperty(a)
    case ScrollExtent => ScrollDimProperty(a)
  }

  /**
   * The resolver is a bijection between (axis, role) pairs and properties:
   * every property is reached, by exactly the pair that describes it.
   */
  lemma PropertyForIsBijective(p: Prop, a: Axis, r: Role)
    ensures PropertyFor(AxisOfProp(p), RoleOfProp(p)) == p
    ensures AxisOfProp(PropertyFor(a, r)) == a && RoleOfProp(PropertyFor(a, r)) == r
  {
  }

  /** The two scrollbar-presence tests the component can hand out. */
  datatype ScrollbarDetector = HasVerticalScrollbar | HasHorizontalScrollbar

  /** The axis a scrollbar-presence test looks at. */
  function DetectorAxis(d: ScrollbarDetector): Axis {
    if d == HasVerticalScrollbar then Y else X
  }

  /**
   * The static detector selection: only the string "y" selects the vertical
   * test; any other argument, an absent one included, selects the horizontal one.
   */
  function ScrollbarDetectorFor(axis: Option<string>): (d: ScrollbarDetector)
    ensures DetectorAxis(d) == Y <==> axis == Some(AxisName(Y))
  {
    if axis == Some("y") then HasVerticalScrollbar else HasHorizontalScrollbar
  }

  /** Selecting by an axis's own name yields the test for that axis, and the two differ. */
  lemma DetectorMatchesAxis(a: Axis)
    ensures DetectorAxis(ScrollbarDetectorFor(Some(AxisName(a)))) == a
    ensures ScrollbarDetectorFor(Some(AxisName(X))) != ScrollbarDetectorFor(Some(AxisName(Y)))
  {
  }
}
