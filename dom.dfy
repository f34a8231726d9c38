/**
 * The scrollable DOM element, owned by the rendering environment: the
 * component reads its extents and writes its scroll offset in place.
 */
module Dom {
  import opened Axes

  /** The four readouts of the element along one axis. */
  datatype Extents = Extents(scroll: int, offsetDim: int, clientDim: int, scrollDim: int)

  class Element {
    var scrollTop: int
    var scrollLeft: int
    var offsetHeight: int
    var offsetWidth: int
    var clientHeight: int
    var clientWidth: int
    var scrollHeight: int
    var scrollWidth: int

    constructor (vertical: Extents, horizontal: Extents)
      ensures ExtentsOn(Y) == vertical && ExtentsOn(X) == horizontal
    {
      scrollTop, offsetHeight, clientHeight, scrollHeight :=
        vertical.scroll, vertical.offsetDim, vertical.clientDim, vertical.scrollDim;
      scrollLeft, offsetWidth, clientWidth, scrollWidth :=
        horizontal.scroll, horizontal.offsetDim, horizontal.clientDim, horizontal.scrollDim;
    }

    /** Reads a property by name, as `element[prop]` does. */
    function Get(p: Prop): int
      reads this
    {
      match p
      case ScrollTop => scrollTop
      case ScrollLeft => scrollLeft
      case OffsetHeight => offsetHeight
      case OffsetWidth => offsetWidth
      case ClientHeight => clientHeight
      case ClientWidth => clientWidth
      case ScrollHeight => scrollHeight
      case ScrollWidth => scrollWidth
    }

    /** The readouts along axis `a`, through the axis resolver. */
    function ExtentsOn(a: Axis): Extents
      reads this
    {
      Extents(Get(ScrollProperty(a)), Get(OffsetProperty(a)),
              Get(ClientDimProperty(a)), Get(ScrollDimProperty(a)))
    }

    /** Property `p` now holds `v`, and every other property is as it was. */
    twostate predicate Wrote(p: Prop, v: int)
      reads this
    {
      Get(p) == v && forall q :: q != p ==> Get(q) == old(Get(q))
    }

    /** Writes a property by name, as `element[prop] = v` does. */
    method Set(p: Prop, v: int)
      modifies this
      ensures Wrote(p, v)
    {
      match p
      case ScrollTop => scrollTop := v;
      case ScrollLeft => scrollLeft := v;
      case OffsetHeight => offsetHeight := v;
      case OffsetWidth => offsetWidth := v;
      case ClientHeight => clientHeight := v;
      case ClientWidth => clientWidth := v;
      case ScrollHeight => scrollHeight := v;
      case ScrollWidth => scrollWidth := v;
    }
  }
}
