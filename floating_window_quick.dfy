/** The QtQuick floating window: a dock-widget container item shown in a QtQuick window of its
    own. Modelled are its size policy (the minimum size and the clamping of requested
    geometries), the choice of its window's transient and cleanup parents, and the handler that
    schedules its deletion once it is hidden. */
module FloatingWindowQuick {
  import opened Geometry
  import opened Wrappers

  /** A toolkit window (QWindow), known only by its identity. */
  datatype WindowRef = WindowRef(id: nat)

  /** The floating window's QObject parent: nothing, a main window (whose item may or may not
      already be shown in a window), or some other object. */
  datatype ObjectParent =
    | NoParent
    | MainWindowParent(window: Option<WindowRef>)
    | OtherParent

  /** candidateParentWindow: the window of the main window the floating window belongs to, if
      its QObject parent is a main window that is in a window; nothing otherwise. */
  function CandidateParentWindow(parent: ObjectParent): (r: Option<WindowRef>)
    ensures r.Some? <==> parent.MainWindowParent? && parent.window.Some?
    ensures r.Some? ==> r == parent.window
  {
    match parent
    case MainWindowParent(window) => window
    case _ => None
  }

  /** A requested geometry made at least `minimum` in each dimension (setGeometry's clamp). */
  function ClampedGeometry(geo: Rect, minimum: Size): (r: Rect)
    ensures r.x == geo.x && r.y == geo.y
    ensures r.Dimensions().AtLeast(minimum) && r.Dimensions().AtLeast(geo.Dimensions())
    ensures r.width == geo.width || r.width == minimum.width
    ensures r.height == geo.height || r.height == minimum.height
    ensures geo.Dimensions().AtLeast(minimum) ==> r == geo
  {
    geo.WithSize(geo.Dimensions().ExpandedTo(minimum))
  }

  /** The clamped size is the smallest one at least as large as both the request and the
      minimum. */
  lemma ClampIsLeast(geo: Rect, minimum: Size, s: Size)
    requires s.AtLeast(minimum) && s.AtLeast(geo.Dimensions())
    ensures s.AtLeast(ClampedGeometry(geo, minimum).Dimensions())
  {
  }

  /** Clamping an already clamped geometry changes nothing. */
  lemma ClampIdempotent(geo: Rect, minimum: Size)
    ensures ClampedGeometry(ClampedGeometry(geo, minimum), minimum) == ClampedGeometry(geo, minimum)
  {
  }

  /** The QtQuick window the floating window lives in, with its root content item. */
  class QuickView {
    var geometry: Rect
    var contentItemSize: Size
    var transientParent: Option<WindowRef>
    var cleanupParent: Option<WindowRef>
    var objectName: string

    /** A new, unparented window of empty geometry. */
    constructor ()
      ensures geometry == Rect(0, 0, 0, 0) && contentItemSize == Size(0, 0)
      ensures transientParent == None && cleanupParent == None && objectName == ""
    {
      geometry, contentItemSize := Rect(0, 0, 0, 0), Size(0, 0);
      transientParent, cleanupParent, objectName := None, None, "";
    }
  }

  const ParentedWindowName := "Floating QWindow with parent"
  const UnparentedWindowName := "Floating QWindow"

  class FloatingWindow {
    const quickWindow: QuickView
    const objectParent: ObjectParent
    /** The height of the title bar drawn above the content. */
    const titleBarHeight: int
    /** The minimum size of the multi-splitter holding the dock widgets. */
    const contentMinimum: Size
    var visible: bool
    var beingDeleted: bool
    /** How many times deferred deletion has been requested. */
    var deletionsScheduled: nat

    /** The window's root item always has the window's size. */
    ghost predicate Valid()
      reads this, quickWindow
    {
      quickWindow.contentItemSize == quickWindow.geometry.Dimensions()
    }

    /** The minimum size: the content's minimum, with room for the title bar on top. */
    function MinimumSize(): (r: Size)
      ensures r.width == contentMinimum.width
      ensures r.height == contentMinimum.height + titleBarHeight
    {
      contentMinimum.Plus(Size(0, titleBarHeight))
    }

    /** Construction and init: the window and its root item are sized to the minimum size;
        when the QObject parent is a main window shown in a window, that window becomes both
        the transient parent and the cleanup parent of the floating window's own window,
        otherwise neither is set. */
    constructor (objectParent: ObjectParent, titleBarHeight: int, contentMinimum: Size)
      ensures this.objectParent == objectParent && this.titleBarHeight == titleBarHeight
      ensures this.contentMinimum == contentMinimum
      ensures fresh(quickWindow) && Valid()
      ensures quickWindow.geometry.Dimensions() == MinimumSize() && quickWindow.contentItemSize == MinimumSize()
      ensures var candidate := CandidateParentWindow(objectParent);
        && quickWindow.transientParent == candidate && quickWindow.cleanupParent == candidate
        && quickWindow.objectName == (if candidate.Some? then ParentedWindowName else UnparentedWindowName)
      ensures visible && !beingDeleted && deletionsScheduled == 0
    {
      this.objectParent, this.titleBarHeight, this.contentMinimum := objectParent, titleBarHeight, contentMinimum;
      visible, beingDeleted, deletionsScheduled := true, false, 0;
      quickWindow := new QuickView();
      new;
      var minSize := MinimumSize();
      quickWindow.geometry := quickWindow.geometry.WithSize(minSize);
      quickWindow.contentItemSize := minSize;
      var transientParent := CandidateParentWindow(objectParent);
      if transientParent.Some? {
        quickWindow.transientParent := transientParent;
        quickWindow.cleanupParent := transientParent;
        quickWindow.objectName := ParentedWindowName;
      } else {
        quickWindow.objectName := UnparentedWindowName;
      }
    }

    /** Applies `geo` to the window, grown to the minimum size where it is smaller, and sizes
        the root item to match. The position is kept. */
    method SetGeometry(geo: Rect)
      modifies quickWindow
      ensures quickWindow.geometry == ClampedGeometry(geo, MinimumSize())
      ensures Valid()
      ensures quickWindow.transientParent == old(quickWindow.transientParent)
      ensures quickWindow.cleanupParent == old(quickWindow.cleanupParent)
      ensures quickWindow.objectName == old(quickWindow.objectName)
    {
      var clamped := geo.WithSize(geo.Dimensions().ExpandedTo(MinimumSize()));
      quickWindow.contentItemSize := clamped.Dimensions();
      quickWindow.geometry := clamped;
    }

    /** Requests deferred deletion. Whether this also marks the window as being deleted is not
        part of this model, so the flag is left unconstrained afterwards. */
    method ScheduleDeleteLater()
      modifies this
      ensures deletionsScheduled == old(deletionsScheduled) + 1
      ensures visible == old(visible)
    {
      deletionsScheduled := deletionsScheduled + 1;
    }

    /** The visibility handler installed by init: a window that is hidden and not already
        being deleted schedules its own deletion. */
    method OnVisibleChanged()
      modifies this
      ensures deletionsScheduled == old(deletionsScheduled) + (if !old(visible) && !old(beingDeleted) then 1 else 0)
      ensures visible == old(visible)
      ensures old(visible) || old(beingDeleted) ==> unchanged(this)
    {
      if !visible && !beingDeleted {
        ScheduleDeleteLater();
      }
    }

    /** A visibility change, which notifies the handler when the visibility actually changes. */
    method SetVisible(b: bool)
      modifies this
      ensures visible == b
      ensures Valid() == old(Valid())
      ensures deletionsScheduled == old(deletionsScheduled) + (if b != old(visible) && !b && !old(beingDeleted) then 1 else 0)
      ensures b || old(beingDeleted) ==> beingDeleted == old(beingDeleted)
    {
      if b != visible {
        visible := b;
        OnVisibleChanged();
      }
    }
  }
}
