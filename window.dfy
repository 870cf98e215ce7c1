/**
 * Myra's `Window`: a container with a title bar that can be dragged across
 * its parent (or the desktop), is centred on its first layout, can be shown
 * modally and closed. The layout engine is not modelled: the bounds it
 * computes (`Bounds`, `ActualBounds`, `ContainerBounds`, the title grid's
 * bounds and the parent's bounds) are parameters of the handlers that read
 * them, and `Left`/`Top` are the layout offsets the handlers write.
 */
module Windows {
  import opened Wrappers
  import opened Geometry
  import opened Desktops

  /** The notifications a window raises; each raise appends one entry. */
  datatype WindowEvent = Closed

  /**
   * One axis of the drag clamp: first raise the candidate to 0, then pull it
   * back so that `p + extent` does not pass `far`. The upper clamp runs last,
   * so a window larger than the bounding area ends at `far - extent`, which
   * is negative.
   */
  function DragAxis(candidate: int, extent: int, far: int): (p: int)
    ensures extent <= far ==> 0 <= p && p + extent <= far
    ensures extent <= far ==> (p == candidate <==> 0 <= candidate && candidate + extent <= far)
    ensures extent <= far && candidate < 0 ==> p == 0
    ensures extent <= far < candidate + extent ==> p == far - extent
    ensures far < extent ==> p == far - extent
  {
    var raised := if candidate < 0 then 0 else candidate;
    if raised + extent > far then far - extent else raised
  }

  /** The area a drag is confined to: the parent's bounds, or else the desktop's. */
  function BoundingRect(parentBounds: Option<Rect>, desktopBounds: Rect): Rect {
    if parentBounds.Some? then parentBounds.value else desktopBounds
  }

  /**
   * The offset that centres `extent` in `container`, with C#'s truncating
   * `/ 2`: the margins on the two sides differ by at most one pixel, the
   * extra pixel going to the far side when the window fits and to the near
   * side when it does not.
   */
  function CenteredOffset(container: int, extent: int): (p: int)
    ensures extent <= container ==> 0 <= p && 0 <= (container - extent - p) - p <= 1
    ensures container < extent ==> p <= 0 && -1 <= (container - extent - p) - p <= 0
  {
    HalfTowardZero(container - extent)
  }

  /**
   * The rectangle a touch must hit to start a drag: from the window's origin
   * to the bottom-right corner of the title grid.
   */
  function HeaderRect(bounds: Rect, titleBounds: Rect): (r: Rect)
    ensures r.Location() == bounds.Location()
    ensures r.Right() == titleBounds.Right() && r.Bottom() == titleBounds.Bottom()
    ensures forall p :: r.Contains(p) <==>
      bounds.x <= p.x < titleBounds.Right() && bounds.y <= p.y < titleBounds.Bottom()
  {
    Rect(bounds.x, bounds.y, titleBounds.Right() - bounds.x, titleBounds.Bottom() - bounds.y)
  }

  /**
   * A 300×100 window anchored at (10, 10) and dragged to (60, 60) on an
   * 800×600 desktop lands at (50, 50).
   */
  lemma DragExample()
    ensures DragAxis(60 - 10, 300, 800) == 50 && DragAxis(60 - 10, 100, 600) == 50
  {
  }

  /** A 200×100 window is centred on an 800×600 desktop at (300, 250). */
  lemma CenterExample()
    ensures CenteredOffset(800, 200) == 300 && CenteredOffset(600, 100) == 250
  {
  }

  class Window {
    /** `_titleGrid`, the first child of the internal grid. */
    const titleGrid: Widget
    /** `InternalChild.Widgets`, the internal grid's child list. */
    var gridWidgets: seq<Widget>
    /** `_content`. */
    var content: Widget?
    /** `_startPos`, the drag anchor: pointer minus window origin at touch-down. */
    var startPos: Option<Point>
    var isWindowPlaced: bool
    var desktop: Desktop?
    var left: int
    var top: int
    /** The `Closed` notifications raised so far. */
    var events: seq<WindowEvent>

    /** The internal grid holds the title grid and, below it, the content if any. */
    ghost predicate Valid()
      reads this
    {
      && content != titleGrid
      && gridWidgets == [titleGrid] + (if content == null then [] else [content])
    }

    /** The window is subscribed to both broadcasts of `d`, when `d` is not null. */
    ghost predicate SubscribedTo(d: Desktop?)
      reads this, d
    {
      d != null ==> this in d.mouseMovedListeners && this in d.touchUpListeners
    }

    constructor ()
      ensures Valid() && fresh(titleGrid)
      ensures content == null && startPos == None && !isWindowPlaced
      ensures desktop == null && left == 0 && top == 0 && events == []
    {
      titleGrid := new Widget();
      new;
      gridWidgets := [titleGrid];
      content := null;
      startPos := None;
      isWindowPlaced := false;
      desktop := null;
      left, top := 0, 0;
      events := [];
    }

    /** The `Content` setter. */
    method SetContent(value: Widget?)
      modifies this`gridWidgets, this`content, value
      ensures content == value
      ensures value == old(content) ==> gridWidgets == old(gridWidgets)
      ensures value != old(content) ==>
        var kept := if old(content) == null then old(gridWidgets)
                    else RemoveFirst<Widget>(old(gridWidgets), old(content));
        gridWidgets == if value == null then kept else kept + [value]
      ensures value != null && value != old(content) ==> value.gridRow == 1
      ensures value != null && value == old(content) ==> value.gridRow == old(value.gridRow)
      ensures old(Valid()) && value != titleGrid ==> Valid()
    {
      if value == content {
        return;
      }
      ghost var wasValid := Valid();
      if content != null {
        if wasValid {
          RemoveFirstOfPair<Widget>(titleGrid, content);
        }
        gridWidgets := RemoveFirst<Widget>(gridWidgets, content);
      }
      assert wasValid ==> gridWidgets == [titleGrid];
      if value != null {
        value.gridRow := 1;
        gridWidgets := gridWidgets + [value];
      }
      content := value;
    }

    /**
     * The `Desktop` setter: unsubscribe both handlers from the old desktop,
     * then subscribe them to the new one, and forget the initial placement.
     */
    method SetDesktop(value: Desktop?)
      modifies this`desktop, this`isWindowPlaced, desktop, value
      ensures desktop == value && !isWindowPlaced
      ensures value != null ==>
        && value.mouseMovedListeners == old(value.mouseMovedListeners) + {this}
        && value.touchUpListeners == old(value.touchUpListeners) + {this}
      ensures old(desktop) != null && old(desktop) != value ==>
        && old(desktop).mouseMovedListeners == old(desktop.mouseMovedListeners) - {this}
        && old(desktop).touchUpListeners == old(desktop.touchUpListeners) - {this}
      ensures old(desktop) != null ==> old(desktop).OnlyListenersChanged()
      ensures value != null ==> value.OnlyListenersChanged()
      ensures SubscribedTo(value)
      ensures old(forall d: Desktop :: this in d.mouseMovedListeners || this in d.touchUpListeners ==> d == desktop)
        ==> forall d: Desktop :: this in d.mouseMovedListeners || this in d.touchUpListeners ==> d == value
    {
      if desktop != null {
        desktop.mouseMovedListeners := desktop.mouseMovedListeners - {this};
        desktop.touchUpListeners := desktop.touchUpListeners - {this};
      }
      desktop := value;
      if desktop != null {
        desktop.mouseMovedListeners := desktop.mouseMovedListeners + {this};
        desktop.touchUpListeners := desktop.touchUpListeners + {this};
      }
      isWindowPlaced := false;
    }

    /** `UpdateLayout`: centre once after each attachment, then leave the window where it is. */
    method UpdateLayout(containerBounds: Rect, bounds: Rect)
      modifies this`left, this`top, this`isWindowPlaced
      ensures isWindowPlaced
      ensures old(isWindowPlaced) || desktop == null ==> left == old(left) && top == old(top)
      ensures !old(isWindowPlaced) && desktop != null ==>
        && left == CenteredOffset(containerBounds.width, bounds.width)
        && top == CenteredOffset(containerBounds.height, bounds.height)
    {
      if !isWindowPlaced {
        CenterOnDesktop(containerBounds, bounds);
        isWindowPlaced := true;
      }
    }

    /** `CenterOnDesktop`: a no-op while detached. */
    method CenterOnDesktop(containerBounds: Rect, bounds: Rect)
      modifies this`left, this`top
      ensures desktop == null ==> left == old(left) && top == old(top)
      ensures desktop != null ==>
        && left == CenteredOffset(containerBounds.width, bounds.width)
        && top == CenteredOffset(containerBounds.height, bounds.height)
    {
      if desktop == null {
        return;
      }
      left := HalfTowardZero(containerBounds.width - bounds.width);
      top := HalfTowardZero(containerBounds.height - bounds.height);
    }

    /**
     * `DesktopOnMouseMoved`: while a drag anchor is set, move the window to
     * pointer minus anchor, clamped on each axis to the bounding area. The
     * handler only runs when the desktop it is subscribed to broadcasts, so
     * `desktop` is set.
     */
    method DesktopOnMouseMoved(bounds: Rect, parentBounds: Option<Rect>)
      requires desktop != null
      modifies this`left, this`top
      ensures startPos == None ==> left == old(left) && top == old(top)
      ensures startPos.Some? ==>
        var area := BoundingRect(parentBounds, desktop.bounds);
        && left == DragAxis(desktop.mousePosition.x - startPos.value.x, bounds.width, area.Right())
        && top == DragAxis(desktop.mousePosition.y - startPos.value.y, bounds.height, area.Bottom())
    {
      if startPos == None {
        return;
      }
      var x := desktop.mousePosition.x - startPos.value.x;
      var y := desktop.mousePosition.y - startPos.value.y;
      if x < 0 {
        x := 0;
      }
      if parentBounds.Some? {
        if x + bounds.width > parentBounds.value.Right() {
          x := parentBounds.value.Right() - bounds.width;
        }
      } else {
        if x + bounds.width > desktop.bounds.Right() {
          x := desktop.bounds.Right() - bounds.width;
        }
      }
      if y < 0 {
        y := 0;
      }
      if parentBounds.Some? {
        if y + bounds.height > parentBounds.value.Bottom() {
          y := parentBounds.value.Bottom() - bounds.height;
        }
      } else {
        if y + bounds.height > desktop.bounds.Bottom() {
          y := desktop.bounds.Bottom() - bounds.height;
        }
      }
      left := x;
      top := y;
    }

    /** `DesktopTouchUp`: any release on the desktop ends the drag. */
    method DesktopTouchUp()
      modifies this`startPos
      ensures startPos == None
    {
      startPos := None;
    }

    /** `OnTouchUp`: a release on the window itself ends the drag too. */
    method OnTouchUp()
      modifies this`startPos
      ensures startPos == None
    {
      startPos := None;
    }

    /**
     * `OnTouchDown`: a touch inside the header rectangle anchors a drag at
     * the pointer's offset from the window's actual origin; a touch
     * elsewhere leaves the anchor as it was.
     */
    method OnTouchDown(bounds: Rect, titleBounds: Rect, actualBounds: Rect)
      requires desktop != null
      modifies this`startPos
      ensures var m := desktop.mousePosition;
        startPos == if HeaderRect(bounds, titleBounds).Contains(m)
                    then Some(Point(m.x - actualBounds.x, m.y - actualBounds.y))
                    else old(startPos)
    {
      var header := Rect(bounds.x, bounds.y, titleBounds.Right() - bounds.x, titleBounds.Bottom() - bounds.y);
      var mouse := desktop.mousePosition;
      if header.Contains(mouse) {
        startPos := Some(Point(mouse.x - actualBounds.Location().x, mouse.y - actualBounds.Location().y));
      }
    }

    /**
     * `ShowModal`: append the window to the desktop's widgets and give it
     * the focus. Adding a widget to `Desktop.Widgets` attaches it to that
     * desktop, which runs the `Desktop` setter.
     */
    method ShowModal(d: Desktop)
      modifies this`desktop, this`isWindowPlaced, desktop, d
      ensures d.widgets == old(d.widgets) + [this]
      ensures d.focusedWidget == this
      ensures desktop == d && !isWindowPlaced && SubscribedTo(d)
      ensures d.mouseMovedListeners == old(d.mouseMovedListeners) + {this}
      ensures d.touchUpListeners == old(d.touchUpListeners) + {this}
      ensures d.mousePosition == old(d.mousePosition) && d.bounds == old(d.bounds)
      ensures old(desktop) != null && old(desktop) != d ==>
        && old(desktop).mouseMovedListeners == old(desktop.mouseMovedListeners) - {this}
        && old(desktop).touchUpListeners == old(desktop.touchUpListeners) - {this}
        && old(desktop).OnlyListenersChanged()
    {
      d.widgets := d.widgets + [this];
      SetDesktop(d);
      d.focusedWidget := this;
    }

    /**
     * `Close`: when the window is on its desktop, drop the focus if it held
     * it, remove it from the desktop's widgets (which detaches it from that
     * desktop) and raise `Closed`. Otherwise nothing happens.
     */
    method Close()
      modifies this`desktop, this`isWindowPlaced, this`events, desktop
      ensures var d := old(desktop);
        d == null || this !in old(d.widgets) ==>
          && desktop == old(desktop) && isWindowPlaced == old(isWindowPlaced)
          && events == old(events)
          && (d != null ==> unchanged(d))
      ensures var d := old(desktop);
        d != null && this in old(d.widgets) ==>
          && d.widgets == RemoveFirst(old(d.widgets), this)
          && d.focusedWidget == (if old(d.focusedWidget) == this then null else old(d.focusedWidget))
          && multiset(d.widgets) == multiset(old(d.widgets)) - multiset{this}
          && events == old(events) + [Closed]
          && desktop == null && !isWindowPlaced
          && d.mouseMovedListeners == old(d.mouseMovedListeners) - {this}
          && d.touchUpListeners == old(d.touchUpListeners) - {this}
          && d.mousePosition == old(d.mousePosition) && d.bounds == old(d.bounds)
      ensures desktop == null || this !in desktop.widgets
    {
      if desktop != null && this in desktop.widgets {
        var d := desktop;
        if d.focusedWidget == this {
          d.focusedWidget := null;
        }
        RemoveFirstMultiset(d.widgets, this);
        d.widgets := RemoveFirst(d.widgets, this);
        SetDesktop(null);
        events := events + [Closed];
      }
    }
  }
}
