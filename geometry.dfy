/**
 * Resolution of the capture rectangle, as a value-level reference definition.
 *
 * A capture session is given an explicit rectangle, optionally the title of a
 * window and optionally a monitor index. The window step runs first; the
 * monitor step runs after it and overwrites the rectangle. What the operating
 * system reports (the window found for a title, its outer and client
 * rectangles, the list of monitors) is passed in as parameters.
 */
module Geometry {
  import opened Results

  /** A window handle as returned by the OS; 0 would mean "no window". */
  type Handle = h: int | h != 0 witness 1

  /** A rectangle as the OS reports it: left, top, right and bottom edges. */
  datatype Bounds = Bounds(left: int, top: int, right: int, bottom: int)
  {
    function Width(): int { right - left }
    function Height(): int { bottom - top }
  }

  /** A capture rectangle: its origin and its size. */
  datatype Region = Region(left: int, top: int, width: int, height: int)

  /** What the OS reports about the window found for a title. */
  datatype Window = Window(handle: Handle, outer: Bounds, clientWidth: int, clientHeight: int)
  {
    /** Horizontal size of the decoration: outer width minus client width. */
    function BorderWidth(): (bw: int)
      ensures clientWidth + bw == outer.right - outer.left
    {
      outer.Width() - clientWidth
    }

    /** Vertical size of the decoration: outer height minus client height. */
    function BorderHeight(): (bh: int)
      ensures clientHeight + bh == outer.bottom - outer.top
    {
      outer.Height() - clientHeight
    }
  }

  /**
   * The constructor's arguments: an explicit rectangle, an optional window
   * title, an optional monitor index, whether the window border is captured
   * and whether desktop ("d3d") coordinates are used. The defaults are the
   * constructor's own: a 640 x 480 rectangle at the origin, no window, no
   * monitor, the border captured, window-DC coordinates.
   */
  datatype Target = Target(name: string := "Window", top: int := 0, left: int := 0,
                           width: int := 640, height: int := 480,
                           window: Option<string> := None, monitor: Option<int> := None,
                           border: bool := true, d3d: bool := false)

  /** The two ways construction fails. */
  datatype Error = WindowNotFound(title: string) | DisplayNotFound(index: int)

  /** The resolved session: the capture rectangle and the window handle kept for drawing. */
  datatype Session = Session(region: Region, hwnd: Option<Handle>)

  /** Python list indexing: indices -|s| .. |s|-1, negative ones counting from the end. */
  function PyIndex<T>(s: seq<T>, i: int): (r: Option<T>)
    ensures r.Some? <==> -|s| <= i < |s|
    ensures r.Some? ==> r.value in s
    ensures 0 <= i < |s| ==> r == Some(s[i])
    ensures -|s| <= i < 0 ==> r == Some(s[|s| + i])
  {
    if 0 <= i < |s| then Some(s[i])
    else if -|s| <= i < 0 then Some(s[|s| + i])
    else None
  }

  /**
   * The rectangle taken from a found window. With the border, the size is the
   * outer size; without it, the client size. The origin is the outer corner
   * (d3d), the outer corner moved past the border (d3d, no border), a
   * negative offset of the border in window-DC coordinates (no d3d, border),
   * or the origin given to the constructor (no d3d, no border).
   */
  function WindowRegion(w: Window, border: bool, d3d: bool, left: int, top: int): (r: Region)
    ensures border ==> r.width == w.outer.right - w.outer.left && r.height == w.outer.bottom - w.outer.top
    ensures !border ==> r.width == w.outer.right - w.outer.left - w.BorderWidth()
    ensures !border ==> r.height == w.outer.bottom - w.outer.top - w.BorderHeight()
    ensures d3d && border ==> r.left == w.outer.left && r.top == w.outer.top
    ensures !d3d && border ==> r.left == -(w.BorderWidth() / 2) && r.top == -(w.BorderHeight() - w.BorderWidth() / 2)
    ensures d3d && !border ==> r.left == w.outer.left + w.BorderWidth() / 2
    ensures d3d && !border ==> r.top == w.outer.top + (w.BorderHeight() - w.BorderWidth() / 2)
    ensures !d3d && !border ==> r.left == left && r.top == top
  {
    var bw, bh := w.BorderWidth(), w.BorderHeight();
    if border then
      if d3d then Region(w.outer.left, w.outer.top, w.outer.Width(), w.outer.Height())
      else Region(-(bw / 2), -(bh - bw / 2), w.outer.Width(), w.outer.Height())
    else
      if d3d then Region(w.outer.left + bw / 2, w.outer.top + (bh - bw / 2), w.clientWidth, w.clientHeight)
      else Region(left, top, w.clientWidth, w.clientHeight)
  }

  /** The rectangle of a monitor: its origin and the differences of its edges. */
  function MonitorRegion(m: Bounds): (r: Region)
    ensures r.left == m.left && r.top == m.top
    ensures r.left + r.width == m.right && r.top + r.height == m.bottom
  {
    Region(m.left, m.top, m.Width(), m.Height())
  }

  /** The handle kept: the found window's, unless d3d coordinates are used. */
  function KeptHandle(t: Target, found: Option<Window>): (h: Option<Handle>)
    ensures h.Some? <==> t.window.Some? && found.Some? && !t.d3d
    ensures h.Some? ==> h.value == found.value.handle
  {
    if t.window.Some? && found.Some? && !t.d3d then Some(found.value.handle) else None
  }

  /** True when the target names a window the OS did not find. */
  predicate WindowMissing(t: Target, found: Option<Window>)
    ensures WindowMissing(t, found) ==> t.window.Some? && KeptHandle(t, found) == None
  {
    t.window.Some? && found.None?
  }

  /** True when the target names a monitor index outside the monitor list. */
  predicate MonitorMissing(t: Target, monitors: seq<Bounds>)
    ensures MonitorMissing(t, monitors) <==> t.monitor.Some? && PyIndex(monitors, t.monitor.value).None?
  {
    t.monitor.Some? && !(-|monitors| <= t.monitor.value < |monitors|)
  }

  /**
   * The session a target resolves to, given what the OS reports: `found` is
   * the window the OS finds for `t.window` (consulted only when a title is
   * given), `monitors` the bounds of the active displays.
   */
  function Resolve(t: Target, found: Option<Window>, monitors: seq<Bounds>): (r: Result<Session, Error>)
    ensures r.Err? <==> WindowMissing(t, found) || MonitorMissing(t, monitors)
    ensures WindowMissing(t, found) ==> r == Err(WindowNotFound(t.window.value))
    ensures !WindowMissing(t, found) && MonitorMissing(t, monitors) ==> r == Err(DisplayNotFound(t.monitor.value))
    ensures r.Ok? && t.window.Some? && !t.d3d ==> r.value.hwnd == Some(found.value.handle)
    ensures r.Ok? && (t.window.None? || t.d3d) ==> r.value.hwnd == None
  {
    if WindowMissing(t, found) then Err(WindowNotFound(t.window.value))
    else
      var afterWindow :=
        if t.window.Some? then WindowRegion(found.value, t.border, t.d3d, t.left, t.top)
        else Region(t.left, t.top, t.width, t.height);
      if t.monitor.Some? then
        match PyIndex(monitors, t.monitor.value)
        case None => Err(DisplayNotFound(t.monitor.value))
        case Some(m) => Ok(Session(MonitorRegion(m), KeptHandle(t, found)))
      else
        Ok(Session(afterWindow, KeptHandle(t, found)))
  }

  /** Neither a window nor a monitor: the explicit rectangle is kept as given, with no handle. */
  lemma ExplicitRegionKept(t: Target, found: Option<Window>, monitors: seq<Bounds>)
    requires t.window.None? && t.monitor.None?
    ensures Resolve(t, found, monitors) == Ok(Session(Region(t.left, t.top, t.width, t.height), None))
  {
  }

  /** The constructor called with no arguments captures 640 x 480 pixels at the origin. */
  lemma DefaultTargetIsExplicit(found: Option<Window>, monitors: seq<Bounds>)
    ensures Resolve(Target(), found, monitors) == Ok(Session(Region(0, 0, 640, 480), None))
  {
  }

  /** A title the OS does not find fails with window-not-found, whatever else is asked. */
  lemma MissingWindowFails(t: Target, monitors: seq<Bounds>)
    requires t.window.Some?
    ensures Resolve(t, None, monitors) == Err(WindowNotFound(t.window.value))
  {
  }

  /** Without the border, the captured size is the client size: outer size minus border. */
  lemma BorderlessSizeIsClient(t: Target, w: Window, monitors: seq<Bounds>)
    requires t.window.Some? && t.monitor.None? && !t.border
    ensures Resolve(t, Some(w), monitors).Ok?
    ensures Resolve(t, Some(w), monitors).value.region.width == w.clientWidth == w.outer.Width() - w.BorderWidth()
    ensures Resolve(t, Some(w), monitors).value.region.height == w.clientHeight == w.outer.Height() - w.BorderHeight()
  {
  }

  /** With the border, the captured size is the window's outer size. */
  lemma BorderedSizeIsOuter(t: Target, w: Window, monitors: seq<Bounds>)
    requires t.window.Some? && t.monitor.None? && t.border
    ensures Resolve(t, Some(w), monitors).Ok?
    ensures Resolve(t, Some(w), monitors).value.region.width == w.outer.right - w.outer.left
    ensures Resolve(t, Some(w), monitors).value.region.height == w.outer.bottom - w.outer.top
  {
  }

  /** Including the border grows width and height by exactly the border sizes. */
  lemma BorderToggleChangesSizeByBorder(t: Target, w: Window, monitors: seq<Bounds>)
    requires t.window.Some? && t.monitor.None?
    ensures Resolve(t.(border := true), Some(w), monitors).Ok?
    ensures Resolve(t.(border := false), Some(w), monitors).Ok?
    ensures Resolve(t.(border := true), Some(w), monitors).value.region.width
         == Resolve(t.(border := false), Some(w), monitors).value.region.width + w.BorderWidth()
    ensures Resolve(t.(border := true), Some(w), monitors).value.region.height
         == Resolve(t.(border := false), Some(w), monitors).value.region.height + w.BorderHeight()
  {
  }

  /** With the border, the origin is the outer corner (d3d) or minus the border offsets (window DC). */
  lemma BorderedOrigin(t: Target, w: Window, monitors: seq<Bounds>)
    requires t.window.Some? && t.monitor.None? && t.border
    ensures Resolve(t, Some(w), monitors).Ok?
    ensures t.d3d ==> Resolve(t, Some(w), monitors).value.region.left == w.outer.left
    ensures t.d3d ==> Resolve(t, Some(w), monitors).value.region.top == w.outer.top
    ensures !t.d3d ==> Resolve(t, Some(w), monitors).value.region.left == -(w.BorderWidth() / 2)
    ensures !t.d3d ==> Resolve(t, Some(w), monitors).value.region.top == -(w.BorderHeight() - w.BorderWidth() / 2)
  {
  }

  /** Without the border, the origin is the outer corner moved past the border (d3d) or the given origin. */
  lemma BorderlessOrigin(t: Target, w: Window, monitors: seq<Bounds>)
    requires t.window.Some? && t.monitor.None? && !t.border
    ensures Resolve(t, Some(w), monitors).Ok?
    ensures t.d3d ==> Resolve(t, Some(w), monitors).value.region.left == w.outer.left + w.BorderWidth() / 2
    ensures t.d3d ==> Resolve(t, Some(w), monitors).value.region.top == w.outer.top + (w.BorderHeight() - w.BorderWidth() / 2)
    ensures !t.d3d ==> Resolve(t, Some(w), monitors).value.region.left == t.left
    ensures !t.d3d ==> Resolve(t, Some(w), monitors).value.region.top == t.top
  {
  }

  /**
   * A monitor index in range selects that monitor's bounds, overriding what
   * the window step computed; negative indices count from the end.
   */
  lemma MonitorOverrides(t: Target, found: Option<Window>, monitors: seq<Bounds>)
    requires !WindowMissing(t, found)
    requires t.monitor.Some? && -|monitors| <= t.monitor.value < |monitors|
    ensures Resolve(t, found, monitors).Ok?
    ensures var k := if t.monitor.value < 0 then |monitors| + t.monitor.value else t.monitor.value;
            Resolve(t, found, monitors).value.region
              == Region(monitors[k].left, monitors[k].top,
                        monitors[k].right - monitors[k].left, monitors[k].bottom - monitors[k].top)
  {
  }

  /** The region selected through a monitor does not depend on the window or the border options. */
  lemma MonitorIgnoresWindow(t: Target, found: Option<Window>, monitors: seq<Bounds>)
    requires !WindowMissing(t, found)
    requires t.monitor.Some? && -|monitors| <= t.monitor.value < |monitors|
    ensures Resolve(t, found, monitors).Ok?
    ensures Resolve(t.(window := None, border := true), None, monitors).Ok?
    ensures Resolve(t, found, monitors).value.region
         == Resolve(t.(window := None, border := true), None, monitors).value.region
  {
  }

  /** A monitor index outside -n .. n-1 fails with display-not-found, when the window step succeeded. */
  lemma MonitorOutOfRangeFails(t: Target, found: Option<Window>, monitors: seq<Bounds>)
    requires !WindowMissing(t, found)
    requires t.monitor.Some? && (t.monitor.value < -|monitors| || |monitors| <= t.monitor.value)
    ensures Resolve(t, found, monitors) == Err(DisplayNotFound(t.monitor.value))
  {
  }
}
