/**
 * The capture session. Construction sets the explicit rectangle, lets a found
 * window overwrite it (with or without the window's border), lets a monitor
 * overwrite it again, and drops the window handle in d3d mode. `Read` turns
 * the bytes of the captured bitmap into a colour or gray frame of the
 * session's size.
 */
module Capture {
  import opened Results
  import opened Geometry
  import opened Frames

  class ScreenCapture {
    var name: string
    var top: int
    var left: int
    var width: int
    var height: int
    /** The window whose drawing context is used; None means the whole desktop. */
    var hwnd: Option<Handle>
    /** Set only once a window has been found. */
    var borderWidth: Option<int>
    var borderHeight: Option<int>

    /** The capture rectangle the fields describe. */
    function Rect(): Region
      reads this
    {
      Region(left, top, width, height)
    }

    /** The rectangle together with the kept handle. */
    function Resolved(): Session
      reads this
    {
      Session(Rect(), hwnd)
    }

    /** The explicit rectangle, no window handle and no border sizes yet. */
    constructor (name: string, top: int, left: int, width: int, height: int)
      ensures this.name == name
      ensures Rect() == Region(left, top, width, height)
      ensures hwnd == None && borderWidth == None && borderHeight == None
    {
      this.hwnd := None;
      this.name, this.top, this.left, this.width, this.height := name, top, left, width, height;
      this.borderWidth, this.borderHeight := None, None;
    }

    /**
     * The window step: `found` is what the OS reports for `title`. A missing
     * window is an error and leaves the rectangle as it was; a found one
     * overwrites it as `WindowRegion` says, measured from the current origin.
     */
    method AttachWindow(title: string, found: Option<Window>, border: bool, d3d: bool)
      returns (err: Option<Error>)
      modifies this
      ensures name == old(name)
      ensures found.None? ==> err == Some(WindowNotFound(title)) && Rect() == old(Rect()) && hwnd == None
      ensures found.None? ==> borderWidth == old(borderWidth) && borderHeight == old(borderHeight)
      ensures found.Some? ==> err == None && hwnd == Some(found.value.handle)
      ensures found.Some? ==> Rect() == WindowRegion(found.value, border, d3d, old(left), old(top))
      ensures found.Some? ==> borderWidth == Some(found.value.BorderWidth())
      ensures found.Some? ==> borderHeight == Some(found.value.BorderHeight())
    {
      if found.None? {
        hwnd := None;
        return Some(WindowNotFound(title));
      }
      var w := found.value;
      hwnd := Some(w.handle);
      var windowRect := w.outer;
      var bw := (windowRect.right - windowRect.left) - w.clientWidth;
      var bh := (windowRect.bottom - windowRect.top) - w.clientHeight;
      borderWidth, borderHeight := Some(bw), Some(bh);
      width := windowRect.right - windowRect.left;
      height := windowRect.bottom - windowRect.top;
      if border {
        if d3d {
          left := windowRect.left;
          top := windowRect.top;
        } else {
          left := -(bw / 2);
          top := -(bh - bw / 2);
        }
      } else {
        if d3d {
          left := windowRect.left + bw / 2;
          top := windowRect.top + (bh - bw / 2);
        }
        width := width - bw;
        height := height - bh;
      }
      err := None;
    }

    /**
     * The monitor step: an index valid for Python list indexing selects that
     * monitor's bounds; any other index is an error and leaves the rectangle.
     */
    method SelectMonitor(index: int, monitors: seq<Bounds>) returns (err: Option<Error>)
      modifies this
      ensures name == old(name) && hwnd == old(hwnd)
      ensures borderWidth == old(borderWidth) && borderHeight == old(borderHeight)
      ensures err.None? <==> -|monitors| <= index < |monitors|
      ensures err.Some? ==> err == Some(DisplayNotFound(index)) && Rect() == old(Rect())
      ensures err.None? ==> Rect() == MonitorRegion(PyIndex(monitors, index).value)
    {
      var entry := PyIndex(monitors, index);
      if entry.None? {
        return Some(DisplayNotFound(index));
      }
      var m := entry.value;
      top := m.top;
      left := m.left;
      width := m.right - m.left;
      height := m.bottom - m.top;
      err := None;
    }

    /**
     * The whole construction: it fails exactly when `Resolve` does, with the
     * same error, and otherwise yields a new session holding the resolved
     * rectangle and handle.
     */
    static method Open(t: Target, found: Option<Window>, monitors: seq<Bounds>)
      returns (r: Result<ScreenCapture, Error>)
      ensures r.Err? <==> Resolve(t, found, monitors).Err?
      ensures r.Err? ==> r.error == Resolve(t, found, monitors).error
      ensures r.Ok? ==> fresh(r.value) && r.value.name == t.name
      ensures r.Ok? ==> r.value.Resolved() == Resolve(t, found, monitors).value
      ensures r.Ok? ==> r.value.borderWidth == (if t.window.Some? then Some(found.value.BorderWidth()) else None)
      ensures r.Ok? ==> r.value.borderHeight == (if t.window.Some? then Some(found.value.BorderHeight()) else None)
    {
      var c := new ScreenCapture(t.name, t.top, t.left, t.width, t.height);
      if t.window.Some? {
        var err := c.AttachWindow(t.window.value, found, t.border, t.d3d);
        if err.Some? {
          return Err(err.value);
        }
      }
      if t.monitor.Some? {
        var err := c.SelectMonitor(t.monitor.value, monitors);
        if err.Some? {
          return Err(err.value);
        }
      }
      if t.d3d {
        c.hwnd := None;
      }
      r := Ok(c);
    }

    /**
     * One frame from the bitmap bytes `bits` the OS copied for this session.
     * They are shaped (height, width, 4); that fails unless the sizes match.
     * OpenCV's colour conversion refuses an empty image, so a frame with no
     * pixels is an error too.
     * A colour frame has shape (height, width, 3) and keeps every pixel's first
     * three channels; a gray frame has shape (height, width) and holds `luma`
     * of each pixel's first three channels.
     */
    method Read(bits: seq<byte>, luma: (byte, byte, byte) -> byte, color: bool := true)
      returns (r: Result<NdArray, ReadError>)
      ensures r.Ok? <==> 0 < height && 0 < width && |bits| == height * width * 4
      ensures r.Err? && (height < 0 || width < 0 || |bits| != height * width * 4) ==>
                r.error.ShapeMismatch?
      ensures r == Err(EmptyImage) <==>
                0 <= height && 0 <= width && (height == 0 || width == 0) && bits == []
      ensures r.Ok? && color ==> IsImage(r.value) && r.value.shape == [height, width, 3]
      ensures r.Ok? && !color ==> IsPlane(r.value) && r.value.shape == [height, width]
      ensures r.Ok? && color ==>
                forall y, x, c :: 0 <= y < height && 0 <= x < width && 0 <= c < 3
                  ==> At(r.value, y, x, c) == At(NdArray([height, width, 4], bits), y, x, c)
      ensures r.Ok? && !color ==>
                var rgba := NdArray([height, width, 4], bits);
                forall y, x :: 0 <= y < height && 0 <= x < width
                  ==> At2(r.value, y, x) == luma(At(rgba, y, x, 0), At(rgba, y, x, 1), At(rgba, y, x, 2))
    {
      var image := FromBuffer(bits);
      SetShapeImage(image, height, width, 4);
      var shaped := SetShape(image, [height, width, 4]);
      if shaped.Err? {
        return Err(ShapeMismatch(shaped.error));
      }
      image := shaped.value;
      EmptyImageHasNoPixels(height, width);
      if |image.data| == 0 {
        return Err(EmptyImage);
      }
      if !color {
        ToGrayPerPixel(image, luma);
        image := ToGray(image, luma);
      } else {
        ToRgbKeepsChannels(image);
        image := ToRgb(image);
      }
      r := Ok(image);
    }
  }
}
