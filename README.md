# Screen capture: capture-rectangle resolution and frame shapes

A verified Dafny model of the core of a small screen-capture utility. A
`ScreenCapture` session is built from a target: an explicit rectangle
(`top`, `left`, `width`, `height`), optionally a window title, optionally a
monitor index, a `border` flag (capture the window's decoration or only its
client area) and a `d3d` flag (desktop coordinates instead of the window's
own drawing context). Construction resolves the target once into a fixed
`(left, top, width, height)` rectangle and decides whether a window handle
is kept. Each `read` turns the captured bitmap's bytes into a frame of shape
`(height, width, 3)` for colour, or `(height, width)` for gray.

Files:

- `results.dfy`: module `Results`, the `Option` and `Result` types.
- `geometry.dfy`: module `Geometry`. It holds the rectangle and window
  records and `Resolve`, a value-level reference definition of what
  construction computes. Lemmas beside it state each case of the rectangle
  arithmetic.
- `frames.dfy`: module `Frames`. It models a numpy-style array (shape plus
  row-major bytes), shape assignment, and the two OpenCV conversions at the
  level of pixel layout: RGBA to RGB drops the fourth byte of every pixel,
  RGBA to gray maps every pixel to one byte.
- `screen_capture.dfy`: module `Capture`, class `ScreenCapture`. Its fields
  are the ones the constructor assigns in place. `AttachWindow` (the window
  step) and `SelectMonitor` (the monitor step) overwrite them. `Open` is the
  whole constructor and is proved to agree with `Geometry.Resolve`. `Read`
  is the per-frame conversion.

What the operating system reports is passed in as parameters:

- the window found for a title: `Option<Window>`, with its handle, outer
  rectangle and client size;
- the monitors' bounds: `seq<Bounds>`;
- the bitmap bytes copied for a frame: `seq<byte>`.

Python's `//` by 2 is modelled by Dafny's `/ 2`: for a positive divisor,
floor division and Euclidean division agree, also on negative border sizes.
Python list indexing is modelled by `Geometry.PyIndex`, so negative monitor
indices from `-n` to `-1` select monitors counted from the end.

Three facts of the source shape the model:

- With the border and without `d3d`, the origin is `(-(bw // 2), -(bh - bw // 2))`,
  where `bw` and `bh` are the border sizes (screen_capture.py:33-34).
- A gray frame is a two-dimensional `(height, width)` array (screen_capture.py:87).
- A missing window is reported before the monitor is looked at, and a valid
  monitor replaces the rectangle the window step computed
  (screen_capture.py:13-18, 45-53).

The defaults of the constructor's arguments (screen_capture.py:8) are the
defaults of `Geometry.Target`: name `"Window"`, a 640 x 480 rectangle at
(0, 0), no window, no monitor, border on, `d3d` off.

## Model

| member | source | states |
|---|---|---|
| Geometry.PyIndex | screen_capture.py:49 | an index succeeds exactly when it lies in -n .. n-1; indices from 0 select that element, negative ones select element n + i |
| Geometry.Resolve | screen_capture.py:8-58 | construction fails exactly when the named window is missing or the monitor index is out of range; a missing window wins, with window-not-found for that title; otherwise the error is display-not-found for that index; on success the handle is the found window's when a window was asked for and d3d is off, and none otherwise |
| Geometry.Window.BorderWidth | screen_capture.py:22 | the border width is what separates the client width from the outer width |
| Geometry.Window.BorderHeight | screen_capture.py:23 | the border height is what separates the client height from the outer height |
| Geometry.WindowRegion | screen_capture.py:20-43 | the window step: with the border, the outer size; without it, outer size minus border; the origin is the outer corner (d3d, border), minus the border offsets (border, no d3d), the outer corner moved past the border (d3d, no border), or the given origin (neither) |
| Geometry.MonitorRegion | screen_capture.py:49-53 | the monitor rectangle starts at the monitor's left/top and ends at its right/bottom |
| Geometry.KeptHandle | screen_capture.py:15-58 | a handle is kept exactly when a window was asked for and found and d3d is off, and it is the found window's |
| Geometry.WindowMissing | screen_capture.py:13-17 | a window was asked for and the OS found none; then no window handle is held |
| Geometry.MonitorMissing | screen_capture.py:45-55 | a monitor was asked for and Python indexing of the monitor list fails for its index |
| Geometry.DefaultTargetIsExplicit | screen_capture.py:8-13 | the constructor with all defaults captures a 640 x 480 rectangle at (0, 0) and keeps no handle |
| Geometry.ExplicitRegionKept | screen_capture.py:11-45 | with neither a window nor a monitor, the rectangle is exactly the given left/top/width/height and no handle is kept |
| Geometry.MissingWindowFails | screen_capture.py:13-18 | a title the OS does not find fails with window-not-found for that title, whatever monitor is asked for |
| Geometry.BorderlessSizeIsClient | screen_capture.py:20-43 | without the border, width and height are the client size, which is the outer size minus the border size |
| Geometry.BorderedSizeIsOuter | screen_capture.py:20-27 | with the border, width and height are right - left and bottom - top of the outer window rectangle |
| Geometry.BorderToggleChangesSizeByBorder | screen_capture.py:22-43 | turning the border on grows width by exactly the border width and height by exactly the border height |
| Geometry.BorderedOrigin | screen_capture.py:27-34 | with the border, the origin is the outer top-left corner under d3d, and (-(bw // 2), -(bh - bw // 2)) otherwise |
| Geometry.BorderlessOrigin | screen_capture.py:36-41 | without the border, the origin is the outer corner moved by (bw // 2, bh - bw // 2) under d3d, and the given left/top otherwise |
| Geometry.MonitorOverrides | screen_capture.py:45-53 | a monitor index in -n .. n-1 gives that monitor's left, top, right - left and bottom - top, even when a window was found |
| Geometry.MonitorIgnoresWindow | screen_capture.py:13-53 | a rectangle selected by monitor is the same as without any window and with any border setting |
| Geometry.MonitorOutOfRangeFails | screen_capture.py:47-55 | a monitor index outside -n .. n-1 fails with display-not-found for that index |
| Frames.FromBuffer | screen_capture.py:83 | the buffer becomes a one-dimensional array holding exactly its bytes |
| Frames.SetShape | screen_capture.py:84 | assigning a shape succeeds exactly when all dimensions are non-negative and multiply to the element count, and keeps the elements |
| Frames.SetShapeImage | screen_capture.py:83-84 | shaping the flat bytes as (h, w, 4) succeeds exactly when h, w >= 0 and there are h * w * 4 bytes, and yields a well-formed image |
| Frames.DropAlpha | screen_capture.py:89 | RGBA to RGB on packed pixels yields 3 bytes for every 4 |
| Frames.DropAlphaAt | screen_capture.py:89 | byte c < 3 of pixel i ends up at position 3i + c |
| Frames.GrayPixels | screen_capture.py:87 | RGBA to gray on packed pixels yields one byte per pixel |
| Frames.GrayPixelsAt | screen_capture.py:87 | gray byte i is the gray value of the colour channels of pixel i |
| Frames.ToRgb | screen_capture.py:88-89 | the colour frame has shape (h, w, 3) for an (h, w, 4) input |
| Frames.ToRgbKeepsChannels | screen_capture.py:88-89 | every pixel (y, x) keeps its first three channels unchanged |
| Frames.ToGray | screen_capture.py:86-87 | the gray frame has shape (h, w) for an (h, w, 4) input |
| Frames.ToGrayPerPixel | screen_capture.py:86-87 | gray pixel (y, x) is the gray value of the colour channels of pixel (y, x) |
| Capture.ScreenCapture.constructor | screen_capture.py:10-11 | the fields start as the explicit rectangle, with no handle and no border sizes |
| Capture.ScreenCapture.AttachWindow | screen_capture.py:13-43 | a missing window is window-not-found and leaves the rectangle; a found one sets the handle, the border sizes and the window-derived rectangle measured from the current origin; a missing one leaves the border sizes |
| Capture.ScreenCapture.SelectMonitor | screen_capture.py:45-55 | succeeds exactly for indices in -n .. n-1 and then sets the monitor's rectangle; otherwise display-not-found and the rectangle is unchanged; the handle and the border sizes are never touched |
| Capture.ScreenCapture.Open | screen_capture.py:8-58 | construction fails exactly when Resolve does, with the same error; on success it gives a fresh session whose rectangle and handle are Resolve's, and whose border sizes are the found window's when a window was asked for and unset otherwise |
| Capture.ScreenCapture.Read | screen_capture.py:78-91 | succeeds exactly when height, width > 0 and there are height * width * 4 bytes; a size mismatch is a shape error, and a frame with no pixels is an empty-image error; colour gives shape (height, width, 3) with each pixel's first three channels, gray gives (height, width) with the gray value of each pixel; height and width never change |

## Left out

- The Win32 calls `FindWindow`, `GetWindowRect`, `GetClientRect`, `EnumDisplayMonitors`, `GetDC`, `CreateDCFromHandle`, `CreateCompatibleDC`, `CreateBitmap`, `CreateCompatibleBitmap`, `SelectObject`, `BitBlt` and `GetBitmapBits` (screen_capture.py:15, 20-21, 48, 60-63, 80-82): they are operating-system calls; their results are parameters of the model (`found`, `monitors`, `bits`).
- Drawing-context and bitmap creation at the end of construction (screen_capture.py:60-63): OS resources with no statable logic beyond using the resolved width and height.
- Teardown in `__del__` (screen_capture.py:65-76): OS resource release and closing OpenCV windows.
- `list_monitors` (screen_capture.py:94-97): it only prints what the OS reports.
- `main` (screen_capture.py:100-119): a display loop with keyboard polling.
- Frames.GrayPixels: the weighting of OpenCV's gray conversion is not modelled; the gray value of a pixel is a parameter `luma` of its first three channels.
- Frames.SetShape: numpy's inference of a single `-1` dimension is not modelled; any negative dimension is an error.
- Capture.ScreenCapture.SelectMonitor: the index is an integer, so the non-integer indices that the source's bare `except` also turns into display-not-found are not modelled, nor is a failing `EnumDisplayMonitors`.
- Capture.ScreenCapture.Open: `border` and `d3d` are booleans, standing for the truthiness of the source's arguments; a `d3d` of None is `false`.
- Capture.ScreenCapture.Read: `color` is a boolean defaulting to `true`, as the source's argument does; it stands for that argument's truthiness.
- Capture.ScreenCapture.Read: an error while shaping or converting the bytes is returned as a value; in the source it is an exception from numpy or OpenCV that propagates to the caller. The empty-image error stands for OpenCV's refusal to convert an empty image, which is library behaviour outside the repository.
