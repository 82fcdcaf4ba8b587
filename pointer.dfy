/**
 * Pointer positioning of input_windows.go: moveD places the pointer inside a
 * monitor from the cache, moveW inside a window, both by scaling normalised
 * coordinates to the target rectangle.
 *
 * Coordinates are exact reals: the float64 rounding of `x*float64(width)` is
 * not modelled.
 */
module Pointer {
  import opened Optional
  import opened Win32
  import opened Monitors

  /** Go's float-to-integer conversion of an in-range value: truncation toward zero. */
  function Truncate(r: real): (n: int)
    ensures r >= 0.0 ==> n as real <= r < n as real + 1.0
    ensures r < 0.0 ==> n as real - 1.0 < r <= n as real
  {
    if r >= 0.0 then r.Floor else -((-r).Floor)
  }

  /** `int32(f*float64(extent))`. */
  function Offset(f: real, extent: int32): (r: int32)
    ensures var p := f * extent as real;
      0.0 <= p < 0x8000_0000 as real ==> r as int == Truncate(p)
    ensures f == 0.0 ==> r == 0
  {
    Wrap32(Truncate(f * extent as real))
  }

  /** `lo + int32(f*float64(hi-lo))`, with Go's int32 arithmetic. */
  function ScaleAxis(lo: int32, hi: int32, f: real): (r: int32)
    ensures f == 0.0 ==> r == lo
  {
    Wrap32(lo as int + Offset(f, Wrap32(hi as int - lo as int)) as int)
  }

  /** The pixel moveD and moveW aim at for normalised (x, y) in a rectangle. */
  function ScalePoint(r: Rect, x: real, y: real): (p: (int32, int32))
    ensures x == 0.0 ==> p.0 == r.left
    ensures y == 0.0 ==> p.1 == r.top
  {
    (ScaleAxis(r.left, r.right, x), ScaleAxis(r.top, r.bottom, y))
  }

  /** A fraction in [0, 1] of a non-negative extent lies between 0 and the extent. */
  lemma OffsetWithin(f: real, extent: int32)
    requires 0.0 <= f <= 1.0 && 0 <= extent
    ensures 0 <= Offset(f, extent) <= extent
    ensures f == 0.0 ==> Offset(f, extent) == 0
    ensures f == 1.0 ==> Offset(f, extent) == extent
  {
    var p := f * extent as real;
    FractionBounds(f, extent as real, p);
    TruncateWithin(p, extent as int);
    OffsetOf(f, extent, p);
  }

  /** Offset in terms of the product it truncates. */
  lemma OffsetOf(f: real, extent: int32, p: real)
    requires p == f * extent as real
    ensures Offset(f, extent) == Wrap32(Truncate(p))
  {
  }

  /** The product `p` of a fraction in [0, 1] and a non-negative `w` lies in [0, w]. */
  lemma FractionBounds(f: real, w: real, p: real)
    requires 0.0 <= f <= 1.0 && 0.0 <= w && p == f * w
    ensures 0.0 <= p <= w
    ensures f == 0.0 ==> p == 0.0
    ensures f == 1.0 ==> p == w
  {
    assert w - p == (1.0 - f) * w;
  }

  lemma TruncateWithin(r: real, n: int)
    requires 0.0 <= r <= n as real
    ensures 0 <= Truncate(r) <= n
    ensures r == 0.0 ==> Truncate(r) == 0
    ensures r == n as real ==> Truncate(r) == n
  {
  }

  /**
   * For a fraction in [0, 1] of an extent that fits in int32, the scaled
   * coordinate stays inside the extent: 0 maps to its start, 1 to its end.
   */
  lemma ScaleWithin(lo: int32, hi: int32, f: real)
    requires lo <= hi && hi as int - lo as int < 0x8000_0000
    requires 0.0 <= f <= 1.0
    ensures lo <= ScaleAxis(lo, hi, f) <= hi
    ensures f == 0.0 ==> ScaleAxis(lo, hi, f) == lo
    ensures f == 1.0 ==> ScaleAxis(lo, hi, f) == hi
  {
    var extent := Wrap32(hi as int - lo as int);
    assert extent as int == hi as int - lo as int;
    OffsetWithin(f, extent);
  }

  /** The centre of a 1920x1080 monitor at the origin is (960, 540). */
  lemma CentreOfFullHd()
    ensures ScalePoint(Rect(0, 0, 1920, 1080), 0.5, 0.5) == (960, 540)
  {
    assert Truncate(0.5 * 1920.0) == 960;
    assert Truncate(0.5 * 1080.0) == 540;
  }

  /**
   * moveD: resolve the monitor through the cache and, when the index is in
   * range, set the pointer; the result is SetCursorPos's.
   */
  method MoveD(x: real, y: real, display: uint64, now: int, cache: MonitorCache, desktop: Desktop)
    returns (ok: bool)
    modifies cache, desktop`log
    ensures Stale(now, old(cache.lastUpdate)) ==>
      cache.Enumerated(now, desktop.devices, desktop.screenWidth, desktop.screenHeight)
    ensures !Stale(now, old(cache.lastUpdate)) ==>
      cache.monitors == old(cache.monitors) && cache.lastUpdate == old(cache.lastUpdate)
    ensures display as int >= |cache.monitors| ==> !ok && desktop.log == old(desktop.log)
    ensures display as int < |cache.monitors| ==>
      var p := ScalePoint(cache.monitors[display], x, y);
      desktop.log == old(desktop.log) + [SetCursorPos(p.0, p.1)] && ok == desktop.cursorAccepts(p.0, p.1)
  {
    var rect := cache.Resolve(now, display, desktop);
    if rect.None? {
      return false;
    }
    var p := ScalePoint(rect.value, x, y);
    ok := desktop.SetCursorPosition(p.0, p.1);
  }

  /**
   * moveW: when the window's rectangle can be read, bring the window to the
   * front and then set the pointer; the result is SetCursorPos's.
   */
  method MoveW(x: real, y: real, hwnd: uint64, desktop: Desktop) returns (ok: bool)
    modifies desktop`log
    ensures hwnd !in desktop.windows ==> !ok && desktop.log == old(desktop.log)
    ensures hwnd in desktop.windows ==>
      var p := ScalePoint(desktop.windows[hwnd], x, y);
      desktop.log == old(desktop.log) + [SetForegroundWindow(hwnd), SetCursorPos(p.0, p.1)] &&
      ok == desktop.cursorAccepts(p.0, p.1)
  {
    var rect := desktop.GetWindowRect(hwnd);
    if rect.None? {
      return false;
    }
    desktop.BringToFront(hwnd);
    var p := ScalePoint(rect.value, x, y);
    ok := desktop.SetCursorPosition(p.0, p.1);
  }
}
