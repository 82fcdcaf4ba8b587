/**
 * The monitor geometry of input_windows.go: GetMonitorsRect, which turns the
 * display devices into one rectangle each, and the cache that moveD keeps in
 * the package variables `monitors` and `lastUpdate`, refreshed when it is more
 * than ten seconds old.
 *
 * Instants are nanosecond counts on one clock, passed in as `now`; 0 is Go's
 * zero time.Time, which `lastUpdate` holds before the first refresh.
 */
module Monitors {
  import opened Optional
  import opened Win32

  const ZeroTime: int := 0
  /** The extremes of time.Duration, an int64 count of nanoseconds. */
  const MinDuration: int := -0x8000_0000_0000_0000
  const MaxDuration: int := 0x7FFF_FFFF_FFFF_FFFF
  /** Ten seconds, in nanoseconds. */
  const RefreshInterval: int := 10_000_000_000

  /** time.Time.Sub: the difference, saturated to the range of time.Duration. */
  function Sub(t: int, u: int): (d: int)
    ensures MinDuration <= d <= MaxDuration
    ensures MinDuration <= t - u <= MaxDuration ==> d == t - u
    ensures t - u > MaxDuration ==> d == MaxDuration
    ensures t - u < MinDuration ==> d == MinDuration
  {
    if t - u > MaxDuration then MaxDuration
    else if t - u < MinDuration then MinDuration
    else t - u
  }

  /**
   * `now.Sub(lastUpdate).Seconds() > 10`. Seconds() of a duration of d
   * nanoseconds exceeds 10 exactly when d exceeds ten seconds' worth.
   * Saturation never changes the decision: the cache is stale exactly when
   * strictly more than ten seconds have passed. So two lookups within ten
   * seconds of a refresh reuse it, and one eleven seconds later refreshes.
   */
  predicate Stale(now: int, lastUpdate: int)
    ensures Stale(now, lastUpdate) <==> now - lastUpdate > RefreshInterval
  {
    Sub(now, lastUpdate) > RefreshInterval
  }

  /**
   * A new cache holds the zero time, and any real clock reading lies more
   * than ten seconds past it, so the first lookup always enumerates.
   */
  lemma FirstLookupRefreshes(now: int)
    requires now > ZeroTime + RefreshInterval
    ensures Stale(now, ZeroTime)
    ensures Sub(now, ZeroTime) > RefreshInterval
  {
  }

  /** The rectangle GetMonitorsRect reports for one display device. */
  function DeviceRect(d: DisplayDevice, screenWidth: int32, screenHeight: int32): (r: Rect)
    ensures d.stateFlags & DISPLAY_DEVICE_ATTACHED_TO_DESKTOP == 0 || d.currentSettings.None? ==>
      r == Rect(0, 0, screenWidth, screenHeight)
    ensures d.stateFlags & DISPLAY_DEVICE_ATTACHED_TO_DESKTOP != 0 && d.currentSettings.Some? ==>
      var m := d.currentSettings.value;
      r.left == m.x && r.top == m.y
  {
    if d.stateFlags & DISPLAY_DEVICE_ATTACHED_TO_DESKTOP != 0 && d.currentSettings.Some? then
      var m := d.currentSettings.value;
      Rect(m.x, m.y,
           Wrap32(m.x as int + Wrap32(m.pelsWidth as int) as int),
           Wrap32(m.y as int + Wrap32(m.pelsHeight as int) as int))
    else
      Rect(0, 0, screenWidth, screenHeight)
  }

  /**
   * For an attached device with settings, the far corner is its position
   * plus its size in 32-bit two's-complement arithmetic: right and bottom
   * differ from the exact sums by a multiple of 2^32.
   */
  lemma DeviceRectCorner(d: DisplayDevice, screenWidth: int32, screenHeight: int32)
    requires d.stateFlags & DISPLAY_DEVICE_ATTACHED_TO_DESKTOP != 0 && d.currentSettings.Some?
    ensures var m := d.currentSettings.value;
      var r := DeviceRect(d, screenWidth, screenHeight);
      (r.right as int - m.x as int - m.pelsWidth as int) % 0x1_0000_0000 == 0 &&
      (r.bottom as int - m.y as int - m.pelsHeight as int) % 0x1_0000_0000 == 0
  {
    var m := d.currentSettings.value;
    SumWraps(m.x, m.pelsWidth);
    SumWraps(m.y, m.pelsHeight);
  }

  /** `x + int32(n)` in int32 arithmetic is congruent to the exact x + n modulo 2^32. */
  lemma SumWraps(x: int32, n: uint32)
    ensures (Wrap32(x as int + Wrap32(n as int) as int) as int - x as int - n as int) % 0x1_0000_0000 == 0
  {
    var w := Wrap32(n as int);
    var s := Wrap32(x as int + w as int);
    Wrap32Congruent(n as int);
    Wrap32Congruent(x as int + w as int);
    var a := (n as int - w as int) / 0x1_0000_0000;
    var b := (x as int + w as int - s as int) / 0x1_0000_0000;
    assert n as int - w as int == a * 0x1_0000_0000;
    assert x as int + w as int - s as int == b * 0x1_0000_0000;
    assert s as int - x as int - n as int == (-a - b) * 0x1_0000_0000;
  }

  /**
   * When the mode's position plus its size stays within int32, the device's
   * rectangle is exactly its position and size.
   */
  lemma DeviceRectExact(d: DisplayDevice, screenWidth: int32, screenHeight: int32)
    requires d.stateFlags & DISPLAY_DEVICE_ATTACHED_TO_DESKTOP != 0 && d.currentSettings.Some?
    requires var m := d.currentSettings.value;
      m.pelsWidth < 0x8000_0000 && m.pelsHeight < 0x8000_0000 &&
      m.x as int + m.pelsWidth as int < 0x8000_0000 && m.y as int + m.pelsHeight as int < 0x8000_0000
    ensures var m := d.currentSettings.value;
      DeviceRect(d, screenWidth, screenHeight) ==
        Rect(m.x, m.y, (m.x as int + m.pelsWidth as int) as int32, (m.y as int + m.pelsHeight as int) as int32)
  {
  }

  /**
   * GetMonitorsRect: walks the device indices until EnumDisplayDevicesW fails
   * and reports one rectangle per device, in enumeration order.
   */
  method GetMonitorsRect(devices: seq<DisplayDevice>, screenWidth: int32, screenHeight: int32)
    returns (ret: seq<Rect>)
    ensures |ret| == |devices|
    ensures forall i :: 0 <= i < |devices| ==> ret[i] == DeviceRect(devices[i], screenWidth, screenHeight)
  {
    ret := [];
    var i := 0;
    while i < |devices|
      invariant 0 <= i <= |devices| && |ret| == i
      invariant forall j :: 0 <= j < i ==> ret[j] == DeviceRect(devices[j], screenWidth, screenHeight)
    {
      var dd := devices[i];
      if dd.stateFlags & DISPLAY_DEVICE_ATTACHED_TO_DESKTOP != 0 && dd.currentSettings.Some? {
        var mode := dd.currentSettings.value;
        var rect := Rect(mode.x, mode.y,
                         Wrap32(mode.x as int + Wrap32(mode.pelsWidth as int) as int),
                         Wrap32(mode.y as int + Wrap32(mode.pelsHeight as int) as int));
        ret := ret + [rect];
      } else {
        var rect := Rect(0, 0, screenWidth, screenHeight);
        ret := ret + [rect];
      }
      i := i + 1;
    }
  }

  /** The package variables `monitors` and `lastUpdate`. */
  class MonitorCache {
    var monitors: seq<Rect>
    var lastUpdate: int

    constructor ()
      ensures monitors == [] && lastUpdate == ZeroTime
    {
      monitors := [];
      lastUpdate := ZeroTime;
    }

    /** The cache holds a fresh enumeration of these devices, taken at `now`. */
    ghost predicate Enumerated(now: int, devices: seq<DisplayDevice>, screenWidth: int32, screenHeight: int32)
      reads this
    {
      lastUpdate == now && |monitors| == |devices| &&
      forall i :: 0 <= i < |devices| ==> monitors[i] == DeviceRect(devices[i], screenWidth, screenHeight)
    }

    /**
     * The locked part of moveD: re-enumerate when stale, replacing the whole
     * list even with an empty one, then check the index before any read.
     */
    method Resolve(now: int, display: uint64, desktop: Desktop) returns (rect: Option<Rect>)
      modifies this
      ensures Stale(now, old(lastUpdate)) ==>
        Enumerated(now, desktop.devices, desktop.screenWidth, desktop.screenHeight)
      ensures !Stale(now, old(lastUpdate)) ==> monitors == old(monitors) && lastUpdate == old(lastUpdate)
      ensures rect.Some? <==> display as int < |monitors|
      ensures rect.Some? ==> rect.value == monitors[display]
    {
      if Sub(now, lastUpdate) > RefreshInterval {
        monitors := GetMonitorsRect(desktop.devices, desktop.screenWidth, desktop.screenHeight);
        lastUpdate := now;
      }
      if display as int >= |monitors| {
        return None;
      }
      rect := Some(monitors[display]);
    }
  }
}
