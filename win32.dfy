/** An optional value, for lookups and OS queries that can fail. */
module Optional {
  datatype Option<+T> = None | Some(value: T)
}

/**
 * The Windows side of the injector: fixed-width integers, the user32
 * constants the injector uses, the INPUT records it submits, and a `Desktop`
 * object standing for the operating system. Every user32 call the injector
 * makes is either a query answered from the desktop's fields or an effect
 * appended, in call order, to `Desktop.log`.
 */
module Win32 {
  import opened Optional

  newtype byte = x: int | 0 <= x < 0x100
  newtype int32 = x: int | -0x8000_0000 <= x < 0x8000_0000
  newtype uint32 = x: int | 0 <= x < 0x1_0000_0000
  newtype uint64 = x: int | 0 <= x < 0x1_0000_0000_0000_0000

  /** Two's-complement truncation to 32 bits: Go's int32 conversion and int32 overflow. */
  function Wrap32(x: int): (r: int32)
    ensures -0x8000_0000 <= x < 0x8000_0000 ==> r as int == x
  {
    if -0x8000_0000 <= x < 0x8000_0000 then x as int32
    else
      var m := x % 0x1_0000_0000;
      if m < 0x8000_0000 then m as int32 else (m - 0x1_0000_0000) as int32
  }

  /** The wrapped value differs from the exact one by a multiple of 2^32. */
  lemma Wrap32Congruent(x: int)
    ensures (x - Wrap32(x) as int) % 0x1_0000_0000 == 0
  {
    if !(-0x8000_0000 <= x < 0x8000_0000) {
      var m := x % 0x1_0000_0000;
      assert x == (x / 0x1_0000_0000) * 0x1_0000_0000 + m;
    }
  }

  // Virtual-key codes.
  const VK_BACK: bv16 := 0x08
  const VK_TAB: bv16 := 0x09
  const VK_RETURN: bv16 := 0x0D
  const VK_CONTROL: bv16 := 0x11
  const VK_MENU: bv16 := 0x12
  const VK_CAPITAL: bv16 := 0x14
  const VK_KANA: bv16 := 0x15
  const VK_ESCAPE: bv16 := 0x1B
  const VK_END: bv16 := 0x23
  const VK_HOME: bv16 := 0x24
  const VK_LEFT: bv16 := 0x25
  const VK_UP: bv16 := 0x26
  const VK_RIGHT: bv16 := 0x27
  const VK_DOWN: bv16 := 0x28
  const VK_DELETE: bv16 := 0x2E
  const VK_LWIN: bv16 := 0x5B
  const VK_F1: bv16 := 0x70
  const VK_F2: bv16 := 0x71
  const VK_F3: bv16 := 0x72
  const VK_F4: bv16 := 0x73
  const VK_F5: bv16 := 0x74
  const VK_F6: bv16 := 0x75
  const VK_F7: bv16 := 0x76
  const VK_F8: bv16 := 0x77
  const VK_F9: bv16 := 0x78
  const VK_F10: bv16 := 0x79
  const VK_F11: bv16 := 0x7A
  const VK_F12: bv16 := 0x7B
  const VK_F13: bv16 := 0x7C
  const VK_F14: bv16 := 0x7D
  const VK_F15: bv16 := 0x7E
  const VK_LSHIFT: bv16 := 0xA0

  // KEYBDINPUT.dwFlags bits.
  const KEYEVENTF_KEYUP: bv32 := 0x0002
  const KEYEVENTF_UNICODE: bv32 := 0x0004

  // MOUSEINPUT.dwFlags bits.
  const MOUSEEVENTF_LEFTDOWN: bv32 := 0x0002
  const MOUSEEVENTF_LEFTUP: bv32 := 0x0004
  const MOUSEEVENTF_RIGHTDOWN: bv32 := 0x0008
  const MOUSEEVENTF_RIGHTUP: bv32 := 0x0010
  const MOUSEEVENTF_MIDDLEDOWN: bv32 := 0x0020
  const MOUSEEVENTF_MIDDLEUP: bv32 := 0x0040

  // DISPLAY_DEVICE.StateFlags bit "attached to desktop".
  const DISPLAY_DEVICE_ATTACHED_TO_DESKTOP: bv32 := 0x0001

  /** A keyboard INPUT record; the fields the injector leaves zero are not kept. */
  datatype KeybdInput = KeybdInput(wVk: bv16, wScan: bv16, dwFlags: bv32)

  /** A mouse INPUT record; the injector only ever sets the flags. */
  datatype MouseInput = MouseInput(dwFlags: bv32)

  /** A RECT in device pixels. */
  datatype Rect = Rect(left: int32, top: int32, right: int32, bottom: int32)

  /** The fields of DEVMODEW that the monitor enumeration reads. */
  datatype DevMode = DevMode(x: int32, y: int32, pelsWidth: uint32, pelsHeight: uint32)

  /**
   * What EnumDisplayDevicesW reports for one device index, together with what
   * EnumDisplaySettingsExW(ENUM_CURRENT_SETTINGS) answers for it (None when
   * that query fails).
   */
  datatype DisplayDevice = DisplayDevice(stateFlags: bv32, currentSettings: Option<DevMode>)

  /** An observable call into user32, in the order the injector makes it. */
  datatype Effect =
    | SendKeyboard(keys: seq<KeybdInput>)
    | SendMouse(buttons: seq<MouseInput>)
    | SetCursorPos(x: int32, y: int32)
    | SetForegroundWindow(hwnd: uint64)

  /**
   * The operating system as the injector sees it. The query fields are the
   * answers the OS would give; `log` is everything the injector has done to it.
   */
  class Desktop {
    var log: seq<Effect>
    /** EnumDisplayDevicesW succeeds exactly for the indices of this sequence. */
    var devices: seq<DisplayDevice>
    /** GetSystemMetrics(SM_CXSCREEN) and GetSystemMetrics(SM_CYSCREEN). */
    var screenWidth: int32
    var screenHeight: int32
    /** GetWindowRect succeeds exactly for the handles in this map. */
    var windows: map<uint64, Rect>
    /** VkKeyScanW under the active keyboard layout. */
    const keyScan: bv16 -> bv16
    /** What SetCursorPos reports for a position. */
    const cursorAccepts: (int32, int32) -> bool

    constructor (keyScan: bv16 -> bv16, cursorAccepts: (int32, int32) -> bool,
                 devices: seq<DisplayDevice>, screenWidth: int32, screenHeight: int32,
                 windows: map<uint64, Rect>)
      ensures this.keyScan == keyScan && this.cursorAccepts == cursorAccepts
      ensures this.devices == devices && this.windows == windows
      ensures this.screenWidth == screenWidth && this.screenHeight == screenHeight
      ensures log == []
    {
      this.keyScan := keyScan;
      this.cursorAccepts := cursorAccepts;
      this.devices := devices;
      this.screenWidth := screenWidth;
      this.screenHeight := screenHeight;
      this.windows := windows;
      log := [];
    }

    /** SendInput with a batch of keyboard records. */
    method SendKeyboardInput(batch: seq<KeybdInput>)
      modifies this`log
      ensures log == old(log) + [SendKeyboard(batch)]
    {
      log := log + [SendKeyboard(batch)];
    }

    /** SendInput with a batch of mouse records. */
    method SendMouseInput(batch: seq<MouseInput>)
      modifies this`log
      ensures log == old(log) + [SendMouse(batch)]
    {
      log := log + [SendMouse(batch)];
    }

    method SetCursorPosition(x: int32, y: int32) returns (ok: bool)
      modifies this`log
      ensures log == old(log) + [SetCursorPos(x, y)]
      ensures ok == cursorAccepts(x, y)
    {
      log := log + [SetCursorPos(x, y)];
      ok := cursorAccepts(x, y);
    }

    /** SetForegroundWindow; the injector ignores its result. */
    method BringToFront(hwnd: uint64)
      modifies this`log
      ensures log == old(log) + [SetForegroundWindow(hwnd)]
    {
      log := log + [SetForegroundWindow(hwnd)];
    }

    method GetWindowRect(hwnd: uint64) returns (r: Option<Rect>)
      ensures r.Some? <==> hwnd in windows
      ensures r.Some? ==> r.value == windows[hwnd]
    {
      r := if hwnd in windows then Some(windows[hwnd]) else None;
    }
  }
}
