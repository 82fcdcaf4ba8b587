/**
 * Whole messages followed through the model: what the handlers choose, and
 * what the chosen operations then submit.
 */
module Scenarios {
  import opened Optional
  import opened Win32
  import opened GoString
  import opened Keys
  import opened Mouse
  import opened Monitors
  import opened Pointer
  import opened Dispatch

  /**
   * A right click at the middle of monitor 0: the handler moves to the
   * monitor and then clicks button 2, and the click submits right-down,
   * right-up; a failed move drops the click.
   */
  lemma RightClickAtMonitorCentre(keyinput: bool)
    ensures var msg := InputEvent("mouse", "click", Target("monitor", 0), 0.5, 0.5, 2, "");
      Handle(msg, keyinput, true) == [MoveDisplay(0.5, 0.5, 0), ClickButton(2)] &&
      Handle(msg, keyinput, false) == [MoveDisplay(0.5, 0.5, 0)]
    ensures ClickBatch(2) == [MouseInput(MOUSEEVENTF_RIGHTDOWN), MouseInput(MOUSEEVENTF_RIGHTUP)]
  {
  }

  /**
   * The same right click carried out on a desktop with one attached 1920x1080
   * monitor at the origin, starting from a new cache: moveD enumerates and
   * sets the pointer to (960, 540); when SetCursorPos succeeds the handler
   * goes on to click, which submits the right button's press and release.
   */
  method RightClickOnDesktop(now: int, cursorAccepts: (int32, int32) -> bool) returns (desktop: Desktop)
    requires now > ZeroTime + RefreshInterval
    ensures desktop.log ==
      [SetCursorPos(960, 540)] + (if cursorAccepts(960, 540) then [SendMouse(ClickBatch(2))] else [])
  {
    var monitor := DisplayDevice(DISPLAY_DEVICE_ATTACHED_TO_DESKTOP, Some(DevMode(0, 0, 1920, 1080)));
    desktop := new Desktop((c: bv16) => NoVirtualKey, cursorAccepts, [monitor], 1920, 1080, map[]);
    var cache := new MonitorCache();
    FirstLookupRefreshes(now);
    DeviceRectExact(monitor, 1920, 1080);
    CentreOfFullHd();
    var msg := InputEvent("mouse", "click", Target("monitor", 0), 0.5, 0.5, 2, "");
    var moved := MoveD(msg.x, msg.y, msg.target.id, now, cache, desktop);
    assert moved == cursorAccepts(960, 540);
    if moved {
      assert Handle(msg, false, moved)[1] == ClickButton(2);
      Click(msg.button, desktop);
    }
  }

  /**
   * A "press" of F5 with key input enabled taps F5, which submits its press
   * and release; with key input disabled nothing happens.
   */
  lemma PressF5(keyScan: bv16 -> bv16, moved: bool)
    ensures var msg := InputEvent("key", "press", Target("", 0), 0.0, 0.0, 0, "F5");
      Handle(msg, true, moved) == [PressKey("F5", 0)] && Handle(msg, false, moved) == []
    ensures TapSequence("F5", keyScan) == Some([VkRecord(VK_F5, true), VkRecord(VK_F5, false)])
  {
    assert ToUpper("F5") == "F5";
    TableEntry("F5", VK_F5);
    NamedKeyTap("F5", keyScan);
  }

  /** Looking a literal name up in the table. */
  lemma TableEntry(name: string, vk: bv16)
    requires (name, vk) in {("F5", VK_F5), ("ENTER", VK_RETURN), ("SHIFT", VK_LSHIFT)}
    ensures name in VKeys && VKeys[name] == vk
  {
  }

  /** A lower-case name reaches the table: "enter" is ENTER. */
  lemma LowerCaseName(keyScan: bv16 -> bv16)
    ensures TapSequence("enter", keyScan) == Some([VkRecord(VK_RETURN, true), VkRecord(VK_RETURN, false)])
  {
    assert ToUpper("enter") == "ENTER";
    TableEntry("ENTER", VK_RETURN);
    NamedKeyTap("enter", keyScan);
  }

  /**
   * So does a name whose long s upper-cases to an ASCII S, although it holds
   * a non-ASCII rune: the table is consulted before the Unicode rule.
   */
  lemma LongSName(keyScan: bv16 -> bv16)
    ensures TapSequence("ſhift", keyScan) == Some([VkRecord(VK_LSHIFT, true), VkRecord(VK_LSHIFT, false)])
  {
    assert ToUpper("ſhift") == "SHIFT";
    TableEntry("SHIFT", VK_LSHIFT);
    NamedKeyTap("ſhift", keyScan);
  }

  /** A multi-character ASCII word that is not a table name is rejected. */
  lemma UnsupportedWord(keyScan: bv16 -> bv16)
    ensures TapSequence("foobar", keyScan).None?
  {
    assert ToUpper("foobar") == "FOOBAR";
    assert ByteLength("foobar") == 6;
    UnknownWord();
    PlainTextRejected("foobar", keyScan);
  }

  lemma UnknownWord()
    ensures "FOOBAR" !in VKeys
  {
  }

  /** So is the empty name. */
  lemma UnsupportedEmpty(keyScan: bv16 -> bv16)
    ensures TapSequence("", keyScan).None?
  {
    ShortNamesUnknown("");
    assert ByteLength("") == 0;
    PlainTextRejected("", keyScan);
  }

  /** "é" (U+00E9, two bytes) becomes a single Unicode pair carrying 0xE9. */
  lemma AccentedLetter(keyScan: bv16 -> bv16)
    ensures TapSequence("é", keyScan) ==
      Some([KeybdInput(0, 0xE9, KEYEVENTF_UNICODE), KeybdInput(0, 0xE9, KEYEVENTF_UNICODE | KEYEVENTF_KEYUP)])
  {
    ShortNamesUnknown("é");
    assert ByteLength("é") == 2;
    MultiByteTap("é", keyScan);
    AccentedPairs();
  }

  lemma AccentedPairs()
    ensures UnicodePairs("é") ==
      [KeybdInput(0, 0xE9, KEYEVENTF_UNICODE), KeybdInput(0, 0xE9, KEYEVENTF_UNICODE | KEYEVENTF_KEYUP)]
  {
    assert UnicodePairs("é") == UnicodePair(Truncate16('é')) + UnicodePairs("");
    AccentCode();
  }

  /** U+00E9 fits in 16 bits, so truncation keeps it. */
  lemma AccentCode()
    ensures Truncate16('é') == 0xE9
  {
    var n := 'é' as int % 0x1_0000;
    assert n == 0xE9;
  }

  /**
   * A rune outside the Basic Multilingual Plane: U+1F600 takes four bytes, so
   * it goes the Unicode way, and `uint16(c)` keeps only its low 16 bits. The
   * result is one pair carrying 0xF600, not the surrogate pair 0xD83D, 0xDE00.
   */
  lemma SupplementaryRune(keyScan: bv16 -> bv16)
    ensures TapSequence("\U{1F600}", keyScan) == Some(UnicodePair(0xF600))
  {
    ShortNamesUnknown("\U{1F600}");
    assert RuneLength('\U{1F600}') == 4;
    assert ByteLength("\U{1F600}") == 4;
    MultiByteTap("\U{1F600}", keyScan);
    assert "\U{1F600}"[0] == '\U{1F600}' && "\U{1F600}"[1..] == "";
    assert UnicodePairs("\U{1F600}") == UnicodePair(Truncate16('\U{1F600}')) + UnicodePairs("");
    assert UnicodePairs("") == [];
    SupplementaryCode();
    assert UnicodePair(0xF600) + [] == UnicodePair(0xF600);
  }

  /** `uint16` of U+1F600 drops the plane bits: 0x1F600 becomes 0xF600. */
  lemma SupplementaryCode()
    ensures Truncate16('\U{1F600}') == 0xF600
  {
    var n := '\U{1F600}' as int % 0x1_0000;
    assert n == 0xF600;
  }
}
