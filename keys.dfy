/**
 * The key-sequence builder of input_windows.go: a key name becomes an ordered
 * batch of keyboard INPUT records, grown in place, and is submitted in one
 * SendInput call.
 *
 * `TapSequence` and `HoldRecord` say what a full key press and a sustained key
 * state produce; the `KeySeq` methods build the same records step by step as
 * the source does, and the lemmas below state the resolution rules.
 */
module Keys {
  import opened Optional
  import opened Win32
  import opened GoString

  /**
   * The named-key table `vkeys`. Lookups go through ToUpper, so the mixed-case
   * "Meta" entry can never be hit (see MetaNeverMatches).
   */
  const VKeys: map<string, bv16> := map[
    "CONTROL" := VK_CONTROL, "SHIFT" := VK_LSHIFT, "ALT" := VK_MENU, "Meta" := VK_LWIN,
    "BACKSPACE" := VK_BACK, "TAB" := VK_TAB, "ENTER" := VK_RETURN, "ESCAPE" := VK_ESCAPE,
    "HOME" := VK_HOME, "END" := VK_END, "DELETE" := VK_DELETE, "CAPSLOCK" := VK_CAPITAL,
    "ARROWLEFT" := VK_LEFT, "ARROWUP" := VK_UP, "ARROWRIGHT" := VK_RIGHT, "ARROWDOWN" := VK_DOWN,
    "F1" := VK_F1, "F2" := VK_F2, "F3" := VK_F3, "F4" := VK_F4, "F5" := VK_F5,
    "F6" := VK_F6, "F7" := VK_F7, "F8" := VK_F8, "F9" := VK_F9, "F10" := VK_F10,
    "F11" := VK_F11, "F12" := VK_F12, "F13" := VK_F13, "F14" := VK_F14, "F15" := VK_F15,
    "KANAMODE" := VK_KANA
  ]

  /** The bit of a VkKeyScanW result that says the character needs Shift. */
  const ShiftBit: bv16 := 0x100
  /** What VkKeyScanW returns for a character with no virtual key. */
  const NoVirtualKey: bv16 := 0xffff

  predicate IsKeyUp(k: KeybdInput) {
    k.dwFlags & KEYEVENTF_KEYUP != 0
  }

  /** The release that matches a press. */
  function Released(k: KeybdInput): KeybdInput {
    k.(dwFlags := k.dwFlags | KEYEVENTF_KEYUP)
  }

  /** The record `keyseq.vk` appends. */
  function VkRecord(vk: bv16, press: bool): (k: KeybdInput)
    ensures k.wVk == vk && k.wScan == 0
    ensures IsKeyUp(k) <==> !press
    ensures k.dwFlags & KEYEVENTF_UNICODE == 0
  {
    KeybdInput(vk, 0, if press then 0 else KEYEVENTF_KEYUP)
  }

  /** Go's `uint16(c)` on a rune: the low 16 bits, with no UTF-16 surrogate split. */
  function Truncate16(c: char): (r: bv16)
    ensures c as int < 0x1_0000 ==> r == c as int as bv16
  {
    (c as int % 0x1_0000) as bv16
  }

  /** The two records `keyseq.unicode` appends. */
  function UnicodePair(c: bv16): (r: seq<KeybdInput>)
    ensures |r| == 2 && !IsKeyUp(r[0]) && r[1] == Released(r[0])
    ensures r[0].wVk == 0 && r[0].wScan == c && r[0].dwFlags & KEYEVENTF_UNICODE != 0
  {
    [KeybdInput(0, c, KEYEVENTF_UNICODE), KeybdInput(0, c, KEYEVENTF_UNICODE | KEYEVENTF_KEYUP)]
  }

  /** One Unicode down/up pair per rune, in string order. */
  function UnicodePairs(s: string): (r: seq<KeybdInput>)
    ensures |r| == 2 * |s|
    ensures forall k :: 0 <= k < |s| ==> r[2 * k..2 * k + 2] == UnicodePair(Truncate16(s[k]))
  {
    if s == [] then []
    else
      var head := UnicodePair(Truncate16(s[0]));
      var rest := UnicodePairs(s[1..]);
      var r := head + rest;
      PairsAfterHead(head, rest);
      assert forall k :: 1 <= k < |s| ==> s[k] == s[1..][k - 1];
      r
  }

  /** Behind a leading pair, pair k of the whole is pair k - 1 of the rest. */
  lemma PairsAfterHead(head: seq<KeybdInput>, rest: seq<KeybdInput>)
    requires |head| == 2
    ensures (head + rest)[0..2] == head
    ensures forall k :: 1 <= k && 2 * k + 2 <= |head| + |rest| ==>
      (head + rest)[2 * k..2 * k + 2] == rest[2 * k - 2..2 * k]
  {
  }

  /**
   * A virtual-key press and release of the low byte; when the VkKeyScanW shift
   * bit is set the key is bracketed by a left-Shift press and release.
   */
  function VkTap(vk: bv16): (r: seq<KeybdInput>)
    ensures |r| == if vk & ShiftBit != 0 then 4 else 2
  {
    if vk & ShiftBit != 0 then
      [VkRecord(VK_LSHIFT, true), VkRecord(vk & 0xff, true), VkRecord(vk & 0xff, false), VkRecord(VK_LSHIFT, false)]
    else
      [VkRecord(vk & 0xff, true), VkRecord(vk & 0xff, false)]
  }

  /**
   * A tap presses the key (after Shift when the shift bit is set) and releases
   * every key it pressed, in reverse order.
   */
  lemma VkTapBalanced(vk: bv16)
    ensures var r := VkTap(vk);
      (forall i :: 0 <= i < |r| / 2 ==> !IsKeyUp(r[i]) && r[|r| - 1 - i] == Released(r[i])) &&
      r[|r| / 2 - 1] == VkRecord(vk & 0xff, true) &&
      (vk & ShiftBit != 0 ==> r[0] == VkRecord(VK_LSHIFT, true))
  {
  }

  /**
   * The records `keyseq.KeyInput` appends for a key name, or None when it
   * rejects the name. The rules are tried in order: the named-key table on the
   * upper-cased name; a one-byte name through VkKeyScanW (falling back to a
   * Unicode pair when it has no virtual key); a name with more bytes than runes
   * as Unicode pairs; anything else is unsupported.
   */
  function TapSequence(key: string, keyScan: bv16 -> bv16): (r: Option<seq<KeybdInput>>)
    ensures r.Some? ==> |r.value| >= 2
  {
    var upper := ToUpper(key);
    if upper in VKeys then Some(VkTap(VKeys[upper]))
    else if ByteLength(key) == 1 then
      var vk := keyScan(FirstByte(key) as int as bv16);
      if vk == NoVirtualKey then Some(UnicodePair(FirstByte(key) as int as bv16)) else Some(VkTap(vk))
    else if ByteLength(key) != |key| then Some(UnicodePairs(key))
    else None
  }

  /**
   * The one record `keyseq.KeyState` appends for a sustained press or release,
   * or None: only a table name or a one-byte name with a virtual key qualifies.
   */
  function HoldRecord(key: string, press: bool, keyScan: bv16 -> bv16): (r: Option<KeybdInput>)
    ensures r.Some? ==> r.value.wScan == 0 && (IsKeyUp(r.value) <==> !press)
  {
    var upper := ToUpper(key);
    if upper in VKeys then Some(VkRecord(VKeys[upper], press))
    else if ByteLength(key) == 1 then
      var scan := keyScan(FirstByte(key) as int as bv16);
      if scan == NoVirtualKey then None else Some(VkRecord(scan & 0xff, press))
    else None
  }

  /** `keyseq`: a batch of keyboard records under construction. */
  class KeySeq {
    var records: seq<KeybdInput>

    constructor ()
      ensures records == []
    {
      records := [];
    }

    method Vk(vk: bv16, press: bool)
      modifies this
      ensures records == old(records) + [VkRecord(vk, press)]
    {
      records := records + [VkRecord(vk, press)];
    }

    method Unicode(c: bv16)
      modifies this
      ensures records == old(records) + UnicodePair(c)
    {
      records := records + UnicodePair(c);
    }

    /** The `for _, c := range key { s.unicode(uint16(c)) }` loop of KeyInput. */
    method UnicodeRunes(key: string)
      modifies this
      ensures records == old(records) + UnicodePairs(key)
    {
      for i := 0 to |key|
        invariant records == old(records) + UnicodePairs(key[..i])
      {
        UnicodePairsPrefix(key, i);
        Unicode(Truncate16(key[i]));
      }
      assert key[..|key|] == key;
    }

    method KeyInput(key: string, keyScan: bv16 -> bv16) returns (ok: bool)
      modifies this
      ensures ok <==> TapSequence(key, keyScan).Some?
      ensures records == old(records) + (if ok then TapSequence(key, keyScan).value else [])
    {
      ghost var tap := TapSequence(key, keyScan);
      var vk: bv16;
      var upper := ToUpper(key);
      if upper in VKeys {
        vk := VKeys[upper];
        assert tap == Some(VkTap(vk));
      } else if ByteLength(key) == 1 {
        vk := keyScan(FirstByte(key) as int as bv16);
        if vk == NoVirtualKey {
          assert tap == Some(UnicodePair(FirstByte(key) as int as bv16));
          Unicode(FirstByte(key) as int as bv16);
          return true;
        }
        assert tap == Some(VkTap(vk));
      } else if ByteLength(key) != |key| {
        assert tap == Some(UnicodePairs(key));
        UnicodeRunes(key);
        return true;
      } else {
        assert tap.None?;
        return false;
      }

      Tap(vk);
      return true;
    }

    /** The tail of KeyInput: the key's press and release, inside Shift when the shift bit is set. */
    method Tap(vk: bv16)
      modifies this
      ensures records == old(records) + VkTap(vk)
    {
      if vk & ShiftBit != 0 {
        Vk(VK_LSHIFT, true);
        Vk(vk & 0xff, true);
        Vk(vk & 0xff, false);
        Vk(VK_LSHIFT, false);
      } else {
        Vk(vk & 0xff, true);
        Vk(vk & 0xff, false);
      }
    }

    method KeyState(key: string, press: bool, keyScan: bv16 -> bv16) returns (ok: bool)
      modifies this
      ensures ok <==> HoldRecord(key, press, keyScan).Some?
      ensures records == old(records) + (if ok then [HoldRecord(key, press, keyScan).value] else [])
    {
      var vk: bv16;
      var upper := ToUpper(key);
      if upper in VKeys {
        vk := VKeys[upper];
      } else if ByteLength(key) == 1 {
        var scan := keyScan(FirstByte(key) as int as bv16);
        if scan == NoVirtualKey {
          return false;
        }
        vk := scan & 0xff;
      } else {
        return false;
      }
      Vk(vk, press);
      return true;
    }

    /** Submits the batch; `&(*s)[0]` needs at least one record. */
    method Send(desktop: Desktop)
      requires |records| > 0
      modifies desktop`log
      ensures desktop.log == old(desktop.log) + [SendKeyboard(records)]
    {
      desktop.SendKeyboardInput(records);
    }
  }

  /** `key`: build a full key press and submit it when the name is supported. */
  method SendKey(key: string, metaKeys: int, desktop: Desktop)
    modifies desktop`log
    ensures TapSequence(key, desktop.keyScan).Some? ==>
      desktop.log == old(desktop.log) + [SendKeyboard(TapSequence(key, desktop.keyScan).value)]
    ensures TapSequence(key, desktop.keyScan).None? ==> desktop.log == old(desktop.log)
  {
    var s := new KeySeq();
    var ok := s.KeyInput(key, desktop.keyScan);
    assert ok ==> s.records == TapSequence(key, desktop.keyScan).value;
    if ok {
      s.Send(desktop);
    }
  }

  /** `keyState`: build a sustained press or release and submit it when supported. */
  method SendKeyState(key: string, press: bool, desktop: Desktop)
    modifies desktop`log
    ensures HoldRecord(key, press, desktop.keyScan).Some? ==>
      desktop.log == old(desktop.log) + [SendKeyboard([HoldRecord(key, press, desktop.keyScan).value])]
    ensures HoldRecord(key, press, desktop.keyScan).None? ==> desktop.log == old(desktop.log)
  {
    var s := new KeySeq();
    var ok := s.KeyState(key, press, desktop.keyScan);
    assert ok ==> s.records == [HoldRecord(key, press, desktop.keyScan).value];
    if ok {
      s.Send(desktop);
    }
  }

  /** Extending a prefix by one rune extends its Unicode pairs by that rune's pair. */
  lemma UnicodePairsPrefix(s: string, i: int)
    requires 0 <= i < |s|
    ensures UnicodePairs(s[..i + 1]) == UnicodePairs(s[..i]) + UnicodePair(Truncate16(s[i]))
  {
    assert s[..i + 1] == s[..i] + [s[i]];
    UnicodePairsSnoc(s[..i], s[i]);
  }

  lemma {:induction false} UnicodePairsSnoc(s: string, c: char)
    ensures UnicodePairs(s + [c]) == UnicodePairs(s) + UnicodePair(Truncate16(c))
  {
    if s != [] {
      assert (s + [c])[1..] == s[1..] + [c];
      UnicodePairsSnoc(s[1..], c);
    }
  }

  // ---------------------------------------------------------------------------
  // Properties of the resolution rules.

  /**
   * Every code in the table is a plain virtual-key code: no Shift bit,
   * nothing above the low byte.
   */
  lemma TableCodes()
    ensures forall vk :: vk in VKeys.Values ==> vk < 0x100
  {
  }

  /** Every name in the table has two or more characters. */
  lemma TableNameLengths()
    ensures forall name :: name in VKeys.Keys ==> |name| >= 2
  {
  }

  /** A code below 0x100 has no shift bit and is its own low byte. */
  lemma LowByteCode(vk: bv16)
    requires vk < 0x100
    ensures vk & ShiftBit == 0 && vk & 0xff == vk
  {
  }

  /** ToUpper never yields "Meta", so the table's "Meta" entry is dead. */
  lemma MetaNeverMatches(key: string)
    ensures "Meta" in VKeys && VKeys["Meta"] == VK_LWIN
    ensures ToUpper(key) != "Meta"
  {
    ToUpperPointwise(key);
  }

  /** So neither "meta" nor "Meta" resolves: both fall through to "unsupported". */
  lemma MetaUnsupported(keyScan: bv16 -> bv16)
    ensures TapSequence("meta", keyScan).None?
    ensures TapSequence("Meta", keyScan).None?
  {
    assert ToUpper("meta") == "META" && ToUpper("Meta") == "META";
    UpperMetaUnknown();
    assert ByteLength("meta") == 4 && ByteLength("Meta") == 4;
    PlainTextRejected("meta", keyScan);
    PlainTextRejected("Meta", keyScan);
  }

  /** The upper-case spelling is not in the table. */
  lemma UpperMetaUnknown()
    ensures "META" !in VKeys
  {
  }

  /** Names shorter than two runes are never table names. */
  lemma ShortNamesUnknown(key: string)
    requires |key| < 2
    ensures ToUpper(key) !in VKeys
  {
    TableNameLengths();
    assert ToUpper(key) in VKeys ==> ToUpper(key) in VKeys.Keys;
  }

  /**
   * A name found in the table, whatever its case, wins over every other rule
   * and yields exactly the press and release of its virtual key.
   */
  lemma NamedKeyTap(key: string, keyScan: bv16 -> bv16)
    requires ToUpper(key) in VKeys
    ensures TapSequence(key, keyScan) ==
      Some([VkRecord(VKeys[ToUpper(key)], true), VkRecord(VKeys[ToUpper(key)], false)])
  {
    var vk := VKeys[ToUpper(key)];
    TableCodes();
    assert vk in VKeys.Values;
    LowByteCode(vk);
  }

  /**
   * A single ASCII character that is not a table name goes through VkKeyScanW:
   * a Unicode pair when it has no virtual key, the key bracketed by left Shift
   * when the shift bit is set, and a plain press and release otherwise.
   */
  lemma SingleCharacterTap(c: char, keyScan: bv16 -> bv16)
    requires IsAscii(c)
    ensures var b := c as int as bv16;
      var vk := keyScan(b);
      TapSequence([c], keyScan) ==
        if vk == NoVirtualKey then Some(UnicodePair(b))
        else if vk & ShiftBit != 0 then
          Some([VkRecord(VK_LSHIFT, true), VkRecord(vk & 0xff, true),
                VkRecord(vk & 0xff, false), VkRecord(VK_LSHIFT, false)])
        else Some([VkRecord(vk & 0xff, true), VkRecord(vk & 0xff, false)])
  {
    SingleCharacterScanned(c, keyScan);
  }

  /** A single ASCII character is never a table name, so it goes to VkKeyScanW with its own code. */
  lemma SingleCharacterScanned(c: char, keyScan: bv16 -> bv16)
    requires IsAscii(c)
    ensures var b := c as int as bv16;
      TapSequence([c], keyScan) ==
        if keyScan(b) == NoVirtualKey then Some(UnicodePair(b)) else Some(VkTap(keyScan(b)))
  {
    SingleByte([c]);
    ShortNamesUnknown([c]);
  }

  /**
   * A name with a rune outside ASCII that is not a table name becomes one
   * Unicode down/up pair per rune, each rune truncated to 16 bits, in order:
   * 2 * |key| records in all.
   */
  lemma NonAsciiTap(key: string, keyScan: bv16 -> bv16)
    requires ToUpper(key) !in VKeys && HasNonAscii(key)
    ensures TapSequence(key, keyScan).Some?
    ensures var r := TapSequence(key, keyScan).value;
      |r| == 2 * |key| &&
      forall k :: 0 <= k < |key| ==>
        r[2 * k] == KeybdInput(0, Truncate16(key[k]), KEYEVENTF_UNICODE) &&
        r[2 * k + 1] == KeybdInput(0, Truncate16(key[k]), KEYEVENTF_UNICODE | KEYEVENTF_KEYUP)
  {
    ByteLengthCases(key);
    SingleByte(key);
    MultiByteTap(key, keyScan);
    UnicodePairsPointwise(key);
  }

  /** Record 2k of the Unicode pairs presses rune k and record 2k + 1 releases it. */
  lemma UnicodePairsPointwise(s: string)
    ensures var r := UnicodePairs(s);
      forall k :: 0 <= k < |s| ==>
        r[2 * k] == KeybdInput(0, Truncate16(s[k]), KEYEVENTF_UNICODE) &&
        r[2 * k + 1] == KeybdInput(0, Truncate16(s[k]), KEYEVENTF_UNICODE | KEYEVENTF_KEYUP)
  {
    var r := UnicodePairs(s);
    forall k | 0 <= k < |s|
      ensures r[2 * k] == KeybdInput(0, Truncate16(s[k]), KEYEVENTF_UNICODE)
      ensures r[2 * k + 1] == KeybdInput(0, Truncate16(s[k]), KEYEVENTF_UNICODE | KEYEVENTF_KEYUP)
    {
      assert r[2 * k..2 * k + 2] == UnicodePair(Truncate16(s[k]));
      assert r[2 * k] == r[2 * k..2 * k + 2][0];
      assert r[2 * k + 1] == r[2 * k..2 * k + 2][1];
    }
  }

  /**
   * KeyInput rejects a name exactly when it is not a table name, is all ASCII,
   * and is not a single character: the empty string and "foobar" among them.
   */
  lemma TapUnsupported(key: string, keyScan: bv16 -> bv16)
    ensures TapSequence(key, keyScan).None? <==>
      ToUpper(key) !in VKeys && !HasNonAscii(key) && |key| != 1
  {
    if ToUpper(key) in VKeys {
      NamedKeyTap(key, keyScan);
    } else if ByteLength(key) == 1 {
      SingleByte(key);
      OneByteTap(key, keyScan);
    } else if ByteLength(key) != |key| {
      ByteLengthCases(key);
      MultiByteTap(key, keyScan);
    } else {
      ByteLengthCases(key);
      PlainTextRejected(key, keyScan);
    }
  }

  /** A one-byte name that is not a table name is always accepted. */
  lemma OneByteTap(key: string, keyScan: bv16 -> bv16)
    requires ToUpper(key) !in VKeys && ByteLength(key) == 1
    ensures TapSequence(key, keyScan).Some?
  {
  }

  /** A name with more bytes than runes that is not a table name is always accepted. */
  lemma MultiByteTap(key: string, keyScan: bv16 -> bv16)
    requires ToUpper(key) !in VKeys && ByteLength(key) != 1 && ByteLength(key) != |key|
    ensures TapSequence(key, keyScan) == Some(UnicodePairs(key))
  {
  }

  /** Any other name is rejected. */
  lemma PlainTextRejected(key: string, keyScan: bv16 -> bv16)
    requires ToUpper(key) !in VKeys && ByteLength(key) != 1 && ByteLength(key) == |key|
    ensures TapSequence(key, keyScan).None?
  {
  }

  /** A sustained state for a table name is that key's virtual-key record. */
  lemma NamedKeyHold(key: string, press: bool, keyScan: bv16 -> bv16)
    requires ToUpper(key) in VKeys
    ensures HoldRecord(key, press, keyScan) == Some(VkRecord(VKeys[ToUpper(key)], press))
  {
  }

  /**
   * A sustained state exists exactly for a table name or a single ASCII
   * character VkKeyScanW maps; for the latter only the low byte is sent, so
   * the shift bit is dropped. There is no Unicode fallback: any name with a
   * non-ASCII rune that is not a table name is unsupported.
   */
  lemma HoldResolution(key: string, press: bool, keyScan: bv16 -> bv16)
    ensures ToUpper(key) !in VKeys ==>
      HoldRecord(key, press, keyScan) ==
        if |key| == 1 && IsAscii(key[0]) && keyScan(key[0] as int as bv16) != NoVirtualKey
        then Some(VkRecord(keyScan(key[0] as int as bv16) & 0xff, press))
        else None
    ensures ToUpper(key) !in VKeys && HasNonAscii(key) ==> HoldRecord(key, press, keyScan).None?
  {
    ByteLengthCases(key);
    SingleByte(key);
    if ToUpper(key) !in VKeys {
      if ByteLength(key) == 1 {
        OneByteHold(key, press, keyScan);
      } else {
        assert !(|key| == 1 && IsAscii(key[0]));
        OtherHold(key, press, keyScan);
      }
    }
  }

  /** A one-byte name that is not a table name holds the scanned key, if there is one. */
  lemma OneByteHold(key: string, press: bool, keyScan: bv16 -> bv16)
    requires ToUpper(key) !in VKeys && ByteLength(key) == 1
    ensures var vk := keyScan(FirstByte(key) as int as bv16);
      HoldRecord(key, press, keyScan) == if vk != NoVirtualKey then Some(VkRecord(vk & 0xff, press)) else None
  {
  }

  /** Any longer name that is not a table name has no sustained state. */
  lemma OtherHold(key: string, press: bool, keyScan: bv16 -> bv16)
    requires ToUpper(key) !in VKeys && ByteLength(key) != 1
    ensures HoldRecord(key, press, keyScan).None?
  {
  }
}
