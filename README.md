# inputproxy: a verified model of the Windows input injector

inputproxy receives mouse and keyboard events over a websocket and replays
them on a Windows desktop. This project models the part that decides what to
inject and how:

- the dispatch of a decoded `InputEvent` to the mouse or key handler, gated by
  the `-keyinput` flag (`Dispatch`);
- the key-sequence builder `keyseq`, which turns a key name into a batch of
  `KEYBDINPUT` records through the named-key table `vkeys`, `VkKeyScanW` and
  Unicode injection (`Keys`, with Go's byte/rune view of strings in
  `GoString`);
- mouse button flags and the `click`, `dblclick` and `buttonState` batches
  (`Mouse`);
- the monitor rectangles of `GetMonitorsRect` and the ten-second monitor cache
  used by `moveD` (`Monitors`);
- pointer positioning by `moveD` and `moveW` (`Pointer`);
- the random socket-path token `genRandom` (`Token`);
- worked end-to-end examples of the rules (`Scenarios`).

The operating system is a `Win32.Desktop` object. What user32 would answer
(`VkKeyScanW`, the display devices and their current settings,
`GetSystemMetrics`, `GetWindowRect`, the result of `SetCursorPos`) is held in
its fields. Every call that acts on the desktop (`SendInput`, `SetCursorPos`,
`SetForegroundWindow`) is appended to `Desktop.log` in call order, so a
method's contract states exactly which calls it makes. The clock is the
parameter `now` of `moveD`, and the random bytes are the parameter `r` of
`genRandom`.

Three behaviours of the code are worth knowing before reading the model:

- the multi-byte branch of `KeyInput` (input_windows.go:256-260) accepts any
  name with a non-ASCII rune, whatever its length;
- that branch sends each rune as `uint16(c)` (input_windows.go:258), so a rune
  above U+FFFF loses its high bits and is never split into a UTF-16 surrogate
  pair;
- `moveD` (input_windows.go:174-176) refreshes on age alone: a refresh that
  finds no devices stores the empty list, which is kept until the next
  refresh ten seconds later.

## Model

| member | source | states |
|---|---|---|
| Win32.Wrap32 | input_windows.go:108 | int32 conversion and overflow: a value in range is kept unchanged |
| Win32.Wrap32Congruent | input_windows.go:183-184 | a wrapped value differs from the exact one by a multiple of 2^32 |
| Win32.Desktop.SendKeyboardInput | input_windows.go:327-329 | SendInput of keyboard records appends exactly that batch to the log |
| Win32.Desktop.SendMouseInput | input_windows.go:214 | SendInput of mouse records appends exactly that batch to the log |
| Win32.Desktop.SetCursorPosition | input_windows.go:185 | SetCursorPos is logged, and its result is the desktop's answer for that position |
| Win32.Desktop.BringToFront | input_windows.go:193 | SetForegroundWindow is logged; its result is ignored |
| Win32.Desktop.GetWindowRect | input_windows.go:190 | succeeds exactly for known windows and returns that window's rectangle |
| GoString.RuneBytes | input_windows.go:250-256 | UTF-8 encoding of a rune: 1 to 4 bytes, one byte exactly for ASCII, which encodes as itself |
| GoString.RuneLength | input_windows.go:256 | the byte count of one rune is the length of its encoding |
| GoString.Bytes | input_windows.go:250-256 | the byte view of a Go string: never shorter than its rune count, and it starts with the first rune's first byte |
| GoString.ByteLength | input_windows.go:250 | `len(key)` is the length of the UTF-8 byte sequence |
| GoString.FirstByte | input_windows.go:251 | `key[0]` is the first byte of the encoding |
| GoString.ByteCount | input_windows.go:256 | byte length is at least the rune count, and differs from it exactly when some rune is non-ASCII |
| GoString.SingleByte | input_windows.go:250-251 | `len(key) == 1` exactly for one ASCII rune, and `key[0]` is then that rune |
| GoString.ByteLengthCases | input_windows.go:250-256 | ASCII names have as many bytes as runes; others have more bytes than runes and at least two; a single rune is non-ASCII exactly when the name is |
| GoString.UpperRune | input_windows.go:248 | the upper case of a rune is never a lower-case ASCII letter; ASCII stays ASCII; only U+017F and U+0131 turn into ASCII |
| GoString.ToUpper | input_windows.go:248 | strings.ToUpper keeps the number of runes |
| GoString.ToUpperPointwise | input_windows.go:248 | each rune of the result is the upper case of the rune at the same place |
| Keys.VkRecord | input_windows.go:296-308 | the `vk` record carries the code and no scan code, and is a key-up exactly when not a press |
| Keys.Truncate16 | input_windows.go:258 | `uint16(c)`: a rune below 0x10000 is kept as it is |
| Keys.UnicodePair | input_windows.go:310-325 | the `unicode` records: a Unicode press carrying the code, then its release |
| Keys.UnicodePairs | input_windows.go:256-260 | one press/release pair per rune, pair k for rune k, 2·(rune count) records |
| Keys.VkTap | input_windows.go:266-274 | a tap is four records with the shift bit set, two without |
| Keys.VkTapBalanced | input_windows.go:266-274 | a tap presses the low-byte key, after left Shift when the shift bit is set, and releases every pressed key in reverse order |
| Keys.TapSequence | input_windows.go:246-276 | every accepted name yields at least two records |
| Keys.HoldRecord | input_windows.go:278-294 | a sustained state has no scan code and is a key-up exactly when not a press |
| Keys.KeySeq.constructor | input_windows.go:332 | a new key sequence is empty |
| Keys.KeySeq.Vk | input_windows.go:296-308 | appends exactly the one `vk` record |
| Keys.KeySeq.Unicode | input_windows.go:310-325 | appends exactly the Unicode pair |
| Keys.KeySeq.UnicodeRunes | input_windows.go:257-259 | the rune loop appends the pairs of all runes in order |
| Keys.KeySeq.KeyInput | input_windows.go:246-276 | returns true exactly when the name resolves, and appends exactly its tap sequence then, nothing otherwise |
| Keys.KeySeq.Tap | input_windows.go:266-274 | appends exactly the shift-aware press and release of the code |
| Keys.KeySeq.KeyState | input_windows.go:278-294 | returns true exactly when a sustained state exists, and appends exactly that one record then, nothing otherwise |
| Keys.KeySeq.Send | input_windows.go:327-329 | submits the whole non-empty batch in one SendInput |
| Keys.SendKey | input_windows.go:331-336 | `key` submits one batch holding the tap sequence when the name resolves, and makes no call otherwise |
| Keys.SendKeyState | input_windows.go:338-343 | `keyState` submits the single record when it exists, and makes no call otherwise |
| Keys.UnicodePairsPrefix | input_windows.go:257-259 | one more rune of the loop appends exactly that rune's pair |
| Keys.UnicodePairsSnoc | input_windows.go:257-259 | the pairs of `s + [c]` are those of `s` followed by the pair of `c` |
| Keys.VKeys | input_windows.go:233-242 | the named-key table, entry for entry |
| Keys.TableCodes | input_windows.go:233-242 | every code in the table is below 0x100, so it has no shift bit |
| Keys.TableNameLengths | input_windows.go:233-242 | every table name has at least two runes, so no single character is a table name |
| Keys.LowByteCode | input_windows.go:266-274 | a code below 0x100 has no shift bit and is its own low byte |
| Keys.MetaNeverMatches | input_windows.go:233-248 | the table holds "Meta", but no upper-cased name equals it |
| Keys.MetaUnsupported | input_windows.go:246-264 | "meta" and "Meta" are both rejected |
| Keys.UpperMetaUnknown | input_windows.go:233-242 | "META" is not a table name |
| Keys.ShortNamesUnknown | input_windows.go:248-250 | no name of fewer than two runes is in the table |
| Keys.NamedKeyTap | input_windows.go:246-274 | a name found after upper-casing wins, and yields exactly the key's press and release |
| Keys.SingleCharacterTap | input_windows.go:250-274 | for a single ASCII character: a Unicode pair for 0xffff; Shift-bracketed low byte for a set shift bit; otherwise a plain press and release |
| Keys.SingleCharacterScanned | input_windows.go:250-255 | a single ASCII character goes to VkKeyScanW with its own code |
| Keys.NonAsciiTap | input_windows.go:256-260 | a non-table name with a non-ASCII rune yields 2·(rune count) records: pair k is the Unicode press and release of `uint16(rune k)` |
| Keys.UnicodePairsPointwise | input_windows.go:310-325 | record 2k of the pairs is the Unicode press of rune k, and record 2k + 1 is its release |
| Keys.TapUnsupported | input_windows.go:246-264 | a name is rejected exactly when it is not a table name, is all ASCII, and is not one character |
| Keys.OneByteTap | input_windows.go:250-255 | a one-byte non-table name is always accepted |
| Keys.MultiByteTap | input_windows.go:256-260 | a non-table name with more bytes than runes yields its Unicode pairs |
| Keys.PlainTextRejected | input_windows.go:261-264 | any other name is rejected |
| Keys.NamedKeyHold | input_windows.go:278-281 | a table name holds exactly that key's record |
| Keys.HoldResolution | input_windows.go:278-291 | outside the table, a sustained state exists exactly for one ASCII character with a virtual key, sent as its low byte; a non-ASCII name never has one |
| Keys.OneByteHold | input_windows.go:282-287 | a one-byte non-table name holds the scanned low byte, or nothing for 0xffff |
| Keys.OtherHold | input_windows.go:288-291 | any longer non-table name has no sustained state |
| Monitors.Sub | input_windows.go:174 | time.Time.Sub: the exact difference, saturated to the int64 range of time.Duration |
| Monitors.Stale | input_windows.go:174 | `Seconds() > 10` on the saturated difference holds exactly when strictly more than ten seconds have passed |
| Monitors.FirstLookupRefreshes | input_windows.go:166-176 | a new cache holds the zero time, so a lookup at any clock reading more than ten seconds past it enumerates |
| Monitors.DeviceRect | input_windows.go:107-115 | a device that is not attached, or has no settings, gives (0, 0, screen width, screen height); otherwise the rectangle starts at the mode's position |
| Monitors.DeviceRectCorner | input_windows.go:108 | right and bottom are position plus size, modulo 2^32 |
| Monitors.SumWraps | input_windows.go:108 | `x + int32(n)` in int32 arithmetic is x + n modulo 2^32 |
| Monitors.DeviceRectExact | input_windows.go:108 | without overflow the rectangle is exactly (X, Y, X+width, Y+height) |
| Monitors.GetMonitorsRect | input_windows.go:102-118 | one rectangle per enumerated device, in enumeration order |
| Monitors.MonitorCache.constructor | input_windows.go:166-167 | the cache starts empty, at the zero time |
| Monitors.MonitorCache.Resolve | input_windows.go:170-182 | re-enumerates exactly when stale, stamping `now`, and otherwise keeps both globals; an index is found exactly when it is in range |
| Pointer.Truncate | input_windows.go:183 | float-to-integer conversion truncates toward zero |
| Pointer.Offset | input_windows.go:183 | `int32(f*float64(extent))`: a product in [0, 2^31) is truncated without wrap-around, and 0 gives 0 |
| Pointer.ScaleAxis | input_windows.go:183-184 | `lo + int32(f*float64(hi-lo))`: a fraction of 0 gives the low edge |
| Pointer.ScalePoint | input_windows.go:194-195 | the target pixel of moveD and moveW: fractions of 0 give the rectangle's left and top edges |
| Pointer.OffsetWithin | input_windows.go:183-184 | a fraction in [0, 1] of a non-negative extent lies in [0, extent]; 0 gives 0 and 1 gives the extent |
| Pointer.OffsetOf | input_windows.go:183 | the offset is the wrapped truncation of the product |
| Pointer.FractionBounds | input_windows.go:183 | a fraction in [0, 1] of w lies between 0 and w |
| Pointer.TruncateWithin | input_windows.go:183 | truncating a value in [0, n] stays in [0, n] and keeps both ends |
| Pointer.ScaleWithin | input_windows.go:183-184 | for a fraction in [0, 1] the coordinate stays between the rectangle's edges; 0 and 1 hit the edges |
| Pointer.CentreOfFullHd | input_windows.go:183-184 | (0.5, 0.5) on a 1920x1080 monitor at the origin is (960, 540) |
| Pointer.MoveD | input_windows.go:170-186 | an out-of-range display makes no call and returns false; otherwise it makes exactly one SetCursorPos at the scaled point and returns its result; the cache follows Resolve |
| Pointer.MoveW | input_windows.go:188-197 | an unknown window makes no call and returns false; otherwise it calls SetForegroundWindow, then SetCursorPos at the scaled point, and returns its result |
| Mouse.ButtonOf | input_windows.go:144-164 | 1 selects the middle button, 2 the right one, any other number the left one |
| Mouse.MouseButtonFlag | input_windows.go:144-164 | the flag is a DOWN flag exactly when pressing, a MIDDLE flag exactly for 1, and a RIGHT flag exactly for 2 |
| Mouse.FlagMeaning | input_windows.go:144-164 | exactly the six button flags have a meaning |
| Mouse.FlagMeansButton | input_windows.go:144-164 | the flag always means the selected button moving in the requested direction |
| Mouse.FlagInjective | input_windows.go:144-164 | two requests give the same flag exactly when they select the same button and direction |
| Mouse.ClickBatch | input_windows.go:199-215 | a click is two records: the button's press, then its release |
| Mouse.Click | input_windows.go:199-215 | `click` is one SendInput of the press and release |
| Mouse.DblClick | input_windows.go:216-219 | `dblclick` is two separate click batches |
| Mouse.ButtonState | input_windows.go:221-231 | `buttonState` is one SendInput of a single record |
| Token.LetterIndex | main.go:23 | a character's place in the alphabet, or -1 |
| Token.DigitsAscending | main.go:23 | the digits appear in code order |
| Token.UpperAscending | main.go:23 | the upper-case letters appear in code order |
| Token.LowerAscending | main.go:23 | the lower-case letters appear in code order |
| Token.AlphabetDecodes | main.go:23 | the alphabet has 64 characters, and LetterIndex inverts indexing into it |
| Token.AlphabetDistinct | main.go:23 | two places hold the same character exactly when they are the same place |
| Token.GenRandom | main.go:22-33 | n characters; character i is `letters[r[i] % 64]`, lies in the alphabet, and gives back `r[i] % 64` |
| Dispatch.MoveCall | main.go:61-69 | "window" asks for moveW and "monitor" for moveD, with the message's coordinates and id; any other target asks for no move |
| Dispatch.ButtonCall | main.go:70-76 | "click" clicks, "down"/"mousedown" press, "up"/"mouseup" release, and any other action does nothing |
| Dispatch.HandleMouse | main.go:60-77 | at most two calls: the move first, if any, and only there; then at most one button action |
| Dispatch.HandleKey | main.go:79-87 | "press" taps, "down" holds, "up" releases, and any other action does nothing |
| Dispatch.Handle | main.go:110-119 | other message types do nothing; key calls come only from key messages and only with the flag set |
| Dispatch.FailedMoveDropsButton | main.go:60-69 | a failed move ends the handling before any button action |
| Dispatch.MoveThenButton | main.go:60-76 | a successful move is followed by exactly the requested button action |
| Dispatch.UnknownTargetStillActs | main.go:60-76 | any other target, including an absent one, moves nothing but still performs the button action |
| Dispatch.IgnoredActions | main.go:70-87 | "dblclick" is no mouse action, and "mousedown"/"mouseup" are no key actions |
| Dispatch.KeyInputGate | main.go:110-119 | the flag never changes mouse handling, and switches key messages between their handler and nothing |
| Scenarios.RightClickAtMonitorCentre | main.go:60-76 | a right click at monitor 0 dispatches the move and then the click, which is right-down then right-up; a failed move drops the click |
| Scenarios.RightClickOnDesktop | main.go:60-76 | on a desktop with one 1920x1080 monitor and a new cache, the click message logs SetCursorPos(960, 540) and, when that succeeds, the right button's press and release |
| Scenarios.PressF5 | input_windows.go:246-274 | "F5" taps F5 with key input on, and does nothing with it off |
| Scenarios.TableEntry | input_windows.go:233-242 | "F5", "ENTER" and "SHIFT" map to their virtual keys |
| Scenarios.LowerCaseName | input_windows.go:248 | "enter" resolves to ENTER |
| Scenarios.LongSName | input_windows.go:248 | "ſhift" resolves to SHIFT through its upper case |
| Scenarios.UnsupportedWord | input_windows.go:261-264 | "foobar" is rejected |
| Scenarios.UnknownWord | input_windows.go:233-242 | "FOOBAR" is not a table name |
| Scenarios.UnsupportedEmpty | input_windows.go:261-264 | the empty name is rejected |
| Scenarios.AccentedLetter | input_windows.go:256-260 | "é" becomes one Unicode pair carrying 0xE9 |
| Scenarios.AccentedPairs | input_windows.go:256-260 | the pairs of "é" are the press and release of 0xE9 |
| Scenarios.AccentCode | input_windows.go:258 | `uint16('é')` is 0xE9 |
| Scenarios.SupplementaryRune | input_windows.go:256-260 | "\U{1F600}" (four bytes) becomes one Unicode pair carrying 0xF600, not a UTF-16 surrogate pair |
| Scenarios.SupplementaryCode | input_windows.go:258 | `uint16(c)` of U+1F600 is 0xF600: the bits above the low 16 are dropped |

## Left out

- Floating point: coordinates are exact reals, and the rounding of
  `x*float64(w)` is not modelled. For a product outside the int32 range the
  model truncates and then wraps modulo 2^32. Go's result there is
  platform-specific, so what Pointer.MoveD and Pointer.MoveW state for such
  inputs is the model's choice.
- Keys.Truncate16: its contract states only that a rune below U+10000 is
  kept. For higher runes, the low-16-bit truncation is shown on U+1F600
  (Scenarios.SupplementaryRune); a general statement is not proved.
- Pointer.OffsetWithin and Pointer.ScaleWithin: proved only for fractions in
  [0, 1] and rectangles whose width fits in int32. Other inputs are modelled,
  but nothing is stated about them.
- GoString.ToUpper: only the runes that matter to the table lookup are mapped
  (ASCII letters, U+017F and U+0131). Every other rune is kept as it is. Go
  maps some of them to other non-ASCII runes, which can never equal an ASCII
  table name.
- Monitors.GetMonitorsRect: the device enumeration is the finite sequence
  `Desktop.devices`; EnumDisplayDevicesW failing ends it.
- The `DISPLAY_DEVICE` and `DEVMODEW` memory layouts and the syscall
  wrappers: only the fields the code reads are kept.
- `monitorMutex`: the cache is single-threaded, so concurrent `moveD` calls
  are not modelled.
- The DPI-awareness `init`: process setup only.
- `GetMonitorsRect2` and its callback: unused, and based on unsafe pointers.
- `log.Printf`/`log.Println` output ("monitors", "Unsupported Key").
- The websocket and HTTP loop, JSON decoding and flag parsing. Messages are
  given decoded, and `-keyinput` is a parameter.
- `crypto/rand`: Token.GenRandom takes the n random bytes as a parameter and
  requires exactly n of them. The read error that makes `genRandom` panic is
  not modelled.
- The clock: `time.Now()` is the parameter `now`, in nanoseconds.
- Pointer.MoveD: `now` may be any integer, so a first call at a reading within
  ten seconds of the zero time would not enumerate. A real clock reading is
  far past the zero time; Monitors.FirstLookupRefreshes states the first
  lookup's refresh for such readings.
- The `metaKeys` argument of `key`: the source never reads it.
- input_robotgo.go, the non-Windows backend, is not part of this model.
