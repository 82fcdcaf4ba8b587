/**
 * Mouse buttons of input_windows.go: the MOUSEINPUT flag for a button and a
 * direction, and the three ways the injector submits them (a click, a double
 * click and a single press or release).
 */
module Mouse {
  import opened Optional
  import opened Win32

  /** The three physical buttons the injector can drive. */
  datatype Button = Left | Middle | Right

  /** The button a client's button number selects: 1 and 2 name the middle and right buttons, any other number the left one. */
  function ButtonOf(button: int): (b: Button)
    ensures b == Middle <==> button == 1
    ensures b == Right <==> button == 2
  {
    if button == 1 then Middle else if button == 2 then Right else Left
  }

  /** mouseButtonFlag: the MOUSEEVENTF bit for pressing or releasing a button. */
  function MouseButtonFlag(button: int, press: bool): (f: bv32)
    ensures press <==> f in {MOUSEEVENTF_LEFTDOWN, MOUSEEVENTF_MIDDLEDOWN, MOUSEEVENTF_RIGHTDOWN}
    ensures button == 1 <==> f in {MOUSEEVENTF_MIDDLEDOWN, MOUSEEVENTF_MIDDLEUP}
    ensures button == 2 <==> f in {MOUSEEVENTF_RIGHTDOWN, MOUSEEVENTF_RIGHTUP}
  {
    if button == 1 then
      if press then MOUSEEVENTF_MIDDLEDOWN else MOUSEEVENTF_MIDDLEUP
    else if button == 2 then
      if press then MOUSEEVENTF_RIGHTDOWN else MOUSEEVENTF_RIGHTUP
    else
      if press then MOUSEEVENTF_LEFTDOWN else MOUSEEVENTF_LEFTUP
  }

  /** What a single-button MOUSEINPUT flag word means, as the receiving system reads it. */
  function FlagMeaning(f: bv32): (r: Option<(Button, bool)>)
    ensures r.Some? <==> f in {MOUSEEVENTF_LEFTDOWN, MOUSEEVENTF_LEFTUP, MOUSEEVENTF_MIDDLEDOWN,
                               MOUSEEVENTF_MIDDLEUP, MOUSEEVENTF_RIGHTDOWN, MOUSEEVENTF_RIGHTUP}
  {
    if f == MOUSEEVENTF_LEFTDOWN then Some((Left, true))
    else if f == MOUSEEVENTF_LEFTUP then Some((Left, false))
    else if f == MOUSEEVENTF_MIDDLEDOWN then Some((Middle, true))
    else if f == MOUSEEVENTF_MIDDLEUP then Some((Middle, false))
    else if f == MOUSEEVENTF_RIGHTDOWN then Some((Right, true))
    else if f == MOUSEEVENTF_RIGHTUP then Some((Right, false))
    else None
  }

  /** The flag always means the selected button moving in the requested direction. */
  lemma FlagMeansButton(button: int, press: bool)
    ensures FlagMeaning(MouseButtonFlag(button, press)) == Some((ButtonOf(button), press))
  {
  }

  /** Two requests give the same flag exactly when they select the same button and direction. */
  lemma FlagInjective(b1: int, p1: bool, b2: int, p2: bool)
    ensures MouseButtonFlag(b1, p1) == MouseButtonFlag(b2, p2) <==> ButtonOf(b1) == ButtonOf(b2) && p1 == p2
  {
    FlagMeansButton(b1, p1);
    FlagMeansButton(b2, p2);
  }

  /** The INPUT batch of `click`: the button's press followed by its release. */
  function ClickBatch(button: int): (r: seq<MouseInput>)
    ensures |r| == 2
    ensures FlagMeaning(r[0].dwFlags) == Some((ButtonOf(button), true))
    ensures FlagMeaning(r[1].dwFlags) == Some((ButtonOf(button), false))
  {
    FlagMeansButton(button, true);
    FlagMeansButton(button, false);
    [MouseInput(MouseButtonFlag(button, true)), MouseInput(MouseButtonFlag(button, false))]
  }

  /** click: one SendInput of the press and the release. */
  method Click(button: int, desktop: Desktop)
    modifies desktop`log
    ensures desktop.log == old(desktop.log) + [SendMouse(ClickBatch(button))]
  {
    var inputs := [MouseInput(MouseButtonFlag(button, true)), MouseInput(MouseButtonFlag(button, false))];
    desktop.SendMouseInput(inputs);
  }

  /** dblclick: two separate click batches, not one batch of four records. */
  method DblClick(button: int, desktop: Desktop)
    modifies desktop`log
    ensures desktop.log == old(desktop.log) + [SendMouse(ClickBatch(button)), SendMouse(ClickBatch(button))]
  {
    Click(button, desktop);
    Click(button, desktop);
  }

  /** buttonState: one SendInput holding the single press or release record. */
  method ButtonState(button: int, press: bool, desktop: Desktop)
    modifies desktop`log
    ensures desktop.log == old(desktop.log) + [SendMouse([MouseInput(MouseButtonFlag(button, press))])]
  {
    var inputs := [MouseInput(MouseButtonFlag(button, press))];
    desktop.SendMouseInput(inputs);
  }
}
