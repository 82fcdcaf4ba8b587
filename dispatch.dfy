/**
 * The decision logic of main.go: which input_windows.go operations one
 * decoded websocket message leads to, and in which order.
 *
 * A message becomes a list of `Call`s. A pointer move is the only call whose
 * result matters to the handler, so the handlers take that result as the
 * parameter `moved`: the value the move call returns when it is performed.
 */
module Dispatch {
  import opened Optional
  import opened Win32

  /** The `target` object of a message; JSON leaves an absent field zero or empty. */
  datatype Target = Target(kind: string, id: uint64)

  /** InputEvent, the decoded message. */
  datatype InputEvent = InputEvent(
    kind: string, action: string, target: Target,
    x: real, y: real, button: int,
    key: string)

  /** A call into the injector: moveW, moveD, click, buttonState, key or keyState. */
  datatype Call =
    | MoveWindow(x: real, y: real, hwnd: uint64)
    | MoveDisplay(x: real, y: real, display: uint64)
    | ClickButton(button: int)
    | SetButton(button: int, press: bool)
    | PressKey(key: string, metaKeys: int)
    | SetKey(key: string, press: bool)

  predicate IsMove(c: Call) {
    c.MoveWindow? || c.MoveDisplay?
  }

  predicate IsButtonAction(c: Call) {
    c.ClickButton? || c.SetButton?
  }

  predicate IsKeyAction(c: Call) {
    c.PressKey? || c.SetKey?
  }

  function ToList<T>(o: Option<T>): (r: seq<T>)
    ensures |r| <= 1 && (o.Some? <==> |r| == 1) && (o.Some? ==> r[0] == o.value)
  {
    if o.Some? then [o.value] else []
  }

  /** The pointer move a mouse message asks for: by window handle, by monitor index, or none. */
  function MoveCall(msg: InputEvent): (r: Option<Call>)
    ensures r.Some? <==> msg.target.kind == "window" || msg.target.kind == "monitor"
    ensures r.Some? ==> IsMove(r.value) && r.value.x == msg.x && r.value.y == msg.y
    ensures r == Some(MoveWindow(msg.x, msg.y, msg.target.id)) <==> msg.target.kind == "window"
    ensures r == Some(MoveDisplay(msg.x, msg.y, msg.target.id)) <==> msg.target.kind == "monitor"
  {
    if msg.target.kind == "window" then Some(MoveWindow(msg.x, msg.y, msg.target.id))
    else if msg.target.kind == "monitor" then Some(MoveDisplay(msg.x, msg.y, msg.target.id))
    else None
  }

  /** The button action a mouse message asks for, if any. */
  function ButtonCall(msg: InputEvent): (r: Option<Call>)
    ensures r == Some(ClickButton(msg.button)) <==> msg.action == "click"
    ensures r == Some(SetButton(msg.button, true)) <==> msg.action == "down" || msg.action == "mousedown"
    ensures r == Some(SetButton(msg.button, false)) <==> msg.action == "up" || msg.action == "mouseup"
    ensures r.None? <==> msg.action !in {"click", "down", "mousedown", "up", "mouseup"}
    ensures r.Some? ==> IsButtonAction(r.value)
  {
    if msg.action == "click" then Some(ClickButton(msg.button))
    else if msg.action == "down" || msg.action == "mousedown" then Some(SetButton(msg.button, true))
    else if msg.action == "up" || msg.action == "mouseup" then Some(SetButton(msg.button, false))
    else None
  }

  /**
   * handleMouse: the move, if the target names one; then, unless that move
   * failed, the button action.
   */
  function HandleMouse(msg: InputEvent, moved: bool): (calls: seq<Call>)
    ensures |calls| <= 2
    ensures MoveCall(msg).Some? ==> |calls| >= 1 && calls[0] == MoveCall(msg).value
    ensures forall i :: 0 <= i < |calls| ==> (IsMove(calls[i]) <==> i == 0 && MoveCall(msg).Some?)
    ensures forall i :: 0 <= i < |calls| ==> (IsMove(calls[i]) || IsButtonAction(calls[i]))
    ensures forall i, j :: 0 <= i < j < |calls| ==> !(IsButtonAction(calls[i]) && IsButtonAction(calls[j]))
  {
    var move := MoveCall(msg);
    if move.Some? && !moved then [move.value]
    else ToList(move) + ToList(ButtonCall(msg))
  }

  /** handkeKey: press taps the key, down and up hold or release it. */
  function HandleKey(msg: InputEvent): (calls: seq<Call>)
    ensures |calls| <= 1
    ensures calls == [PressKey(msg.key, 0)] <==> msg.action == "press"
    ensures calls == [SetKey(msg.key, true)] <==> msg.action == "down"
    ensures calls == [SetKey(msg.key, false)] <==> msg.action == "up"
    ensures calls == [] <==> msg.action !in {"press", "down", "up"}
  {
    if msg.action == "press" then [PressKey(msg.key, 0)]
    else if msg.action == "down" then [SetKey(msg.key, true)]
    else if msg.action == "up" then [SetKey(msg.key, false)]
    else []
  }

  /** The type switch of the message loop; `keyinput` is the -keyinput flag. */
  function Handle(msg: InputEvent, keyinput: bool, moved: bool): (calls: seq<Call>)
    ensures msg.kind != "mouse" && msg.kind != "key" ==> calls == []
    ensures !keyinput ==> forall c :: c in calls ==> !IsKeyAction(c)
    ensures msg.kind == "mouse" ==> forall c :: c in calls ==> !IsKeyAction(c)
    ensures msg.kind == "key" ==> forall c :: c in calls ==> IsKeyAction(c)
  {
    if msg.kind == "mouse" then HandleMouse(msg, moved)
    else if msg.kind == "key" then (if keyinput then HandleKey(msg) else [])
    else []
  }

  /** A move that reports failure ends the handling: no button action follows it. */
  lemma FailedMoveDropsButton(msg: InputEvent)
    requires msg.target.kind == "window" || msg.target.kind == "monitor"
    ensures HandleMouse(msg, false) == [MoveCall(msg).value]
  {
  }

  /** A successful move is followed by exactly the button action the message asks for. */
  lemma MoveThenButton(msg: InputEvent)
    requires msg.target.kind == "window" || msg.target.kind == "monitor"
    ensures HandleMouse(msg, true) == [MoveCall(msg).value] + ToList(ButtonCall(msg))
  {
  }

  /**
   * Any other target type, the empty one included, moves nothing but still
   * performs the button action, whatever a move would have returned.
   */
  lemma UnknownTargetStillActs(msg: InputEvent, moved: bool)
    requires msg.target.kind != "window" && msg.target.kind != "monitor"
    ensures HandleMouse(msg, moved) == ToList(ButtonCall(msg))
  {
  }

  /** "dblclick" is not a mouse action of the handler; a key handler ignores the mouse-only names. */
  lemma IgnoredActions(msg: InputEvent, moved: bool)
    ensures msg.action == "dblclick" ==> ButtonCall(msg).None?
    ensures msg.action == "mousedown" || msg.action == "mouseup" ==> HandleKey(msg) == []
  {
  }

  /**
   * The -keyinput flag changes nothing for mouse messages and switches key
   * messages between their handler and nothing.
   */
  lemma KeyInputGate(msg: InputEvent, moved: bool)
    ensures msg.kind == "mouse" ==> Handle(msg, true, moved) == Handle(msg, false, moved) == HandleMouse(msg, moved)
    ensures msg.kind == "key" ==> Handle(msg, true, moved) == HandleKey(msg) && Handle(msg, false, moved) == []
  {
  }
}
