/**
 * Irrlicht's SDL2 device as the engine builds it: window creation with its
 * OpenGL fallbacks, the event pump that turns SDL events into Irrlicht
 * events and window flags, the joystick poll that follows it, and the
 * window controls.
 *
 * SDL is not part of this model.  Whatever SDL answers (the events in its
 * queue, whether a window can be created with given attributes, window
 * sizes, pixel formats, joystick readings) arrives as parameters, and every
 * event the device posts to its receiver is appended to a log.
 */
module SdlEvents {
  import opened Wrappers
  import opened SdlKeyMap

  // ---------------------------------------------------------------------
  // Events in and out
  // ---------------------------------------------------------------------

  /**
   * The window events the device tells apart.  A resize carries the size
   * SDL reports when the device then asks for it (the window size, or the
   * GL drawable size when there is a GL context).
   */
  datatype WindowEventKind =
    | Shown | Hidden | Exposed | Moved
    | Resized(reportedWidth: int, reportedHeight: int)
    | SizeChanged(reportedWidth: int, reportedHeight: int)
    | Minimized | Maximized | Restored | Enter | Leave
    | FocusGained | FocusLost | CloseRequested
    | UnknownWindowEvent

  /**
   * An SDL event as the device reads it.  Key events carry their modifier
   * state already decoded; a text event carries the value of the first
   * byte of its text, as the platform's signed `char` reads it; `Unhandled` stands for every event the device only logs.
   */
  datatype SdlEvent =
    | Quit | AppTerminating | AppLowMemory
    | AppWillEnterBackground | AppDidEnterBackground
    | AppWillEnterForeground | AppDidEnterForeground
    | WindowEvent(kind: WindowEventKind)
    | KeyDown(sym: int, shift: bool, control: bool)
    | KeyUp(sym: int, shift: bool, control: bool)
    | TextInput(firstChar: int)
    | MouseMotion(which: bv32, x: int, y: int, state: bv32)
    | MouseButtonDown(which: bv32, x: int, y: int, button: int, clicks: int)
    | MouseButtonUp(which: bv32, x: int, y: int, button: int)
    | MouseWheel(which: bv32, wheelX: int, wheelY: int, direction: int)
    | UserEvent
    | Unhandled

  /** Irrlicht's mouse input events. */
  datatype MouseEventKind =
    | LMousePressedDown | RMousePressedDown | MMousePressedDown
    | LMouseLeftUp | RMouseLeftUp | MMouseLeftUp
    | MouseMoved
    | LMouseDoubleClick | RMouseDoubleClick | MMouseDoubleClick
    | LMouseTripleClick | RMouseTripleClick | MMouseTripleClick

  /**
   * An event posted to the receiver.  A mouse event whose kind the device
   * never sets carries None: SEvent is not initialised, so the field holds
   * whatever the stack held.
   */
  datatype IrrEvent =
    | KeyInput(character: int, key: IrrKey, pressedDown: bool, shift: bool, control: bool)
    | MouseInput(event: Option<MouseEventKind>, x: int, y: int, buttonStates: bv32)
    | MouseWheelInput(x: int, y: int, buttonStates: bv32, wheel: int)
    | JoystickInput(joystick: int, pressedButtons: set<nat>, axes: seq<int>, pov: int)
    | UserInput

  /**
   * A conversion to `wchar_t`, which is 16 bits wide and unsigned on the
   * Win32 ABI the Xbox build uses: the value is taken modulo 2^16.
   */
  function WChar(v: int): (c: int)
    ensures 0 <= c < 0x1_0000
    ensures 0 <= v < 0x1_0000 ==> c == v
    ensures (v - c) % 0x1_0000 == 0
  {
    v % 0x1_0000
  }

  /** The mouse id SDL gives events synthesised from touches, (Uint32)-1. */
  const SDL_TOUCH_MOUSEID: bv32 := 0xFFFF_FFFF

  // ---------------------------------------------------------------------
  // Mouse buttons
  // ---------------------------------------------------------------------

  const SDL_BUTTON_LEFT := 1
  const SDL_BUTTON_MIDDLE := 2
  const SDL_BUTTON_RIGHT := 3

  // SDL's button state mask: bit (button - 1).
  const SDL_BUTTON_LMASK: bv32 := 0x01
  const SDL_BUTTON_MMASK: bv32 := 0x02
  const SDL_BUTTON_RMASK: bv32 := 0x04
  const SDL_BUTTON_X1MASK: bv32 := 0x08
  const SDL_BUTTON_X2MASK: bv32 := 0x10

  // Irrlicht's button state mask; right and middle sit the other way round.
  const EMBSM_LEFT: bv32 := 0x01
  const EMBSM_RIGHT: bv32 := 0x02
  const EMBSM_MIDDLE: bv32 := 0x04
  const EMBSM_EXTRA1: bv32 := 0x08
  const EMBSM_EXTRA2: bv32 := 0x10

  /** The five button bits, in either mask. */
  const FIVE_BUTTONS: bv32 := 0x1F

  /** Irrlicht's button states for an SDL motion state, one button at a time. */
  function ButtonStatesFromMask(state: bv32): bv32 {
    (if state & SDL_BUTTON_LMASK != 0 then EMBSM_LEFT else 0)
    | (if state & SDL_BUTTON_MMASK != 0 then EMBSM_MIDDLE else 0)
    | (if state & SDL_BUTTON_RMASK != 0 then EMBSM_RIGHT else 0)
    | (if state & SDL_BUTTON_X1MASK != 0 then EMBSM_EXTRA1 else 0)
    | (if state & SDL_BUTTON_X2MASK != 0 then EMBSM_EXTRA2 else 0)
  }

  /** SDL's mask for Irrlicht's button states: the reverse translation. */
  function MaskFromButtonStates(states: bv32): bv32 {
    (if states & EMBSM_LEFT != 0 then SDL_BUTTON_LMASK else 0)
    | (if states & EMBSM_MIDDLE != 0 then SDL_BUTTON_MMASK else 0)
    | (if states & EMBSM_RIGHT != 0 then SDL_BUTTON_RMASK else 0)
    | (if states & EMBSM_EXTRA1 != 0 then SDL_BUTTON_X1MASK else 0)
    | (if states & EMBSM_EXTRA2 != 0 then SDL_BUTTON_X2MASK else 0)
  }

  /** Only the five button bits count, and they come back through the reverse translation. */
  lemma ButtonStatesRoundTrip(state: bv32)
    ensures ButtonStatesFromMask(state) == ButtonStatesFromMask(state & FIVE_BUTTONS)
    ensures ButtonStatesFromMask(state) & !FIVE_BUTTONS == 0
    ensures MaskFromButtonStates(ButtonStatesFromMask(state)) == state & FIVE_BUTTONS
  {
  }

  /** The event a button press with a click count makes; None when the device leaves it unset. */
  function ClickEvent(button: int, clicks: int): (r: Option<MouseEventKind>)
    ensures r.Some? <==> button in {SDL_BUTTON_LEFT, SDL_BUTTON_MIDDLE, SDL_BUTTON_RIGHT} && clicks in {1, 2, 3}
  {
    if button == SDL_BUTTON_LEFT then
      if clicks == 1 then Some(LMousePressedDown)
      else if clicks == 2 then Some(LMouseDoubleClick)
      else if clicks == 3 then Some(LMouseTripleClick)
      else None
    else if button == SDL_BUTTON_RIGHT then
      if clicks == 1 then Some(RMousePressedDown)
      else if clicks == 2 then Some(RMouseDoubleClick)
      else if clicks == 3 then Some(RMouseTripleClick)
      else None
    else if button == SDL_BUTTON_MIDDLE then
      if clicks == 1 then Some(MMousePressedDown)
      else if clicks == 2 then Some(MMouseDoubleClick)
      else if clicks == 3 then Some(MMouseTripleClick)
      else None
    else None
  }

  /** The event a button release makes; None when the device leaves it unset. */
  function ReleaseEvent(button: int): (r: Option<MouseEventKind>)
    ensures r.Some? <==> button in {SDL_BUTTON_LEFT, SDL_BUTTON_MIDDLE, SDL_BUTTON_RIGHT}
  {
    if button == SDL_BUTTON_LEFT then Some(LMouseLeftUp)
    else if button == SDL_BUTTON_RIGHT then Some(RMouseLeftUp)
    else if button == SDL_BUTTON_MIDDLE then Some(MMouseLeftUp)
    else None
  }

  /** The SDL button and click count behind a press event, and the button behind a release. */
  function PressOf(k: MouseEventKind): (int, int) {
    match k
    case LMousePressedDown => (SDL_BUTTON_LEFT, 1)
    case LMouseDoubleClick => (SDL_BUTTON_LEFT, 2)
    case LMouseTripleClick => (SDL_BUTTON_LEFT, 3)
    case RMousePressedDown => (SDL_BUTTON_RIGHT, 1)
    case RMouseDoubleClick => (SDL_BUTTON_RIGHT, 2)
    case RMouseTripleClick => (SDL_BUTTON_RIGHT, 3)
    case MMousePressedDown => (SDL_BUTTON_MIDDLE, 1)
    case MMouseDoubleClick => (SDL_BUTTON_MIDDLE, 2)
    case MMouseTripleClick => (SDL_BUTTON_MIDDLE, 3)
    case LMouseLeftUp => (SDL_BUTTON_LEFT, 0)
    case RMouseLeftUp => (SDL_BUTTON_RIGHT, 0)
    case MMouseLeftUp => (SDL_BUTTON_MIDDLE, 0)
    case MouseMoved => (0, 0)
  }

  /** Each press event names exactly one button and click count, and each release one button. */
  lemma ClickEventsDistinct(button: int, clicks: int)
    ensures ClickEvent(button, clicks).Some? ==> PressOf(ClickEvent(button, clicks).value) == (button, clicks)
    ensures ReleaseEvent(button).Some? ==> PressOf(ReleaseEvent(button).value) == (button, 0)
  {
  }

  // ---------------------------------------------------------------------
  // Joystick hat and buttons
  // ---------------------------------------------------------------------

  // SDL's hat positions: a bit per direction.
  const SDL_HAT_CENTERED := 0
  const SDL_HAT_UP := 1
  const SDL_HAT_RIGHT := 2
  const SDL_HAT_DOWN := 4
  const SDL_HAT_LEFT := 8
  const SDL_HAT_RIGHTUP := 3
  const SDL_HAT_RIGHTDOWN := 6
  const SDL_HAT_LEFTUP := 9
  const SDL_HAT_LEFTDOWN := 12

  /** Irrlicht's POV for a centred or absent hat. */
  const POV_CENTRED := 65535

  /** The eight hat directions, clockwise from up. */
  const HatDirections: seq<int> :=
    [SDL_HAT_UP, SDL_HAT_RIGHTUP, SDL_HAT_RIGHT, SDL_HAT_RIGHTDOWN,
     SDL_HAT_DOWN, SDL_HAT_LEFTDOWN, SDL_HAT_LEFT, SDL_HAT_LEFTUP]

  /** The POV angle, in hundredths of a degree clockwise from up, for a hat position. */
  function HatToPov(hat: int): int {
    if hat == SDL_HAT_UP then 0
    else if hat == SDL_HAT_RIGHTUP then 4500
    else if hat == SDL_HAT_RIGHT then 9000
    else if hat == SDL_HAT_RIGHTDOWN then 13500
    else if hat == SDL_HAT_DOWN then 18000
    else if hat == SDL_HAT_LEFTDOWN then 22500
    else if hat == SDL_HAT_LEFT then 27000
    else if hat == SDL_HAT_LEFTUP then 31500
    else POV_CENTRED
  }

  /** The hat position for a POV angle: the inverse of HatToPov. */
  function PovToHat(pov: int): int {
    if pov == 65535 || pov < 0 || pov >= 36000 || pov % 4500 != 0 then SDL_HAT_CENTERED
    else HatDirections[pov / 4500]
  }

  /**
   * The k-th direction clockwise from up gets the angle 4500 k, and every
   * other hat position (centred, or a combination SDL does not report)
   * gets the centred value.
   */
  lemma HatToPovAngles(hat: int)
    ensures forall k :: 0 <= k < 8 ==> HatToPov(HatDirections[k]) == 4500 * k
    ensures hat !in HatDirections <==> HatToPov(hat) == POV_CENTRED
  {
  }

  /** Directions and angles convert into each other without loss. */
  lemma HatPovRoundTrip(hat: int, pov: int)
    ensures hat in HatDirections ==> PovToHat(HatToPov(hat)) == hat
    ensures 0 <= pov < 36000 && pov % 4500 == 0 ==> HatToPov(PovToHat(pov)) == pov
  {
  }

  /** One joystick's readings: its buttons, its axes, its number of hats and the first hat. */
  datatype JoystickState = JoystickState(buttons: seq<bool>, axes: seq<int>, hats: nat, hat: int)

  /** Irrlicht's number of axes per joystick event. */
  const NUMBER_OF_AXES := 6

  function Min(a: int, b: int): int {
    if a < b then a else b
  }

  /** The pressed buttons among the first 32: the bits of the joystick event's mask. */
  function ButtonBits(buttons: seq<bool>): set<nat> {
    set j: nat | j < Min(|buttons|, 32) && buttons[j]
  }

  /** The six axis values: those the joystick has, then zeros. */
  function AxisValues(axes: seq<int>): (r: seq<int>)
    ensures |r| == NUMBER_OF_AXES
  {
    seq(NUMBER_OF_AXES, j requires 0 <= j < NUMBER_OF_AXES => if j < |axes| then axes[j] else 0)
  }

  /** The event posted for the i-th joystick. */
  function JoystickEventFor(i: nat, js: JoystickState): IrrEvent {
    JoystickInput(i % 256, ButtonBits(js.buttons), AxisValues(js.axes),
                  if js.hats > 0 then HatToPov(js.hat) else POV_CENTRED)
  }

  /** The events posted for all joysticks from the i-th on. */
  function JoystickEventsFrom(joysticks: seq<JoystickState>, i: nat): (r: seq<IrrEvent>)
    requires i <= |joysticks|
    ensures |r| == |joysticks| - i
    ensures forall k :: 0 <= k < |r| ==> r[k] == JoystickEventFor(i + k, joysticks[i + k])
    decreases |joysticks| - i
  {
    if i == |joysticks| then [] else [JoystickEventFor(i, joysticks[i])] + JoystickEventsFrom(joysticks, i + 1)
  }

  /** The joystick event's button mask: bit j for each pressed button j below 32 and below the button count. */
  method JoystickButtonMask(buttons: seq<bool>) returns (mask: set<nat>)
    ensures forall j: nat :: j in mask <==> j < 32 && j < |buttons| && buttons[j]
    ensures mask == ButtonBits(buttons)
  {
    var numButtons := Min(|buttons|, 32);
    mask := {};
    var j := 0;
    while j < numButtons
      invariant 0 <= j <= numButtons
      invariant forall b: nat :: b in mask <==> b < j && buttons[b]
    {
      if buttons[j] {
        mask := mask + {j};
      }
      j := j + 1;
    }
  }

  /** The joystick event's axes: the first six readings, zero where the joystick has fewer. */
  method JoystickAxes(axes: seq<int>) returns (values: seq<int>)
    ensures values == AxisValues(axes)
  {
    var numAxes := Min(|axes|, NUMBER_OF_AXES);
    values := [0, 0, 0, 0, 0, 0];
    var j := 0;
    while j < numAxes
      invariant 0 <= j <= numAxes && |values| == NUMBER_OF_AXES
      invariant forall k :: 0 <= k < NUMBER_OF_AXES ==> values[k] == if k < j then axes[k] else 0
    {
      values := values[j := axes[j]];
      j := j + 1;
    }
  }

  // ---------------------------------------------------------------------
  // Window size and colour format
  // ---------------------------------------------------------------------

  /** The size a window is created with: 640 x 480 unless both requested dimensions are positive. */
  function CreationSize(requestedWidth: int, requestedHeight: int): (size: (int, int))
    ensures size.0 > 0 && size.1 > 0
    ensures requestedWidth > 0 && requestedHeight > 0 ==> size == (requestedWidth, requestedHeight)
    ensures !(requestedWidth > 0 && requestedHeight > 0) ==> size == (640, 480)
  {
    if requestedWidth > 0 && requestedHeight > 0 then (requestedWidth, requestedHeight) else (640, 480)
  }

  /** A window's pixel format, as SDL_BITSPERPIXEL and SDL_ISPIXELFORMAT_ALPHA read it. */
  datatype PixelFormat = PixelFormat(bitsPerPixel: nat, hasAlpha: bool)

  /** Irrlicht's colour formats. */
  datatype ColorFormat = A1R5G5B5 | R5G6B5 | R8G8B8 | A8R8G8B8 | OtherFormat

  function FormatBits(f: ColorFormat): nat {
    match f
    case A1R5G5B5 => 16
    case R5G6B5 => 16
    case R8G8B8 => 24
    case A8R8G8B8 => 32
    case OtherFormat => 0
  }

  predicate FormatHasAlpha(f: ColorFormat) {
    f == A1R5G5B5 || f == A8R8G8B8
  }

  /**
   * getColorFormat: with a window, a 16-bit format below 24 bits per pixel
   * and an 8-bit-per-channel one otherwise, with alpha exactly when the
   * window's format has it; without a window, the default device's answer.
   */
  function ColorFormatFor(window: Option<PixelFormat>, stubFormat: ColorFormat): (r: ColorFormat)
    ensures window.None? ==> r == stubFormat
    ensures window.Some? ==> FormatHasAlpha(r) == window.value.hasAlpha
    ensures window.Some? ==> (FormatBits(r) == 16 <==> window.value.bitsPerPixel < 24)
    ensures window.Some? ==> FormatBits(r) >= 16
  {
    if window.Some? then
      if window.value.bitsPerPixel < 24 then
        if window.value.hasAlpha then A1R5G5B5 else R5G6B5
      else
        if window.value.hasAlpha then A8R8G8B8 else R8G8B8
    else stubFormat
  }

  /** The width and height after SDL reports a size: a non-positive dimension keeps the old one. */
  function Resize(width: int, height: int, reportedWidth: int, reportedHeight: int): (r: (int, int))
    ensures r.0 == (if reportedWidth > 0 then reportedWidth else width)
    ensures r.1 == (if reportedHeight > 0 then reportedHeight else height)
  {
    (if reportedWidth > 0 then reportedWidth else width, if reportedHeight > 0 then reportedHeight else height)
  }

  /** A positive size stays positive whatever SDL reports. */
  lemma ResizeKeepsPositive(width: int, height: int, reportedWidth: int, reportedHeight: int)
    requires width > 0 && height > 0
    ensures Resize(width, height, reportedWidth, reportedHeight).0 > 0
    ensures Resize(width, height, reportedWidth, reportedHeight).1 > 0
    ensures Resize(width, height, width, height) == (width, height)
  {
  }

  // ---------------------------------------------------------------------
  // One event
  // ---------------------------------------------------------------------

  /** The device fields the event pump reads and changes; it only reads the key table. */
  datatype DevState = DevState(close: bool, focus: bool, minimized: bool,
                               mouseX: int, mouseY: int, buttons: bv32,
                               width: int, height: int, keys: seq<KeyEntry>)

  /** What handling one event leaves: the fields, the pending-key flag, the events posted. */
  datatype StepResult = StepResult(st: DevState, kHandled: bool, posted: seq<IrrEvent>)

  /** The events that set Close and end the pump at once. */
  predicate IsCloseEvent(e: SdlEvent) {
    e == Quit || e == AppTerminating || e == WindowEvent(CloseRequested)
  }

  predicate IsKeyEvent(e: SdlEvent) {
    e.KeyDown? || e.KeyUp? || e.TextInput?
  }

  predicate IsMouseEvent(e: SdlEvent) {
    e.MouseMotion? || e.MouseButtonDown? || e.MouseButtonUp? || e.MouseWheel?
  }

  /** A mouse event SDL synthesised from a touch. */
  predicate FromTouch(e: SdlEvent) {
    IsMouseEvent(e) && e.which == SDL_TOUCH_MOUSEID
  }

  /** The window flags and size after a window event. */
  function WindowStep(st: DevState, kind: WindowEventKind): DevState {
    match kind
    case Shown => st.(minimized := false)
    case Exposed => st.(minimized := false)
    case Maximized => st.(minimized := false)
    case Restored => st.(minimized := false)
    case Hidden => st.(minimized := true)
    case Minimized => st.(minimized := true)
    case Resized(w, h) =>
      var size := Resize(st.width, st.height, w, h); st.(width := size.0, height := size.1)
    case SizeChanged(w, h) =>
      var size := Resize(st.width, st.height, w, h); st.(width := size.0, height := size.1)
    case FocusGained => st.(focus := true)
    case FocusLost => st.(focus := false)
    case CloseRequested => st.(close := true)
    case Moved => st
    case Enter => st
    case Leave => st
    case UnknownWindowEvent => st
  }

  /**
   * One pass through the event switch of `run`, with the wheel handler
   * corrected: it keeps the pointer where it is and reports the vertical
   * wheel amount.
   */
  function Step(st: DevState, kHandled: bool, e: SdlEvent): StepResult {
    match e
    case Quit => StepResult(st.(close := true), kHandled, [])
    case AppTerminating => StepResult(st.(close := true), kHandled, [])
    case AppLowMemory => StepResult(st, kHandled, [])
    case AppWillEnterBackground => StepResult(st.(focus := false, minimized := true), kHandled, [])
    case AppDidEnterBackground => StepResult(st.(focus := false, minimized := true), kHandled, [])
    case AppWillEnterForeground => StepResult(st.(focus := true, minimized := false), kHandled, [])
    case AppDidEnterForeground => StepResult(st.(focus := true, minimized := false), kHandled, [])
    case WindowEvent(kind) => StepResult(WindowStep(st, kind), kHandled, [])
    case KeyDown(_, _, _) => KeyStep(st, kHandled, e)
    case KeyUp(_, _, _) => KeyStep(st, kHandled, e)
    case TextInput(_) => KeyStep(st, kHandled, e)
    case MouseMotion(_, _, _, _) => MouseStep(st, kHandled, e)
    case MouseButtonDown(_, _, _, _, _) => MouseStep(st, kHandled, e)
    case MouseButtonUp(_, _, _, _) => MouseStep(st, kHandled, e)
    case MouseWheel(_, _, _, _) => MouseStep(st, kHandled, e)
    case UserEvent => StepResult(st, kHandled, [UserInput])
    case Unhandled => StepResult(st, kHandled, [])
  }

  /**
   * The keyboard cases: a press or release posts its key and sets or
   * clears the pending-key flag; text is posted as a press and a release
   * of its first character only when no key press is pending.
   */
  function KeyStep(st: DevState, kHandled: bool, e: SdlEvent): StepResult
    requires IsKeyEvent(e)
  {
    match e
    case KeyDown(sym, shift, control) =>
      StepResult(st, true, [KeyInput(WChar(sym), TableKey(st.keys, sym), true, shift, control)])
    case KeyUp(sym, shift, control) =>
      StepResult(st, false, [KeyInput(WChar(sym), TableKey(st.keys, sym), false, shift, control)])
    case TextInput(c) =>
      if kHandled then StepResult(st, kHandled, [])
      else StepResult(st, kHandled, [KeyInput(WChar(c), TableKey(st.keys, WChar(c)), true, false, false), KeyInput(WChar(c), TableKey(st.keys, WChar(c)), false, false, false)])
  }

  /**
   * The mouse cases, ignoring touch-synthesised events: motion moves the
   * pointer and rebuilds the button states, a button moves the pointer
   * and posts its click or release, the wheel posts the vertical amount at
   * the current pointer.
   */
  function MouseStep(st: DevState, kHandled: bool, e: SdlEvent): StepResult
    requires IsMouseEvent(e)
  {
    if e.which == SDL_TOUCH_MOUSEID then StepResult(st, kHandled, [])
    else match e
      case MouseMotion(_, x, y, state) =>
        var b := ButtonStatesFromMask(state);
        StepResult(st.(mouseX := x, mouseY := y, buttons := b), kHandled, [MouseInput(Some(MouseMoved), x, y, b)])
      case MouseButtonDown(_, x, y, button, clicks) =>
        StepResult(st.(mouseX := x, mouseY := y), kHandled, [MouseInput(ClickEvent(button, clicks), x, y, st.buttons)])
      case MouseButtonUp(_, x, y, button) =>
        StepResult(st.(mouseX := x, mouseY := y), kHandled, [MouseInput(ReleaseEvent(button), x, y, st.buttons)])
      case MouseWheel(_, _, wheelY, _) =>
        StepResult(st, kHandled, [MouseWheelInput(st.mouseX, st.mouseY, st.buttons, wheelY)])
  }

  /**
   * The wheel handler as written: it reads the event through the button
   * event's layout, where x and y overlay the wheel's y and direction, and
   * reports the horizontal wheel amount.
   */
  function WheelStepAsWritten(st: DevState, kHandled: bool, e: SdlEvent): StepResult
    requires e.MouseWheel?
  {
    if e.which == SDL_TOUCH_MOUSEID then StepResult(st, kHandled, [])
    else StepResult(st.(mouseX := e.wheelY, mouseY := e.direction), kHandled,
                    [MouseWheelInput(e.wheelY, e.direction, st.buttons, e.wheelX)])
  }

  /**
   * Turning a vertical wheel (direction 0, no horizontal amount) moves the
   * pointer as written, unless it already sat at (wheel amount, 0), and
   * reports no wheel movement; corrected, the pointer stays and the
   * amount is reported.
   */
  lemma WheelAsWrittenMovesPointer(st: DevState, kHandled: bool, which: bv32, wheelY: int)
    requires which != SDL_TOUCH_MOUSEID && wheelY != 0
    requires (st.mouseX, st.mouseY) != (wheelY, 0)
    ensures var e := MouseWheel(which, 0, wheelY, 0);
            var asWritten := WheelStepAsWritten(st, kHandled, e);
            var corrected := Step(st, kHandled, e);
            (asWritten.st.mouseX, asWritten.st.mouseY) != (st.mouseX, st.mouseY)
            && asWritten.posted[0].wheel == 0
            && corrected.st == st && corrected.posted[0].wheel == wheelY
  {
  }

  /**
   * With the table createKeyMap leaves, a key event carries the key paired
   * with its SDL code, or KEY_UNKNOWN for a code the table lacks.
   */
  lemma KeyEventsCarryTableKeys(st: DevState, kHandled: bool, e: SdlEvent)
    requires IsKeyMap(st.keys) && (e.KeyDown? || e.KeyUp?)
    ensures Step(st, kHandled, e).posted
            == [KeyInput(WChar(e.sym), if e.sym in PushOrder then IrrKeyFor(e.sym) else KEY_UNKNOWN, e.KeyDown?, e.shift, e.control)]
  {
    KeyStepPosts(st, kHandled, e);
    TableKeyInKeyMap(st.keys, e.sym);
  }

  lemma KeyStepPosts(st: DevState, kHandled: bool, e: SdlEvent)
    requires e.KeyDown? || e.KeyUp?
    ensures Step(st, kHandled, e).posted == [KeyInput(WChar(e.sym), TableKey(st.keys, e.sym), e.KeyDown?, e.shift, e.control)]
  {
  }

  /**
   * The character a key event posts is its SDL code cut to 16 bits: a key
   * without a character, such as F1 (SDL code 0x4000003A), posts ':'.
   */
  lemma KeyCharacterIsNarrowed(st: DevState, kHandled: bool, shift: bool, control: bool)
    ensures Step(st, kHandled, KeyDown(0x4000_003A, shift, control)).posted[0].character == ':' as int
  {
  }

  /** Only the close events set Close. */
  lemma StepSetsCloseOnlyOnCloseEvents(st: DevState, kHandled: bool, e: SdlEvent)
    ensures Step(st, kHandled, e).st.close == (st.close || IsCloseEvent(e))
  {
    if !IsCloseEvent(e) {
      StepFollowsSettings(st, kHandled, e);
    }
  }

  /** Mouse events synthesised from touches change nothing and post nothing. */
  lemma TouchStepInert(st: DevState, kHandled: bool, e: SdlEvent)
    requires FromTouch(e)
    ensures Step(st, kHandled, e) == StepResult(st, kHandled, [])
  {
  }

  /** Both facts about one step together. */
  lemma StepCloseAndTouch(st: DevState, kHandled: bool, e: SdlEvent)
    ensures Step(st, kHandled, e).st.close == (st.close || IsCloseEvent(e))
    ensures FromTouch(e) ==> Step(st, kHandled, e) == StepResult(st, kHandled, [])
  {
    StepSetsCloseOnlyOnCloseEvents(st, kHandled, e);
    if FromTouch(e) {
      TouchStepInert(st, kHandled, e);
    }
  }

  /** Which part of the switch an event reaches. */
  lemma StepDispatch(st: DevState, kHandled: bool, e: SdlEvent)
    ensures IsKeyEvent(e) ==> Step(st, kHandled, e) == KeyStep(st, kHandled, e)
    ensures IsMouseEvent(e) ==> Step(st, kHandled, e) == MouseStep(st, kHandled, e)
    ensures e.WindowEvent? ==> Step(st, kHandled, e) == StepResult(WindowStep(st, e.kind), kHandled, [])
  {
  }

  // ---------------------------------------------------------------------
  // The pump
  // ---------------------------------------------------------------------

  /** Where the event pump stops: the fields, the pending-key flag, the events posted, the events taken from SDL's queue, and whether a close event made `run` return at once. */
  datatype RunOutcome = RunOutcome(st: DevState, kHandled: bool, posted: seq<IrrEvent>, polled: nat, stoppedByClose: bool)

  /**
   * The pump of `run` from state `st` over the events still queued, having
   * posted `posted` and taken `polled` events so far: no event is taken
   * once Close is set, and a close event ends the pump at once.
   */
  function RunFrom(events: seq<SdlEvent>, st: DevState, kHandled: bool, posted: seq<IrrEvent>, polled: nat): RunOutcome
    decreases |events|
  {
    if st.close || events == [] then RunOutcome(st, kHandled, posted, polled, false)
    else
      var r := Step(st, kHandled, events[0]);
      if IsCloseEvent(events[0]) then RunOutcome(r.st, r.kHandled, posted + r.posted, polled + 1, true)
      else RunFrom(events[1..], r.st, r.kHandled, posted + r.posted, polled + 1)
  }

  /** A closed device takes no event, changes nothing and posts nothing. */
  lemma ClosedDeviceTakesNoEvent(events: seq<SdlEvent>, st: DevState, kHandled: bool, posted: seq<IrrEvent>, polled: nat)
    requires st.close
    ensures RunFrom(events, st, kHandled, posted, polled) == RunOutcome(st, kHandled, posted, polled, false)
  {
  }

  /** The pump on an open device with an event queued: one step, then stop on a close event or go on. */
  lemma RunFromNext(events: seq<SdlEvent>, i: nat, st: DevState, kHandled: bool, posted: seq<IrrEvent>)
    requires i < |events| && !st.close
    ensures var r := Step(st, kHandled, events[i]);
            RunFrom(events[i..], st, kHandled, posted, i)
            == if IsCloseEvent(events[i]) then RunOutcome(r.st, r.kHandled, posted + r.posted, i + 1, true)
               else RunFrom(events[i + 1..], r.st, r.kHandled, posted + r.posted, i + 1)
  {
    assert events[i..][0] == events[i] && events[i..][1..] == events[i + 1..];
  }

  /**
   * Once the pump has closed the device, whatever else SDL has queued is
   * never taken: the outcome is the same with or without more events.
   */
  lemma {:induction false} NothingPolledAfterClose(events: seq<SdlEvent>, more: seq<SdlEvent>, st: DevState,
                                                   kHandled: bool, posted: seq<IrrEvent>, polled: nat)
    requires RunFrom(events, st, kHandled, posted, polled).st.close
    ensures RunFrom(events + more, st, kHandled, posted, polled) == RunFrom(events, st, kHandled, posted, polled)
    decreases |events|
  {
    if st.close {
    } else {
      assert events != [];
      assert (events + more)[0] == events[0];
      assert (events + more)[1..] == events[1..] + more;
      var r := Step(st, kHandled, events[0]);
      if !IsCloseEvent(events[0]) {
        NothingPolledAfterClose(events[1..], more, r.st, r.kHandled, posted + r.posted, polled + 1);
      }
    }
  }

  /** The events with touch-synthesised mouse events removed. */
  function WithoutTouch(events: seq<SdlEvent>): (r: seq<SdlEvent>)
    ensures |r| <= |events|
    ensures forall e :: e in r ==> e in events && !FromTouch(e)
  {
    if events == [] then []
    else if FromTouch(events[0]) then WithoutTouch(events[1..])
    else [events[0]] + WithoutTouch(events[1..])
  }

  /**
   * Mouse events synthesised from touches are invisible: the pump ends in
   * the same state, with the same events posted, as it would without them
   * (only the count of events taken differs).
   */
  lemma {:induction false} TouchEventsInvisible(events: seq<SdlEvent>, st: DevState, kHandled: bool,
                                                posted: seq<IrrEvent>, polled: nat, polled': nat)
    ensures var a := RunFrom(events, st, kHandled, posted, polled);
            var b := RunFrom(WithoutTouch(events), st, kHandled, posted, polled');
            a.st == b.st && a.kHandled == b.kHandled && a.posted == b.posted && a.stoppedByClose == b.stoppedByClose
    decreases |events|
  {
    if st.close || events == [] {
    } else {
      var e := events[0];
      var r := Step(st, kHandled, e);
      StepCloseAndTouch(st, kHandled, e);
      if FromTouch(e) {
        assert posted + r.posted == posted;
        TouchEventsInvisible(events[1..], st, kHandled, posted, polled + 1, polled');
      } else {
        var w := WithoutTouch(events);
        assert w[0] == e && w[1..] == WithoutTouch(events[1..]);
        if !IsCloseEvent(e) {
          TouchEventsInvisible(events[1..], r.st, r.kHandled, posted + r.posted, polled + 1, polled' + 1);
        }
      }
    }
  }

  /** The value the last event that sets a flag gives it, or `init` when none does. */
  function LastSet<T>(events: seq<SdlEvent>, setting: SdlEvent -> Option<T>, init: T): T {
    if events == [] then init
    else match setting(events[|events| - 1])
      case Some(v) => v
      case None => LastSet(events[..|events| - 1], setting, init)
  }

  /** One more event sets the flag if it sets it at all. */
  lemma LastSetSnoc<T>(front: seq<SdlEvent>, e: SdlEvent, setting: SdlEvent -> Option<T>, init: T)
    ensures LastSet(front + [e], setting, init) == Apply(setting(e), LastSet(front, setting, init))
  {
    assert (front + [e])[..|front|] == front;
  }

  /** What an event does to the focus flag. */
  function FocusSetting(e: SdlEvent): Option<bool> {
    match e
    case AppWillEnterBackground => Some(false)
    case AppDidEnterBackground => Some(false)
    case AppWillEnterForeground => Some(true)
    case AppDidEnterForeground => Some(true)
    case WindowEvent(FocusGained) => Some(true)
    case WindowEvent(FocusLost) => Some(false)
    case _ => None
  }

  /** What an event does to the minimized flag. */
  function MinimizedSetting(e: SdlEvent): Option<bool> {
    match e
    case AppWillEnterBackground => Some(true)
    case AppDidEnterBackground => Some(true)
    case AppWillEnterForeground => Some(false)
    case AppDidEnterForeground => Some(false)
    case WindowEvent(Hidden) => Some(true)
    case WindowEvent(Minimized) => Some(true)
    case WindowEvent(Shown) => Some(false)
    case WindowEvent(Exposed) => Some(false)
    case WindowEvent(Maximized) => Some(false)
    case WindowEvent(Restored) => Some(false)
    case _ => None
  }

  /** What an event does to the pending-key flag: a key press sets it, a release clears it. */
  function KeyPendingSetting(e: SdlEvent): Option<bool> {
    match e
    case KeyDown(_, _, _) => Some(true)
    case KeyUp(_, _, _) => Some(false)
    case _ => None
  }

  /** Where an event puts the pointer: motion and buttons from a real mouse. */
  function PointerSetting(e: SdlEvent): Option<(int, int)> {
    if FromTouch(e) then None
    else match e
      case MouseMotion(_, x, y, _) => Some((x, y))
      case MouseButtonDown(_, x, y, _, _) => Some((x, y))
      case MouseButtonUp(_, x, y, _) => Some((x, y))
      case _ => None
  }

  /** What an event does to the mouse button states: only motion rebuilds them. */
  function ButtonsSetting(e: SdlEvent): Option<bv32> {
    if e.MouseMotion? && e.which != SDL_TOUCH_MOUSEID then Some(ButtonStatesFromMask(e.state)) else None
  }

  /** What an event does to the width and to the height: a resize with a positive dimension. */
  function WidthSetting(e: SdlEvent): Option<int> {
    match e
    case WindowEvent(Resized(w, _)) => if w > 0 then Some(w) else None
    case WindowEvent(SizeChanged(w, _)) => if w > 0 then Some(w) else None
    case _ => None
  }

  function HeightSetting(e: SdlEvent): Option<int> {
    match e
    case WindowEvent(Resized(_, h)) => if h > 0 then Some(h) else None
    case WindowEvent(SizeChanged(_, h)) => if h > 0 then Some(h) else None
    case _ => None
  }

  function Apply<T>(setting: Option<T>, current: T): T {
    if setting.Some? then setting.value else current
  }

  /** The step result `r` moves the flags of `st` to what `e` sets, if anything, and keeps Close. */
  predicate FlagsFollowSettings(st: DevState, kHandled: bool, e: SdlEvent, r: StepResult) {
    r.st.close == st.close && r.st.keys == st.keys
    && r.st.focus == Apply(FocusSetting(e), st.focus)
    && r.st.minimized == Apply(MinimizedSetting(e), st.minimized)
    && r.kHandled == Apply(KeyPendingSetting(e), kHandled)
  }

  /** The step result `r` moves the pointer, buttons and size of `st` to what `e` sets, if anything. */
  predicate GeometryFollowsSettings(st: DevState, e: SdlEvent, r: StepResult) {
    (r.st.mouseX, r.st.mouseY) == Apply(PointerSetting(e), (st.mouseX, st.mouseY))
    && r.st.buttons == Apply(ButtonsSetting(e), st.buttons)
    && r.st.width == Apply(WidthSetting(e), st.width)
    && r.st.height == Apply(HeightSetting(e), st.height)
  }

  /**
   * One event other than a close event moves each field to what that
   * event sets, if anything.  The case lemmas below exist only to keep
   * each proof obligation small.
   */
  lemma StepFollowsSettings(st: DevState, kHandled: bool, e: SdlEvent)
    requires !IsCloseEvent(e)
    ensures FlagsFollowSettings(st, kHandled, e, Step(st, kHandled, e))
    ensures GeometryFollowsSettings(st, e, Step(st, kHandled, e))
  {
    if e.WindowEvent? {
      WindowEventSteps(st, kHandled, e.kind);
      if e.kind.Resized? || e.kind.SizeChanged? {
        ResizeFollowsSettings(st, kHandled, e.kind);
      } else if e.kind.Shown? || e.kind.Hidden? || e.kind.Exposed? || e.kind.Minimized? || e.kind.Maximized? || e.kind.Restored? {
        VisibilityFollowsSettings(st, kHandled, e.kind);
      } else {
        WindowFlagsFollowSettings(st, kHandled, e.kind);
      }
    } else if IsMouseEvent(e) {
      if e.MouseMotion? {
        MotionStepFollowsSettings(st, kHandled, e);
      } else {
        ButtonStepFollowsSettings(st, kHandled, e);
      }
    } else {
      OtherStepKeepsGeometry(st, kHandled, e);
      if IsKeyEvent(e) {
        KeyStepFollowsSettings(st, kHandled, e);
      } else {
        AppStepFollowsSettings(st, kHandled, e);
      }
    }
  }

  /** A window event changes only what WindowStep changes, and posts nothing. */
  lemma WindowEventSteps(st: DevState, kHandled: bool, kind: WindowEventKind)
    ensures Step(st, kHandled, WindowEvent(kind)) == StepResult(WindowStep(st, kind), kHandled, [])
  {
  }

  lemma ResizeFollowsSettings(st: DevState, kHandled: bool, kind: WindowEventKind)
    requires kind.Resized? || kind.SizeChanged?
    ensures FlagsFollowSettings(st, kHandled, WindowEvent(kind), StepResult(WindowStep(st, kind), kHandled, []))
    ensures GeometryFollowsSettings(st, WindowEvent(kind), StepResult(WindowStep(st, kind), kHandled, []))
  {
  }

  lemma VisibilityFollowsSettings(st: DevState, kHandled: bool, kind: WindowEventKind)
    requires kind.Shown? || kind.Hidden? || kind.Exposed? || kind.Minimized? || kind.Maximized? || kind.Restored?
    ensures FlagsFollowSettings(st, kHandled, WindowEvent(kind), StepResult(WindowStep(st, kind), kHandled, []))
    ensures GeometryFollowsSettings(st, WindowEvent(kind), StepResult(WindowStep(st, kind), kHandled, []))
  {
  }

  lemma WindowFlagsFollowSettings(st: DevState, kHandled: bool, kind: WindowEventKind)
    requires !kind.Resized? && !kind.SizeChanged? && kind != CloseRequested
    requires !(kind.Shown? || kind.Hidden? || kind.Exposed? || kind.Minimized? || kind.Maximized? || kind.Restored?)
    ensures FlagsFollowSettings(st, kHandled, WindowEvent(kind), StepResult(WindowStep(st, kind), kHandled, []))
    ensures GeometryFollowsSettings(st, WindowEvent(kind), StepResult(WindowStep(st, kind), kHandled, []))
  {
  }

  lemma MotionStepFollowsSettings(st: DevState, kHandled: bool, e: SdlEvent)
    requires e.MouseMotion?
    ensures FlagsFollowSettings(st, kHandled, e, Step(st, kHandled, e))
    ensures GeometryFollowsSettings(st, e, Step(st, kHandled, e))
  {
  }

  lemma ButtonStepFollowsSettings(st: DevState, kHandled: bool, e: SdlEvent)
    requires e.MouseButtonDown? || e.MouseButtonUp? || e.MouseWheel?
    ensures FlagsFollowSettings(st, kHandled, e, Step(st, kHandled, e))
    ensures GeometryFollowsSettings(st, e, Step(st, kHandled, e))
  {
    if e.MouseButtonDown? {
      ButtonDownStepFollowsSettings(st, kHandled, e);
    } else if e.MouseButtonUp? {
      ButtonUpStepFollowsSettings(st, kHandled, e);
    } else {
      WheelStepFollowsSettings(st, kHandled, e);
    }
  }

  lemma ButtonUpStepFollowsSettings(st: DevState, kHandled: bool, e: SdlEvent)
    requires e.MouseButtonUp?
    ensures FlagsFollowSettings(st, kHandled, e, Step(st, kHandled, e))
    ensures GeometryFollowsSettings(st, e, Step(st, kHandled, e))
  {
  }

  /** The corrected wheel event changes no field: the pointer, buttons, size and flags all stay. */
  lemma WheelStepFollowsSettings(st: DevState, kHandled: bool, e: SdlEvent)
    requires e.MouseWheel?
    ensures FlagsFollowSettings(st, kHandled, e, Step(st, kHandled, e))
    ensures GeometryFollowsSettings(st, e, Step(st, kHandled, e))
  {
  }

  lemma ButtonDownStepFollowsSettings(st: DevState, kHandled: bool, e: SdlEvent)
    requires e.MouseButtonDown?
    ensures FlagsFollowSettings(st, kHandled, e, Step(st, kHandled, e))
    ensures GeometryFollowsSettings(st, e, Step(st, kHandled, e))
  {
  }

  lemma OtherStepKeepsGeometry(st: DevState, kHandled: bool, e: SdlEvent)
    requires !IsCloseEvent(e) && !IsMouseEvent(e) && !e.WindowEvent?
    ensures GeometryFollowsSettings(st, e, Step(st, kHandled, e))
  {
  }

  lemma KeyStepFollowsSettings(st: DevState, kHandled: bool, e: SdlEvent)
    requires IsKeyEvent(e)
    ensures FlagsFollowSettings(st, kHandled, e, Step(st, kHandled, e))
  {
  }

  lemma AppStepFollowsSettings(st: DevState, kHandled: bool, e: SdlEvent)
    requires !IsCloseEvent(e) && !IsMouseEvent(e) && !e.WindowEvent? && !IsKeyEvent(e)
    ensures FlagsFollowSettings(st, kHandled, e, Step(st, kHandled, e))
  {
  }

  predicate NoCloseEvent(events: seq<SdlEvent>) {
    forall i :: 0 <= i < |events| ==> !IsCloseEvent(events[i])
  }

  /** Without close events, the pump takes every event, in order: one more event is one more step. */
  lemma {:induction false} RunSnoc(events: seq<SdlEvent>, e: SdlEvent, st: DevState, kHandled: bool,
                                   posted: seq<IrrEvent>, polled: nat)
    requires !st.close && NoCloseEvent(events) && !IsCloseEvent(e)
    ensures var o := RunFrom(events, st, kHandled, posted, polled);
            var r := Step(o.st, o.kHandled, e);
            !o.st.close && !o.stoppedByClose && o.polled == polled + |events|
            && RunFrom(events + [e], st, kHandled, posted, polled)
               == RunOutcome(r.st, r.kHandled, o.posted + r.posted, o.polled + 1, false)
    decreases |events|
  {
    if events == [] {
      assert [e][1..] == [];
      StepCloseAndTouch(st, kHandled, e);
    } else {
      var r0 := Step(st, kHandled, events[0]);
      StepCloseAndTouch(st, kHandled, events[0]);
      assert (events + [e])[0] == events[0];
      assert (events + [e])[1..] == events[1..] + [e];
      RunSnoc(events[1..], e, r0.st, r0.kHandled, posted + r0.posted, polled + 1);
    }
  }

  /**
   * Without close events the pump takes every event, and each field ends
   * as the last event that sets it left it (or as it was when none did):
   * focus, minimized, pointer position, button states, size and the
   * pending-key flag.
   */
  lemma {:induction false} RunFollowsLastSettings(events: seq<SdlEvent>, st: DevState, kHandled: bool,
                                                  posted: seq<IrrEvent>, polled: nat)
    requires !st.close && NoCloseEvent(events)
    ensures var o := RunFrom(events, st, kHandled, posted, polled);
            !o.stoppedByClose && o.polled == polled + |events|
            && o.st == DevState(false,
                                LastSet(events, FocusSetting, st.focus),
                                LastSet(events, MinimizedSetting, st.minimized),
                                LastSet(events, PointerSetting, (st.mouseX, st.mouseY)).0,
                                LastSet(events, PointerSetting, (st.mouseX, st.mouseY)).1,
                                LastSet(events, ButtonsSetting, st.buttons),
                                LastSet(events, WidthSetting, st.width),
                                LastSet(events, HeightSetting, st.height),
                                st.keys)
            && o.kHandled == LastSet(events, KeyPendingSetting, kHandled)
    decreases |events|
  {
    if events != [] {
      var front := events[..|events| - 1];
      var e := events[|events| - 1];
      assert events == front + [e];
      assert NoCloseEvent(front);
      RunFollowsLastSettings(front, st, kHandled, posted, polled);
      RunSnoc(front, e, st, kHandled, posted, polled);
      var o := RunFrom(front, st, kHandled, posted, polled);
      StepFollowsSettings(o.st, o.kHandled, e);
      LastSetSnoc(front, e, FocusSetting, st.focus);
      LastSetSnoc(front, e, MinimizedSetting, st.minimized);
      LastSetSnoc(front, e, PointerSetting, (st.mouseX, st.mouseY));
      LastSetSnoc(front, e, ButtonsSetting, st.buttons);
      LastSetSnoc(front, e, WidthSetting, st.width);
      LastSetSnoc(front, e, HeightSetting, st.height);
      LastSetSnoc(front, e, KeyPendingSetting, kHandled);
    }
  }

  /** Text typed while a key press is pending posts nothing; otherwise a press and a release of its key. */
  lemma TextInputFollowsPendingKey(events: seq<SdlEvent>, st: DevState, c: int)
    requires !st.close && NoCloseEvent(events)
    ensures var o := RunFrom(events + [TextInput(c)], st, false, [], 0);
            var before := RunFrom(events, st, false, [], 0);
            o.posted == before.posted
                        + (if LastSet(events, KeyPendingSetting, false) then []
                           else [KeyInput(WChar(c), TableKey(st.keys, WChar(c)), true, false, false), KeyInput(WChar(c), TableKey(st.keys, WChar(c)), false, false, false)])
  {
    RunSnoc(events, TextInput(c), st, false, [], 0);
    RunFollowsLastSettings(events, st, false, [], 0);
    var o := RunFrom(events, st, false, [], 0);
    TextStepPosts(o.st, o.kHandled, c);
  }

  lemma TextStepPosts(st: DevState, kHandled: bool, c: int)
    ensures Step(st, kHandled, TextInput(c)).posted
            == if kHandled then [] else [KeyInput(WChar(c), TableKey(st.keys, WChar(c)), true, false, false), KeyInput(WChar(c), TableKey(st.keys, WChar(c)), false, false, false)]
  {
  }

  // ---------------------------------------------------------------------
  // Window creation
  // ---------------------------------------------------------------------

  datatype DriverType = NullDriver | OpenGlDriver | OtherDriver

  /** The creation parameters the device reads; AntiAlias is lowered when multisampling fails. */
  datatype CreationParams = CreationParams(driverType: DriverType, fullscreen: bool,
                                           windowWidth: int, windowHeight: int,
                                           stereobuffer: bool, doublebuffer: bool, antiAlias: int)

  datatype WindowFlag = ResizableFlag | HiddenFlag | ShownFlag | FullscreenDesktopFlag | OpenGlFlag

  /** The GL attributes that differ between window creation attempts. */
  datatype GlAttributes = GlAttributes(stereo: bool, multisampleBuffers: int, multisampleSamples: int, doubleBuffer: bool)

  /** One SDL_CreateWindow call: a plain window, or a GL window with these attributes in force. */
  datatype Attempt = PlainAttempt | GlAttempt(attrs: GlAttributes)

  /** A window SDL created: its size, its flags, the attempt that made it and its pixel format. */
  datatype SdlWindow = SdlWindow(width: int, height: int, flags: set<WindowFlag>, createdBy: Attempt, format: PixelFormat)

  /** The flags createWindow adds: hidden for the null driver, shown otherwise; fullscreen; OpenGL. */
  function CreationFlags(p: CreationParams): (flags: set<WindowFlag>)
    ensures HiddenFlag in flags <==> p.driverType == NullDriver
    ensures ShownFlag in flags <==> p.driverType != NullDriver
    ensures OpenGlFlag in flags <==> p.driverType == OpenGlDriver
    ensures FullscreenDesktopFlag in flags <==> p.fullscreen
    ensures ResizableFlag !in flags
  {
    (if p.driverType == NullDriver then {HiddenFlag} else {ShownFlag})
    + (if p.fullscreen then {FullscreenDesktopFlag} else {})
    + (if p.driverType == OpenGlDriver then {OpenGlFlag} else {})
  }

  /** The attributes of the first GL attempt: stereo as asked, multisampling when AntiAlias exceeds 1, double buffering. */
  function FirstGlAttributes(p: CreationParams): GlAttributes {
    GlAttributes(p.stereobuffer, if p.antiAlias > 1 then 1 else 0, if p.antiAlias > 1 then p.antiAlias else 0, true)
  }

  /** The multisampled attempts with n, n - 1, ..., 2 samples. */
  function SampleRetries(n: int): seq<Attempt>
    decreases n
  {
    if n <= 1 then [] else [GlAttempt(GlAttributes(false, 1, n, true))] + SampleRetries(n - 1)
  }

  /** The attempts without multisampling, double then (when double buffering was asked) single buffered. */
  function PlainGlRetries(p: CreationParams): seq<Attempt> {
    (if p.antiAlias > 1 then [GlAttempt(GlAttributes(false, 0, 0, true))] else [])
    + (if p.doublebuffer then [GlAttempt(GlAttributes(false, 0, 0, false))] else [])
  }

  /** The first GL attempt, then (when stereo was asked) the same without stereo. */
  function AsAskedAttempts(p: CreationParams): seq<Attempt> {
    [GlAttempt(FirstGlAttributes(p))]
    + (if p.stereobuffer then [GlAttempt(FirstGlAttributes(p).(stereo := false))] else [])
  }

  /** The fallbacks once those fail: ever fewer samples, no multisampling, single buffering. */
  function FallbackAttempts(p: CreationParams): seq<Attempt> {
    (if p.antiAlias > 1 then SampleRetries(p.antiAlias - 1) else []) + PlainGlRetries(p)
  }

  /**
   * The GL attempts in the order createWindow makes them: as asked; without
   * stereo; with ever fewer samples; without multisampling; single buffered.
   */
  function GlAttempts(p: CreationParams): seq<Attempt> {
    AsAskedAttempts(p) + FallbackAttempts(p)
  }

  function WindowAttempts(p: CreationParams): seq<Attempt> {
    if p.driverType == OpenGlDriver then GlAttempts(p) else [PlainAttempt]
  }

  /** The attempts made, in order, until SDL accepts one: all of them when it accepts none. */
  function TryInOrder(attempts: seq<Attempt>, accepted: set<Attempt>): seq<Attempt> {
    if attempts == [] then []
    else if attempts[0] in accepted then [attempts[0]]
    else [attempts[0]] + TryInOrder(attempts[1..], accepted)
  }

  /** A window results exactly when some attempt is accepted, and then the first accepted one made it. */
  lemma {:induction false} TryInOrderFindsFirstAccepted(attempts: seq<Attempt>, accepted: set<Attempt>)
    ensures var tried := TryInOrder(attempts, accepted);
            (tried != [] && tried[|tried| - 1] in accepted) <==> (exists k :: 0 <= k < |attempts| && attempts[k] in accepted)
    ensures var tried := TryInOrder(attempts, accepted);
            tried == attempts || tried[|tried| - 1] in accepted
  {
    if attempts != [] && attempts[0] !in accepted {
      TryInOrderFindsFirstAccepted(attempts[1..], accepted);
      var rest := TryInOrder(attempts[1..], accepted);
      if exists k :: 0 <= k < |attempts| && attempts[k] in accepted {
        var k :| 0 <= k < |attempts| && attempts[k] in accepted;
        assert attempts[1..][k - 1] == attempts[k];
      }
      if rest == attempts[1..] {
        assert [attempts[0]] + attempts[1..] == attempts;
      }
    }
  }

  /** The attempts made are a prefix of those planned, and every one but the last was refused. */
  lemma {:induction false} TryInOrderStopsAtFirstAccepted(attempts: seq<Attempt>, accepted: set<Attempt>)
    ensures var tried := TryInOrder(attempts, accepted);
            |tried| <= |attempts| && tried == attempts[..|tried|]
            && forall j :: 0 <= j < |tried| - 1 ==> tried[j] !in accepted
  {
    if attempts != [] && attempts[0] !in accepted {
      TryInOrderStopsAtFirstAccepted(attempts[1..], accepted);
      var rest := TryInOrder(attempts[1..], accepted);
      assert attempts[..|rest| + 1] == [attempts[0]] + attempts[1..][..|rest|];
      forall j | 0 <= j < |rest|
        ensures ([attempts[0]] + rest)[j] !in accepted
      {
        if j > 0 { assert ([attempts[0]] + rest)[j] == rest[j - 1]; }
      }
    }
  }

  /**
   * The window createWindow makes with the given flags: the creation size,
   * made by the first of the planned attempts SDL accepts; none when SDL
   * accepts none of them.
   */
  function CreatedWindow(p: CreationParams, flags: set<WindowFlag>, accepted: set<Attempt>, format: PixelFormat): Option<SdlWindow> {
    var tried := TryInOrder(WindowAttempts(p), accepted);
    var size := CreationSize(p.windowWidth, p.windowHeight);
    if Accepted(tried, accepted) then Some(SdlWindow(size.0, size.1, flags, tried[|tried| - 1], format)) else None
  }

  /**
   * createWindow fails exactly when SDL refuses every planned attempt;
   * otherwise the window comes from the first attempt SDL accepts, with
   * the creation size and the flags asked for.
   */
  lemma CreatedWindowIsFirstAccepted(p: CreationParams, flags: set<WindowFlag>, accepted: set<Attempt>, format: PixelFormat)
    ensures CreatedWindow(p, flags, accepted, format).None? <==>
            forall k :: 0 <= k < |WindowAttempts(p)| ==> WindowAttempts(p)[k] !in accepted
    ensures CreatedWindow(p, flags, accepted, format).Some? ==>
            var w := CreatedWindow(p, flags, accepted, format).value;
            var attempts := WindowAttempts(p);
            w.createdBy in accepted && (w.width, w.height) == CreationSize(p.windowWidth, p.windowHeight)
            && w.flags == flags && w.format == format
            && exists k :: 0 <= k < |attempts| && attempts[k] == w.createdBy
                           && forall j :: 0 <= j < k ==> attempts[j] !in accepted
  {
    var attempts := WindowAttempts(p);
    TryInOrderFindsFirstAccepted(attempts, accepted);
    TryInOrderStopsAtFirstAccepted(attempts, accepted);
    var tried := TryInOrder(attempts, accepted);
    if Accepted(tried, accepted) {
      var k := |tried| - 1;
      assert attempts[k] == tried[k];
      assert forall j :: 0 <= j < k ==> attempts[j] == tried[j];
    }
  }

  /** The AntiAlias the sample loop leaves when it starts from n samples. */
  function SampleCountAfter(n: int, accepted: set<Attempt>): int
    decreases n
  {
    if n <= 1 then n
    else if GlAttempt(GlAttributes(false, 1, n, true)) in accepted then n
    else SampleCountAfter(n - 1, accepted)
  }

  /** The AntiAlias createWindow leaves: lowered only when the first GL attempts fail with multisampling asked. */
  function AntiAliasAfter(p: CreationParams, accepted: set<Attempt>): int {
    var first := FirstGlAttributes(p);
    if p.driverType != OpenGlDriver || p.antiAlias <= 1 || GlAttempt(first) in accepted
       || (p.stereobuffer && GlAttempt(first.(stereo := false)) in accepted)
    then p.antiAlias
    else SampleCountAfter(p.antiAlias - 1, accepted)
  }

  /**
   * AntiAlias only goes down, stays above 0, and ends either at a sample
   * count SDL accepted or at 1 (multisampling given up).
   */
  lemma {:induction false} SampleCountAfterAccepted(n: int, accepted: set<Attempt>)
    requires n >= 1
    ensures var aa := SampleCountAfter(n, accepted);
            1 <= aa <= n && (aa == 1 || GlAttempt(GlAttributes(false, 1, aa, true)) in accepted)
    ensures SampleCountAfter(n, accepted) == 1 <==> forall m :: 2 <= m <= n ==> GlAttempt(GlAttributes(false, 1, m, true)) !in accepted
    decreases n
  {
    if n > 1 && GlAttempt(GlAttributes(false, 1, n, true)) !in accepted {
      SampleCountAfterAccepted(n - 1, accepted);
    }
  }

  /** One more attempt: its result extends what was tried by one call. */
  lemma TryInOrderStep(a: Attempt, rest: seq<Attempt>, accepted: set<Attempt>)
    ensures TryInOrder([a] + rest, accepted) == if a in accepted then [a] else [a] + TryInOrder(rest, accepted)
  {
    assert ([a] + rest)[1..] == rest;
  }

  /** SDL accepted the last attempt made. */
  predicate Accepted(tried: seq<Attempt>, accepted: set<Attempt>) {
    tried != [] && tried[|tried| - 1] in accepted
  }

  /** Attempts in two groups: the second group is reached only when the first yields no window. */
  lemma {:induction false} TryInOrderAppend(a: seq<Attempt>, b: seq<Attempt>, accepted: set<Attempt>)
    ensures Accepted(TryInOrder(a, accepted), accepted) ==> TryInOrder(a + b, accepted) == TryInOrder(a, accepted)
    ensures !Accepted(TryInOrder(a, accepted), accepted) ==> TryInOrder(a, accepted) == a && TryInOrder(a + b, accepted) == a + TryInOrder(b, accepted)
    decreases |a|
  {
    if a == [] {
      assert a + b == b;
    } else {
      var x, rest := a[0], a[1..];
      assert a == [x] + rest && a + b == [x] + (rest + b);
      TryInOrderStep(x, rest + b, accepted);
      TryInOrderStep(x, rest, accepted);
      if x !in accepted {
        TryInOrderAppend(rest, b, accepted);
        var t := TryInOrder(rest, accepted);
        assert Accepted([x] + t, accepted) == Accepted(t, accepted) by {
          if t != [] { assert ([x] + t)[|[x] + t| - 1] == t[|t| - 1]; }
        }
        assert [x] + (rest + TryInOrder(b, accepted)) == a + TryInOrder(b, accepted);
      }
    }
  }

  /** One turn of the sample loop: the attempt with k samples, then those with fewer. */
  lemma SampleRetryStep(k: int, accepted: set<Attempt>)
    requires k > 1
    ensures var a := GlAttempt(GlAttributes(false, 1, k, true));
            TryInOrder(SampleRetries(k), accepted)
            == (if a in accepted then [a] else [a] + TryInOrder(SampleRetries(k - 1), accepted))
            && SampleCountAfter(k, accepted) == (if a in accepted then k else SampleCountAfter(k - 1, accepted))
  {
    TryInOrderStep(GlAttempt(GlAttributes(false, 1, k, true)), SampleRetries(k - 1), accepted);
  }

  /**
   * The sample loop of createWindow from n samples down to 2, until SDL
   * accepts one; the AntiAlias value it leaves.
   */
  method TrySampleCounts(n: int, accepted: set<Attempt>) returns (made: bool, tried: seq<Attempt>, antiAlias: int)
    requires n >= 1
    ensures tried == TryInOrder(SampleRetries(n), accepted)
    ensures made == Accepted(tried, accepted)
    ensures antiAlias == SampleCountAfter(n, accepted)
  {
    antiAlias := n;
    tried := [];
    while antiAlias > 1
      invariant 1 <= antiAlias <= n
      invariant tried == [] || tried[|tried| - 1] !in accepted
      invariant SampleCountAfter(n, accepted) == SampleCountAfter(antiAlias, accepted)
      invariant TryInOrder(SampleRetries(n), accepted) == tried + TryInOrder(SampleRetries(antiAlias), accepted)
    {
      var attempt := GlAttempt(GlAttributes(false, 1, antiAlias, true));
      SampleRetryStep(antiAlias, accepted);
      tried := tried + [attempt];
      if attempt in accepted {
        return true, tried, antiAlias;
      }
      antiAlias := antiAlias - 1;
    }
    assert TryInOrder(SampleRetries(antiAlias), accepted) == [];
    made := false;
  }

  /** The first GL attempt and its stereo-less retry. */
  method TryAsAsked(p: CreationParams, accepted: set<Attempt>) returns (made: bool, tried: seq<Attempt>)
    ensures tried == TryInOrder(AsAskedAttempts(p), accepted)
    ensures made == Accepted(tried, accepted)
    ensures made <==> GlAttempt(FirstGlAttributes(p)) in accepted
                      || (p.stereobuffer && GlAttempt(FirstGlAttributes(p).(stereo := false)) in accepted)
  {
    var attrs := FirstGlAttributes(p);
    ghost var stereoPart := if p.stereobuffer then [GlAttempt(attrs.(stereo := false))] else [];
    TryInOrderStep(GlAttempt(attrs), stereoPart, accepted);
    tried := [GlAttempt(attrs)];
    made := GlAttempt(attrs) in accepted;
    if !made && p.stereobuffer {
      attrs := attrs.(stereo := false);
      TryInOrderStep(GlAttempt(attrs), [], accepted);
      tried := tried + [GlAttempt(attrs)];
      made := GlAttempt(attrs) in accepted;
    }
  }

  /** The attempts without multisampling: double buffered (after a sample loop), then single buffered. */
  method TryPlainGl(p: CreationParams, accepted: set<Attempt>) returns (made: bool, tried: seq<Attempt>)
    ensures tried == TryInOrder(PlainGlRetries(p), accepted)
    ensures made == Accepted(tried, accepted)
  {
    ghost var singlePart := if p.doublebuffer then [GlAttempt(GlAttributes(false, 0, 0, false))] else [];
    made := false;
    tried := [];
    if p.antiAlias > 1 {
      var attrs := GlAttributes(false, 0, 0, true);
      TryInOrderStep(GlAttempt(attrs), singlePart, accepted);
      tried := [GlAttempt(attrs)];
      made := GlAttempt(attrs) in accepted;
    }
    if !made && p.doublebuffer {
      var attrs := GlAttributes(false, 0, 0, false);
      TryInOrderStep(GlAttempt(attrs), [], accepted);
      tried := tried + [GlAttempt(attrs)];
      made := GlAttempt(attrs) in accepted;
    }
  }

  /** The fallback attempts once the first ones fail, and the AntiAlias the sample loop leaves. */
  method TryFallbacks(p: CreationParams, accepted: set<Attempt>) returns (made: bool, tried: seq<Attempt>, antiAlias: int)
    ensures tried == TryInOrder(FallbackAttempts(p), accepted)
    ensures made == Accepted(tried, accepted)
    ensures antiAlias == if p.antiAlias > 1 then SampleCountAfter(p.antiAlias - 1, accepted) else p.antiAlias
  {
    ghost var samplePart := if p.antiAlias > 1 then SampleRetries(p.antiAlias - 1) else [];
    TryInOrderAppend(samplePart, PlainGlRetries(p), accepted);
    made := false;
    tried := [];
    antiAlias := p.antiAlias;
    if p.antiAlias > 1 {
      made, tried, antiAlias := TrySampleCounts(p.antiAlias - 1, accepted);
    }
    if !made {
      var plainMade, plainTried := TryPlainGl(p, accepted);
      made := plainMade;
      tried := tried + plainTried;
    }
  }

  /**
   * The GL attempts of createWindow, in order, until SDL accepts one, and
   * the AntiAlias value it leaves.
   */
  method TryGlWindow(p: CreationParams, accepted: set<Attempt>) returns (made: bool, tried: seq<Attempt>, antiAlias: int)
    ensures tried == TryInOrder(GlAttempts(p), accepted)
    ensures made == Accepted(tried, accepted)
    ensures antiAlias == AntiAliasAfter(p.(driverType := OpenGlDriver), accepted)
  {
    TryInOrderAppend(AsAskedAttempts(p), FallbackAttempts(p), accepted);
    made, tried := TryAsAsked(p, accepted);
    antiAlias := p.antiAlias;
    if !made {
      var fallbackTried;
      made, fallbackTried, antiAlias := TryFallbacks(p, accepted);
      tried := tried + fallbackTried;
    }
  }
}
