/**
 * The SDL2 device object: the fields the event pump, window creation and
 * the window controls update in place, and the methods that update them,
 * each proved against the value-level definitions of module SdlEvents.
 */
module SdlDevice {
  import opened Wrappers
  import opened SdlKeyMap
  import opened SdlEvents

  class Device {
    var close: bool
    var windowHasFocus: bool
    var windowMinimized: bool
    var mouseX: int
    var mouseY: int
    var mouseButtonStates: bv32
    var width: int
    var height: int
    /** The sorted key table; left empty when SDL does not start. */
    var keyMap: array<KeyEntry>
    var window: Option<SdlWindow>
    var winFlags: set<WindowFlag>
    var creationParams: CreationParams
    /** Every event posted to the receiver so far, oldest first. */
    var posted: seq<IrrEvent>

    /** The fields the event pump reads and writes. */
    function State(): DevState
      reads this, keyMap
    {
      DevState(close, windowHasFocus, windowMinimized, mouseX, mouseY, mouseButtonStates, width, height, keyMap[..])
    }

    /**
     * The device constructor.  SDL's start-up, the window's acceptance of
     * each creation attempt, the window's pixel format and the creation of
     * the renderer and of the video driver are SDL's answers, passed in.
     */
    constructor (p: CreationParams, existingWindow: Option<SdlWindow>, sdlInitOk: bool,
                 accepted: set<Attempt>, format: PixelFormat, rendererOk: bool, driverOk: bool)
      ensures State() == DevState(close, false, false, 0, 0, 0, p.windowWidth, p.windowHeight, keyMap[..])
      ensures posted == []
      ensures sdlInitOk ==> IsKeyMap(keyMap[..])
      ensures !sdlInitOk ==> keyMap.Length == 0
      ensures !sdlInitOk ==> close && window == existingWindow && winFlags == {ResizableFlag} && creationParams == p
      ensures sdlInitOk && existingWindow.Some? ==>
                window == existingWindow && winFlags == {ResizableFlag} && creationParams == p
                && close == (!rendererOk || !driverOk)
      ensures sdlInitOk && existingWindow.None? ==>
                winFlags == {ResizableFlag} + CreationFlags(p)
                && window == CreatedWindow(p, winFlags, accepted, format)
                && creationParams == p.(antiAlias := AntiAliasAfter(p, accepted))
                && close == (window.None? || !rendererOk || !driverOk)
    {
      close := false;
      windowHasFocus := false;
      windowMinimized := false;
      mouseX := 0;
      mouseY := 0;
      mouseButtonStates := 0;
      width := p.windowWidth;
      height := p.windowHeight;
      window := existingWindow;
      winFlags := {ResizableFlag};
      creationParams := p;
      posted := [];
      var table;
      if sdlInitOk {
        table := CreateKeyMap();
      } else {
        table := new KeyEntry[0](_ => KeyEntry(0, KEY_UNKNOWN));
      }
      keyMap := table;
      new;
      if !sdlInitOk {
        close := true;
        return;
      }
      var made := CreateWindow(accepted, format);
      if !made || !rendererOk || !driverOk {
        close := true;
      }
    }

    /**
     * createWindow: an existing window is kept; otherwise the creation
     * flags are added and the attempts are made in order until SDL accepts
     * one, lowering AntiAlias as the sample loop does.
     */
    method CreateWindow(accepted: set<Attempt>, format: PixelFormat) returns (made: bool)
      modifies this`window, this`winFlags, this`creationParams
      ensures made == window.Some?
      ensures old(window).Some? ==>
                window == old(window) && winFlags == old(winFlags) && creationParams == old(creationParams)
      ensures old(window).None? ==>
                winFlags == old(winFlags) + CreationFlags(old(creationParams))
                && window == CreatedWindow(old(creationParams), winFlags, accepted, format)
                && creationParams == old(creationParams).(antiAlias := AntiAliasAfter(old(creationParams), accepted))
    {
      if window.Some? {
        return true;
      }
      var p := creationParams;
      winFlags := winFlags + CreationFlags(p);
      var size := CreationSize(p.windowWidth, p.windowHeight);
      var tried;
      if p.driverType == OpenGlDriver {
        var antiAlias;
        made, tried, antiAlias := TryGlWindow(p, accepted);
        creationParams := p.(antiAlias := antiAlias);
      } else {
        TryInOrderStep(PlainAttempt, [], accepted);
        tried := [PlainAttempt];
        made := PlainAttempt in accepted;
      }
      assert tried == TryInOrder(WindowAttempts(p), accepted);
      if made {
        window := Some(SdlWindow(size.0, size.1, winFlags, tried[|tried| - 1], format));
      }
    }

    /** updateWindowSize: a non-positive dimension SDL reports keeps the old one. */
    method UpdateWindowSize(reportedWidth: int, reportedHeight: int)
      modifies this`width, this`height
      ensures (width, height) == Resize(old(width), old(height), reportedWidth, reportedHeight)
    {
      if reportedWidth > 0 {
        width := reportedWidth;
      }
      if reportedHeight > 0 {
        height := reportedHeight;
      }
    }

    /** The window event cases of the event switch. */
    method HandleWindowEvent(kind: WindowEventKind)
      modifies this`close, this`windowHasFocus, this`windowMinimized, this`width, this`height
      ensures State() == WindowStep(old(State()), kind)
    {
      match kind
      case Shown => windowMinimized := false;
      case Hidden => windowMinimized := true;
      case Exposed => windowMinimized := false;
      case Moved =>
      case Resized(w, h) => UpdateWindowSize(w, h);
      case SizeChanged(w, h) => UpdateWindowSize(w, h);
      case Minimized => windowMinimized := true;
      case Maximized => windowMinimized := false;
      case Restored => windowMinimized := false;
      case Enter =>
      case Leave =>
      case FocusGained => windowHasFocus := true;
      case FocusLost => windowHasFocus := false;
      case CloseRequested => close := true;
      case UnknownWindowEvent =>
    }

    /** The keyboard cases of the event switch, looking keys up in the key table. */
    method HandleKeyEvent(e: SdlEvent, kHandled: bool) returns (kHandledAfter: bool)
      requires IsKeyEvent(e)
      modifies this`posted
      ensures kHandledAfter == KeyStep(State(), kHandled, e).kHandled
      ensures posted == old(posted) + KeyStep(State(), kHandled, e).posted
    {
      kHandledAfter := kHandled;
      match e
      case KeyDown(sym, shift, control) =>
        kHandledAfter := true;
        var key := TranslateKey(keyMap, sym);
        posted := posted + [KeyInput(WChar(sym), key, true, shift, control)];
      case KeyUp(sym, shift, control) =>
        var key := TranslateKey(keyMap, sym);
        posted := posted + [KeyInput(WChar(sym), key, false, shift, control)];
        kHandledAfter := false;
      case TextInput(c) =>
        if !kHandled {
          var wc := WChar(c);
          var key := TranslateKey(keyMap, wc);
          var ev := KeyInput(wc, key, true, false, false);
          posted := posted + [ev];
          posted := posted + [ev.(pressedDown := false)];
        }
    }

    /** The button states a motion event carries, built one SDL mask bit at a time. */
    static method RebuildButtonStates(state: bv32) returns (states: bv32)
      ensures states == ButtonStatesFromMask(state)
    {
      states := if state & SDL_BUTTON_LMASK != 0 then EMBSM_LEFT else 0;
      states := states | if state & SDL_BUTTON_MMASK != 0 then EMBSM_MIDDLE else 0;
      states := states | if state & SDL_BUTTON_RMASK != 0 then EMBSM_RIGHT else 0;
      states := states | if state & SDL_BUTTON_X1MASK != 0 then EMBSM_EXTRA1 else 0;
      states := states | if state & SDL_BUTTON_X2MASK != 0 then EMBSM_EXTRA2 else 0;
    }

    /** The mouse cases of the event switch; touch-synthesised events are skipped. */
    method HandleMouseEvent(e: SdlEvent, ghost kHandled: bool)
      requires IsMouseEvent(e)
      modifies this`mouseX, this`mouseY, this`mouseButtonStates, this`posted
      ensures State() == MouseStep(old(State()), kHandled, e).st
      ensures posted == old(posted) + MouseStep(old(State()), kHandled, e).posted
    {
      if e.which == SDL_TOUCH_MOUSEID {
        return;
      }
      match e
      case MouseMotion(_, x, y, state) =>
        mouseX := x;
        mouseY := y;
        mouseButtonStates := RebuildButtonStates(state);
        posted := posted + [MouseInput(Some(MouseMoved), x, y, mouseButtonStates)];
      case MouseButtonDown(_, x, y, button, clicks) =>
        mouseX := x;
        mouseY := y;
        posted := posted + [MouseInput(ClickEvent(button, clicks), x, y, mouseButtonStates)];
      case MouseButtonUp(_, x, y, button) =>
        mouseX := x;
        mouseY := y;
        posted := posted + [MouseInput(ReleaseEvent(button), x, y, mouseButtonStates)];
      case MouseWheel(_, _, wheelY, _) =>
        posted := posted + [MouseWheelInput(mouseX, mouseY, mouseButtonStates, wheelY)];
    }

    /** The application and user cases of the event switch. */
    method HandleAppEvent(e: SdlEvent, ghost kHandled: bool)
      requires !IsKeyEvent(e) && !IsMouseEvent(e) && !e.WindowEvent?
      modifies this`close, this`windowHasFocus, this`windowMinimized, this`posted
      ensures State() == Step(old(State()), kHandled, e).st
      ensures posted == old(posted) + Step(old(State()), kHandled, e).posted
    {
      match e
      case Quit => close := true;
      case AppTerminating => close := true;
      case AppLowMemory =>
      case AppWillEnterBackground =>
        windowHasFocus := false;
        windowMinimized := true;
      case AppDidEnterBackground =>
        windowHasFocus := false;
        windowMinimized := true;
      case AppWillEnterForeground =>
        windowHasFocus := true;
        windowMinimized := false;
      case AppDidEnterForeground =>
        windowHasFocus := true;
        windowMinimized := false;
      case UserEvent => posted := posted + [UserInput];
      case Unhandled =>
    }

    /**
     * One pass through the event switch of `run`: the new fields, the
     * pending-key flag and the events posted are those of one step, and a
     * close event tells the pump to stop.
     */
    method HandleEvent(e: SdlEvent, kHandled: bool) returns (kHandledAfter: bool, stop: bool)
      requires !close
      modifies this`close, this`windowHasFocus, this`windowMinimized, this`mouseX, this`mouseY,
               this`mouseButtonStates, this`width, this`height, this`posted
      ensures State() == Step(old(State()), kHandled, e).st
      ensures kHandledAfter == Step(old(State()), kHandled, e).kHandled
      ensures posted == old(posted) + Step(old(State()), kHandled, e).posted
      ensures stop == IsCloseEvent(e) && close == stop
    {
      StepDispatch(State(), kHandled, e);
      StepSetsCloseOnlyOnCloseEvents(State(), kHandled, e);
      kHandledAfter := kHandled;
      stop := e == Quit || e == AppTerminating || e == WindowEvent(CloseRequested);
      if IsKeyEvent(e) {
        kHandledAfter := HandleKeyEvent(e, kHandled);
      } else if IsMouseEvent(e) {
        HandleMouseEvent(e, kHandled);
      } else if e.WindowEvent? {
        HandleWindowEvent(e.kind);
      } else {
        HandleAppEvent(e, kHandled);
      }
    }

    /** The joystick poll at the end of `run`: one event per joystick, in order. */
    method PostJoystickEvents(joysticks: seq<JoystickState>)
      modifies this`posted
      ensures posted == old(posted) + JoystickEventsFrom(joysticks, 0)
    {
      var i := 0;
      while i < |joysticks|
        invariant 0 <= i <= |joysticks|
        invariant posted + JoystickEventsFrom(joysticks, i) == old(posted) + JoystickEventsFrom(joysticks, 0)
      {
        var js := joysticks[i];
        var buttons := JoystickButtonMask(js.buttons);
        var axes := JoystickAxes(js.axes);
        var pov := POV_CENTRED;
        if js.hats > 0 {
          pov := HatToPov(js.hat);
        }
        posted := posted + [JoystickInput(i % 256, buttons, axes, pov)];
        i := i + 1;
      }
    }

    /**
     * The polling loop of `run`: takes events from SDL's queue while the
     * device is open, as the pump RunFrom describes, and stops at once on
     * a close event.
     */
    method Pump(events: seq<SdlEvent>) returns (polled: nat, stoppedByClose: bool)
      modifies this`close, this`windowHasFocus, this`windowMinimized, this`mouseX, this`mouseY,
               this`mouseButtonStates, this`width, this`height, this`posted
      ensures var o := RunFrom(events, old(State()), false, [], 0);
              State() == o.st && polled == o.polled && stoppedByClose == o.stoppedByClose
              && posted == old(posted) + o.posted
      ensures stoppedByClose ==> close
    {
      ghost var start := State();
      ghost var acc: seq<IrrEvent> := [];
      var kHandled := false;
      var i := 0;
      while i < |events| && !close
        invariant 0 <= i <= |events|
        invariant posted == old(posted) + acc
        invariant RunFrom(events, start, false, [], 0) == RunFrom(events[i..], State(), kHandled, acc, i)
      {
        ghost var r := Step(State(), kHandled, events[i]);
        RunFromNext(events, i, State(), kHandled, acc);
        var stop;
        kHandled, stop := HandleEvent(events[i], kHandled);
        acc := acc + r.posted;
        i := i + 1;
        if stop {
          return i, true;
        }
      }
      assert close || events[i..] == [];
      return i, false;
    }

    /**
     * `run`: the polling loop, then, unless a close event ended it, one
     * event per joystick; it answers whether the device is still open.
     */
    method Run(events: seq<SdlEvent>, joysticks: seq<JoystickState>) returns (alive: bool, polled: nat)
      modifies this`close, this`windowHasFocus, this`windowMinimized, this`mouseX, this`mouseY,
               this`mouseButtonStates, this`width, this`height, this`posted
      ensures var o := RunFrom(events, old(State()), false, [], 0);
              State() == o.st && polled == o.polled
              && posted == old(posted) + o.posted + (if o.stoppedByClose then [] else JoystickEventsFrom(joysticks, 0))
      ensures alive == !close
    {
      var stoppedByClose;
      polled, stoppedByClose := Pump(events);
      if stoppedByClose {
        return false, polled;
      }
      PostJoystickEvents(joysticks);
      alive := !close;
    }

    /** closeDevice. */
    method CloseDevice()
      modifies this`close
      ensures close
    {
      close := true;
    }

    /** minimizeWindow: minimised and without focus. */
    method MinimizeWindow()
      modifies this`windowMinimized, this`windowHasFocus
      ensures windowMinimized && !windowHasFocus
    {
      windowMinimized := true;
      windowHasFocus := false;
    }

    /** maximizeWindow: shown and focused. */
    method MaximizeWindow()
      modifies this`windowMinimized, this`windowHasFocus
      ensures !windowMinimized && windowHasFocus
    {
      windowMinimized := false;
      windowHasFocus := true;
    }

    /** restoreWindow: no longer minimised; focus is left as it was. */
    method RestoreWindow()
      modifies this`windowMinimized
      ensures !windowMinimized
    {
      windowMinimized := false;
    }
  }
}
