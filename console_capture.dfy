/** `InputCapture` of MacApp/macwincontrol.py: one Windows desktop on the
    right (or left) of all Mac screens, chosen by `windows_position`. The
    remote position is clamped before the return test, and only the
    positions "right" and "left" ever switch. */
module ConsoleCapture {
  import opened Common
  import opened Json
  import opened Geometry
  import Session
  import opened Keyboard
  import opened Cursor

  /** `is_windows_mode`, `windows_x/windows_y`, `last_x/last_y` and the
      `ctrl_pressed/alt_pressed` flags. */
  datatype Capture = Capture(windows: bool, winX: int, winY: int, lastX: int, lastY: int, mods: Mods)

  function Initial(): Capture {
    Capture(false, 0, 540, 0, 0, Mods(false, false))
  }

  /** `is_at_edge`'s default threshold. */
  const Threshold := 3
  const KeyStyle := Style(false, true)

  /** Where the remote cursor enters: 5 px inside the left side of a
      desktop on the right, 1915 (5 px inside 1920) otherwise. */
  function EntryX(position: string): int {
    if position == "right" then 5 else 1915
  }

  /** When a move hands control back. */
  function ReturnFor(position: string): (t: ReturnTest)
    ensures position == "right" ==> t == XAtMost(2)
    ensures position == "left" ==> t == XAtLeast(1918)
    ensures position != "right" && position != "left" ==> t == Never
  {
    if position == "right" then XAtMost(2) else if position == "left" then XAtLeast(1918) else Never
  }

  /** `_switch_to_windows(y)` together with `_start_capture`, which records
      where the cursor is, (`mx`, `my`). */
  function EnterWindows(c: Capture, position: string, y: int, mx: int, my: int): (e: Effect<Capture>)
    ensures c.windows ==> e == Effect(c, [], None)
    ensures !c.windows ==> e == Effect(Capture(true, EntryX(position), y, mx, my, c.mods), [ModeOnBare()], None)
  {
    if c.windows then Effect(c, [], None)
    else Effect(Capture(true, EntryX(position), y, mx, my, c.mods), [ModeOnBare()], None)
  }

  /** `_switch_to_mac()`: 100 px inside the side Windows was on. */
  function LeaveWindows(c: Capture, b: Box, position: string): (e: Effect<Capture>)
    ensures !c.windows ==> e == Effect(c, [], None)
    ensures c.windows ==> e == Effect(c.(windows := false), [ModeOff()],
      Some((if position == "right" then b.maxX - 100 else b.minX + 100, c.winY)))
  {
    if !c.windows then Effect(c, [], None)
    else Effect(c.(windows := false), [ModeOff()], Some((if position == "right" then b.maxX - 100 else b.minX + 100, c.winY)))
  }

  /** One pass of `_edge_poll_loop` with the cursor at (x, y). */
  function PollStep(c: Capture, connected: bool, b: Box, position: string, x: int, y: int): (e: Effect<Capture>)
    ensures e.state.windows <==> c.windows || (connected && AtEdge(b, x, position, Threshold))
    ensures e.warp.None?
  {
    if !c.windows && connected && AtEdge(b, x, position, Threshold) then EnterWindows(c, position, y, x, y)
    else Effect(c, [], None)
  }

  /** `_on_move(x, y)`. */
  function MoveStep(c: Capture, b: Box, position: string, x: int, y: int): (e: Effect<Capture>)
    ensures !c.windows ==> e == Effect(c, [], None)
  {
    if !c.windows then Effect(c, [], None)
    else
      var m := Advance(ClampFirst, ReturnFor(position), c.winX, c.winY, x - c.lastX, y - c.lastY);
      var moved := c.(winX := m.x, winY := m.y, lastX := x, lastY := y);
      if m.back then LeaveWindows(moved, b, position)
      else Effect(moved, [MoveTo(m.x, m.y)], None)
  }

  function PressStep(c: Capture, b: Box, position: string, keys: map<string, int>, k: Key): (e: Effect<Capture>)
    ensures e.state.windows <==> c.windows && !IsHotkey(Track(c.mods, k, true), k)
    ensures !c.windows ==> e.events == [] && e.warp.None?
  {
    var r := Press(KeyStyle, keys, c.windows, c.mods, k);
    var c' := c.(mods := r.mods);
    if r.escape then LeaveWindows(c', b, position)
    else Effect(c', if r.forward.Some? then [KeyWithMods(r.forward.value, true, r.mods.ctrl, r.mods.alt, true)] else [], None)
  }

  function ReleaseStep(c: Capture, keys: map<string, int>, k: Key): (e: Effect<Capture>)
    ensures e.state.windows == c.windows && e.warp.None?
    ensures e.events != [] ==> c.windows && |e.events| == 1
  {
    var r := Release(KeyStyle, keys, c.windows, c.mods, k);
    Effect(c.(mods := r.mods),
           if r.forward.Some? then [KeyWithMods(r.forward.value, false, r.mods.ctrl, r.mods.alt, true)] else [], None)
  }

  // -----------------------------------------------------------------------
  // Properties

  lemma SwitchesAreGuarded(c: Capture, b: Box, position: string, y: int, mx: int, my: int)
    ensures var e := EnterWindows(c, position, y, mx, my);
      EnterWindows(e.state, position, y, mx, my) == Effect(e.state, [], None)
    ensures var e := LeaveWindows(c, b, position); LeaveWindows(e.state, b, position) == Effect(e.state, [], None)
  {
  }

  /** Entering and leaving at once puts the cursor 100 px inside the side
      it crossed, at the height it crossed. */
  lemma EnterThenLeave(c: Capture, b: Box, position: string, y: int, mx: int, my: int)
    requires !c.windows
    ensures var e := EnterWindows(c, position, y, mx, my);
      LeaveWindows(e.state, b, position).warp == Some((if position == "right" then b.maxX - 100 else b.minX + 100, y))
  {
  }

  /** Every move that is sent lies on the remote desktop, and control
      returns exactly when the clamped position reaches the return line of
      the chosen side. */
  lemma MoveOutcome(c: Capture, b: Box, position: string, x: int, y: int)
    requires c.windows
    ensures var e := MoveStep(c, b, position, x, y);
      var cx := Clamp(c.winX + (x - c.lastX), 0, RemoteWidth);
      (e.state.windows <==> !Hits(ReturnFor(position), cx, 0)) &&
      (e.state.windows ==> e.events == [MoveTo(e.state.winX, e.state.winY)] && InBox(e.state.winX, e.state.winY)) &&
      (!e.state.windows ==> e.events == [ModeOff()])
  {
  }

  /** With any position other than "right" or "left" the edge never fires,
      and a move never switches back: only the hotkey does. */
  lemma OtherPositionsAreInert(c: Capture, connected: bool, b: Box, position: string, x: int, y: int)
    requires position != "right" && position != "left"
    ensures PollStep(c, connected, b, position, x, y) == Effect(c, [], None)
    ensures c.windows ==> MoveStep(c, b, position, x, y).state.windows
  {
  }

  /** For Windows on the right, clamping before the test decides exactly as
      gui_app.py's test before clamping. */
  lemma RightAgreesWithTestFirst(c: Capture, b: Box, x: int, y: int)
    requires c.windows
    ensures var m := Advance(TestFirst, XAtMost(2), c.winX, c.winY, x - c.lastX, y - c.lastY);
      MoveStep(c, b, "right", x, y).state.windows == !m.back
  {
    ClampingKeepsDecision(XAtMost(2), c.winX, c.winY, x - c.lastX, y - c.lastY);
  }

  // -----------------------------------------------------------------------
  // The object

  class InputCapture {
    const server: Session.HostServer
    /** The table `_key_to_vk` converts keys with. */
    const keys: map<string, int>
    const manager: ScreenManager
    var windowsPosition: string
    var isWindowsMode: bool
    var windowsX: int
    var windowsY: int
    var lastX: int
    var lastY: int
    var ctrlPressed: bool
    var altPressed: bool

    function State(): Capture
      reads this
    {
      Capture(isWindowsMode, windowsX, windowsY, lastX, lastY, Mods(ctrlPressed, altPressed))
    }

    constructor(server: Session.HostServer, manager: ScreenManager, windowsPosition: string)
      ensures this.server == server && keys == FullTable && this.manager == manager && this.windowsPosition == windowsPosition
      ensures State() == Initial()
    {
      this.server := server;
      keys := FullTable;
      this.manager := manager;
      this.windowsPosition := windowsPosition;
      isWindowsMode, windowsX, windowsY, lastX, lastY := false, 0, 540, 0, 0;
      ctrlPressed, altPressed := false, false;
    }

    /** `set_windows_position`: the console's `l` and `r` commands move the
        Windows side; nothing else changes. */
    method SetWindowsPosition(position: string)
      modifies this
      ensures windowsPosition == position && State() == old(State())
    {
      windowsPosition := position;
    }

    /** One pass of `_edge_poll_loop`. */
    method EdgePoll(x: int, y: int)
      modifies this, server
      ensures windowsPosition == old(windowsPosition)
      ensures var e := PollStep(old(State()), old(server.connected), manager.totalBounds, windowsPosition, x, y);
        State() == e.state && server.State() == Session.Deliver(old(server.State()), e.events)
    {
      if !isWindowsMode && server.connected {
        if manager.IsAtEdge(x, y, windowsPosition, Threshold) {
          SwitchToWindows(y, x, y);
        }
      }
    }

    method SwitchToWindows(y: int, mx: int, my: int)
      modifies this, server
      ensures windowsPosition == old(windowsPosition)
      ensures var e := EnterWindows(old(State()), windowsPosition, y, mx, my);
        State() == e.state && server.State() == Session.Deliver(old(server.State()), e.events)
    {
      if isWindowsMode {
        return;
      }
      isWindowsMode := true;
      windowsX := if windowsPosition == "right" then 5 else 1915;
      windowsY := y;
      server.SendEvent(ModeOnBare());
      lastX, lastY := mx, my;
    }

    method SwitchToMac() returns (warp: Option<(int, int)>)
      modifies this, server
      ensures windowsPosition == old(windowsPosition)
      ensures var e := LeaveWindows(old(State()), manager.totalBounds, windowsPosition);
        State() == e.state && warp == e.warp && server.State() == Session.Deliver(old(server.State()), e.events)
    {
      if !isWindowsMode {
        return None;
      }
      isWindowsMode := false;
      server.SendEvent(ModeOff());
      var b := manager.totalBounds;
      var newX := if windowsPosition == "right" then b.maxX - 100 else b.minX + 100;
      warp := Some((newX, windowsY));
    }

    method OnMove(x: int, y: int) returns (warp: Option<(int, int)>)
      modifies this, server
      ensures windowsPosition == old(windowsPosition)
      ensures var e := MoveStep(old(State()), manager.totalBounds, windowsPosition, x, y);
        State() == e.state && warp == e.warp && server.State() == Session.Deliver(old(server.State()), e.events)
    {
      if !isWindowsMode {
        return None;
      }
      var dx, dy := x - lastX, y - lastY;
      lastX, lastY := x, y;
      windowsX, windowsY := windowsX + dx, windowsY + dy;
      windowsX := Max(0, Min(windowsX, RemoteWidth));
      windowsY := Max(0, Min(windowsY, RemoteHeight));
      if windowsPosition == "right" && windowsX <= 2 {
        warp := SwitchToMac();
        return;
      } else if windowsPosition == "left" && windowsX >= 1918 {
        warp := SwitchToMac();
        return;
      }
      server.SendEvent(MoveTo(windowsX, windowsY));
      warp := None;
    }

    method OnKeyPress(k: Key) returns (warp: Option<(int, int)>)
      modifies this, server
      ensures windowsPosition == old(windowsPosition)
      ensures var e := PressStep(old(State()), manager.totalBounds, windowsPosition, keys, k);
        State() == e.state && warp == e.warp && server.State() == Session.Deliver(old(server.State()), e.events)
    {
      ghost var r := Press(KeyStyle, keys, isWindowsMode, Mods(ctrlPressed, altPressed), k);
      warp := None;
      if !isWindowsMode {
        return;
      }
      if IsCtrl(k) {
        ctrlPressed := true;
      } else if IsAlt(k) {
        altPressed := true;
      }
      assert r.mods == Mods(ctrlPressed, altPressed);
      if ctrlPressed && altPressed && k.Char? && (k.c == 'm' || k.c == 'M') {
        warp := SwitchToMac();
        return;
      }
      server.SendEvent(KeyWithMods(Vk(keys, k), true, ctrlPressed, altPressed, true));
    }

    method OnKeyRelease(k: Key)
      modifies this, server
      ensures windowsPosition == old(windowsPosition)
      ensures var e := ReleaseStep(old(State()), keys, k);
        State() == e.state && server.State() == Session.Deliver(old(server.State()), e.events)
    {
      ghost var r := Release(KeyStyle, keys, isWindowsMode, Mods(ctrlPressed, altPressed), k);
      if !isWindowsMode {
        return;
      }
      if IsCtrl(k) {
        ctrlPressed := false;
      } else if IsAlt(k) {
        altPressed := false;
      }
      assert r.mods == Mods(ctrlPressed, altPressed);
      server.SendEvent(KeyWithMods(Vk(keys, k), false, ctrlPressed, altPressed, true));
    }
  }
}
