/** `InputHandler` of MacApp/gui_app.py: Windows sits to the right of the
    whole Mac desktop; the local cursor is parked in the bottom-right corner
    while Windows is driven, and every move is measured from the park
    position. */
module GuiAppInput {
  import opened Common
  import opened Json
  import opened Geometry
  import Session
  import opened Keyboard
  import opened Cursor

  /** The handler's fields: `is_windows_mode`, `win_x/win_y`,
      `last_x/last_y` and the `ctrl/alt` flags. */
  datatype Handler = Handler(windows: bool, winX: int, winY: int, lastX: int, lastY: int, mods: Mods)

  /** `get_screen_bounds()`: (min x, max x, min y, max y). */
  type Bounds = (int, int, int, int)

  function Initial(): Handler {
    Handler(false, 960, 540, 0, 0, Mods(false, false))
  }

  /** `_park_mouse`: 50 px inside the bottom-right corner. */
  function Park(b: Bounds): (int, int) {
    (b.1 - 50, b.3 - 50)
  }

  const KeyStyle := Style(false, false)

  /** `_to_windows(y)`: enter at (5, y), announce it, park the cursor. */
  function EnterWindows(h: Handler, b: Bounds, y: int): (e: Effect<Handler>)
    ensures h.windows ==> e == Effect(h, [], None)
    ensures !h.windows ==> (e.state.windows && e.state.winX == 5 && e.state.winY == y
      && e.events == [ModeOn(5, y)] && e.warp == Some(Park(b))
      && (e.state.lastX, e.state.lastY) == Park(b) && e.state.mods == h.mods)
  {
    if h.windows then Effect(h, [], None)
    else Effect(h.(windows := true, winX := 5, winY := y, lastX := Park(b).0, lastY := Park(b).1),
                [ModeOn(5, y)], Some(Park(b)))
  }

  /** `_to_mac()`: announce the end and put the cursor back 100 px inside
      the right edge at the remote height. */
  function LeaveWindows(h: Handler, b: Bounds): (e: Effect<Handler>)
    ensures !h.windows ==> e == Effect(h, [], None)
    ensures h.windows ==> e == Effect(h.(windows := false), [ModeOff()], Some((b.1 - 100, h.winY)))
  {
    if !h.windows then Effect(h, [], None)
    else Effect(h.(windows := false), [ModeOff()], Some((b.1 - 100, h.winY)))
  }

  /** One pass of `_poll`: at most one switch, when connected and the
      cursor is within 5 px of the right edge of the desktop. */
  function PollStep(h: Handler, connected: bool, b: Bounds, x: int, y: int): (e: Effect<Handler>)
    ensures e.state.windows <==> h.windows || (connected && x >= b.1 - 5)
    ensures h.windows || !connected || x < b.1 - 5 ==> e == Effect(h, [], None)
  {
    if !h.windows && connected && x >= b.1 - 5 then EnterWindows(h, b, y) else Effect(h, [], None)
  }

  /** `_on_move(x, y)`. */
  function MoveStep(h: Handler, b: Bounds, x: int, y: int): (e: Effect<Handler>)
    ensures !h.windows ==> e == Effect(h, [], None)
  {
    if !h.windows then Effect(h, [], None)
    else
      var m := Advance(TestFirst, XAtMost(2), h.winX, h.winY, x - h.lastX, y - h.lastY);
      var moved := h.(winX := m.x, winY := m.y);
      if m.back then LeaveWindows(moved, b)
      else Effect(moved.(lastX := Park(b).0, lastY := Park(b).1), [MoveTo(m.x, m.y)], Some(Park(b)))
  }

  function PressStep(h: Handler, b: Bounds, keys: map<string, int>, k: Key): (e: Effect<Handler>)
    ensures e.state.windows <==> h.windows && !IsHotkey(Track(h.mods, k, true), k)
    ensures !h.windows ==> e.events == [] && e.warp.None?
  {
    var r := Press(KeyStyle, keys, h.windows, h.mods, k);
    var h' := h.(mods := r.mods);
    if r.escape then LeaveWindows(h', b)
    else Effect(h', if r.forward.Some? then [KeyPlain(r.forward.value, true)] else [], None)
  }

  function ReleaseStep(h: Handler, keys: map<string, int>, k: Key): (e: Effect<Handler>)
    ensures e.state.windows == h.windows && e.warp.None?
    ensures e.events != [] ==> h.windows && |e.events| == 1
  {
    var r := Release(KeyStyle, keys, h.windows, h.mods, k);
    Effect(h.(mods := r.mods), if r.forward.Some? then [KeyPlain(r.forward.value, false)] else [], None)
  }

  // -----------------------------------------------------------------------
  // Properties

  /** Switching is idempotent: a second switch in the same direction does
      nothing and sends nothing. */
  lemma SwitchesAreGuarded(h: Handler, b: Bounds, y: int, y2: int)
    ensures var e := EnterWindows(h, b, y); EnterWindows(e.state, b, y2) == Effect(e.state, [], None)
    ensures var e := LeaveWindows(h, b); LeaveWindows(e.state, b) == Effect(e.state, [], None)
  {
  }

  /** A move that reaches x <= 2 hands control back with the mode switch
      as the only event: the move itself is never sent. */
  lemma ReturnSendsNoMove(h: Handler, b: Bounds, x: int, y: int)
    requires h.windows && h.winX + (x - h.lastX) <= 2
    ensures var e := MoveStep(h, b, x, y);
      !e.state.windows && e.events == [ModeOff()] && e.warp == Some((b.1 - 100, h.winY + (y - h.lastY)))
  {
  }

  /** Any other move is sent, clamped into the remote desktop, and leaves
      the handler in Windows mode, measuring from the park position. */
  lemma MoveIsClampedAndSent(h: Handler, b: Bounds, x: int, y: int)
    requires h.windows && h.winX + (x - h.lastX) > 2
    ensures var e := MoveStep(h, b, x, y);
      e.state.windows && InBox(e.state.winX, e.state.winY)
      && e.events == [MoveTo(e.state.winX, e.state.winY)]
      && e.state.winX == Min(h.winX + (x - h.lastX), RemoteWidth)
      && (e.state.lastX, e.state.lastY) == Park(b)
  {
  }

  /** Ctrl+Alt+M in Windows mode switches back and the M is not sent. */
  lemma HotkeyEscapes(h: Handler, b: Bounds, c: char)
    requires h.windows && h.mods == Mods(true, true) && (c == 'm' || c == 'M')
    ensures var e := PressStep(h, b, SmallTable, Char(c));
      !e.state.windows && e.events == [ModeOff()]
  {
  }

  /** Keys are forwarded only in Windows mode and only with a non-zero code. */
  lemma KeysNeedACode(h: Handler, b: Bounds, k: Key)
    ensures var e := PressStep(h, b, SmallTable, k);
      e.events != [] && e.state.windows ==>
        (h.windows && e.events == [KeyPlain(Vk(SmallTable, k), true)] && Vk(SmallTable, k) != 0)
    ensures var e := ReleaseStep(h, SmallTable, k);
      e.events != [] <==> h.windows && Vk(SmallTable, k) != 0
  {
  }

  // -----------------------------------------------------------------------
  // The object

  class InputHandler {
    const server: Session.HostServer
    /** The table `_to_vk` converts keys with. */
    const keys: map<string, int>
    const minX: int
    const maxX: int
    const minY: int
    const maxY: int
    var isWindowsMode: bool
    var winX: int
    var winY: int
    var lastX: int
    var lastY: int
    var ctrl: bool
    var alt: bool

    function State(): Handler
      reads this
    {
      Handler(isWindowsMode, winX, winY, lastX, lastY, Mods(ctrl, alt))
    }

    function B(): Bounds {
      (minX, maxX, minY, maxY)
    }

    /** `__init__`: the bounds come from `get_screen_bounds()` over the
        screens AppKit reports (None where it fails). */
    constructor(server: Session.HostServer, screens: Option<seq<Rect>>)
      ensures this.server == server && keys == SmallTable && State() == Initial()
      ensures B() == ScreenBounds(screens)
    {
      this.server := server;
      keys := SmallTable;
      var bounds := ScreenBounds(screens);
      minX, maxX, minY, maxY := bounds.0, bounds.1, bounds.2, bounds.3;
      isWindowsMode, winX, winY, lastX, lastY := false, 960, 540, 0, 0;
      ctrl, alt := false, false;
    }

    method Poll(x: int, y: int) returns (warp: Option<(int, int)>)
      modifies this, server
      ensures var e := PollStep(old(State()), old(server.connected), B(), x, y);
        State() == e.state && warp == e.warp && server.State() == Session.Deliver(old(server.State()), e.events)
    {
      warp := None;
      if !isWindowsMode && server.connected && x >= maxX - 5 {
        warp := ToWindows(y);
      }
    }

    method ToWindows(y: int) returns (warp: Option<(int, int)>)
      modifies this, server
      ensures var e := EnterWindows(old(State()), B(), y);
        State() == e.state && warp == e.warp && server.State() == Session.Deliver(old(server.State()), e.events)
    {
      if isWindowsMode {
        return None;
      }
      isWindowsMode := true;
      winX, winY := 5, y;
      server.SendEvent(ModeOn(winX, winY));
      warp := Some(Park(B()));
      lastX, lastY := Park(B()).0, Park(B()).1;
    }

    method ToMac() returns (warp: Option<(int, int)>)
      modifies this, server
      ensures var e := LeaveWindows(old(State()), B());
        State() == e.state && warp == e.warp && server.State() == Session.Deliver(old(server.State()), e.events)
    {
      if !isWindowsMode {
        return None;
      }
      isWindowsMode := false;
      server.SendEvent(ModeOff());
      warp := Some((maxX - 100, winY));
    }

    method OnMove(x: int, y: int) returns (warp: Option<(int, int)>)
      modifies this, server
      ensures var e := MoveStep(old(State()), B(), x, y);
        State() == e.state && warp == e.warp && server.State() == Session.Deliver(old(server.State()), e.events)
    {
      if !isWindowsMode {
        return None;
      }
      var dx, dy := x - lastX, y - lastY;
      winX, winY := winX + dx, winY + dy;
      if winX <= 2 {
        warp := ToMac();
        return;
      }
      winX := Max(0, Min(winX, RemoteWidth));
      winY := Max(0, Min(winY, RemoteHeight));
      server.SendEvent(MoveTo(winX, winY));
      warp := Some(Park(B()));
      lastX, lastY := Park(B()).0, Park(B()).1;
    }

    method OnPress(k: Key) returns (warp: Option<(int, int)>)
      modifies this, server
      ensures var e := PressStep(old(State()), B(), keys, k);
        State() == e.state && warp == e.warp && server.State() == Session.Deliver(old(server.State()), e.events)
    {
      ghost var r := Press(KeyStyle, keys, isWindowsMode, Mods(ctrl, alt), k);
      warp := None;
      if !isWindowsMode {
        return;
      }
      if IsCtrl(k) {
        ctrl := true;
      } else if IsAlt(k) {
        alt := true;
      }
      assert r.mods == Mods(ctrl, alt);
      if ctrl && alt && k.Char? && (k.c == 'm' || k.c == 'M') {
        warp := ToMac();
        return;
      }
      var vk := Vk(keys, k);
      if vk != 0 {
        server.SendEvent(KeyPlain(vk, true));
      }
    }

    method OnRelease(k: Key)
      modifies this, server
      ensures var e := ReleaseStep(old(State()), keys, k);
        State() == e.state && server.State() == Session.Deliver(old(server.State()), e.events)
    {
      ghost var r := Release(KeyStyle, keys, isWindowsMode, Mods(ctrl, alt), k);
      if !isWindowsMode {
        return;
      }
      if IsCtrl(k) {
        ctrl := false;
      } else if IsAlt(k) {
        alt := false;
      }
      assert r.mods == Mods(ctrl, alt);
      var vk := Vk(keys, k);
      if vk != 0 {
        server.SendEvent(KeyPlain(vk, false));
      }
    }
  }
}
