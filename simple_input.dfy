/** `InputHandler` of MacApp/simple_server.py: only the main screen is
    considered; Windows sits to its right. The local cursor is not moved
    while Windows is driven: each sample is measured from the previous
    one. */
module SimpleInput {
  import opened Common
  import opened Json
  import opened Geometry
  import Session
  import opened Keyboard
  import opened Cursor

  /** `is_windows_mode`, `win_x/win_y`, `last_x/last_y`, `ctrl/alt`. */
  datatype Handler = Handler(windows: bool, winX: int, winY: int, lastX: int, lastY: int, mods: Mods)

  function Initial(): Handler {
    Handler(false, 960, 540, 0, 0, Mods(false, false))
  }

  /** The size of `NSScreen.mainScreen()`, 1920x1080 where AppKit fails. */
  function MainSize(main: Option<Rect>): (int, int) {
    match main
    case None => (1920, 1080)
    case Some(r) => (r.width, r.height)
  }

  const KeyStyle := Style(false, false)

  /** `_to_windows(y)`: enter at (5, y); the next delta is measured from
      where the cursor is now, (`mx`, `my`). */
  function EnterWindows(h: Handler, y: int, mx: int, my: int): (e: Effect<Handler>)
    ensures h.windows ==> e == Effect(h, [], None)
    ensures !h.windows ==> e == Effect(Handler(true, 5, y, mx, my, h.mods), [ModeOn(5, y)], None)
  {
    if h.windows then Effect(h, [], None)
    else Effect(h.(windows := true, winX := 5, winY := y, lastX := mx, lastY := my), [ModeOn(5, y)], None)
  }

  /** `_to_mac()`: back 100 px inside the right edge of the main screen. */
  function LeaveWindows(h: Handler, width: int): (e: Effect<Handler>)
    ensures !h.windows ==> e == Effect(h, [], None)
    ensures h.windows ==> e == Effect(h.(windows := false), [ModeOff()], Some((width - 100, h.winY)))
  {
    if !h.windows then Effect(h, [], None)
    else Effect(h.(windows := false), [ModeOff()], Some((width - 100, h.winY)))
  }

  /** One pass of `_poll` with the cursor at (x, y). */
  function PollStep(h: Handler, connected: bool, width: int, x: int, y: int): (e: Effect<Handler>)
    ensures e.state.windows <==> h.windows || (connected && x >= width - 3)
    ensures h.windows || !connected || x < width - 3 ==> e == Effect(h, [], None)
  {
    if !h.windows && connected && x >= width - 3 then EnterWindows(h, y, x, y) else Effect(h, [], None)
  }

  /** `_on_move(x, y)`: the sample is recorded first, whatever follows. */
  function MoveStep(h: Handler, width: int, x: int, y: int): (e: Effect<Handler>)
    ensures !h.windows ==> e == Effect(h, [], None)
    ensures h.windows ==> e.state.lastX == x && e.state.lastY == y
  {
    if !h.windows then Effect(h, [], None)
    else
      var m := Advance(TestFirst, XAtMost(2), h.winX, h.winY, x - h.lastX, y - h.lastY);
      var moved := h.(winX := m.x, winY := m.y, lastX := x, lastY := y);
      if m.back then LeaveWindows(moved, width)
      else Effect(moved, [MoveTo(m.x, m.y)], None)
  }

  function PressStep(h: Handler, width: int, keys: map<string, int>, k: Key): (e: Effect<Handler>)
    ensures e.state.windows <==> h.windows && !IsHotkey(Track(h.mods, k, true), k)
    ensures !h.windows ==> e.events == [] && e.warp.None?
  {
    var r := Press(KeyStyle, keys, h.windows, h.mods, k);
    var h' := h.(mods := r.mods);
    if r.escape then LeaveWindows(h', width)
    else Effect(h', if r.forward.Some? then [KeyPlain(r.forward.value, true)] else [], None)
  }

  function ReleaseStep(h: Handler, keys: map<string, int>, k: Key): (e: Effect<Handler>)
    ensures e.state.windows == h.windows && e.warp.None?
    ensures e.events != [] ==> h.windows && |e.events| == 1
  {
    var r := Release(KeyStyle, keys, h.windows, h.mods, k);
    Effect(h.(mods := r.mods), if r.forward.Some? then [KeyPlain(r.forward.value, false)] else [], None)
  }

  // -----------------------------------------------------------------------
  // Properties

  lemma SwitchesAreGuarded(h: Handler, width: int, y: int, mx: int, my: int)
    ensures var e := EnterWindows(h, y, mx, my); EnterWindows(e.state, y, mx, my) == Effect(e.state, [], None)
    ensures var e := LeaveWindows(h, width); LeaveWindows(e.state, width) == Effect(e.state, [], None)
  {
  }

  /** Samples that come back to where they started leave the remote
      position where it was: a move by (dx, dy) followed by one by
      (-dx, -dy) inside the remote desktop is undone. */
  lemma MovesCompose(h: Handler, width: int, x1: int, y1: int, x2: int, y2: int)
    requires h.windows && InBox(h.winX, h.winY) && h.winX > 2
    requires InBox(h.winX + (x1 - h.lastX), h.winY + (y1 - h.lastY)) && h.winX + (x1 - h.lastX) > 2
    requires x2 == h.lastX && y2 == h.lastY
    ensures var e1 := MoveStep(h, width, x1, y1);
      var e2 := MoveStep(e1.state, width, x2, y2);
      e2.state.windows && e2.state.winX == h.winX && e2.state.winY == h.winY
  {
    var e1 := MoveStep(h, width, x1, y1);
    FollowsInsideMoves(TestFirst, XAtMost(2), h.winX, h.winY, x1 - h.lastX, y1 - h.lastY);
    assert e1.state.winX == h.winX + (x1 - h.lastX);
    FollowsInsideMoves(TestFirst, XAtMost(2), e1.state.winX, e1.state.winY, x2 - x1, y2 - y1);
  }

  /** x <= 2 returns without sending the move; other moves are clamped and
      sent. */
  lemma MoveOutcome(h: Handler, width: int, x: int, y: int)
    requires h.windows
    ensures var e := MoveStep(h, width, x, y);
      (h.winX + (x - h.lastX) <= 2 ==> !e.state.windows && e.events == [ModeOff()]) &&
      (h.winX + (x - h.lastX) > 2 ==>
        e.state.windows && InBox(e.state.winX, e.state.winY) && e.events == [MoveTo(e.state.winX, e.state.winY)])
  {
  }

  lemma HotkeyEscapes(h: Handler, width: int, c: char)
    requires h.windows && h.mods == Mods(true, true) && (c == 'm' || c == 'M')
    ensures var e := PressStep(h, width, SimpleTable, Char(c));
      !e.state.windows && e.events == [ModeOff()] && e.warp == Some((width - 100, h.winY))
  {
  }

  // -----------------------------------------------------------------------
  // The object

  class InputHandler {
    const server: Session.HostServer
    /** The table `_to_vk` converts keys with. */
    const keys: map<string, int>
    const screenWidth: int
    const screenHeight: int
    var isWindowsMode: bool
    var winX: int
    var winY: int
    var lastX: int
    var lastY: int
    var ctrl: bool
    var alt: bool

    function State(): Handler
      reads this
    {
      Handler(isWindowsMode, winX, winY, lastX, lastY, Mods(ctrl, alt))
    }

    constructor(server: Session.HostServer, main: Option<Rect>)
      ensures this.server == server && keys == SimpleTable && State() == Initial()
      ensures (screenWidth, screenHeight) == MainSize(main)
    {
      this.server := server;
      keys := SimpleTable;
      var size := MainSize(main);
      screenWidth, screenHeight := size.0, size.1;
      isWindowsMode, winX, winY, lastX, lastY := false, 960, 540, 0, 0;
      ctrl, alt := false, false;
    }

    method Poll(x: int, y: int)
      modifies this, server
      ensures var e := PollStep(old(State()), old(server.connected), screenWidth, x, y);
        State() == e.state && server.State() == Session.Deliver(old(server.State()), e.events)
    {
      if !isWindowsMode && server.connected && x >= screenWidth - 3 {
        ToWindows(y, x, y);
      }
    }

    method ToWindows(y: int, mx: int, my: int)
      modifies this, server
      ensures var e := EnterWindows(old(State()), y, mx, my);
        State() == e.state && server.State() == Session.Deliver(old(server.State()), e.events)
    {
      if isWindowsMode {
        return;
      }
      isWindowsMode := true;
      winX, winY := 5, y;
      lastX, lastY := mx, my;
      server.SendEvent(ModeOn(winX, winY));
    }

    method ToMac() returns (warp: Option<(int, int)>)
      modifies this, server
      ensures var e := LeaveWindows(old(State()), screenWidth);
        State() == e.state && warp == e.warp && server.State() == Session.Deliver(old(server.State()), e.events)
    {
      if !isWindowsMode {
        return None;
      }
      isWindowsMode := false;
      server.SendEvent(ModeOff());
      warp := Some((screenWidth - 100, winY));
    }

    method OnMove(x: int, y: int) returns (warp: Option<(int, int)>)
      modifies this, server
      ensures var e := MoveStep(old(State()), screenWidth, x, y);
        State() == e.state && warp == e.warp && server.State() == Session.Deliver(old(server.State()), e.events)
    {
      if !isWindowsMode {
        return None;
      }
      var dx, dy := x - lastX, y - lastY;
      lastX, lastY := x, y;
      winX, winY := winX + dx, winY + dy;
      if winX <= 2 {
        warp := ToMac();
        return;
      }
      winX := Max(0, Min(winX, RemoteWidth));
      winY := Max(0, Min(winY, RemoteHeight));
      server.SendEvent(MoveTo(winX, winY));
      warp := None;
    }

    method OnPress(k: Key) returns (warp: Option<(int, int)>)
      modifies this, server
      ensures var e := PressStep(old(State()), screenWidth, keys, k);
        State() == e.state && warp == e.warp && server.State() == Session.Deliver(old(server.State()), e.events)
    {
      ghost var r := Press(KeyStyle, keys, isWindowsMode, Mods(ctrl, alt), k);
      warp := None;
      if !isWindowsMode {
        return;
      }
      if IsCtrl(k) {
        ctrl := true;
      } else if IsAlt(k) {
        alt := true;
      }
      assert r.mods == Mods(ctrl, alt);
      if ctrl && alt && k.Char? && (k.c == 'm' || k.c == 'M') {
        warp := ToMac();
        return;
      }
      var vk := Vk(keys, k);
      if vk != 0 {
        server.SendEvent(KeyPlain(vk, true));
      }
    }

    method OnRelease(k: Key)
      modifies this, server
      ensures var e := ReleaseStep(old(State()), keys, k);
        State() == e.state && server.State() == Session.Deliver(old(server.State()), e.events)
    {
      ghost var r := Release(KeyStyle, keys, isWindowsMode, Mods(ctrl, alt), k);
      if !isWindowsMode {
        return;
      }
      if IsCtrl(k) {
        ctrl := false;
      } else if IsAlt(k) {
        alt := false;
      }
      assert r.mods == Mods(ctrl, alt);
      var vk := Vk(keys, k);
      if vk != 0 {
        server.SendEvent(KeyPlain(vk, false));
      }
    }
  }
}
