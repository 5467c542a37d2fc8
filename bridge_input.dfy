/** `Bridge` of MacApp/bridge.py: Windows to the right of the Mac desktop;
    while Windows is driven the local cursor is kept near the middle of
    the desktop (it is warped back once it strays more than 200 px on an
    axis), and the Ctrl/Alt flags follow the keyboard in both modes. */
module BridgeInput {
  import opened Common
  import opened Json
  import opened Geometry
  import Session
  import opened Keyboard
  import opened Cursor

  /** `is_windows`, `win_x/win_y`, `_last_x/_last_y`, `ctrl/alt`. */
  datatype Snapshot = Snapshot(windows: bool, winX: int, winY: int, lastX: int, lastY: int, mods: Mods)

  /** (min x, max x, min y, max y) of the desktop. */
  type Bounds = (int, int, int, int)

  function Initial(): Snapshot {
    Snapshot(false, 960, 540, 0, 0, Mods(false, false))
  }

  /** `(min + max) // 2` on both axes. */
  function Mid(b: Bounds): (int, int) {
    ((b.0 + b.1) / 2, (b.2 + b.3) / 2)
  }

  const Reach := 200
  const KeyStyle := Style(true, false)

  /** The sample stays near the middle while Windows is driven. */
  ghost predicate Trapped(s: Snapshot, b: Bounds) {
    s.windows ==> Abs(s.lastX - Mid(b).0) <= Reach && Abs(s.lastY - Mid(b).1) <= Reach
  }

  /** `_to_windows(y)`: enter at (10, y) and warp to the middle. */
  function EnterWindows(s: Snapshot, b: Bounds, y: int): (e: Effect<Snapshot>)
    ensures s.windows ==> e == Effect(s, [], None)
    ensures !s.windows ==> (e.state == s.(windows := true, winX := 10, winY := y, lastX := Mid(b).0, lastY := Mid(b).1)
      && e.events == [ModeOn(10, y)] && e.warp == Some(Mid(b)))
  {
    if s.windows then Effect(s, [], None)
    else Effect(s.(windows := true, winX := 10, winY := y, lastX := Mid(b).0, lastY := Mid(b).1),
                [ModeOn(10, y)], Some(Mid(b)))
  }

  /** `_to_mac()`: back 100 px inside the right edge at the remote height. */
  function LeaveWindows(s: Snapshot, b: Bounds): (e: Effect<Snapshot>)
    ensures !s.windows ==> e == Effect(s, [], None)
    ensures s.windows ==> e == Effect(s.(windows := false), [ModeOff()], Some((b.1 - 100, s.winY)))
  {
    if !s.windows then Effect(s, [], None)
    else Effect(s.(windows := false), [ModeOff()], Some((b.1 - 100, s.winY)))
  }

  /** One pass of `_poll_edge`. */
  function PollStep(s: Snapshot, connected: bool, b: Bounds, x: int, y: int): (e: Effect<Snapshot>)
    ensures e.state.windows <==> s.windows || (connected && x >= b.1 - 5)
    ensures s.windows || !connected || x < b.1 - 5 ==> e == Effect(s, [], None)
  {
    if !s.windows && connected && x >= b.1 - 5 then EnterWindows(s, b, y) else Effect(s, [], None)
  }

  /** `_mouse_move(x, y)`. */
  function MoveStep(s: Snapshot, b: Bounds, x: int, y: int): (e: Effect<Snapshot>)
    ensures !s.windows ==> e == Effect(s, [], None)
  {
    if !s.windows then Effect(s, [], None)
    else
      var m := Advance(TestFirst, XAtMost(0), s.winX, s.winY, x - s.lastX, y - s.lastY);
      var moved := s.(winX := m.x, winY := m.y);
      if m.back then LeaveWindows(moved, b)
      else
        var last := Recentred(x, y, Mid(b).0, Mid(b).1, Reach);
        Effect(moved.(lastX := last.0, lastY := last.1), [MoveTo(m.x, m.y)],
               if last == (x, y) then None else Some(Mid(b)))
  }

  /** `_key_down(key)`. */
  function PressStep(s: Snapshot, b: Bounds, keys: map<string, int>, k: Key): (e: Effect<Snapshot>)
    ensures e.state.windows <==> s.windows && !IsHotkey(Track(s.mods, k, true), k)
    ensures !s.windows ==> e.events == [] && e.warp.None?
  {
    var r := Press(KeyStyle, keys, s.windows, s.mods, k);
    var s' := s.(mods := r.mods);
    if r.escape then LeaveWindows(s', b)
    else Effect(s', if r.forward.Some? then [KeyPlain(r.forward.value, true)] else [], None)
  }

  /** `_key_up(key)`. */
  function ReleaseStep(s: Snapshot, keys: map<string, int>, k: Key): (e: Effect<Snapshot>)
    ensures e.state.windows == s.windows && e.warp.None?
    ensures e.events != [] ==> s.windows && |e.events| == 1
  {
    var r := Release(KeyStyle, keys, s.windows, s.mods, k);
    Effect(s.(mods := r.mods), if r.forward.Some? then [KeyPlain(r.forward.value, false)] else [], None)
  }

  // -----------------------------------------------------------------------
  // Properties

  lemma SwitchesAreGuarded(s: Snapshot, b: Bounds, y: int, y2: int)
    ensures var e := EnterWindows(s, b, y); EnterWindows(e.state, b, y2) == Effect(e.state, [], None)
    ensures var e := LeaveWindows(s, b); LeaveWindows(e.state, b) == Effect(e.state, [], None)
  {
  }

  /** Every callback keeps the sample within 200 px of the middle on both
      axes while Windows is driven: entering puts it there, and each move
      either keeps a near sample or warps back to the middle. */
  lemma TrappedIsKept(s: Snapshot, b: Bounds, connected: bool, x: int, y: int, k: Key)
    requires Trapped(s, b)
    ensures Trapped(PollStep(s, connected, b, x, y).state, b)
    ensures Trapped(MoveStep(s, b, x, y).state, b)
    ensures Trapped(PressStep(s, b, BridgeTable, k).state, b)
    ensures Trapped(ReleaseStep(s, BridgeTable, k).state, b)
  {
    if s.windows {
      RecentredStaysNear(x, y, Mid(b).0, Mid(b).1, Reach);
    }
  }

  /** x <= 0 returns without sending the move; any other move is sent
      clamped. */
  lemma MoveOutcome(s: Snapshot, b: Bounds, x: int, y: int)
    requires s.windows
    ensures var e := MoveStep(s, b, x, y);
      (s.winX + (x - s.lastX) <= 0 ==> !e.state.windows && e.events == [ModeOff()]) &&
      (s.winX + (x - s.lastX) > 0 ==>
        e.state.windows && InBox(e.state.winX, e.state.winY) && e.events == [MoveTo(e.state.winX, e.state.winY)])
  {
  }

  /** The hotkey is swallowed in both modes; it only switches in Windows
      mode. In Mac mode the flags still follow Ctrl and Alt. */
  lemma HotkeyInBothModes(s: Snapshot, b: Bounds, c: char)
    requires s.mods == Mods(true, true) && (c == 'm' || c == 'M')
    ensures var e := PressStep(s, b, BridgeTable, Char(c));
      !e.state.windows && e.events == (if s.windows then [ModeOff()] else [])
    ensures PressStep(s.(mods := Mods(false, false)), b, BridgeTable, Special("ctrl_r")).state.mods.ctrl
  {
  }

  // -----------------------------------------------------------------------
  // The object

  class Bridge {
    const server: Session.HostServer
    /** The table `_vk` converts keys with. */
    const keys: map<string, int>
    const minX: int
    const maxX: int
    const minY: int
    const maxY: int
    var isWindows: bool
    var winX: int
    var winY: int
    var lastX: int
    var lastY: int
    var ctrl: bool
    var alt: bool

    function State(): Snapshot
      reads this
    {
      Snapshot(isWindows, winX, winY, lastX, lastY, Mods(ctrl, alt))
    }

    function B(): Bounds {
      (minX, maxX, minY, maxY)
    }

    constructor(server: Session.HostServer, screens: Option<seq<Rect>>)
      ensures this.server == server && keys == BridgeTable && State() == Initial()
      ensures B() == ScreenBounds(screens)
    {
      this.server := server;
      keys := BridgeTable;
      var bounds := ScreenBounds(screens);
      minX, maxX, minY, maxY := bounds.0, bounds.1, bounds.2, bounds.3;
      isWindows, winX, winY, lastX, lastY := false, 960, 540, 0, 0;
      ctrl, alt := false, false;
    }

    method PollEdge(x: int, y: int) returns (warp: Option<(int, int)>)
      modifies this, server
      ensures var e := PollStep(old(State()), old(server.connected), B(), x, y);
        State() == e.state && warp == e.warp && server.State() == Session.Deliver(old(server.State()), e.events)
    {
      warp := None;
      if !isWindows && server.connected && x >= maxX - 5 {
        warp := ToWindows(y);
      }
    }

    method ToWindows(y: int) returns (warp: Option<(int, int)>)
      modifies this, server
      ensures var e := EnterWindows(old(State()), B(), y);
        State() == e.state && warp == e.warp && server.State() == Session.Deliver(old(server.State()), e.events)
    {
      if isWindows {
        return None;
      }
      isWindows := true;
      winX, winY := 10, y;
      server.SendEvent(ModeOn(winX, winY));
      var mid := Mid(B());
      warp := Some(mid);
      lastX, lastY := mid.0, mid.1;
    }

    method ToMac() returns (warp: Option<(int, int)>)
      modifies this, server
      ensures var e := LeaveWindows(old(State()), B());
        State() == e.state && warp == e.warp && server.State() == Session.Deliver(old(server.State()), e.events)
    {
      if !isWindows {
        return None;
      }
      isWindows := false;
      server.SendEvent(ModeOff());
      warp := Some((maxX - 100, winY));
    }

    method MouseMove(x: int, y: int) returns (warp: Option<(int, int)>)
      modifies this, server
      ensures var e := MoveStep(old(State()), B(), x, y);
        State() == e.state && warp == e.warp && server.State() == Session.Deliver(old(server.State()), e.events)
    {
      if !isWindows {
        return None;
      }
      var dx, dy := x - lastX, y - lastY;
      winX, winY := winX + dx, winY + dy;
      if winX <= 0 {
        warp := ToMac();
        return;
      }
      winX := Max(0, Min(winX, RemoteWidth));
      winY := Max(0, Min(winY, RemoteHeight));
      server.SendEvent(MoveTo(winX, winY));
      var mid := Mid(B());
      if Abs(x - mid.0) > Reach || Abs(y - mid.1) > Reach {
        warp := Some(mid);
        lastX, lastY := mid.0, mid.1;
      } else {
        warp := None;
        lastX, lastY := x, y;
      }
    }

    method KeyDown(k: Key) returns (warp: Option<(int, int)>)
      modifies this, server
      ensures var e := PressStep(old(State()), B(), keys, k);
        State() == e.state && warp == e.warp && server.State() == Session.Deliver(old(server.State()), e.events)
    {
      ghost var r := Press(KeyStyle, keys, isWindows, Mods(ctrl, alt), k);
      warp := None;
      if IsCtrl(k) {
        ctrl := true;
      }
      if IsAlt(k) {
        alt := true;
      }
      assert r.mods == Mods(ctrl, alt);
      if ctrl && alt && k.Char? && (k.c == 'm' || k.c == 'M') {
        if isWindows {
          warp := ToMac();
        }
        return;
      }
      if isWindows {
        var vk := Vk(keys, k);
        if vk != 0 {
          server.SendEvent(KeyPlain(vk, true));
        }
      }
    }

    method KeyUp(k: Key)
      modifies this, server
      ensures var e := ReleaseStep(old(State()), keys, k);
        State() == e.state && server.State() == Session.Deliver(old(server.State()), e.events)
    {
      ghost var r := Release(KeyStyle, keys, isWindows, Mods(ctrl, alt), k);
      if IsCtrl(k) {
        ctrl := false;
      }
      if IsAlt(k) {
        alt := false;
      }
      assert r.mods == Mods(ctrl, alt);
      if isWindows {
        var vk := Vk(keys, k);
        if vk != 0 {
          server.SendEvent(KeyPlain(vk, false));
        }
      }
    }
  }
}
