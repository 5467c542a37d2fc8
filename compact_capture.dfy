/** `InputCapture` of MacApp/MacWinControlApp.py: Windows screens beside
    the Mac (left or right only); the cursor stays on the screen it entered
    and any move past that screen's left or right side hands control
    back to the Mac. */
module CompactCapture {
  import opened Common
  import opened Json
  import opened Geometry
  import Session
  import opened Keyboard
  import opened Cursor

  /** `is_windows_mode`, `current_win_screen`, `win_x/win_y`,
      `last_x/last_y` and the `ctrl_pressed/alt_pressed` flags. */
  datatype Capture = Capture(windows: bool, current: int, winX: int, winY: int, lastX: int, lastY: int, mods: Mods)

  function Initial(): Capture {
    Capture(false, 0, 0, 0, 0, 0, Mods(false, false))
  }

  /** One callback's effect; `raised` is an IndexError escaping it. */
  datatype Step = Step(state: Capture, events: seq<Json>, warp: Option<(int, int)>, raised: bool)

  const Threshold := 5
  const KeyStyle := Style(false, true)

  /** `_switch_to_windows(mx, my)`. */
  function EnterWindows(c: Capture, mac: seq<Rect>, win: seq<Rect>, mx: int, my: int): (e: Step)
    ensures c.windows ==> e == Step(c, [], None, false)
    ensures !c.windows ==> var l := SideEntryPoint(mac, win, mx, my);
      e == Step(Capture(true, l.screen, l.x, l.y, mx, my, c.mods), [ModeOnScreen(l.screen, l.x, l.y)], None, false)
  {
    if c.windows then Step(c, [], None, false)
    else
      var l := SideEntryPoint(mac, win, mx, my);
      Step(Capture(true, l.screen, l.x, l.y, mx, my, c.mods), [ModeOnScreen(l.screen, l.x, l.y)], None, false)
  }

  /** `_switch_to_mac()`: an IndexError from `find_return_point` comes after
      the mode switch was sent. */
  function LeaveWindows(c: Capture, mac: seq<Rect>, win: seq<Rect>): (e: Step)
    ensures !c.windows ==> e == Step(c, [], None, false)
    ensures c.windows ==> !e.state.windows && e.events == [ModeOff()]
    ensures c.windows ==> e.warp == ReturnPoint(mac, win, c.current, c.winX, c.winY, true, false) && (e.raised <==> e.warp.None?)
  {
    if !c.windows then Step(c, [], None, false)
    else
      var r := ReturnPoint(mac, win, c.current, c.winX, c.winY, true, false);
      Step(c.(windows := false), [ModeOff()], r, r.None?)
  }

  /** One pass of `_edge_poll`. */
  function PollStep(c: Capture, connected: bool, mac: seq<Rect>, win: seq<Rect>, x: int, y: int): (e: Step)
    ensures e.state.windows <==> c.windows || (connected && SideTransitionEdge(mac, win, x, y, Threshold))
    ensures !e.raised && e.warp.None?
  {
    if !c.windows && connected && SideTransitionEdge(mac, win, x, y, Threshold) then EnterWindows(c, mac, win, x, y)
    else Step(c, [], None, false)
  }

  /** `_on_move(x, y)`: nothing happens for an index past the end of the
      list; a negative one counts from the end, or raises before the end. */
  function MoveStep(c: Capture, mac: seq<Rect>, win: seq<Rect>, x: int, y: int): (e: Step)
    ensures !c.windows || c.current >= |win| ==> e == Step(c, [], None, false)
  {
    if !c.windows || c.current >= |win| then Step(c, [], None, false)
    else
      match PyIndex(|win|, c.current)
      case None => Step(c, [], None, true)
      case Some(k) =>
        var ws := win[k];
        var nx, ny := c.winX + (x - c.lastX), c.winY + (y - c.lastY);
        var moved := c.(winX := nx, winY := ny, lastX := x, lastY := y);
        if nx < 0 || nx >= ws.width then LeaveWindows(moved, mac, win)
        else
          var cy := Clamp(ny, 0, ws.height - 1);
          Step(moved.(winY := cy), [MoveOnScreen(c.current, nx, cy)], None, false)
  }

  /** `_on_key_press(key)`: when the switch back raises, the M is sent. */
  function PressStep(c: Capture, mac: seq<Rect>, win: seq<Rect>, keys: map<string, int>, k: Key): (e: Step)
    ensures e.state.windows <==> c.windows && !IsHotkey(Track(c.mods, k, true), k)
    ensures !c.windows ==> e.events == [] && e.warp.None?
  {
    var r := Press(KeyStyle, keys, c.windows, c.mods, k);
    var c' := c.(mods := r.mods);
    var key := KeyWithMods(Vk(keys, k), true, r.mods.ctrl, r.mods.alt, false);
    if r.escape then
      var l := LeaveWindows(c', mac, win);
      if l.raised then Step(l.state, l.events + [key], None, false) else l
    else Step(c', if r.forward.Some? then [key] else [], None, false)
  }

  /** `_on_key_release(key)`. */
  function ReleaseStep(c: Capture, keys: map<string, int>, k: Key): (e: Step)
    ensures e.state.windows == c.windows && e.warp.None? && !e.raised
    ensures e.events != [] ==> c.windows && |e.events| == 1
  {
    var r := Release(KeyStyle, keys, c.windows, c.mods, k);
    Step(c.(mods := r.mods),
         if r.forward.Some? then [KeyWithMods(Vk(keys, k), false, r.mods.ctrl, r.mods.alt, false)] else [],
         None, false)
  }

  // -----------------------------------------------------------------------
  // Properties

  lemma SwitchesAreGuarded(c: Capture, mac: seq<Rect>, win: seq<Rect>, mx: int, my: int)
    ensures var e := EnterWindows(c, mac, win, mx, my);
      EnterWindows(e.state, mac, win, mx, my) == Step(e.state, [], None, false)
    ensures var e := LeaveWindows(c, mac, win); LeaveWindows(e.state, mac, win) == Step(e.state, [], None, false)
  {
  }

  /** This variant only switches where the four-sided test of
      macwincontrol_gui.py would too. */
  lemma PollIsNarrower(c: Capture, connected: bool, mac: seq<Rect>, win: seq<Rect>, x: int, y: int)
    requires !c.windows && PollStep(c, connected, mac, win, x, y).state.windows
    ensures TransitionEdge(mac, win, x, y, Threshold)
  {
    SideTransitionImpliesTransition(mac, win, x, y, Threshold);
  }

  /** While Windows is driven, every move that is sent lies on the current
      screen: x within its width (a move past either side returns to the
      Mac), y clamped to its height. */
  lemma SentMovesStayOnScreen(c: Capture, mac: seq<Rect>, win: seq<Rect>, x: int, y: int)
    requires 0 <= c.current < |win| && win[c.current].height > 0
    ensures var e := MoveStep(c, mac, win, x, y);
      e.state.windows && e.events != [] ==>
        e.events == [MoveOnScreen(c.current, e.state.winX, e.state.winY)] &&
        0 <= e.state.winX < win[c.current].width && 0 <= e.state.winY < win[c.current].height
    ensures var e := MoveStep(c, mac, win, x, y);
      var nx := c.winX + (x - c.lastX);
      c.windows && (nx < 0 || nx >= win[c.current].width) ==> !e.state.windows && e.events == [ModeOff()]
  {
  }

  /** Entering on the right of the Mac and returning at once lands 50 px
      inside the Mac's right side, at the height of entry. */
  lemma EnterThenLeave(c: Capture, mac: seq<Rect>, win: seq<Rect>, i: nat, px: int, py: int)
    requires !c.windows && Indexed(win) && i < |win|
    requires win[i].x == BoundsOr(mac).maxX && win[i].y <= py < Bottom(win[i])
    requires forall j :: 0 <= j < i ==> EntryAt(BoundsOr(mac), win[j], px, py, true).None?
    ensures var e := EnterWindows(c, mac, win, px, py);
      e.state.current == i && LeaveWindows(e.state, mac, win).warp == Some((BoundsOr(mac).maxX - 50, py))
  {
    var b := BoundsOr(mac);
    var e := FirstEntry(b, win, px, py, true);
    assert EntryAt(b, win[i], px, py, true).Some?;
    var k :| 0 <= k < |win| && e == EntryAt(b, win[k], px, py, true)
      && forall j :: 0 <= j < k ==> EntryAt(b, win[j], px, py, true).None?;
    assert k == i;
  }

  /** Ctrl+Alt+M switches back; the M is forwarded as well when the return
      point lookup raises. */
  lemma HotkeyOutcome(c: Capture, mac: seq<Rect>, win: seq<Rect>, ch: char)
    requires c.windows && c.mods == Mods(true, true) && (ch == 'm' || ch == 'M')
    ensures var e := PressStep(c, mac, win, CompactTable, Char(ch));
      var r := ReturnPoint(mac, win, c.current, c.winX, c.winY, true, false);
      !e.state.windows && e.warp == r &&
      e.events == [ModeOff()] + (if r.None? then [KeyWithMods(77, true, true, true, false)] else [])
  {
  }

  // -----------------------------------------------------------------------
  // The object

  class InputCapture {
    const server: Session.HostServer
    /** The table `_key_to_vk` converts keys with. */
    const keys: map<string, int>
    const arrangement: ScreenArrangement
    var isWindowsMode: bool
    var currentWinScreen: int
    var winX: int
    var winY: int
    var lastX: int
    var lastY: int
    var ctrlPressed: bool
    var altPressed: bool

    function State(): Capture
      reads this
    {
      Capture(isWindowsMode, currentWinScreen, winX, winY, lastX, lastY, Mods(ctrlPressed, altPressed))
    }

    constructor(server: Session.HostServer, arrangement: ScreenArrangement)
      ensures this.server == server && keys == CompactTable && this.arrangement == arrangement && State() == Initial()
    {
      this.server := server;
      keys := CompactTable;
      this.arrangement := arrangement;
      isWindowsMode, currentWinScreen, winX, winY := false, 0, 0, 0;
      lastX, lastY, ctrlPressed, altPressed := 0, 0, false, false;
    }

    /** One pass of `_edge_poll`. */
    method EdgePoll(x: int, y: int)
      modifies this, server
      ensures var e := PollStep(old(State()), old(server.connected), arrangement.mac, arrangement.windows, x, y);
        State() == e.state && server.State() == Session.Deliver(old(server.State()), e.events)
    {
      if !isWindowsMode && server.connected {
        if SideTransitionEdge(arrangement.mac, arrangement.windows, x, y, Threshold) {
          SwitchToWindows(x, y);
        }
      }
    }

    method SwitchToWindows(mx: int, my: int)
      modifies this, server
      ensures var e := EnterWindows(old(State()), arrangement.mac, arrangement.windows, mx, my);
        State() == e.state && server.State() == Session.Deliver(old(server.State()), e.events)
    {
      if isWindowsMode {
        return;
      }
      isWindowsMode := true;
      lastX, lastY := mx, my;
      var entry := SideEntryPoint(arrangement.mac, arrangement.windows, mx, my);
      currentWinScreen := entry.screen;
      winX, winY := entry.x, entry.y;
      server.SendEvent(ModeOnScreen(entry.screen, entry.x, entry.y));
    }

    method SwitchToMac() returns (warp: Option<(int, int)>, raised: bool)
      modifies this, server
      ensures var e := LeaveWindows(old(State()), arrangement.mac, arrangement.windows);
        State() == e.state && warp == e.warp && raised == e.raised
        && server.State() == Session.Deliver(old(server.State()), e.events)
    {
      if !isWindowsMode {
        return None, false;
      }
      isWindowsMode := false;
      server.SendEvent(ModeOff());
      warp := ReturnPoint(arrangement.mac, arrangement.windows, currentWinScreen, winX, winY, true, false);
      raised := warp.None?;
    }

    method OnMove(x: int, y: int) returns (warp: Option<(int, int)>, raised: bool)
      modifies this, server
      ensures var e := MoveStep(old(State()), arrangement.mac, arrangement.windows, x, y);
        State() == e.state && warp == e.warp && raised == e.raised
        && server.State() == Session.Deliver(old(server.State()), e.events)
    {
      if !isWindowsMode || currentWinScreen >= |arrangement.windows| {
        return None, false;
      }
      var k := PyIndex(|arrangement.windows|, currentWinScreen);
      if k.None? {
        return None, true;
      }
      var ws := arrangement.windows[k.value];
      var dx, dy := x - lastX, y - lastY;
      lastX, lastY := x, y;
      winX, winY := winX + dx, winY + dy;
      if winX < 0 || winX >= ws.width {
        warp, raised := SwitchToMac();
        return;
      }
      winY := Max(0, Min(winY, ws.height - 1));
      server.SendEvent(MoveOnScreen(currentWinScreen, winX, winY));
      warp, raised := None, false;
    }

    method OnKeyPress(k: Key) returns (warp: Option<(int, int)>)
      modifies this, server
      ensures var e := PressStep(old(State()), arrangement.mac, arrangement.windows, keys, k);
        State() == e.state && warp == e.warp && server.State() == Session.Deliver(old(server.State()), e.events)
    {
      ghost var r := Press(KeyStyle, keys, isWindowsMode, Mods(ctrlPressed, altPressed), k);
      warp := None;
      if !isWindowsMode {
        return;
      }
      if IsCtrl(k) {
        ctrlPressed := true;
      } else if IsAlt(k) {
        altPressed := true;
      }
      assert r.mods == Mods(ctrlPressed, altPressed);
      var key := KeyWithMods(Vk(keys, k), true, ctrlPressed, altPressed, false);
      if ctrlPressed && altPressed && k.Char? && (k.c == 'm' || k.c == 'M') {
        assert r.escape && State() == old(State()).(mods := r.mods);
        var raised;
        warp, raised := SwitchToMac();
        if !raised {
          return;
        }
        Session.DeliverTwice(old(server.State()), [ModeOff()], [key]);
      } else {
        assert !r.escape && r.forward == Some(Vk(keys, k));
      }
      server.SendEvent(key);
    }

    method OnKeyRelease(k: Key)
      modifies this, server
      ensures var e := ReleaseStep(old(State()), keys, k);
        State() == e.state && server.State() == Session.Deliver(old(server.State()), e.events)
    {
      ghost var r := Release(KeyStyle, keys, isWindowsMode, Mods(ctrlPressed, altPressed), k);
      if !isWindowsMode {
        return;
      }
      if IsCtrl(k) {
        ctrlPressed := false;
      } else if IsAlt(k) {
        altPressed := false;
      }
      assert r.mods == Mods(ctrlPressed, altPressed);
      server.SendEvent(KeyWithMods(Vk(keys, k), false, ctrlPressed, altPressed, false));
    }
  }
}
