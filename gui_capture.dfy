/** `InputCapture` of MacApp/macwincontrol_gui.py: the Mac drives one of
    several Windows screens laid out around the Mac screens. The cursor
    enters Windows on the screen flush against the Mac edge it reached,
    moves from screen to screen across flush sides, and comes back where
    its screen touches the Mac.

    The callbacks that can switch back or hop to the right take a flag
    `corrected`: false is the code as written, true repairs its two slips,
    the return tests for screens above and below the Mac (see
    `Geometry.TopEntryReturnsToMiddle`) and the height used after a hop to
    the right (see `RightHopKeepsOldHeight`). */
module GuiCapture {
  import opened Common
  import opened Json
  import opened Geometry
  import Session
  import opened Keyboard
  import opened Cursor

  /** `is_windows_mode`, `current_win_screen`, `win_local_x/y`,
      `last_mac_x/y` and the `ctrl_pressed/alt_pressed` flags. */
  datatype Capture = Capture(windows: bool, current: int, lx: int, ly: int, lastX: int, lastY: int, mods: Mods)

  function Initial(): Capture {
    Capture(false, 0, 0, 0, 0, 0, Mods(false, false))
  }

  /** One callback's effect; `raised` is an IndexError escaping it. */
  datatype Step = Step(state: Capture, events: seq<Json>, warp: Option<(int, int)>, raised: bool)

  /** `get_transition_edge`'s default threshold. */
  const Threshold := 5
  const KeyStyle := Style(false, true)

  // -----------------------------------------------------------------------
  // Neighbouring Windows screens

  /** `ws` lies flush against `cur` on its left (`left`) or right side. */
  predicate Flush(ws: Rect, cur: Rect, left: bool) {
    if left then Right(ws) == cur.x else ws.x == Right(cur)
  }

  /** The first screen from `from` on, other than `cur`, flush against `c`. */
  function AdjacentFrom(win: seq<Rect>, from: nat, cur: int, c: Rect, left: bool): (r: Option<nat>)
    requires from <= |win|
    ensures r.Some? ==> from <= r.value < |win| && r.value != cur && Flush(win[r.value], c, left)
    ensures r.Some? ==> forall j :: from <= j < r.value && j != cur ==> !Flush(win[j], c, left)
    ensures r.None? ==> forall j :: from <= j < |win| && j != cur ==> !Flush(win[j], c, left)
    decreases |win| - from
  {
    if from == |win| then None
    else if from != cur && Flush(win[from], c, left) then Some(from)
    else AdjacentFrom(win, from + 1, cur, c, left)
  }

  /** `_find_adjacent_screen(direction)`: nothing for an index past the
      end of the list; a negative index counts from the end, as Python's
      indexing does (one past the start, where Python raises, is never
      passed here: `_on_move` indexes the list first). */
  function Adjacent(win: seq<Rect>, cur: int, left: bool): (r: Option<nat>)
    ensures r.Some? ==> r.value < |win| && r.value != cur
    ensures cur >= |win| ==> r.None?
  {
    if cur >= |win| then None
    else
      match PyIndex(|win|, cur)
      case None => None
      case Some(k) => AdjacentFrom(win, 0, cur, win[k], left)
  }

  /** The neighbour found is the first flush screen in list order, and no
      neighbour means no screen in the list is flush on that side. */
  lemma AdjacentMeans(win: seq<Rect>, cur: nat, left: bool)
    requires cur < |win|
    ensures Adjacent(win, cur, left).None? <==>
      forall j :: 0 <= j < |win| && j != cur ==> !Flush(win[j], win[cur], left)
    ensures Adjacent(win, cur, left).Some? ==> Flush(win[Adjacent(win, cur, left).value], win[cur], left)
  {
  }

  // -----------------------------------------------------------------------
  // The callbacks

  /** `_switch_to_windows(mac_x, mac_y)`. */
  function EnterWindows(c: Capture, mac: seq<Rect>, win: seq<Rect>, mx: int, my: int): (e: Step)
    ensures c.windows ==> e == Step(c, [], None, false)
    ensures !c.windows ==> var l := EntryPoint(mac, win, mx, my);
      e == Step(Capture(true, l.screen, l.x, l.y, mx, my, c.mods), [ModeOnScreen(l.screen, l.x, l.y)], None, false)
  {
    if c.windows then Step(c, [], None, false)
    else
      var l := EntryPoint(mac, win, mx, my);
      Step(Capture(true, l.screen, l.x, l.y, mx, my, c.mods), [ModeOnScreen(l.screen, l.x, l.y)], None, false)
  }

  /** `_switch_to_mac()`: the mode switch is sent before the return point is
      looked up, so an IndexError there leaves Mac mode entered and the
      cursor where it is. */
  function LeaveWindows(c: Capture, mac: seq<Rect>, win: seq<Rect>, corrected: bool): (e: Step)
    ensures !c.windows ==> e == Step(c, [], None, false)
    ensures c.windows ==> !e.state.windows && e.events == [ModeOff()]
    ensures c.windows ==> e.warp == ReturnPoint(mac, win, c.current, c.lx, c.ly, false, corrected) && (e.raised <==> e.warp.None?)
  {
    if !c.windows then Step(c, [], None, false)
    else
      var r := ReturnPoint(mac, win, c.current, c.lx, c.ly, false, corrected);
      Step(c.(windows := false), [ModeOff()], r, r.None?)
  }

  /** One pass of `_edge_poll_loop` with the cursor at (x, y). */
  function PollStep(c: Capture, connected: bool, mac: seq<Rect>, win: seq<Rect>, x: int, y: int): (e: Step)
    ensures e.state.windows <==> c.windows || (connected && TransitionEdge(mac, win, x, y, Threshold))
    ensures !e.raised && e.warp.None?
  {
    if !c.windows && connected && TransitionEdge(mac, win, x, y, Threshold) then EnterWindows(c, mac, win, x, y)
    else Step(c, [], None, false)
  }

  /** The move sent to `screen`, its y clamped to a screen of height `h`. */
  function Sent(c: Capture, screen: int, x: int, y: int, h: int): Step {
    var cy := Clamp(y, 0, h - 1);
    Step(c.(current := screen, lx := x, ly := cy), [MoveOnScreen(screen, x, cy)], None, false)
  }

  /** `_on_move(x, y)`. As written (`corrected` false) y is clamped to the
      old screen's height after a hop to the right; corrected, to the new
      screen's, as after a hop to the left. */
  function MoveWith(c: Capture, mac: seq<Rect>, win: seq<Rect>, x: int, y: int, corrected: bool): (e: Step)
    ensures !c.windows ==> e == Step(c, [], None, false)
  {
    if !c.windows then Step(c, [], None, false)
    else
      var cur := if c.current >= |win| then 0 else c.current;
      match PyIndex(|win|, cur)
      case None => Step(c.(current := cur), [], None, true)
      case Some(k) =>
        var moved := c.(current := cur, lx := c.lx + (x - c.lastX), ly := c.ly + (y - c.lastY), lastX := x, lastY := y);
        Place(moved, mac, win, k, corrected)
  }

  /** The second half of `_on_move`: the cursor has moved to (`c.lx`,
      `c.ly`) relative to screen `win[k]`, which `c.current` indexes. */
  function Place(c: Capture, mac: seq<Rect>, win: seq<Rect>, k: nat, corrected: bool): (e: Step)
    requires k < |win|
    ensures c.windows && e.state.windows ==>
      e.events == [MoveOnScreen(e.state.current, e.state.lx, e.state.ly)] && e.warp.None? && !e.raised
    ensures c.windows && !e.state.windows ==> e.events == [ModeOff()]
  {
    var ws := win[k];
    if c.lx < 0 then
      match Adjacent(win, c.current, true)
      case None => LeaveWindows(c, mac, win, corrected)
      case Some(i) => Sent(c, i, win[i].width + c.lx, c.ly, win[i].height)
    else if c.lx >= ws.width then
      match Adjacent(win, c.current, false)
      case None => LeaveWindows(c, mac, win, corrected)
      case Some(i) => Sent(c, i, c.lx - ws.width, c.ly, if corrected then win[i].height else ws.height)
    else Sent(c, c.current, c.lx, c.ly, ws.height)
  }

  /** `_on_key_press(key)`. The switch back runs inside `try`/`except:
      pass`: when it raises, the M is sent after all. */
  function PressStep(c: Capture, mac: seq<Rect>, win: seq<Rect>, keys: map<string, int>, k: Key, corrected: bool): (e: Step)
    ensures e.state.windows <==> c.windows && !IsHotkey(Track(c.mods, k, true), k)
    ensures !c.windows ==> e.events == [] && e.warp.None?
  {
    var r := Press(KeyStyle, keys, c.windows, c.mods, k);
    var c' := c.(mods := r.mods);
    var key := KeyWithMods(Vk(keys, k), true, r.mods.ctrl, r.mods.alt, true);
    if r.escape then
      var l := LeaveWindows(c', mac, win, corrected);
      if l.raised then Step(l.state, l.events + [key], None, false) else l
    else Step(c', if r.forward.Some? then [key] else [], None, false)
  }

  /** `_on_key_release(key)`. */
  function ReleaseStep(c: Capture, keys: map<string, int>, k: Key): (e: Step)
    ensures e.state.windows == c.windows && e.warp.None? && !e.raised
    ensures e.events != [] ==> c.windows && |e.events| == 1
  {
    var r := Release(KeyStyle, keys, c.windows, c.mods, k);
    Step(c.(mods := r.mods),
         if r.forward.Some? then [KeyWithMods(Vk(keys, k), false, r.mods.ctrl, r.mods.alt, true)] else [],
         None, false)
  }

  // -----------------------------------------------------------------------
  // Properties

  lemma SwitchesAreGuarded(c: Capture, mac: seq<Rect>, win: seq<Rect>, mx: int, my: int, corrected: bool)
    ensures var e := EnterWindows(c, mac, win, mx, my);
      EnterWindows(e.state, mac, win, mx, my) == Step(e.state, [], None, false)
    ensures var e := LeaveWindows(c, mac, win, corrected);
      LeaveWindows(e.state, mac, win, corrected) == Step(e.state, [], None, false)
  {
  }

  /** Entering a screen flush against the right side of the Mac and going
      straight back puts the cursor 50 px inside that side, at the height
      it left, with the return tests as written or corrected. */
  lemma EnterThenLeave(c: Capture, mac: seq<Rect>, win: seq<Rect>, i: nat, px: int, py: int, corrected: bool)
    requires !c.windows && Indexed(win) && i < |win|
    requires win[i].x == BoundsOr(mac).maxX && win[i].y <= py < Bottom(win[i])
    requires forall j :: 0 <= j < i ==> EntryAt(BoundsOr(mac), win[j], px, py, false).None?
    ensures var e := EnterWindows(c, mac, win, px, py);
      e.state.current == i && LeaveWindows(e.state, mac, win, corrected).warp == Some((BoundsOr(mac).maxX - 50, py))
  {
    EnterRightThenReturn(mac, win, i, px, py);
  }

  /** A move that stays within the current screen's width is sent on that
      screen, its y clamped to the screen. */
  lemma MoveWithinScreen(c: Capture, mac: seq<Rect>, win: seq<Rect>, x: int, y: int, corrected: bool)
    requires c.windows && 0 <= c.current < |win|
    requires 0 <= c.lx + (x - c.lastX) < win[c.current].width
    ensures var e := MoveWith(c, mac, win, x, y, corrected);
      var ny := Clamp(c.ly + (y - c.lastY), 0, win[c.current].height - 1);
      e == Step(c.(lx := c.lx + (x - c.lastX), ly := ny, lastX := x, lastY := y),
                [MoveOnScreen(c.current, c.lx + (x - c.lastX), ny)], None, false)
  {
  }

  /** Leaving the current screen on a side with no flush neighbour hands
      control back to the Mac; with one, the cursor moves onto it. */
  lemma MoveOffScreen(c: Capture, mac: seq<Rect>, win: seq<Rect>, x: int, y: int, corrected: bool)
    requires c.windows && 0 <= c.current < |win|
    ensures var e := MoveWith(c, mac, win, x, y, corrected);
      var nx := c.lx + (x - c.lastX);
      var left := nx < 0;
      (nx < 0 || nx >= win[c.current].width) ==>
        (Adjacent(win, c.current, left).None? ==> !e.state.windows && e.events == [ModeOff()]) &&
        (Adjacent(win, c.current, left).Some? ==>
          e.state.windows && e.state.current == Adjacent(win, c.current, left).value &&
          e.state.lx == (if left then win[e.state.current].width + nx else nx - win[c.current].width))
  {
  }

  /** Without any Windows screen a move raises IndexError and sends nothing. */
  lemma NoScreenRaises(c: Capture, mac: seq<Rect>, x: int, y: int, corrected: bool)
    requires c.windows
    ensures var e := MoveWith(c, mac, [], x, y, corrected); e.raised && e.events == [] && e.state.windows
  {
  }

  /** As written, a hop to the right clamps y to the height of the screen
      it left: from a 1440 px high screen onto a 1080 px high one at
      y = 1400, the move is sent below the bottom of the new screen. */
  lemma RightHopKeepsOldHeight()
    ensures var mac := [Rect(1920, 1080, 0, 0, 0)];
      var win := [Rect(2560, 1440, 1920, 0, 0), Rect(1920, 1080, 4480, 0, 1)];
      var c := Capture(true, 0, 2550, 1400, 0, 0, Mods(false, false));
      var e := MoveWith(c, mac, win, 20, 0, false);
      e.events == [MoveOnScreen(1, 10, 1400)] && e.state.ly >= win[e.state.current].height
  {
    var win := [Rect(2560, 1440, 1920, 0, 0), Rect(1920, 1080, 4480, 0, 1)];
    assert Flush(win[1], win[0], false);
    assert Adjacent(win, 0, false) == Some(1);
  }

  /** With the new screen's height, every move that is sent lands within
      the height of the screen it names. */
  lemma FixedMoveStaysOnScreen(c: Capture, mac: seq<Rect>, win: seq<Rect>, x: int, y: int)
    requires c.current >= 0
    requires forall i :: 0 <= i < |win| ==> win[i].height > 0
    ensures var e := MoveWith(c, mac, win, x, y, true);
      c.windows && e.state.windows && e.events != [] ==>
        0 <= e.state.current < |win| && 0 <= e.state.ly < win[e.state.current].height
  {
  }

  /** Switching back from a screen right above the Mac, 5 px from its
      bottom edge, the edge that faces the Mac: as written the cursor lands
      in the middle of the Mac, corrected at the column it left from. */
  lemma LeaveFromAbove()
    ensures var mac, win := [Rect(1920, 1080, 0, 0, 0)], [Rect(1920, 1080, 0, -1080, 0)];
      var c := Capture(true, 0, 500, 1075, 500, 0, Mods(false, false));
      && LeaveWindows(c, mac, win, false) == Step(c.(windows := false), [ModeOff()], Some((960, 540)), false)
      && LeaveWindows(c, mac, win, true) == Step(c.(windows := false), [ModeOff()], Some((500, 50)), false)
  {
    TopEntryReturnsToMiddle();
  }

  /** Ctrl+Alt+M switches back; when the return point cannot be found the
      switch still happens and the M is forwarded as well. */
  lemma HotkeyOutcome(c: Capture, mac: seq<Rect>, win: seq<Rect>, ch: char, corrected: bool)
    requires c.windows && c.mods == Mods(true, true) && (ch == 'm' || ch == 'M')
    ensures var e := PressStep(c, mac, win, FullTable, Char(ch), corrected);
      var r := ReturnPoint(mac, win, c.current, c.lx, c.ly, false, corrected);
      !e.state.windows && e.warp == r &&
      e.events == [ModeOff()] + (if r.None? then [KeyWithMods(77, true, true, true, true)] else [])
  {
  }

  /** Every key reaches Windows in Windows mode except the hotkey, with
      code 0 where the key has none. */
  lemma KeysAlwaysSent(c: Capture, mac: seq<Rect>, win: seq<Rect>, k: Key, corrected: bool)
    requires c.windows && !IsHotkey(Track(c.mods, k, true), k)
    ensures var e := PressStep(c, mac, win, FullTable, k, corrected); var m := e.state.mods;
      e.events == [KeyWithMods(Vk(FullTable, k), true, m.ctrl, m.alt, true)] && e.state.windows
    ensures var e := ReleaseStep(c, FullTable, k); var m := e.state.mods;
      e.events == [KeyWithMods(Vk(FullTable, k), false, m.ctrl, m.alt, true)]
  {
  }

  // -----------------------------------------------------------------------
  // The object

  class InputCapture {
    const server: Session.HostServer
    /** The table `_key_to_vk` converts keys with. */
    const keys: map<string, int>
    const arrangement: ScreenArrangement
    /** False: the callbacks run the code as written; true: with its two
        slips repaired. */
    const corrected: bool
    var isWindowsMode: bool
    var currentWinScreen: int
    var winLocalX: int
    var winLocalY: int
    var lastMacX: int
    var lastMacY: int
    var ctrlPressed: bool
    var altPressed: bool

    function State(): Capture
      reads this
    {
      Capture(isWindowsMode, currentWinScreen, winLocalX, winLocalY, lastMacX, lastMacY, Mods(ctrlPressed, altPressed))
    }

    constructor(server: Session.HostServer, arrangement: ScreenArrangement, corrected: bool)
      ensures this.server == server && keys == FullTable && this.arrangement == arrangement
      ensures this.corrected == corrected && State() == Initial()
    {
      this.server := server;
      keys := FullTable;
      this.arrangement := arrangement;
      this.corrected := corrected;
      isWindowsMode, currentWinScreen, winLocalX, winLocalY := false, 0, 0, 0;
      lastMacX, lastMacY, ctrlPressed, altPressed := 0, 0, false, false;
    }

    /** One pass of `_edge_poll_loop`. */
    method EdgePoll(x: int, y: int)
      modifies this, server
      ensures var e := PollStep(old(State()), old(server.connected), arrangement.mac, arrangement.windows, x, y);
        State() == e.state && server.State() == Session.Deliver(old(server.State()), e.events)
    {
      if !isWindowsMode && server.connected {
        if TransitionEdge(arrangement.mac, arrangement.windows, x, y, Threshold) {
          SwitchToWindows(x, y);
        }
      }
    }

    method SwitchToWindows(mx: int, my: int)
      modifies this, server
      ensures var e := EnterWindows(old(State()), arrangement.mac, arrangement.windows, mx, my);
        State() == e.state && server.State() == Session.Deliver(old(server.State()), e.events)
    {
      if isWindowsMode {
        return;
      }
      isWindowsMode := true;
      lastMacX, lastMacY := mx, my;
      var entry := EntryPoint(arrangement.mac, arrangement.windows, mx, my);
      currentWinScreen := entry.screen;
      winLocalX, winLocalY := entry.x, entry.y;
      server.SendEvent(ModeOnScreen(entry.screen, entry.x, entry.y));
    }

    method SwitchToMac() returns (warp: Option<(int, int)>, raised: bool)
      modifies this, server
      ensures var e := LeaveWindows(old(State()), arrangement.mac, arrangement.windows, corrected);
        State() == e.state && warp == e.warp && raised == e.raised
        && server.State() == Session.Deliver(old(server.State()), e.events)
    {
      if !isWindowsMode {
        return None, false;
      }
      isWindowsMode := false;
      server.SendEvent(ModeOff());
      warp := ReturnPoint(arrangement.mac, arrangement.windows, currentWinScreen, winLocalX, winLocalY, false, corrected);
      raised := warp.None?;
    }

    /** `_find_adjacent_screen(direction)`: a scan of the screen list. */
    method FindAdjacentScreen(left: bool) returns (r: Option<nat>)
      ensures r == Adjacent(arrangement.windows, currentWinScreen, left)
    {
      var win := arrangement.windows;
      if currentWinScreen >= |win| {
        return None;
      }
      var k := PyIndex(|win|, currentWinScreen);
      if k.None? {
        return None;
      }
      var current := win[k.value];
      var i := 0;
      while i < |win|
        invariant 0 <= i <= |win|
        invariant AdjacentFrom(win, i, currentWinScreen, current, left) == AdjacentFrom(win, 0, currentWinScreen, current, left)
      {
        if i != currentWinScreen && Flush(win[i], current, left) {
          return Some(i);
        }
        i := i + 1;
      }
      return None;
    }

    method OnMove(x: int, y: int) returns (warp: Option<(int, int)>, raised: bool)
      modifies this, server
      ensures var e := MoveWith(old(State()), arrangement.mac, arrangement.windows, x, y, corrected);
        State() == e.state && warp == e.warp && raised == e.raised
        && server.State() == Session.Deliver(old(server.State()), e.events)
    {
      if !isWindowsMode {
        return None, false;
      }
      if currentWinScreen >= |arrangement.windows| {
        currentWinScreen := 0;
      }
      var k := PyIndex(|arrangement.windows|, currentWinScreen);
      if k.None? {
        return None, true;
      }
      var dx, dy := x - lastMacX, y - lastMacY;
      lastMacX, lastMacY := x, y;
      winLocalX, winLocalY := winLocalX + dx, winLocalY + dy;
      assert MoveWith(old(State()), arrangement.mac, arrangement.windows, x, y, corrected)
        == Place(State(), arrangement.mac, arrangement.windows, k.value, corrected);
      warp, raised := PlaceCursor(k.value);
    }

    /** The second half of `_on_move`, once the screen has been looked up. */
    method PlaceCursor(k: nat) returns (warp: Option<(int, int)>, raised: bool)
      requires k < |arrangement.windows|
      modifies this, server
      ensures var e := Place(old(State()), arrangement.mac, arrangement.windows, k, corrected);
        State() == e.state && warp == e.warp && raised == e.raised
        && server.State() == Session.Deliver(old(server.State()), e.events)
    {
      var ws := arrangement.windows[k];
      if winLocalX < 0 {
        var left := FindAdjacentScreen(true);
        if left.None? {
          warp, raised := SwitchToMac();
          return;
        }
        currentWinScreen := left.value;
        ws := arrangement.windows[left.value];
        winLocalX := ws.width + winLocalX;
      } else if winLocalX >= ws.width {
        var right := FindAdjacentScreen(false);
        if right.None? {
          warp, raised := SwitchToMac();
          return;
        }
        currentWinScreen := right.value;
        winLocalX := winLocalX - ws.width;
        if corrected {
          ws := arrangement.windows[right.value];
        }
      }
      winLocalY := Max(0, Min(winLocalY, ws.height - 1));
      server.SendEvent(MoveOnScreen(currentWinScreen, winLocalX, winLocalY));
      warp, raised := None, false;
    }

    method OnKeyPress(k: Key) returns (warp: Option<(int, int)>)
      modifies this, server
      ensures var e := PressStep(old(State()), arrangement.mac, arrangement.windows, keys, k, corrected);
        State() == e.state && warp == e.warp && server.State() == Session.Deliver(old(server.State()), e.events)
    {
      ghost var r := Press(KeyStyle, keys, isWindowsMode, Mods(ctrlPressed, altPressed), k);
      warp := None;
      if !isWindowsMode {
        return;
      }
      if IsCtrl(k) {
        ctrlPressed := true;
      } else if IsAlt(k) {
        altPressed := true;
      }
      assert r.mods == Mods(ctrlPressed, altPressed);
      var key := KeyWithMods(Vk(keys, k), true, ctrlPressed, altPressed, true);
      if ctrlPressed && altPressed && k.Char? && (k.c == 'm' || k.c == 'M') {
        assert r.escape && State() == old(State()).(mods := r.mods);
        var raised;
        warp, raised := SwitchToMac();
        if !raised {
          return;
        }
        Session.DeliverTwice(old(server.State()), [ModeOff()], [key]);
      } else {
        assert !r.escape && r.forward == Some(Vk(keys, k));
      }
      server.SendEvent(key);
    }

    method OnKeyRelease(k: Key)
      modifies this, server
      ensures var e := ReleaseStep(old(State()), keys, k);
        State() == e.state && server.State() == Session.Deliver(old(server.State()), e.events)
    {
      ghost var r := Release(KeyStyle, keys, isWindowsMode, Mods(ctrlPressed, altPressed), k);
      if !isWindowsMode {
        return;
      }
      if IsCtrl(k) {
        ctrlPressed := false;
      } else if IsAlt(k) {
        altPressed := false;
      }
      assert r.mods == Mods(ctrlPressed, altPressed);
      server.SendEvent(KeyWithMods(Vk(keys, k), false, ctrlPressed, altPressed, true));
    }
  }
}
