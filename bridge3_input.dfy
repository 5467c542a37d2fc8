/** `Bridge` of MacApp/bridge3.py: like bridge2.py a single polling loop,
    but every delta is scaled by 1.5, each move is sent (clamped) before
    the return test, and the cursor is trapped in a circle of radius 200
    around the middle of the desktop. */
module Bridge3Input {
  import opened Common
  import opened Json
  import opened Geometry
  import Session
  import opened Cursor

  /** `is_windows`, `win_x/win_y`, `last_x/last_y`, `edge_y`. */
  datatype Snapshot = Snapshot(windows: bool, winX: int, winY: int, lastX: int, lastY: int, edgeY: int)

  /** (min x, max x, min y, max y) of the desktop. */
  type Bounds = (int, int, int, int)

  function Initial(): Snapshot {
    Snapshot(false, 960, 540, 0, 0, 0)
  }

  /** `trap_x, trap_y`: the middle of the desktop. */
  function Trap(b: Bounds): (int, int) {
    ((b.0 + b.1) / 2, (b.2 + b.3) / 2)
  }

  /** `warp_distance`. */
  const Radius: nat := 200

  /** While Windows is driven the last sample lies within the circle. */
  ghost predicate Trapped(s: Snapshot, b: Bounds) {
    s.windows ==> !FarFrom(s.lastX, s.lastY, Trap(b).0, Trap(b).1, Radius)
  }

  /** `_to_windows(y)`: enter at (50, y). */
  function EnterWindows(s: Snapshot, y: int): (e: Effect<Snapshot>)
    ensures s.windows ==> e == Effect(s, [], None)
    ensures !s.windows ==> e == Effect(s.(windows := true, edgeY := y, winX := 50, winY := y), [ModeOn(50, y)], None)
  {
    if s.windows then Effect(s, [], None)
    else Effect(s.(windows := true, edgeY := y, winX := 50, winY := y), [ModeOn(50, y)], None)
  }

  /** `_to_mac()`: announce the end; the cursor is not moved. */
  function LeaveWindows(s: Snapshot): (e: Effect<Snapshot>)
    ensures !s.windows ==> e == Effect(s, [], None)
    ensures s.windows ==> e == Effect(s.(windows := false), [ModeOff()], None)
  {
    if !s.windows then Effect(s, [], None)
    else Effect(s.(windows := false), [ModeOff()], None)
  }

  /** One pass of `_poll_mouse` with the cursor at (x, y). */
  function PollStep(s: Snapshot, connected: bool, b: Bounds, x: int, y: int): (e: Effect<Snapshot>)
    ensures !s.windows && !(connected && x >= b.1 - 3) ==> e == Effect(s, [], None)
    ensures !s.windows && connected && x >= b.1 - 3 ==> e.state.windows && e.warp == Some(Trap(b))
  {
    var t := Trap(b);
    if !s.windows then
      if connected && x >= b.1 - 3 then
        var w := EnterWindows(s, y);
        Effect(w.state.(lastX := t.0, lastY := t.1), w.events, Some(t))
      else Effect(s, [], None)
    else
      var dx, dy := x - s.lastX, s.lastY - y;
      var sampled := s.(lastX := x, lastY := y);
      var m := Advance(SendFirst, XAtMost(0), s.winX, s.winY, Scaled(dx), Scaled(dy));
      var moved := if dx != 0 || dy != 0 then sampled.(winX := m.x, winY := m.y) else sampled;
      var sent := if dx != 0 || dy != 0 then [MoveTo(m.x, m.y)] else [];
      if (dx != 0 || dy != 0) && m.back then
        var l := LeaveWindows(moved);
        Effect(l.state, sent + l.events, None)
      else if FarFrom(x, y, t.0, t.1, Radius) then Effect(moved.(lastX := t.0, lastY := t.1), sent, Some(t))
      else Effect(moved, sent, None)
  }

  // -----------------------------------------------------------------------
  // Properties

  lemma SwitchesAreGuarded(s: Snapshot, y: int, y2: int)
    ensures var e := EnterWindows(s, y); EnterWindows(e.state, y2) == Effect(e.state, [], None)
    ensures var e := LeaveWindows(s); LeaveWindows(e.state) == Effect(e.state, [], None)
  {
  }

  /** Every pass keeps the last sample inside the circle while Windows is
      driven, and hence inside the square of half-side 200 as well. */
  lemma TrappedIsKept(s: Snapshot, b: Bounds, connected: bool, x: int, y: int)
    requires Trapped(s, b)
    ensures var s' := PollStep(s, connected, b, x, y).state;
      Trapped(s', b) &&
      (s'.windows ==> Abs(s'.lastX - Trap(b).0) <= Radius && Abs(s'.lastY - Trap(b).1) <= Radius)
  {
    var s' := PollStep(s, connected, b, x, y).state;
    if s'.windows {
      RoundTrapInsideSquare(s'.lastX, s'.lastY, Trap(b).0, Trap(b).1, Radius);
    }
  }

  /** A move is always sent, scaled by 1.5 and clamped; the y axis is
      flipped. When it reaches x = 0 it is followed by the mode switch, and
      control is back on the Mac. */
  lemma MoveOutcome(s: Snapshot, b: Bounds, connected: bool, x: int, y: int)
    requires s.windows && (x != s.lastX || y != s.lastY)
    ensures var e := PollStep(s, connected, b, x, y);
      var nx := Clamp(s.winX + Scaled(x - s.lastX), 0, RemoteWidth);
      var ny := Clamp(s.winY + Scaled(s.lastY - y), 0, RemoteHeight);
      e.state.winX == nx && e.state.winY == ny &&
      (nx == 0 ==> e.events == [MoveTo(nx, ny), ModeOff()] && !e.state.windows && e.warp.None?) &&
      (nx != 0 ==> e.events == [MoveTo(nx, ny)] && e.state.windows)
  {
  }

  /** A sample equal to the last one inside the circle does nothing. */
  lemma StillCursorIsQuiet(s: Snapshot, b: Bounds, connected: bool)
    requires s.windows && Trapped(s, b)
    ensures PollStep(s, connected, b, s.lastX, s.lastY) == Effect(s, [], None)
  {
  }

  // -----------------------------------------------------------------------
  // The object

  class Bridge {
    const server: Session.HostServer
    const minX: int
    const maxX: int
    const minY: int
    const maxY: int
    var isWindows: bool
    var winX: int
    var winY: int
    var lastX: int
    var lastY: int
    var edgeY: int

    function State(): Snapshot
      reads this
    {
      Snapshot(isWindows, winX, winY, lastX, lastY, edgeY)
    }

    function B(): Bounds {
      (minX, maxX, minY, maxY)
    }

    constructor(server: Session.HostServer, screens: Option<seq<Rect>>)
      ensures this.server == server && State() == Initial()
      ensures B() == ScreenBounds(screens)
    {
      this.server := server;
      var bounds := ScreenBounds(screens);
      minX, maxX, minY, maxY := bounds.0, bounds.1, bounds.2, bounds.3;
      isWindows, winX, winY, lastX, lastY, edgeY := false, 960, 540, 0, 0, 0;
    }

    /** One iteration of `_poll_mouse`. */
    method PollMouse(x: int, y: int) returns (warp: Option<(int, int)>)
      modifies this, server
      ensures var e := PollStep(old(State()), old(server.connected), B(), x, y);
        State() == e.state && warp == e.warp && server.State() == Session.Deliver(old(server.State()), e.events)
    {
      var trap := Trap(B());
      warp := None;
      if !isWindows {
        if server.connected && x >= maxX - 3 {
          ToWindows(y);
          warp := Some(trap);
          lastX, lastY := trap.0, trap.1;
        }
        return;
      }
      var dx, dy := x - lastX, lastY - y;
      lastX, lastY := x, y;
      if dx != 0 || dy != 0 {
        ghost var m := Advance(SendFirst, XAtMost(0), winX, winY, Scaled(dx), Scaled(dy));
        winX, winY := winX + Scaled(dx), winY + Scaled(dy);
        winX := Max(0, Min(winX, RemoteWidth));
        winY := Max(0, Min(winY, RemoteHeight));
        assert winX == m.x && winY == m.y && (m.back <==> winX <= 0);
        server.SendEvent(MoveTo(winX, winY));
        if winX <= 0 {
          Session.DeliverTwice(old(server.State()), [MoveTo(winX, winY)], [ModeOff()]);
          ToMac();
          return;
        }
      }
      if FarFrom(x, y, trap.0, trap.1, Radius) {
        warp := Some(trap);
        lastX, lastY := trap.0, trap.1;
      }
    }

    method ToWindows(y: int)
      modifies this, server
      ensures var e := EnterWindows(old(State()), y);
        State() == e.state && server.State() == Session.Deliver(old(server.State()), e.events)
    {
      if isWindows {
        return;
      }
      isWindows := true;
      edgeY := y;
      winX, winY := 50, y;
      server.SendEvent(ModeOn(winX, winY));
    }

    method ToMac()
      modifies this, server
      ensures var e := LeaveWindows(old(State()));
        State() == e.state && server.State() == Session.Deliver(old(server.State()), e.events)
    {
      if !isWindows {
        return;
      }
      isWindows := false;
      server.SendEvent(ModeOff());
    }
  }
}
