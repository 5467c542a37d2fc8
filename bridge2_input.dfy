/** `Bridge` of MacApp/bridge2.py: one polling loop does everything. In Mac
    mode it watches the right edge of the desktop; in Windows mode it turns
    the change of the cursor position since the last sample into a remote
    move (with the y axis flipped: Cocoa's y grows upwards, Windows' y
    downwards) and warps the cursor back to the middle of the desktop once
    it strays more than 300 px on an axis. */
module Bridge2Input {
  import opened Common
  import opened Json
  import opened Geometry
  import Session
  import opened Cursor

  /** `is_windows`, `win_x/win_y`, `last_x/last_y`. */
  datatype Snapshot = Snapshot(windows: bool, winX: int, winY: int, lastX: int, lastY: int)

  /** (min x, max x, min y, max y) of the desktop. */
  type Bounds = (int, int, int, int)

  function Initial(): Snapshot {
    Snapshot(false, 960, 540, 0, 0)
  }

  /** The middle of the desktop, `(min + max) / 2` on each axis. */
  function Mid(b: Bounds): (int, int) {
    ((b.0 + b.1) / 2, (b.2 + b.3) / 2)
  }

  const Reach := 300

  /** The last sample stays near the middle while Windows is driven. */
  ghost predicate Trapped(s: Snapshot, b: Bounds) {
    s.windows ==> Abs(s.lastX - Mid(b).0) <= Reach && Abs(s.lastY - Mid(b).1) <= Reach
  }

  /** `_to_windows(y)`: enter at (100, y) and warp to the middle. */
  function EnterWindows(s: Snapshot, b: Bounds, y: int): (e: Effect<Snapshot>)
    ensures s.windows ==> e == Effect(s, [], None)
    ensures !s.windows ==> e == Effect(Snapshot(true, 100, y, Mid(b).0, Mid(b).1), [ModeOn(100, y)], Some(Mid(b)))
  {
    if s.windows then Effect(s, [], None)
    else Effect(Snapshot(true, 100, y, Mid(b).0, Mid(b).1), [ModeOn(100, y)], Some(Mid(b)))
  }

  /** `_to_mac()`: back 50 px inside the right edge at the remote height. */
  function LeaveWindows(s: Snapshot, b: Bounds): (e: Effect<Snapshot>)
    ensures !s.windows ==> e == Effect(s, [], None)
    ensures s.windows ==> e == Effect(s.(windows := false), [ModeOff()], Some((b.1 - 50, s.winY)))
  {
    if !s.windows then Effect(s, [], None)
    else Effect(s.(windows := false), [ModeOff()], Some((b.1 - 50, s.winY)))
  }

  /** One pass of `_poll_mouse` with the cursor at (x, y). */
  function PollStep(s: Snapshot, connected: bool, b: Bounds, x: int, y: int): (e: Effect<Snapshot>)
    ensures !s.windows ==> e == (if connected && x >= b.1 - 5 then EnterWindows(s, b, y) else Effect(s, [], None))
  {
    if !s.windows then
      if connected && x >= b.1 - 5 then EnterWindows(s, b, y) else Effect(s, [], None)
    else
      var dx, dy := x - s.lastX, s.lastY - y;
      if dx != 0 || dy != 0 then
        var m := Advance(TestFirst, XAtMost(0), s.winX, s.winY, dx, dy);
        var moved := s.(winX := m.x, winY := m.y);
        if m.back then LeaveWindows(moved, b)
        else
          var last := Recentred(x, y, Mid(b).0, Mid(b).1, Reach);
          Effect(moved.(lastX := last.0, lastY := last.1), [MoveTo(m.x, m.y)],
                 if last == (x, y) then None else Some(Mid(b)))
      else Effect(s.(lastX := x, lastY := y), [], None)
  }

  // -----------------------------------------------------------------------
  // Properties

  lemma SwitchesAreGuarded(s: Snapshot, b: Bounds, y: int, y2: int)
    ensures var e := EnterWindows(s, b, y); EnterWindows(e.state, b, y2) == Effect(e.state, [], None)
    ensures var e := LeaveWindows(s, b); LeaveWindows(e.state, b) == Effect(e.state, [], None)
  {
  }

  /** Entering, each move and the return keep the last sample within 300 px
      of the middle on both axes while Windows is driven. */
  lemma TrappedIsKept(s: Snapshot, b: Bounds, connected: bool, x: int, y: int)
    requires Trapped(s, b)
    ensures Trapped(PollStep(s, connected, b, x, y).state, b)
  {
    if s.windows && (x - s.lastX != 0 || s.lastY - y != 0) {
      RecentredStaysNear(x, y, Mid(b).0, Mid(b).1, Reach);
    }
  }

  /** A sample equal to the last one changes nothing and sends nothing. */
  lemma StillCursorIsQuiet(s: Snapshot, b: Bounds, connected: bool)
    requires s.windows
    ensures PollStep(s, connected, b, s.lastX, s.lastY) == Effect(s, [], None)
  {
  }

  /** A move that brings the remote x to 0 or below returns without
      sending it and leaves the last sample as it was; any other move is
      sent clamped, with the y axis flipped: moving the cursor up moves
      the remote cursor up. */
  lemma MoveOutcome(s: Snapshot, b: Bounds, connected: bool, x: int, y: int)
    requires s.windows && (x != s.lastX || y != s.lastY)
    ensures var e := PollStep(s, connected, b, x, y);
      (s.winX + (x - s.lastX) <= 0 ==>
        !e.state.windows && e.events == [ModeOff()] && (e.state.lastX, e.state.lastY) == (s.lastX, s.lastY)) &&
      (s.winX + (x - s.lastX) > 0 ==>
        e.state.windows && e.events == [MoveTo(e.state.winX, e.state.winY)] &&
        e.state.winX == Clamp(s.winX + (x - s.lastX), 0, RemoteWidth) &&
        e.state.winY == Clamp(s.winY - (y - s.lastY), 0, RemoteHeight))
  {
  }

  // -----------------------------------------------------------------------
  // The object

  class Bridge {
    const server: Session.HostServer
    const minX: int
    const maxX: int
    const minY: int
    const maxY: int
    var isWindows: bool
    var winX: int
    var winY: int
    var lastX: int
    var lastY: int

    function State(): Snapshot
      reads this
    {
      Snapshot(isWindows, winX, winY, lastX, lastY)
    }

    function B(): Bounds {
      (minX, maxX, minY, maxY)
    }

    constructor(server: Session.HostServer, screens: Option<seq<Rect>>)
      ensures this.server == server && State() == Initial()
      ensures B() == ScreenBounds(screens)
    {
      this.server := server;
      var bounds := ScreenBounds(screens);
      minX, maxX, minY, maxY := bounds.0, bounds.1, bounds.2, bounds.3;
      isWindows, winX, winY, lastX, lastY := false, 960, 540, 0, 0;
    }

    /** One iteration of `_poll_mouse`. */
    method PollMouse(x: int, y: int) returns (warp: Option<(int, int)>)
      modifies this, server
      ensures var e := PollStep(old(State()), old(server.connected), B(), x, y);
        State() == e.state && warp == e.warp && server.State() == Session.Deliver(old(server.State()), e.events)
    {
      warp := None;
      if !isWindows {
        if server.connected && x >= maxX - 5 {
          warp := ToWindows(y);
        }
        return;
      }
      var dx, dy := x - lastX, lastY - y;
      if dx != 0 || dy != 0 {
        ghost var m := Advance(TestFirst, XAtMost(0), winX, winY, dx, dy);
        winX, winY := winX + dx, winY + dy;
        assert m.back <==> winX <= 0;
        if winX <= 0 {
          warp := ToMac();
        } else {
          winX := Max(0, Min(winX, RemoteWidth));
          winY := Max(0, Min(winY, RemoteHeight));
          assert winX == m.x && winY == m.y;
          server.SendEvent(MoveTo(winX, winY));
          var mid := Mid(B());
          if Abs(x - mid.0) > Reach || Abs(y - mid.1) > Reach {
            warp := Some(mid);
            lastX, lastY := mid.0, mid.1;
          } else {
            lastX, lastY := x, y;
          }
        }
      } else {
        lastX, lastY := x, y;
      }
    }

    method ToWindows(y: int) returns (warp: Option<(int, int)>)
      modifies this, server
      ensures var e := EnterWindows(old(State()), B(), y);
        State() == e.state && warp == e.warp && server.State() == Session.Deliver(old(server.State()), e.events)
    {
      if isWindows {
        return None;
      }
      isWindows := true;
      winX, winY := 100, y;
      server.SendEvent(ModeOn(winX, winY));
      var mid := Mid(B());
      warp := Some(mid);
      lastX, lastY := mid.0, mid.1;
    }

    method ToMac() returns (warp: Option<(int, int)>)
      modifies this, server
      ensures var e := LeaveWindows(old(State()), B());
        State() == e.state && warp == e.warp && server.State() == Session.Deliver(old(server.State()), e.events)
    {
      if !isWindows {
        return None;
      }
      isWindows := false;
      server.SendEvent(ModeOff());
      warp := Some((maxX - 50, winY));
    }
  }
}
