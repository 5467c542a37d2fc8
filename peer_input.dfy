/** `InputHandler` of MacApp/app_v2.py: the Mac either drives the peer
    (`is_controlling_remote`) or is driven by it (`is_being_controlled`).
    The edge that leads to the peer is configurable (`active_edge`); the
    virtual remote cursor returns control when it reaches the opposite side
    of the 3840x2160 remote desktop. Messages go out through the peer link's
    `send`, so they are written only while there is a peer socket. */
module PeerInput {
  import opened Common
  import opened Json
  import opened Geometry
  import opened Cursor
  import PeerLink

  /** `is_controlling_remote`, `is_being_controlled`, `remote_x/remote_y`,
      `last_x/last_y`. */
  datatype Handler = Handler(controlling: bool, controlled: bool, remoteX: int, remoteY: int, lastX: int, lastY: int)

  /** (min x, max x, min y, max y) of the Mac desktop. */
  type Bounds = (int, int, int, int)

  function Initial(): Handler {
    Handler(false, false, 960, 540, 0, 0)
  }

  const Threshold := 3
  const Radius: nat := 200

  predicate IsEdgeName(edge: string) {
    edge == "right" || edge == "left" || edge == "top" || edge == "bottom"
  }

  /** `_check_edge(x, y)` for `active_edge == edge`. Mac y grows upwards,
      so "top" is the largest y. */
  function ActiveEdgeHit(b: Bounds, edge: string, x: int, y: int): (r: bool)
    ensures !IsEdgeName(edge) ==> !r
  {
    if edge == "right" then x >= b.1 - Threshold
    else if edge == "left" then x <= b.0 + Threshold
    else if edge == "top" then y >= b.3 - Threshold
    else if edge == "bottom" then y <= b.2 + Threshold
    else false
  }

  /** `_get_opposite_edge_check()`: the side of the remote desktop that
      leads back; an unknown edge counts as "right". */
  function Opposite(edge: string): (r: string)
    ensures IsEdgeName(r)
    ensures !IsEdgeName(edge) ==> r == "left"
  {
    if edge == "right" then "left"
    else if edge == "left" then "right"
    else if edge == "top" then "bottom"
    else if edge == "bottom" then "top"
    else "left"
  }

  /** The return test of the poll loop for the opposite side `side`. */
  function ReturnAt(side: string): (t: ReturnTest)
    ensures IsEdgeName(side) ==> !t.Never?
  {
    if side == "left" then XAtMost(0)
    else if side == "right" then XAtLeast(RemoteWidth)
    else if side == "top" then YAtMost(0)
    else if side == "bottom" then YAtLeast(RemoteHeight)
    else Never
  }

  /** Where the remote cursor starts: 50 px inside the side of the remote
      desktop that faces the Mac. */
  function Entry(edge: string, x: int, y: int): (int, int) {
    if edge == "left" then (RemoteWidth - 50, y)
    else if edge == "top" then (x, RemoteHeight - 50)
    else if edge == "bottom" then (x, 50)
    else (50, y)
  }

  /** The middle of the Mac desktop, `trap_x, trap_y`. */
  function Trap(b: Bounds): (int, int) {
    ((b.0 + b.1) / 2, (b.2 + b.3) / 2)
  }

  function ModeSwitchOn(x: int, y: int, edge: string): Json {
    PeerLink.Outgoing("mode_switch",
      JObj(map["active" := JBool(true), "x" := JInt(x), "y" := JInt(y), "edge" := JStr(edge)]))
  }

  function ModeSwitchOff(edge: string): Json {
    PeerLink.Outgoing("mode_switch", JObj(map["active" := JBool(false), "edge" := JStr(edge)]))
  }

  function MouseMove(x: int, y: int): Json {
    PeerLink.Outgoing("mouse_move", JObj(map["x" := JInt(x), "y" := JInt(y), "absolute" := JBool(true)]))
  }

  /** While driving the peer, the last sample stays within the circle of
      radius 200 around the middle. */
  ghost predicate Trapped(h: Handler, b: Bounds) {
    h.controlling ==> !FarFrom(h.lastX, h.lastY, Trap(b).0, Trap(b).1, Radius)
  }

  /** `_switch_to_remote(x, y)`. */
  function EnterRemote(h: Handler, edge: string, x: int, y: int): (e: Effect<Handler>)
    ensures h.controlling ==> e == Effect(h, [], None)
    ensures !h.controlling ==>
      && e.state.controlling && e.warp.None?
      && (e.state.remoteX, e.state.remoteY) == Entry(edge, x, y)
      && e.events == [ModeSwitchOn(e.state.remoteX, e.state.remoteY, edge)]
  {
    if h.controlling then Effect(h, [], None)
    else
      var p := Entry(edge, x, y);
      Effect(h.(controlling := true, remoteX := p.0, remoteY := p.1), [ModeSwitchOn(p.0, p.1, edge)], None)
  }

  /** `_switch_to_local()`: back 50 px inside the Mac edge that leads to
      the peer, at the remote cursor's other coordinate. */
  function LeaveRemote(h: Handler, b: Bounds, edge: string): (e: Effect<Handler>)
    ensures !h.controlling ==> e == Effect(h, [], None)
    ensures h.controlling ==> e.state == h.(controlling := false) && e.events == [ModeSwitchOff(edge)]
    ensures h.controlling ==> (e.warp.Some? <==> IsEdgeName(edge))
  {
    if !h.controlling then Effect(h, [], None)
    else
      var warp :=
        if edge == "right" then Some((b.1 - 50, h.remoteY))
        else if edge == "left" then Some((b.0 + 50, h.remoteY))
        else if edge == "top" then Some((h.remoteX, b.3 - 50))
        else if edge == "bottom" then Some((h.remoteX, b.2 + 50))
        else None;
      Effect(h.(controlling := false), [ModeSwitchOff(edge)], warp)
  }

  /** One pass of `_poll_loop` with the cursor at (x, y); `connected` is
      `network.state == CONNECTED`. */
  function PollStep(h: Handler, connected: bool, b: Bounds, edge: string, x: int, y: int): (e: Effect<Handler>)
    ensures !h.controlling && h.controlled ==> e == Effect(h, [], None)
    ensures !h.controlling && !(connected && ActiveEdgeHit(b, edge, x, y)) ==> e == Effect(h, [], None)
    ensures !h.controlling && !h.controlled && connected && ActiveEdgeHit(b, edge, x, y) ==>
      e.state.controlling && e.warp == Some(Trap(b))
  {
    var t := Trap(b);
    if !h.controlling then
      if !h.controlled && connected && ActiveEdgeHit(b, edge, x, y) then
        var w := EnterRemote(h, edge, x, y);
        Effect(w.state.(lastX := t.0, lastY := t.1), w.events, Some(t))
      else Effect(h, [], None)
    else Track(h, b, edge, x, y)
  }

  /** The first half of a pass while driving the peer: the sample that
      becomes the last one, what was sent, and whether the move reached the
      return edge. */
  datatype Drive = Drive(moved: Handler, sent: seq<Json>, back: bool)

  /** The y delta is flipped; a non-zero move is scaled, clamped and sent
      before the return test. */
  function Steer(h: Handler, edge: string, x: int, y: int): (d: Drive)
    ensures d.moved.lastX == x && d.moved.lastY == y && d.moved.controlling == h.controlling
    ensures d.moved.controlled == h.controlled
    ensures InBox(h.remoteX, h.remoteY) ==> InBox(d.moved.remoteX, d.moved.remoteY)
    ensures x == h.lastX && y == h.lastY ==> d == Drive(h, [], false)
    ensures d.sent == [] || d.sent == [MouseMove(d.moved.remoteX, d.moved.remoteY)]
    ensures d.back ==> d.sent != []
  {
    var dx, dy := x - h.lastX, h.lastY - y;
    var sampled := h.(lastX := x, lastY := y);
    if dx == 0 && dy == 0 then Drive(sampled, [], false)
    else
      var m := Advance(SendFirst, ReturnAt(Opposite(edge)), h.remoteX, h.remoteY, Scaled(dx), Scaled(dy));
      Drive(sampled.(remoteX := m.x, remoteY := m.y), [MouseMove(m.x, m.y)], m.back)
  }

  /** The pass of `_poll_loop` while driving the peer: after `Steer`, a
      move onto the return edge switches back, and otherwise a sample
      outside the trap warps the cursor back to the middle. */
  function Track(h: Handler, b: Bounds, edge: string, x: int, y: int): (e: Effect<Handler>)
    requires h.controlling
  {
    var t := Trap(b);
    var d := Steer(h, edge, x, y);
    if d.back then
      var l := LeaveRemote(d.moved, b, edge);
      Effect(l.state, d.sent + l.events, l.warp)
    else if FarFrom(x, y, t.0, t.1, Radius) then Effect(d.moved.(lastX := t.0, lastY := t.1), d.sent, Some(t))
    else Effect(d.moved, d.sent, None)
  }

  /** What `handle_incoming_input` did: the new state, where it warped the
      cursor (the payload's coordinates, as received), and whether it
      raised because the payload is not an object. */
  datatype Incoming = Incoming(state: Handler, warp: Option<(Json, Json)>, raised: bool)

  function Receive(h: Handler, kind: Json, payload: Json): (r: Incoming)
    ensures r.raised ==> r.state == h && r.warp.None?
    ensures r.state.controlling == h.controlling && r.state.remoteX == h.remoteX && r.state.remoteY == h.remoteY
  {
    if kind == JStr("mode_switch") then
      if !payload.JObj? then Incoming(h, None, true)
      else
        var active := Truthy(GetOr(payload.fields, "active", JBool(false)));
        Incoming(h.(controlled := active),
                 if active then Some((GetOr(payload.fields, "x", JInt(960)), GetOr(payload.fields, "y", JInt(540))))
                 else None,
                 false)
    else if kind == JStr("mouse_move") && h.controlled then
      if !payload.JObj? then Incoming(h, None, true)
      else Incoming(h, Some((GetOr(payload.fields, "x", JInt(0)), GetOr(payload.fields, "y", JInt(0)))), false)
    else Incoming(h, None, false)
  }

  // -----------------------------------------------------------------------
  // Properties

  /** Opposite sides pair up: going there and back is the identity on the
      four edge names. */
  lemma OppositeIsInvolution(edge: string)
    requires IsEdgeName(edge)
    ensures Opposite(Opposite(edge)) == edge && Opposite(edge) != edge
  {
  }

  /** For "right" and "left" the edge test is the one of macwincontrol.py's
      `is_at_edge` with threshold 3 over the same desktop. */
  lemma EdgeHitAgreesWithIsAtEdge(b: Bounds, edge: string, x: int, y: int)
    requires edge == "right" || edge == "left"
    ensures ActiveEdgeHit(b, edge, x, y) == AtEdge(Box(b.0, b.2, b.1, b.3), x, edge, Threshold)
  {
  }

  lemma SwitchesAreGuarded(h: Handler, b: Bounds, edge: string, x: int, y: int, x2: int, y2: int)
    ensures var e := EnterRemote(h, edge, x, y); EnterRemote(e.state, edge, x2, y2) == Effect(e.state, [], None)
    ensures var e := LeaveRemote(h, b, edge); LeaveRemote(e.state, b, edge) == Effect(e.state, [], None)
  {
  }

  /** The entry point never satisfies the return test: entering and then
      standing still does not bounce straight back, whatever the edge. */
  lemma EntryIsNotAReturn(edge: string, x: int, y: int)
    ensures var p := Entry(edge, x, y); !Hits(ReturnAt(Opposite(edge)), p.0, p.1)
  {
  }

  /** A move is scaled by 1.5, clamped into the remote desktop and always
      sent; control returns, after that move, exactly when the clamped
      position lies on the side opposite the active edge. */
  lemma MoveOutcome(h: Handler, b: Bounds, connected: bool, edge: string, x: int, y: int)
    requires h.controlling && (x != h.lastX || y != h.lastY)
    ensures var e := PollStep(h, connected, b, edge, x, y);
      var nx := Clamp(h.remoteX + Scaled(x - h.lastX), 0, RemoteWidth);
      var ny := Clamp(h.remoteY + Scaled(h.lastY - y), 0, RemoteHeight);
      && e.state.remoteX == nx && e.state.remoteY == ny && InBox(nx, ny)
      && |e.events| >= 1 && e.events[0] == MouseMove(nx, ny)
      && (e.state.controlling <==> !Hits(ReturnAt(Opposite(edge)), nx, ny))
      && (!e.state.controlling ==> e.events == [MouseMove(nx, ny), ModeSwitchOff(edge)])
  {
  }

  /** Every pass keeps the last sample inside the trap while the peer is
      driven. */
  lemma TrappedIsKept(h: Handler, b: Bounds, connected: bool, edge: string, x: int, y: int)
    requires Trapped(h, b)
    ensures var h' := PollStep(h, connected, b, edge, x, y).state;
      Trapped(h', b) && (h'.controlling ==> Abs(h'.lastX - Trap(b).0) <= Radius && Abs(h'.lastY - Trap(b).1) <= Radius)
  {
    var h' := PollStep(h, connected, b, edge, x, y).state;
    var t := Trap(b);
    if h'.controlling {
      if h.controlling {
        assert (h'.lastX, h'.lastY) == (x, y) || (h'.lastX, h'.lastY) == t;
      }
      assert !FarFrom(h'.lastX, h'.lastY, t.0, t.1, Radius);
      RoundTrapInsideSquare(h'.lastX, h'.lastY, t.0, t.1, Radius);
    }
  }

  /** A `mode_switch` makes this side driven exactly when its `active` is
      truthy (missing counts as false), and then warps to the given point. */
  lemma ModeSwitchFollowsPeer(h: Handler, payload: map<string, Json>)
    ensures var r := Receive(h, JStr("mode_switch"), JObj(payload));
      && !r.raised
      && (r.state.controlled <==> "active" in payload && Truthy(payload["active"]))
      && (r.warp.Some? <==> r.state.controlled)
  {
  }

  /** A remote `mouse_move` moves the cursor only while driven, and never
      changes the state. */
  lemma MovesOnlyWhileDriven(h: Handler, payload: Json)
    ensures var r := Receive(h, JStr("mouse_move"), payload);
      r.state == h && (r.warp.Some? ==> h.controlled) && (h.controlled && payload.JObj? ==> r.warp.Some?)
      && (r.raised <==> h.controlled && !payload.JObj?)
  {
  }

  /** While driven by the peer, the poll loop ignores the edge. */
  lemma DrivenIgnoresEdge(h: Handler, connected: bool, b: Bounds, edge: string, x: int, y: int)
    requires h.controlled && !h.controlling
    ensures PollStep(h, connected, b, edge, x, y) == Effect(h, [], None)
  {
  }

  // -----------------------------------------------------------------------
  // The object

  class InputHandler {
    const network: PeerLink.NetworkManager
    const minX: int
    const maxX: int
    const minY: int
    const maxY: int
    var activeEdge: string
    var isControllingRemote: bool
    var isBeingControlled: bool
    var remoteX: int
    var remoteY: int
    var lastX: int
    var lastY: int

    function State(): Handler
      reads this
    {
      Handler(isControllingRemote, isBeingControlled, remoteX, remoteY, lastX, lastY)
    }

    function B(): Bounds {
      (minX, maxX, minY, maxY)
    }

    constructor(network: PeerLink.NetworkManager, screens: Option<seq<Rect>>)
      ensures this.network == network && State() == Initial() && activeEdge == "right"
      ensures B() == ScreenBounds(screens)
    {
      this.network := network;
      var bounds := ScreenBounds(screens);
      minX, maxX, minY, maxY := bounds.0, bounds.1, bounds.2, bounds.3;
      isControllingRemote, isBeingControlled := false, false;
      remoteX, remoteY, lastX, lastY := 960, 540, 0, 0;
      activeEdge := "right";
    }

    method SetEdge(edge: string)
      modifies this
      ensures activeEdge == edge && State() == old(State())
    {
      activeEdge := edge;
    }

    /** One pass of `_poll_loop`. */
    method Poll(x: int, y: int) returns (warp: Option<(int, int)>)
      modifies this, network
      ensures var e := PollStep(old(State()), old(network.state) == PeerLink.Connected, B(), activeEdge, x, y);
        State() == e.state && warp == e.warp && activeEdge == old(activeEdge)
        && network.State() == PeerLink.TransmitAll(old(network.State()), e.events)
    {
      var trap := Trap(B());
      warp := None;
      if !isControllingRemote && !isBeingControlled {
        if network.state == PeerLink.Connected && ActiveEdgeHit(B(), activeEdge, x, y) {
          SwitchToRemote(x, y);
          warp := Some(trap);
          lastX, lastY := trap.0, trap.1;
        }
        return;
      } else if isControllingRemote {
        warp := Follow(x, y);
      }
    }

    /** The branch of `_poll_loop` that drives the peer. */
    method Follow(x: int, y: int) returns (warp: Option<(int, int)>)
      requires isControllingRemote
      modifies this, network
      ensures var e := Track(old(State()), B(), activeEdge, x, y);
        State() == e.state && warp == e.warp && activeEdge == old(activeEdge)
        && network.State() == PeerLink.TransmitAll(old(network.State()), e.events)
    {
      var back;
      ghost var sent;
      back, sent := Sample(x, y);
      if back {
        PeerLink.TransmitTwice(old(network.State()), sent, [ModeSwitchOff(activeEdge)]);
        warp := SwitchToLocal();
      } else {
        warp := Recentre(x, y);
      }
    }

    /** The first half of the branch: record the sample and send a
        non-zero move. */
    method Sample(x: int, y: int) returns (back: bool, ghost sent: seq<Json>)
      modifies this, network
      ensures var d := Steer(old(State()), activeEdge, x, y);
        State() == d.moved && back == d.back && sent == d.sent && activeEdge == old(activeEdge)
        && network.State() == PeerLink.TransmitAll(old(network.State()), d.sent)
    {
      var dx, dy := x - lastX, lastY - y;
      lastX, lastY := x, y;
      back, sent := false, [];
      if dx != 0 || dy != 0 {
        back := Shift(dx, dy);
        sent := [MouseMove(remoteX, remoteY)];
      }
    }

    /** The end of the pass: a sample outside the trap warps the cursor
        back to the middle, which becomes the last sample. */
    method Recentre(x: int, y: int) returns (warp: Option<(int, int)>)
      modifies this
      ensures var t := Trap(B());
        if FarFrom(x, y, t.0, t.1, Radius) then State() == old(State()).(lastX := t.0, lastY := t.1) && warp == Some(t)
        else State() == old(State()) && warp.None?
      ensures activeEdge == old(activeEdge)
    {
      var trap := Trap(B());
      warp := None;
      if FarFrom(x, y, trap.0, trap.1, Radius) {
        warp := Some(trap);
        lastX, lastY := trap.0, trap.1;
      }
    }

    /** Scale, add, clamp and send one move, then test for the return. */
    method Shift(dx: int, dy: int) returns (back: bool)
      modifies this, network
      ensures var m := Advance(SendFirst, ReturnAt(Opposite(activeEdge)), old(remoteX), old(remoteY), Scaled(dx), Scaled(dy));
        State() == old(State()).(remoteX := m.x, remoteY := m.y) && back == m.back && activeEdge == old(activeEdge)
        && network.State() == PeerLink.TransmitAll(old(network.State()), [MouseMove(m.x, m.y)])
    {
      remoteX, remoteY := remoteX + Scaled(dx), remoteY + Scaled(dy);
      remoteX := Max(0, Min(remoteX, RemoteWidth));
      remoteY := Max(0, Min(remoteY, RemoteHeight));
      network.Send("mouse_move", JObj(map["x" := JInt(remoteX), "y" := JInt(remoteY), "absolute" := JBool(true)]));
      var opposite := Opposite(activeEdge);
      back := false;
      if opposite == "left" && remoteX <= 0 {
        back := true;
      } else if opposite == "right" && remoteX >= RemoteWidth {
        back := true;
      } else if opposite == "top" && remoteY <= 0 {
        back := true;
      } else if opposite == "bottom" && remoteY >= RemoteHeight {
        back := true;
      }
    }

    method SwitchToRemote(x: int, y: int)
      modifies this, network
      ensures var e := EnterRemote(old(State()), activeEdge, x, y);
        State() == e.state && activeEdge == old(activeEdge)
        && network.State() == PeerLink.TransmitAll(old(network.State()), e.events)
    {
      if isControllingRemote {
        return;
      }
      isControllingRemote := true;
      if activeEdge == "right" {
        remoteX, remoteY := 50, y;
      } else if activeEdge == "left" {
        remoteX, remoteY := RemoteWidth - 50, y;
      } else if activeEdge == "top" {
        remoteX, remoteY := x, RemoteHeight - 50;
      } else if activeEdge == "bottom" {
        remoteX, remoteY := x, 50;
      } else {
        remoteX, remoteY := 50, y;
      }
      network.Send("mode_switch",
        JObj(map["active" := JBool(true), "x" := JInt(remoteX), "y" := JInt(remoteY), "edge" := JStr(activeEdge)]));
    }

    method SwitchToLocal() returns (warp: Option<(int, int)>)
      modifies this, network
      ensures var e := LeaveRemote(old(State()), B(), activeEdge);
        State() == e.state && warp == e.warp && activeEdge == old(activeEdge)
        && network.State() == PeerLink.TransmitAll(old(network.State()), e.events)
    {
      warp := None;
      if !isControllingRemote {
        return;
      }
      isControllingRemote := false;
      network.Send("mode_switch", JObj(map["active" := JBool(false), "edge" := JStr(activeEdge)]));
      if activeEdge == "right" {
        warp := Some((maxX - 50, remoteY));
      } else if activeEdge == "left" {
        warp := Some((minX + 50, remoteY));
      } else if activeEdge == "top" {
        warp := Some((remoteX, maxY - 50));
      } else if activeEdge == "bottom" {
        warp := Some((remoteX, minY + 50));
      }
    }

    /** `handle_incoming_input(msg_type, payload)`. */
    method HandleIncomingInput(kind: Json, payload: Json) returns (warp: Option<(Json, Json)>, raised: bool)
      modifies this
      ensures var r := Receive(old(State()), kind, payload);
        State() == r.state && warp == r.warp && raised == r.raised
    {
      warp, raised := None, false;
      if kind == JStr("mode_switch") {
        if !payload.JObj? {
          return None, true;
        }
        isBeingControlled := Truthy(GetOr(payload.fields, "active", JBool(false)));
        if isBeingControlled {
          warp := Some((GetOr(payload.fields, "x", JInt(960)), GetOr(payload.fields, "y", JInt(540))));
        }
      } else if kind == JStr("mouse_move") && isBeingControlled {
        if !payload.JObj? {
          return None, true;
        }
        warp := Some((GetOr(payload.fields, "x", JInt(0)), GetOr(payload.fields, "y", JInt(0))));
      }
    }
  }
}
