/** The virtual remote cursor every capture variant keeps while the Mac
    drives Windows: deltas of the local mouse are added to a position on a
    3840x2160 remote desktop, the position is clamped into it, and a
    return test decides when control goes back to the Mac. The variants
    differ in the order of these steps, which is the `Order` below.

    Also here: the effect of one capture callback (new state, the events
    handed to `send_event`, where the local cursor is warped) and the JSON
    events the variants without screen indices send. */
module Cursor {
  import opened Common
  import opened Json

  const RemoteWidth := 3840
  const RemoteHeight := 2160

  predicate InBox(x: int, y: int) {
    0 <= x <= RemoteWidth && 0 <= y <= RemoteHeight
  }

  /** When the remote position hands control back. */
  datatype ReturnTest = XAtMost(k: int) | XAtLeast(k: int) | YAtMost(k: int) | YAtLeast(k: int) | Never

  predicate Hits(t: ReturnTest, x: int, y: int) {
    match t
    case XAtMost(k) => x <= k
    case XAtLeast(k) => x >= k
    case YAtMost(k) => y <= k
    case YAtLeast(k) => y >= k
    case Never => false
  }

  /** - `TestFirst`: test the unclamped position and return without sending
        it; otherwise clamp and send (gui_app.py, bridge.py, simple_server.py,
        bridge2.py).
      - `ClampFirst`: clamp, then test and return without sending
        (macwincontrol.py).
      - `SendFirst`: clamp, send, then test (bridge3.py, app_v2.py). */
  datatype Order = TestFirst | ClampFirst | SendFirst

  /** The new remote position, whether it is sent, and whether control
      goes back to the Mac. */
  datatype Move = Move(x: int, y: int, send: bool, back: bool)

  function Advance(order: Order, test: ReturnTest, x: int, y: int, dx: int, dy: int): (m: Move)
    ensures m.send <==> !m.back || order == SendFirst
    ensures !m.back || order != TestFirst ==> InBox(m.x, m.y)
    ensures !m.back || order != TestFirst ==>
      m.x == Clamp(x + dx, 0, RemoteWidth) && m.y == Clamp(y + dy, 0, RemoteHeight)
    ensures order == TestFirst ==> (m.back <==> Hits(test, x + dx, y + dy))
    ensures order == TestFirst && m.back ==> m.x == x + dx && m.y == y + dy
    ensures order != TestFirst ==> (m.back <==> Hits(test, m.x, m.y))
  {
    var nx, ny := x + dx, y + dy;
    var cx, cy := Clamp(nx, 0, RemoteWidth), Clamp(ny, 0, RemoteHeight);
    match order
    case TestFirst => if Hits(test, nx, ny) then Move(nx, ny, false, true) else Move(cx, cy, true, false)
    case ClampFirst => if Hits(test, cx, cy) then Move(cx, cy, false, true) else Move(cx, cy, true, false)
    case SendFirst => Move(cx, cy, true, Hits(test, cx, cy))
  }

  /** A move that stays on the remote desktop is followed exactly. */
  lemma FollowsInsideMoves(order: Order, test: ReturnTest, x: int, y: int, dx: int, dy: int)
    requires InBox(x + dx, y + dy) && !Hits(test, x + dx, y + dy)
    ensures var m := Advance(order, test, x, y, dx, dy);
      m == Move(x + dx, y + dy, true, false)
  {
  }

  /** For a return line inside the desktop on the x axis, clamping before
      or after the test makes no difference to the decision, nor to what is
      sent: the `TestFirst` and `ClampFirst` variants agree. */
  lemma ClampingKeepsDecision(test: ReturnTest, x: int, y: int, dx: int, dy: int)
    requires test.XAtMost? ==> 0 <= test.k < RemoteWidth
    requires test.XAtLeast? ==> 0 < test.k <= RemoteWidth
    requires test.XAtMost? || test.XAtLeast? || test.Never?
    ensures var a := Advance(TestFirst, test, x, y, dx, dy);
      var b := Advance(ClampFirst, test, x, y, dx, dy);
      a.back == b.back && a.send == b.send && (a.send ==> a.x == b.x && a.y == b.y)
  {
  }

  /** Under `SendFirst` the move that reaches the line is still sent: a
      leftward move past 0 is sent as x = 0, and then control returns. */
  lemma SendFirstSendsTheLastMove(x: int, y: int, dx: int, dy: int)
    requires x + dx <= 0
    ensures var m := Advance(SendFirst, XAtMost(0), x, y, dx, dy);
      m.send && m.back && m.x == 0
  {
  }

  /** `int(d * 1.5)` for an integer delta: truncated toward zero. */
  function Scaled(d: int): (r: int)
    ensures d >= 0 ==> 0 <= 2 * r <= 3 * d < 2 * r + 2
    ensures d < 0 ==> 2 * r - 2 < 3 * d <= 2 * r <= 0
  {
    if d >= 0 then (3 * d) / 2 else -((3 * -d) / 2)
  }

  /** Truncation is symmetric: scaling is odd. */
  lemma ScaledIsOdd(d: int)
    ensures Scaled(-d) == -Scaled(d)
  {
  }

  /** The last mouse sample after a move in bridge.py (limit 200) and
      bridge2.py (limit 300): the sample itself, unless it is more than
      `limit` from the centre on either axis, when the cursor is warped to
      the centre instead. */
  function Recentred(x: int, y: int, cx: int, cy: int, limit: int): (r: (int, int))
    ensures r == (x, y) || r == (cx, cy)
    ensures r == (cx, cy) <== Abs(x - cx) > limit || Abs(y - cy) > limit
    ensures r == (x, y) <== Abs(x - cx) <= limit && Abs(y - cy) <= limit
  {
    if Abs(x - cx) > limit || Abs(y - cy) > limit then (cx, cy) else (x, y)
  }

  /** After recentring, the last sample is within `limit` of the centre on
      both axes, so the next delta can be as large as that in any direction. */
  lemma RecentredStaysNear(x: int, y: int, cx: int, cy: int, limit: int)
    requires limit >= 0
    ensures var r := Recentred(x, y, cx, cy, limit);
      Abs(r.0 - cx) <= limit && Abs(r.1 - cy) <= limit
  {
  }

  /** The round trap of bridge3.py and app_v2.py: `dist > limit` with
      `dist` the Euclidean distance, compared here without the root. */
  predicate FarFrom(x: int, y: int, cx: int, cy: int, limit: nat) {
    (x - cx) * (x - cx) + (y - cy) * (y - cy) > limit * limit
  }

  /** The square trap is the looser one: a sample inside the square of
      half-side `limit` may still be far on the round trap, but one inside
      the circle is always inside the square. */
  lemma RoundTrapInsideSquare(x: int, y: int, cx: int, cy: int, limit: nat)
    requires !FarFrom(x, y, cx, cy, limit)
    ensures Abs(x - cx) <= limit && Abs(y - cy) <= limit
  {
    if Abs(x - cx) > limit {
      assert (x - cx) * (x - cx) > limit * limit by {
        MulMono(Abs(x - cx), limit);
      }
    }
    if Abs(y - cy) > limit {
      assert (y - cy) * (y - cy) > limit * limit by {
        MulMono(Abs(y - cy), limit);
      }
    }
  }

  lemma MulMono(a: int, b: nat)
    requires a > b
    ensures a * a > b * b
  {
    assert a * a - b * b == (a - b) * (a + b);
  }

  // -----------------------------------------------------------------------
  // Effects and events

  /** One callback's effect: the new state, the events passed to
      `send_event` in order, and where the local cursor was warped. */
  datatype Effect<S> = Effect(state: S, events: seq<Json>, warp: Option<(int, int)>)

  function ModeOn(x: int, y: int): Json {
    JObj(map["type" := JStr("mode_switch"), "active" := JBool(true), "x" := JInt(x), "y" := JInt(y)])
  }

  /** The mode switch of macwincontrol.py, which carries no position. */
  function ModeOnBare(): Json {
    JObj(map["type" := JStr("mode_switch"), "active" := JBool(true)])
  }

  function ModeOff(): Json {
    JObj(map["type" := JStr("mode_switch"), "active" := JBool(false)])
  }

  function MoveTo(x: int, y: int): Json {
    JObj(map["type" := JStr("mouse_move"), "x" := JInt(x), "y" := JInt(y)])
  }

  function KeyPlain(vk: int, down: bool): Json {
    JObj(map["type" := JStr("key"), "keyCode" := JInt(vk), "action" := JStr(if down then "down" else "up")])
  }

  /** The events of the variants that address one Windows screen. */
  function ModeOnScreen(screen: int, x: int, y: int): Json {
    JObj(map["type" := JStr("mode_switch"), "active" := JBool(true), "screen" := JInt(screen),
             "x" := JInt(x), "y" := JInt(y)])
  }

  function MoveOnScreen(screen: int, x: int, y: int): Json {
    JObj(map["type" := JStr("mouse_move"), "screen" := JInt(screen), "x" := JInt(x), "y" := JInt(y)])
  }

  /** A key event with its modifier flags: `{"control", "alt"}`, and with
      `full` also `"shift"` and `"meta"`, both always false. */
  function KeyWithMods(vk: int, down: bool, ctrl: bool, alt: bool, full: bool): Json {
    var mods := map["control" := JBool(ctrl), "alt" := JBool(alt)];
    JObj(map["type" := JStr("key"), "keyCode" := JInt(vk), "action" := JStr(if down then "down" else "up"),
             "modifiers" := JObj(if full then mods["shift" := JBool(false)]["meta" := JBool(false)] else mods)])
  }
}
