/** Multi-monitor geometry of the Mac host: screens as integer rectangles
    in one virtual desktop, bounding boxes, point containment, the edge
    that leads from the Mac screens to a Windows screen, and the points
    where the cursor enters Windows and comes back to the Mac.

    The queries are pure functions over the screen lists; the mutators of
    `ScreenArrangement` (MacApp/macwincontrol_gui.py and the identical
    ones of MacApp/MacWinControlApp.py) and of `ScreenManager`
    (MacApp/macwincontrol.py) are methods. */
module Geometry {
  import opened Common

  /** A `VirtualScreen`: size, position of its top-left corner, and its
      position in its list. */
  datatype Rect = Rect(width: int, height: int, x: int, y: int, index: int)

  function Right(r: Rect): int { r.x + r.width }
  function Bottom(r: Rect): int { r.y + r.height }

  /** The middle of a screen, `(x + width // 2, y + height // 2)`: Python's
      `//` floors, as Dafny's `/` does for a positive divisor. */
  function Middle(r: Rect): (c: (int, int))
    ensures 2 * (c.0 - r.x) <= r.width < 2 * (c.0 - r.x) + 2
    ensures 2 * (c.1 - r.y) <= r.height < 2 * (c.1 - r.y) + 2
  {
    (r.x + r.width / 2, r.y + r.height / 2)
  }

  /** A bounding box (min x, min y, max x, max y). */
  datatype Box = Box(minX: int, minY: int, maxX: int, maxY: int)

  /** The box assumed when there is no screen at all. */
  const DefaultBox := Box(0, 0, 1920, 1080)

  /** Half-open containment, `s.x <= x < s.x + s.width` and likewise in y. */
  predicate Contains(r: Rect, px: int, py: int) {
    r.x <= px < Right(r) && r.y <= py < Bottom(r)
  }

  predicate Inside(r: Rect, b: Box) {
    b.minX <= r.x && b.minY <= r.y && Right(r) <= b.maxX && Bottom(r) <= b.maxY
  }

  /** The tight box around a non-empty list of screens: every screen lies
      in it and each of its four sides is attained by some screen. */
  function Tight(s: seq<Rect>): (b: Box)
    requires |s| > 0
    ensures forall i :: 0 <= i < |s| ==> Inside(s[i], b)
    ensures exists i :: 0 <= i < |s| && s[i].x == b.minX
    ensures exists i :: 0 <= i < |s| && s[i].y == b.minY
    ensures exists i :: 0 <= i < |s| && Right(s[i]) == b.maxX
    ensures exists i :: 0 <= i < |s| && Bottom(s[i]) == b.maxY
    decreases |s|
  {
    if |s| == 1 then Box(s[0].x, s[0].y, Right(s[0]), Bottom(s[0]))
    else
      var t := Tight(s[1..]);
      assert forall i :: 1 <= i < |s| ==> s[i] == s[1..][i - 1];
      Box(Min(s[0].x, t.minX), Min(s[0].y, t.minY), Max(Right(s[0]), t.maxX), Max(Bottom(s[0]), t.maxY))
  }

  /** `get_mac_bounds` and friends: the tight box, or 0,0,1920,1080 for no
      screens. */
  function BoundsOr(s: seq<Rect>): (b: Box)
    ensures s == [] ==> b == DefaultBox
    ensures s != [] ==> b == Tight(s)
  {
    if s == [] then DefaultBox else Tight(s)
  }

  /** The tight box is the smallest box holding every screen. */
  lemma TightIsSmallest(s: seq<Rect>, b: Box)
    requires |s| > 0
    requires forall i :: 0 <= i < |s| ==> Inside(s[i], b)
    ensures b.minX <= Tight(s).minX && b.minY <= Tight(s).minY
    ensures Tight(s).maxX <= b.maxX && Tight(s).maxY <= b.maxY
  {
    var t := Tight(s);
    var i :| 0 <= i < |s| && s[i].x == t.minX;
    var j :| 0 <= j < |s| && s[j].y == t.minY;
    var k :| 0 <= k < |s| && Right(s[k]) == t.maxX;
    var l :| 0 <= l < |s| && Bottom(s[l]) == t.maxY;
    assert Inside(s[i], b) && Inside(s[j], b) && Inside(s[k], b) && Inside(s[l], b);
  }

  /** `get_total_bounds`: over the Mac screens followed by the Windows ones. */
  function TotalBounds(mac: seq<Rect>, win: seq<Rect>): (b: Box)
    ensures mac + win == [] ==> b == DefaultBox
    ensures mac + win != [] ==> b == Tight(mac + win)
    ensures forall i :: 0 <= i < |mac| ==> Inside(mac[i], b)
    ensures forall i :: 0 <= i < |win| ==> Inside(win[i], b)
  {
    var all := mac + win;
    assert forall i :: 0 <= i < |mac| ==> mac[i] == all[i];
    assert forall i :: 0 <= i < |win| ==> win[i] == all[|mac| + i];
    BoundsOr(all)
  }

  // -----------------------------------------------------------------------
  // Points

  /** Position of the first screen containing the point, or `|s|`. */
  function FirstContaining(s: seq<Rect>, px: int, py: int): (r: nat)
    ensures r <= |s|
    ensures forall j :: 0 <= j < r ==> !Contains(s[j], px, py)
    ensures r < |s| ==> Contains(s[r], px, py)
    decreases |s|
  {
    if s == [] then 0
    else if Contains(s[0], px, py) then 0
    else 1 + FirstContaining(s[1..], px, py)
  }

  /** `point_on_mac`. */
  function PointOnMac(mac: seq<Rect>, px: int, py: int): (r: bool)
    ensures r <==> exists i :: 0 <= i < |mac| && Contains(mac[i], px, py)
  {
    FirstContaining(mac, px, py) < |mac|
  }

  /** A position on a Windows screen: its index and screen-local x, y. */
  datatype Local = Local(screen: int, x: int, y: int)

  /** `point_on_windows`: the first Windows screen holding the point, with
      the point in that screen's own coordinates. */
  function PointOnWindows(win: seq<Rect>, px: int, py: int): (r: Option<Local>)
    ensures r.None? <==> forall i :: 0 <= i < |win| ==> !Contains(win[i], px, py)
    ensures r.Some? ==> exists i :: (0 <= i < |win| && Contains(win[i], px, py)
      && (forall j :: 0 <= j < i ==> !Contains(win[j], px, py))
      && r.value == Local(win[i].index, px - win[i].x, py - win[i].y))
  {
    var i := FirstContaining(win, px, py);
    if i < |win| then Some(Local(win[i].index, px - win[i].x, py - win[i].y)) else None
  }

  /** The local coordinates `point_on_windows` reports lie on the screen:
      0 <= x < width and 0 <= y < height. */
  lemma PointOnWindowsLocal(win: seq<Rect>, px: int, py: int)
    requires PointOnWindows(win, px, py).Some?
    ensures var l := PointOnWindows(win, px, py).value;
      exists i :: 0 <= i < |win| && win[i].index == l.screen
        && 0 <= l.x < win[i].width && 0 <= l.y < win[i].height
  {
  }

  // -----------------------------------------------------------------------
  // Edges between the Mac screens and a Windows screen

  /** One Windows screen, checked against the Mac box as in one pass of the
      loop of `get_transition_edge` (macwincontrol_gui.py): the cursor is
      within `t` of a Mac side, the Windows screen is flush against that
      side, and the cursor's other coordinate lies in the screen's span. */
  predicate EdgeHit(b: Box, ws: Rect, px: int, py: int, t: int) {
    (px >= b.maxX - t && ws.x == b.maxX && ws.y <= py < Bottom(ws)) ||
    (px <= b.minX + t && Right(ws) == b.minX && ws.y <= py < Bottom(ws)) ||
    (py <= b.minY + t && Bottom(ws) == b.minY && ws.x <= px < Right(ws)) ||
    (py >= b.maxY - t && ws.y == b.maxY && ws.x <= px < Right(ws))
  }

  /** The same test in MacWinControlApp.py: right and left sides only. */
  predicate SideHit(b: Box, ws: Rect, px: int, py: int, t: int) {
    (px >= b.maxX - t && ws.x == b.maxX && ws.y <= py < Bottom(ws)) ||
    (px <= b.minX + t && Right(ws) == b.minX && ws.y <= py < Bottom(ws))
  }

  function AnyEdgeHit(b: Box, win: seq<Rect>, px: int, py: int, t: int, sidesOnly: bool): (r: bool)
    ensures r <==> exists i :: (0 <= i < |win| &&
      (if sidesOnly then SideHit(b, win[i], px, py, t) else EdgeHit(b, win[i], px, py, t)))
    decreases |win|
  {
    if win == [] then false
    else
      var hit := if sidesOnly then SideHit(b, win[0], px, py, t) else EdgeHit(b, win[0], px, py, t);
      assert forall i :: 1 <= i < |win| ==> win[i] == win[1..][i - 1];
      hit || AnyEdgeHit(b, win[1..], px, py, t, sidesOnly)
  }

  /** `get_transition_edge(x, y, threshold)` of macwincontrol_gui.py; true
      stands for 'to_windows', false for None. */
  function TransitionEdge(mac: seq<Rect>, win: seq<Rect>, px: int, py: int, t: int): (r: bool)
    ensures r <==> exists i :: 0 <= i < |win| && EdgeHit(BoundsOr(mac), win[i], px, py, t)
  {
    AnyEdgeHit(BoundsOr(mac), win, px, py, t, false)
  }

  /** `get_transition_edge` of MacWinControlApp.py: never above or below. */
  function SideTransitionEdge(mac: seq<Rect>, win: seq<Rect>, px: int, py: int, t: int): (r: bool)
    ensures r <==> exists i :: 0 <= i < |win| && SideHit(BoundsOr(mac), win[i], px, py, t)
  {
    AnyEdgeHit(BoundsOr(mac), win, px, py, t, true)
  }

  /** The side-only test fires only where the full one does. */
  lemma SideTransitionImpliesTransition(mac: seq<Rect>, win: seq<Rect>, px: int, py: int, t: int)
    requires SideTransitionEdge(mac, win, px, py, t)
    ensures TransitionEdge(mac, win, px, py, t)
  {
    var i :| 0 <= i < |win| && SideHit(BoundsOr(mac), win[i], px, py, t);
    assert EdgeHit(BoundsOr(mac), win[i], px, py, t);
  }

  // -----------------------------------------------------------------------
  // Entering Windows

  /** `ws` is flush against the right side of the Mac box and spans row `py`. */
  predicate RightOfMac(b: Box, ws: Rect, py: int) {
    ws.x == b.maxX && ws.y <= py < Bottom(ws)
  }

  predicate LeftOfMac(b: Box, ws: Rect, py: int) {
    Right(ws) == b.minX && ws.y <= py < Bottom(ws)
  }

  /** `ws` is flush against the bottom of the Mac box and spans column `px`. */
  predicate BelowMac(b: Box, ws: Rect, px: int) {
    ws.y == b.maxY && ws.x <= px < Right(ws)
  }

  predicate AboveMac(b: Box, ws: Rect, px: int) {
    Bottom(ws) == b.minY && ws.x <= px < Right(ws)
  }

  /** The entry for one Windows screen, the four checks of one pass of the
      loop in `find_entry_point_to_windows` in their order: Windows to the
      right, to the left, below, above. The cursor enters 5 px inside the
      edge it crosses, at the coordinate where it crosses. */
  function EntryAt(b: Box, ws: Rect, px: int, py: int, sidesOnly: bool): (r: Option<Local>)
    ensures RightOfMac(b, ws, py) ==> r == Some(Local(ws.index, 5, py - ws.y))
    ensures !RightOfMac(b, ws, py) && LeftOfMac(b, ws, py) ==>
      r == Some(Local(ws.index, ws.width - 5, py - ws.y))
    ensures !sidesOnly && !RightOfMac(b, ws, py) && !LeftOfMac(b, ws, py) && BelowMac(b, ws, px) ==>
      r == Some(Local(ws.index, px - ws.x, 5))
    ensures (!sidesOnly && !RightOfMac(b, ws, py) && !LeftOfMac(b, ws, py) && !BelowMac(b, ws, px)
             && AboveMac(b, ws, px)) ==> r == Some(Local(ws.index, px - ws.x, ws.height - 5))
    ensures r.None? <==>
      !RightOfMac(b, ws, py) && !LeftOfMac(b, ws, py) && (sidesOnly || (!BelowMac(b, ws, px) && !AboveMac(b, ws, px)))
  {
    if RightOfMac(b, ws, py) then Some(Local(ws.index, 5, py - ws.y))
    else if LeftOfMac(b, ws, py) then Some(Local(ws.index, ws.width - 5, py - ws.y))
    else if sidesOnly then None
    else if BelowMac(b, ws, px) then Some(Local(ws.index, px - ws.x, 5))
    else if AboveMac(b, ws, px) then Some(Local(ws.index, px - ws.x, ws.height - 5))
    else None
  }

  /** The first screen, in list order, that has an entry. */
  function FirstEntry(b: Box, win: seq<Rect>, px: int, py: int, sidesOnly: bool): (r: Option<Local>)
    ensures r.None? <==> forall i :: 0 <= i < |win| ==> EntryAt(b, win[i], px, py, sidesOnly).None?
    ensures r.Some? ==> exists i :: (0 <= i < |win| && r == EntryAt(b, win[i], px, py, sidesOnly)
      && forall j :: 0 <= j < i ==> EntryAt(b, win[j], px, py, sidesOnly).None?)
    decreases |win|
  {
    if win == [] then None
    else
      assert forall i :: 1 <= i < |win| ==> win[i] == win[1..][i - 1];
      var here := EntryAt(b, win[0], px, py, sidesOnly);
      if here.Some? then here else FirstEntry(b, win[1..], px, py, sidesOnly)
  }

  /** `find_entry_point_to_windows(x, y)` of macwincontrol_gui.py. */
  function EntryPoint(mac: seq<Rect>, win: seq<Rect>, px: int, py: int): (r: Local)
    ensures FirstEntry(BoundsOr(mac), win, px, py, false).Some? ==>
      r == FirstEntry(BoundsOr(mac), win, px, py, false).value
    ensures FirstEntry(BoundsOr(mac), win, px, py, false).None? ==>
      r == if win != [] then Local(0, 100, py) else Local(0, 100, 540)
  {
    match FirstEntry(BoundsOr(mac), win, px, py, false)
    case Some(l) => l
    case None => if win != [] then Local(0, 100, py) else Local(0, 100, 540)
  }

  /** `find_entry_point(x, y)` of MacWinControlApp.py. */
  function SideEntryPoint(mac: seq<Rect>, win: seq<Rect>, px: int, py: int): (r: Local)
    ensures FirstEntry(BoundsOr(mac), win, px, py, true).Some? ==>
      r == FirstEntry(BoundsOr(mac), win, px, py, true).value
    ensures FirstEntry(BoundsOr(mac), win, px, py, true).None? ==> r == Local(0, 100, 540)
  {
    match FirstEntry(BoundsOr(mac), win, px, py, true)
    case Some(l) => l
    case None => Local(0, 100, 540)
  }

  /** Whenever the edge test fires, the entry point is found on a screen
      flush against the Mac, never the fallback. */
  lemma TransitionHasEntry(mac: seq<Rect>, win: seq<Rect>, px: int, py: int, t: int)
    requires TransitionEdge(mac, win, px, py, t)
    ensures FirstEntry(BoundsOr(mac), win, px, py, false).Some?
  {
    var b := BoundsOr(mac);
    var i :| 0 <= i < |win| && EdgeHit(b, win[i], px, py, t);
    assert EntryAt(b, win[i], px, py, false).Some?;
  }

  /** The entry point lies on its screen whenever the screen is more than
      5 px wide and high. */
  lemma EntryOnScreen(b: Box, ws: Rect, px: int, py: int, sidesOnly: bool)
    requires ws.width > 5 && ws.height > 5
    requires EntryAt(b, ws, px, py, sidesOnly).Some?
    ensures var l := EntryAt(b, ws, px, py, sidesOnly).value;
      0 <= l.x < ws.width && 0 <= l.y < ws.height
  {
  }

  // -----------------------------------------------------------------------
  // Returning to the Mac

  /** The return tests of `find_return_point_to_mac` for the screen `ws`
      and the local position (lx, ly): within 5 px of the edge that faces
      the Mac, for a screen flush with the Mac's right or left side. */
  predicate BackOverRight(b: Box, ws: Rect, lx: int) {
    lx <= 5 && ws.x == b.maxX
  }

  predicate BackOverLeft(b: Box, ws: Rect, lx: int) {
    lx >= ws.width - 5 && Right(ws) == b.minX
  }

  /** For a screen above the Mac the source tests the screen's top edge
      (`ly <= 5`), the one facing away from the Mac; `fixedVertical`
      tests the bottom edge, which faces the Mac. */
  predicate BackOverTop(b: Box, ws: Rect, ly: int, fixedVertical: bool) {
    (if fixedVertical then ly >= ws.height - 5 else ly <= 5) && Bottom(ws) == b.minY
  }

  /** Likewise for a screen below the Mac: the source tests its bottom
      edge, `fixedVertical` its top edge. */
  predicate BackOverBottom(b: Box, ws: Rect, ly: int, fixedVertical: bool) {
    (if fixedVertical then ly <= 5 else ly >= ws.height - 5) && ws.y == b.maxY
  }

  /** `find_return_point_to_mac(win_screen, local_x, local_y)` of
      macwincontrol_gui.py (`sidesOnly` false) and `find_return_point` of
      MacWinControlApp.py (`sidesOnly` true). Back over a side of the Mac
      the cursor lands 50 px inside that side, at the coordinate it left
      from; anywhere else it lands in the middle of the first Mac screen.
      None where Python raises IndexError: there is no Windows screen, or
      the fallback needs the first Mac screen and there is none. An index
      past the end becomes 0, a negative one counts from the end as Python
      indexing does. `fixedVertical` false is the source as written. */
  function ReturnPoint(mac: seq<Rect>, win: seq<Rect>, screen: int, lx: int, ly: int, sidesOnly: bool,
                       fixedVertical: bool): (r: Option<(int, int)>)
    ensures win == [] || screen < -|win| ==> r.None?
    ensures var k := PyIndex(|win|, if screen >= |win| then 0 else screen);
      k.Some? ==>
      var ws, b := win[k.value], BoundsOr(mac);
      && (BackOverRight(b, ws, lx) ==> r == Some((b.maxX - 50, ws.y + ly)))
      && (!BackOverRight(b, ws, lx) && BackOverLeft(b, ws, lx) ==> r == Some((b.minX + 50, ws.y + ly)))
      && ((!sidesOnly && !BackOverRight(b, ws, lx) && !BackOverLeft(b, ws, lx)
           && BackOverTop(b, ws, ly, fixedVertical)) ==> r == Some((ws.x + lx, b.minY + 50)))
      && ((!sidesOnly && !BackOverRight(b, ws, lx) && !BackOverLeft(b, ws, lx)
           && !BackOverTop(b, ws, ly, fixedVertical) && BackOverBottom(b, ws, ly, fixedVertical))
          ==> r == Some((ws.x + lx, b.maxY - 50)))
      && ((!BackOverRight(b, ws, lx) && !BackOverLeft(b, ws, lx)
           && (sidesOnly || (!BackOverTop(b, ws, ly, fixedVertical) && !BackOverBottom(b, ws, ly, fixedVertical))))
          ==> r == if mac == [] then None else Some(Middle(mac[0])))
  {
    var idx := if screen >= |win| then 0 else screen;
    match PyIndex(|win|, idx)
    case None => None
    case Some(k) =>
      var ws := win[k];
      var b := BoundsOr(mac);
      if BackOverRight(b, ws, lx) then Some((b.maxX - 50, ws.y + ly))
      else if BackOverLeft(b, ws, lx) then Some((b.minX + 50, ws.y + ly))
      else if !sidesOnly && BackOverTop(b, ws, ly, fixedVertical) then Some((ws.x + lx, b.minY + 50))
      else if !sidesOnly && BackOverBottom(b, ws, ly, fixedVertical) then Some((ws.x + lx, b.maxY - 50))
      else if mac == [] then None
      else Some(Middle(mac[0]))
  }

  /** Screens whose `index` is their position, as every mutator below keeps
      them. */
  predicate Indexed(win: seq<Rect>) {
    forall i :: 0 <= i < |win| ==> win[i].index == i
  }

  /** Crossing the right Mac edge and coming straight back: the cursor enters
      5 px inside the Windows screen flush against the Mac's right side and,
      if it leaves again right away, lands 50 px inside the Mac on the very
      row it left from. */
  lemma EnterRightThenReturn(mac: seq<Rect>, win: seq<Rect>, i: nat, px: int, py: int)
    requires Indexed(win) && i < |win|
    requires RightOfMac(BoundsOr(mac), win[i], py)
    requires forall j :: 0 <= j < i ==> EntryAt(BoundsOr(mac), win[j], px, py, false).None?
    ensures EntryPoint(mac, win, px, py) == Local(i, 5, py - win[i].y)
    ensures ReturnPoint(mac, win, i, 5, py - win[i].y, false, false) == Some((BoundsOr(mac).maxX - 50, py))
    ensures ReturnPoint(mac, win, i, 5, py - win[i].y, false, true) == Some((BoundsOr(mac).maxX - 50, py))
  {
    EntryIsFirst(mac, win, i, px, py);
  }

  /** The entry search stops at the first screen that has an entry. */
  lemma EntryIsFirst(mac: seq<Rect>, win: seq<Rect>, i: nat, px: int, py: int)
    requires i < |win|
    requires EntryAt(BoundsOr(mac), win[i], px, py, false).Some?
    requires forall j :: 0 <= j < i ==> EntryAt(BoundsOr(mac), win[j], px, py, false).None?
    ensures EntryPoint(mac, win, px, py) == EntryAt(BoundsOr(mac), win[i], px, py, false).value
  {
    var b := BoundsOr(mac);
    assert EntryAt(b, win[i], px, py, false).Some?;
    assert FirstEntry(b, win, px, py, false).Some?;
    var k :| 0 <= k < |win| && FirstEntry(b, win, px, py, false) == EntryAt(b, win[k], px, py, false)
      && forall j :: 0 <= j < k ==> EntryAt(b, win[j], px, py, false).None?;
    assert k == i;
  }

  /** Back from the right edge of a screen left of the Mac box. */
  lemma ReturnFromLeft(mac: seq<Rect>, win: seq<Rect>, i: nat, py: int)
    requires mac != [] && i < |win| && win[i].width > 10
    requires !RightOfMac(Tight(mac), win[i], py) && LeftOfMac(Tight(mac), win[i], py)
    ensures ReturnPoint(mac, win, i, win[i].width - 5, py - win[i].y, false, true) == Some((Tight(mac).minX + 50, py))
  {
    var b, ws := Tight(mac), win[i];
    assert BoundsOr(mac) == b && PyIndex(|win|, i) == Some(i);
    assert !BackOverRight(b, ws, ws.width - 5) && BackOverLeft(b, ws, ws.width - 5);
  }

  /** Back from the top edge of a screen below the Mac box. */
  lemma ReturnFromBelow(mac: seq<Rect>, win: seq<Rect>, i: nat, px: int)
    requires mac != [] && i < |win| && win[i].height > 10
    requires Tight(mac).minX <= px < Tight(mac).maxX && Tight(mac).minY < Tight(mac).maxY
    requires BelowMac(Tight(mac), win[i], px)
    ensures ReturnPoint(mac, win, i, px - win[i].x, 5, false, true) == Some((px, Tight(mac).maxY - 50))
    ensures ReturnPoint(mac, win, i, px - win[i].x, 5, false, false) == Some(Middle(mac[0]))
  {
    var b, ws := Tight(mac), win[i];
    assert BoundsOr(mac) == b && PyIndex(|win|, i) == Some(i);
    assert !BackOverRight(b, ws, px - ws.x) && !BackOverLeft(b, ws, px - ws.x);
    assert !BackOverTop(b, ws, 5, true) && BackOverBottom(b, ws, 5, true);
    assert !BackOverTop(b, ws, 5, false) && !BackOverBottom(b, ws, 5, false);
  }

  /** Back from the bottom edge of a screen above the Mac box. */
  lemma ReturnFromAbove(mac: seq<Rect>, win: seq<Rect>, i: nat, px: int)
    requires mac != [] && i < |win| && win[i].height > 10
    requires Tight(mac).minX <= px < Tight(mac).maxX && Tight(mac).minY < Tight(mac).maxY
    requires AboveMac(Tight(mac), win[i], px)
    ensures ReturnPoint(mac, win, i, px - win[i].x, win[i].height - 5, false, true) == Some((px, Tight(mac).minY + 50))
    ensures ReturnPoint(mac, win, i, px - win[i].x, win[i].height - 5, false, false) == Some(Middle(mac[0]))
  {
    var b, ws := Tight(mac), win[i];
    assert BoundsOr(mac) == b && PyIndex(|win|, i) == Some(i);
    assert !BackOverRight(b, ws, px - ws.x) && !BackOverLeft(b, ws, px - ws.x);
    assert BackOverTop(b, ws, ws.height - 5, true);
    assert !BackOverTop(b, ws, ws.height - 5, false) && !BackOverBottom(b, ws, ws.height - 5, false);
  }

  /** The round trip through screen `ws` alone: the entry that screen
      gives, then the return from it. */
  lemma ReturnAfterEntry(mac: seq<Rect>, win: seq<Rect>, i: nat, px: int, py: int)
    requires mac != [] && i < |win| && win[i].index == i
    requires Tight(mac).minX <= px < Tight(mac).maxX && Tight(mac).minY <= py < Tight(mac).maxY
    requires win[i].width > 10 && win[i].height > 10
    requires EntryAt(Tight(mac), win[i], px, py, false).Some?
    ensures var l, b, ws := EntryAt(Tight(mac), win[i], px, py, false).value, Tight(mac), win[i];
      && (RightOfMac(b, ws, py) ==> ReturnPoint(mac, win, i, l.x, l.y, false, true) == Some((b.maxX - 50, py)))
      && (LeftOfMac(b, ws, py) ==> ReturnPoint(mac, win, i, l.x, l.y, false, true) == Some((b.minX + 50, py)))
      && (BelowMac(b, ws, px) ==> ReturnPoint(mac, win, i, l.x, l.y, false, true) == Some((px, b.maxY - 50)))
      && (AboveMac(b, ws, px) ==> ReturnPoint(mac, win, i, l.x, l.y, false, true) == Some((px, b.minY + 50)))
      && (BelowMac(b, ws, px) || AboveMac(b, ws, px) ==>
            ReturnPoint(mac, win, i, l.x, l.y, false, false) == Some(Middle(mac[0])))
  {
    var b, ws := Tight(mac), win[i];
    var l := EntryAt(b, ws, px, py, false).value;
    if RightOfMac(b, ws, py) {
      assert !LeftOfMac(b, ws, py) && !BelowMac(b, ws, px) && !AboveMac(b, ws, px);
      assert l == Local(i, 5, py - ws.y);
      assert BoundsOr(mac) == b && PyIndex(|win|, i) == Some(i);
      assert BackOverRight(b, ws, l.x);
    } else if LeftOfMac(b, ws, py) {
      assert !BelowMac(b, ws, px) && !AboveMac(b, ws, px);
      assert l == Local(i, ws.width - 5, py - ws.y);
      ReturnFromLeft(mac, win, i, py);
    } else if BelowMac(b, ws, px) {
      assert !AboveMac(b, ws, px);
      assert l == Local(i, px - ws.x, 5);
      ReturnFromBelow(mac, win, i, px);
    } else {
      assert l == Local(i, px - ws.x, ws.height - 5);
      ReturnFromAbove(mac, win, i, px);
    }
  }

  /** Crossing any side of the Mac box and coming straight back. With the
      corrected vertical tests the cursor lands 50 px inside the side it
      crossed, at the coordinate where it crossed; with the tests as
      written, a crossing at the top or the bottom comes back to the middle
      of the first Mac screen instead. The cursor is on the Mac box, and
      the screen entered is more than 10 px wide and high, so that its
      opposite edges are more than 5 px apart. */
  lemma EnterThenReturn(mac: seq<Rect>, win: seq<Rect>, i: nat, px: int, py: int)
    requires mac != [] && Indexed(win) && i < |win|
    requires Tight(mac).minX <= px < Tight(mac).maxX && Tight(mac).minY <= py < Tight(mac).maxY
    requires win[i].width > 10 && win[i].height > 10
    requires EntryAt(Tight(mac), win[i], px, py, false).Some?
    requires forall j :: 0 <= j < i ==> EntryAt(Tight(mac), win[j], px, py, false).None?
    ensures EntryPoint(mac, win, px, py).screen == i
    ensures var l, b, ws := EntryPoint(mac, win, px, py), Tight(mac), win[i];
      && (RightOfMac(b, ws, py) ==> ReturnPoint(mac, win, i, l.x, l.y, false, true) == Some((b.maxX - 50, py)))
      && (LeftOfMac(b, ws, py) ==> ReturnPoint(mac, win, i, l.x, l.y, false, true) == Some((b.minX + 50, py)))
      && (BelowMac(b, ws, px) ==> ReturnPoint(mac, win, i, l.x, l.y, false, true) == Some((px, b.maxY - 50)))
      && (AboveMac(b, ws, px) ==> ReturnPoint(mac, win, i, l.x, l.y, false, true) == Some((px, b.minY + 50)))
    ensures var l, b, ws := EntryPoint(mac, win, px, py), Tight(mac), win[i];
      BelowMac(b, ws, px) || AboveMac(b, ws, px) ==>
        ReturnPoint(mac, win, i, l.x, l.y, false, false) == Some(Middle(mac[0]))
  {
    EntryIsFirst(mac, win, i, px, py);
    ReturnAfterEntry(mac, win, i, px, py);
  }

  /** One Mac screen of 1920x1080 at the origin and one Windows screen of
      the same size right above it: crossing the top at x 500 enters at
      (500, 1075), and coming straight back lands in the middle of the Mac,
      (960, 540), as written, where the corrected test lands at (500, 50). */
  lemma TopEntryReturnsToMiddle()
    ensures var mac, win := [Rect(1920, 1080, 0, 0, 0)], [Rect(1920, 1080, 0, -1080, 0)];
      && EntryPoint(mac, win, 500, 0) == Local(0, 500, 1075)
      && ReturnPoint(mac, win, 0, 500, 1075, false, false) == Some((960, 540))
      && ReturnPoint(mac, win, 0, 500, 1075, false, true) == Some((500, 50))
  {
    var mac, win := [Rect(1920, 1080, 0, 0, 0)], [Rect(1920, 1080, 0, -1080, 0)];
    assert Tight(mac) == Box(0, 0, 1920, 1080);
    assert EntryAt(Tight(mac), win[0], 500, 0, false) == Some(Local(0, 500, 1075));
    assert FirstEntry(Tight(mac), win, 500, 0, false) == Some(Local(0, 500, 1075));
  }

  // -----------------------------------------------------------------------
  // The default layout

  /** Total width of a list of screens. */
  function Widths(s: seq<Rect>): int
    decreases |s|
  {
    if s == [] then 0 else Widths(s[..|s| - 1]) + s[|s| - 1].width
  }

  /** The Windows screens side by side from `start`, all at height `top`,
      each starting where the previous one ends. */
  function Chain(s: seq<Rect>, start: int, top: int): (r: seq<Rect>)
    ensures |r| == |s|
    ensures forall i :: 0 <= i < |s| ==> r[i] == s[i].(x := start + Widths(s[..i]), y := top)
  {
    seq(|s|, i requires 0 <= i < |s| => s[i].(x := start + Widths(s[..i]), y := top))
  }

  /** In the chain every screen touches the next: no gap, no overlap; the
      first one touches the Mac's right edge. */
  lemma ChainIsFlush(s: seq<Rect>, start: int, top: int)
    ensures |s| > 0 ==> Chain(s, start, top)[0].x == start
    ensures forall i :: 0 <= i < |s| - 1 ==>
      Chain(s, start, top)[i + 1].x == Right(Chain(s, start, top)[i])
  {
    assert |s| > 0 ==> s[..0] == [];
    forall i | 0 <= i < |s| - 1
      ensures Chain(s, start, top)[i + 1].x == Right(Chain(s, start, top)[i])
    {
      assert s[..i + 1][..i] == s[..i];
    }
  }

  /** Where `_arrange_default` places the Windows screens: after the
      rightmost Mac edge, at the topmost Mac y. Without Mac screens nothing
      moves. */
  function Arranged(mac: seq<Rect>, win: seq<Rect>): (r: seq<Rect>)
    ensures mac == [] ==> r == win
    ensures |r| == |win|
  {
    if mac == [] then win else Chain(win, Tight(mac).maxX, Tight(mac).minY)
  }

  /** After the default layout, pushing the cursor against the right side of
      the Mac on a row of the first Windows screen switches to Windows, and
      the entry point is that screen, 5 px in, on the same row. */
  lemma ArrangedEntersFromRight(mac: seq<Rect>, win: seq<Rect>, px: int, py: int)
    requires mac != [] && win != [] && Indexed(win)
    requires var b := Tight(mac); px >= b.maxX - 5 && b.minY <= py < b.minY + win[0].height
    ensures TransitionEdge(mac, Arranged(mac, win), px, py, 5)
    ensures EntryPoint(mac, Arranged(mac, win), px, py) == Local(0, 5, py - Tight(mac).minY)
  {
    var a := Arranged(mac, win);
    var b := Tight(mac);
    ChainIsFlush(win, b.maxX, b.minY);
    assert BoundsOr(mac) == b;
    assert EdgeHit(b, a[0], px, py, 5);
    assert EntryAt(b, a[0], px, py, false) == Some(Local(0, 5, py - b.minY));
    assert FirstEntry(b, a, px, py, false) == EntryAt(b, a[0], px, py, false);
  }

  /** `set_windows_screens`: a screen built from each dict the client sent,
      with 1920, 1080, 0, 0 for missing width, height, x, y. */
  function FromDicts(dicts: seq<map<string, int>>): (r: seq<Rect>)
    ensures |r| == |dicts| && Indexed(r)
  {
    seq(|dicts|, i requires 0 <= i < |dicts| =>
      Rect(IntOr(dicts[i], "width", 1920), IntOr(dicts[i], "height", 1080),
           IntOr(dicts[i], "x", 0), IntOr(dicts[i], "y", 0), i))
  }

  function IntOr(d: map<string, int>, key: string, default: int): int {
    if key in d then d[key] else default
  }

  /** `from_dict`: the saved x and y of the first screens, each defaulting to
      the current value; entries beyond the current screens are ignored. */
  function Restored(win: seq<Rect>, saved: seq<map<string, int>>): (r: seq<Rect>)
    ensures |r| == |win|
    ensures forall i :: 0 <= i < |win| && i < |saved| ==>
      r[i] == win[i].(x := IntOr(saved[i], "x", win[i].x), y := IntOr(saved[i], "y", win[i].y))
    ensures forall i :: |saved| <= i < |win| ==> r[i] == win[i]
  {
    seq(|win|, i requires 0 <= i < |win| =>
      if i < |saved| then win[i].(x := IntOr(saved[i], "x", win[i].x), y := IntOr(saved[i], "y", win[i].y))
      else win[i])
  }

  /** The screens AppKit reports, or the 1920x1080 fallback at the origin
      when AppKit is unavailable (None). */
  function Detected(appKit: Option<seq<Rect>>): (r: seq<Rect>)
    ensures appKit.None? ==> r == [Rect(1920, 1080, 0, 0, 0)]
    ensures appKit.Some? ==> r == appKit.value
  {
    match appKit
    case None => [Rect(1920, 1080, 0, 0, 0)]
    case Some(s) => s
  }

  class ScreenArrangement {
    var mac: seq<Rect>
    var windows: seq<Rect>

    /** `__init__`: detect the Mac screens, add two 1920x1080 Windows screens
        and lay them out to the right. */
    constructor(appKit: Option<seq<Rect>>)
      ensures mac == Detected(appKit)
      ensures windows == Arranged(mac, [Rect(1920, 1080, 0, 0, 0), Rect(1920, 1080, 0, 0, 1)])
    {
      mac := Detected(appKit);
      windows := [];
      new;
      AddWindowsScreen(1920, 1080);
      AddWindowsScreen(1920, 1080);
      ArrangeDefault();
    }

    method UpdateMacScreens(appKit: Option<seq<Rect>>)
      modifies this
      ensures mac == Detected(appKit) && windows == old(windows)
    {
      mac := Detected(appKit);
    }

    /** `add_windows_screen`: appended at the origin with the next index. */
    method AddWindowsScreen(width: int, height: int)
      modifies this
      ensures windows == old(windows) + [Rect(width, height, 0, 0, |old(windows)|)]
      ensures mac == old(mac)
    {
      windows := windows + [Rect(width, height, 0, 0, |windows|)];
    }

    /** `_arrange_default`, moving each Windows screen in turn. */
    method ArrangeDefault()
      modifies this
      ensures windows == Arranged(mac, old(windows))
      ensures mac == old(mac)
    {
      if mac == [] {
        return;
      }
      var right, top := Tight(mac).maxX, Tight(mac).minY;
      ghost var goal := Chain(windows, right, top);
      ghost var w0 := windows;
      var current := right;
      var i := 0;
      while i < |windows|
        invariant mac == old(mac) && w0 == old(windows)
        invariant 0 <= i <= |windows| == |w0|
        invariant current == right + Widths(w0[..i])
        invariant forall j :: 0 <= j < i ==> windows[j] == goal[j]
        invariant forall j :: i <= j < |windows| ==> windows[j] == w0[j]
      {
        assert w0[..i + 1][..i] == w0[..i];
        assert goal[i] == w0[i].(x := current, y := top);
        windows := windows[i := windows[i].(x := current, y := top)];
        current := current + windows[i].width;
        i := i + 1;
      }
      assert |windows| == |goal|;
      assert windows == goal;
    }

    /** `set_windows_screens(screens)`: replace the list and lay it out. */
    method SetWindowsScreens(dicts: seq<map<string, int>>)
      modifies this
      ensures windows == Arranged(mac, FromDicts(dicts))
      ensures mac == old(mac)
    {
      ghost var goal := FromDicts(dicts);
      windows := [];
      var i := 0;
      while i < |dicts|
        invariant 0 <= i <= |dicts| && mac == old(mac)
        invariant windows == goal[..i]
      {
        var d := dicts[i];
        windows := windows + [Rect(IntOr(d, "width", 1920), IntOr(d, "height", 1080), IntOr(d, "x", 0), IntOr(d, "y", 0), i)];
        assert goal[..i + 1] == goal[..i] + [goal[i]];
        i := i + 1;
      }
      assert windows == goal;
      ArrangeDefault();
    }

    /** `from_dict(data)` with `data['windows_screens']` already extracted. */
    method FromDict(saved: seq<map<string, int>>)
      modifies this
      ensures windows == Restored(old(windows), saved)
      ensures mac == old(mac)
    {
      var i := 0;
      while i < |saved|
        invariant 0 <= i <= |saved| && mac == old(mac)
        invariant |windows| == |old(windows)|
        invariant forall j :: 0 <= j < |windows| ==>
          windows[j] == if j < i then Restored(old(windows), saved)[j] else old(windows)[j]
      {
        if i < |windows| {
          var w := windows[i];
          windows := windows[i := w.(x := IntOr(saved[i], "x", w.x), y := IntOr(saved[i], "y", w.y))];
        }
        i := i + 1;
      }
    }
  }

  // -----------------------------------------------------------------------
  // ScreenManager of MacApp/macwincontrol.py

  /** The test of `is_at_edge` against the bounds `b`: only "right" and
      "left" are edges; the y coordinate plays no part. */
  predicate AtEdge(b: Box, px: int, edge: string, t: int) {
    if edge == "right" then px >= b.maxX - t
    else if edge == "left" then px <= b.minX + t
    else false
  }

  class ScreenManager {
    var screens: seq<Rect>
    var totalBounds: Box

    constructor(appKit: Option<seq<Rect>>)
      ensures screens == Detected(appKit)
      ensures totalBounds == BoundsOr(screens)
    {
      screens := [];
      totalBounds := DefaultBox;
      new;
      UpdateScreens(appKit);
    }

    /** `update_screens`: the bounds move only when some screen was found. */
    method UpdateScreens(appKit: Option<seq<Rect>>)
      modifies this
      ensures screens == Detected(appKit)
      ensures totalBounds == if screens == [] then old(totalBounds) else Tight(screens)
    {
      screens := Detected(appKit);
      if screens != [] {
        totalBounds := Tight(screens);
      }
    }

    /** `is_at_edge(x, y, edge, threshold)`. */
    predicate IsAtEdge(px: int, py: int, edge: string, t: int)
      reads this
    {
      AtEdge(totalBounds, px, edge, t)
    }

    /** `get_center`: the primary screen's centre, or (960, 540). */
    function Center(): (r: (int, int))
      reads this
      ensures screens == [] ==> r == (960, 540)
      ensures screens != [] ==> r == Middle(screens[0])
      ensures screens != [] && screens[0].width > 0 && screens[0].height > 0 ==>
        Contains(screens[0], r.0, r.1)
    {
      if screens == [] then (960, 540) else Middle(screens[0])
    }
  }

  /** With bounds taken from detected screens, the right edge fires exactly
      when the cursor is within the threshold of (or past) the right side of
      every screen, the left edge likewise for left sides, and no other edge
      name ever fires. */
  lemma IsAtEdgeMeans(m: ScreenManager, px: int, py: int, edge: string, t: int)
    requires m.screens != [] && m.totalBounds == Tight(m.screens)
    ensures edge == "right" ==>
      (m.IsAtEdge(px, py, edge, t) <==> forall i :: 0 <= i < |m.screens| ==> px >= Right(m.screens[i]) - t)
    ensures edge == "left" ==>
      (m.IsAtEdge(px, py, edge, t) <==> forall i :: 0 <= i < |m.screens| ==> px <= m.screens[i].x + t)
    ensures edge != "right" && edge != "left" ==> !m.IsAtEdge(px, py, edge, t)
  {
  }

  /** `get_screen_bounds()` of gui_app.py, bridge.py, bridge2.py, bridge3.py
      and app_v2.py, which order the result (min x, max x, min y, max y) and
      fall back to (0, 1920, 0, 1080) when there is no screen (or, where the
      call is wrapped in `try`, when AppKit fails: None). */
  function ScreenBounds(screens: Option<seq<Rect>>): (r: (int, int, int, int))
    ensures screens.None? || screens.value == [] ==> r == (0, 1920, 0, 1080)
    ensures screens.Some? && screens.value != [] ==>
      var b := Tight(screens.value); r == (b.minX, b.maxX, b.minY, b.maxY)
  {
    if screens.None? || screens.value == [] then (0, 1920, 0, 1080)
    else var b := Tight(screens.value); (b.minX, b.maxX, b.minY, b.maxY)
  }
}
