# MacWinControl in Dafny

MacWinControl lets one keyboard and mouse drive a Mac and a Windows PC
together. The Mac runs a host that listens on TCP port 52525. When the
cursor is pushed against the side of the Mac desktop where the Windows
screens sit, the host switches to "Windows mode". While in that mode it
keeps a virtual remote cursor, forwards mouse moves and keys as
newline-terminated JSON objects, and returns to the Mac on Ctrl+Alt+M or
when the remote cursor crosses back. The repository holds several
generations of this host, and this project models each of them:

- MacApp/macwincontrol_gui.py, with its screen arrangement;
- MacApp/MacWinControlApp.py;
- MacApp/macwincontrol.py;
- MacApp/gui_app.py, MacApp/bridge.py, MacApp/simple_server.py,
  MacApp/bridge2.py and MacApp/bridge3.py;
- MacApp/app_v2.py, a peer-to-peer version.

It also models:

- the shared message protocol and key-code translation (shared/protocol.py);
- the clipboard history and the clipboard change monitor
  (MacApp/clipboard_manager.py);
- the Rust side of the Tauri app: the message type and the client session
  (RustApp/src-tauri/src/network.rs), and the shared application state
  with its commands (RustApp/src-tauri/src/lib.rs).

Each Python class whose methods update fields is a Dafny `class` with
those fields. Its methods are proved against pure specification
functions in the same module. A method's `ensures` clause ties its new
state, the events it hands to the server and the cursor warp it asks for
to the specification function. The properties are then proved about
those functions as lemmas.

Sockets, threads, pynput listeners, AppKit and the clock are not called.
What they would return appears as a parameter:

- the screens detected;
- cursor samples;
- received chunks;
- `json.loads` as a partial function;
- `pbpaste` output.

What the host would do to the outside appears as a result:

- the JSON objects written to the socket, except that input events leave out their `timestamp` key (see "## Left out");
- the position the cursor is warped to.

Modules, one per file:

| file | module | models |
|---|---|---|
| common.dfy | Common | Option, clamping, Python indexing, slicing and `strip` |
| json.dfy | Json | decoded JSON values, `d[key]`, `d.get`, truthiness |
| protocol.dfy | Protocol | shared/protocol.py |
| framing.dfy | Framing | the newline framing of the receive buffer |
| session.dfy | Session | the Mac host's TCP session in every Python host |
| geometry.dfy | Geometry | screens, bounds, edges, entry and return points |
| keyboard.dfy | Keyboard | key-to-VK tables, modifier tracking, the Ctrl+Alt+M hotkey |
| cursor.dfy | Cursor | the virtual remote cursor and the events sent |
| gui_capture.dfy | GuiCapture | `InputCapture` of macwincontrol_gui.py |
| compact_capture.dfy | CompactCapture | `InputCapture` of MacWinControlApp.py |
| console_capture.dfy | ConsoleCapture | `InputCapture` of macwincontrol.py |
| gui_app_input.dfy | GuiAppInput | `InputHandler` of gui_app.py |
| bridge_input.dfy | BridgeInput | `Bridge` of bridge.py |
| simple_input.dfy | SimpleInput | `InputHandler` of simple_server.py |
| bridge2_input.dfy | Bridge2Input | `Bridge` of bridge2.py |
| bridge3_input.dfy | Bridge3Input | `Bridge` of bridge3.py |
| peer_link.dfy | PeerLink | `NetworkManager` of app_v2.py |
| peer_input.dfy | PeerInput | `InputHandler` of app_v2.py |
| rust_network.dfy | RustNetwork | network.rs |
| app_state.dfy | RustAppState | lib.rs |
| clipboard.dfy | Clipboard | clipboard_manager.py |

## Model

| member | source | states |
|---|---|---|
| Protocol.FromTag | shared/protocol.py:12-43 | `MessageType(s)` succeeds exactly for the eighteen enum values, and gives the member whose value is `s` |
| Protocol.Envelope | shared/protocol.py:129-134 | the dict written has exactly the keys "type" (the enum value) and "payload" |
| Protocol.Open | shared/protocol.py:148-151 | a decoded message has the envelope's type tag and `data.get("payload")`; the missing-type error arises exactly when the value is not a dict with "type" |
| Protocol.ToJson | shared/protocol.py:129-134 | the text is the serialised envelope followed by one newline |
| Protocol.FromJson | shared/protocol.py:148-151 | the line is stripped before `json.loads`; text that does not parse is rejected, anything else is opened as an envelope |
| Protocol.OpenEnvelope | shared/protocol.py:129-151 | opening the envelope of a message gives the message back |
| Protocol.WireRoundTrip | shared/protocol.py:129-151 | `from_json(to_json(m)) == m` for any JSON library whose `loads` inverts `dumps` on the stripped line |
| Protocol.UnknownTagRejected | shared/protocol.py:150 | a well-formed envelope whose type is none of the eighteen tags is rejected (`MessageType` raises ValueError) |
| Protocol.NewKeyEvent | shared/protocol.py:95-104 | the given modifiers are kept; without any, the four modifiers shift, ctrl, alt and meta are all false |
| Protocol.Invert | shared/protocol.py:194 | the inverted table maps each Windows code back to the single Mac key that produced it |
| Protocol.TableInjective | shared/protocol.py:158-192 | no two Mac keys in `KEY_MAP_MAC_TO_WIN` share a Windows code, so the inversion loses nothing |
| Protocol.TranslateKey | shared/protocol.py:197-207 | same platform leaves the code unchanged; mac to windows and windows to mac use the tables; unmapped codes pass through |
| Protocol.TranslateExamples | shared/protocol.py:160-186 | Return 36 becomes Enter 13, Cmd 55 becomes the Windows key 91, and Enter 13 comes back as 36 |
| Protocol.TranslateRoundTrip | shared/protocol.py:194-205 | every mapped Mac key survives mac to windows to mac, and every mapped Windows code survives the reverse trip |
| Protocol.UnmappedCodeDoesNotRoundTrip | shared/protocol.py:197-207 | the round trip is not total: Mac code 13 is unmapped, passes through as Windows Enter, and comes back as 36 |
| Framing.NewlineAt | MacApp/macwincontrol_gui.py:580-581 | the index found is the first newline, or the length when there is none |
| Framing.SplitFirst | MacApp/macwincontrol_gui.py:581 | `buffer.split('\n', 1)` gives a newline-free line and the rest, with the buffer equal to line + "\n" + rest |
| Framing.Lines | MacApp/macwincontrol_gui.py:579-583 | no complete line taken out of the buffer contains a newline |
| Framing.Rest | MacApp/macwincontrol_gui.py:579-583 | the buffer left after the inner loop holds no newline |
| Framing.Reassemble | MacApp/macwincontrol_gui.py:579-583 | the lines taken out, each followed by its newline, plus the remaining buffer, are exactly the received text |
| Framing.FramingUnique | MacApp/macwincontrol_gui.py:579-583 | any split into newline-free lines and a newline-free remainder that reassembles the text is the framing's split |
| Framing.NewlineAfter | MacApp/macwincontrol_gui.py:580-581 | a newline-free line followed by a newline is split off at its own length |
| Framing.ChunkBoundary | MacApp/macwincontrol_gui.py:575-583 | receiving the decoded texts `a` then `b` frames the same lines, and leaves the same buffer, as receiving `a + b` at once (reads that cut a UTF-8 character are not covered) |
| Framing.JoinAppend | MacApp/macwincontrol_gui.py:579-583 | putting newlines back works line by line over a concatenation |
| Session.Send | MacApp/macwincontrol_gui.py:622-630 | `_send` writes the object only while a client socket is present and changes nothing else |
| Session.Deliver | MacApp/macwincontrol_gui.py:632-635 | `send_event` writes the events in order only while connected with a client socket; otherwise all are dropped and nothing else changes |
| Session.DeliverTwice | MacApp/macwincontrol_gui.py:632-635 | two successive batches of events are delivered exactly as one batch holding both |
| Session.Closed | MacApp/macwincontrol_gui.py:589-596 | teardown clears `connected` and the client socket and keeps what was sent. It forgets the client name except in the minimal hosts, and forgets the screens only in macwincontrol_gui.py |
| Session.Step | MacApp/macwincontrol_gui.py:599-620 | a line that ends the session changes nothing; any other line appends at most one reply after what was already sent. In macwincontrol_gui.py a hello whose screens have no `len()` (line 612) raises TypeError, which only the loop's `except Exception` (586-588) catches, so it ends the session. Also MacApp/simple_server.py:73-80: the minimal hosts handle the line inline, so a parse error or a non-object ends the session |
| Session.HelloConnects | MacApp/macwincontrol_gui.py:605-616 | a hello gets exactly one `connected` reply and marks the session connected; in macwincontrol_gui.py this holds for screens that have a length (a string, list or dict). It records the name (default "Windows PC") and the screens (default two 1920x1080 screens here, one in MacWinControlApp.py) |
| Session.UnsizedScreensEndSession | MacApp/macwincontrol_gui.py:605-612 | in macwincontrol_gui.py a hello whose screens are null, a boolean or a number raises at `len()` before the reply: nothing is sent, the session is not marked connected and it ends; the name and screens stored before the raise are cleared by the teardown |
| Session.PingPongs | MacApp/macwincontrol_gui.py:617-618 | a ping gets exactly one `pong` and nothing else changes |
| Session.UndecodableLine | MacApp/macwincontrol_gui.py:619-620 | a line `json.loads` rejects changes nothing; it ends the session exactly in the minimal hosts, which do not catch the error |
| Session.NonObjectLine | MacApp/MacWinControlApp.py:251-264 | valid JSON that is not an object changes nothing; only the bare `except` of MacWinControlApp.py keeps the session alive |
| Session.RunKeepsConnected | MacApp/macwincontrol_gui.py:580-583 | no received line disconnects a connected session; only teardown clears `connected` |
| Session.RunOnlyReplies | MacApp/macwincontrol_gui.py:599-620 | while handling input the server only appends to what it sent, and only `connected` and `pong` replies |
| Session.RunAppend | MacApp/macwincontrol_gui.py:580-583 | handling `xs + ys` is handling `xs` and then, unless that ended the session, `ys` |
| Session.SplitRead | MacApp/macwincontrol_gui.py:575-583 | the session ends in the same state whether a decoded text arrives in two reads or in one; for reads cut at character boundaries, segment boundaries do not matter (a cut UTF-8 character is not covered) |
| Session.ServeCons | MacApp/macwincontrol_gui.py:575-583 | one non-empty read is framed and handled before the next read is taken |
| Session.RunFirstLine | MacApp/macwincontrol_gui.py:580-583 | taking the first line out with `split('\n', 1)` and handling it is the first step of handling all complete lines |
| Session.HostServer.constructor | MacApp/macwincontrol_gui.py:510-520 | a new server is not connected, has no client, no name and no screens, and has sent nothing |
| Session.HostServer.SendEvent | MacApp/macwincontrol_gui.py:632-635 | the new state is the delivery of the one event |
| Session.HostServer.Receive | MacApp/macwincontrol_gui.py:579-583 | the inner loop handles every complete line of buffer + chunk, in order, as `Run` does, and keeps the unterminated rest as the new buffer |
| Session.HostServer.TearDown | MacApp/macwincontrol_gui.py:589-596 | the state after the `finally` block is `Closed` of the state before |
| Session.HostServer.HandleClient | MacApp/macwincontrol_gui.py:565-597 | greet the client, serve the reads until the peer closes or a line raises (a non-object, or in macwincontrol_gui.py a hello whose screens have no length), then tear down; the session always ends disconnected. The other hosts run the same session: MacApp/MacWinControlApp.py:224-249 with a bare `except`, MacApp/macwincontrol.py:146-177 with name-only bookkeeping, and the minimal hosts at MacApp/simple_server.py:60-88, MacApp/gui_app.py:72-100, MacApp/bridge.py:69-97, MacApp/bridge2.py:74-102 and MacApp/bridge3.py:65-93 |
| Geometry.Tight | MacApp/macwincontrol_gui.py:149-157 | the box around non-empty screens holds every screen, and each of its four sides is reached by some screen |
| Geometry.BoundsOr | MacApp/macwincontrol_gui.py:149-157 | with no Mac screens the bounds are (0, 0, 1920, 1080); otherwise they are the tight box |
| Geometry.TightIsSmallest | MacApp/macwincontrol_gui.py:153-156 | every box that holds all screens contains the tight box: min and max give the smallest bounds |
| Geometry.TotalBounds | MacApp/macwincontrol_gui.py:137-147 | with no screens at all the bounds are the default; otherwise they are the tight box over the Mac screens followed by the Windows ones, so they hold every Mac and every Windows screen |
| Geometry.PointOnMac | MacApp/macwincontrol_gui.py:159-164 | true exactly when some Mac screen contains the point, left and top edges included, right and bottom excluded |
| Geometry.PointOnWindows | MacApp/macwincontrol_gui.py:166-171 | None exactly when no Windows screen contains the point; otherwise the index and local coordinates on the first one that does |
| Geometry.PointOnWindowsLocal | MacApp/macwincontrol_gui.py:170 | the local coordinates reported lie inside the screen whose number is reported |
| Geometry.FirstContaining | MacApp/macwincontrol_gui.py:168-171 | the loop of `point_on_windows` stops at the first screen containing the point: no earlier screen contains it, and the position is past the end exactly when none does |
| Geometry.TransitionEdge | MacApp/macwincontrol_gui.py:173-196 | true exactly when some Windows screen is flush with a Mac side the point is within `threshold` of, and spans the point along that side |
| Geometry.AnyEdgeHit | MacApp/macwincontrol_gui.py:178-196 | the loop of `get_transition_edge` answers `'to_windows'` exactly when some screen passes one of its side tests (only the left and right tests in MacWinControlApp.py) |
| Geometry.SideTransitionEdge | MacApp/MacWinControlApp.py:142-151 | the same test for the right and left sides only |
| Geometry.SideTransitionImpliesTransition | MacApp/MacWinControlApp.py:142-151 | the side-only test of MacWinControlApp.py fires only where the four-sided test of macwincontrol_gui.py does |
| Geometry.EntryPoint | MacApp/macwincontrol_gui.py:198-220 | the first Windows screen, in list order, flush with a Mac side and spanning the point gives the entry; otherwise (0, 100, y), or (0, 100, 540) with no Windows screens |
| Geometry.EntryAt | MacApp/macwincontrol_gui.py:201-215 | one pass of the entry loop, its four tests in order: a screen flush with the Mac's right side and spanning the row enters at local (5, y - top); one flush with the left side at (width - 5, y - top); one flush with the bottom and spanning the column at (x - left, 5); one flush with the top at (x - left, height - 5); nothing exactly when no test passes (the last two are off in MacWinControlApp.py, `sidesOnly`) |
| Geometry.FirstEntry | MacApp/macwincontrol_gui.py:200-215 | the entry loop finds nothing exactly when no screen gives an entry; otherwise it returns the entry of the first screen that gives one |
| Geometry.SideEntryPoint | MacApp/MacWinControlApp.py:153-160 | the same for right and left neighbours only, falling back to (0, 100, 540) |
| Geometry.TransitionHasEntry | MacApp/macwincontrol_gui.py:173-215 | whenever the edge test fires, the entry search finds a real screen rather than the fallback |
| Geometry.EntryOnScreen | MacApp/macwincontrol_gui.py:203-215 | an entry lies on its screen whenever the screen is more than 5 px wide and high |
| Geometry.ReturnPoint | MacApp/macwincontrol_gui.py:222-241 | with no Windows screen, or an index below minus the count, the call fails (None, the IndexError); an index past the end means screen 0 and a negative one counts from the end. In test order: from a screen flush with the Mac's right side, within 5 px of its left edge, the cursor lands 50 px inside the Mac's right edge at the same height; from one flush with the left side, within 5 px of its right edge, 50 px inside the left edge; from one flush with the Mac's top, 50 px below the top at the same column; from one flush with the bottom, 50 px above the bottom; otherwise at the middle of the first Mac screen, halves floored, failing when there is none. As written (`fixedVertical` false) the top case tests `local_y <= 5` and the bottom case `local_y >= height - 5`; see Findings. Also MacApp/MacWinControlApp.py:162-172: the two side returns and the centre, the top and bottom cases being absent (`sidesOnly`) |
| Geometry.EnterRightThenReturn | MacApp/macwincontrol_gui.py:198-241 | crossing into the screen on the right and straight back puts the cursor 50 px inside the Mac's right edge, at the height where it crossed, with the vertical tests as written or corrected |
| Geometry.EntryIsFirst | MacApp/macwincontrol_gui.py:200-220 | when no earlier screen gives an entry, the entry point is the one the given screen gives |
| Geometry.ReturnFromLeft | MacApp/macwincontrol_gui.py:230-233 | back within 5 px of the right edge of a screen flush with the Mac's left side, the cursor lands 50 px inside the Mac's left edge at the same height |
| Geometry.ReturnFromBelow | MacApp/macwincontrol_gui.py:234-241 | back 5 px below the top of a screen flush with the Mac's bottom, the corrected test lands 50 px above the Mac's bottom at the same column, while the test as written falls through to the middle of the first Mac screen |
| Geometry.ReturnFromAbove | MacApp/macwincontrol_gui.py:234-241 | back 5 px above the bottom of a screen flush with the Mac's top, the corrected test lands 50 px below the Mac's top at the same column, while the test as written falls through to the middle of the first Mac screen |
| Geometry.ReturnAfterEntry | MacApp/macwincontrol_gui.py:201-241 | for each of the four sides, the return from the local point a screen's entry gives lands 50 px inside the side crossed, at the crossing coordinate (corrected tests); over the top or bottom, the tests as written give the middle of the first Mac screen |
| Geometry.EnterThenReturn | MacApp/macwincontrol_gui.py:198-241 | crossing any side of the Mac into the first screen flush with it and coming straight back: the entry is on that screen, and the corrected return lands 50 px inside the side crossed at the crossing coordinate; as written, a crossing at the top or bottom returns to the middle of the first Mac screen |
| Geometry.TopEntryReturnsToMiddle | MacApp/macwincontrol_gui.py:234-237 | Mac 1920x1080 at (0, 0), Windows 1920x1080 at (0, -1080): crossing the top at x 500 enters at local (500, 1075); the return as written lands at (960, 540), the corrected one at (500, 50) |
| Geometry.Chain | MacApp/macwincontrol_gui.py:127-131 | one screen per screen given, each keeping its size and placed at `start` plus the widths of the screens before it, at the given top |
| Geometry.ChainIsFlush | MacApp/macwincontrol_gui.py:127-131 | in the default layout the first screen starts at the Mac's right edge and every screen touches the next, with no gap and no overlap |
| Geometry.Arranged | MacApp/macwincontrol_gui.py:117-131 | with no Mac screens nothing moves; otherwise the screens are chained from the Mac's right edge at its top |
| Geometry.ArrangedEntersFromRight | MacApp/macwincontrol_gui.py:117-220 | after the default layout, pushing against the Mac's right edge beside the first Windows screen fires the edge test and enters that screen 5 px in |
| Geometry.FromDicts | MacApp/macwincontrol_gui.py:102-114 | one screen per dict the client sent, numbered by position, with width, height, x and y defaulting to 1920, 1080, 0 and 0 |
| Geometry.Restored | MacApp/macwincontrol_gui.py:252-257 | the saved x and y overwrite the first screens and default to their current values; screens beyond the saved list and extra saved entries are ignored |
| Geometry.Detected | MacApp/macwincontrol_gui.py:67-88 | the screens AppKit reports, or a single 1920x1080 screen at the origin without AppKit |
| Geometry.ScreenArrangement.constructor | MacApp/macwincontrol_gui.py:58-65 | the Mac screens are detected, and two 1920x1080 Windows screens are added and laid out to the right |
| Geometry.ScreenArrangement.UpdateMacScreens | MacApp/macwincontrol_gui.py:67-88 | the Mac screens are re-detected and the Windows screens stay as they are |
| Geometry.ScreenArrangement.AddWindowsScreen | MacApp/macwincontrol_gui.py:90-100 | a screen of the given size is appended at the origin, numbered by its position |
| Geometry.ScreenArrangement.ArrangeDefault | MacApp/macwincontrol_gui.py:117-131 | the loop moves every Windows screen to its place in the chain |
| Geometry.ScreenArrangement.SetWindowsScreens | MacApp/macwincontrol_gui.py:102-115 | the Windows screens are replaced by the client's list, then laid out |
| Geometry.ScreenArrangement.FromDict | MacApp/macwincontrol_gui.py:252-257 | the loop restores the saved positions as `Restored` says |
| Geometry.ScreenManager.constructor | MacApp/macwincontrol.py:38-41 | the screens are detected and the bounds are theirs, or the default box |
| Geometry.ScreenManager.UpdateScreens | MacApp/macwincontrol.py:43-65 | the bounds move only when some screen was found |
| Geometry.ScreenManager.Center | MacApp/macwincontrol.py:81-86 | (960, 540) with no screen; otherwise the primary screen's middle, each half floored as `//` does, which lies on the screen |
| Geometry.Middle | MacApp/macwincontrol.py:85 | the point's offset from the screen's corner is half the width and half the height, rounded down: twice it is the size or one less |
| Geometry.IsAtEdgeMeans | MacApp/macwincontrol.py:71-79 | "right" fires exactly when the point is within `threshold` of the right side of every screen, "left" likewise, and any other edge name never fires |
| Geometry.ScreenBounds | MacApp/gui_app.py:28-40 | (min x, max x, min y, max y) over the screens, or (0, 1920, 0, 1080) when there are none or AppKit fails. Also MacApp/app_v2.py:99-109: the same bounds as the peer-to-peer host computes them |
| Keyboard.Vk | MacApp/macwincontrol_gui.py:913-937 | a named key missing from the table, or a key without a character, gives 0; a character gives the code of its upper case |
| Keyboard.LetterCodes | MacApp/macwincontrol_gui.py:932-934 | a lower-case letter is sent as the code of its capital, between 65 and 90 |
| Keyboard.VkZeroMeans | MacApp/macwincontrol_gui.py:913-937 | the conversion yields 0 exactly for unlisted named keys, keys without a character, and the NUL character. This holds for each host's table |
| Keyboard.CompactAgrees | MacApp/MacWinControlApp.py:409-415 | the MacWinControlApp.py table is a restriction of the macwincontrol_gui.py one |
| Keyboard.SmallAgrees | MacApp/gui_app.py:262-269 | the gui_app.py table is a restriction of the MacWinControlApp.py one |
| Keyboard.RightCommandDiffers | MacApp/bridge.py:262 | bridge.py sends the right Command key as 91; macwincontrol_gui.py sends 92; simple_server.py does not know it and sends nothing |
| Keyboard.Track | MacApp/macwincontrol_gui.py:873-876 | a Ctrl key sets only the Ctrl flag, an Alt key sets only the Alt flag, and any other key leaves both |
| Keyboard.Press | MacApp/macwincontrol_gui.py:868-892 | the press escapes exactly in Windows mode on Ctrl+Alt+M. It is forwarded exactly in Windows mode when it is not the hotkey and, in the hosts that drop keys without a code, has a non-zero code; the code sent is the conversion's. The flags follow the key in Windows mode, and in Mac mode too in bridge.py |
| Keyboard.Release | MacApp/macwincontrol_gui.py:894-911 | a release never escapes; it is forwarded exactly in Windows mode, and only with a non-zero code where keys without one are dropped; the modifier released is cleared where a press would have set it |
| Keyboard.HotkeySequence | MacApp/macwincontrol_gui.py:873-881 | in Windows mode, pressing Ctrl, Alt and then M escapes on the M, and that M is not sent, in every variant |
| Keyboard.ReleaseDisarms | MacApp/macwincontrol_gui.py:899-902 | releasing Ctrl or Alt disarms the hotkey: the next M is not an escape |
| Cursor.Advance | MacApp/gui_app.py:202-215 | a move is sent exactly when control stays, or when the host sends before it tests. A sent position is the clamped one, inside 3840x2160. Control returns exactly when the return test hits: on the unclamped position in the test-first hosts, on the clamped one otherwise. Also MacApp/macwincontrol.py:339-357: the same, with clamping before the return test. Also MacApp/bridge3.py:135-192: the same, with the move sent before the return test |
| Cursor.FollowsInsideMoves | MacApp/gui_app.py:202-215 | a move that stays on the remote desktop and away from the return line is followed exactly and sent |
| Cursor.ClampingKeepsDecision | MacApp/macwincontrol.py:339-357 | for a vertical return line inside the desktop, testing before or after clamping gives the same return decision and the same move sent |
| Cursor.SendFirstSendsTheLastMove | MacApp/app_v2.py:436-463 | when the remote cursor reaches the left line, the move onto the line is still sent at x = 0 before control returns |
| Cursor.Scaled | MacApp/app_v2.py:437-438 | `int(d * 1.5)` truncates toward zero: the result is within half a pixel of 1.5 d, on the side of zero |
| Cursor.ScaledIsOdd | MacApp/app_v2.py:437-438 | scaling a delta and its opposite gives opposite results |
| Cursor.Recentred | MacApp/bridge.py:204-212 | the last sample is the cursor itself, or the centre when it strayed more than `limit` from the centre on either axis |
| Cursor.RecentredStaysNear | MacApp/bridge.py:204-212 | after recentring the last sample is within `limit` of the centre on both axes |
| Cursor.RoundTrapInsideSquare | MacApp/app_v2.py:466-471 | a sample inside the round trap is inside the square one |
| GuiCapture.AdjacentFrom | MacApp/macwincontrol_gui.py:825-833 | the first screen from a position on, other than the current one, flush against the current screen on the side asked for; None exactly when there is none |
| GuiCapture.Adjacent | MacApp/macwincontrol_gui.py:818-833 | a neighbour found is a real screen other than the current one; an index past the end finds nothing |
| GuiCapture.AdjacentMeans | MacApp/macwincontrol_gui.py:818-833 | for a valid index, nothing is found exactly when no other screen is flush on that side, and a screen found is flush on that side |
| GuiCapture.EnterWindows | MacApp/macwincontrol_gui.py:690-718 | in Mac mode: Windows mode on the entry screen and point, with the Mac position recorded and one mode-switch event carrying screen and point; already in Windows mode: nothing (see SwitchesAreGuarded) |
| GuiCapture.LeaveWindows | MacApp/macwincontrol_gui.py:720-738 | in Windows mode: Mac mode and one mode-off event, then the warp to the return point, with the return tests as written (`corrected` false) or corrected; the IndexError of the lookup comes after the mode switch was sent; in Mac mode: nothing |
| GuiCapture.PollStep | MacApp/macwincontrol_gui.py:675-688 | Windows mode afterwards exactly when it was on before, or a client is connected and the cursor is at a transition edge (threshold 5); the poll never warps or raises |
| GuiCapture.MoveWith | MacApp/macwincontrol_gui.py:766-816 | a move in Mac mode changes nothing (the other cases are stated by the lemmas below); `corrected` false is `_on_move` as written, true clamps y to the new screen after a hop to the right and switches back through the corrected vertical return tests |
| GuiCapture.Place | MacApp/macwincontrol_gui.py:786-816 | in Windows mode the move either stays in Windows and sends exactly the new screen and local position, without warp or exception, or switches back with one mode-off event |
| GuiCapture.SwitchesAreGuarded | MacApp/macwincontrol_gui.py:692-693 | entering twice, or leaving twice, does nothing the second time: no event, no warp; as written or corrected |
| GuiCapture.EnterThenLeave | MacApp/macwincontrol_gui.py:690-738 | entering a screen flush against the Mac's right side and switching straight back lands 50 px inside that side, at the height of entry, as written and corrected alike |
| GuiCapture.LeaveFromAbove | MacApp/macwincontrol_gui.py:234-241 | switching back from local (500, 1075) on a 1920x1080 screen right above a 1920x1080 Mac sends one mode-off event and warps, as written, to the Mac's middle (960, 540), and corrected to (500, 50) |
| GuiCapture.MoveWithinScreen | MacApp/macwincontrol_gui.py:776-816 | a move that keeps x within the current screen is followed and sent on that screen, y clamped to the screen's height, as written and corrected alike |
| GuiCapture.MoveOffScreen | MacApp/macwincontrol_gui.py:786-803 | leaving the screen on a side with no flush neighbour switches to the Mac with one mode-off event; with a neighbour the cursor moves onto it, carrying the overshoot |
| GuiCapture.NoScreenRaises | MacApp/macwincontrol_gui.py:772-774 | with no Windows screen a move raises IndexError and sends nothing |
| GuiCapture.RightHopKeepsOldHeight | MacApp/macwincontrol_gui.py:797-806 | as written, a hop to the right clamps y to the old screen's height: the move is sent below the bottom of a lower new screen |
| GuiCapture.FixedMoveStaysOnScreen | MacApp/macwincontrol_gui.py:766-816 | with `corrected` true, y is clamped to the screen actually entered: every move sent lands within the height of the screen it names |
| GuiCapture.HotkeyOutcome | MacApp/macwincontrol_gui.py:873-881 | Ctrl+Alt+M in Windows mode switches to the Mac and warps to the return point (as written or corrected); when the lookup raises, the exception is swallowed and the M is sent after the mode-off event |
| GuiCapture.PressStep | MacApp/macwincontrol_gui.py:868-892 | after a press, Windows mode is on exactly when it was on and the key did not complete Ctrl+Alt+M; in Mac mode a press sends nothing and never warps |
| GuiCapture.ReleaseStep | MacApp/macwincontrol_gui.py:894-911 | a release never changes the mode, warps or raises, and sends at most one event, only in Windows mode |
| GuiCapture.KeysAlwaysSent | MacApp/macwincontrol_gui.py:883-911 | in Windows mode every other press and release reaches Windows, with its modifier flags and code 0 where the key has none |
| GuiCapture.InputCapture.constructor | MacApp/macwincontrol_gui.py:647-668 | Mac mode, screen 0, local and Mac positions 0, no modifier held; `corrected` false makes the callbacks run the code as written |
| GuiCapture.InputCapture.EdgePoll | MacApp/macwincontrol_gui.py:675-688 | the fields and the events sent change as PollStep says |
| GuiCapture.InputCapture.SwitchToWindows | MacApp/macwincontrol_gui.py:690-718 | the fields and the events sent change as EnterWindows says |
| GuiCapture.InputCapture.SwitchToMac | MacApp/macwincontrol_gui.py:720-738 | the fields, the events sent, the warp and the exception are as LeaveWindows says, with the object's `corrected` |
| GuiCapture.InputCapture.FindAdjacentScreen | MacApp/macwincontrol_gui.py:818-833 | the loop finds what Adjacent says |
| GuiCapture.InputCapture.OnMove | MacApp/macwincontrol_gui.py:766-816 | the fields, the events sent, the warp and the exception are as MoveWith says, with the object's `corrected` (false: the code as written) |
| GuiCapture.InputCapture.PlaceCursor | MacApp/macwincontrol_gui.py:786-816 | the hop, the switch back or the clamped move as Place says: y clamped to the old screen after a hop to the right as written, to the new one when corrected |
| GuiCapture.InputCapture.OnKeyPress | MacApp/macwincontrol_gui.py:868-892 | the flags, the events sent and the warp change as PressStep says, with the object's `corrected` |
| GuiCapture.InputCapture.OnKeyRelease | MacApp/macwincontrol_gui.py:894-911 | the flags and the events sent change as ReleaseStep says |
| CompactCapture.EnterWindows | MacApp/MacWinControlApp.py:322-333 | in Mac mode: Windows mode at the side entry point with one mode-switch event; already in Windows mode: nothing |
| CompactCapture.LeaveWindows | MacApp/MacWinControlApp.py:335-344 | in Windows mode: Mac mode, one mode-off event and the warp to the side return point, raising after the event when there is none; in Mac mode: nothing |
| CompactCapture.PollStep | MacApp/MacWinControlApp.py:311-320 | Windows mode afterwards exactly when it was on before, or a client is connected and a left or right neighbour's edge is hit; never warps or raises |
| CompactCapture.MoveStep | MacApp/MacWinControlApp.py:358-372 | in Mac mode, or with an index past the end of the screen list, nothing happens |
| CompactCapture.SwitchesAreGuarded | MacApp/MacWinControlApp.py:324-337 | entering twice, or leaving twice, does nothing the second time |
| CompactCapture.PollIsNarrower | MacApp/MacWinControlApp.py:142-151 | this variant only switches to Windows where the four-sided test of macwincontrol_gui.py would too |
| CompactCapture.SentMovesStayOnScreen | MacApp/MacWinControlApp.py:358-372 | every move sent names the current screen and lies on it; a move past either side of it switches to the Mac with one mode-off event |
| CompactCapture.EnterThenLeave | MacApp/MacWinControlApp.py:153-172 | entering on the Mac's right and switching straight back lands 50 px inside the right side, at the height of entry |
| CompactCapture.HotkeyOutcome | MacApp/MacWinControlApp.py:385-398 | Ctrl+Alt+M in Windows mode switches to the Mac; the M is sent as well when the return point lookup raises |
| CompactCapture.PressStep | MacApp/MacWinControlApp.py:385-398 | after a press, Windows mode is on exactly when it was on and the key did not complete Ctrl+Alt+M; in Mac mode a press sends nothing and never warps |
| CompactCapture.ReleaseStep | MacApp/MacWinControlApp.py:400-407 | a release never changes the mode, warps or raises, and sends at most one event, only in Windows mode |
| CompactCapture.InputCapture.constructor | MacApp/MacWinControlApp.py:289-306 | Mac mode, screen 0, positions 0, no modifier held |
| CompactCapture.InputCapture.EdgePoll | MacApp/MacWinControlApp.py:311-320 | the fields and the events sent change as PollStep says |
| CompactCapture.InputCapture.SwitchToWindows | MacApp/MacWinControlApp.py:322-333 | the fields and the events sent change as EnterWindows says |
| CompactCapture.InputCapture.SwitchToMac | MacApp/MacWinControlApp.py:335-344 | the fields, events, warp and exception are as LeaveWindows says |
| CompactCapture.InputCapture.OnMove | MacApp/MacWinControlApp.py:358-372 | the fields, events, warp and exception are as MoveStep says |
| CompactCapture.InputCapture.OnKeyPress | MacApp/MacWinControlApp.py:385-398 | the flags, events and warp change as PressStep says |
| CompactCapture.InputCapture.OnKeyRelease | MacApp/MacWinControlApp.py:400-407 | the flags and events change as ReleaseStep says |
| ConsoleCapture.ReturnFor | MacApp/macwincontrol.py:352-357 | Windows on the right returns at x <= 2, on the left at x >= 1918, and any other position never returns |
| ConsoleCapture.EnterWindows | MacApp/macwincontrol.py:264-282 | in Mac mode: Windows mode at x 5 (right) or 1915 (left) and the cursor's y, with one bare mode-switch event; already in Windows mode: nothing |
| ConsoleCapture.LeaveWindows | MacApp/macwincontrol.py:284-305 | in Windows mode: Mac mode, one mode-off event and a warp 100 px inside the side Windows is on, at the remote y; in Mac mode: nothing |
| ConsoleCapture.PollStep | MacApp/macwincontrol.py:250-262 | Windows mode afterwards exactly when it was on before, or a client is connected and the cursor is within 3 px of the chosen edge; never warps |
| ConsoleCapture.MoveStep | MacApp/macwincontrol.py:335-364 | a move in Mac mode changes nothing |
| ConsoleCapture.SwitchesAreGuarded | MacApp/macwincontrol.py:266-287 | entering twice, or leaving twice, does nothing the second time |
| ConsoleCapture.EnterThenLeave | MacApp/macwincontrol.py:264-305 | entering and leaving at once lands 100 px inside the side crossed, at the height crossed |
| ConsoleCapture.MoveOutcome | MacApp/macwincontrol.py:335-364 | control returns exactly when the clamped x reaches the side's return line, with one mode-off event; otherwise one move is sent and it lies on the 3840x2160 desktop |
| ConsoleCapture.OtherPositionsAreInert | MacApp/macwincontrol.py:71-79 | with a position other than "right" or "left" the poll never switches and a move never returns; only the hotkey does |
| ConsoleCapture.RightAgreesWithTestFirst | MacApp/macwincontrol.py:347-357 | for Windows on the right, clamping before the test decides exactly as gui_app.py's test before clamping |
| ConsoleCapture.PressStep | MacApp/macwincontrol.py:398-424 | after a press, Windows mode is on exactly when it was on and the key did not complete Ctrl+Alt+M; in Mac mode a press sends nothing and never warps |
| ConsoleCapture.ReleaseStep | MacApp/macwincontrol.py:426-443 | a release never changes the mode or warps, and sends at most one event, only in Windows mode |
| ConsoleCapture.InputCapture.constructor | MacApp/macwincontrol.py:225-243 | Mac mode, remote position (0, 540), Mac position 0, no modifier held |
| ConsoleCapture.InputCapture.EdgePoll | MacApp/macwincontrol.py:250-262 | the fields and events change as PollStep says |
| ConsoleCapture.InputCapture.SwitchToWindows | MacApp/macwincontrol.py:264-282 | the fields and events change as EnterWindows says |
| ConsoleCapture.InputCapture.SwitchToMac | MacApp/macwincontrol.py:284-305 | the fields, events and warp are as LeaveWindows says |
| ConsoleCapture.InputCapture.OnMove | MacApp/macwincontrol.py:335-364 | the fields, events and warp are as MoveStep says |
| ConsoleCapture.InputCapture.OnKeyPress | MacApp/macwincontrol.py:398-424 | the flags, events and warp change as PressStep says |
| ConsoleCapture.InputCapture.OnKeyRelease | MacApp/macwincontrol.py:426-443 | the flags and events change as ReleaseStep says |
| ConsoleCapture.InputCapture.SetWindowsPosition | MacApp/macwincontrol.py:471-474 | the Windows side becomes the position given (the console commands `l` and `r` at 528-531) and the capture state is unchanged; every other method keeps the position |
| GuiAppInput.EnterWindows | MacApp/gui_app.py:154-181 | in Mac mode: Windows mode at (5, y), one mode-switch event with that position, and the cursor parked 50 px inside the bottom-right corner, where the next delta is measured from; in Windows mode: nothing |
| GuiAppInput.LeaveWindows | MacApp/gui_app.py:183-197 | in Windows mode: Mac mode, one mode-off event and a warp 100 px inside the desktop's right edge at the remote height; in Mac mode: nothing |
| GuiAppInput.PollStep | MacApp/gui_app.py:141-152 | Windows mode afterwards exactly when it was on, or a client is connected and the cursor is within 5 px of the desktop's right edge; otherwise nothing happens |
| GuiAppInput.MoveStep | MacApp/gui_app.py:199-218 | a move in Mac mode changes nothing |
| GuiAppInput.SwitchesAreGuarded | MacApp/gui_app.py:155-186 | entering twice, or leaving twice, does nothing the second time |
| GuiAppInput.ReturnSendsNoMove | MacApp/gui_app.py:209-211 | a move bringing the remote x to 2 or less returns to the Mac at the new remote height, with the mode-off event as the only event |
| GuiAppInput.MoveIsClampedAndSent | MacApp/gui_app.py:213-218 | any other move is sent clamped into the 3840x2160 desktop, and the next delta is measured from the park position |
| GuiAppInput.HotkeyEscapes | MacApp/gui_app.py:240-242 | Ctrl+Alt+M in Windows mode returns to the Mac and the M is not sent |
| GuiAppInput.KeysNeedACode | MacApp/gui_app.py:231-260 | a press is sent only in Windows mode and only with a non-zero code; a release is sent exactly in Windows mode with a non-zero code |
| GuiAppInput.PressStep | MacApp/gui_app.py:231-248 | after a press, Windows mode is on exactly when it was on and the key did not complete Ctrl+Alt+M; in Mac mode a press sends nothing and never warps |
| GuiAppInput.ReleaseStep | MacApp/gui_app.py:250-260 | a release never changes the mode or warps, and sends at most one event, only in Windows mode |
| GuiAppInput.InputHandler.constructor | MacApp/gui_app.py:122-135 | the initial handler, remote position (960, 540), with the desktop bounds of the screens found |
| GuiAppInput.InputHandler.Poll | MacApp/gui_app.py:141-152 | the fields, events and warp change as PollStep says |
| GuiAppInput.InputHandler.ToWindows | MacApp/gui_app.py:154-181 | the fields, events and warp change as EnterWindows says |
| GuiAppInput.InputHandler.ToMac | MacApp/gui_app.py:183-197 | the fields, events and warp change as LeaveWindows says |
| GuiAppInput.InputHandler.OnMove | MacApp/gui_app.py:199-218 | the fields, events and warp change as MoveStep says |
| GuiAppInput.InputHandler.OnPress | MacApp/gui_app.py:231-248 | the flags, events and warp change as PressStep says |
| GuiAppInput.InputHandler.OnRelease | MacApp/gui_app.py:250-260 | the flags and events change as ReleaseStep says |
| SimpleInput.EnterWindows | MacApp/simple_server.py:151-177 | in Mac mode: Windows mode at (5, y), one mode-switch event, the next delta measured from where the cursor is; in Windows mode: nothing |
| SimpleInput.LeaveWindows | MacApp/simple_server.py:179-194 | in Windows mode: Mac mode, one mode-off event and a warp 100 px inside the main screen's right edge at the remote height; in Mac mode: nothing |
| SimpleInput.PollStep | MacApp/simple_server.py:139-149 | Windows mode afterwards exactly when it was on, or a client is connected and the cursor is within 3 px of the main screen's right edge |
| SimpleInput.MoveStep | MacApp/simple_server.py:196-218 | a move in Mac mode changes nothing; in Windows mode the sample is recorded whatever follows |
| SimpleInput.SwitchesAreGuarded | MacApp/simple_server.py:151-182 | entering twice, or leaving twice, does nothing the second time |
| SimpleInput.MovesCompose | MacApp/simple_server.py:196-218 | a move inside the remote desktop followed by the sample going back to where it was leaves the remote position unchanged |
| SimpleInput.MoveOutcome | MacApp/simple_server.py:196-218 | a move bringing x to 2 or less returns with only the mode-off event; any other is sent, clamped into the desktop |
| SimpleInput.HotkeyEscapes | MacApp/simple_server.py:241-263 | Ctrl+Alt+M in Windows mode returns 100 px inside the right edge and the M is not sent |
| SimpleInput.PressStep | MacApp/simple_server.py:241-263 | after a press, Windows mode is on exactly when it was on and the key did not complete Ctrl+Alt+M; in Mac mode a press sends nothing and never warps |
| SimpleInput.ReleaseStep | MacApp/simple_server.py:265-279 | a release never changes the mode or warps, and sends at most one event, only in Windows mode |
| SimpleInput.InputHandler.constructor | MacApp/simple_server.py:110-132 | the initial handler with the main screen's size, 1920x1080 without AppKit |
| SimpleInput.InputHandler.Poll | MacApp/simple_server.py:139-149 | the fields and events change as PollStep says |
| SimpleInput.InputHandler.ToWindows | MacApp/simple_server.py:151-177 | the fields and events change as EnterWindows says |
| SimpleInput.InputHandler.ToMac | MacApp/simple_server.py:179-194 | the fields, events and warp change as LeaveWindows says |
| SimpleInput.InputHandler.OnMove | MacApp/simple_server.py:196-218 | the fields, events and warp change as MoveStep says |
| SimpleInput.InputHandler.OnPress | MacApp/simple_server.py:241-263 | the flags, events and warp change as PressStep says |
| SimpleInput.InputHandler.OnRelease | MacApp/simple_server.py:265-279 | the flags and events change as ReleaseStep says |
| BridgeInput.EnterWindows | MacApp/bridge.py:157-171 | in Mac mode: Windows mode at (10, y), one mode-switch event and a warp to the middle of the desktop, where the next delta is measured from; in Windows mode: nothing |
| BridgeInput.LeaveWindows | MacApp/bridge.py:173-181 | in Windows mode: Mac mode, one mode-off event and a warp 100 px inside the right edge at the remote height; in Mac mode: nothing |
| BridgeInput.PollStep | MacApp/bridge.py:145-155 | Windows mode afterwards exactly when it was on, or a client is connected and the cursor is within 5 px of the right edge |
| BridgeInput.MoveStep | MacApp/bridge.py:183-212 | a move in Mac mode changes nothing |
| BridgeInput.SwitchesAreGuarded | MacApp/bridge.py:157-176 | entering twice, or leaving twice, does nothing the second time |
| BridgeInput.TrappedIsKept | MacApp/bridge.py:204-212 | every callback keeps the last sample within 200 px of the middle on both axes while Windows is driven |
| BridgeInput.MoveOutcome | MacApp/bridge.py:183-202 | a move bringing x to 0 or less returns with only the mode-off event; any other is sent, clamped into the desktop |
| BridgeInput.HotkeyInBothModes | MacApp/bridge.py:225-243 | Ctrl+Alt+M is swallowed in both modes and switches only in Windows mode; in Mac mode the flags still follow Ctrl and Alt |
| BridgeInput.PressStep | MacApp/bridge.py:225-243 | after a press, Windows mode is on exactly when it was on and the key did not complete Ctrl+Alt+M; in Mac mode a press (the flags still tracked) sends nothing and never warps |
| BridgeInput.ReleaseStep | MacApp/bridge.py:245-253 | a release never changes the mode or warps, and sends at most one event, only in Windows mode |
| BridgeInput.Bridge.constructor | MacApp/bridge.py:121-133 | the initial state with the desktop bounds of the screens found |
| BridgeInput.Bridge.PollEdge | MacApp/bridge.py:145-155 | the fields, events and warp change as PollStep says |
| BridgeInput.Bridge.ToWindows | MacApp/bridge.py:157-171 | the fields, events and warp change as EnterWindows says |
| BridgeInput.Bridge.ToMac | MacApp/bridge.py:173-181 | the fields, events and warp change as LeaveWindows says |
| BridgeInput.Bridge.MouseMove | MacApp/bridge.py:183-212 | the fields, events and warp change as MoveStep says |
| BridgeInput.Bridge.KeyDown | MacApp/bridge.py:225-243 | the flags, events and warp change as PressStep says |
| BridgeInput.Bridge.KeyUp | MacApp/bridge.py:245-253 | the flags and events change as ReleaseStep says |
| Bridge2Input.EnterWindows | MacApp/bridge2.py:193-209 | in Mac mode: Windows mode at (100, y), one mode-switch event and a warp to the middle, where the next delta is measured from; in Windows mode: nothing |
| Bridge2Input.LeaveWindows | MacApp/bridge2.py:211-219 | in Windows mode: Mac mode, one mode-off event and a warp 50 px inside the right edge at the remote height; in Mac mode: nothing |
| Bridge2Input.PollStep | MacApp/bridge2.py:140-191 | in Mac mode a pass switches exactly when a client is connected and the cursor is within 5 px of the right edge, and does nothing otherwise |
| Bridge2Input.SwitchesAreGuarded | MacApp/bridge2.py:193-214 | entering twice, or leaving twice, does nothing the second time |
| Bridge2Input.TrappedIsKept | MacApp/bridge2.py:174-186 | every pass keeps the last sample within 300 px of the middle on both axes while Windows is driven |
| Bridge2Input.StillCursorIsQuiet | MacApp/bridge2.py:156-186 | a sample equal to the last one changes nothing and sends nothing |
| Bridge2Input.MoveOutcome | MacApp/bridge2.py:156-183 | a move bringing x to 0 or less returns with only the mode-off event and keeps the last sample; any other is sent clamped, with the y axis flipped |
| Bridge2Input.Bridge.constructor | MacApp/bridge2.py:124-135 | the initial state with the desktop bounds of the screens found |
| Bridge2Input.Bridge.PollMouse | MacApp/bridge2.py:140-191 | the fields, events and warp change as PollStep says |
| Bridge2Input.Bridge.ToWindows | MacApp/bridge2.py:193-209 | the fields, events and warp change as EnterWindows says |
| Bridge2Input.Bridge.ToMac | MacApp/bridge2.py:211-219 | the fields, events and warp change as LeaveWindows says |
| Bridge3Input.EnterWindows | MacApp/bridge3.py:194-203 | in Mac mode: Windows mode at (50, y) with y recorded as the edge height and one mode-switch event; in Windows mode: nothing |
| Bridge3Input.LeaveWindows | MacApp/bridge3.py:205-211 | in Windows mode: Mac mode and one mode-off event, the cursor not moved; in Mac mode: nothing |
| Bridge3Input.PollStep | MacApp/bridge3.py:135-192 | in Mac mode a pass does nothing unless a client is connected and the cursor is within 3 px of the right edge; then it switches and warps to the trap point |
| Bridge3Input.SwitchesAreGuarded | MacApp/bridge3.py:194-208 | entering twice, or leaving twice, does nothing the second time |
| Bridge3Input.TrappedIsKept | MacApp/bridge3.py:180-187 | every pass keeps the last sample inside the circle of radius 200 round the middle, and so inside the square of half-side 200 |
| Bridge3Input.MoveOutcome | MacApp/bridge3.py:159-178 | a move is always sent, scaled by 1.5, clamped and with y flipped; reaching x = 0 sends it and then the mode-off event, and control is back on the Mac |
| Bridge3Input.StillCursorIsQuiet | MacApp/bridge3.py:159-187 | a sample equal to the last one, inside the circle, does nothing |
| Bridge3Input.Bridge.constructor | MacApp/bridge3.py:115-130 | the initial state with the desktop bounds of the screens found |
| Bridge3Input.Bridge.PollMouse | MacApp/bridge3.py:135-192 | the fields, events and warp change as PollStep says |
| Bridge3Input.Bridge.ToWindows | MacApp/bridge3.py:194-203 | the fields and events change as EnterWindows says |
| Bridge3Input.Bridge.ToMac | MacApp/bridge3.py:205-211 | the fields and events change as LeaveWindows says |
| PeerLink.SetState | MacApp/app_v2.py:280-283 | the state is replaced and reported to the application once; nothing else changes |
| PeerLink.Transmit | MacApp/app_v2.py:271-278 | a message is written exactly when there is a peer socket; nothing else changes |
| PeerLink.TransmitAll | MacApp/app_v2.py:271-278 | several writes append the messages, in order, exactly when there is a peer socket |
| PeerLink.TransmitTwice | MacApp/app_v2.py:271-278 | writing `a` and then `b` is writing `a + b` |
| PeerLink.TransmitOne | MacApp/app_v2.py:271-278 | one write is a batch of one |
| PeerLink.Outgoing | MacApp/app_v2.py:267-269 | `send` writes an object with exactly `type` and `payload`; a missing or empty payload becomes {} |
| PeerLink.Handle | MacApp/app_v2.py:227-250 | a line that raises changes nothing; handling never starts or stops the loop nor opens or closes the socket, and writes at most one `connected` or `pong` |
| PeerLink.Finish | MacApp/app_v2.py:223-224 | after the receive loop the link is DISCONNECTED, reported once, with no peer socket; what was written and forwarded is kept |
| PeerLink.Connect | MacApp/app_v2.py:161-179 | a refused connection goes CONNECTING then ERROR, both reported, and returns false; an accepted one has a socket, runs the loop, stays CONNECTING and writes one hello |
| PeerLink.Accept | MacApp/app_v2.py:181-199 | an accepted peer gets a socket, its address as `peer_info` and one hello; the state is unchanged |
| PeerLink.Disconnect | MacApp/app_v2.py:329-341 | the loop stops, there is no peer socket and DISCONNECTED is reported once; nothing is written |
| PeerLink.HelloConnects | MacApp/app_v2.py:234-237 | a hello is answered with exactly one `connected` carrying this host's description; its payload (default {}) becomes `peer_info` and CONNECTED is reported once |
| PeerLink.ConnectedAcknowledges | MacApp/app_v2.py:239-241 | a `connected` records the payload and makes the link CONNECTED without writing anything |
| PeerLink.PingPongs | MacApp/app_v2.py:243-244 | a ping is answered with exactly one pong and changes nothing else |
| PeerLink.OthersAreForwarded | MacApp/app_v2.py:246-247 | any other object, typed or not, is handed to the application once with its payload (default {}); nothing is written and the state is untouched |
| PeerLink.BadLines | MacApp/app_v2.py:229-250 | a line that is not JSON changes nothing and is dropped; JSON that is not an object changes nothing and raises, ending the loop |
| PeerLink.BlankLinesAreSkipped | MacApp/app_v2.py:214-215 | lines that strip to nothing are skipped without a trace |
| PeerLink.DrainAppend | MacApp/app_v2.py:212-215 | handling `xs + ys` is handling `xs` and then, unless a line raised, `ys`: each line is handled once, in order |
| PeerLink.DrainOnlyReplies | MacApp/app_v2.py:227-250 | while the loop runs, what was written stays and only `connected` and `pong` replies are added |
| PeerLink.ListenCons | MacApp/app_v2.py:204-215 | one read handles the complete lines of buffer plus chunk and carries the rest, unless a line raised |
| PeerLink.ListenAt | MacApp/app_v2.py:204-215 | the loop ends at the last read or at an empty one (the peer closed); otherwise it handles read `i` and goes on from the next, unless a line raised |
| PeerLink.SplitRead | MacApp/app_v2.py:211-215 | a message whose decoded text is split over two reads is handled as if it came in one: the unterminated rest is carried over (a read that cuts a UTF-8 character is not covered) |
| PeerLink.DrainFirstLine | MacApp/app_v2.py:212-215 | the first line of the buffer is handled first (skipped when blank), then the rest |
| PeerLink.NetworkManager.constructor | MacApp/app_v2.py:126-140 | DISCONNECTED, not running, no peer socket, nothing written, reported or forwarded |
| PeerLink.NetworkManager.SetLinkState | MacApp/app_v2.py:280-283 | the fields change as SetState says |
| PeerLink.NetworkManager.SendRaw | MacApp/app_v2.py:271-278 | the fields change as Transmit says |
| PeerLink.NetworkManager.Send | MacApp/app_v2.py:267-269 | the message Outgoing builds is transmitted |
| PeerLink.NetworkManager.ConnectTo | MacApp/app_v2.py:161-179 | the fields and result are as Connect says |
| PeerLink.NetworkManager.AcceptOne | MacApp/app_v2.py:181-199 | the fields change as Accept says |
| PeerLink.NetworkManager.HandleMessage | MacApp/app_v2.py:227-250 | the fields and the exception are as Handle says |
| PeerLink.NetworkManager.Receive | MacApp/app_v2.py:207-215 | the fields change as handling the complete lines of buffer plus chunk says, and the unterminated rest is returned |
| PeerLink.NetworkManager.ReceiveLoop | MacApp/app_v2.py:201-225 | with the loop running and a peer: the reads are handled as Listen says, then Finish; otherwise only Finish |
| PeerLink.NetworkManager.Serve | MacApp/app_v2.py:204-222 | the loop over the reads changes the fields as Listen says |
| PeerLink.NetworkManager.Close | MacApp/app_v2.py:329-341 | the fields change as Disconnect says |
| PeerInput.ActiveEdgeHit | MacApp/app_v2.py:386-397 | an edge name other than the four never fires |
| PeerInput.Opposite | MacApp/app_v2.py:399-402 | always one of the four edge names; an unknown edge counts as "right", so its opposite is "left" |
| PeerInput.ReturnAt | MacApp/app_v2.py:451-458 | every edge name has a real return line |
| PeerInput.EnterRemote | MacApp/app_v2.py:478-508 | when not driving: drive the peer from the entry point facing the Mac, with one mode-switch event; when driving: nothing |
| PeerInput.Steer | MacApp/app_v2.py:428-463 | the sample becomes the last one and driving is kept; a zero move sends nothing and never returns; otherwise one move is sent and the remote position stays on the remote screen; only a sent move can return |
| PeerInput.LeaveRemote | MacApp/app_v2.py:510-528 | when driving: stop, with one mode-switch-off event; the cursor is warped exactly when the edge is one of the four names; when not driving: nothing |
| PeerInput.PollStep | MacApp/app_v2.py:404-476 | while driven by the peer, or off the active edge, or not CONNECTED, a pass in local mode does nothing; otherwise it switches to the peer and warps to the middle |
| PeerInput.Receive | MacApp/app_v2.py:530-546 | an exception changes nothing; incoming input never changes whether this side drives nor the remote position |
| PeerInput.OppositeIsInvolution | MacApp/app_v2.py:399-402 | the opposite of the opposite of an edge is the edge, and no edge is its own opposite |
| PeerInput.EdgeHitAgreesWithIsAtEdge | MacApp/app_v2.py:386-397 | for "right" and "left" the edge test is macwincontrol.py's `is_at_edge` with threshold 3 |
| PeerInput.SwitchesAreGuarded | MacApp/app_v2.py:480-513 | switching to the peer twice, or back twice, does nothing the second time |
| PeerInput.EntryIsNotAReturn | MacApp/app_v2.py:478-508 | the entry point never meets the return test, whatever the edge: entering does not bounce straight back |
| PeerInput.MoveOutcome | MacApp/app_v2.py:428-463 | a move is scaled by 1.5, clamped and always sent first; control returns after it exactly when the clamped position is on the side opposite the active edge |
| PeerInput.TrappedIsKept | MacApp/app_v2.py:465-471 | every pass keeps the last sample inside the circle of radius 200 round the middle while the peer is driven |
| PeerInput.ModeSwitchFollowsPeer | MacApp/app_v2.py:532-539 | a mode switch makes this side driven exactly when `active` is truthy, and then warps to the point given |
| PeerInput.MovesOnlyWhileDriven | MacApp/app_v2.py:541-546 | a remote move warps the cursor only while driven and never changes the state; a payload that is not an object raises only then |
| PeerInput.DrivenIgnoresEdge | MacApp/app_v2.py:410-426 | while driven by the peer, the poll ignores the edge |
| PeerInput.InputHandler.constructor | MacApp/app_v2.py:356-370 | neither driving nor driven, edge "right", with the bounds of the screens found |
| PeerInput.InputHandler.SetEdge | MacApp/app_v2.py:372-375 | only the active edge changes |
| PeerInput.InputHandler.Poll | MacApp/app_v2.py:404-476 | the fields, warp and messages written change as PollStep says |
| PeerInput.InputHandler.Follow | MacApp/app_v2.py:428-471 | the fields, warp and messages written change as Track says |
| PeerInput.InputHandler.Sample | MacApp/app_v2.py:428-463 | the sample is recorded, and a non-zero move is sent and checked for the return, as Steer says |
| PeerInput.InputHandler.Recentre | MacApp/app_v2.py:465-471 | a sample farther than 200 from the middle warps the cursor there and makes the middle the last sample; otherwise nothing changes |
| PeerInput.InputHandler.Shift | MacApp/app_v2.py:436-463 | the remote position moves as the send-first cursor rule says, the move is written, and the return decision is reported |
| PeerInput.InputHandler.SwitchToRemote | MacApp/app_v2.py:478-508 | the fields and messages written change as EnterRemote says |
| PeerInput.InputHandler.SwitchToLocal | MacApp/app_v2.py:510-528 | the fields, warp and messages written change as LeaveRemote says |
| PeerInput.InputHandler.HandleIncomingInput | MacApp/app_v2.py:530-546 | the fields, warp and exception are as Receive says |
| RustNetwork.Hello | RustApp/src-tauri/src/network.rs:42-50 | a hello carries exactly the name and version "1.0" |
| RustNetwork.MouseMove | RustApp/src-tauri/src/network.rs:52-60 | a mouse move carries exactly x and y |
| RustNetwork.MouseClick | RustApp/src-tauri/src/network.rs:62-70 | a click carries exactly the button and the action |
| RustNetwork.KeyEvent | RustApp/src-tauri/src/network.rs:72-80 | a key event carries exactly the key code and the action |
| RustNetwork.Clipboard | RustApp/src-tauri/src/network.rs:82-89 | a clipboard message carries exactly the text |
| RustNetwork.Ping | RustApp/src-tauri/src/network.rs:91-97 | a ping carries no field |
| RustNetwork.Pong | RustApp/src-tauri/src/network.rs:99-105 | a pong carries no field |
| RustNetwork.Handle | RustApp/src-tauri/src/network.rs:170-209 | a ping is answered with a pong and nothing else is; a move, click, key event or clipboard text acts exactly when its type matches and the fields it needs are present, and then passes those fields (x and y; button and action; key code and action; text) unchanged; hello and unknown types do nothing |
| RustNetwork.ConstructedMessagesAct | RustApp/src-tauri/src/network.rs:42-209 | each message a constructor builds is handled as what it says: the move moves, the ping is answered, hello and pong do nothing |
| RustNetwork.LinesOf | RustApp/src-tauri/src/network.rs:159 | `lines()` yields nothing exactly for empty text, and no line holds a newline |
| RustNetwork.LinesAfterNewline | RustApp/src-tauri/src/network.rs:159 | the lines of a line, its newline and a rest are that line, less a trailing carriage return, followed by the lines of the rest |
| RustNetwork.LinesReassemble | RustApp/src-tauri/src/network.rs:159 | for text without carriage returns, each line written back with a newline rebuilds the text, plus a final newline where it had none: `lines()` loses only the terminators |
| RustNetwork.FirstNewline | RustApp/src-tauri/src/network.rs:159 | the first line `lines()` takes ends at the first newline: a newline sits there and none comes before it |
| RustNetwork.DropCr | RustApp/src-tauri/src/network.rs:159 | `lines()` strips at most one carriage return, and only at the line's end |
| RustNetwork.OneLine | RustApp/src-tauri/src/network.rs:159 | text without a newline is one line, as it is |
| RustNetwork.TerminatedLine | RustApp/src-tauri/src/network.rs:159 | a line followed by its newline is that one line |
| RustNetwork.NewlineAfter | RustApp/src-tauri/src/network.rs:159 | the first newline of `line + "\n" + tail` is the one after `line` |
| RustNetwork.Session | RustApp/src-tauri/src/network.rs:132-168 | the hello is written before anything is read |
| RustNetwork.EmptyReadEnds | RustApp/src-tauri/src/network.rs:154-157 | a read of 0 bytes ends the session: nothing read later has any effect |
| RustNetwork.ReadsAreIndependent | RustApp/src-tauri/src/network.rs:148-165 | no buffer is kept: a series of non-empty reads acts as each read on its own, in order |
| RustNetwork.SplitReadsDoNothing | RustApp/src-tauri/src/network.rs:158-163 | a read without a newline, then the rest of the message with its newline, handles nothing when neither piece parses on its own |
| RustNetwork.OneReadActs | RustApp/src-tauri/src/network.rs:158-163 | one read holding a single line that parses is handled once |
| RustNetwork.SplitMessageIsLost | RustApp/src-tauri/src/network.rs:158-163 | a message cut in two by a read boundary is lost, while the same bytes in one read are handled |
| RustNetwork.ServeOne | RustApp/src-tauri/src/network.rs:148-165 | one non-empty read dispatches its lines in order, then the loop goes on; with no read nothing happens |
| RustNetwork.ReadLoop | RustApp/src-tauri/src/network.rs:148-165 | the loop's actions are the ones Serve gives |
| RustNetwork.ReadLines | RustApp/src-tauri/src/network.rs:159-163 | the loop over one read's lines dispatches each line that decodes, in order |
| RustNetwork.HandleClient | RustApp/src-tauri/src/network.rs:132-168 | the actions of a whole session are the hello followed by the read loop's |
| RustAppState.Retain | RustApp/src-tauri/src/lib.rs:157-161 | `retain` keeps only entries with another ip, each from the old list, never more |
| RustAppState.RetainAppend | RustApp/src-tauri/src/lib.rs:159 | `retain` works entry by entry, so the kept entries keep their order |
| RustAppState.RetainKeepsOthers | RustApp/src-tauri/src/lib.rs:159 | every entry with another ip survives |
| RustAppState.RetainAbsent | RustApp/src-tauri/src/lib.rs:157-161 | removing an ip nobody has changes nothing |
| RustAppState.SetLayout | RustApp/src-tauri/src/lib.rs:229-239 | the call succeeds exactly for "right", "left", "top" and "bottom" and stores the edge; any other edge fails with the message naming the valid ones and the stored edge is kept |
| RustAppState.LastAcceptedEdge | RustApp/src-tauri/src/lib.rs:229-244 | after a series of calls the stored edge is the last one accepted, or the one stored before the calls when none was; a valid stored edge stays valid |
| RustAppState.RetainLoop | RustApp/src-tauri/src/lib.rs:159 | the loop keeps exactly what Retain keeps |
| RustAppState.Layout.constructor | RustApp/src-tauri/src/lib.rs:242-244 | the stored edge is the initial one |
| RustAppState.Layout.SetScreenLayout | RustApp/src-tauri/src/lib.rs:229-239 | the stored edge and the result are as SetLayout says |
| RustAppState.AppState.constructor | RustApp/src-tauri/src/lib.rs:282-290 | not a server, not connected, no active computer, no computers, clipboard sync on, no remote screens, the local ip given |
| RustAppState.AppState.AddComputer | RustApp/src-tauri/src/lib.rs:136-148 | one disconnected 1920x1080 entry is appended; nothing else changes |
| RustAppState.AppState.RemoveComputer | RustApp/src-tauri/src/lib.rs:157-161 | the computers are what Retain keeps; nothing else changes |
| RustAppState.AppState.SetClipboardSync | RustApp/src-tauri/src/lib.rs:164-168 | only the clipboard sync flag changes |
| RustAppState.AppState.SetRemoteScreens | RustApp/src-tauri/src/lib.rs:222-226 | only the remote screens change |
| Clipboard.Preview | MacApp/clipboard_manager.py:106 | content of at most 100 characters is its own preview; longer content gives its first 100 characters followed by "..." |
| Clipboard.MakeItem | MacApp/clipboard_manager.py:101-107 | an entry holds the content, the source, the time given and the preview |
| Clipboard.Without | MacApp/clipboard_manager.py:110 | the filtered history holds no entry of that content, only entries of the old one, never more |
| Clipboard.WithoutAppend | MacApp/clipboard_manager.py:110 | the filter works entry by entry |
| Clipboard.WithoutKeepsOthers | MacApp/clipboard_manager.py:110 | every entry of other content survives the filter |
| Clipboard.WithoutEmbedded | MacApp/clipboard_manager.py:110 | the filter keeps the surviving entries in their order |
| Clipboard.PrefixEmbedded | MacApp/clipboard_manager.py:115-117 | trimming the front of an ordered selection keeps it an ordered selection |
| Clipboard.WithoutDistinct | MacApp/clipboard_manager.py:110 | filtering a history without duplicate content keeps it without duplicates |
| Clipboard.ItemAt | MacApp/clipboard_manager.py:127-131 | `get_item` finds an entry exactly for an index in range, and returns its content |
| Clipboard.AddedComesFirst | MacApp/clipboard_manager.py:113 | after `add(c)` the newest entry is `c`, with its source and preview |
| Clipboard.AddedKeepsDistinct | MacApp/clipboard_manager.py:109-113 | the history never holds two entries of equal content |
| Clipboard.AddedKeepsNewest | MacApp/clipboard_manager.py:115-117 | the trim keeps the newest entries, as many as `max_items` allows |
| Clipboard.AddedIsBounded | MacApp/clipboard_manager.py:115-117 | with a non-negative bound the history never grows past it |
| Clipboard.AddedKeepsOrder | MacApp/clipboard_manager.py:100-117 | the older entries that survive are old entries of other content, in their old order |
| Clipboard.Changes | MacApp/clipboard_manager.py:76-88 | every change the monitor reports is non-empty and one of the samples read, never more than were read |
| Clipboard.LastSeenIsLastChange | MacApp/clipboard_manager.py:81-83 | the content the monitor remembers is the last one it reported, or the starting one |
| Clipboard.ChangesAppend | MacApp/clipboard_manager.py:78-88 | watching in two stretches reports what watching once does |
| Clipboard.ChangesDiffer | MacApp/clipboard_manager.py:81 | no report repeats the one before it, and the first differs from the starting content |
| Clipboard.WrittenIsNotEchoed | MacApp/clipboard_manager.py:47 | what `set_clipboard` wrote is not reported back: samples equal to it are skipped |
| Clipboard.ClipboardHistory.constructor | MacApp/clipboard_manager.py:96-98 | an empty history with the bound given |
| Clipboard.ClipboardHistory.Add | MacApp/clipboard_manager.py:100-117 | the history becomes what Added says and keeps its invariant: no duplicate content, within the bound |
| Clipboard.ClipboardHistory.GetHistory | MacApp/clipboard_manager.py:119-121 | the copy equals the history (a shallow copy; see "## Left out") |
| Clipboard.ClipboardHistory.Clear | MacApp/clipboard_manager.py:123-125 | the history is empty |
| Clipboard.ClipboardHistory.GetItem | MacApp/clipboard_manager.py:127-131 | the result is ItemAt's |
| Clipboard.DropEqual | MacApp/clipboard_manager.py:110 | the loop keeps exactly what Without keeps |
| Clipboard.ClipboardManager.constructor | MacApp/clipboard_manager.py:17-22 | no last content, not monitoring, no callback, nothing reported |
| Clipboard.ClipboardManager.SetClipboard | MacApp/clipboard_manager.py:38-51 | the content is remembered exactly when the write succeeded, and the result says so |
| Clipboard.ClipboardManager.StartMonitoring | MacApp/clipboard_manager.py:53-67 | a second start changes nothing; a first one remembers the current content and installs the callback |
| Clipboard.ClipboardManager.StopMonitoring | MacApp/clipboard_manager.py:69-74 | monitoring is off; nothing else changes |
| Clipboard.ClipboardManager.MonitorLoop | MacApp/clipboard_manager.py:76-88 | while monitoring, the content remembered is LastSeen's and the callback receives exactly Changes, in order; otherwise nothing happens |

## Left out

- User interface: the Tkinter windows (`ScreenArrangementGUI` drag and snap, the `App`, `ModernApp` and `MacWinControlApp` windows), MacApp/screen_layout_widget.py and the Tauri front end. They render with float scale factors and hold no protocol logic.
- Sockets, threads and timers: accept loops, `settimeout`, daemon threads, locks, the tokio runtime and `Arc<Mutex<TcpStream>>`. Each handler is modelled over a sequence of received chunks, and what it writes is appended to a sequence. A poisoned mutex is not modelled.
- Operating-system calls: pynput listeners and `MouseController`, `NSScreen`, `NSEvent` and `CGWarpMouseCursorPosition`. Screens and cursor samples are parameters, and a warp is part of a callback's result.
- RustApp/src-tauri/src/input.rs and RustApp/src-tauri/src/clipboard_sync.rs are not part of this model. `handle_message` records the calls into them as actions.
- Floating point: `NSEvent` coordinates are integers here. `int(d * 1.5)` is applied to an integer delta (`Cursor.Scaled`). The Euclidean distance of the round trap is compared squared (`Cursor.FarFrom`). The `abs(dx) > 0.5` test of bridge2.py becomes "the sample moved". Float midpoints are floored. Scroll deltas `int(dx * 120)` are not modelled.
- Clicks and scroll wheel events are not modelled. They are forwarded as-is, with no state of their own.
- `time.time()` timestamps: the clipboard entry's timestamp is a parameter. The input events of three hosts carry `"timestamp": int(time.time() * 1000)` (MacApp/macwincontrol_gui.py:815, 891 and 910, MacApp/MacWinControlApp.py:372, 398 and 407, MacApp/macwincontrol.py:363, 423 and 442). The model builds those events without that key (`Cursor.MoveTo`, `Cursor.MoveOnScreen`, `Cursor.KeyWithMods`), so the sent objects agree with the source except for the clock.
- JSON text and serde: `json.dumps`, `json.loads` and `serde_json` are not modelled. A message is a decoded value (`Json.Json`). Where a handler parses a line, the parser is a parameter that returns None where Python raises `JSONDecodeError` or serde fails. In the Rust app, `String::from_utf8_lossy` turns each read into text before `lines()`; the model receives that text, so the replacement of invalid or cut UTF-8 sequences by U+FFFD is not modelled.
- Per-read UTF-8 decoding in the Python hosts: each host decodes every `recv()` on its own (`data.decode()` at MacApp/macwincontrol_gui.py:579, MacApp/app_v2.py:211, MacApp/MacWinControlApp.py:234, MacApp/macwincontrol.py:160, MacApp/simple_server.py:70, MacApp/gui_app.py:82, MacApp/bridge.py:79, MacApp/bridge2.py:84 and MacApp/bridge3.py:75). The model's chunks are already decoded text, so the path where a multi-byte character cut by a read boundary raises `UnicodeDecodeError` is not modelled. In the hosts that error ends the session (the `except`/`break` at MacApp/macwincontrol_gui.py:586-588 and MacApp/app_v2.py:220-223). The split-read lemmas hold only for reads cut at character boundaries.
- `str.upper()` is modelled for ASCII letters only (`Keyboard.ToUpper`); other characters keep their code point.
- Console output and the UI callbacks (`on_mode`, `on_mode_change`, `on_status`, `on_layout_change`, `on_peer_found`) are not recorded: no modelled state depends on them. The exception is the peer link's `on_state_change` and `on_message`, which are recorded in order.
- The application-level wiring of `on_client_connected` and `on_client_disconnected` is not modelled. The operations these callbacks call are modelled, but the calls are not made automatically:
  - On a hello, MacApp/macwincontrol_gui.py:952-954 and MacApp/MacWinControlApp.py:565-567 pass the client's screens to `set_windows_screens` (`Geometry.ScreenArrangement.SetWindowsScreens`).
  - On a disconnect in Windows mode, MacApp/macwincontrol_gui.py:996-998 and MacApp/macwincontrol.py:498-500 call `_switch_to_mac()` (`GuiCapture.InputCapture.SwitchToMac`, `ConsoleCapture.InputCapture.SwitchToMac`).
  - In the model, a caller makes those calls after `Session.HostServer.HandleClient` itself.
  - `on_client_connected` runs inside the receive loop's `try` (MacApp/macwincontrol_gui.py:615-616, MacApp/macwincontrol.py:190-191), so an exception raised by it would end the session there. The model does not run the callback, so it has no such path.
- CompactCapture: `on_mode_change(True/False)` (MacApp/MacWinControlApp.py:322-344) is not recorded. The guarded switches (`CompactCapture.SwitchesAreGuarded`) show that each call changes the mode, and only then would the callback fire.
- UDP discovery (MacApp/app_v2.py:285-327), `start_auto_discovery` and `get_debug_info` are not modelled: they are broadcast plumbing with no state the core reads.
- The routing of app_v2.py's `on_message` callback into `InputHandler.handle_incoming_input` lives in the `App` class. The handler is modelled, but the routing is not. An exception inside that callback is not modelled either.
- After a disconnect, app_v2.py closes `peer_socket` but does not set it to None. `PeerLink` models the link as unusable (`hasPeer` false), so it does not model the later `send` that would fail on the closed socket and be swallowed.
- `network::REMOTE_EDGE` is not in network.rs. Its initial value is a parameter of `RustAppState.Layout.constructor`.
- Clipboard.ClipboardHistory.GetHistory: `self._history.copy()` is a shallow copy, so in Python the returned dicts are the history's own entries. Entries are values in the model, so the sharing is not modelled.
- Getters that return a field as it is (`get_computers`, `get_screen_layout`, `get_history` apart from its copy) have no contract of their own. What they return is stated through the operations that set the field.
- The Tauri command wrappers and the `run()` builder are not modelled. Only the initial `AppState` they create is.
- The clipboard manager's exception handlers around `pbcopy`/`pbpaste` are not modelled: a failed read counts as empty content. The thread start, join and sleep and the module-level singletons are not modelled either.
- MacApp/setup.py (packaging) and shared/design_system.py (UI constants) are not part of this model.
- Nothing in the code debounces the edge trigger, times out an idle session or waits for the peer to acknowledge a mode switch. The model has none of these either.

## Findings

| source | as written | input that shows it | evidently intended | confidence | as-written member | corrected member |
|---|---|---|---|---|---|---|
| MacApp/macwincontrol_gui.py:234-237 | for a screen above the Mac the return tests `local_y <= 5`, the screen's top edge, and for one below it tests `local_y >= height - 5`, its bottom edge: both are the edges facing away from the Mac, while the entry puts the cursor 5 px from the edge facing it | Mac 1920x1080 at (0, 0), Windows 1920x1080 at (0, -1080): crossing the top at x 500 enters at local (500, 1075); switching straight back tests `1075 <= 5`, fails, and lands at the Mac's centre (960, 540) instead of (500, 50) | test the edge facing the Mac (`local_y >= height - 5` above, `local_y <= 5` below), as the side cases do with `local_x` | not executed | Geometry.TopEntryReturnsToMiddle | Geometry.EnterThenReturn |
| MacApp/macwincontrol_gui.py:797-806 | after a hop to the right neighbour, `ws` is not reassigned, so y is clamped to the old screen's height | Windows screens 2560x1440 at x 1920 and 1920x1080 at x 4480, cursor at local (2550, 1400), a move of +20 px in x: `mouse_move` is sent on screen 1 at (10, 1400), below its bottom | clamp y to the new screen's height, as the hop to the left does (lines 789-793) | not executed | GuiCapture.RightHopKeepsOldHeight | GuiCapture.FixedMoveStaysOnScreen |
