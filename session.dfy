/** The Mac host's TCP session with the Windows client, as the Python hosts
    run it in `_handle_client` / `_handle`: greet, frame the received text
    into lines, answer `hello` and `ping`, and tear down at the end.

    Four variants of the same server occur:
    - `Arranging`: MacApp/macwincontrol_gui.py. Stores the client's name and
      screens; a line that is not JSON is skipped, but a JSON value that is
      not an object makes `msg.get` raise, which ends the session; teardown
      also forgets the screens.
    - `Compact`: MacApp/MacWinControlApp.py. Stores name and screens (one
      default screen); a bare `except` swallows every error of a line;
      teardown keeps the screens.
    - `Console`: MacApp/macwincontrol.py. Stores the name only; errors as in
      `Arranging`.
    - `Minimal`: MacApp/gui_app.py, bridge.py, simple_server.py, bridge2.py
      and bridge3.py. Stores nothing; any error of a line (bad JSON or not an
      object) escapes the receive loop and ends the session. */
module Session {
  import opened Common
  import opened Json
  import opened Framing

  datatype Variant = Arranging | Compact | Console | Minimal

  /** The server's fields that a session changes. `hasClient` is
      `client_socket is not None`; `sent` is every JSON object written to
      the client, in order. */
  datatype Server = Server(
    connected: bool,
    hasClient: bool,
    clientName: Json,
    clientScreens: Json,
    sent: seq<Json>)

  function Initial(): Server {
    Server(false, false, JStr(""), JArr([]), [])
  }

  function TypeOnly(tag: string): Json {
    JObj(map["type" := JStr(tag)])
  }

  function HelloMessage(hostname: string): Json {
    JObj(map["type" := JStr("hello"), "version" := JStr("1.0"), "name" := JStr(hostname)])
  }

  function ScreenDict(width: int, height: int, x: int, y: int): Json {
    JObj(map["width" := JInt(width), "height" := JInt(height), "x" := JInt(x), "y" := JInt(y)])
  }

  /** The screens assumed for a client whose hello names none. */
  function DefaultScreens(v: Variant): Json {
    if v == Arranging then JArr([ScreenDict(1920, 1080, 0, 0), ScreenDict(1920, 1080, 1920, 0)])
    else JArr([ScreenDict(1920, 1080, 0, 0)])
  }

  /** `_send(obj)`: written only while a client socket is present. */
  function Send(s: Server, obj: Json): (r: Server)
    ensures r.sent == if s.hasClient then s.sent + [obj] else s.sent
    ensures r == s.(sent := r.sent)
  {
    if s.hasClient then s.(sent := s.sent + [obj]) else s
  }

  /** Input events handed to `send_event` in order: each is written only
      while the session is connected (and, through `_send`, while a client
      socket is present); otherwise all of them are dropped. */
  function Deliver(s: Server, events: seq<Json>): (r: Server)
    ensures r.sent == if s.connected && s.hasClient then s.sent + events else s.sent
    ensures r == s.(sent := r.sent)
  {
    if s.connected && s.hasClient then s.(sent := s.sent + events) else s
  }

  /** Delivering two batches one after the other is delivering both. */
  lemma DeliverTwice(s: Server, a: seq<Json>, b: seq<Json>)
    ensures Deliver(Deliver(s, a), b) == Deliver(s, a + b)
  {
  }

  /** The `finally` block of the receive loop. */
  function Closed(v: Variant, s: Server): (r: Server)
    ensures !r.connected && !r.hasClient && r.sent == s.sent
    ensures v != Minimal ==> r.clientName == JStr("")
    ensures r.clientScreens == if v == Arranging then JArr([]) else s.clientScreens
    ensures v == Minimal ==> r.clientName == s.clientName
  {
    var r := s.(connected := false, hasClient := false);
    if v == Minimal then r
    else if v == Arranging then r.(clientName := JStr(""), clientScreens := JArr([]))
    else r.(clientName := JStr(""))
  }

  /** The effect of one line, and whether it ended the session. */
  datatype Outcome = Outcome(server: Server, fatal: bool)

  /** One complete line taken from the buffer: `if line:` and then
      `_process_message(line)` (or the inline handling of `Minimal`).
      `loads` is `json.loads`, None where it raises JSONDecodeError. */
  function Step(v: Variant, s: Server, line: string, loads: string -> Option<Json>): (r: Outcome)
    ensures r.fatal ==> r.server == s
    ensures r.server.sent == s.sent || (s.hasClient && |r.server.sent| == |s.sent| + 1
      && r.server.sent[..|s.sent|] == s.sent)
  {
    if line == "" then Outcome(s, false)
    else match loads(line)
      case None => Outcome(s, v == Minimal)
      case Some(msg) =>
        if !msg.JObj? then Outcome(s, v != Compact)
        else
          var kind := GetOr(msg.fields, "type", JNull);
          if kind == JStr("hello") then
            if v == Arranging && !HasLength(GetOr(msg.fields, "screens", DefaultScreens(v))) then Outcome(s, true)
            else Outcome(Greet(v, s, msg.fields), false)
          else if kind == JStr("ping") then Outcome(Send(s, TypeOnly("pong")), false)
          else Outcome(s, false)
  }

  /** Whether Python's `len()` accepts the decoded value: strings, lists and
      dicts. `Arranging` prints `len(self.client_screens)` before it replies,
      so a hello whose screens are null, a boolean or a number raises
      TypeError there; nothing catches it inside the receive loop, so the
      session ends. */
  predicate HasLength(j: Json) {
    j.JStr? || j.JArr? || j.JObj?
  }

  /** A client's hello: remember who it is, reply `connected`, and only then
      mark the session connected. */
  function Greet(v: Variant, s: Server, msg: map<string, Json>): Server {
    var named :=
      if v == Minimal then s
      else if v == Console then s.(clientName := GetOr(msg, "name", JStr("Windows PC")))
      else s.(clientName := GetOr(msg, "name", JStr("Windows PC")),
              clientScreens := GetOr(msg, "screens", DefaultScreens(v)));
    Send(named, TypeOnly("connected")).(connected := true)
  }

  /** The lines of one buffer, handled in order until one ends the session. */
  function Run(v: Variant, s: Server, lines: seq<string>, loads: string -> Option<Json>): Outcome
    decreases |lines|
  {
    if lines == [] then Outcome(s, false)
    else
      var o := Step(v, s, lines[0], loads);
      if o.fatal then o else Run(v, o.server, lines[1..], loads)
  }

  /** The whole receive loop over the chunks `recv` returned, from `buffer`;
      an empty chunk is the peer closing the connection. The result is the
      state the `finally` block starts from. */
  function Serve(v: Variant, s: Server, buffer: string, chunks: seq<string>,
                 loads: string -> Option<Json>): Server
    decreases |chunks|
  {
    if chunks == [] || chunks[0] == "" then s
    else
      var o := Run(v, s, Lines(buffer + chunks[0]), loads);
      if o.fatal then o.server
      else Serve(v, o.server, Rest(buffer + chunks[0]), chunks[1..], loads)
  }

  // -----------------------------------------------------------------------
  // Properties of one line

  /** A hello connects, is answered with exactly one `connected`, and
      records the client's name (default "Windows PC") and screens. For
      `Arranging` this needs screens that have a length; the other case is
      `UnsizedScreensEndSession`. */
  lemma HelloConnects(v: Variant, s: Server, line: string, loads: string -> Option<Json>, msg: map<string, Json>)
    requires s.hasClient && line != ""
    requires loads(line) == Some(JObj(msg)) && GetOr(msg, "type", JNull) == JStr("hello")
    requires v == Arranging ==> HasLength(GetOr(msg, "screens", DefaultScreens(v)))
    ensures var o := Step(v, s, line, loads);
      && !o.fatal && o.server.connected && o.server.hasClient
      && o.server.sent == s.sent + [TypeOnly("connected")]
      && (v != Minimal ==> o.server.clientName == GetOr(msg, "name", JStr("Windows PC")))
      && (v == Arranging || v == Compact ==>
            o.server.clientScreens == GetOr(msg, "screens", DefaultScreens(v)))
  {
  }

  /** In `Arranging`, a hello whose screens have no length (`null`, a
      boolean, a number) raises before the reply: nothing is sent, the
      session is not connected, and it ends. The name and screens stored
      before the raise are cleared again by the teardown (`Closed`). */
  lemma UnsizedScreensEndSession(s: Server, line: string, loads: string -> Option<Json>, msg: map<string, Json>)
    requires line != ""
    requires loads(line) == Some(JObj(msg)) && GetOr(msg, "type", JNull) == JStr("hello")
    requires !HasLength(GetOr(msg, "screens", DefaultScreens(Arranging)))
    ensures var o := Step(Arranging, s, line, loads);
      o.fatal && o.server == s
      && Closed(Arranging, o.server) == Closed(Arranging, Greet(Arranging, s, msg).(sent := s.sent, connected := s.connected))
  {
  }

  /** A ping is answered with exactly one pong and changes nothing else. */
  lemma PingPongs(v: Variant, s: Server, line: string, loads: string -> Option<Json>, msg: map<string, Json>)
    requires s.hasClient && line != ""
    requires loads(line) == Some(JObj(msg)) && GetOr(msg, "type", JNull) == JStr("ping")
    ensures Step(v, s, line, loads) == Outcome(s.(sent := s.sent + [TypeOnly("pong")]), false)
  {
  }

  /** A line `json.loads` rejects is dropped by the hosts that catch
      JSONDecodeError and ends the session of the `Minimal` hosts. */
  lemma UndecodableLine(v: Variant, s: Server, line: string, loads: string -> Option<Json>)
    requires loads(line).None?
    ensures Step(v, s, line, loads).server == s
    ensures Step(v, s, line, loads).fatal <==> line != "" && v == Minimal
  {
  }

  /** Valid JSON that is not an object (`[1]`, `"x"`, `3`) makes `msg.get`
      raise AttributeError; only the bare `except` of `Compact` survives it. */
  lemma NonObjectLine(v: Variant, s: Server, line: string, loads: string -> Option<Json>)
    requires line != "" && loads(line).Some? && !loads(line).value.JObj?
    ensures Step(v, s, line, loads).server == s
    ensures Step(v, s, line, loads).fatal <==> v != Compact
  {
  }

  /** A session never disconnects by itself while it lives: only teardown
      clears `connected`. */
  lemma {:induction false} RunKeepsConnected(v: Variant, s: Server, lines: seq<string>, loads: string -> Option<Json>)
    requires s.connected
    ensures Run(v, s, lines, loads).server.connected
    decreases |lines|
  {
    if lines != [] {
      RunKeepsConnected(v, Step(v, s, lines[0], loads).server, lines[1..], loads);
    }
  }

  /** What the server sends only grows, and it never sends anything but
      `connected` and `pong` replies while handling input. */
  lemma {:induction false} RunOnlyReplies(v: Variant, s: Server, lines: seq<string>, loads: string -> Option<Json>)
    ensures var r := Run(v, s, lines, loads).server;
      && |s.sent| <= |r.sent| && r.sent[..|s.sent|] == s.sent
      && forall k :: |s.sent| <= k < |r.sent| ==> r.sent[k] in {TypeOnly("connected"), TypeOnly("pong")}
    decreases |lines|
  {
    if lines != [] {
      var o := Step(v, s, lines[0], loads);
      if !o.fatal {
        RunOnlyReplies(v, o.server, lines[1..], loads);
      }
    }
  }

  // -----------------------------------------------------------------------
  // Independence from how the stream is cut into reads

  /** Handling `xs + ys` is handling `xs` and then, unless that ended the
      session, `ys` from where it left off. */
  lemma {:induction false} RunAppend(v: Variant, s: Server, xs: seq<string>, ys: seq<string>, loads: string -> Option<Json>)
    ensures var o := Run(v, s, xs, loads);
      Run(v, s, xs + ys, loads) == if o.fatal then o else Run(v, o.server, ys, loads)
    decreases |xs|
  {
    if xs == [] {
      assert xs + ys == ys;
    } else {
      assert (xs + ys)[0] == xs[0];
      assert (xs + ys)[1..] == xs[1..] + ys;
      var o := Step(v, s, xs[0], loads);
      if !o.fatal {
        RunAppend(v, o.server, xs[1..], ys, loads);
      }
    }
  }

  /** Receiving `a` and then `b` ends in the same state as receiving `a + b`
      in one read: once decoded, the text's cut into reads does not matter.
      Reads are text here, so this says nothing about a UTF-8 character cut
      in two by a read, whose per-read `decode()` raises. */
  lemma SplitRead(v: Variant, s: Server, buffer: string, a: string, b: string, later: seq<string>,
                  loads: string -> Option<Json>)
    requires a != [] && b != []
    ensures Serve(v, s, buffer, [a, b] + later, loads) == Serve(v, s, buffer, [a + b] + later, loads)
  {
    assert [a, b] + later == [a] + ([b] + later);
    ServeCons(v, s, buffer, a, [b] + later, loads);
    ServeCons(v, s, buffer, a + b, later, loads);
    var o1 := Run(v, s, Lines(buffer + a), loads);
    ServeCons(v, o1.server, Rest(buffer + a), b, later, loads);
    Assoc(buffer, a, b);
    ChunkBoundary(buffer + a, b);
    RunAppend(v, s, Lines(buffer + a), Lines(Rest(buffer + a) + b), loads);
  }

  lemma ServeCons(v: Variant, s: Server, buffer: string, chunk: string, later: seq<string>,
                  loads: string -> Option<Json>)
    requires chunk != []
    ensures var o := Run(v, s, Lines(buffer + chunk), loads);
      Serve(v, s, buffer, [chunk] + later, loads) ==
        if o.fatal then o.server else Serve(v, o.server, Rest(buffer + chunk), later, loads)
  {
    assert ([chunk] + later)[0] == chunk;
    assert ([chunk] + later)[1..] == later;
  }

  /** Taking the first line out of the buffer. */
  lemma RunFirstLine(v: Variant, s: Server, buffer: string, loads: string -> Option<Json>)
    requires '\n' in buffer
    ensures var o := Step(v, s, SplitFirst(buffer).0, loads);
      Run(v, s, Lines(buffer), loads) ==
        if o.fatal then o else Run(v, o.server, Lines(SplitFirst(buffer).1), loads)
  {
    var lines := Lines(buffer);
    assert lines == [SplitFirst(buffer).0] + Lines(SplitFirst(buffer).1);
    assert lines[1..] == Lines(SplitFirst(buffer).1);
  }

  // -----------------------------------------------------------------------
  // The server object

  class HostServer {
    const variant: Variant
    var connected: bool
    var hasClient: bool
    var clientName: Json
    var clientScreens: Json
    var sent: seq<Json>

    function State(): Server
      reads this
    {
      Server(connected, hasClient, clientName, clientScreens, sent)
    }

    constructor(v: Variant)
      ensures variant == v && State() == Initial()
    {
      variant := v;
      connected, hasClient := false, false;
      clientName, clientScreens := JStr(""), JArr([]);
      sent := [];
    }

    /** `send_event`: forwarded only while a client is connected. */
    method SendEvent(event: Json)
      modifies this
      ensures State() == Deliver(old(State()), [event])
    {
      if connected && hasClient {
        sent := sent + [event];
      }
    }

    /** One pass of the receive loop: append the chunk and take out every
      complete line. `alive` is false when a line raised out of the loop;
      otherwise `rest` is the new buffer. */
    method Receive(buffer: string, chunk: string, loads: string -> Option<Json>)
      returns (rest: string, alive: bool)
      modifies this
      ensures var o := Run(variant, old(State()), Lines(buffer + chunk), loads);
        State() == o.server && alive == !o.fatal
      ensures alive ==> rest == Rest(buffer + chunk)
    {
      rest := buffer + chunk;
      ghost var goal := Run(variant, State(), Lines(rest), loads);
      while '\n' in rest
        invariant Run(variant, State(), Lines(rest), loads) == goal
        invariant Rest(rest) == Rest(buffer + chunk)
        decreases |rest|
      {
        var split := SplitFirst(rest);
        RunFirstLine(variant, State(), rest, loads);
        assert Rest(rest) == Rest(split.1);
        rest := split.1;
        var o := Step(variant, State(), split.0, loads);
        if o.fatal {
          return rest, false;
        }
        Adopt(o.server);
      }
      assert Lines(rest) == [] && Rest(rest) == rest;
      alive := true;
    }

    method Adopt(s: Server)
      modifies this
      ensures State() == s
    {
      connected, hasClient, clientName, clientScreens, sent :=
        s.connected, s.hasClient, s.clientName, s.clientScreens, s.sent;
    }

    method TearDown()
      modifies this
      ensures State() == Closed(variant, old(State()))
    {
      connected, hasClient := false, false;
      if variant == Arranging {
        clientName, clientScreens := JStr(""), JArr([]);
      } else if variant != Minimal {
        clientName := JStr("");
      }
    }

    /** `_handle_client` for a client just accepted: greet it, serve the
      received chunks, and tear down when the peer closes, a line raises,
      or the chunks run out. */
    method HandleClient(hostname: string, chunks: seq<string>, loads: string -> Option<Json>)
      modifies this
      ensures var greeted := Send(old(State()).(hasClient := true), HelloMessage(hostname));
        State() == Closed(variant, Serve(variant, greeted, "", chunks, loads))
      ensures !connected && !hasClient
    {
      hasClient := true;
      sent := sent + [HelloMessage(hostname)];
      ghost var goal := Serve(variant, State(), "", chunks, loads);
      var buffer := "";
      var i := 0;
      while i < |chunks| && chunks[i] != ""
        invariant 0 <= i <= |chunks|
        invariant Serve(variant, State(), buffer, chunks[i..], loads) == goal
        decreases |chunks| - i
      {
        var alive;
        buffer, alive := Receive(buffer, chunks[i], loads);
        if !alive {
          break;
        }
        i := i + 1;
      }
      TearDown();
    }
  }
}
