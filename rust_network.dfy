/** The message layer of the Rust app, RustApp/src-tauri/src/network.rs:
    the `Message` struct with its constructors, the dispatch of one decoded
    message in `handle_message`, and the read loop of `handle_client`.

    serde is not modelled: `parse` stands for `serde_json::from_str` (None
    where it fails) and messages are kept as values. The calls into the
    input and clipboard modules and the writes to the stream are recorded
    as `Action`s, in order. */
module RustNetwork {
  import opened Common

  /** `Message`: the type tag and the optional fields, each absent (None)
      unless a constructor or the decoder sets it. */
  datatype Message = Message(
    msgType: string,
    x: Option<int>,
    y: Option<int>,
    button: Option<string>,
    action: Option<string>,
    keyCode: Option<int>,
    text: Option<string>,
    name: Option<string>,
    version: Option<string>)

  /** The names of the fields that are present. */
  function Present(m: Message): set<string> {
    (if m.x.Some? then {"x"} else {}) + (if m.y.Some? then {"y"} else {})
    + (if m.button.Some? then {"button"} else {}) + (if m.action.Some? then {"action"} else {})
    + (if m.keyCode.Some? then {"key_code"} else {}) + (if m.text.Some? then {"text"} else {})
    + (if m.name.Some? then {"name"} else {}) + (if m.version.Some? then {"version"} else {})
  }

  function Bare(tag: string): Message {
    Message(tag, None, None, None, None, None, None, None, None)
  }

  // -----------------------------------------------------------------------
  // Constructors: each sets its tag and exactly its own fields

  function Hello(name: string): (r: Message)
    ensures r.msgType == "hello" && Present(r) == {"name", "version"}
    ensures r.name == Some(name) && r.version == Some("1.0")
  {
    Bare("hello").(name := Some(name), version := Some("1.0"))
  }

  function MouseMove(x: int, y: int): (r: Message)
    ensures r.msgType == "mouse_move" && Present(r) == {"x", "y"}
    ensures r.x == Some(x) && r.y == Some(y)
  {
    Bare("mouse_move").(x := Some(x), y := Some(y))
  }

  function MouseClick(button: string, action: string): (r: Message)
    ensures r.msgType == "mouse_click" && Present(r) == {"button", "action"}
    ensures r.button == Some(button) && r.action == Some(action)
  {
    Bare("mouse_click").(button := Some(button), action := Some(action))
  }

  function KeyEvent(keyCode: nat, action: string): (r: Message)
    ensures r.msgType == "key_event" && Present(r) == {"key_code", "action"}
    ensures r.keyCode == Some(keyCode) && r.action == Some(action)
  {
    Bare("key_event").(keyCode := Some(keyCode), action := Some(action))
  }

  function Clipboard(text: string): (r: Message)
    ensures r.msgType == "clipboard" && Present(r) == {"text"}
    ensures r.text == Some(text)
  {
    Bare("clipboard").(text := Some(text))
  }

  function Ping(): (r: Message)
    ensures r.msgType == "ping" && Present(r) == {}
  {
    Bare("ping")
  }

  function Pong(): (r: Message)
    ensures r.msgType == "pong" && Present(r) == {}
  {
    Bare("pong")
  }

  // -----------------------------------------------------------------------
  // Dispatch

  /** What handling one message does: write a reply to the stream, or call
      into the input or clipboard module; `Nothing` for a message that is
      only logged or is missing a field it needs. */
  datatype Action =
    | Reply(msg: Message)
    | MoveMouse(x: int, y: int)
    | Click(button: string, action: string)
    | Key(keyCode: int, action: string)
    | SetText(text: string)
    | Nothing

  /** `handle_message(msg)`. */
  function Handle(m: Message): (a: Action)
    ensures a.Reply? <==> m.msgType == "ping"
    ensures a.Reply? ==> a.msg == Pong()
    ensures a.MoveMouse? <==> m.msgType == "mouse_move" && m.x.Some? && m.y.Some?
    ensures a.Click? <==> m.msgType == "mouse_click" && m.button.Some? && m.action.Some?
    ensures a.Key? <==> m.msgType == "key_event" && m.keyCode.Some? && m.action.Some?
    ensures a.SetText? <==> m.msgType == "clipboard" && m.text.Some?
    ensures a.MoveMouse? ==> a.x == m.x.value && a.y == m.y.value
    ensures a.Click? ==> a.button == m.button.value && a.action == m.action.value
    ensures a.Key? ==> a.keyCode == m.keyCode.value && a.action == m.action.value
    ensures a.SetText? ==> a.text == m.text.value
    ensures m.msgType !in {"ping", "mouse_move", "mouse_click", "key_event", "clipboard"} ==> a == Nothing
  {
    match m.msgType
    case "ping" => Reply(Pong())
    case "mouse_move" => if m.x.Some? && m.y.Some? then MoveMouse(m.x.value, m.y.value) else Nothing
    case "mouse_click" => if m.button.Some? && m.action.Some? then Click(m.button.value, m.action.value) else Nothing
    case "key_event" => if m.keyCode.Some? && m.action.Some? then Key(m.keyCode.value, m.action.value) else Nothing
    case "clipboard" => if m.text.Some? then SetText(m.text.value) else Nothing
    case _ => Nothing
  }

  /** A message built by a constructor is handled as what it says. */
  lemma ConstructedMessagesAct(x: int, y: int, button: string, action: string, keyCode: nat, text: string, name: string)
    ensures Handle(MouseMove(x, y)) == MoveMouse(x, y)
    ensures Handle(MouseClick(button, action)) == Click(button, action)
    ensures Handle(KeyEvent(keyCode, action)) == Key(keyCode, action)
    ensures Handle(Clipboard(text)) == SetText(text)
    ensures Handle(Ping()) == Reply(Pong())
    ensures Handle(Hello(name)) == Nothing && Handle(Pong()) == Nothing
  {
  }

  // -----------------------------------------------------------------------
  // Line splitting of `str::lines`

  /** `str::lines()`: split at each '\n', drop a '\r' just before it, and
      keep a last line that has no terminator; no lines for "". */
  function LinesOf(s: string): (r: seq<string>)
    ensures s == [] <==> r == []
    ensures forall k :: 0 <= k < |r| ==> '\n' !in r[k]
    decreases |s|
  {
    if s == [] then []
    else if '\n' in s then
      var i := FirstNewline(s);
      [DropCr(s[..i])] + LinesOf(s[i + 1..])
    else [s]
  }

  function FirstNewline(s: string): (i: nat)
    requires '\n' in s
    ensures i < |s| && s[i] == '\n' && '\n' !in s[..i]
  {
    if s[0] == '\n' then 0
    else
      var i := 1 + FirstNewline(s[1..]);
      assert s[..i] == [s[0]] + s[1..][..i - 1];
      i
  }

  function DropCr(line: string): (r: string)
    ensures r == line || (r + "\r" == line)
  {
    if line != [] && line[|line| - 1] == '\r' then line[..|line| - 1] else line
  }

  /** A text without a newline is one line, as it is. */
  lemma OneLine(s: string)
    requires s != [] && '\n' !in s
    ensures LinesOf(s) == [s]
  {
  }

  /** A line followed by its newline is that line, unless it ends in '\r'. */
  lemma TerminatedLine(s: string)
    requires s != [] && '\n' !in s && s[|s| - 1] != '\r'
    ensures LinesOf(s + "\n") == [s]
  {
    var t := s + "\n";
    NewlineAfter(s, "");
    assert t == s + "\n" + "";
    assert t[..|s|] == s;
    assert t[|s| + 1..] == [];
  }

  lemma {:induction false} NewlineAfter(line: string, tail: string)
    requires '\n' !in line
    ensures '\n' in line + "\n" + tail
    ensures FirstNewline(line + "\n" + tail) == |line|
    decreases |line|
  {
    var t := line + "\n" + tail;
    assert t[|line|] == '\n';
    if line != [] {
      assert t[0] == line[0];
      assert t[1..] == line[1..] + "\n" + tail;
      NewlineAfter(line[1..], tail);
    }
  }

  /** The lines of a text that starts with a line and its newline are that
      line, less a trailing '\r', followed by the lines of the rest. */
  lemma LinesAfterNewline(line: string, tail: string)
    requires '\n' !in line
    ensures LinesOf(line + "\n" + tail) == [DropCr(line)] + LinesOf(tail)
  {
    var t := line + "\n" + tail;
    NewlineAfter(line, tail);
    assert t[..|line|] == line;
    assert t[|line| + 1..] == tail;
  }

  /** Every line followed by its newline, in order. */
  function Terminated(lines: seq<string>): string {
    if lines == [] then [] else lines[0] + "\n" + Terminated(lines[1..])
  }

  /** For a text without '\r', writing each line back with its newline
      rebuilds the text, with a newline added when its last line had none:
      splitting loses nothing but the line terminators. */
  lemma {:induction false} LinesReassemble(s: string)
    requires '\r' !in s
    ensures Terminated(LinesOf(s)) == if s == [] || s[|s| - 1] == '\n' then s else s + "\n"
    decreases |s|
  {
    if s == [] {
    } else if '\n' in s {
      var i := FirstNewline(s);
      var line, tail := s[..i], s[i + 1..];
      assert s == line + "\n" + tail;
      assert '\r' !in line && '\r' !in tail by {
        forall c | c in line + tail ensures c != '\r' {
          assert c in s;
        }
      }
      LinesAfterNewline(line, tail);
      assert DropCr(line) == line;
      LinesReassemble(tail);
      var ls := LinesOf(s);
      assert ls[0] == line && ls[1..] == LinesOf(tail);
      if tail == [] {
        assert s[|s| - 1] == '\n';
      } else {
        assert s[|s| - 1] == tail[|tail| - 1];
      }
    } else {
      OneLine(s);
      assert s[|s| - 1] in s;
      assert Terminated([s]) == s + "\n" + Terminated([]);
    }
  }

  // -----------------------------------------------------------------------
  // The read loop

  /** The actions of the lines of one read, in order: each line that
      decodes is handled, the rest are skipped. */
  function LineActions(lines: seq<string>, parse: string -> Option<Message>): seq<Action>
    decreases |lines|
  {
    if lines == [] then []
    else
      var here := match parse(lines[0]) case None => [] case Some(m) => [Handle(m)];
      here + LineActions(lines[1..], parse)
  }

  /** The loop of `handle_client` over the reads `chunks`, until a read of
      0 bytes (the empty chunk) ends it. Nothing is carried from one read
      to the next. */
  function Serve(chunks: seq<string>, parse: string -> Option<Message>): seq<Action>
    decreases |chunks|
  {
    if chunks == [] || chunks[0] == "" then []
    else LineActions(LinesOf(chunks[0]), parse) + Serve(chunks[1..], parse)
  }

  /** `handle_client`: the hello goes out before anything is read. */
  function Session(name: string, chunks: seq<string>, parse: string -> Option<Message>): (r: seq<Action>)
    ensures |r| >= 1 && r[0] == Reply(Hello(name))
  {
    [Reply(Hello(name))] + Serve(chunks, parse)
  }

  /** A read of 0 bytes ends the session: nothing read later has any effect. */
  lemma EmptyReadEnds(name: string, later: seq<string>, parse: string -> Option<Message>)
    ensures Session(name, [""] + later, parse) == [Reply(Hello(name))]
  {
    assert ([""] + later)[0] == "";
  }

  /** Every line of every read is dispatched on its own: the effect of the
      reads is the effect of each read in turn. */
  lemma {:induction false} ReadsAreIndependent(a: seq<string>, b: seq<string>, parse: string -> Option<Message>)
    requires forall k :: 0 <= k < |a| ==> a[k] != ""
    ensures Serve(a + b, parse) == Serve(a, parse) + Serve(b, parse)
    decreases |a|
  {
    if a == [] {
      assert a + b == b;
    } else {
      assert (a + b)[0] == a[0];
      assert (a + b)[1..] == a[1..] + b;
      ReadsAreIndependent(a[1..], b, parse);
    }
  }

  /** A message whose line is cut by a read boundary is lost: if neither
      piece decodes, the two reads do nothing, while the same bytes in one
      read would have acted. */
  lemma SplitMessageIsLost(p: string, q: string, m: Message, parse: string -> Option<Message>)
    requires p != [] && q != [] && '\n' !in p && '\n' !in q && q[|q| - 1] != '\r'
    requires parse(p).None? && parse(q).None? && parse(p + q) == Some(m)
    ensures Serve([p, q + "\n"], parse) == []
    ensures Serve([p + q + "\n"], parse) == [Handle(m)]
  {
    SplitReadsDoNothing(p, q, parse);
    var pq := p + q;
    assert pq[|pq| - 1] == q[|q| - 1];
    assert '\n' !in pq by {
      forall i | 0 <= i < |pq| ensures pq[i] != '\n' {
        if i < |p| { assert pq[i] == p[i]; } else { assert pq[i] == q[i - |p|]; }
      }
    }
    OneReadActs(pq, m, parse);
  }

  lemma SplitReadsDoNothing(p: string, q: string, parse: string -> Option<Message>)
    requires p != [] && q != [] && '\n' !in p && '\n' !in q && q[|q| - 1] != '\r'
    requires parse(p).None? && parse(q).None?
    ensures Serve([p, q + "\n"], parse) == []
  {
    OneLine(p);
    TerminatedLine(q);
    ServeOne(p, [q + "\n"], parse);
    ServeOne(q + "\n", [], parse);
    assert [p, q + "\n"] == [p] + [q + "\n"];
    assert [q + "\n"] + [] == [q + "\n"];
    assert LineActions([p], parse) == [];
    assert LineActions([q], parse) == [];
  }

  lemma OneReadActs(s: string, m: Message, parse: string -> Option<Message>)
    requires s != [] && '\n' !in s && s[|s| - 1] != '\r' && parse(s) == Some(m)
    ensures Serve([s + "\n"], parse) == [Handle(m)]
  {
    TerminatedLine(s);
    ServeOne(s + "\n", [], parse);
    assert [s + "\n"] + [] == [s + "\n"];
    assert LineActions([s], parse) == [Handle(m)];
  }

  lemma ServeOne(chunk: string, later: seq<string>, parse: string -> Option<Message>)
    requires chunk != ""
    ensures Serve([chunk] + later, parse) == LineActions(LinesOf(chunk), parse) + Serve(later, parse)
    ensures Serve([], parse) == []
  {
    assert ([chunk] + later)[0] == chunk;
    assert ([chunk] + later)[1..] == later;
  }

  /** The read loop of `handle_client` after the hello, over the reads
      `chunks`; `log` is every action taken, in order. */
  method ReadLoop(chunks: seq<string>, parse: string -> Option<Message>) returns (log: seq<Action>)
    ensures log == Serve(chunks, parse)
  {
    log := [];
    var i := 0;
    while i < |chunks| && chunks[i] != ""
      invariant 0 <= i <= |chunks|
      invariant log + Serve(chunks[i..], parse) == Serve(chunks, parse)
      decreases |chunks| - i
    {
      assert chunks[i..][0] == chunks[i] && chunks[i..][1..] == chunks[i + 1..];
      var acts := ReadLines(LinesOf(chunks[i]), parse);
      log := log + acts;
      i := i + 1;
    }
    if i < |chunks| {
      assert chunks[i..][0] == "";
    } else {
      assert chunks[i..] == [];
    }
  }

  /** `for line in data.lines()`: dispatch each line that decodes. */
  method ReadLines(lines: seq<string>, parse: string -> Option<Message>) returns (acts: seq<Action>)
    ensures acts == LineActions(lines, parse)
  {
    acts := [];
    var j := 0;
    while j < |lines|
      invariant 0 <= j <= |lines|
      invariant acts + LineActions(lines[j..], parse) == LineActions(lines, parse)
      decreases |lines| - j
    {
      assert lines[j..][0] == lines[j] && lines[j..][1..] == lines[j + 1..];
      var parsed := parse(lines[j]);
      if parsed.Some? {
        acts := acts + [Handle(parsed.value)];
      }
      j := j + 1;
    }
    assert lines[j..] == [];
  }

  /** `handle_client`: greet, then read until the peer closes. */
  method HandleClient(name: string, chunks: seq<string>, parse: string -> Option<Message>) returns (log: seq<Action>)
    ensures log == Session(name, chunks, parse)
  {
    var rest := ReadLoop(chunks, parse);
    log := [Reply(Hello(name))] + rest;
  }
}
