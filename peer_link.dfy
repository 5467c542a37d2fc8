/** `NetworkManager` of MacApp/app_v2.py: the symmetric peer link of the
    second-generation app. Either side may connect or accept; each sends a
    `hello` carrying its own description, a `hello` is answered with
    `connected` and the peer's description is kept, `ping` is answered with
    `pong`, and every other message goes to the application callback.

    Sockets and threads are not modelled. `hasPeer` stands for a usable
    `peer_socket`; the chunks `recv` returned are a parameter, as is
    `json.loads` (None where it raises JSONDecodeError) and the host
    description `_get_info()`. The `on_state_change` and `on_message`
    callbacks are recorded, in order, in `notified` and `forwarded`. */
module PeerLink {
  import opened Common
  import opened Json
  import opened Framing

  datatype ConnectionState = Disconnected | Connecting | Connected | Error

  datatype Link = Link(
    state: ConnectionState,
    running: bool,
    hasPeer: bool,
    peerInfo: Option<Json>,
    sent: seq<Json>,
    notified: seq<ConnectionState>,
    forwarded: seq<(Json, Json)>)

  function Initial(): Link {
    Link(Disconnected, false, false, None, [], [], [])
  }

  function EmptyObject(): Json {
    JObj(map[])
  }

  /** `_set_state(state)`: store it and tell the application. */
  function SetState(l: Link, st: ConnectionState): (r: Link)
    ensures r.state == st && r.notified == l.notified + [st]
    ensures r == l.(state := st, notified := r.notified)
  {
    l.(state := st, notified := l.notified + [st])
  }

  /** `_send(msg)`: written only while there is a peer socket. */
  function Transmit(l: Link, msg: Json): (r: Link)
    ensures r.sent == if l.hasPeer then l.sent + [msg] else l.sent
    ensures r == l.(sent := r.sent)
  {
    if l.hasPeer then l.(sent := l.sent + [msg]) else l
  }

  /** Several `_send` calls in a row. */
  function TransmitAll(l: Link, msgs: seq<Json>): (r: Link)
    ensures r.sent == if l.hasPeer then l.sent + msgs else l.sent
    ensures r == l.(sent := r.sent)
  {
    if l.hasPeer then l.(sent := l.sent + msgs) else l
  }

  lemma TransmitTwice(l: Link, a: seq<Json>, b: seq<Json>)
    ensures TransmitAll(TransmitAll(l, a), b) == TransmitAll(l, a + b)
  {
  }

  lemma TransmitOne(l: Link, msg: Json)
    ensures Transmit(l, msg) == TransmitAll(l, [msg])
  {
  }

  /** The message `send(msg_type, payload)` writes: a missing or empty
      payload (`payload or {}`) becomes the empty object. */
  function Outgoing(kind: string, payload: Json): (r: Json)
    ensures r.JObj? && r.fields.Keys == {"type", "payload"}
    ensures r.fields["type"] == JStr(kind)
    ensures Truthy(payload) ==> r.fields["payload"] == payload
    ensures !Truthy(payload) ==> r.fields["payload"] == EmptyObject()
  {
    JObj(map["type" := JStr(kind), "payload" := if Truthy(payload) then payload else EmptyObject()])
  }

  function HelloMessage(info: Json): Json {
    JObj(map["type" := JStr("hello"), "payload" := info])
  }

  function ConnectedMessage(info: Json): Json {
    JObj(map["type" := JStr("connected"), "payload" := info])
  }

  function Pong(): Json {
    JObj(map["type" := JStr("pong")])
  }

  /** The effect of one line, and whether an exception escaped
      `_handle_message` (which ends the receive loop). */
  datatype Outcome = Outcome(link: Link, raised: bool)

  /** `_handle_message(line)`. Only JSONDecodeError is caught: a decoded
      value that is not an object makes `msg.get` raise AttributeError,
      which escapes to the receive loop. */
  function Handle(l: Link, line: string, loads: string -> Option<Json>, info: Json): (r: Outcome)
    ensures r.raised ==> r.link == l
    ensures r.link.running == l.running && r.link.hasPeer == l.hasPeer
    ensures r.link.sent in {l.sent, Transmit(l, ConnectedMessage(info)).sent, Transmit(l, Pong()).sent}
  {
    match loads(line)
    case None => Outcome(l, false)
    case Some(msg) =>
      if !msg.JObj? then Outcome(l, true)
      else
        var kind := GetOr(msg.fields, "type", JNull);
        var payload := GetOr(msg.fields, "payload", EmptyObject());
        if kind == JStr("hello") then
          Outcome(SetState(Transmit(l.(peerInfo := Some(payload)), ConnectedMessage(info)), Connected), false)
        else if kind == JStr("connected") then
          Outcome(SetState(l.(peerInfo := Some(payload)), Connected), false)
        else if kind == JStr("ping") then
          Outcome(Transmit(l, Pong()), false)
        else
          Outcome(l.(forwarded := l.forwarded + [(kind, payload)]), false)
  }

  /** A line `line.strip()` leaves empty is skipped. */
  predicate Blank(line: string) {
    Strip(line) == ""
  }

  /** The lines taken out of the buffer, handled in order until one raises. */
  function Drain(l: Link, lines: seq<string>, loads: string -> Option<Json>, info: Json): Outcome
    decreases |lines|
  {
    if lines == [] then Outcome(l, false)
    else if Blank(lines[0]) then Drain(l, lines[1..], loads, info)
    else
      var o := Handle(l, lines[0], loads, info);
      if o.raised then o else Drain(o.link, lines[1..], loads, info)
  }

  /** The body of `_receive_loop` over the chunks `recv` returned, from
      `buffer`; an empty chunk is the peer closing the connection. The
      result is the state the loop exits with. */
  function Listen(l: Link, buffer: string, chunks: seq<string>, loads: string -> Option<Json>, info: Json): Link
    decreases |chunks|
  {
    if chunks == [] || chunks[0] == "" then l
    else
      var o := Drain(l, Lines(buffer + chunks[0]), loads, info);
      if o.raised then o.link
      else Listen(o.link, Rest(buffer + chunks[0]), chunks[1..], loads, info)
  }

  /** After the receive loop: DISCONNECTED and no peer socket. */
  function Finish(l: Link): (r: Link)
    ensures r.state == Disconnected && !r.hasPeer
    ensures r.notified == l.notified + [Disconnected]
    ensures r.sent == l.sent && r.forwarded == l.forwarded && r.peerInfo == l.peerInfo
  {
    SetState(l, Disconnected).(hasPeer := false)
  }

  /** `connect_to(host)`: `reachable` says whether the socket connected. */
  function Connect(l: Link, reachable: bool, info: Json): (r: (Link, bool))
    ensures r.1 == reachable
    ensures !reachable ==> r.0 == SetState(SetState(l, Connecting), Error)
    ensures reachable ==>
      r.0.hasPeer && r.0.running && r.0.state == Connecting && r.0.sent == l.sent + [HelloMessage(info)]
  {
    var c := SetState(l, Connecting);
    if !reachable then (SetState(c, Error), false)
    else (Transmit(c.(hasPeer := true, running := true), HelloMessage(info)), true)
  }

  /** One accepted connection in `_accept_connections`: the peer's address
      becomes `peer_info` until its hello replaces it. */
  function Accept(l: Link, ip: string, port: int, info: Json): (r: Link)
    ensures r.hasPeer && r.state == l.state
    ensures r.peerInfo == Some(JObj(map["ip" := JStr(ip), "port" := JInt(port)]))
    ensures r.sent == l.sent + [HelloMessage(info)]
  {
    Transmit(l.(hasPeer := true, peerInfo := Some(JObj(map["ip" := JStr(ip), "port" := JInt(port)]))), HelloMessage(info))
  }

  /** `disconnect()`: stop, close the sockets and report DISCONNECTED. A
      closed socket can no longer send, so it counts as no peer here. */
  function Disconnect(l: Link): (r: Link)
    ensures !r.running && !r.hasPeer && r.state == Disconnected
    ensures r.notified == l.notified + [Disconnected]
    ensures r.sent == l.sent
  {
    SetState(l, Disconnected).(running := false, hasPeer := false)
  }

  // -----------------------------------------------------------------------
  // Properties of one message

  /** A hello is answered with exactly one `connected` carrying this host's
      description, its payload (default {}) becomes `peer_info`, and the
      link is CONNECTED, reported once. */
  lemma HelloConnects(l: Link, line: string, loads: string -> Option<Json>, info: Json, msg: map<string, Json>)
    requires l.hasPeer
    requires loads(line) == Some(JObj(msg)) && GetOr(msg, "type", JNull) == JStr("hello")
    ensures var o := Handle(l, line, loads, info);
      && !o.raised && o.link.state == Connected
      && o.link.sent == l.sent + [ConnectedMessage(info)]
      && o.link.peerInfo == Some(GetOr(msg, "payload", EmptyObject()))
      && o.link.notified == l.notified + [Connected]
      && o.link.forwarded == l.forwarded
  {
  }

  /** The answer to our own hello: connected, with nothing sent back. */
  lemma ConnectedAcknowledges(l: Link, line: string, loads: string -> Option<Json>, info: Json, msg: map<string, Json>)
    requires loads(line) == Some(JObj(msg)) && GetOr(msg, "type", JNull) == JStr("connected")
    ensures var o := Handle(l, line, loads, info);
      && !o.raised && o.link.state == Connected && o.link.sent == l.sent
      && o.link.peerInfo == Some(GetOr(msg, "payload", EmptyObject()))
  {
  }

  /** A ping is answered with exactly one pong and changes nothing else. */
  lemma PingPongs(l: Link, line: string, loads: string -> Option<Json>, info: Json, msg: map<string, Json>)
    requires l.hasPeer
    requires loads(line) == Some(JObj(msg)) && GetOr(msg, "type", JNull) == JStr("ping")
    ensures Handle(l, line, loads, info) == Outcome(l.(sent := l.sent + [Pong()]), false)
  {
  }

  /** Every other message, with or without a type, is handed to the
      application once, with its payload defaulting to {}; nothing is sent
      and the connection state is untouched. */
  lemma OthersAreForwarded(l: Link, line: string, loads: string -> Option<Json>, info: Json, msg: map<string, Json>)
    requires loads(line) == Some(JObj(msg))
    requires GetOr(msg, "type", JNull) !in {JStr("hello"), JStr("connected"), JStr("ping")}
    ensures Handle(l, line, loads, info) ==
      Outcome(l.(forwarded := l.forwarded + [(GetOr(msg, "type", JNull), GetOr(msg, "payload", EmptyObject()))]), false)
  {
  }

  /** A line that is not JSON is reported and dropped; JSON that is not an
      object ends the receive loop. Neither changes anything. */
  lemma BadLines(l: Link, line: string, loads: string -> Option<Json>, info: Json)
    requires loads(line).None? || !loads(line).value.JObj?
    ensures Handle(l, line, loads, info).link == l
    ensures Handle(l, line, loads, info).raised <==> loads(line).Some?
  {
  }

  // -----------------------------------------------------------------------
  // Properties of the receive loop

  /** Blank lines are skipped without a trace. */
  lemma {:induction false} BlankLinesAreSkipped(l: Link, lines: seq<string>, loads: string -> Option<Json>, info: Json)
    requires forall k :: 0 <= k < |lines| ==> Blank(lines[k])
    ensures Drain(l, lines, loads, info) == Outcome(l, false)
    decreases |lines|
  {
    if lines != [] {
      BlankLinesAreSkipped(l, lines[1..], loads, info);
    }
  }

  /** Handling `xs + ys` is handling `xs` and then, unless a line raised,
      `ys` from where it left off: lines are handled once each, in order. */
  lemma {:induction false} DrainAppend(l: Link, xs: seq<string>, ys: seq<string>, loads: string -> Option<Json>, info: Json)
    ensures var o := Drain(l, xs, loads, info);
      Drain(l, xs + ys, loads, info) == if o.raised then o else Drain(o.link, ys, loads, info)
    decreases |xs|
  {
    if xs == [] {
      assert xs + ys == ys;
    } else {
      assert (xs + ys)[0] == xs[0];
      assert (xs + ys)[1..] == xs[1..] + ys;
      if Blank(xs[0]) {
        DrainAppend(l, xs[1..], ys, loads, info);
      } else {
        var o := Handle(l, xs[0], loads, info);
        if !o.raised {
          DrainAppend(o.link, xs[1..], ys, loads, info);
        }
      }
    }
  }

  /** While the loop runs, only `connected` and `pong` replies are written,
      and what was written before is kept. */
  lemma {:induction false} DrainOnlyReplies(l: Link, lines: seq<string>, loads: string -> Option<Json>, info: Json)
    ensures var r := Drain(l, lines, loads, info).link;
      && |l.sent| <= |r.sent| && r.sent[..|l.sent|] == l.sent
      && forall k :: |l.sent| <= k < |r.sent| ==> r.sent[k] in {ConnectedMessage(info), Pong()}
    decreases |lines|
  {
    if lines != [] {
      if Blank(lines[0]) {
        DrainOnlyReplies(l, lines[1..], loads, info);
      } else {
        var o := Handle(l, lines[0], loads, info);
        if !o.raised {
          DrainOnlyReplies(o.link, lines[1..], loads, info);
          var r := Drain(o.link, lines[1..], loads, info).link;
          assert Drain(l, lines, loads, info).link == r;
          assert o.link.sent[..|l.sent|] == l.sent;
          assert r.sent[..|l.sent|] == l.sent by {
            assert r.sent[..|l.sent|] == r.sent[..|o.link.sent|][..|l.sent|];
          }
          forall k | |l.sent| <= k < |r.sent|
            ensures r.sent[k] in {ConnectedMessage(info), Pong()}
          {
            if k < |o.link.sent| {
              assert r.sent[k] == o.link.sent[k];
            }
          }
        }
      }
    }
  }

  /** The receive loop seen from chunk `i`: it stops at the end or at an
      empty chunk, and otherwise handles chunk `i` and goes on from `i + 1`. */
  lemma ListenAt(l: Link, buffer: string, chunks: seq<string>, i: nat, loads: string -> Option<Json>, info: Json)
    requires i <= |chunks|
    ensures i == |chunks| || chunks[i] == "" ==> Listen(l, buffer, chunks[i..], loads, info) == l
    ensures i < |chunks| && chunks[i] != "" ==>
      var o := Drain(l, Lines(buffer + chunks[i]), loads, info);
      Listen(l, buffer, chunks[i..], loads, info) ==
        if o.raised then o.link else Listen(o.link, Rest(buffer + chunks[i]), chunks[i + 1..], loads, info)
  {
    if i < |chunks| {
      assert chunks[i..][0] == chunks[i];
      assert chunks[i..][1..] == chunks[i + 1..];
    }
  }

  lemma ListenCons(l: Link, buffer: string, chunk: string, later: seq<string>, loads: string -> Option<Json>, info: Json)
    requires chunk != []
    ensures var o := Drain(l, Lines(buffer + chunk), loads, info);
      Listen(l, buffer, [chunk] + later, loads, info) ==
        if o.raised then o.link else Listen(o.link, Rest(buffer + chunk), later, loads, info)
  {
    assert ([chunk] + later)[0] == chunk;
    assert ([chunk] + later)[1..] == later;
  }

  /** The un-terminated remainder is carried into the next read: receiving
      the decoded texts `a` and then `b` ends as receiving `a + b` at once
      (a read that cuts a UTF-8 character is not modelled). */
  lemma SplitRead(l: Link, buffer: string, a: string, b: string, later: seq<string>, loads: string -> Option<Json>, info: Json)
    requires a != [] && b != []
    ensures Listen(l, buffer, [a, b] + later, loads, info) == Listen(l, buffer, [a + b] + later, loads, info)
  {
    assert [a, b] + later == [a] + ([b] + later);
    ListenCons(l, buffer, a, [b] + later, loads, info);
    ListenCons(l, buffer, a + b, later, loads, info);
    var o1 := Drain(l, Lines(buffer + a), loads, info);
    ListenCons(o1.link, Rest(buffer + a), b, later, loads, info);
    Assoc(buffer, a, b);
    ChunkBoundary(buffer + a, b);
    DrainAppend(l, Lines(buffer + a), Lines(Rest(buffer + a) + b), loads, info);
  }

  lemma DrainFirstLine(l: Link, buffer: string, loads: string -> Option<Json>, info: Json)
    requires '\n' in buffer
    ensures var line := SplitFirst(buffer).0;
      var o := if Blank(line) then Outcome(l, false) else Handle(l, line, loads, info);
      Drain(l, Lines(buffer), loads, info) ==
        if o.raised then o else Drain(o.link, Lines(SplitFirst(buffer).1), loads, info)
  {
    var lines := Lines(buffer);
    assert lines == [SplitFirst(buffer).0] + Lines(SplitFirst(buffer).1);
    assert lines[1..] == Lines(SplitFirst(buffer).1);
  }

  // -----------------------------------------------------------------------
  // The object

  class NetworkManager {
    var state: ConnectionState
    var running: bool
    var hasPeer: bool
    var peerInfo: Option<Json>
    var sent: seq<Json>
    var notified: seq<ConnectionState>
    var forwarded: seq<(Json, Json)>

    function State(): Link
      reads this
    {
      Link(state, running, hasPeer, peerInfo, sent, notified, forwarded)
    }

    constructor()
      ensures State() == Initial()
    {
      state, running, hasPeer, peerInfo := Disconnected, false, false, None;
      sent, notified, forwarded := [], [], [];
    }

    method SetLinkState(st: ConnectionState)
      modifies this
      ensures State() == SetState(old(State()), st)
    {
      state := st;
      notified := notified + [st];
    }

    /** `_send(msg)`. */
    method SendRaw(msg: Json)
      modifies this
      ensures State() == Transmit(old(State()), msg)
    {
      if hasPeer {
        sent := sent + [msg];
      }
    }

    /** `send(msg_type, payload)`. */
    method Send(kind: string, payload: Json)
      modifies this
      ensures State() == Transmit(old(State()), Outgoing(kind, payload))
    {
      var body := if Truthy(payload) then payload else EmptyObject();
      SendRaw(JObj(map["type" := JStr(kind), "payload" := body]));
    }

    method ConnectTo(reachable: bool, info: Json) returns (ok: bool)
      modifies this
      ensures (State(), ok) == Connect(old(State()), reachable, info)
    {
      SetLinkState(Connecting);
      if !reachable {
        SetLinkState(Error);
        return false;
      }
      hasPeer := true;
      running := true;
      SendRaw(HelloMessage(info));
      ok := true;
    }

    method AcceptOne(ip: string, port: int, info: Json)
      modifies this
      ensures State() == Accept(old(State()), ip, port, info)
    {
      hasPeer := true;
      peerInfo := Some(JObj(map["ip" := JStr(ip), "port" := JInt(port)]));
      SendRaw(HelloMessage(info));
    }

    method HandleMessage(line: string, loads: string -> Option<Json>, info: Json) returns (raised: bool)
      modifies this
      ensures var o := Handle(old(State()), line, loads, info);
        State() == o.link && raised == o.raised
    {
      raised := false;
      var parsed := loads(line);
      if parsed.None? {
        return;
      }
      var msg := parsed.value;
      if !msg.JObj? {
        return true;
      }
      var kind := GetOr(msg.fields, "type", JNull);
      var payload := GetOr(msg.fields, "payload", EmptyObject());
      if kind == JStr("hello") {
        peerInfo := Some(payload);
        SendRaw(ConnectedMessage(info));
        SetLinkState(Connected);
      } else if kind == JStr("connected") {
        peerInfo := Some(payload);
        SetLinkState(Connected);
      } else if kind == JStr("ping") {
        SendRaw(Pong());
      } else {
        forwarded := forwarded + [(kind, payload)];
      }
    }

    /** One read of `_receive_loop`: append the chunk and handle every
        complete line. `alive` is false when a line raised; otherwise
        `rest` is the new buffer. */
    method Receive(buffer: string, chunk: string, loads: string -> Option<Json>, info: Json)
      returns (rest: string, alive: bool)
      modifies this
      ensures var o := Drain(old(State()), Lines(buffer + chunk), loads, info);
        State() == o.link && alive == !o.raised
      ensures alive ==> rest == Rest(buffer + chunk)
    {
      rest := buffer + chunk;
      ghost var goal := Drain(State(), Lines(rest), loads, info);
      while '\n' in rest
        invariant Drain(State(), Lines(rest), loads, info) == goal
        invariant Rest(rest) == Rest(buffer + chunk)
        decreases |rest|
      {
        var split := SplitFirst(rest);
        DrainFirstLine(State(), rest, loads, info);
        assert Rest(rest) == Rest(split.1);
        rest := split.1;
        if Strip(split.0) != "" {
          var raised := HandleMessage(split.0, loads, info);
          if raised {
            return rest, false;
          }
        }
      }
      assert Lines(rest) == [] && Rest(rest) == rest;
      alive := true;
    }

    /** `_receive_loop` from its start until the peer closes, a line raises
        or the chunks run out; then DISCONNECTED and no peer socket. */
    method ReceiveLoop(chunks: seq<string>, loads: string -> Option<Json>, info: Json)
      modifies this
      ensures old(running && hasPeer) ==> State() == Finish(Listen(old(State()), "", chunks, loads, info))
      ensures !old(running && hasPeer) ==> State() == Finish(old(State()))
    {
      if running && hasPeer {
        Serve(chunks, loads, info);
      }
      SetLinkState(Disconnected);
      hasPeer := false;
    }

    /** The `while` of `_receive_loop`. */
    method Serve(chunks: seq<string>, loads: string -> Option<Json>, info: Json)
      modifies this
      ensures State() == Listen(old(State()), "", chunks, loads, info)
    {
      ghost var goal := Listen(State(), "", chunks, loads, info);
      var buffer := "";
      var i := 0;
      while i < |chunks| && chunks[i] != ""
        invariant 0 <= i <= |chunks|
        invariant Listen(State(), buffer, chunks[i..], loads, info) == goal
        decreases |chunks| - i
      {
        ListenAt(State(), buffer, chunks, i, loads, info);
        var alive;
        buffer, alive := Receive(buffer, chunks[i], loads, info);
        if !alive {
          return;
        }
        i := i + 1;
      }
      ListenAt(State(), buffer, chunks, i, loads, info);
    }

    method Close()
      modifies this
      ensures State() == Disconnect(old(State()))
    {
      running := false;
      hasPeer := false;
      SetLinkState(Disconnected);
    }
  }
}
