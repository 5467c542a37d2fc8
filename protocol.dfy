/** The shared wire protocol: message type tags, the line-terminated JSON
    envelope, the `KeyEvent` defaults and the Mac/Windows key-code tables. */
module Protocol {
  import opened Common
  import opened Json

  // ---------------------------------------------------------------------
  // Message types

  datatype MessageType =
    | Hello | Connected | Disconnect | Ping | Pong
    | Discover | Announce
    | ModeSwitch
    | MouseMove | MouseButton | MouseScroll | KeyDown | KeyUp
    | ClipboardSync | ClipboardRequest
    | ScreenInfo | ScreenLayout
    | SettingsUpdate

  /** The enum member's value, the string written into "type". */
  function Tag(t: MessageType): string {
    match t
    case Hello => "hello"
    case Connected => "connected"
    case Disconnect => "disconnect"
    case Ping => "ping"
    case Pong => "pong"
    case Discover => "discover"
    case Announce => "announce"
    case ModeSwitch => "mode_switch"
    case MouseMove => "mouse_move"
    case MouseButton => "mouse_button"
    case MouseScroll => "mouse_scroll"
    case KeyDown => "key_down"
    case KeyUp => "key_up"
    case ClipboardSync => "clipboard_sync"
    case ClipboardRequest => "clipboard_request"
    case ScreenInfo => "screen_info"
    case ScreenLayout => "screen_layout"
    case SettingsUpdate => "settings_update"
  }

  /** `MessageType(s)`: the member whose value is `s`, or None where Python
      raises ValueError. Because the tags are pairwise distinct the lookup
      recovers exactly the member that wrote the tag. */
  function FromTag(s: string): (r: Option<MessageType>)
    ensures forall t :: r == Some(t) <==> Tag(t) == s
  {
    if s == "hello" then Some(Hello)
    else if s == "connected" then Some(Connected)
    else if s == "disconnect" then Some(Disconnect)
    else if s == "ping" then Some(Ping)
    else if s == "pong" then Some(Pong)
    else if s == "discover" then Some(Discover)
    else if s == "announce" then Some(Announce)
    else if s == "mode_switch" then Some(ModeSwitch)
    else if s == "mouse_move" then Some(MouseMove)
    else if s == "mouse_button" then Some(MouseButton)
    else if s == "mouse_scroll" then Some(MouseScroll)
    else if s == "key_down" then Some(KeyDown)
    else if s == "key_up" then Some(KeyUp)
    else if s == "clipboard_sync" then Some(ClipboardSync)
    else if s == "clipboard_request" then Some(ClipboardRequest)
    else if s == "screen_info" then Some(ScreenInfo)
    else if s == "screen_layout" then Some(ScreenLayout)
    else if s == "settings_update" then Some(SettingsUpdate)
    else None
  }

  // ---------------------------------------------------------------------
  // The message envelope

  /** A protocol message: its type and its already-serialised payload
      (JNull stands for Python's None). */
  datatype Message = Message(kind: MessageType, payload: Json)

  datatype DecodeError =
    | NotJson        // json.loads raised JSONDecodeError
    | MissingType    // data["type"] raised (not an object, or no "type" key)
    | UnknownType    // MessageType(...) raised ValueError

  datatype Decoded = Ok(msg: Message) | Err(error: DecodeError)

  /** The dict `to_json` hands to `json.dumps`. */
  function Envelope(m: Message): (r: Json)
    ensures r.JObj? && r.fields.Keys == {"type", "payload"}
    ensures r.fields["type"] == JStr(Tag(m.kind)) && r.fields["payload"] == m.payload
  {
    JObj(map["type" := JStr(Tag(m.kind)), "payload" := m.payload])
  }

  /** What `from_json` does with the value `json.loads` returned: read
      "type" (which must be a known tag) and "payload" (None if absent). */
  function Open(data: Json): (r: Decoded)
    ensures r.Ok? ==> data.JObj? && "type" in data.fields
    ensures r.Ok? ==> data.fields["type"] == JStr(Tag(r.msg.kind))
    ensures r.Ok? ==> r.msg.payload == GetOr(data.fields, "payload", JNull)
    ensures r == Err(MissingType) <==> !(data.JObj? && "type" in data.fields)
  {
    match Field(data, "type")
    case None => Err(MissingType)
    case Some(tag) =>
      if !tag.JStr? then Err(UnknownType)
      else match FromTag(tag.s)
        case None => Err(UnknownType)
        case Some(t) => Ok(Message(t, GetOr(data.fields, "payload", JNull)))
  }

  /** `Message.to_json`: the envelope serialised by `dumps`, plus the
      newline that frames it on the wire. */
  function ToJson(m: Message, dumps: Json -> string): (r: string)
    ensures |r| > 0 && r[|r| - 1] == '\n'
    ensures r[..|r| - 1] == dumps(Envelope(m))
  {
    dumps(Envelope(m)) + "\n"
  }

  /** `Message.from_json`: strip the line, parse it with `loads`, open it. */
  function FromJson(line: string, loads: string -> Option<Json>): (r: Decoded)
    ensures loads(Strip(line)).None? ==> r == Err(NotJson)
    ensures loads(Strip(line)).Some? ==> r == Open(loads(Strip(line)).value)
  {
    match loads(Strip(line))
    case None => Err(NotJson)
    case Some(data) => Open(data)
  }

  /** The decoded envelope gives back the message that was encoded: the
      type through its distinct tag, the payload unchanged. */
  lemma OpenEnvelope(m: Message)
    ensures Open(Envelope(m)) == Ok(m)
  {
    assert FromTag(Tag(m.kind)) == Some(m.kind);
  }

  /** Round trip over the wire, for any JSON library whose `loads` reads
      back what its `dumps` wrote for this envelope. */
  lemma WireRoundTrip(m: Message, dumps: Json -> string, loads: string -> Option<Json>)
    requires loads(Strip(ToJson(m, dumps))) == Some(Envelope(m))
    ensures FromJson(ToJson(m, dumps), loads) == Ok(m)
  {
    OpenEnvelope(m);
  }

  /** A well-formed envelope whose tag is not one of the eighteen raises
      instead of falling back to some default type. */
  lemma UnknownTagRejected(tag: string, payload: Json)
    requires forall t :: Tag(t) != tag
    ensures Open(JObj(map["type" := JStr(tag), "payload" := payload])) == Err(UnknownType)
  {
  }

  // ---------------------------------------------------------------------
  // Key events

  datatype KeyEvent = KeyEvent(keyCode: int, action: string, modifiers: map<string, bool>)

  /** `KeyEvent(key_code, action, modifiers)` including `__post_init__`:
      without modifiers, all four start released. */
  function NewKeyEvent(keyCode: int, action: string, modifiers: Option<map<string, bool>>): (e: KeyEvent)
    ensures e.keyCode == keyCode && e.action == action
    ensures modifiers.Some? ==> e.modifiers == modifiers.value
    ensures modifiers.None? ==> e.modifiers.Keys == {"shift", "ctrl", "alt", "meta"}
    ensures modifiers.None? ==> forall k :: k in e.modifiers ==> !e.modifiers[k]
  {
    match modifiers
    case Some(m) => KeyEvent(keyCode, action, m)
    case None => KeyEvent(keyCode, action, map["shift" := false, "ctrl" := false, "alt" := false, "meta" := false])
  }

  // ---------------------------------------------------------------------
  // Key-code translation

  /** `KEY_MAP_MAC_TO_WIN`: macOS virtual key codes to Windows VK codes. */
  const MacToWin: map<int, int> := map[
    55 := 91, 56 := 16, 58 := 18, 59 := 17,
    123 := 37, 124 := 39, 125 := 40, 126 := 38,
    122 := 112, 120 := 113, 99 := 114, 118 := 115, 96 := 116, 97 := 117,
    98 := 118, 100 := 119, 101 := 120, 109 := 121, 103 := 122, 111 := 123,
    36 := 13, 48 := 9, 51 := 8, 53 := 27, 49 := 32, 117 := 46]

  ghost predicate Injective(m: map<int, int>) {
    forall a, b :: a in m && b in m && m[a] == m[b] ==> a == b
  }

  /** `{v: k for k, v in m.items()}` for a table whose values are distinct. */
  function Invert(m: map<int, int>): (r: map<int, int>)
    requires Injective(m)
    ensures r.Keys == m.Values
    ensures forall k :: k in m ==> r[m[k]] == k
    ensures forall v :: v in r ==> r[v] in m && m[r[v]] == v
  {
    map k | k in m :: m[k] := k
  }

  /** No two Mac keys share a Windows code. */
  lemma TableInjective()
    ensures Injective(MacToWin)
  {
  }

  /** `KEY_MAP_WIN_TO_MAC`. */
  const WinToMac: map<int, int> := (TableInjective(); Invert(MacToWin))

  /** `translate_key(key_code, from_platform, to_platform)`. */
  function TranslateKey(code: int, from: string, to: string): (r: int)
    ensures from == to ==> r == code
    ensures from == "mac" && to == "windows" && code in MacToWin ==> r == MacToWin[code]
    ensures from == "windows" && to == "mac" && code in WinToMac ==> r == WinToMac[code]
    ensures r != code ==>
      (from == "mac" && to == "windows" && code in MacToWin) ||
      (from == "windows" && to == "mac" && code in WinToMac)
  {
    if from == to then code
    else if from == "mac" && to == "windows" then
      if code in MacToWin then MacToWin[code] else code
    else if from == "windows" && to == "mac" then
      if code in WinToMac then WinToMac[code] else code
    else code
  }

  /** Return (36) becomes Enter (13) and Cmd (55) becomes the Windows key (91). */
  lemma TranslateExamples()
    ensures TranslateKey(36, "mac", "windows") == 13
    ensures TranslateKey(55, "mac", "windows") == 91
    ensures TranslateKey(13, "windows", "mac") == 36
  {
  }

  /** Every table key survives mac -> windows -> mac, and every Windows code
      in the inverse survives windows -> mac -> windows. */
  lemma TranslateRoundTrip(code: int)
    ensures code in MacToWin ==>
      TranslateKey(TranslateKey(code, "mac", "windows"), "windows", "mac") == code
    ensures code in WinToMac ==>
      TranslateKey(TranslateKey(code, "windows", "mac"), "mac", "windows") == code
  {
  }

  /** The round trip is not total: Mac code 13 is unmapped, passes through
      as 13, and 13 is Enter on the Windows side, which maps back to 36. */
  lemma UnmappedCodeDoesNotRoundTrip()
    ensures 13 !in MacToWin
    ensures TranslateKey(TranslateKey(13, "mac", "windows"), "windows", "mac") == 36
  {
    assert MacToWin[36] == 13;
    assert WinToMac[13] == 36;
  }
}
