/** Keyboard forwarding on the Mac side: the pynput key to Windows virtual
    key code tables of every capture variant, the Ctrl/Alt tracking, and
    the Ctrl+Alt+M escape hotkey that hands control back to the Mac. */
module Keyboard {
  import opened Common

  /** A pynput key: a member of `keyboard.Key` (named as in pynput), a
      `KeyCode` carrying a character, or a `KeyCode` whose `char` is None. */
  datatype Key = Special(name: string) | Char(c: char) | NoChar

  // -----------------------------------------------------------------------
  // The `special` tables

  /** `_key_to_vk` of macwincontrol_gui.py and macwincontrol.py. */
  const FullTable: map<string, int> := map[
    "enter" := 13, "tab" := 9, "backspace" := 8, "esc" := 27, "space" := 32,
    "shift" := 16, "shift_l" := 16, "shift_r" := 16,
    "ctrl" := 17, "ctrl_l" := 17, "ctrl_r" := 17,
    "alt" := 18, "alt_l" := 18, "alt_r" := 18,
    "cmd" := 91, "cmd_l" := 91, "cmd_r" := 92,
    "caps_lock" := 20,
    "left" := 37, "up" := 38, "right" := 39, "down" := 40,
    "delete" := 46, "home" := 36, "end" := 35,
    "page_up" := 33, "page_down" := 34,
    "f1" := 112, "f2" := 113, "f3" := 114, "f4" := 115,
    "f5" := 116, "f6" := 117, "f7" := 118, "f8" := 119,
    "f9" := 120, "f10" := 121, "f11" := 122, "f12" := 123]

  /** `_key_to_vk` of MacWinControlApp.py: base modifiers only, F1-F8. */
  const CompactTable: map<string, int> := map[
    "enter" := 13, "tab" := 9, "backspace" := 8, "esc" := 27, "space" := 32,
    "shift" := 16, "ctrl" := 17, "alt" := 18, "cmd" := 91,
    "left" := 37, "up" := 38, "right" := 39, "down" := 40,
    "delete" := 46, "home" := 36, "end" := 35,
    "f1" := 112, "f2" := 113, "f3" := 114, "f4" := 115,
    "f5" := 116, "f6" := 117, "f7" := 118, "f8" := 119]

  /** `_to_vk` of gui_app.py: base modifiers only, no function keys. */
  const SmallTable: map<string, int> := map[
    "enter" := 13, "tab" := 9, "backspace" := 8, "esc" := 27, "space" := 32,
    "shift" := 16, "ctrl" := 17, "alt" := 18, "cmd" := 91,
    "left" := 37, "up" := 38, "right" := 39, "down" := 40,
    "delete" := 46, "home" := 36, "end" := 35]

  /** `_vk` of bridge.py: both Command keys map to 91. */
  const BridgeTable: map<string, int> := map[
    "enter" := 13, "tab" := 9, "backspace" := 8, "esc" := 27, "space" := 32,
    "shift" := 16, "shift_l" := 16, "shift_r" := 16,
    "ctrl" := 17, "ctrl_l" := 17, "ctrl_r" := 17,
    "alt" := 18, "alt_l" := 18, "alt_r" := 18,
    "cmd" := 91, "cmd_l" := 91, "cmd_r" := 91,
    "left" := 37, "up" := 38, "right" := 39, "down" := 40,
    "delete" := 46, "home" := 36, "end" := 35,
    "page_up" := 33, "page_down" := 34,
    "caps_lock" := 20]

  /** `_to_vk` of simple_server.py: left/right modifiers, one Command key. */
  const SimpleTable: map<string, int> := map[
    "enter" := 13, "tab" := 9, "backspace" := 8, "esc" := 27, "space" := 32,
    "shift" := 16, "shift_l" := 16, "shift_r" := 16,
    "ctrl" := 17, "ctrl_l" := 17, "ctrl_r" := 17,
    "alt" := 18, "alt_l" := 18, "alt_r" := 18,
    "cmd" := 91,
    "left" := 37, "up" := 38, "right" := 39, "down" := 40,
    "delete" := 46, "home" := 36, "end" := 35]

  /** `str.upper()` on one character, for ASCII letters. */
  function ToUpper(c: char): char {
    if 'a' <= c <= 'z' then (c as int - 32) as char else c
  }

  /** The key-to-vk conversion shared by every variant: a table entry, else
      the code point of the upper-cased character, else 0. */
  function Vk(table: map<string, int>, k: Key): (r: int)
    ensures k.Special? && k.name !in table ==> r == 0
    ensures k.NoChar? ==> r == 0
    ensures k.Char? ==> r == ToUpper(k.c) as int
  {
    match k
    case Special(name) => if name in table then table[name] else 0
    case Char(c) => ToUpper(c) as int
    case NoChar => 0
  }

  /** A letter is sent as the code of its capital, whichever case was
      typed, and that code is the Windows VK_A..VK_Z range. */
  lemma LetterCodes(table: map<string, int>, c: char)
    requires 'a' <= c <= 'z'
    ensures Vk(table, Char(c)) == Vk(table, Char((c as int - 32) as char))
    ensures 65 <= Vk(table, Char(c)) <= 90
  {
  }

  /** Every entry of every table is non-zero, so a conversion yields 0
      exactly for an unknown named key, a `KeyCode` without character, or
      the NUL character; a non-zero check therefore drops only those. */
  lemma VkZeroMeans(k: Key)
    ensures Vk(FullTable, k) == 0 <==>
      (k.Special? && k.name !in FullTable) || k.NoChar? || (k.Char? && k.c == '\0')
    ensures Vk(SmallTable, k) == 0 <==>
      (k.Special? && k.name !in SmallTable) || k.NoChar? || (k.Char? && k.c == '\0')
    ensures Vk(BridgeTable, k) == 0 <==>
      (k.Special? && k.name !in BridgeTable) || k.NoChar? || (k.Char? && k.c == '\0')
    ensures Vk(SimpleTable, k) == 0 <==>
      (k.Special? && k.name !in SimpleTable) || k.NoChar? || (k.Char? && k.c == '\0')
  {
    FullCodesPositive();
    SmallCodesPositive();
    BridgeCodesPositive();
    SimpleCodesPositive();
  }

  /** No table holds the code 0. */
  lemma FullCodesPositive()
    ensures forall n :: n in FullTable ==> FullTable[n] > 0
  {
  }

  lemma SmallCodesPositive()
    ensures forall n :: n in SmallTable ==> SmallTable[n] > 0
  {
  }

  lemma BridgeCodesPositive()
    ensures forall n :: n in BridgeTable ==> BridgeTable[n] > 0
  {
  }

  lemma SimpleCodesPositive()
    ensures forall n :: n in SimpleTable ==> SimpleTable[n] > 0
  {
  }

  /** The MacWinControlApp.py table is a restriction of the full one, and
      the gui_app.py table a restriction of that: where two of these
      variants both know a key they send the same code... */
  lemma CompactAgrees(name: string)
    requires name in CompactTable
    ensures name in FullTable && CompactTable[name] == FullTable[name]
  {
    if name in ["enter", "tab"] {
      EntryKeysAgree(name);
    } else if name in ["backspace", "esc", "space"] {
      EditingKeysAgree(name);
    } else if name in ["shift", "ctrl", "alt", "cmd"] {
      ModifierKeysAgree(name);
    } else if name in ["left", "up", "right", "down", "delete", "home", "end"] {
      CursorKeysAgree(name);
    } else {
      FunctionKeysAgree(name);
    }
  }

  /** `CompactAgrees` a few keys at a time: each lookup in the literal
      table is a case analysis over its entries. */
  lemma EntryKeysAgree(name: string)
    requires name in ["enter", "tab"]
    ensures name in CompactTable && name in FullTable && CompactTable[name] == FullTable[name]
  {
  }

  lemma EditingKeysAgree(name: string)
    requires name in ["backspace", "esc", "space"]
    ensures name in CompactTable && name in FullTable && CompactTable[name] == FullTable[name]
  {
  }

  lemma ModifierKeysAgree(name: string)
    requires name in ["shift", "ctrl", "alt", "cmd"]
    ensures name in CompactTable && name in FullTable && CompactTable[name] == FullTable[name]
  {
  }

  lemma CursorKeysAgree(name: string)
    requires name in ["left", "up", "right", "down", "delete", "home", "end"]
    ensures name in CompactTable && name in FullTable && CompactTable[name] == FullTable[name]
  {
  }

  lemma FunctionKeysAgree(name: string)
    requires name in ["f1", "f2", "f3", "f4", "f5", "f6", "f7", "f8"]
    ensures name in CompactTable && name in FullTable && CompactTable[name] == FullTable[name]
  {
  }

  lemma SmallAgrees(name: string)
    requires name in SmallTable
    ensures name in CompactTable && SmallTable[name] == CompactTable[name]
  {
  }

  /** ...except the right Command key, which bridge.py sends as the left
      Windows key (91) and the full table as the right one (92). */
  lemma RightCommandDiffers()
    ensures Vk(BridgeTable, Special("cmd_r")) == 91
    ensures Vk(FullTable, Special("cmd_r")) == 92
    ensures Vk(SimpleTable, Special("cmd_r")) == 0
  {
  }

  // -----------------------------------------------------------------------
  // Modifiers and the escape hotkey

  predicate IsCtrl(k: Key) {
    k == Special("ctrl") || k == Special("ctrl_l") || k == Special("ctrl_r")
  }

  predicate IsAlt(k: Key) {
    k == Special("alt") || k == Special("alt_l") || k == Special("alt_r")
  }

  /** `ctrl and alt and hasattr(key, 'char') and key.char and
      key.char.lower() == 'm'`. */
  predicate IsHotkey(m: Mods, k: Key) {
    m.ctrl && m.alt && k.Char? && (k.c == 'm' || k.c == 'M')
  }

  datatype Mods = Mods(ctrl: bool, alt: bool)

  /** The `ctrl_pressed` / `alt_pressed` flags after a key goes down
      (`down`) or up. */
  function Track(m: Mods, k: Key, down: bool): (r: Mods)
    ensures IsCtrl(k) ==> r.ctrl == down && r.alt == m.alt
    ensures IsAlt(k) ==> r.alt == down && r.ctrl == m.ctrl
    ensures !IsCtrl(k) && !IsAlt(k) ==> r == m
  {
    if IsCtrl(k) then m.(ctrl := down)
    else if IsAlt(k) then m.(alt := down)
    else m
  }

  /** How a capture variant treats keys. `trackAlways`: the flags follow
      the keyboard in Mac mode too (bridge.py); otherwise every key is
      ignored outside Windows mode. `sendZero`: a key without a code is
      still sent, as code 0 (macwincontrol_gui.py, MacWinControlApp.py,
      macwincontrol.py); otherwise it is dropped. */
  datatype Style = Style(trackAlways: bool, sendZero: bool)

  /** What one key event does: the new flags, whether it escapes to the
      Mac, and the code sent to Windows, if any. */
  datatype Reaction = Reaction(mods: Mods, escape: bool, forward: Option<int>)

  /** A key press (`_on_key_press`, `_on_press`, `_key_down`). */
  function Press(st: Style, table: map<string, int>, windows: bool, m: Mods, k: Key): (r: Reaction)
    ensures r.escape <==> windows && IsHotkey(m, k)
    ensures r.forward.Some? <==> windows && !IsHotkey(m, k) && (st.sendZero || Vk(table, k) != 0)
    ensures r.forward.Some? ==> r.forward.value == Vk(table, k)
    ensures r.mods == if windows || st.trackAlways then Track(m, k, true) else m
  {
    if !windows && !st.trackAlways then Reaction(m, false, None)
    else
      var m' := Track(m, k, true);
      if IsHotkey(m', k) then Reaction(m', windows, None)
      else if !windows then Reaction(m', false, None)
      else
        var vk := Vk(table, k);
        if st.sendZero || vk != 0 then Reaction(m', false, Some(vk)) else Reaction(m', false, None)
  }

  /** A key release (`_on_key_release`, `_on_release`, `_key_up`): never
      escapes. */
  function Release(st: Style, table: map<string, int>, windows: bool, m: Mods, k: Key): (r: Reaction)
    ensures !r.escape
    ensures r.forward.Some? <==> windows && (st.sendZero || Vk(table, k) != 0)
    ensures r.forward.Some? ==> r.forward.value == Vk(table, k)
    ensures r.mods == if windows || st.trackAlways then Track(m, k, false) else m
  {
    if !windows && !st.trackAlways then Reaction(m, false, None)
    else
      var m' := Track(m, k, false);
      var vk := Vk(table, k);
      if windows && (st.sendZero || vk != 0) then Reaction(m', false, Some(vk)) else Reaction(m', false, None)
  }

  /** Ctrl, then Alt, then M, in Windows mode: the third press escapes and
      none of the three reaches Windows as an M; whatever the variant. */
  lemma HotkeySequence(st: Style, table: map<string, int>, m: Mods, c: char)
    requires c == 'm' || c == 'M'
    ensures var r1 := Press(st, table, true, m, Special("ctrl"));
      var r2 := Press(st, table, true, r1.mods, Special("alt"));
      var r3 := Press(st, table, true, r2.mods, Char(c));
      !r1.escape && !r2.escape && r3.escape && r3.forward.None?
  {
    var r1 := Press(st, table, true, m, Special("ctrl"));
    assert r1.mods.ctrl;
    var r2 := Press(st, table, true, r1.mods, Special("alt"));
    assert r2.mods.ctrl && r2.mods.alt;
  }

  /** Releasing either modifier disarms the hotkey. */
  lemma ReleaseDisarms(st: Style, table: map<string, int>, windows: bool, m: Mods, k: Key, c: char)
    requires IsCtrl(k) || IsAlt(k)
    requires windows || st.trackAlways
    ensures var r := Release(st, table, windows, m, k);
      !Press(st, table, windows, r.mods, Char(c)).escape
  {
  }
}
