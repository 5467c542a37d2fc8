/** Helpers shared by every part of the model: an Option type and the
    handful of Python built-ins the sources lean on (min/max clamping,
    list indexing with negative indices, slicing, str.strip). */
module Common {

  datatype Option<T> = None | Some(value: T)

  function Min(a: int, b: int): int { if a <= b then a else b }

  function Max(a: int, b: int): int { if a >= b then a else b }

  /** Python's `max(lo, min(v, hi))`, the clamp every capture variant uses.
      When `hi < lo` (a zero-height screen, say) Python yields `lo`. */
  function Clamp(v: int, lo: int, hi: int): (r: int)
    ensures r >= lo
    ensures lo <= hi ==> r <= hi
    ensures lo <= v <= hi ==> r == v
    ensures v < lo ==> r == lo
    ensures lo <= hi && v > hi ==> r == hi
  {
    Max(lo, Min(v, hi))
  }

  /** Python's `abs` on integers. */
  function Abs(v: int): (r: int)
    ensures r >= 0 && (r == v || r == -v)
  {
    if v < 0 then -v else v
  }

  /** The position `lst[i]` reads in a Python list of length `len`, or None
      where Python raises IndexError. Negative indices count from the end. */
  function PyIndex(len: nat, i: int): (r: Option<nat>)
    ensures r.Some? ==> r.value < len
    ensures 0 <= i < len ==> r == Some(i)
    ensures i < 0 <= len + i ==> r == Some(len + i)
    ensures r.None? <==> (i >= len || len + i < 0)
  {
    if 0 <= i < len then Some(i)
    else if i < 0 <= len + i then Some(len + i)
    else None
  }

  /** Python's `lst[:n]`: a negative `n` drops `-n` items from the end. */
  function PyTake<T>(s: seq<T>, n: int): (r: seq<T>)
    ensures |r| <= |s| && r == s[..|r|]
    ensures 0 <= n ==> |r| == Min(n, |s|)
    ensures n < 0 ==> |r| == Max(0, |s| + n)
  {
    if n >= |s| then s
    else if n >= 0 then s[..n]
    else if |s| + n >= 0 then s[..|s| + n]
    else []
  }

  /** The characters Python's `str.isspace()` accepts, which `str.strip()`
      with no argument removes: the ASCII tab to carriage return, the
      separators U+001C to U+001F, the space, and the Unicode spaces and
      line and paragraph separators. */
  predicate IsSpace(c: char) {
    ('\t' <= c <= '\r') || ('\U{1C}' <= c <= ' ') || c == '\U{85}' || c == '\U{A0}'
    || c == '\U{1680}' || ('\U{2000}' <= c <= '\U{200A}') || c == '\U{2028}' || c == '\U{2029}'
    || c == '\U{202F}' || c == '\U{205F}' || c == '\U{3000}'
  }

  function StripLeft(s: string): (r: string)
    ensures |r| <= |s| && r == s[|s| - |r|..]
    ensures r == [] || !IsSpace(r[0])
    ensures forall i :: 0 <= i < |s| - |r| ==> IsSpace(s[i])
  {
    if s != [] && IsSpace(s[0]) then StripLeft(s[1..]) else s
  }

  function StripRight(s: string): (r: string)
    ensures |r| <= |s| && r == s[..|r|]
    ensures r == [] || !IsSpace(r[|r| - 1])
    ensures forall i :: |r| <= i < |s| ==> IsSpace(s[i])
  {
    if s != [] && IsSpace(s[|s| - 1]) then StripRight(s[..|s| - 1]) else s
  }

  /** Python's `str.strip()` with no argument. */
  function Strip(s: string): string {
    StripRight(StripLeft(s))
  }

  /** A string that neither starts nor ends with whitespace is its own strip. */
  lemma StripUnchanged(s: string)
    requires s == [] || (!IsSpace(s[0]) && !IsSpace(s[|s| - 1]))
    ensures Strip(s) == s
  {
  }
}
