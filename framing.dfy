/** Newline framing of the receive buffer, the loop every host runs:

      buffer += chunk
      while '\n' in buffer: line, buffer = buffer.split('\n', 1)

    `Lines(s)` are the complete lines such a loop takes out of `s`, in
    order, and `Rest(s)` is what stays in the buffer. */
module Framing {

  /** Index of the first '\n' in `s`, or `|s|` when there is none. */
  function NewlineAt(s: string): (r: nat)
    ensures r <= |s|
    ensures forall i :: 0 <= i < r ==> s[i] != '\n'
    ensures r < |s| ==> s[r] == '\n'
  {
    if s == [] then 0
    else if s[0] == '\n' then 0
    else 1 + NewlineAt(s[1..])
  }

  /** `buffer.split('\n', 1)` when `'\n' in buffer`: the line before the
      first newline and the text after it. */
  function SplitFirst(s: string): (r: (string, string))
    requires '\n' in s
    ensures s == r.0 + "\n" + r.1
    ensures '\n' !in r.0
  {
    var i := NewlineAt(s);
    (s[..i], s[i + 1..])
  }

  function Lines(s: string): (r: seq<string>)
    ensures forall k :: 0 <= k < |r| ==> '\n' !in r[k]
    decreases |s|
  {
    if '\n' in s then [SplitFirst(s).0] + Lines(SplitFirst(s).1) else []
  }

  function Rest(s: string): (r: string)
    ensures '\n' !in r
    decreases |s|
  {
    if '\n' in s then Rest(SplitFirst(s).1) else s
  }

  /** Every line with its terminator put back. */
  function Join(lines: seq<string>): string {
    if lines == [] then "" else lines[0] + "\n" + Join(lines[1..])
  }

  /** Nothing is lost or reordered: the lines taken out, each followed by
      its newline, and then the remainder, spell the buffer again. */
  lemma {:induction false} Reassemble(s: string)
    ensures Join(Lines(s)) + Rest(s) == s
    decreases |s|
  {
    if '\n' in s {
      var (line, tail) := SplitFirst(s);
      Reassemble(tail);
      assert Lines(s) == [line] + Lines(tail);
      assert ([line] + Lines(tail))[1..] == Lines(tail);
    }
  }

  /** The split is the only one with newline-free lines and remainder:
      framing is determined by the text alone. */
  lemma {:induction false} FramingUnique(s: string, lines: seq<string>, rest: string)
    requires forall k :: 0 <= k < |lines| ==> '\n' !in lines[k]
    requires '\n' !in rest
    requires Join(lines) + rest == s
    ensures lines == Lines(s) && rest == Rest(s)
    decreases |lines|
  {
    if lines == [] {
      assert s == rest;
    } else {
      var tail := Join(lines[1..]) + rest;
      assert s == lines[0] + "\n" + tail;
      NewlineAfter(lines[0], tail);
      assert s[..|lines[0]|] == lines[0];
      assert s[|lines[0]| + 1..] == tail;
      assert SplitFirst(s) == (lines[0], tail);
      FramingUnique(tail, lines[1..], rest);
    }
  }

  lemma NewlineAfter(line: string, tail: string)
    requires '\n' !in line
    ensures '\n' in line + "\n" + tail
    ensures NewlineAt(line + "\n" + tail) == |line|
  {
    var s := line + "\n" + tail;
    assert s[|line|] == '\n';
  }

  /** Reading `a` and then `b` frames exactly as reading `a + b` at once:
      the lines of `a`, then the lines of what was left over followed by
      `b`. For text, the size of each recv() does not matter; a recv()
      that cuts a UTF-8 character is not covered, as chunks are text. */
  lemma ChunkBoundary(a: string, b: string)
    ensures Lines(a + b) == Lines(a) + Lines(Rest(a) + b)
    ensures Rest(a + b) == Rest(Rest(a) + b)
  {
    var xs, r := Lines(a), Rest(a);
    var ys, r2 := Lines(r + b), Rest(r + b);
    Reassemble(a);
    Reassemble(r + b);
    JoinAppend(xs, ys);
    var jx, jy := Join(xs), Join(ys);
    assert Join(xs + ys) + r2 == a + b by {
      calc {
        Join(xs + ys) + r2;
        (jx + jy) + r2;
        { Assoc(jx, jy, r2); }
        jx + (jy + r2);
        jx + (r + b);
        { Assoc(jx, r, b); }
        (jx + r) + b;
        a + b;
      }
    }
    NoNewlineAppend(xs, ys);
    FramingUnique(a + b, xs + ys, r2);
  }

  lemma Assoc(x: string, y: string, z: string)
    ensures (x + y) + z == x + (y + z)
  {
  }

  lemma NoNewlineAppend(xs: seq<string>, ys: seq<string>)
    requires forall k :: 0 <= k < |xs| ==> '\n' !in xs[k]
    requires forall k :: 0 <= k < |ys| ==> '\n' !in ys[k]
    ensures forall k :: 0 <= k < |xs + ys| ==> '\n' !in (xs + ys)[k]
  {
  }

  lemma {:induction false} JoinAppend(xs: seq<string>, ys: seq<string>)
    ensures Join(xs + ys) == Join(xs) + Join(ys)
    decreases |xs|
  {
    if xs != [] {
      assert (xs + ys)[1..] == xs[1..] + ys;
      JoinAppend(xs[1..], ys);
    } else {
      assert xs + ys == ys;
    }
  }
}
