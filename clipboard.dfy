/** MacApp/clipboard_manager.py: the clipboard history (a bounded list,
    newest first, with no two entries of equal content) and the change
    detection of the clipboard monitor. `pbcopy`/`pbpaste`, the thread and
    the clock are outside the model: what they return is a parameter. */
module Clipboard {
  import opened Common

  /** One history entry, the dict `add` builds. */
  datatype Item = Item(content: string, source: string, timestamp: int, preview: string)

  /** The longest content shown whole in a preview. */
  const PreviewLength := 100

  /** The preview of `content`: the first 100 characters followed by
      "..." when it is longer, else the whole content. */
  function Preview(content: string): (r: string)
    ensures |content| <= PreviewLength ==> r == content
    ensures |content| > PreviewLength ==> |r| == PreviewLength + 3 && r[PreviewLength..] == "..."
    ensures r[..Min(|content|, PreviewLength)] == content[..Min(|content|, PreviewLength)]
  {
    if |content| > PreviewLength then content[..PreviewLength] + "..." else content
  }

  function MakeItem(content: string, source: string, now: int): (r: Item)
    ensures r.content == content && r.source == source && r.timestamp == now
    ensures r.preview == Preview(content)
  {
    Item(content, source, now, Preview(content))
  }

  /** The history with every entry of content `content` dropped. */
  function Without(h: seq<Item>, content: string): (r: seq<Item>)
    ensures |r| <= |h|
    ensures forall k :: 0 <= k < |r| ==> r[k].content != content && r[k] in h
  {
    if h == [] then []
    else (if h[0].content != content then [h[0]] else []) + Without(h[1..], content)
  }

  /** Dropping works entry by entry. */
  lemma {:induction false} WithoutAppend(a: seq<Item>, b: seq<Item>, content: string)
    ensures Without(a + b, content) == Without(a, content) + Without(b, content)
    decreases |a|
  {
    if a == [] {
      assert a + b == b;
    } else {
      assert (a + b)[0] == a[0];
      assert (a + b)[1..] == a[1..] + b;
      WithoutAppend(a[1..], b, content);
    }
  }

  /** Every entry of other content survives the dropping. */
  lemma {:induction false} WithoutKeepsOthers(h: seq<Item>, content: string, it: Item)
    requires it in h && it.content != content
    ensures it in Without(h, content)
    decreases |h|
  {
    if h[0] != it {
      assert it in h[1..];
      WithoutKeepsOthers(h[1..], content, it);
    }
  }

  /** `a` is `b` with some entries left out: the entries of `a` appear in
      `b` in the same order. */
  ghost predicate Embedded(a: seq<Item>, b: seq<Item>)
    decreases |b|
  {
    if a == [] then true
    else if b == [] then false
    else (a[0] == b[0] && Embedded(a[1..], b[1..])) || Embedded(a, b[1..])
  }

  /** Dropping keeps the order of what is left. */
  lemma {:induction false} WithoutEmbedded(h: seq<Item>, content: string)
    ensures Embedded(Without(h, content), h)
    decreases |h|
  {
    if h != [] {
      WithoutEmbedded(h[1..], content);
      var rest := Without(h[1..], content);
      if h[0].content != content {
        assert Without(h, content) == [h[0]] + rest;
        assert ([h[0]] + rest)[1..] == rest;
      } else {
        assert Without(h, content) == rest;
      }
    }
  }

  /** Cutting off the tail keeps the order of the rest. */
  lemma {:induction false} PrefixEmbedded(a: seq<Item>, b: seq<Item>, n: nat)
    requires Embedded(a, b) && n <= |a|
    ensures Embedded(a[..n], b)
    decreases |b|
  {
    if n > 0 {
      assert a[..n][0] == a[0];
      if a[0] == b[0] && Embedded(a[1..], b[1..]) {
        assert a[..n][1..] == a[1..][..n - 1];
        PrefixEmbedded(a[1..], b[1..], n - 1);
      } else {
        PrefixEmbedded(a, b[1..], n);
      }
    }
  }

  /** No two entries have equal content. */
  ghost predicate Distinct(h: seq<Item>) {
    forall i, j :: 0 <= i < j < |h| ==> h[i].content != h[j].content
  }

  lemma {:induction false} WithoutDistinct(h: seq<Item>, content: string)
    requires Distinct(h)
    ensures Distinct(Without(h, content))
    decreases |h|
  {
    if h != [] {
      WithoutDistinct(h[1..], content);
      var rest := Without(h[1..], content);
      if h[0].content != content {
        forall k | 0 <= k < |rest|
          ensures h[0].content != rest[k].content
        {
          var j :| 0 <= j < |h[1..]| && h[1..][j] == rest[k];
          assert h[j + 1] == rest[k];
        }
      }
    }
  }

  /** `add(content, source)` at time `now` on history `h`: drop the equal
      entries, put the new one in front, cut to `maxItems` with Python's
      `[:max_items]`. */
  function Added(h: seq<Item>, maxItems: int, content: string, source: string, now: int): seq<Item> {
    var full := [MakeItem(content, source, now)] + Without(h, content);
    if |full| > maxItems then PyTake(full, maxItems) else full
  }

  /** `get_item(index)`. */
  function ItemAt(h: seq<Item>, index: int): (r: Option<string>)
    ensures r.Some? <==> 0 <= index < |h|
    ensures r.Some? ==> r.value == h[index].content
  {
    if 0 <= index < |h| then Some(h[index].content) else None
  }

  // -----------------------------------------------------------------------
  // Properties of the history

  /** After `add(c)` the newest entry is `c`, with its preview. */
  lemma AddedComesFirst(h: seq<Item>, maxItems: int, content: string, source: string, now: int)
    requires maxItems >= 1
    ensures var r := Added(h, maxItems, content, source, now);
      ItemAt(r, 0) == Some(content) && r[0].preview == Preview(content) && r[0].source == source
  {
  }

  /** The history never holds two entries of equal content. */
  lemma AddedKeepsDistinct(h: seq<Item>, maxItems: int, content: string, source: string, now: int)
    requires Distinct(h)
    ensures Distinct(Added(h, maxItems, content, source, now))
  {
    WithoutDistinct(h, content);
    var w := Without(h, content);
    var full := [MakeItem(content, source, now)] + w;
    assert forall k :: 1 <= k < |full| ==> full[k] == w[k - 1];
    assert Distinct(full);
  }

  /** The history keeps the `maxItems` newest entries (none when
      `maxItems` is negative and cuts more than it holds). */
  lemma AddedKeepsNewest(h: seq<Item>, maxItems: int, content: string, source: string, now: int)
    ensures var full := [MakeItem(content, source, now)] + Without(h, content);
      var r := Added(h, maxItems, content, source, now);
      r == full[..|r|]
      && (0 <= maxItems ==> |r| == Min(maxItems, |full|))
      && (maxItems < |full| ==> |r| < |full|)
  {
  }

  /** With a non-negative bound the history never grows past it. */
  lemma AddedIsBounded(h: seq<Item>, maxItems: int, content: string, source: string, now: int)
    requires 0 <= maxItems
    ensures |Added(h, maxItems, content, source, now)| <= maxItems
  {
  }

  /** The older entries that survive are entries of the old history of
      other content, in their old order. */
  lemma {:induction false} AddedKeepsOrder(h: seq<Item>, maxItems: int, content: string, source: string, now: int)
    requires maxItems >= 1
    ensures var r := Added(h, maxItems, content, source, now);
      Embedded(r[1..], h) && forall k :: 1 <= k < |r| ==> r[k].content != content && r[k] in h
  {
    var w := Without(h, content);
    var full := [MakeItem(content, source, now)] + w;
    var r := Added(h, maxItems, content, source, now);
    assert r == full[..|r|];
    assert r[1..] == w[..|r| - 1];
    WithoutEmbedded(h, content);
    PrefixEmbedded(w, h, |r| - 1);
  }

  // -----------------------------------------------------------------------
  // Change detection

  /** A sample the monitor reports: non-empty and not the last content seen. */
  predicate Fires(last: string, current: string) {
    current != "" && current != last
  }

  /** The contents the monitor reports for successive clipboard samples,
      starting from `last`. */
  function Changes(last: string, samples: seq<string>): (r: seq<string>)
    ensures |r| <= |samples|
    ensures forall k :: 0 <= k < |r| ==> r[k] != "" && r[k] in samples
    decreases |samples|
  {
    if samples == [] then []
    else if Fires(last, samples[0]) then [samples[0]] + Changes(samples[0], samples[1..])
    else Changes(last, samples[1..])
  }

  /** The content the monitor last saw after the samples. */
  function LastSeen(last: string, samples: seq<string>): string
    decreases |samples|
  {
    if samples == [] then last
    else LastSeen(if Fires(last, samples[0]) then samples[0] else last, samples[1..])
  }

  /** The last content seen is the last one reported, or the starting one. */
  lemma {:induction false} LastSeenIsLastChange(last: string, samples: seq<string>)
    ensures var c := Changes(last, samples);
      LastSeen(last, samples) == (if c == [] then last else c[|c| - 1])
    decreases |samples|
  {
    if samples != [] {
      var next := if Fires(last, samples[0]) then samples[0] else last;
      LastSeenIsLastChange(next, samples[1..]);
    }
  }

  /** Watching in two stretches reports what watching once does. */
  lemma {:induction false} ChangesAppend(last: string, a: seq<string>, b: seq<string>)
    ensures Changes(last, a + b) == Changes(last, a) + Changes(LastSeen(last, a), b)
    ensures LastSeen(last, a + b) == LastSeen(LastSeen(last, a), b)
    decreases |a|
  {
    if a == [] {
      assert a + b == b;
    } else {
      assert (a + b)[0] == a[0];
      assert (a + b)[1..] == a[1..] + b;
      var next := if Fires(last, a[0]) then a[0] else last;
      ChangesAppend(next, a[1..], b);
    }
  }

  /** No report repeats the one before it, and the first differs from the
      starting content. */
  lemma {:induction false} ChangesDiffer(last: string, samples: seq<string>)
    ensures var c := Changes(last, samples);
      (c != [] ==> c[0] != last) && forall k :: 1 <= k < |c| ==> c[k] != c[k - 1]
    decreases |samples|
  {
    if samples != [] {
      var next := if Fires(last, samples[0]) then samples[0] else last;
      ChangesDiffer(next, samples[1..]);
      if Fires(last, samples[0]) {
        var rest := Changes(samples[0], samples[1..]);
        assert Changes(last, samples) == [samples[0]] + rest;
      }
    }
  }

  /** What `set_clipboard` wrote is not reported back: samples equal to it
      are skipped until the clipboard changes. */
  lemma {:induction false} WrittenIsNotEchoed(written: string, same: seq<string>, rest: seq<string>)
    requires forall k :: 0 <= k < |same| ==> same[k] == written
    ensures Changes(written, same + rest) == Changes(written, rest)
    decreases |same|
  {
    if same == [] {
      assert same + rest == rest;
    } else {
      assert (same + rest)[0] == written;
      assert (same + rest)[1..] == same[1..] + rest;
      WrittenIsNotEchoed(written, same[1..], rest);
    }
  }

  // -----------------------------------------------------------------------
  // The objects

  class ClipboardHistory {
    const maxItems: int
    var history: seq<Item>

    ghost predicate Valid()
      reads this
    {
      Distinct(history) && (0 <= maxItems ==> |history| <= maxItems)
    }

    constructor(maxItems: int)
      ensures this.maxItems == maxItems && history == [] && Valid()
    {
      this.maxItems := maxItems;
      history := [];
    }

    method Add(content: string, source: string, now: int)
      requires Valid()
      modifies this
      ensures history == Added(old(history), maxItems, content, source, now)
      ensures Valid()
    {
      var item := MakeItem(content, source, now);
      AddedKeepsDistinct(history, maxItems, content, source, now);
      var kept := DropEqual(history, content);
      history := [item] + kept;
      if |history| > maxItems {
        history := PyTake(history, maxItems);
      }
    }

    /** `self._history.copy()`: a shallow copy of the list. The entries are
        values here, so the model does not capture that a caller changing
        one of the returned dicts changes the history's entry as well. */
    method GetHistory() returns (copy: seq<Item>)
      ensures copy == history
    {
      copy := history;
    }

    method Clear()
      requires Valid()
      modifies this
      ensures history == [] && Valid()
    {
      history := [];
    }

    method GetItem(index: int) returns (r: Option<string>)
      ensures r == ItemAt(history, index)
    {
      if 0 <= index < |history| {
        return Some(history[index].content);
      }
      return None;
    }
  }

  /** The list comprehension of `add`, one entry at a time. */
  method DropEqual(h: seq<Item>, content: string) returns (kept: seq<Item>)
    ensures kept == Without(h, content)
  {
    kept := [];
    var i := 0;
    while i < |h|
      invariant 0 <= i <= |h|
      invariant kept == Without(h[..i], content)
    {
      WithoutAppend(h[..i], [h[i]], content);
      assert h[..i + 1] == h[..i] + [h[i]];
      if h[i].content != content {
        kept := kept + [h[i]];
      }
      i := i + 1;
    }
    assert h[..i] == h;
  }

  class ClipboardManager {
    var lastContent: string
    var monitoring: bool
    var hasCallback: bool
    /** The contents handed to the change callback, in order. */
    var notified: seq<string>

    constructor()
      ensures lastContent == "" && !monitoring && !hasCallback && notified == []
    {
      lastContent := "";
      monitoring := false;
      hasCallback := false;
      notified := [];
    }

    /** `set_clipboard(content)`; `written` is whether `pbcopy` succeeded. */
    method SetClipboard(content: string, written: bool) returns (r: bool)
      modifies this
      ensures r == written
      ensures lastContent == (if written then content else old(lastContent))
      ensures monitoring == old(monitoring) && hasCallback == old(hasCallback) && notified == old(notified)
    {
      if !written {
        return false;
      }
      lastContent := content;
      r := true;
    }

    /** `start_monitoring(on_change)`; `current` is what `pbpaste` returns
      (the empty string when it fails). */
    method StartMonitoring(current: string)
      modifies this
      ensures old(monitoring) ==> lastContent == old(lastContent) && hasCallback == old(hasCallback)
      ensures !old(monitoring) ==> lastContent == current && hasCallback
      ensures monitoring && notified == old(notified)
    {
      if monitoring {
        return;
      }
      hasCallback := true;
      monitoring := true;
      lastContent := current;
    }

    method StopMonitoring()
      modifies this
      ensures !monitoring
      ensures lastContent == old(lastContent) && hasCallback == old(hasCallback) && notified == old(notified)
    {
      monitoring := false;
    }

    /** `_monitor_loop` over the clipboard samples it reads while
        monitoring is on. */
    method MonitorLoop(samples: seq<string>)
      modifies this
      ensures old(monitoring) ==> lastContent == LastSeen(old(lastContent), samples)
      ensures old(monitoring) ==>
        notified == old(notified) + (if hasCallback then Changes(old(lastContent), samples) else [])
      ensures !old(monitoring) ==> lastContent == old(lastContent) && notified == old(notified)
      ensures monitoring == old(monitoring) && hasCallback == old(hasCallback)
    {
      if !monitoring {
        return;
      }
      var i := 0;
      while i < |samples|
        invariant 0 <= i <= |samples|
        invariant monitoring == old(monitoring) && hasCallback == old(hasCallback)
        invariant lastContent == LastSeen(old(lastContent), samples[..i])
        invariant notified == old(notified) + (if hasCallback then Changes(old(lastContent), samples[..i]) else [])
      {
        ChangesAppend(old(lastContent), samples[..i], [samples[i]]);
        assert samples[..i + 1] == samples[..i] + [samples[i]];
        var current := samples[i];
        if current != "" && current != lastContent {
          lastContent := current;
          if hasCallback {
            notified := notified + [current];
          }
        }
        i := i + 1;
      }
      assert samples[..i] == samples;
    }
  }
}
