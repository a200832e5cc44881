/** The shortcut expander. On an Alt+Enter chord in an editable field it
    finds the longest mnemonic of the shortcut table that ends exactly at the
    caret, splices that mnemonic's symbol in its place, moves the caret to
    just after the symbol and hands the new text to an `update` callback.

    The DOM event is reduced to the data the handler reads (the Alt flag, the
    key name and the target field) and the handler's effect to the field it
    leaves behind and the list of arguments `update` was called with. */
module Shortcut {
  import opened Wrappers
  import opened Data

  /** The parts of the event target the handler reads and writes. */
  datatype Field = Field(value: string, selectionStart: nat, selectionEnd: nat, readonly: bool)

  /** The parts of the keyboard event the handler reads. */
  datatype KeyEvent = KeyEvent(altKey: bool, key: string, target: Field)

  /** What a call of the handler leaves behind: the target field and, in
      call order, the arguments passed to `update`. */
  datatype Effect = Effect(target: Field, updates: seq<string>)

  /** A proposed new field text and caret offset. */
  datatype Expansion = Expansion(text: string, caret: nat)

  const TriggerKey: string := "Enter"

  function Min(a: nat, b: nat): nat {
    if a <= b then a else b
  }

  /** `String.prototype.substring(start, end)` for non-negative arguments:
      both ends are clamped to the string and swapped when out of order. */
  function Substring(s: string, start: nat, end: nat): (r: string)
  {
    var a := Min(start, |s|);
    var b := Min(end, |s|);
    if a <= b then s[a..b] else s[b..a]
  }

  /** Within range, `substring` is the slice; it never grows the string;
      and out-of-order ends are swapped. */
  lemma SubstringFacts(s: string, start: nat, end: nat)
    ensures start <= end <= |s| ==> Substring(s, start, end) == s[start..end]
    ensures end <= start <= |s| ==> Substring(s, start, end) == s[end..start]
    ensures |Substring(s, start, end)| <= |s|
    ensures |s| <= start && |s| <= end ==> Substring(s, start, end) == []
  {
  }

  /** The test in the scan loop: key `di` is no longer than the text before
      the caret and the substring ending at the caret equals it. */
  predicate EndsAtCaret(text: string, pos: nat, di: string) {
    pos >= |di| && Substring(text, pos - |di|, pos) == di
  }

  /** A non-empty key ends at the caret exactly when the caret is inside the
      text and the key is the slice of the text just before the caret. */
  lemma EndsAtCaretIff(text: string, pos: nat, di: string)
    requires |di| > 0
    ensures EndsAtCaret(text, pos, di) <==> |di| <= pos <= |text| && text[pos - |di|..pos] == di
  {
  }

  /** A key ends at the caret when it matches the text character by
      character just before the caret. */
  lemma EndsAtCaretByChars(text: string, pos: nat, di: string)
    requires |di| <= pos <= |text|
    requires forall k :: 0 <= k < |di| ==> text[pos - |di| + k] == di[k]
    ensures EndsAtCaret(text, pos, di)
  {
    assert text[pos - |di|..pos] == di;
  }

  /** One differing character before the caret rules a key out. */
  lemma MismatchBeforeCaret(text: string, pos: nat, di: string, k: nat)
    requires k < |di| <= pos <= |text|
    requires text[pos - |di| + k] != di[k]
    ensures !EndsAtCaret(text, pos, di)
  {
    assert text[pos - |di|..pos][k] == text[pos - |di| + k];
  }

  /** Two keys of the same length that both end at the caret are equal, so
      a table without duplicate keys has at most one longest match. */
  lemma SameLengthMatchesEqual(text: string, pos: nat, a: string, b: string)
    requires EndsAtCaret(text, pos, a) && EndsAtCaret(text, pos, b) && |a| == |b|
    ensures a == b
  {
  }

  /** The scan loop `for (const [di] of shortcut_list)`, as a fold over the
      rows in order: `mx` keeps the longest key seen so far that ends at the
      caret, and a later key of the same length replaces it. The result is
      the empty string or a key that ends at the caret; `LongestSpec` states
      which key it is. */
  function Longest(t: Table, text: string, pos: nat): (mx: string)
    ensures |mx| > 0 ==> EndsAtCaret(text, pos, mx) && IsKey(t, mx)
  {
    if |t| == 0 then ""
    else
      var prev := t[..|t| - 1];
      var mx := Longest(prev, text, pos);
      var di := t[|t| - 1].0;
      assert |mx| > 0 ==> IsKey(t, mx) by {
        if |mx| > 0 {
          var i :| 0 <= i < |prev| && prev[i].0 == mx;
          assert t[i] == prev[i];
        }
      }
      if EndsAtCaret(text, pos, di) then (if |mx| > |di| then mx else di) else mx
  }

  /** Row i is a longest match that no later row ties: every key that ends
      at the caret is no longer, and every later one is strictly shorter. */
  predicate LastLongest(t: Table, text: string, pos: nat, i: int) {
    && 0 <= i < |t|
    && EndsAtCaret(text, pos, t[i].0)
    && (forall j :: 0 <= j < |t| && EndsAtCaret(text, pos, t[j].0) ==> |t[j].0| <= |t[i].0|)
    && (forall j :: i < j < |t| && EndsAtCaret(text, pos, t[j].0) ==> |t[j].0| < |t[i].0|)
  }

  /** What the scan finds: the key of the last of the longest rows that end
      at the caret, or the empty string when no row ends there. (A row whose
      key is empty ends at every caret, and the scan returns the empty
      string for it too.) */
  lemma LongestSpec(t: Table, text: string, pos: nat)
    ensures var mx := Longest(t, text, pos);
      && (forall j :: 0 <= j < |t| && EndsAtCaret(text, pos, t[j].0) ==> |t[j].0| <= |mx|)
      && (|mx| > 0 ==> exists i :: LastLongest(t, text, pos, i) && t[i].0 == mx)
  {
    LongestMaximal(t, text, pos);
    LongestLast(t, text, pos);
  }

  /** No key that ends at the caret is longer than the one the scan keeps. */
  lemma {:induction false} LongestMaximal(t: Table, text: string, pos: nat)
    ensures forall j :: 0 <= j < |t| && EndsAtCaret(text, pos, t[j].0) ==> |t[j].0| <= |Longest(t, text, pos)|
  {
    if |t| > 0 {
      var prev := t[..|t| - 1];
      LongestMaximal(prev, text, pos);
      forall j | 0 <= j < |t| - 1 && EndsAtCaret(text, pos, t[j].0)
        ensures |t[j].0| <= |Longest(t, text, pos)|
      {
        assert t[j] == prev[j];
      }
    }
  }

  /** The key the scan keeps belongs to a row no later row ties. */
  lemma {:induction false} LongestLast(t: Table, text: string, pos: nat)
    ensures var mx := Longest(t, text, pos);
      |mx| > 0 ==> exists i :: LastLongest(t, text, pos, i) && t[i].0 == mx
  {
    if |t| > 0 {
      var n := |t| - 1;
      var prev := t[..n];
      var mx := Longest(prev, text, pos);
      LongestMaximal(t, text, pos);
      if EndsAtCaret(text, pos, t[n].0) && |mx| <= |t[n].0| {
        if |t[n].0| > 0 {
          assert LastLongest(t, text, pos, n);
        }
      } else if |mx| > 0 {
        LongestLast(prev, text, pos);
        var i :| LastLongest(prev, text, pos, i) && prev[i].0 == mx;
        assert t[i] == prev[i];
        LastLongestExtends(t, text, pos, i);
      }
    }
  }

  /** A row that is last-longest among the first rows stays so when the
      final row is not a longer or equally long match. */
  lemma LastLongestExtends(t: Table, text: string, pos: nat, i: nat)
    requires |t| > 0 && LastLongest(t[..|t| - 1], text, pos, i)
    requires forall j :: 0 <= j < |t| && EndsAtCaret(text, pos, t[j].0) ==> |t[j].0| <= |t[i].0|
    requires EndsAtCaret(text, pos, t[|t| - 1].0) ==> |t[|t| - 1].0| < |t[i].0|
    ensures LastLongest(t, text, pos, i)
  {
    var prev := t[..|t| - 1];
    forall j | i < j < |t| - 1 && EndsAtCaret(text, pos, t[j].0)
      ensures |t[j].0| < |t[i].0|
    {
      assert t[j] == prev[j];
    }
  }

  /** `shortcut_map[mx]`: the symbol of the first row whose key is k. */
  function Get(t: Table, k: string): (r: Option<string>)
    ensures r.None? <==> !IsKey(t, k)
    ensures r.Some? ==> exists i :: 0 <= i < |t| && t[i] == (k, r.value) &&
                                   (forall j :: 0 <= j < i ==> t[j].0 != k)
  {
    if |t| == 0 then None
    else if t[0].0 == k then Some(t[0].1)
    else
      var r := Get(t[1..], k);
      assert forall i :: 1 <= i < |t| ==> t[i] == t[1..][i - 1];
      r
  }

  /** With distinct keys, looking a row's key up gives that row's symbol. */
  lemma GetDistinct(t: Table, i: nat)
    requires DistinctKeys(t) && i < |t|
    ensures Get(t, t[i].0) == Some(t[i].1)
  {
  }

  /** The new field state after replacing mnemonic m, which ends at caret
      pos, by sym: everything before m and everything after the caret is
      kept, sym sits between them, and the caret lands just after sym. */
  predicate Spliced(text: string, pos: nat, m: string, sym: string, e: Expansion) {
    && |m| <= pos <= |text|
    && text[pos - |m|..pos] == m
    && e.caret == pos - |m| + |sym|
    && |e.text| == |text| - |m| + |sym|
    && e.caret <= |e.text|
    && e.text[..pos - |m|] == text[..pos - |m|]
    && e.text[pos - |m|..e.caret] == sym
    && e.text[e.caret..] == text[pos..]
  }

  /** The pure core of the handler once the chord has been recognised: the
      guard, the scan, the splice and the caret computation. None is the
      silent no-op. */
  function Expand(t: Table, text: string, selStart: nat, selEnd: nat, readonly: bool): (r: Option<Expansion>)
    ensures readonly || selStart != selEnd ==> r.None?
    ensures r.None? <==> readonly || selStart != selEnd || |Longest(t, text, selStart)| == 0
    ensures r.Some? ==>
      var m := Longest(t, text, selStart);
      Get(t, m).Some? && Spliced(text, selStart, m, Get(t, m).value, r.value)
  {
    if readonly || selStart != selEnd then None
    else
      var pos := selStart;
      var mx := Longest(t, text, pos);
      LongestSpec(t, text, pos);
      if |mx| == 0 then None
      else
        var out := Get(t, mx).value;
        var newText := Substring(text, 0, pos - |mx|) + out + Substring(text, pos, |text|);
        var e := Expansion(newText, pos - |mx| + |out|);
        assert e.text[pos - |mx|..e.caret] == out;
        assert e.text[e.caret..] == text[pos..];
        Some(e)
  }

  /** The handler returned by the default-exported factory, applied to one
      event. */
  function Handle(t: Table, ev: KeyEvent): (e: Effect)
    ensures !(ev.altKey && ev.key == TriggerKey) ==> e == Effect(ev.target, [])
    ensures ev.target.readonly || ev.target.selectionStart != ev.target.selectionEnd ==> e == Effect(ev.target, [])
    ensures |e.updates| <= 1
    ensures |e.updates| == 0 ==> e.target == ev.target
    ensures |e.updates| == 1 ==>
      && e.updates[0] == e.target.value
      && e.target.selectionStart == e.target.selectionEnd <= |e.target.value|
      && e.target.readonly == ev.target.readonly
    ensures |e.updates| == 1 <==>
              (ev.altKey && ev.key == TriggerKey &&
               Expand(t, ev.target.value, ev.target.selectionStart, ev.target.selectionEnd, ev.target.readonly).Some?)
    ensures |e.updates| == 1 ==>
      var x := Expand(t, ev.target.value, ev.target.selectionStart, ev.target.selectionEnd, ev.target.readonly).value;
      e.target == ev.target.(value := x.text, selectionStart := x.caret, selectionEnd := x.caret)
  {
    var f := ev.target;
    if !(ev.altKey && ev.key == TriggerKey) then Effect(f, [])
    else
      match Expand(t, f.value, f.selectionStart, f.selectionEnd, f.readonly)
      case None => Effect(f, [])
      case Some(x) =>
        Effect(f.(value := x.text, selectionStart := x.caret, selectionEnd := x.caret), [x.text])
  }

  /** A key that ends at the caret is never lost: with the guard passed,
      the expander fires, and the mnemonic it replaces is at least as long. */
  lemma ExpandFiresOnMatch(t: Table, text: string, pos: nat, i: nat)
    requires i < |t| && |t[i].0| > 0 && EndsAtCaret(text, pos, t[i].0)
    ensures Expand(t, text, pos, pos, false).Some?
    ensures |Longest(t, text, pos)| >= |t[i].0|
  {
    LongestSpec(t, text, pos);
  }

  /** With the guard passed, the expander is a no-op exactly when no
      non-empty key of the table ends at the caret. */
  lemma NoMatchIsNoOp(t: Table, text: string, pos: nat)
    ensures Expand(t, text, pos, pos, false).None? <==>
      forall i :: 0 <= i < |t| && |t[i].0| > 0 ==> !EndsAtCaret(text, pos, t[i].0)
  {
    if Expand(t, text, pos, pos, false).Some? {
      var m := Longest(t, text, pos);
      LongestSpec(t, text, pos);
      var k :| LastLongest(t, text, pos, k) && t[k].0 == m;
    } else {
      LongestSpec(t, text, pos);
    }
  }

  /** The splice is determined by the mnemonic and the symbol. */
  lemma SplicedText(text: string, pos: nat, m: string, sym: string, e: Expansion)
    requires Spliced(text, pos, m, sym, e)
    ensures e.text == text[..pos - |m|] + sym + text[pos..]
  {
    var w := text[..pos - |m|] + sym + text[pos..];
    assert e.text == e.text[..pos - |m|] + e.text[pos - |m|..e.caret] + e.text[e.caret..];
  }

  /** In a table without duplicate keys, if row i's mnemonic ends at the
      caret and no key ending there is longer, the expander replaces exactly
      that mnemonic by row i's symbol. */
  lemma ExpandChoosesRow(t: Table, text: string, pos: nat, i: nat)
    requires DistinctKeys(t) && i < |t| && |t[i].0| > 0
    requires EndsAtCaret(text, pos, t[i].0)
    requires forall j :: 0 <= j < |t| && EndsAtCaret(text, pos, t[j].0) ==> |t[j].0| <= |t[i].0|
    ensures var (m, sym) := t[i];
      Expand(t, text, pos, pos, false) ==
        Some(Expansion(text[..pos - |m|] + sym + text[pos..], pos - |m| + |sym|))
  {
    var m := Longest(t, text, pos);
    LongestSpec(t, text, pos);
    assert |t[i].0| <= |m|;
    var k :| LastLongest(t, text, pos, k) && t[k].0 == m;
    assert |m| <= |t[i].0|;
    SameLengthMatchesEqual(text, pos, m, t[i].0);
    GetDistinct(t, i);
    var e := Expand(t, text, pos, pos, false);
    assert e.Some?;
    SplicedText(text, pos, m, t[i].1, e.value);
  }

  /** A mnemonic typed at the start of a line, with the caret right after
      it, always expands to its own symbol: no longer key fits before the
      caret, and the text after the caret is kept. */
  lemma MnemonicAtLineStart(t: Table, i: nat, rest: string)
    requires DistinctKeys(t) && i < |t| && |t[i].0| > 0
    ensures var (m, sym) := t[i];
      Expand(t, m + rest, |m|, |m|, false) == Some(Expansion(sym + rest, |sym|))
  {
    var (m, sym) := t[i];
    var text := m + rest;
    EndsAtCaretIff(text, |m|, m);
    assert text[..|m|] == m;
    ExpandChoosesRow(t, text, |m|, i);
    assert text[..0] + sym + text[|m|..] == sym + rest;
  }
}
