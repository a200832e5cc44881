/** The expander applied to the real shortcut table and to small example
    tables. The real-table facts are stated about `ShortcutMap`; the handler
    scans `ShortcutList`, which is the same table
    (`DataFacts.ShortcutListIsMap`), and `HandleOnList` carries every fact
    over. */
module ShortcutExamples {
  import opened Wrappers
  import opened Data
  import opened DataFacts
  import opened Shortcut

  /** The rows of the real table the examples below use, by position. */
  lemma RowsAt()
    ensures |ShortcutMap| == 242
    ensures ShortcutMap[0] == ("A\\", "λ") && ShortcutMap[1] == ("lambda", "λ")
    ensures ShortcutMap[2] == ("lmb", "λ") && ShortcutMap[3] == ("`l", "λ")
  {
  }

  lemma SuffixRowsAt()
    ensures |ShortcutMap| == 242
    ensures ShortcutMap[5] == ("lambdax", "ƛ") && ShortcutMap[74] == ("dx", "ð")
    ensures ShortcutMap[167] == ("floor", "⌊") && ShortcutMap[13] == ("or", "∨")
  {
  }

  lemma MoreRowsAt()
    ensures |ShortcutMap| == 242
    ensures ShortcutMap[238] == ("|^|", "Π") && ShortcutMap[62] == ("^|", "↑")
    ensures ShortcutMap[174] == ("...", "…") && ShortcutMap[26] == ("..", "•")
  {
  }

  /** The handler sees the same table whichever of the two constants it is
      given. */
  lemma HandleOnList(ev: KeyEvent)
    ensures Handle(ShortcutList, ev) == Handle(ShortcutMap, ev)
  {
    ShortcutListIsMap();
  }

  /** Four mnemonics map to λ: the table is many-to-one. */
  lemma LambdaMnemonics()
    ensures Get(ShortcutMap, "A\\") == Some("λ")
    ensures Get(ShortcutMap, "lambda") == Some("λ")
    ensures Get(ShortcutMap, "lmb") == Some("λ")
    ensures Get(ShortcutMap, "`l") == Some("λ")
  {
    ShortcutMapWellFormed();
    RowsAt();
    GetDistinct(ShortcutMap, 0);
    GetDistinct(ShortcutMap, 1);
    GetDistinct(ShortcutMap, 2);
    GetDistinct(ShortcutMap, 3);
  }

  /** Text ending in a mnemonic that no longer mnemonic ends in, with the
      caret at the end of the text: in a table without duplicate keys, the
      mnemonic is replaced by its row's symbol and the caret lands at the
      end of the new text, whatever text precedes the mnemonic. */
  lemma TextEndingExpands(t: Table, i: nat, p: string)
    requires DistinctKeys(t) && i < |t| && |t[i].0| > 0
    requires NoKeyExtends(t, t[i].0)
    ensures var (m, sym) := t[i];
      Expand(t, p + m, |p + m|, |p + m|, false) == Some(Expansion(p + sym, |p + sym|))
  {
    EndsAtEnd(p, t[i].0);
    NoLongerMatch(t, p + t[i].0, |p + t[i].0|, t[i].0);
    LongestEndingExpands(t, i, p);
  }

  /** Text ending in a mnemonic that no longer key ending at the caret
      beats: the mnemonic is replaced by its row's symbol. */
  lemma LongestEndingExpands(t: Table, i: nat, p: string)
    requires DistinctKeys(t) && i < |t| && |t[i].0| > 0
    requires forall j :: 0 <= j < |t| && EndsAtCaret(p + t[i].0, |p + t[i].0|, t[j].0) ==> |t[j].0| <= |t[i].0|
    ensures var (m, sym) := t[i];
      Expand(t, p + m, |p + m|, |p + m|, false) == Some(Expansion(p + sym, |p + sym|))
  {
    var (m, sym) := t[i];
    EndsAtEnd(p, m);
    ExpandChoosesRow(t, p + m, |p + m|, i);
    SpliceAtEnd(p, m, sym);
  }

  /** A non-empty mnemonic typed after any text ends at the end of it. */
  lemma EndsAtEnd(p: string, m: string)
    requires |m| > 0
    ensures EndsAtCaret(p + m, |p + m|, m)
  {
    assert (p + m)[|p|..|p + m|] == m;
    EndsAtCaretIff(p + m, |p + m|, m);
  }

  /** Replacing the mnemonic at the end of the text keeps what precedes it,
      and the caret after the symbol is the end of the new text. */
  lemma SpliceAtEnd(p: string, m: string, sym: string)
    ensures (p + m)[..|p + m| - |m|] + sym + (p + m)[|p + m|..] == p + sym
    ensures |p + m| - |m| + |sym| == |p + sym|
  {
    assert (p + m)[..|p|] == p;
  }

  /** When the text before the caret ends in m and no mnemonic extends m,
      no mnemonic longer than m ends at the caret. */
  lemma NoLongerMatch(t: Table, text: string, pos: nat, m: string)
    requires |m| > 0 && EndsAtCaret(text, pos, m)
    requires NoKeyExtends(t, m)
    ensures forall j :: 0 <= j < |t| && EndsAtCaret(text, pos, t[j].0) ==> |t[j].0| <= |m|
  {
    forall j | 0 <= j < |t| && EndsAtCaret(text, pos, t[j].0)
      ensures |t[j].0| <= |m|
    {
      var k := t[j].0;
      if |k| > |m| {
        SuffixOfMatch(text, pos, k, m);
      }
    }
  }

  /** A key that ends at the caret ends in every shorter key that does. */
  lemma SuffixOfMatch(text: string, pos: nat, k: string, m: string)
    requires |m| > 0 && EndsAtCaret(text, pos, m)
    requires |k| > |m| && EndsAtCaret(text, pos, k)
    ensures k[|k| - |m|..] == m
  {
    EndsAtCaretIff(text, pos, m);
    EndsAtCaretIff(text, pos, k);
    assert k[|k| - |m|..] == text[pos - |m|..pos];
  }

  /** Typing `lambdax` after any text expands it to ƛ. The mnemonic `dx`
      (for ð) is not a rival here: `lambdax` ends in `ax`, so `dx` does not
      end at the caret. */
  lemma LambdaxExpands(p: string)
    ensures !EndsAtCaret(p + "lambdax", |p + "lambdax"|, "dx") && Get(ShortcutMap, "dx") == Some("ð")
    ensures Expand(ShortcutMap, p + "lambdax", |p + "lambdax"|, |p + "lambdax"|, false) == Some(Expansion(p + "ƛ", |p + "ƛ"|))
  {
    ShortcutMapWellFormed();
    SuffixRowsAt();
    NoKeyExtendsLambdax();
    LambdaxIn(ShortcutMap, p);
  }

  lemma LambdaxIn(t: Table, p: string)
    requires DistinctKeys(t) && 74 < |t| && t[5] == ("lambdax", "ƛ") && t[74] == ("dx", "ð")
    requires NoKeyExtends(t, "lambdax")
    ensures !EndsAtCaret(p + "lambdax", |p + "lambdax"|, "dx") && Get(t, "dx") == Some("ð")
    ensures Expand(t, p + "lambdax", |p + "lambdax"|, |p + "lambdax"|, false) == Some(Expansion(p + "ƛ", |p + "ƛ"|))
  {
    GetDistinct(t, 74);
    LambdaxText(p);
    TextEndingExpands(t, 5, p);
  }

  lemma LambdaxText(p: string)
    ensures !EndsAtCaret(p + "lambdax", |p + "lambdax"|, "dx")
  {
    assert (p + "lambdax")[|p| + 5] == 'a';
    MismatchBeforeCaret(p + "lambdax", |p + "lambdax"|, "dx", 0);
  }

  /** Typing `floor` after any text expands it to ⌊: the shorter mnemonic
      `or` (for ∨) also ends at the caret, but the longest match wins. */
  lemma FloorBeatsOr(p: string)
    ensures EndsAtCaret(p + "floor", |p + "floor"|, "or") && Get(ShortcutMap, "or") == Some("∨")
    ensures Expand(ShortcutMap, p + "floor", |p + "floor"|, |p + "floor"|, false) == Some(Expansion(p + "⌊", |p + "⌊"|))
  {
    ShortcutMapWellFormed();
    SuffixRowsAt();
    NoKeyExtendsFloor();
    FloorIn(ShortcutMap, p);
  }

  lemma FloorIn(t: Table, p: string)
    requires DistinctKeys(t) && 167 < |t| && t[167] == ("floor", "⌊") && t[13] == ("or", "∨")
    requires NoKeyExtends(t, "floor")
    ensures EndsAtCaret(p + "floor", |p + "floor"|, "or") && Get(t, "or") == Some("∨")
    ensures Expand(t, p + "floor", |p + "floor"|, |p + "floor"|, false) == Some(Expansion(p + "⌊", |p + "⌊"|))
  {
    GetDistinct(t, 13);
    FloorText(p);
    TextEndingExpands(t, 167, p);
  }

  lemma FloorText(p: string)
    ensures EndsAtCaret(p + "floor", |p + "floor"|, "or")
  {
    assert (p + "floor")[|p| + 3] == 'o' && (p + "floor")[|p| + 4] == 'r';
    EndsAtCaretByChars(p + "floor", |p + "floor"|, "or");
  }

  /** `|^|` after any text expands to Π, not to ↑ from its suffix `^|`. */
  lemma PiBeatsUpArrow(p: string)
    ensures EndsAtCaret(p + "|^|", |p + "|^|"|, "^|") && Get(ShortcutMap, "^|") == Some("↑")
    ensures Expand(ShortcutMap, p + "|^|", |p + "|^|"|, |p + "|^|"|, false) == Some(Expansion(p + "Π", |p + "Π"|))
  {
    ShortcutMapWellFormed();
    MoreRowsAt();
    NoKeyExtendsPi();
    PiIn(ShortcutMap, p);
  }

  lemma PiIn(t: Table, p: string)
    requires DistinctKeys(t) && 238 < |t| && t[238] == ("|^|", "Π") && t[62] == ("^|", "↑")
    requires NoKeyExtends(t, "|^|")
    ensures EndsAtCaret(p + "|^|", |p + "|^|"|, "^|") && Get(t, "^|") == Some("↑")
    ensures Expand(t, p + "|^|", |p + "|^|"|, |p + "|^|"|, false) == Some(Expansion(p + "Π", |p + "Π"|))
  {
    GetDistinct(t, 62);
    PiText(p);
    TextEndingExpands(t, 238, p);
  }

  lemma PiText(p: string)
    ensures EndsAtCaret(p + "|^|", |p + "|^|"|, "^|")
  {
    assert (p + "|^|")[|p| + 1] == '^' && (p + "|^|")[|p| + 2] == '|';
    EndsAtCaretByChars(p + "|^|", |p + "|^|"|, "^|");
  }

  /** `...` after any text expands to the ellipsis …, not to the bullet •
      from `..`. */
  lemma EllipsisBeatsBullet(p: string)
    ensures EndsAtCaret(p + "...", |p + "..."|, "..") && Get(ShortcutMap, "..") == Some("•")
    ensures Expand(ShortcutMap, p + "...", |p + "..."|, |p + "..."|, false) == Some(Expansion(p + "…", |p + "…"|))
  {
    ShortcutMapWellFormed();
    MoreRowsAt();
    NoKeyExtendsEllipsis();
    EllipsisIn(ShortcutMap, p);
  }

  lemma EllipsisIn(t: Table, p: string)
    requires DistinctKeys(t) && 174 < |t| && t[174] == ("...", "…") && t[26] == ("..", "•")
    requires NoKeyExtends(t, "...")
    ensures EndsAtCaret(p + "...", |p + "..."|, "..") && Get(t, "..") == Some("•")
    ensures Expand(t, p + "...", |p + "..."|, |p + "..."|, false) == Some(Expansion(p + "…", |p + "…"|))
  {
    GetDistinct(t, 26);
    EllipsisText(p);
    TextEndingExpands(t, 174, p);
  }

  lemma EllipsisText(p: string)
    ensures EndsAtCaret(p + "...", |p + "..."|, "..")
  {
    assert (p + "...")[|p| + 1] == '.' && (p + "...")[|p| + 2] == '.';
    EndsAtCaretByChars(p + "...", |p + "..."|, "..");
  }

  /** The full handler on the real table: Alt+Enter after `lambda` at the
      start of a line replaces the mnemonic, keeps the rest of the line,
      puts the caret after λ and reports the new text once. */
  lemma HandlerKeepsRestOfLine()
    ensures Handle(ShortcutMap, KeyEvent(true, "Enter", Field("lambda 2", 6, 6, false))) ==
              Effect(Field("λ 2", 1, 1, false), ["λ 2"])
  {
    ShortcutMapWellFormed();
    RowsAt();
    RestOfLineIn(ShortcutMap);
  }

  lemma RestOfLineIn(t: Table)
    requires DistinctKeys(t) && 1 < |t| && t[1] == ("lambda", "λ")
    ensures Handle(t, KeyEvent(true, "Enter", Field("lambda 2", 6, 6, false))) ==
              Effect(Field("λ 2", 1, 1, false), ["λ 2"])
  {
    MnemonicAtLineStart(t, 1, " 2");
    RestOfLineText();
  }

  lemma RestOfLineText()
    ensures "lambda" + " 2" == "lambda 2" && "λ" + " 2" == "λ 2"
    ensures |"lambda"| == 6 && |"λ"| == 1
  {
  }

  /** A small table {lambda, lmb, lambdax}: after `foolambda`, `lambda`
      matches; neither `lmb` nor `lambdax` ends at the caret. */
  lemma SmallTableLongestMatch()
    ensures var t := [("lambda", "λ"), ("lmb", "λ"), ("lambdax", "ƛ")];
      Expand(t, "foolambda", 9, 9, false) == Some(Expansion("fooλ", 4))
  {
    var t := [("lambda", "λ"), ("lmb", "λ"), ("lambdax", "ƛ")];
    FoolambdaText();
    assert t[0].0 == "lambda" && t[1].0 == "lmb" && t[2].0 == "lambdax";
    ExpandChoosesRow(t, "foolambda", 9, 0);
  }

  lemma FoolambdaText()
    ensures |"foolambda"| == 9 && |"lambda"| == 6 && |"λ"| == 1
    ensures EndsAtCaret("foolambda", 9, "lambda")
    ensures !EndsAtCaret("foolambda", 9, "lmb")
    ensures !EndsAtCaret("foolambda", 9, "lambdax")
    ensures "foolambda"[..3] + "λ" + "foolambda"[9..] == "fooλ"
  {
    EndsAtCaretByChars("foolambda", 9, "lambda");
    MismatchBeforeCaret("foolambda", 9, "lmb", 0);
    MismatchBeforeCaret("foolambda", 9, "lambdax", 0);
    assert "foolambda"[..3] == "foo" && "foolambda"[9..] == [];
  }

  /** A small table {rr, ,r} whose keys share the last character: after
      `x,r`, `,r` ends at the caret and `rr` does not. */
  lemma SmallTableSharedSuffix()
    ensures Expand([("rr", "ɾ"), (",r", "ɽ")], "x,r", 3, 3, false) == Some(Expansion("xɽ", 2))
  {
    var t := [("rr", "ɾ"), (",r", "ɽ")];
    SuffixCollisionText();
    assert t[0].0 == "rr" && t[1] == (",r", "ɽ");
    ExpandChoosesRow(t, "x,r", 3, 1);
  }

  lemma SuffixCollisionText()
    ensures |"x,r"| == 3 && |",r"| == 2 && |"ɽ"| == 1 && "rr" != ",r"
    ensures EndsAtCaret("x,r", 3, ",r")
    ensures !EndsAtCaret("x,r", 3, "rr")
    ensures "x,r"[..1] + "ɽ" + "x,r"[3..] == "xɽ"
  {
    EndsAtCaretByChars("x,r", 3, ",r");
    MismatchBeforeCaret("x,r", 3, "rr", 0);
    assert "rr"[0] != ",r"[0];
    assert "x,r"[..1] == "x" && "x,r"[3..] == [];
  }

  /** With the same table, `hello` matches nothing and is left alone. */
  lemma SmallTableNoMatch()
    ensures Expand([("rr", "ɾ"), (",r", "ɽ")], "hello", 5, 5, false).None?
  {
    var t := [("rr", "ɾ"), (",r", "ɽ")];
    NoMatchText();
    NoMatchIsNoOp(t, "hello", 5);
  }

  lemma NoMatchText()
    ensures !EndsAtCaret("hello", 5, "rr") && !EndsAtCaret("hello", 5, ",r")
  {
    MismatchBeforeCaret("hello", 5, "rr", 1);
    MismatchBeforeCaret("hello", 5, ",r", 1);
  }
}
