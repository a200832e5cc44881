/** Facts about the static data, checked block by block and combined with
    the append lemmas at the top of this module: every mnemonic is non-empty,
    not an array index and distinct from every other; every symbol is one
    character of the code page; every catalogue record has exactly one key
    field, of one or two characters. For the mnemonics the examples type
    (`lambdax`, `floor`, `|^|`, `...`) no longer mnemonic ends in them. */
module DataFacts {
  import opened Wrappers
  import opened Data

  /** A shortcut row as the expander needs it: a non-empty mnemonic that is
      not an array index, mapped to a single character of the code page. */
  predicate RowShaped(row: (string, string)) {
    && |row.0| > 0
    && !IsArrayIndex(row.0)
    && |row.1| == 1
  }

  predicate RowsShaped(t: Table) {
    forall i :: 0 <= i < |t| ==> RowShaped(t[i])
  }

  predicate SymbolsInCodepage(t: Table) {
    forall i :: 0 <= i < |t| ==> t[i].1 != [] && t[i].1[0] in Codepage
  }

  predicate KeysDisjoint(a: Table, b: Table) {
    forall i, j :: 0 <= i < |a| && 0 <= j < |b| ==> a[i].0 != b[j].0
  }

  /** Exactly one of `element` and `modifier` is present, and it is one or
      two characters long. */
  predicate OneKeyField(r: Record) {
    && r.element.Some? != r.modifier.Some?
    && (r.element.Some? ==> 1 <= |r.element.value| <= 2)
    && (r.modifier.Some? ==> 1 <= |r.modifier.value| <= 2)
  }

  predicate AllOneKeyField(rs: seq<Record>) {
    forall i :: 0 <= i < |rs| ==> OneKeyField(rs[i])
  }

  lemma RowsShapedAppend(a: Table, b: Table)
    requires RowsShaped(a) && RowsShaped(b)
    ensures RowsShaped(a + b)
  {
    forall i | 0 <= i < |a + b|
      ensures RowShaped((a + b)[i])
    {
      if i >= |a| {
        assert (a + b)[i] == b[i - |a|];
      }
    }
  }

  lemma SymbolsInCodepageAppend(a: Table, b: Table)
    requires SymbolsInCodepage(a) && SymbolsInCodepage(b)
    ensures SymbolsInCodepage(a + b)
  {
    forall i | 0 <= i < |a + b|
      ensures (a + b)[i].1 != [] && (a + b)[i].1[0] in Codepage
    {
      if i >= |a| {
        assert (a + b)[i] == b[i - |a|];
      }
    }
  }

  lemma DistinctAppend(a: Table, b: Table)
    requires DistinctKeys(a) && DistinctKeys(b) && KeysDisjoint(a, b)
    ensures DistinctKeys(a + b)
  {
    forall i, j | 0 <= i < j < |a + b|
      ensures (a + b)[i].0 != (a + b)[j].0
    {
      if j < |a| {
      } else if i < |a| {
        assert (a + b)[j] == b[j - |a|];
      } else {
        assert (a + b)[i] == b[i - |a|];
        assert (a + b)[j] == b[j - |a|];
      }
    }
  }

  lemma DisjointAppend(a: Table, b: Table, c: Table)
    requires KeysDisjoint(a, c) && KeysDisjoint(b, c)
    ensures KeysDisjoint(a + b, c)
  {
    forall i, j | 0 <= i < |a + b| && 0 <= j < |c|
      ensures (a + b)[i].0 != c[j].0
    {
      if i >= |a| {
        assert (a + b)[i] == b[i - |a|];
      }
    }
  }

  lemma OneKeyFieldAppend(a: seq<Record>, b: seq<Record>)
    requires AllOneKeyField(a) && AllOneKeyField(b)
    ensures AllOneKeyField(a + b)
  {
    forall i | 0 <= i < |a + b|
      ensures OneKeyField((a + b)[i])
    {
      if i >= |a| {
        assert (a + b)[i] == b[i - |a|];
      }
    }
  }

  /** No mnemonic of t is longer than w and ends with w: after a text that
      ends in w, no longer mnemonic can end at the caret. */
  predicate NoKeyExtends(t: Table, w: string) {
    forall i :: 0 <= i < |t| && |t[i].0| > |w| ==> t[i].0[|t[i].0| - |w|..] != w
  }

  lemma NoKeyExtendsAppend(a: Table, b: Table, w: string)
    requires NoKeyExtends(a, w) && NoKeyExtends(b, w)
    ensures NoKeyExtends(a + b, w)
  {
    forall i | 0 <= i < |a + b|
      ensures (a + b)[i] == if i < |a| then a[i] else b[i - |a|]
    {
    }
  }

  // Block-by-block facts about the shortcut table.

  lemma ShortcutBlock0Shaped() ensures RowsShaped(ShortcutBlock0) {}
  lemma ShortcutBlock0InCodepage() ensures SymbolsInCodepage(ShortcutBlock0) {}
  lemma ShortcutBlock0FrontDistinct() ensures DistinctKeys(ShortcutBlock0[..9]) {}
  lemma ShortcutBlock0BackDistinct() ensures DistinctKeys(ShortcutBlock0[9..]) {}
  lemma ShortcutBlock0HalvesDisjoint() ensures KeysDisjoint(ShortcutBlock0[..9], ShortcutBlock0[9..]) {}
  lemma ShortcutBlock0Distinct() ensures DistinctKeys(ShortcutBlock0) {
    ShortcutBlock0FrontDistinct();
    ShortcutBlock0BackDistinct();
    ShortcutBlock0HalvesDisjoint();
    DistinctAppend(ShortcutBlock0[..9], ShortcutBlock0[9..]);
    assert ShortcutBlock0 == ShortcutBlock0[..9] + ShortcutBlock0[9..];
  }
  lemma ShortcutBlock1Shaped() ensures RowsShaped(ShortcutBlock1) {}
  lemma ShortcutBlock1InCodepage() ensures SymbolsInCodepage(ShortcutBlock1) {}
  lemma ShortcutBlock1FrontDistinct() ensures DistinctKeys(ShortcutBlock1[..9]) {}
  lemma ShortcutBlock1BackDistinct() ensures DistinctKeys(ShortcutBlock1[9..]) {}
  lemma ShortcutBlock1HalvesDisjoint() ensures KeysDisjoint(ShortcutBlock1[..9], ShortcutBlock1[9..]) {}
  lemma ShortcutBlock1Distinct() ensures DistinctKeys(ShortcutBlock1) {
    ShortcutBlock1FrontDistinct();
    ShortcutBlock1BackDistinct();
    ShortcutBlock1HalvesDisjoint();
    DistinctAppend(ShortcutBlock1[..9], ShortcutBlock1[9..]);
    assert ShortcutBlock1 == ShortcutBlock1[..9] + ShortcutBlock1[9..];
  }
  lemma ShortcutBlock2Shaped() ensures RowsShaped(ShortcutBlock2) {}
  lemma ShortcutBlock2InCodepage() ensures SymbolsInCodepage(ShortcutBlock2) {}
  lemma ShortcutBlock2FrontDistinct() ensures DistinctKeys(ShortcutBlock2[..9]) {}
  lemma ShortcutBlock2BackDistinct() ensures DistinctKeys(ShortcutBlock2[9..]) {}
  lemma ShortcutBlock2HalvesDisjoint() ensures KeysDisjoint(ShortcutBlock2[..9], ShortcutBlock2[9..]) {}
  lemma ShortcutBlock2Distinct() ensures DistinctKeys(ShortcutBlock2) {
    ShortcutBlock2FrontDistinct();
    ShortcutBlock2BackDistinct();
    ShortcutBlock2HalvesDisjoint();
    DistinctAppend(ShortcutBlock2[..9], ShortcutBlock2[9..]);
    assert ShortcutBlock2 == ShortcutBlock2[..9] + ShortcutBlock2[9..];
  }
  lemma ShortcutBlock3Shaped() ensures RowsShaped(ShortcutBlock3) {}
  lemma ShortcutBlock3InCodepage() ensures SymbolsInCodepage(ShortcutBlock3) {}
  lemma ShortcutBlock3FrontDistinct() ensures DistinctKeys(ShortcutBlock3[..9]) {}
  lemma ShortcutBlock3BackDistinct() ensures DistinctKeys(ShortcutBlock3[9..]) {}
  lemma ShortcutBlock3HalvesDisjoint() ensures KeysDisjoint(ShortcutBlock3[..9], ShortcutBlock3[9..]) {}
  lemma ShortcutBlock3Distinct() ensures DistinctKeys(ShortcutBlock3) {
    ShortcutBlock3FrontDistinct();
    ShortcutBlock3BackDistinct();
    ShortcutBlock3HalvesDisjoint();
    DistinctAppend(ShortcutBlock3[..9], ShortcutBlock3[9..]);
    assert ShortcutBlock3 == ShortcutBlock3[..9] + ShortcutBlock3[9..];
  }
  lemma ShortcutBlock4Shaped() ensures RowsShaped(ShortcutBlock4) {}
  lemma ShortcutBlock4InCodepage() ensures SymbolsInCodepage(ShortcutBlock4) {}
  lemma ShortcutBlock4FrontDistinct() ensures DistinctKeys(ShortcutBlock4[..8]) {}
  lemma ShortcutBlock4BackDistinct() ensures DistinctKeys(ShortcutBlock4[8..]) {}
  lemma ShortcutBlock4HalvesDisjoint() ensures KeysDisjoint(ShortcutBlock4[..8], ShortcutBlock4[8..]) {}
  lemma ShortcutBlock4Distinct() ensures DistinctKeys(ShortcutBlock4) {
    ShortcutBlock4FrontDistinct();
    ShortcutBlock4BackDistinct();
    ShortcutBlock4HalvesDisjoint();
    DistinctAppend(ShortcutBlock4[..8], ShortcutBlock4[8..]);
    assert ShortcutBlock4 == ShortcutBlock4[..8] + ShortcutBlock4[8..];
  }
  lemma ShortcutBlock5Shaped() ensures RowsShaped(ShortcutBlock5) {}
  lemma ShortcutBlock5InCodepage() ensures SymbolsInCodepage(ShortcutBlock5) {}
  lemma ShortcutBlock5FrontDistinct() ensures DistinctKeys(ShortcutBlock5[..8]) {}
  lemma ShortcutBlock5BackDistinct() ensures DistinctKeys(ShortcutBlock5[8..]) {}
  lemma ShortcutBlock5HalvesDisjoint() ensures KeysDisjoint(ShortcutBlock5[..8], ShortcutBlock5[8..]) {}
  lemma ShortcutBlock5Distinct() ensures DistinctKeys(ShortcutBlock5) {
    ShortcutBlock5FrontDistinct();
    ShortcutBlock5BackDistinct();
    ShortcutBlock5HalvesDisjoint();
    DistinctAppend(ShortcutBlock5[..8], ShortcutBlock5[8..]);
    assert ShortcutBlock5 == ShortcutBlock5[..8] + ShortcutBlock5[8..];
  }
  lemma ShortcutBlock6Shaped() ensures RowsShaped(ShortcutBlock6) {}
  lemma ShortcutBlock6InCodepage() ensures SymbolsInCodepage(ShortcutBlock6) {}
  lemma ShortcutBlock6FrontDistinct() ensures DistinctKeys(ShortcutBlock6[..8]) {}
  lemma ShortcutBlock6BackDistinct() ensures DistinctKeys(ShortcutBlock6[8..]) {}
  lemma ShortcutBlock6HalvesDisjoint() ensures KeysDisjoint(ShortcutBlock6[..8], ShortcutBlock6[8..]) {}
  lemma ShortcutBlock6Distinct() ensures DistinctKeys(ShortcutBlock6) {
    ShortcutBlock6FrontDistinct();
    ShortcutBlock6BackDistinct();
    ShortcutBlock6HalvesDisjoint();
    DistinctAppend(ShortcutBlock6[..8], ShortcutBlock6[8..]);
    assert ShortcutBlock6 == ShortcutBlock6[..8] + ShortcutBlock6[8..];
  }
  lemma ShortcutBlock7Shaped() ensures RowsShaped(ShortcutBlock7) {}
  lemma ShortcutBlock7InCodepage() ensures SymbolsInCodepage(ShortcutBlock7) {}
  lemma ShortcutBlock7FrontDistinct() ensures DistinctKeys(ShortcutBlock7[..8]) {}
  lemma ShortcutBlock7BackDistinct() ensures DistinctKeys(ShortcutBlock7[8..]) {}
  lemma ShortcutBlock7HalvesDisjoint() ensures KeysDisjoint(ShortcutBlock7[..8], ShortcutBlock7[8..]) {}
  lemma ShortcutBlock7Distinct() ensures DistinctKeys(ShortcutBlock7) {
    ShortcutBlock7FrontDistinct();
    ShortcutBlock7BackDistinct();
    ShortcutBlock7HalvesDisjoint();
    DistinctAppend(ShortcutBlock7[..8], ShortcutBlock7[8..]);
    assert ShortcutBlock7 == ShortcutBlock7[..8] + ShortcutBlock7[8..];
  }
  lemma ShortcutBlock8Shaped() ensures RowsShaped(ShortcutBlock8) {}
  lemma ShortcutBlock8InCodepage() ensures SymbolsInCodepage(ShortcutBlock8) {}
  lemma ShortcutBlock8FrontDistinct() ensures DistinctKeys(ShortcutBlock8[..8]) {}
  lemma ShortcutBlock8BackDistinct() ensures DistinctKeys(ShortcutBlock8[8..]) {}
  lemma ShortcutBlock8HalvesDisjoint() ensures KeysDisjoint(ShortcutBlock8[..8], ShortcutBlock8[8..]) {}
  lemma ShortcutBlock8Distinct() ensures DistinctKeys(ShortcutBlock8) {
    ShortcutBlock8FrontDistinct();
    ShortcutBlock8BackDistinct();
    ShortcutBlock8HalvesDisjoint();
    DistinctAppend(ShortcutBlock8[..8], ShortcutBlock8[8..]);
    assert ShortcutBlock8 == ShortcutBlock8[..8] + ShortcutBlock8[8..];
  }
  lemma ShortcutBlock9Shaped() ensures RowsShaped(ShortcutBlock9) {}
  lemma ShortcutBlock9InCodepage() ensures SymbolsInCodepage(ShortcutBlock9) {}
  lemma ShortcutBlock9FrontDistinct() ensures DistinctKeys(ShortcutBlock9[..8]) {}
  lemma ShortcutBlock9BackDistinct() ensures DistinctKeys(ShortcutBlock9[8..]) {}
  lemma ShortcutBlock9HalvesDisjoint() ensures KeysDisjoint(ShortcutBlock9[..8], ShortcutBlock9[8..]) {}
  lemma ShortcutBlock9Distinct() ensures DistinctKeys(ShortcutBlock9) {
    ShortcutBlock9FrontDistinct();
    ShortcutBlock9BackDistinct();
    ShortcutBlock9HalvesDisjoint();
    DistinctAppend(ShortcutBlock9[..8], ShortcutBlock9[8..]);
    assert ShortcutBlock9 == ShortcutBlock9[..8] + ShortcutBlock9[8..];
  }
  lemma ShortcutBlock10Shaped() ensures RowsShaped(ShortcutBlock10) {}
  lemma ShortcutBlock10InCodepage() ensures SymbolsInCodepage(ShortcutBlock10) {}
  lemma ShortcutBlock10FrontDistinct() ensures DistinctKeys(ShortcutBlock10[..8]) {}
  lemma ShortcutBlock10BackDistinct() ensures DistinctKeys(ShortcutBlock10[8..]) {}
  lemma ShortcutBlock10HalvesDisjoint() ensures KeysDisjoint(ShortcutBlock10[..8], ShortcutBlock10[8..]) {}
  lemma ShortcutBlock10Distinct() ensures DistinctKeys(ShortcutBlock10) {
    ShortcutBlock10FrontDistinct();
    ShortcutBlock10BackDistinct();
    ShortcutBlock10HalvesDisjoint();
    DistinctAppend(ShortcutBlock10[..8], ShortcutBlock10[8..]);
    assert ShortcutBlock10 == ShortcutBlock10[..8] + ShortcutBlock10[8..];
  }
  lemma ShortcutBlock11Shaped() ensures RowsShaped(ShortcutBlock11) {}
  lemma ShortcutBlock11InCodepage() ensures SymbolsInCodepage(ShortcutBlock11) {}
  lemma ShortcutBlock11FrontDistinct() ensures DistinctKeys(ShortcutBlock11[..8]) {}
  lemma ShortcutBlock11BackDistinct() ensures DistinctKeys(ShortcutBlock11[8..]) {}
  lemma ShortcutBlock11HalvesDisjoint() ensures KeysDisjoint(ShortcutBlock11[..8], ShortcutBlock11[8..]) {}
  lemma ShortcutBlock11Distinct() ensures DistinctKeys(ShortcutBlock11) {
    ShortcutBlock11FrontDistinct();
    ShortcutBlock11BackDistinct();
    ShortcutBlock11HalvesDisjoint();
    DistinctAppend(ShortcutBlock11[..8], ShortcutBlock11[8..]);
    assert ShortcutBlock11 == ShortcutBlock11[..8] + ShortcutBlock11[8..];
  }
  lemma ShortcutBlock12Shaped() ensures RowsShaped(ShortcutBlock12) {}
  lemma ShortcutBlock12InCodepage() ensures SymbolsInCodepage(ShortcutBlock12) {}
  lemma ShortcutBlock12FrontDistinct() ensures DistinctKeys(ShortcutBlock12[..8]) {}
  lemma ShortcutBlock12BackDistinct() ensures DistinctKeys(ShortcutBlock12[8..]) {}
  lemma ShortcutBlock12HalvesDisjoint() ensures KeysDisjoint(ShortcutBlock12[..8], ShortcutBlock12[8..]) {}
  lemma ShortcutBlock12Distinct() ensures DistinctKeys(ShortcutBlock12) {
    ShortcutBlock12FrontDistinct();
    ShortcutBlock12BackDistinct();
    ShortcutBlock12HalvesDisjoint();
    DistinctAppend(ShortcutBlock12[..8], ShortcutBlock12[8..]);
    assert ShortcutBlock12 == ShortcutBlock12[..8] + ShortcutBlock12[8..];
  }
  lemma ShortcutBlock13Shaped() ensures RowsShaped(ShortcutBlock13) {}
  lemma ShortcutBlock13InCodepage() ensures SymbolsInCodepage(ShortcutBlock13) {}
  lemma ShortcutBlock13FrontDistinct() ensures DistinctKeys(ShortcutBlock13[..8]) {}
  lemma ShortcutBlock13BackDistinct() ensures DistinctKeys(ShortcutBlock13[8..]) {}
  lemma ShortcutBlock13HalvesDisjoint() ensures KeysDisjoint(ShortcutBlock13[..8], ShortcutBlock13[8..]) {}
  lemma ShortcutBlock13Distinct() ensures DistinctKeys(ShortcutBlock13) {
    ShortcutBlock13FrontDistinct();
    ShortcutBlock13BackDistinct();
    ShortcutBlock13HalvesDisjoint();
    DistinctAppend(ShortcutBlock13[..8], ShortcutBlock13[8..]);
    assert ShortcutBlock13 == ShortcutBlock13[..8] + ShortcutBlock13[8..];
  }

  lemma ShortcutBlocks0And1Disjoint() ensures KeysDisjoint(ShortcutBlock0, ShortcutBlock1) {
    ShortcutBlocks0And1FrontDisjoint();
    ShortcutBlocks0And1BackDisjoint();
    DisjointAppend(ShortcutBlock0[..9], ShortcutBlock0[9..], ShortcutBlock1);
    assert ShortcutBlock0 == ShortcutBlock0[..9] + ShortcutBlock0[9..];
  }
  lemma ShortcutBlocks0And1FrontDisjoint() ensures KeysDisjoint(ShortcutBlock0[..9], ShortcutBlock1) {}
  lemma ShortcutBlocks0And1BackDisjoint() ensures KeysDisjoint(ShortcutBlock0[9..], ShortcutBlock1) {}
  lemma ShortcutBlocks0And2Disjoint() ensures KeysDisjoint(ShortcutBlock0, ShortcutBlock2) {
    ShortcutBlocks0And2FrontDisjoint();
    ShortcutBlocks0And2BackDisjoint();
    DisjointAppend(ShortcutBlock0[..9], ShortcutBlock0[9..], ShortcutBlock2);
    assert ShortcutBlock0 == ShortcutBlock0[..9] + ShortcutBlock0[9..];
  }
  lemma ShortcutBlocks0And2FrontDisjoint() ensures KeysDisjoint(ShortcutBlock0[..9], ShortcutBlock2) {}
  lemma ShortcutBlocks0And2BackDisjoint() ensures KeysDisjoint(ShortcutBlock0[9..], ShortcutBlock2) {}
  lemma ShortcutBlocks0And3Disjoint() ensures KeysDisjoint(ShortcutBlock0, ShortcutBlock3) {
    ShortcutBlocks0And3FrontDisjoint();
    ShortcutBlocks0And3BackDisjoint();
    DisjointAppend(ShortcutBlock0[..9], ShortcutBlock0[9..], ShortcutBlock3);
    assert ShortcutBlock0 == ShortcutBlock0[..9] + ShortcutBlock0[9..];
  }
  lemma ShortcutBlocks0And3FrontDisjoint() ensures KeysDisjoint(ShortcutBlock0[..9], ShortcutBlock3) {}
  lemma ShortcutBlocks0And3BackDisjoint() ensures KeysDisjoint(ShortcutBlock0[9..], ShortcutBlock3) {}
  lemma ShortcutBlocks0And4Disjoint() ensures KeysDisjoint(ShortcutBlock0, ShortcutBlock4) {
    ShortcutBlocks0And4FrontDisjoint();
    ShortcutBlocks0And4BackDisjoint();
    DisjointAppend(ShortcutBlock0[..9], ShortcutBlock0[9..], ShortcutBlock4);
    assert ShortcutBlock0 == ShortcutBlock0[..9] + ShortcutBlock0[9..];
  }
  lemma ShortcutBlocks0And4FrontDisjoint() ensures KeysDisjoint(ShortcutBlock0[..9], ShortcutBlock4) {}
  lemma ShortcutBlocks0And4BackDisjoint() ensures KeysDisjoint(ShortcutBlock0[9..], ShortcutBlock4) {}
  lemma ShortcutBlocks0And5Disjoint() ensures KeysDisjoint(ShortcutBlock0, ShortcutBlock5) {
    ShortcutBlocks0And5FrontDisjoint();
    ShortcutBlocks0And5BackDisjoint();
    DisjointAppend(ShortcutBlock0[..9], ShortcutBlock0[9..], ShortcutBlock5);
    assert ShortcutBlock0 == ShortcutBlock0[..9] + ShortcutBlock0[9..];
  }
  lemma ShortcutBlocks0And5FrontDisjoint() ensures KeysDisjoint(ShortcutBlock0[..9], ShortcutBlock5) {}
  lemma ShortcutBlocks0And5BackDisjoint() ensures KeysDisjoint(ShortcutBlock0[9..], ShortcutBlock5) {}
  lemma ShortcutBlocks0And6Disjoint() ensures KeysDisjoint(ShortcutBlock0, ShortcutBlock6) {
    ShortcutBlocks0And6FrontDisjoint();
    ShortcutBlocks0And6BackDisjoint();
    DisjointAppend(ShortcutBlock0[..9], ShortcutBlock0[9..], ShortcutBlock6);
    assert ShortcutBlock0 == ShortcutBlock0[..9] + ShortcutBlock0[9..];
  }
  lemma ShortcutBlocks0And6FrontDisjoint() ensures KeysDisjoint(ShortcutBlock0[..9], ShortcutBlock6) {}
  lemma ShortcutBlocks0And6BackDisjoint() ensures KeysDisjoint(ShortcutBlock0[9..], ShortcutBlock6) {}
  lemma ShortcutBlocks0And7Disjoint() ensures KeysDisjoint(ShortcutBlock0, ShortcutBlock7) {
    ShortcutBlocks0And7FrontDisjoint();
    ShortcutBlocks0And7BackDisjoint();
    DisjointAppend(ShortcutBlock0[..9], ShortcutBlock0[9..], ShortcutBlock7);
    assert ShortcutBlock0 == ShortcutBlock0[..9] + ShortcutBlock0[9..];
  }
  lemma ShortcutBlocks0And7FrontDisjoint() ensures KeysDisjoint(ShortcutBlock0[..9], ShortcutBlock7) {}
  lemma ShortcutBlocks0And7BackDisjoint() ensures KeysDisjoint(ShortcutBlock0[9..], ShortcutBlock7) {}
  lemma ShortcutBlocks0And8Disjoint() ensures KeysDisjoint(ShortcutBlock0, ShortcutBlock8) {
    ShortcutBlocks0And8FrontDisjoint();
    ShortcutBlocks0And8BackDisjoint();
    DisjointAppend(ShortcutBlock0[..9], ShortcutBlock0[9..], ShortcutBlock8);
    assert ShortcutBlock0 == ShortcutBlock0[..9] + ShortcutBlock0[9..];
  }
  lemma ShortcutBlocks0And8FrontDisjoint() ensures KeysDisjoint(ShortcutBlock0[..9], ShortcutBlock8) {}
  lemma ShortcutBlocks0And8BackDisjoint() ensures KeysDisjoint(ShortcutBlock0[9..], ShortcutBlock8) {}
  lemma ShortcutBlocks0And9Disjoint() ensures KeysDisjoint(ShortcutBlock0, ShortcutBlock9) {
    ShortcutBlocks0And9FrontDisjoint();
    ShortcutBlocks0And9BackDisjoint();
    DisjointAppend(ShortcutBlock0[..9], ShortcutBlock0[9..], ShortcutBlock9);
    assert ShortcutBlock0 == ShortcutBlock0[..9] + ShortcutBlock0[9..];
  }
  lemma ShortcutBlocks0And9FrontDisjoint() ensures KeysDisjoint(ShortcutBlock0[..9], ShortcutBlock9) {}
  lemma ShortcutBlocks0And9BackDisjoint() ensures KeysDisjoint(ShortcutBlock0[9..], ShortcutBlock9) {}
  lemma ShortcutBlocks0And10Disjoint() ensures KeysDisjoint(ShortcutBlock0, ShortcutBlock10) {
    ShortcutBlocks0And10FrontDisjoint();
    ShortcutBlocks0And10BackDisjoint();
    DisjointAppend(ShortcutBlock0[..9], ShortcutBlock0[9..], ShortcutBlock10);
    assert ShortcutBlock0 == ShortcutBlock0[..9] + ShortcutBlock0[9..];
  }
  lemma ShortcutBlocks0And10FrontDisjoint() ensures KeysDisjoint(ShortcutBlock0[..9], ShortcutBlock10) {}
  lemma ShortcutBlocks0And10BackDisjoint() ensures KeysDisjoint(ShortcutBlock0[9..], ShortcutBlock10) {}
  lemma ShortcutBlocks0And11Disjoint() ensures KeysDisjoint(ShortcutBlock0, ShortcutBlock11) {
    ShortcutBlocks0And11FrontDisjoint();
    ShortcutBlocks0And11BackDisjoint();
    DisjointAppend(ShortcutBlock0[..9], ShortcutBlock0[9..], ShortcutBlock11);
    assert ShortcutBlock0 == ShortcutBlock0[..9] + ShortcutBlock0[9..];
  }
  lemma ShortcutBlocks0And11FrontDisjoint() ensures KeysDisjoint(ShortcutBlock0[..9], ShortcutBlock11) {}
  lemma ShortcutBlocks0And11BackDisjoint() ensures KeysDisjoint(ShortcutBlock0[9..], ShortcutBlock11) {}
  lemma ShortcutBlocks0And12Disjoint() ensures KeysDisjoint(ShortcutBlock0, ShortcutBlock12) {
    ShortcutBlocks0And12FrontDisjoint();
    ShortcutBlocks0And12BackDisjoint();
    DisjointAppend(ShortcutBlock0[..9], ShortcutBlock0[9..], ShortcutBlock12);
    assert ShortcutBlock0 == ShortcutBlock0[..9] + ShortcutBlock0[9..];
  }
  lemma ShortcutBlocks0And12FrontDisjoint() ensures KeysDisjoint(ShortcutBlock0[..9], ShortcutBlock12) {}
  lemma ShortcutBlocks0And12BackDisjoint() ensures KeysDisjoint(ShortcutBlock0[9..], ShortcutBlock12) {}
  lemma ShortcutBlocks0And13Disjoint() ensures KeysDisjoint(ShortcutBlock0, ShortcutBlock13) {
    ShortcutBlocks0And13FrontDisjoint();
    ShortcutBlocks0And13BackDisjoint();
    DisjointAppend(ShortcutBlock0[..9], ShortcutBlock0[9..], ShortcutBlock13);
    assert ShortcutBlock0 == ShortcutBlock0[..9] + ShortcutBlock0[9..];
  }
  lemma ShortcutBlocks0And13FrontDisjoint() ensures KeysDisjoint(ShortcutBlock0[..9], ShortcutBlock13) {}
  lemma ShortcutBlocks0And13BackDisjoint() ensures KeysDisjoint(ShortcutBlock0[9..], ShortcutBlock13) {}
  lemma ShortcutBlocks1And2Disjoint() ensures KeysDisjoint(ShortcutBlock1, ShortcutBlock2) {
    ShortcutBlocks1And2FrontDisjoint();
    ShortcutBlocks1And2BackDisjoint();
    DisjointAppend(ShortcutBlock1[..9], ShortcutBlock1[9..], ShortcutBlock2);
    assert ShortcutBlock1 == ShortcutBlock1[..9] + ShortcutBlock1[9..];
  }
  lemma ShortcutBlocks1And2FrontDisjoint() ensures KeysDisjoint(ShortcutBlock1[..9], ShortcutBlock2) {}
  lemma ShortcutBlocks1And2BackDisjoint() ensures KeysDisjoint(ShortcutBlock1[9..], ShortcutBlock2) {}
  lemma ShortcutBlocks1And3Disjoint() ensures KeysDisjoint(ShortcutBlock1, ShortcutBlock3) {
    ShortcutBlocks1And3FrontDisjoint();
    ShortcutBlocks1And3BackDisjoint();
    DisjointAppend(ShortcutBlock1[..9], ShortcutBlock1[9..], ShortcutBlock3);
    assert ShortcutBlock1 == ShortcutBlock1[..9] + ShortcutBlock1[9..];
  }
  lemma ShortcutBlocks1And3FrontDisjoint() ensures KeysDisjoint(ShortcutBlock1[..9], ShortcutBlock3) {}
  lemma ShortcutBlocks1And3BackDisjoint() ensures KeysDisjoint(ShortcutBlock1[9..], ShortcutBlock3) {}
  lemma ShortcutBlocks1And4Disjoint() ensures KeysDisjoint(ShortcutBlock1, ShortcutBlock4) {
    ShortcutBlocks1And4FrontDisjoint();
    ShortcutBlocks1And4BackDisjoint();
    DisjointAppend(ShortcutBlock1[..9], ShortcutBlock1[9..], ShortcutBlock4);
    assert ShortcutBlock1 == ShortcutBlock1[..9] + ShortcutBlock1[9..];
  }
  lemma ShortcutBlocks1And4FrontDisjoint() ensures KeysDisjoint(ShortcutBlock1[..9], ShortcutBlock4) {}
  lemma ShortcutBlocks1And4BackDisjoint() ensures KeysDisjoint(ShortcutBlock1[9..], ShortcutBlock4) {}
  lemma ShortcutBlocks1And5Disjoint() ensures KeysDisjoint(ShortcutBlock1, ShortcutBlock5) {
    ShortcutBlocks1And5FrontDisjoint();
    ShortcutBlocks1And5BackDisjoint();
    DisjointAppend(ShortcutBlock1[..9], ShortcutBlock1[9..], ShortcutBlock5);
    assert ShortcutBlock1 == ShortcutBlock1[..9] + ShortcutBlock1[9..];
  }
  lemma ShortcutBlocks1And5FrontDisjoint() ensures KeysDisjoint(ShortcutBlock1[..9], ShortcutBlock5) {}
  lemma ShortcutBlocks1And5BackDisjoint() ensures KeysDisjoint(ShortcutBlock1[9..], ShortcutBlock5) {}
  lemma ShortcutBlocks1And6Disjoint() ensures KeysDisjoint(ShortcutBlock1, ShortcutBlock6) {
    ShortcutBlocks1And6FrontDisjoint();
    ShortcutBlocks1And6BackDisjoint();
    DisjointAppend(ShortcutBlock1[..9], ShortcutBlock1[9..], ShortcutBlock6);
    assert ShortcutBlock1 == ShortcutBlock1[..9] + ShortcutBlock1[9..];
  }
  lemma ShortcutBlocks1And6FrontDisjoint() ensures KeysDisjoint(ShortcutBlock1[..9], ShortcutBlock6) {}
  lemma ShortcutBlocks1And6BackDisjoint() ensures KeysDisjoint(ShortcutBlock1[9..], ShortcutBlock6) {}
  lemma ShortcutBlocks1And7Disjoint() ensures KeysDisjoint(ShortcutBlock1, ShortcutBlock7) {
    ShortcutBlocks1And7FrontDisjoint();
    ShortcutBlocks1And7BackDisjoint();
    DisjointAppend(ShortcutBlock1[..9], ShortcutBlock1[9..], ShortcutBlock7);
    assert ShortcutBlock1 == ShortcutBlock1[..9] + ShortcutBlock1[9..];
  }
  lemma ShortcutBlocks1And7FrontDisjoint() ensures KeysDisjoint(ShortcutBlock1[..9], ShortcutBlock7) {}
  lemma ShortcutBlocks1And7BackDisjoint() ensures KeysDisjoint(ShortcutBlock1[9..], ShortcutBlock7) {}
  lemma ShortcutBlocks1And8Disjoint() ensures KeysDisjoint(ShortcutBlock1, ShortcutBlock8) {
    ShortcutBlocks1And8FrontDisjoint();
    ShortcutBlocks1And8BackDisjoint();
    DisjointAppend(ShortcutBlock1[..9], ShortcutBlock1[9..], ShortcutBlock8);
    assert ShortcutBlock1 == ShortcutBlock1[..9] + ShortcutBlock1[9..];
  }
  lemma ShortcutBlocks1And8FrontDisjoint() ensures KeysDisjoint(ShortcutBlock1[..9], ShortcutBlock8) {}
  lemma ShortcutBlocks1And8BackDisjoint() ensures KeysDisjoint(ShortcutBlock1[9..], ShortcutBlock8) {}
  lemma ShortcutBlocks1And9Disjoint() ensures KeysDisjoint(ShortcutBlock1, ShortcutBlock9) {
    ShortcutBlocks1And9FrontDisjoint();
    ShortcutBlocks1And9BackDisjoint();
    DisjointAppend(ShortcutBlock1[..9], ShortcutBlock1[9..], ShortcutBlock9);
    assert ShortcutBlock1 == ShortcutBlock1[..9] + ShortcutBlock1[9..];
  }
  lemma ShortcutBlocks1And9FrontDisjoint() ensures KeysDisjoint(ShortcutBlock1[..9], ShortcutBlock9) {}
  lemma ShortcutBlocks1And9BackDisjoint() ensures KeysDisjoint(ShortcutBlock1[9..], ShortcutBlock9) {}
  lemma ShortcutBlocks1And10Disjoint() ensures KeysDisjoint(ShortcutBlock1, ShortcutBlock10) {
    ShortcutBlocks1And10FrontDisjoint();
    ShortcutBlocks1And10BackDisjoint();
    DisjointAppend(ShortcutBlock1[..9], ShortcutBlock1[9..], ShortcutBlock10);
    assert ShortcutBlock1 == ShortcutBlock1[..9] + ShortcutBlock1[9..];
  }
  lemma ShortcutBlocks1And10FrontDisjoint() ensures KeysDisjoint(ShortcutBlock1[..9], ShortcutBlock10) {}
  lemma ShortcutBlocks1And10BackDisjoint() ensures KeysDisjoint(ShortcutBlock1[9..], ShortcutBlock10) {}
  lemma ShortcutBlocks1And11Disjoint() ensures KeysDisjoint(ShortcutBlock1, ShortcutBlock11) {
    ShortcutBlocks1And11FrontDisjoint();
    ShortcutBlocks1And11BackDisjoint();
    DisjointAppend(ShortcutBlock1[..9], ShortcutBlock1[9..], ShortcutBlock11);
    assert ShortcutBlock1 == ShortcutBlock1[..9] + ShortcutBlock1[9..];
  }
  lemma ShortcutBlocks1And11FrontDisjoint() ensures KeysDisjoint(ShortcutBlock1[..9], ShortcutBlock11) {}
  lemma ShortcutBlocks1And11BackDisjoint() ensures KeysDisjoint(ShortcutBlock1[9..], ShortcutBlock11) {}
  lemma ShortcutBlocks1And12Disjoint() ensures KeysDisjoint(ShortcutBlock1, ShortcutBlock12) {
    ShortcutBlocks1And12FrontDisjoint();
    ShortcutBlocks1And12BackDisjoint();
    DisjointAppend(ShortcutBlock1[..9], ShortcutBlock1[9..], ShortcutBlock12);
    assert ShortcutBlock1 == ShortcutBlock1[..9] + ShortcutBlock1[9..];
  }
  lemma ShortcutBlocks1And12FrontDisjoint() ensures KeysDisjoint(ShortcutBlock1[..9], ShortcutBlock12) {}
  lemma ShortcutBlocks1And12BackDisjoint() ensures KeysDisjoint(ShortcutBlock1[9..], ShortcutBlock12) {}
  lemma ShortcutBlocks1And13Disjoint() ensures KeysDisjoint(ShortcutBlock1, ShortcutBlock13) {
    ShortcutBlocks1And13FrontDisjoint();
    ShortcutBlocks1And13BackDisjoint();
    DisjointAppend(ShortcutBlock1[..9], ShortcutBlock1[9..], ShortcutBlock13);
    assert ShortcutBlock1 == ShortcutBlock1[..9] + ShortcutBlock1[9..];
  }
  lemma ShortcutBlocks1And13FrontDisjoint() ensures KeysDisjoint(ShortcutBlock1[..9], ShortcutBlock13) {}
  lemma ShortcutBlocks1And13BackDisjoint() ensures KeysDisjoint(ShortcutBlock1[9..], ShortcutBlock13) {}
  lemma ShortcutBlocks2And3Disjoint() ensures KeysDisjoint(ShortcutBlock2, ShortcutBlock3) {
    ShortcutBlocks2And3FrontDisjoint();
    ShortcutBlocks2And3BackDisjoint();
    DisjointAppend(ShortcutBlock2[..9], ShortcutBlock2[9..], ShortcutBlock3);
    assert ShortcutBlock2 == ShortcutBlock2[..9] + ShortcutBlock2[9..];
  }
  lemma ShortcutBlocks2And3FrontDisjoint() ensures KeysDisjoint(ShortcutBlock2[..9], ShortcutBlock3) {}
  lemma ShortcutBlocks2And3BackDisjoint() ensures KeysDisjoint(ShortcutBlock2[9..], ShortcutBlock3) {}
  lemma ShortcutBlocks2And4Disjoint() ensures KeysDisjoint(ShortcutBlock2, ShortcutBlock4) {
    ShortcutBlocks2And4FrontDisjoint();
    ShortcutBlocks2And4BackDisjoint();
    DisjointAppend(ShortcutBlock2[..9], ShortcutBlock2[9..], ShortcutBlock4);
    assert ShortcutBlock2 == ShortcutBlock2[..9] + ShortcutBlock2[9..];
  }
  lemma ShortcutBlocks2And4FrontDisjoint() ensures KeysDisjoint(ShortcutBlock2[..9], ShortcutBlock4) {}
  lemma ShortcutBlocks2And4BackDisjoint() ensures KeysDisjoint(ShortcutBlock2[9..], ShortcutBlock4) {}
  lemma ShortcutBlocks2And5Disjoint() ensures KeysDisjoint(ShortcutBlock2, ShortcutBlock5) {
    ShortcutBlocks2And5FrontDisjoint();
    ShortcutBlocks2And5BackDisjoint();
    DisjointAppend(ShortcutBlock2[..9], ShortcutBlock2[9..], ShortcutBlock5);
    assert ShortcutBlock2 == ShortcutBlock2[..9] + ShortcutBlock2[9..];
  }
  lemma ShortcutBlocks2And5FrontDisjoint() ensures KeysDisjoint(ShortcutBlock2[..9], ShortcutBlock5) {}
  lemma ShortcutBlocks2And5BackDisjoint() ensures KeysDisjoint(ShortcutBlock2[9..], ShortcutBlock5) {}
  lemma ShortcutBlocks2And6Disjoint() ensures KeysDisjoint(ShortcutBlock2, ShortcutBlock6) {
    ShortcutBlocks2And6FrontDisjoint();
    ShortcutBlocks2And6BackDisjoint();
    DisjointAppend(ShortcutBlock2[..9], ShortcutBlock2[9..], ShortcutBlock6);
    assert ShortcutBlock2 == ShortcutBlock2[..9] + ShortcutBlock2[9..];
  }
  lemma ShortcutBlocks2And6FrontDisjoint() ensures KeysDisjoint(ShortcutBlock2[..9], ShortcutBlock6) {}
  lemma ShortcutBlocks2And6BackDisjoint() ensures KeysDisjoint(ShortcutBlock2[9..], ShortcutBlock6) {}
  lemma ShortcutBlocks2And7Disjoint() ensures KeysDisjoint(ShortcutBlock2, ShortcutBlock7) {
    ShortcutBlocks2And7FrontDisjoint();
    ShortcutBlocks2And7BackDisjoint();
    DisjointAppend(ShortcutBlock2[..9], ShortcutBlock2[9..], ShortcutBlock7);
    assert ShortcutBlock2 == ShortcutBlock2[..9] + ShortcutBlock2[9..];
  }
  lemma ShortcutBlocks2And7FrontDisjoint() ensures KeysDisjoint(ShortcutBlock2[..9], ShortcutBlock7) {}
  lemma ShortcutBlocks2And7BackDisjoint() ensures KeysDisjoint(ShortcutBlock2[9..], ShortcutBlock7) {}
  lemma ShortcutBlocks2And8Disjoint() ensures KeysDisjoint(ShortcutBlock2, ShortcutBlock8) {
    ShortcutBlocks2And8FrontDisjoint();
    ShortcutBlocks2And8BackDisjoint();
    DisjointAppend(ShortcutBlock2[..9], ShortcutBlock2[9..], ShortcutBlock8);
    assert ShortcutBlock2 == ShortcutBlock2[..9] + ShortcutBlock2[9..];
  }
  lemma ShortcutBlocks2And8FrontDisjoint() ensures KeysDisjoint(ShortcutBlock2[..9], ShortcutBlock8) {}
  lemma ShortcutBlocks2And8BackDisjoint() ensures KeysDisjoint(ShortcutBlock2[9..], ShortcutBlock8) {}
  lemma ShortcutBlocks2And9Disjoint() ensures KeysDisjoint(ShortcutBlock2, ShortcutBlock9) {
    ShortcutBlocks2And9FrontDisjoint();
    ShortcutBlocks2And9BackDisjoint();
    DisjointAppend(ShortcutBlock2[..9], ShortcutBlock2[9..], ShortcutBlock9);
    assert ShortcutBlock2 == ShortcutBlock2[..9] + ShortcutBlock2[9..];
  }
  lemma ShortcutBlocks2And9FrontDisjoint() ensures KeysDisjoint(ShortcutBlock2[..9], ShortcutBlock9) {}
  lemma ShortcutBlocks2And9BackDisjoint() ensures KeysDisjoint(ShortcutBlock2[9..], ShortcutBlock9) {}
  lemma ShortcutBlocks2And10Disjoint() ensures KeysDisjoint(ShortcutBlock2, ShortcutBlock10) {
    ShortcutBlocks2And10FrontDisjoint();
    ShortcutBlocks2And10BackDisjoint();
    DisjointAppend(ShortcutBlock2[..9], ShortcutBlock2[9..], ShortcutBlock10);
    assert ShortcutBlock2 == ShortcutBlock2[..9] + ShortcutBlock2[9..];
  }
  lemma ShortcutBlocks2And10FrontDisjoint() ensures KeysDisjoint(ShortcutBlock2[..9], ShortcutBlock10) {}
  lemma ShortcutBlocks2And10BackDisjoint() ensures KeysDisjoint(ShortcutBlock2[9..], ShortcutBlock10) {}
  lemma ShortcutBlocks2And11Disjoint() ensures KeysDisjoint(ShortcutBlock2, ShortcutBlock11) {
    ShortcutBlocks2And11FrontDisjoint();
    ShortcutBlocks2And11BackDisjoint();
    DisjointAppend(ShortcutBlock2[..9], ShortcutBlock2[9..], ShortcutBlock11);
    assert ShortcutBlock2 == ShortcutBlock2[..9] + ShortcutBlock2[9..];
  }
  lemma ShortcutBlocks2And11FrontDisjoint() ensures KeysDisjoint(ShortcutBlock2[..9], ShortcutBlock11) {}
  lemma ShortcutBlocks2And11BackDisjoint() ensures KeysDisjoint(ShortcutBlock2[9..], ShortcutBlock11) {}
  lemma ShortcutBlocks2And12Disjoint() ensures KeysDisjoint(ShortcutBlock2, ShortcutBlock12) {
    ShortcutBlocks2And12FrontDisjoint();
    ShortcutBlocks2And12BackDisjoint();
    DisjointAppend(ShortcutBlock2[..9], ShortcutBlock2[9..], ShortcutBlock12);
    assert ShortcutBlock2 == ShortcutBlock2[..9] + ShortcutBlock2[9..];
  }
  lemma ShortcutBlocks2And12FrontDisjoint() ensures KeysDisjoint(ShortcutBlock2[..9], ShortcutBlock12) {}
  lemma ShortcutBlocks2And12BackDisjoint() ensures KeysDisjoint(ShortcutBlock2[9..], ShortcutBlock12) {}
  lemma ShortcutBlocks2And13Disjoint() ensures KeysDisjoint(ShortcutBlock2, ShortcutBlock13) {
    ShortcutBlocks2And13FrontDisjoint();
    ShortcutBlocks2And13BackDisjoint();
    DisjointAppend(ShortcutBlock2[..9], ShortcutBlock2[9..], ShortcutBlock13);
    assert ShortcutBlock2 == ShortcutBlock2[..9] + ShortcutBlock2[9..];
  }
  lemma ShortcutBlocks2And13FrontDisjoint() ensures KeysDisjoint(ShortcutBlock2[..9], ShortcutBlock13) {}
  lemma ShortcutBlocks2And13BackDisjoint() ensures KeysDisjoint(ShortcutBlock2[9..], ShortcutBlock13) {}
  lemma ShortcutBlocks3And4Disjoint() ensures KeysDisjoint(ShortcutBlock3, ShortcutBlock4) {
    ShortcutBlocks3And4FrontDisjoint();
    ShortcutBlocks3And4BackDisjoint();
    DisjointAppend(ShortcutBlock3[..9], ShortcutBlock3[9..], ShortcutBlock4);
    assert ShortcutBlock3 == ShortcutBlock3[..9] + ShortcutBlock3[9..];
  }
  lemma ShortcutBlocks3And4FrontDisjoint() ensures KeysDisjoint(ShortcutBlock3[..9], ShortcutBlock4) {}
  lemma ShortcutBlocks3And4BackDisjoint() ensures KeysDisjoint(ShortcutBlock3[9..], ShortcutBlock4) {}
  lemma ShortcutBlocks3And5Disjoint() ensures KeysDisjoint(ShortcutBlock3, ShortcutBlock5) {
    ShortcutBlocks3And5FrontDisjoint();
    ShortcutBlocks3And5BackDisjoint();
    DisjointAppend(ShortcutBlock3[..9], ShortcutBlock3[9..], ShortcutBlock5);
    assert ShortcutBlock3 == ShortcutBlock3[..9] + ShortcutBlock3[9..];
  }
  lemma ShortcutBlocks3And5FrontDisjoint() ensures KeysDisjoint(ShortcutBlock3[..9], ShortcutBlock5) {}
  lemma ShortcutBlocks3And5BackDisjoint() ensures KeysDisjoint(ShortcutBlock3[9..], ShortcutBlock5) {}
  lemma ShortcutBlocks3And6Disjoint() ensures KeysDisjoint(ShortcutBlock3, ShortcutBlock6) {
    ShortcutBlocks3And6FrontDisjoint();
    ShortcutBlocks3And6BackDisjoint();
    DisjointAppend(ShortcutBlock3[..9], ShortcutBlock3[9..], ShortcutBlock6);
    assert ShortcutBlock3 == ShortcutBlock3[..9] + ShortcutBlock3[9..];
  }
  lemma ShortcutBlocks3And6FrontDisjoint() ensures KeysDisjoint(ShortcutBlock3[..9], ShortcutBlock6) {}
  lemma ShortcutBlocks3And6BackDisjoint() ensures KeysDisjoint(ShortcutBlock3[9..], ShortcutBlock6) {}
  lemma ShortcutBlocks3And7Disjoint() ensures KeysDisjoint(ShortcutBlock3, ShortcutBlock7) {
    ShortcutBlocks3And7FrontDisjoint();
    ShortcutBlocks3And7BackDisjoint();
    DisjointAppend(ShortcutBlock3[..9], ShortcutBlock3[9..], ShortcutBlock7);
    assert ShortcutBlock3 == ShortcutBlock3[..9] + ShortcutBlock3[9..];
  }
  lemma ShortcutBlocks3And7FrontDisjoint() ensures KeysDisjoint(ShortcutBlock3[..9], ShortcutBlock7) {}
  lemma ShortcutBlocks3And7BackDisjoint() ensures KeysDisjoint(ShortcutBlock3[9..], ShortcutBlock7) {}
  lemma ShortcutBlocks3And8Disjoint() ensures KeysDisjoint(ShortcutBlock3, ShortcutBlock8) {
    ShortcutBlocks3And8FrontDisjoint();
    ShortcutBlocks3And8BackDisjoint();
    DisjointAppend(ShortcutBlock3[..9], ShortcutBlock3[9..], ShortcutBlock8);
    assert ShortcutBlock3 == ShortcutBlock3[..9] + ShortcutBlock3[9..];
  }
  lemma ShortcutBlocks3And8FrontDisjoint() ensures KeysDisjoint(ShortcutBlock3[..9], ShortcutBlock8) {}
  lemma ShortcutBlocks3And8BackDisjoint() ensures KeysDisjoint(ShortcutBlock3[9..], ShortcutBlock8) {}
  lemma ShortcutBlocks3And9Disjoint() ensures KeysDisjoint(ShortcutBlock3, ShortcutBlock9) {
    ShortcutBlocks3And9FrontDisjoint();
    ShortcutBlocks3And9BackDisjoint();
    DisjointAppend(ShortcutBlock3[..9], ShortcutBlock3[9..], ShortcutBlock9);
    assert ShortcutBlock3 == ShortcutBlock3[..9] + ShortcutBlock3[9..];
  }
  lemma ShortcutBlocks3And9FrontDisjoint() ensures KeysDisjoint(ShortcutBlock3[..9], ShortcutBlock9) {}
  lemma ShortcutBlocks3And9BackDisjoint() ensures KeysDisjoint(ShortcutBlock3[9..], ShortcutBlock9) {}
  lemma ShortcutBlocks3And10Disjoint() ensures KeysDisjoint(ShortcutBlock3, ShortcutBlock10) {
    ShortcutBlocks3And10FrontDisjoint();
    ShortcutBlocks3And10BackDisjoint();
    DisjointAppend(ShortcutBlock3[..9], ShortcutBlock3[9..], ShortcutBlock10);
    assert ShortcutBlock3 == ShortcutBlock3[..9] + ShortcutBlock3[9..];
  }
  lemma ShortcutBlocks3And10FrontDisjoint() ensures KeysDisjoint(ShortcutBlock3[..9], ShortcutBlock10) {}
  lemma ShortcutBlocks3And10BackDisjoint() ensures KeysDisjoint(ShortcutBlock3[9..], ShortcutBlock10) {}
  lemma ShortcutBlocks3And11Disjoint() ensures KeysDisjoint(ShortcutBlock3, ShortcutBlock11) {
    ShortcutBlocks3And11FrontDisjoint();
    ShortcutBlocks3And11BackDisjoint();
    DisjointAppend(ShortcutBlock3[..9], ShortcutBlock3[9..], ShortcutBlock11);
    assert ShortcutBlock3 == ShortcutBlock3[..9] + ShortcutBlock3[9..];
  }
  lemma ShortcutBlocks3And11FrontDisjoint() ensures KeysDisjoint(ShortcutBlock3[..9], ShortcutBlock11) {}
  lemma ShortcutBlocks3And11BackDisjoint() ensures KeysDisjoint(ShortcutBlock3[9..], ShortcutBlock11) {}
  lemma ShortcutBlocks3And12Disjoint() ensures KeysDisjoint(ShortcutBlock3, ShortcutBlock12) {
    ShortcutBlocks3And12FrontDisjoint();
    ShortcutBlocks3And12BackDisjoint();
    DisjointAppend(ShortcutBlock3[..9], ShortcutBlock3[9..], ShortcutBlock12);
    assert ShortcutBlock3 == ShortcutBlock3[..9] + ShortcutBlock3[9..];
  }
  lemma ShortcutBlocks3And12FrontDisjoint() ensures KeysDisjoint(ShortcutBlock3[..9], ShortcutBlock12) {}
  lemma ShortcutBlocks3And12BackDisjoint() ensures KeysDisjoint(ShortcutBlock3[9..], ShortcutBlock12) {}
  lemma ShortcutBlocks3And13Disjoint() ensures KeysDisjoint(ShortcutBlock3, ShortcutBlock13) {
    ShortcutBlocks3And13FrontDisjoint();
    ShortcutBlocks3And13BackDisjoint();
    DisjointAppend(ShortcutBlock3[..9], ShortcutBlock3[9..], ShortcutBlock13);
    assert ShortcutBlock3 == ShortcutBlock3[..9] + ShortcutBlock3[9..];
  }
  lemma ShortcutBlocks3And13FrontDisjoint() ensures KeysDisjoint(ShortcutBlock3[..9], ShortcutBlock13) {}
  lemma ShortcutBlocks3And13BackDisjoint() ensures KeysDisjoint(ShortcutBlock3[9..], ShortcutBlock13) {}
  lemma ShortcutBlocks4And5Disjoint() ensures KeysDisjoint(ShortcutBlock4, ShortcutBlock5) {
    ShortcutBlocks4And5FrontDisjoint();
    ShortcutBlocks4And5BackDisjoint();
    DisjointAppend(ShortcutBlock4[..8], ShortcutBlock4[8..], ShortcutBlock5);
    assert ShortcutBlock4 == ShortcutBlock4[..8] + ShortcutBlock4[8..];
  }
  lemma ShortcutBlocks4And5FrontDisjoint() ensures KeysDisjoint(ShortcutBlock4[..8], ShortcutBlock5) {}
  lemma ShortcutBlocks4And5BackDisjoint() ensures KeysDisjoint(ShortcutBlock4[8..], ShortcutBlock5) {}
  lemma ShortcutBlocks4And6Disjoint() ensures KeysDisjoint(ShortcutBlock4, ShortcutBlock6) {
    ShortcutBlocks4And6FrontDisjoint();
    ShortcutBlocks4And6BackDisjoint();
    DisjointAppend(ShortcutBlock4[..8], ShortcutBlock4[8..], ShortcutBlock6);
    assert ShortcutBlock4 == ShortcutBlock4[..8] + ShortcutBlock4[8..];
  }
  lemma ShortcutBlocks4And6FrontDisjoint() ensures KeysDisjoint(ShortcutBlock4[..8], ShortcutBlock6) {}
  lemma ShortcutBlocks4And6BackDisjoint() ensures KeysDisjoint(ShortcutBlock4[8..], ShortcutBlock6) {}
  lemma ShortcutBlocks4And7Disjoint() ensures KeysDisjoint(ShortcutBlock4, ShortcutBlock7) {
    ShortcutBlocks4And7FrontDisjoint();
    ShortcutBlocks4And7BackDisjoint();
    DisjointAppend(ShortcutBlock4[..8], ShortcutBlock4[8..], ShortcutBlock7);
    assert ShortcutBlock4 == ShortcutBlock4[..8] + ShortcutBlock4[8..];
  }
  lemma ShortcutBlocks4And7FrontDisjoint() ensures KeysDisjoint(ShortcutBlock4[..8], ShortcutBlock7) {}
  lemma ShortcutBlocks4And7BackDisjoint() ensures KeysDisjoint(ShortcutBlock4[8..], ShortcutBlock7) {}
  lemma ShortcutBlocks4And8Disjoint() ensures KeysDisjoint(ShortcutBlock4, ShortcutBlock8) {
    ShortcutBlocks4And8FrontDisjoint();
    ShortcutBlocks4And8BackDisjoint();
    DisjointAppend(ShortcutBlock4[..8], ShortcutBlock4[8..], ShortcutBlock8);
    assert ShortcutBlock4 == ShortcutBlock4[..8] + ShortcutBlock4[8..];
  }
  lemma ShortcutBlocks4And8FrontDisjoint() ensures KeysDisjoint(ShortcutBlock4[..8], ShortcutBlock8) {}
  lemma ShortcutBlocks4And8BackDisjoint() ensures KeysDisjoint(ShortcutBlock4[8..], ShortcutBlock8) {}
  lemma ShortcutBlocks4And9Disjoint() ensures KeysDisjoint(ShortcutBlock4, ShortcutBlock9) {
    ShortcutBlocks4And9FrontDisjoint();
    ShortcutBlocks4And9BackDisjoint();
    DisjointAppend(ShortcutBlock4[..8], ShortcutBlock4[8..], ShortcutBlock9);
    assert ShortcutBlock4 == ShortcutBlock4[..8] + ShortcutBlock4[8..];
  }
  lemma ShortcutBlocks4And9FrontDisjoint() ensures KeysDisjoint(ShortcutBlock4[..8], ShortcutBlock9) {}
  lemma ShortcutBlocks4And9BackDisjoint() ensures KeysDisjoint(ShortcutBlock4[8..], ShortcutBlock9) {}
  lemma ShortcutBlocks4And10Disjoint() ensures KeysDisjoint(ShortcutBlock4, ShortcutBlock10) {
    ShortcutBlocks4And10FrontDisjoint();
    ShortcutBlocks4And10BackDisjoint();
    DisjointAppend(ShortcutBlock4[..8], ShortcutBlock4[8..], ShortcutBlock10);
    assert ShortcutBlock4 == ShortcutBlock4[..8] + ShortcutBlock4[8..];
  }
  lemma ShortcutBlocks4And10FrontDisjoint() ensures KeysDisjoint(ShortcutBlock4[..8], ShortcutBlock10) {}
  lemma ShortcutBlocks4And10BackDisjoint() ensures KeysDisjoint(ShortcutBlock4[8..], ShortcutBlock10) {}
  lemma ShortcutBlocks4And11Disjoint() ensures KeysDisjoint(ShortcutBlock4, ShortcutBlock11) {
    ShortcutBlocks4And11FrontDisjoint();
    ShortcutBlocks4And11BackDisjoint();
    DisjointAppend(ShortcutBlock4[..8], ShortcutBlock4[8..], ShortcutBlock11);
    assert ShortcutBlock4 == ShortcutBlock4[..8] + ShortcutBlock4[8..];
  }
  lemma ShortcutBlocks4And11FrontDisjoint() ensures KeysDisjoint(ShortcutBlock4[..8], ShortcutBlock11) {}
  lemma ShortcutBlocks4And11BackDisjoint() ensures KeysDisjoint(ShortcutBlock4[8..], ShortcutBlock11) {}
  lemma ShortcutBlocks4And12Disjoint() ensures KeysDisjoint(ShortcutBlock4, ShortcutBlock12) {
    ShortcutBlocks4And12FrontDisjoint();
    ShortcutBlocks4And12BackDisjoint();
    DisjointAppend(ShortcutBlock4[..8], ShortcutBlock4[8..], ShortcutBlock12);
    assert ShortcutBlock4 == ShortcutBlock4[..8] + ShortcutBlock4[8..];
  }
  lemma ShortcutBlocks4And12FrontDisjoint() ensures KeysDisjoint(ShortcutBlock4[..8], ShortcutBlock12) {}
  lemma ShortcutBlocks4And12BackDisjoint() ensures KeysDisjoint(ShortcutBlock4[8..], ShortcutBlock12) {}
  lemma ShortcutBlocks4And13Disjoint() ensures KeysDisjoint(ShortcutBlock4, ShortcutBlock13) {
    ShortcutBlocks4And13FrontDisjoint();
    ShortcutBlocks4And13BackDisjoint();
    DisjointAppend(ShortcutBlock4[..8], ShortcutBlock4[8..], ShortcutBlock13);
    assert ShortcutBlock4 == ShortcutBlock4[..8] + ShortcutBlock4[8..];
  }
  lemma ShortcutBlocks4And13FrontDisjoint() ensures KeysDisjoint(ShortcutBlock4[..8], ShortcutBlock13) {}
  lemma ShortcutBlocks4And13BackDisjoint() ensures KeysDisjoint(ShortcutBlock4[8..], ShortcutBlock13) {}
  lemma ShortcutBlocks5And6Disjoint() ensures KeysDisjoint(ShortcutBlock5, ShortcutBlock6) {
    ShortcutBlocks5And6FrontDisjoint();
    ShortcutBlocks5And6BackDisjoint();
    DisjointAppend(ShortcutBlock5[..8], ShortcutBlock5[8..], ShortcutBlock6);
    assert ShortcutBlock5 == ShortcutBlock5[..8] + ShortcutBlock5[8..];
  }
  lemma ShortcutBlocks5And6FrontDisjoint() ensures KeysDisjoint(ShortcutBlock5[..8], ShortcutBlock6) {}
  lemma ShortcutBlocks5And6BackDisjoint() ensures KeysDisjoint(ShortcutBlock5[8..], ShortcutBlock6) {}
  lemma ShortcutBlocks5And7Disjoint() ensures KeysDisjoint(ShortcutBlock5, ShortcutBlock7) {
    ShortcutBlocks5And7FrontDisjoint();
    ShortcutBlocks5And7BackDisjoint();
    DisjointAppend(ShortcutBlock5[..8], ShortcutBlock5[8..], ShortcutBlock7);
    assert ShortcutBlock5 == ShortcutBlock5[..8] + ShortcutBlock5[8..];
  }
  lemma ShortcutBlocks5And7FrontDisjoint() ensures KeysDisjoint(ShortcutBlock5[..8], ShortcutBlock7) {}
  lemma ShortcutBlocks5And7BackDisjoint() ensures KeysDisjoint(ShortcutBlock5[8..], ShortcutBlock7) {}
  lemma ShortcutBlocks5And8Disjoint() ensures KeysDisjoint(ShortcutBlock5, ShortcutBlock8) {
    ShortcutBlocks5And8FrontDisjoint();
    ShortcutBlocks5And8BackDisjoint();
    DisjointAppend(ShortcutBlock5[..8], ShortcutBlock5[8..], ShortcutBlock8);
    assert ShortcutBlock5 == ShortcutBlock5[..8] + ShortcutBlock5[8..];
  }
  lemma ShortcutBlocks5And8FrontDisjoint() ensures KeysDisjoint(ShortcutBlock5[..8], ShortcutBlock8) {}
  lemma ShortcutBlocks5And8BackDisjoint() ensures KeysDisjoint(ShortcutBlock5[8..], ShortcutBlock8) {}
  lemma ShortcutBlocks5And9Disjoint() ensures KeysDisjoint(ShortcutBlock5, ShortcutBlock9) {
    ShortcutBlocks5And9FrontDisjoint();
    ShortcutBlocks5And9BackDisjoint();
    DisjointAppend(ShortcutBlock5[..8], ShortcutBlock5[8..], ShortcutBlock9);
    assert ShortcutBlock5 == ShortcutBlock5[..8] + ShortcutBlock5[8..];
  }
  lemma ShortcutBlocks5And9FrontDisjoint() ensures KeysDisjoint(ShortcutBlock5[..8], ShortcutBlock9) {}
  lemma ShortcutBlocks5And9BackDisjoint() ensures KeysDisjoint(ShortcutBlock5[8..], ShortcutBlock9) {}
  lemma ShortcutBlocks5And10Disjoint() ensures KeysDisjoint(ShortcutBlock5, ShortcutBlock10) {
    ShortcutBlocks5And10FrontDisjoint();
    ShortcutBlocks5And10BackDisjoint();
    DisjointAppend(ShortcutBlock5[..8], ShortcutBlock5[8..], ShortcutBlock10);
    assert ShortcutBlock5 == ShortcutBlock5[..8] + ShortcutBlock5[8..];
  }
  lemma ShortcutBlocks5And10FrontDisjoint() ensures KeysDisjoint(ShortcutBlock5[..8], ShortcutBlock10) {}
  lemma ShortcutBlocks5And10BackDisjoint() ensures KeysDisjoint(ShortcutBlock5[8..], ShortcutBlock10) {}
  lemma ShortcutBlocks5And11Disjoint() ensures KeysDisjoint(ShortcutBlock5, ShortcutBlock11) {
    ShortcutBlocks5And11FrontDisjoint();
    ShortcutBlocks5And11BackDisjoint();
    DisjointAppend(ShortcutBlock5[..8], ShortcutBlock5[8..], ShortcutBlock11);
    assert ShortcutBlock5 == ShortcutBlock5[..8] + ShortcutBlock5[8..];
  }
  lemma ShortcutBlocks5And11FrontDisjoint() ensures KeysDisjoint(ShortcutBlock5[..8], ShortcutBlock11) {}
  lemma ShortcutBlocks5And11BackDisjoint() ensures KeysDisjoint(ShortcutBlock5[8..], ShortcutBlock11) {}
  lemma ShortcutBlocks5And12Disjoint() ensures KeysDisjoint(ShortcutBlock5, ShortcutBlock12) {
    ShortcutBlocks5And12FrontDisjoint();
    ShortcutBlocks5And12BackDisjoint();
    DisjointAppend(ShortcutBlock5[..8], ShortcutBlock5[8..], ShortcutBlock12);
    assert ShortcutBlock5 == ShortcutBlock5[..8] + ShortcutBlock5[8..];
  }
  lemma ShortcutBlocks5And12FrontDisjoint() ensures KeysDisjoint(ShortcutBlock5[..8], ShortcutBlock12) {}
  lemma ShortcutBlocks5And12BackDisjoint() ensures KeysDisjoint(ShortcutBlock5[8..], ShortcutBlock12) {}
  lemma ShortcutBlocks5And13Disjoint() ensures KeysDisjoint(ShortcutBlock5, ShortcutBlock13) {
    ShortcutBlocks5And13FrontDisjoint();
    ShortcutBlocks5And13BackDisjoint();
    DisjointAppend(ShortcutBlock5[..8], ShortcutBlock5[8..], ShortcutBlock13);
    assert ShortcutBlock5 == ShortcutBlock5[..8] + ShortcutBlock5[8..];
  }
  lemma ShortcutBlocks5And13FrontDisjoint() ensures KeysDisjoint(ShortcutBlock5[..8], ShortcutBlock13) {}
  lemma ShortcutBlocks5And13BackDisjoint() ensures KeysDisjoint(ShortcutBlock5[8..], ShortcutBlock13) {}
  lemma ShortcutBlocks6And7Disjoint() ensures KeysDisjoint(ShortcutBlock6, ShortcutBlock7) {
    ShortcutBlocks6And7FrontDisjoint();
    ShortcutBlocks6And7BackDisjoint();
    DisjointAppend(ShortcutBlock6[..8], ShortcutBlock6[8..], ShortcutBlock7);
    assert ShortcutBlock6 == ShortcutBlock6[..8] + ShortcutBlock6[8..];
  }
  lemma ShortcutBlocks6And7FrontDisjoint() ensures KeysDisjoint(ShortcutBlock6[..8], ShortcutBlock7) {}
  lemma ShortcutBlocks6And7BackDisjoint() ensures KeysDisjoint(ShortcutBlock6[8..], ShortcutBlock7) {}
  lemma ShortcutBlocks6And8Disjoint() ensures KeysDisjoint(ShortcutBlock6, ShortcutBlock8) {
    ShortcutBlocks6And8FrontDisjoint();
    ShortcutBlocks6And8BackDisjoint();
    DisjointAppend(ShortcutBlock6[..8], ShortcutBlock6[8..], ShortcutBlock8);
    assert ShortcutBlock6 == ShortcutBlock6[..8] + ShortcutBlock6[8..];
  }
  lemma ShortcutBlocks6And8FrontDisjoint() ensures KeysDisjoint(ShortcutBlock6[..8], ShortcutBlock8) {}
  lemma ShortcutBlocks6And8BackDisjoint() ensures KeysDisjoint(ShortcutBlock6[8..], ShortcutBlock8) {}
  lemma ShortcutBlocks6And9Disjoint() ensures KeysDisjoint(ShortcutBlock6, ShortcutBlock9) {
    ShortcutBlocks6And9FrontDisjoint();
    ShortcutBlocks6And9BackDisjoint();
    DisjointAppend(ShortcutBlock6[..8], ShortcutBlock6[8..], ShortcutBlock9);
    assert ShortcutBlock6 == ShortcutBlock6[..8] + ShortcutBlock6[8..];
  }
  lemma ShortcutBlocks6And9FrontDisjoint() ensures KeysDisjoint(ShortcutBlock6[..8], ShortcutBlock9) {}
  lemma ShortcutBlocks6And9BackDisjoint() ensures KeysDisjoint(ShortcutBlock6[8..], ShortcutBlock9) {}
  lemma ShortcutBlocks6And10Disjoint() ensures KeysDisjoint(ShortcutBlock6, ShortcutBlock10) {
    ShortcutBlocks6And10FrontDisjoint();
    ShortcutBlocks6And10BackDisjoint();
    DisjointAppend(ShortcutBlock6[..8], ShortcutBlock6[8..], ShortcutBlock10);
    assert ShortcutBlock6 == ShortcutBlock6[..8] + ShortcutBlock6[8..];
  }
  lemma ShortcutBlocks6And10FrontDisjoint() ensures KeysDisjoint(ShortcutBlock6[..8], ShortcutBlock10) {}
  lemma ShortcutBlocks6And10BackDisjoint() ensures KeysDisjoint(ShortcutBlock6[8..], ShortcutBlock10) {}
  lemma ShortcutBlocks6And11Disjoint() ensures KeysDisjoint(ShortcutBlock6, ShortcutBlock11) {
    ShortcutBlocks6And11FrontDisjoint();
    ShortcutBlocks6And11BackDisjoint();
    DisjointAppend(ShortcutBlock6[..8], ShortcutBlock6[8..], ShortcutBlock11);
    assert ShortcutBlock6 == ShortcutBlock6[..8] + ShortcutBlock6[8..];
  }
  lemma ShortcutBlocks6And11FrontDisjoint() ensures KeysDisjoint(ShortcutBlock6[..8], ShortcutBlock11) {}
  lemma ShortcutBlocks6And11BackDisjoint() ensures KeysDisjoint(ShortcutBlock6[8..], ShortcutBlock11) {}
  lemma ShortcutBlocks6And12Disjoint() ensures KeysDisjoint(ShortcutBlock6, ShortcutBlock12) {
    ShortcutBlocks6And12FrontDisjoint();
    ShortcutBlocks6And12BackDisjoint();
    DisjointAppend(ShortcutBlock6[..8], ShortcutBlock6[8..], ShortcutBlock12);
    assert ShortcutBlock6 == ShortcutBlock6[..8] + ShortcutBlock6[8..];
  }
  lemma ShortcutBlocks6And12FrontDisjoint() ensures KeysDisjoint(ShortcutBlock6[..8], ShortcutBlock12) {}
  lemma ShortcutBlocks6And12BackDisjoint() ensures KeysDisjoint(ShortcutBlock6[8..], ShortcutBlock12) {}
  lemma ShortcutBlocks6And13Disjoint() ensures KeysDisjoint(ShortcutBlock6, ShortcutBlock13) {
    ShortcutBlocks6And13FrontDisjoint();
    ShortcutBlocks6And13BackDisjoint();
    DisjointAppend(ShortcutBlock6[..8], ShortcutBlock6[8..], ShortcutBlock13);
    assert ShortcutBlock6 == ShortcutBlock6[..8] + ShortcutBlock6[8..];
  }
  lemma ShortcutBlocks6And13FrontDisjoint() ensures KeysDisjoint(ShortcutBlock6[..8], ShortcutBlock13) {}
  lemma ShortcutBlocks6And13BackDisjoint() ensures KeysDisjoint(ShortcutBlock6[8..], ShortcutBlock13) {}
  lemma ShortcutBlocks7And8Disjoint() ensures KeysDisjoint(ShortcutBlock7, ShortcutBlock8) {
    ShortcutBlocks7And8FrontDisjoint();
    ShortcutBlocks7And8BackDisjoint();
    DisjointAppend(ShortcutBlock7[..8], ShortcutBlock7[8..], ShortcutBlock8);
    assert ShortcutBlock7 == ShortcutBlock7[..8] + ShortcutBlock7[8..];
  }
  lemma ShortcutBlocks7And8FrontDisjoint() ensures KeysDisjoint(ShortcutBlock7[..8], ShortcutBlock8) {}
  lemma ShortcutBlocks7And8BackDisjoint() ensures KeysDisjoint(ShortcutBlock7[8..], ShortcutBlock8) {}
  lemma ShortcutBlocks7And9Disjoint() ensures KeysDisjoint(ShortcutBlock7, ShortcutBlock9) {
    ShortcutBlocks7And9FrontDisjoint();
    ShortcutBlocks7And9BackDisjoint();
    DisjointAppend(ShortcutBlock7[..8], ShortcutBlock7[8..], ShortcutBlock9);
    assert ShortcutBlock7 == ShortcutBlock7[..8] + ShortcutBlock7[8..];
  }
  lemma ShortcutBlocks7And9FrontDisjoint() ensures KeysDisjoint(ShortcutBlock7[..8], ShortcutBlock9) {}
  lemma ShortcutBlocks7And9BackDisjoint() ensures KeysDisjoint(ShortcutBlock7[8..], ShortcutBlock9) {}
  lemma ShortcutBlocks7And10Disjoint() ensures KeysDisjoint(ShortcutBlock7, ShortcutBlock10) {
    ShortcutBlocks7And10FrontDisjoint();
    ShortcutBlocks7And10BackDisjoint();
    DisjointAppend(ShortcutBlock7[..8], ShortcutBlock7[8..], ShortcutBlock10);
    assert ShortcutBlock7 == ShortcutBlock7[..8] + ShortcutBlock7[8..];
  }
  lemma ShortcutBlocks7And10FrontDisjoint() ensures KeysDisjoint(ShortcutBlock7[..8], ShortcutBlock10) {}
  lemma ShortcutBlocks7And10BackDisjoint() ensures KeysDisjoint(ShortcutBlock7[8..], ShortcutBlock10) {}
  lemma ShortcutBlocks7And11Disjoint() ensures KeysDisjoint(ShortcutBlock7, ShortcutBlock11) {
    ShortcutBlocks7And11FrontDisjoint();
    ShortcutBlocks7And11BackDisjoint();
    DisjointAppend(ShortcutBlock7[..8], ShortcutBlock7[8..], ShortcutBlock11);
    assert ShortcutBlock7 == ShortcutBlock7[..8] + ShortcutBlock7[8..];
  }
  lemma ShortcutBlocks7And11FrontDisjoint() ensures KeysDisjoint(ShortcutBlock7[..8], ShortcutBlock11) {}
  lemma ShortcutBlocks7And11BackDisjoint() ensures KeysDisjoint(ShortcutBlock7[8..], ShortcutBlock11) {}
  lemma ShortcutBlocks7And12Disjoint() ensures KeysDisjoint(ShortcutBlock7, ShortcutBlock12) {
    ShortcutBlocks7And12FrontDisjoint();
    ShortcutBlocks7And12BackDisjoint();
    DisjointAppend(ShortcutBlock7[..8], ShortcutBlock7[8..], ShortcutBlock12);
    assert ShortcutBlock7 == ShortcutBlock7[..8] + ShortcutBlock7[8..];
  }
  lemma ShortcutBlocks7And12FrontDisjoint() ensures KeysDisjoint(ShortcutBlock7[..8], ShortcutBlock12) {}
  lemma ShortcutBlocks7And12BackDisjoint() ensures KeysDisjoint(ShortcutBlock7[8..], ShortcutBlock12) {}
  lemma ShortcutBlocks7And13Disjoint() ensures KeysDisjoint(ShortcutBlock7, ShortcutBlock13) {
    ShortcutBlocks7And13FrontDisjoint();
    ShortcutBlocks7And13BackDisjoint();
    DisjointAppend(ShortcutBlock7[..8], ShortcutBlock7[8..], ShortcutBlock13);
    assert ShortcutBlock7 == ShortcutBlock7[..8] + ShortcutBlock7[8..];
  }
  lemma ShortcutBlocks7And13FrontDisjoint() ensures KeysDisjoint(ShortcutBlock7[..8], ShortcutBlock13) {}
  lemma ShortcutBlocks7And13BackDisjoint() ensures KeysDisjoint(ShortcutBlock7[8..], ShortcutBlock13) {}
  lemma ShortcutBlocks8And9Disjoint() ensures KeysDisjoint(ShortcutBlock8, ShortcutBlock9) {
    ShortcutBlocks8And9FrontDisjoint();
    ShortcutBlocks8And9BackDisjoint();
    DisjointAppend(ShortcutBlock8[..8], ShortcutBlock8[8..], ShortcutBlock9);
    assert ShortcutBlock8 == ShortcutBlock8[..8] + ShortcutBlock8[8..];
  }
  lemma ShortcutBlocks8And9FrontDisjoint() ensures KeysDisjoint(ShortcutBlock8[..8], ShortcutBlock9) {}
  lemma ShortcutBlocks8And9BackDisjoint() ensures KeysDisjoint(ShortcutBlock8[8..], ShortcutBlock9) {}
  lemma ShortcutBlocks8And10Disjoint() ensures KeysDisjoint(ShortcutBlock8, ShortcutBlock10) {
    ShortcutBlocks8And10FrontDisjoint();
    ShortcutBlocks8And10BackDisjoint();
    DisjointAppend(ShortcutBlock8[..8], ShortcutBlock8[8..], ShortcutBlock10);
    assert ShortcutBlock8 == ShortcutBlock8[..8] + ShortcutBlock8[8..];
  }
  lemma ShortcutBlocks8And10FrontDisjoint() ensures KeysDisjoint(ShortcutBlock8[..8], ShortcutBlock10) {}
  lemma ShortcutBlocks8And10BackDisjoint() ensures KeysDisjoint(ShortcutBlock8[8..], ShortcutBlock10) {}
  lemma ShortcutBlocks8And11Disjoint() ensures KeysDisjoint(ShortcutBlock8, ShortcutBlock11) {
    ShortcutBlocks8And11FrontDisjoint();
    ShortcutBlocks8And11BackDisjoint();
    DisjointAppend(ShortcutBlock8[..8], ShortcutBlock8[8..], ShortcutBlock11);
    assert ShortcutBlock8 == ShortcutBlock8[..8] + ShortcutBlock8[8..];
  }
  lemma ShortcutBlocks8And11FrontDisjoint() ensures KeysDisjoint(ShortcutBlock8[..8], ShortcutBlock11) {}
  lemma ShortcutBlocks8And11BackDisjoint() ensures KeysDisjoint(ShortcutBlock8[8..], ShortcutBlock11) {}
  lemma ShortcutBlocks8And12Disjoint() ensures KeysDisjoint(ShortcutBlock8, ShortcutBlock12) {
    ShortcutBlocks8And12FrontDisjoint();
    ShortcutBlocks8And12BackDisjoint();
    DisjointAppend(ShortcutBlock8[..8], ShortcutBlock8[8..], ShortcutBlock12);
    assert ShortcutBlock8 == ShortcutBlock8[..8] + ShortcutBlock8[8..];
  }
  lemma ShortcutBlocks8And12FrontDisjoint() ensures KeysDisjoint(ShortcutBlock8[..8], ShortcutBlock12) {}
  lemma ShortcutBlocks8And12BackDisjoint() ensures KeysDisjoint(ShortcutBlock8[8..], ShortcutBlock12) {}
  lemma ShortcutBlocks8And13Disjoint() ensures KeysDisjoint(ShortcutBlock8, ShortcutBlock13) {
    ShortcutBlocks8And13FrontDisjoint();
    ShortcutBlocks8And13BackDisjoint();
    DisjointAppend(ShortcutBlock8[..8], ShortcutBlock8[8..], ShortcutBlock13);
    assert ShortcutBlock8 == ShortcutBlock8[..8] + ShortcutBlock8[8..];
  }
  lemma ShortcutBlocks8And13FrontDisjoint() ensures KeysDisjoint(ShortcutBlock8[..8], ShortcutBlock13) {}
  lemma ShortcutBlocks8And13BackDisjoint() ensures KeysDisjoint(ShortcutBlock8[8..], ShortcutBlock13) {}
  lemma ShortcutBlocks9And10Disjoint() ensures KeysDisjoint(ShortcutBlock9, ShortcutBlock10) {
    ShortcutBlocks9And10FrontDisjoint();
    ShortcutBlocks9And10BackDisjoint();
    DisjointAppend(ShortcutBlock9[..8], ShortcutBlock9[8..], ShortcutBlock10);
    assert ShortcutBlock9 == ShortcutBlock9[..8] + ShortcutBlock9[8..];
  }
  lemma ShortcutBlocks9And10FrontDisjoint() ensures KeysDisjoint(ShortcutBlock9[..8], ShortcutBlock10) {}
  lemma ShortcutBlocks9And10BackDisjoint() ensures KeysDisjoint(ShortcutBlock9[8..], ShortcutBlock10) {}
  lemma ShortcutBlocks9And11Disjoint() ensures KeysDisjoint(ShortcutBlock9, ShortcutBlock11) {
    ShortcutBlocks9And11FrontDisjoint();
    ShortcutBlocks9And11BackDisjoint();
    DisjointAppend(ShortcutBlock9[..8], ShortcutBlock9[8..], ShortcutBlock11);
    assert ShortcutBlock9 == ShortcutBlock9[..8] + ShortcutBlock9[8..];
  }
  lemma ShortcutBlocks9And11FrontDisjoint() ensures KeysDisjoint(ShortcutBlock9[..8], ShortcutBlock11) {}
  lemma ShortcutBlocks9And11BackDisjoint() ensures KeysDisjoint(ShortcutBlock9[8..], ShortcutBlock11) {}
  lemma ShortcutBlocks9And12Disjoint() ensures KeysDisjoint(ShortcutBlock9, ShortcutBlock12) {
    ShortcutBlocks9And12FrontDisjoint();
    ShortcutBlocks9And12BackDisjoint();
    DisjointAppend(ShortcutBlock9[..8], ShortcutBlock9[8..], ShortcutBlock12);
    assert ShortcutBlock9 == ShortcutBlock9[..8] + ShortcutBlock9[8..];
  }
  lemma ShortcutBlocks9And12FrontDisjoint() ensures KeysDisjoint(ShortcutBlock9[..8], ShortcutBlock12) {}
  lemma ShortcutBlocks9And12BackDisjoint() ensures KeysDisjoint(ShortcutBlock9[8..], ShortcutBlock12) {}
  lemma ShortcutBlocks9And13Disjoint() ensures KeysDisjoint(ShortcutBlock9, ShortcutBlock13) {
    ShortcutBlocks9And13FrontDisjoint();
    ShortcutBlocks9And13BackDisjoint();
    DisjointAppend(ShortcutBlock9[..8], ShortcutBlock9[8..], ShortcutBlock13);
    assert ShortcutBlock9 == ShortcutBlock9[..8] + ShortcutBlock9[8..];
  }
  lemma ShortcutBlocks9And13FrontDisjoint() ensures KeysDisjoint(ShortcutBlock9[..8], ShortcutBlock13) {}
  lemma ShortcutBlocks9And13BackDisjoint() ensures KeysDisjoint(ShortcutBlock9[8..], ShortcutBlock13) {}
  lemma ShortcutBlocks10And11Disjoint() ensures KeysDisjoint(ShortcutBlock10, ShortcutBlock11) {
    ShortcutBlocks10And11FrontDisjoint();
    ShortcutBlocks10And11BackDisjoint();
    DisjointAppend(ShortcutBlock10[..8], ShortcutBlock10[8..], ShortcutBlock11);
    assert ShortcutBlock10 == ShortcutBlock10[..8] + ShortcutBlock10[8..];
  }
  lemma ShortcutBlocks10And11FrontDisjoint() ensures KeysDisjoint(ShortcutBlock10[..8], ShortcutBlock11) {}
  lemma ShortcutBlocks10And11BackDisjoint() ensures KeysDisjoint(ShortcutBlock10[8..], ShortcutBlock11) {}
  lemma ShortcutBlocks10And12Disjoint() ensures KeysDisjoint(ShortcutBlock10, ShortcutBlock12) {
    ShortcutBlocks10And12FrontDisjoint();
    ShortcutBlocks10And12BackDisjoint();
    DisjointAppend(ShortcutBlock10[..8], ShortcutBlock10[8..], ShortcutBlock12);
    assert ShortcutBlock10 == ShortcutBlock10[..8] + ShortcutBlock10[8..];
  }
  lemma ShortcutBlocks10And12FrontDisjoint() ensures KeysDisjoint(ShortcutBlock10[..8], ShortcutBlock12) {}
  lemma ShortcutBlocks10And12BackDisjoint() ensures KeysDisjoint(ShortcutBlock10[8..], ShortcutBlock12) {}
  lemma ShortcutBlocks10And13Disjoint() ensures KeysDisjoint(ShortcutBlock10, ShortcutBlock13) {
    ShortcutBlocks10And13FrontDisjoint();
    ShortcutBlocks10And13BackDisjoint();
    DisjointAppend(ShortcutBlock10[..8], ShortcutBlock10[8..], ShortcutBlock13);
    assert ShortcutBlock10 == ShortcutBlock10[..8] + ShortcutBlock10[8..];
  }
  lemma ShortcutBlocks10And13FrontDisjoint() ensures KeysDisjoint(ShortcutBlock10[..8], ShortcutBlock13) {}
  lemma ShortcutBlocks10And13BackDisjoint() ensures KeysDisjoint(ShortcutBlock10[8..], ShortcutBlock13) {}
  lemma ShortcutBlocks11And12Disjoint() ensures KeysDisjoint(ShortcutBlock11, ShortcutBlock12) {
    ShortcutBlocks11And12FrontDisjoint();
    ShortcutBlocks11And12BackDisjoint();
    DisjointAppend(ShortcutBlock11[..8], ShortcutBlock11[8..], ShortcutBlock12);
    assert ShortcutBlock11 == ShortcutBlock11[..8] + ShortcutBlock11[8..];
  }
  lemma ShortcutBlocks11And12FrontDisjoint() ensures KeysDisjoint(ShortcutBlock11[..8], ShortcutBlock12) {}
  lemma ShortcutBlocks11And12BackDisjoint() ensures KeysDisjoint(ShortcutBlock11[8..], ShortcutBlock12) {}
  lemma ShortcutBlocks11And13Disjoint() ensures KeysDisjoint(ShortcutBlock11, ShortcutBlock13) {
    ShortcutBlocks11And13FrontDisjoint();
    ShortcutBlocks11And13BackDisjoint();
    DisjointAppend(ShortcutBlock11[..8], ShortcutBlock11[8..], ShortcutBlock13);
    assert ShortcutBlock11 == ShortcutBlock11[..8] + ShortcutBlock11[8..];
  }
  lemma ShortcutBlocks11And13FrontDisjoint() ensures KeysDisjoint(ShortcutBlock11[..8], ShortcutBlock13) {}
  lemma ShortcutBlocks11And13BackDisjoint() ensures KeysDisjoint(ShortcutBlock11[8..], ShortcutBlock13) {}
  lemma ShortcutBlocks12And13Disjoint() ensures KeysDisjoint(ShortcutBlock12, ShortcutBlock13) {
    ShortcutBlocks12And13FrontDisjoint();
    ShortcutBlocks12And13BackDisjoint();
    DisjointAppend(ShortcutBlock12[..8], ShortcutBlock12[8..], ShortcutBlock13);
    assert ShortcutBlock12 == ShortcutBlock12[..8] + ShortcutBlock12[8..];
  }
  lemma ShortcutBlocks12And13FrontDisjoint() ensures KeysDisjoint(ShortcutBlock12[..8], ShortcutBlock13) {}
  lemma ShortcutBlocks12And13BackDisjoint() ensures KeysDisjoint(ShortcutBlock12[8..], ShortcutBlock13) {}

  /** The first k + 1 blocks of the shortcut table. */
  const ShortcutUpTo1: Table := ShortcutBlock0 + ShortcutBlock1
  const ShortcutUpTo2: Table := ShortcutUpTo1 + ShortcutBlock2
  const ShortcutUpTo3: Table := ShortcutUpTo2 + ShortcutBlock3
  const ShortcutUpTo4: Table := ShortcutUpTo3 + ShortcutBlock4
  const ShortcutUpTo5: Table := ShortcutUpTo4 + ShortcutBlock5
  const ShortcutUpTo6: Table := ShortcutUpTo5 + ShortcutBlock6
  const ShortcutUpTo7: Table := ShortcutUpTo6 + ShortcutBlock7
  const ShortcutUpTo8: Table := ShortcutUpTo7 + ShortcutBlock8
  const ShortcutUpTo9: Table := ShortcutUpTo8 + ShortcutBlock9
  const ShortcutUpTo10: Table := ShortcutUpTo9 + ShortcutBlock10
  const ShortcutUpTo11: Table := ShortcutUpTo10 + ShortcutBlock11
  const ShortcutUpTo12: Table := ShortcutUpTo11 + ShortcutBlock12
  const ShortcutUpTo13: Table := ShortcutUpTo12 + ShortcutBlock13

  lemma ShortcutPrefix0() ensures RowsShaped(ShortcutBlock0) && SymbolsInCodepage(ShortcutBlock0) && DistinctKeys(ShortcutBlock0) {
    ShortcutBlock0Shaped();
    ShortcutBlock0InCodepage();
    ShortcutBlock0Distinct();
  }

  lemma ShortcutPrefix1()
    ensures var t := ShortcutUpTo1;
      RowsShaped(t) && SymbolsInCodepage(t) && DistinctKeys(t)
  {
    ShortcutPrefix0();
    ShortcutBlock1Shaped();
    ShortcutBlock1InCodepage();
    ShortcutBlock1Distinct();
    ShortcutBlocks0And1Disjoint();
    RowsShapedAppend(ShortcutBlock0, ShortcutBlock1);
    SymbolsInCodepageAppend(ShortcutBlock0, ShortcutBlock1);
    DistinctAppend(ShortcutBlock0, ShortcutBlock1);
  }

  lemma ShortcutPrefix2()
    ensures var t := ShortcutUpTo2;
      RowsShaped(t) && SymbolsInCodepage(t) && DistinctKeys(t)
  {
    ShortcutPrefix1();
    ShortcutBlock2Shaped();
    ShortcutBlock2InCodepage();
    ShortcutBlock2Distinct();
    ShortcutBlocks0And2Disjoint();
    ShortcutBlocks1And2Disjoint();
    DisjointAppend(ShortcutBlock0, ShortcutBlock1, ShortcutBlock2);
    RowsShapedAppend(ShortcutUpTo1, ShortcutBlock2);
    SymbolsInCodepageAppend(ShortcutUpTo1, ShortcutBlock2);
    DistinctAppend(ShortcutUpTo1, ShortcutBlock2);
  }

  lemma ShortcutPrefix3()
    ensures var t := ShortcutUpTo3;
      RowsShaped(t) && SymbolsInCodepage(t) && DistinctKeys(t)
  {
    ShortcutPrefix2();
    ShortcutBlock3Shaped();
    ShortcutBlock3InCodepage();
    ShortcutBlock3Distinct();
    ShortcutBlocks0And3Disjoint();
    ShortcutBlocks1And3Disjoint();
    ShortcutBlocks2And3Disjoint();
    DisjointAppend(ShortcutBlock0, ShortcutBlock1, ShortcutBlock3);
    DisjointAppend(ShortcutUpTo1, ShortcutBlock2, ShortcutBlock3);
    RowsShapedAppend(ShortcutUpTo2, ShortcutBlock3);
    SymbolsInCodepageAppend(ShortcutUpTo2, ShortcutBlock3);
    DistinctAppend(ShortcutUpTo2, ShortcutBlock3);
  }

  lemma ShortcutPrefix4()
    ensures var t := ShortcutUpTo4;
      RowsShaped(t) && SymbolsInCodepage(t) && DistinctKeys(t)
  {
    ShortcutPrefix3();
    ShortcutBlock4Shaped();
    ShortcutBlock4InCodepage();
    ShortcutBlock4Distinct();
    ShortcutBlocks0And4Disjoint();
    ShortcutBlocks1And4Disjoint();
    ShortcutBlocks2And4Disjoint();
    ShortcutBlocks3And4Disjoint();
    DisjointAppend(ShortcutBlock0, ShortcutBlock1, ShortcutBlock4);
    DisjointAppend(ShortcutUpTo1, ShortcutBlock2, ShortcutBlock4);
    DisjointAppend(ShortcutUpTo2, ShortcutBlock3, ShortcutBlock4);
    RowsShapedAppend(ShortcutUpTo3, ShortcutBlock4);
    SymbolsInCodepageAppend(ShortcutUpTo3, ShortcutBlock4);
    DistinctAppend(ShortcutUpTo3, ShortcutBlock4);
  }

  lemma ShortcutPrefix5()
    ensures var t := ShortcutUpTo5;
      RowsShaped(t) && SymbolsInCodepage(t) && DistinctKeys(t)
  {
    ShortcutPrefix4();
    ShortcutBlock5Shaped();
    ShortcutBlock5InCodepage();
    ShortcutBlock5Distinct();
    ShortcutBlocks0And5Disjoint();
    ShortcutBlocks1And5Disjoint();
    ShortcutBlocks2And5Disjoint();
    ShortcutBlocks3And5Disjoint();
    ShortcutBlocks4And5Disjoint();
    DisjointAppend(ShortcutBlock0, ShortcutBlock1, ShortcutBlock5);
    DisjointAppend(ShortcutUpTo1, ShortcutBlock2, ShortcutBlock5);
    DisjointAppend(ShortcutUpTo2, ShortcutBlock3, ShortcutBlock5);
    DisjointAppend(ShortcutUpTo3, ShortcutBlock4, ShortcutBlock5);
    RowsShapedAppend(ShortcutUpTo4, ShortcutBlock5);
    SymbolsInCodepageAppend(ShortcutUpTo4, ShortcutBlock5);
    DistinctAppend(ShortcutUpTo4, ShortcutBlock5);
  }

  lemma ShortcutPrefix6()
    ensures var t := ShortcutUpTo6;
      RowsShaped(t) && SymbolsInCodepage(t) && DistinctKeys(t)
  {
    ShortcutPrefix5();
    ShortcutBlock6Shaped();
    ShortcutBlock6InCodepage();
    ShortcutBlock6Distinct();
    ShortcutBlocks0And6Disjoint();
    ShortcutBlocks1And6Disjoint();
    ShortcutBlocks2And6Disjoint();
    ShortcutBlocks3And6Disjoint();
    ShortcutBlocks4And6Disjoint();
    ShortcutBlocks5And6Disjoint();
    DisjointAppend(ShortcutBlock0, ShortcutBlock1, ShortcutBlock6);
    DisjointAppend(ShortcutUpTo1, ShortcutBlock2, ShortcutBlock6);
    DisjointAppend(ShortcutUpTo2, ShortcutBlock3, ShortcutBlock6);
    DisjointAppend(ShortcutUpTo3, ShortcutBlock4, ShortcutBlock6);
    DisjointAppend(ShortcutUpTo4, ShortcutBlock5, ShortcutBlock6);
    RowsShapedAppend(ShortcutUpTo5, ShortcutBlock6);
    SymbolsInCodepageAppend(ShortcutUpTo5, ShortcutBlock6);
    DistinctAppend(ShortcutUpTo5, ShortcutBlock6);
  }

  lemma ShortcutPrefix7()
    ensures var t := ShortcutUpTo7;
      RowsShaped(t) && SymbolsInCodepage(t) && DistinctKeys(t)
  {
    ShortcutPrefix6();
    ShortcutBlock7Shaped();
    ShortcutBlock7InCodepage();
    ShortcutBlock7Distinct();
    ShortcutBlocks0And7Disjoint();
    ShortcutBlocks1And7Disjoint();
    ShortcutBlocks2And7Disjoint();
    ShortcutBlocks3And7Disjoint();
    ShortcutBlocks4And7Disjoint();
    ShortcutBlocks5And7Disjoint();
    ShortcutBlocks6And7Disjoint();
    DisjointAppend(ShortcutBlock0, ShortcutBlock1, ShortcutBlock7);
    DisjointAppend(ShortcutUpTo1, ShortcutBlock2, ShortcutBlock7);
    DisjointAppend(ShortcutUpTo2, ShortcutBlock3, ShortcutBlock7);
    DisjointAppend(ShortcutUpTo3, ShortcutBlock4, ShortcutBlock7);
    DisjointAppend(ShortcutUpTo4, ShortcutBlock5, ShortcutBlock7);
    DisjointAppend(ShortcutUpTo5, ShortcutBlock6, ShortcutBlock7);
    RowsShapedAppend(ShortcutUpTo6, ShortcutBlock7);
    SymbolsInCodepageAppend(ShortcutUpTo6, ShortcutBlock7);
    DistinctAppend(ShortcutUpTo6, ShortcutBlock7);
  }

  lemma ShortcutPrefix8()
    ensures var t := ShortcutUpTo8;
      RowsShaped(t) && SymbolsInCodepage(t) && DistinctKeys(t)
  {
    ShortcutPrefix7();
    ShortcutBlock8Shaped();
    ShortcutBlock8InCodepage();
    ShortcutBlock8Distinct();
    ShortcutBlocks0And8Disjoint();
    ShortcutBlocks1And8Disjoint();
    ShortcutBlocks2And8Disjoint();
    ShortcutBlocks3And8Disjoint();
    ShortcutBlocks4And8Disjoint();
    ShortcutBlocks5And8Disjoint();
    ShortcutBlocks6And8Disjoint();
    ShortcutBlocks7And8Disjoint();
    DisjointAppend(ShortcutBlock0, ShortcutBlock1, ShortcutBlock8);
    DisjointAppend(ShortcutUpTo1, ShortcutBlock2, ShortcutBlock8);
    DisjointAppend(ShortcutUpTo2, ShortcutBlock3, ShortcutBlock8);
    DisjointAppend(ShortcutUpTo3, ShortcutBlock4, ShortcutBlock8);
    DisjointAppend(ShortcutUpTo4, ShortcutBlock5, ShortcutBlock8);
    DisjointAppend(ShortcutUpTo5, ShortcutBlock6, ShortcutBlock8);
    DisjointAppend(ShortcutUpTo6, ShortcutBlock7, ShortcutBlock8);
    RowsShapedAppend(ShortcutUpTo7, ShortcutBlock8);
    SymbolsInCodepageAppend(ShortcutUpTo7, ShortcutBlock8);
    DistinctAppend(ShortcutUpTo7, ShortcutBlock8);
  }

  lemma ShortcutPrefix9()
    ensures var t := ShortcutUpTo9;
      RowsShaped(t) && SymbolsInCodepage(t) && DistinctKeys(t)
  {
    ShortcutPrefix8();
    ShortcutBlock9Shaped();
    ShortcutBlock9InCodepage();
    ShortcutBlock9Distinct();
    ShortcutBlocks0And9Disjoint();
    ShortcutBlocks1And9Disjoint();
    ShortcutBlocks2And9Disjoint();
    ShortcutBlocks3And9Disjoint();
    ShortcutBlocks4And9Disjoint();
    ShortcutBlocks5And9Disjoint();
    ShortcutBlocks6And9Disjoint();
    ShortcutBlocks7And9Disjoint();
    ShortcutBlocks8And9Disjoint();
    DisjointAppend(ShortcutBlock0, ShortcutBlock1, ShortcutBlock9);
    DisjointAppend(ShortcutUpTo1, ShortcutBlock2, ShortcutBlock9);
    DisjointAppend(ShortcutUpTo2, ShortcutBlock3, ShortcutBlock9);
    DisjointAppend(ShortcutUpTo3, ShortcutBlock4, ShortcutBlock9);
    DisjointAppend(ShortcutUpTo4, ShortcutBlock5, ShortcutBlock9);
    DisjointAppend(ShortcutUpTo5, ShortcutBlock6, ShortcutBlock9);
    DisjointAppend(ShortcutUpTo6, ShortcutBlock7, ShortcutBlock9);
    DisjointAppend(ShortcutUpTo7, ShortcutBlock8, ShortcutBlock9);
    RowsShapedAppend(ShortcutUpTo8, ShortcutBlock9);
    SymbolsInCodepageAppend(ShortcutUpTo8, ShortcutBlock9);
    DistinctAppend(ShortcutUpTo8, ShortcutBlock9);
  }

  lemma ShortcutPrefix10()
    ensures var t := ShortcutUpTo10;
      RowsShaped(t) && SymbolsInCodepage(t) && DistinctKeys(t)
  {
    ShortcutPrefix9();
    ShortcutBlock10Shaped();
    ShortcutBlock10InCodepage();
    ShortcutBlock10Distinct();
    ShortcutBlocks0And10Disjoint();
    ShortcutBlocks1And10Disjoint();
    ShortcutBlocks2And10Disjoint();
    ShortcutBlocks3And10Disjoint();
    ShortcutBlocks4And10Disjoint();
    ShortcutBlocks5And10Disjoint();
    ShortcutBlocks6And10Disjoint();
    ShortcutBlocks7And10Disjoint();
    ShortcutBlocks8And10Disjoint();
    ShortcutBlocks9And10Disjoint();
    DisjointAppend(ShortcutBlock0, ShortcutBlock1, ShortcutBlock10);
    DisjointAppend(ShortcutUpTo1, ShortcutBlock2, ShortcutBlock10);
    DisjointAppend(ShortcutUpTo2, ShortcutBlock3, ShortcutBlock10);
    DisjointAppend(ShortcutUpTo3, ShortcutBlock4, ShortcutBlock10);
    DisjointAppend(ShortcutUpTo4, ShortcutBlock5, ShortcutBlock10);
    DisjointAppend(ShortcutUpTo5, ShortcutBlock6, ShortcutBlock10);
    DisjointAppend(ShortcutUpTo6, ShortcutBlock7, ShortcutBlock10);
    DisjointAppend(ShortcutUpTo7, ShortcutBlock8, ShortcutBlock10);
    DisjointAppend(ShortcutUpTo8, ShortcutBlock9, ShortcutBlock10);
    RowsShapedAppend(ShortcutUpTo9, ShortcutBlock10);
    SymbolsInCodepageAppend(ShortcutUpTo9, ShortcutBlock10);
    DistinctAppend(ShortcutUpTo9, ShortcutBlock10);
  }

  lemma ShortcutPrefix11()
    ensures var t := ShortcutUpTo11;
      RowsShaped(t) && SymbolsInCodepage(t) && DistinctKeys(t)
  {
    ShortcutPrefix10();
    ShortcutBlock11Shaped();
    ShortcutBlock11InCodepage();
    ShortcutBlock11Distinct();
    ShortcutBlocks0And11Disjoint();
    ShortcutBlocks1And11Disjoint();
    ShortcutBlocks2And11Disjoint();
    ShortcutBlocks3And11Disjoint();
    ShortcutBlocks4And11Disjoint();
    ShortcutBlocks5And11Disjoint();
    ShortcutBlocks6And11Disjoint();
    ShortcutBlocks7And11Disjoint();
    ShortcutBlocks8And11Disjoint();
    ShortcutBlocks9And11Disjoint();
    ShortcutBlocks10And11Disjoint();
    DisjointAppend(ShortcutBlock0, ShortcutBlock1, ShortcutBlock11);
    DisjointAppend(ShortcutUpTo1, ShortcutBlock2, ShortcutBlock11);
    DisjointAppend(ShortcutUpTo2, ShortcutBlock3, ShortcutBlock11);
    DisjointAppend(ShortcutUpTo3, ShortcutBlock4, ShortcutBlock11);
    DisjointAppend(ShortcutUpTo4, ShortcutBlock5, ShortcutBlock11);
    DisjointAppend(ShortcutUpTo5, ShortcutBlock6, ShortcutBlock11);
    DisjointAppend(ShortcutUpTo6, ShortcutBlock7, ShortcutBlock11);
    DisjointAppend(ShortcutUpTo7, ShortcutBlock8, ShortcutBlock11);
    DisjointAppend(ShortcutUpTo8, ShortcutBlock9, ShortcutBlock11);
    DisjointAppend(ShortcutUpTo9, ShortcutBlock10, ShortcutBlock11);
    RowsShapedAppend(ShortcutUpTo10, ShortcutBlock11);
    SymbolsInCodepageAppend(ShortcutUpTo10, ShortcutBlock11);
    DistinctAppend(ShortcutUpTo10, ShortcutBlock11);
  }

  lemma ShortcutPrefix12()
    ensures var t := ShortcutUpTo12;
      RowsShaped(t) && SymbolsInCodepage(t) && DistinctKeys(t)
  {
    ShortcutPrefix11();
    ShortcutBlock12Shaped();
    ShortcutBlock12InCodepage();
    ShortcutBlock12Distinct();
    ShortcutBlocks0And12Disjoint();
    ShortcutBlocks1And12Disjoint();
    ShortcutBlocks2And12Disjoint();
    ShortcutBlocks3And12Disjoint();
    ShortcutBlocks4And12Disjoint();
    ShortcutBlocks5And12Disjoint();
    ShortcutBlocks6And12Disjoint();
    ShortcutBlocks7And12Disjoint();
    ShortcutBlocks8And12Disjoint();
    ShortcutBlocks9And12Disjoint();
    ShortcutBlocks10And12Disjoint();
    ShortcutBlocks11And12Disjoint();
    DisjointAppend(ShortcutBlock0, ShortcutBlock1, ShortcutBlock12);
    DisjointAppend(ShortcutUpTo1, ShortcutBlock2, ShortcutBlock12);
    DisjointAppend(ShortcutUpTo2, ShortcutBlock3, ShortcutBlock12);
    DisjointAppend(ShortcutUpTo3, ShortcutBlock4, ShortcutBlock12);
    DisjointAppend(ShortcutUpTo4, ShortcutBlock5, ShortcutBlock12);
    DisjointAppend(ShortcutUpTo5, ShortcutBlock6, ShortcutBlock12);
    DisjointAppend(ShortcutUpTo6, ShortcutBlock7, ShortcutBlock12);
    DisjointAppend(ShortcutUpTo7, ShortcutBlock8, ShortcutBlock12);
    DisjointAppend(ShortcutUpTo8, ShortcutBlock9, ShortcutBlock12);
    DisjointAppend(ShortcutUpTo9, ShortcutBlock10, ShortcutBlock12);
    DisjointAppend(ShortcutUpTo10, ShortcutBlock11, ShortcutBlock12);
    RowsShapedAppend(ShortcutUpTo11, ShortcutBlock12);
    SymbolsInCodepageAppend(ShortcutUpTo11, ShortcutBlock12);
    DistinctAppend(ShortcutUpTo11, ShortcutBlock12);
  }

  lemma ShortcutPrefix13()
    ensures var t := ShortcutUpTo13;
      RowsShaped(t) && SymbolsInCodepage(t) && DistinctKeys(t)
  {
    ShortcutPrefix12();
    ShortcutBlock13Shaped();
    ShortcutBlock13InCodepage();
    ShortcutBlock13Distinct();
    ShortcutBlocks0And13Disjoint();
    ShortcutBlocks1And13Disjoint();
    ShortcutBlocks2And13Disjoint();
    ShortcutBlocks3And13Disjoint();
    ShortcutBlocks4And13Disjoint();
    ShortcutBlocks5And13Disjoint();
    ShortcutBlocks6And13Disjoint();
    ShortcutBlocks7And13Disjoint();
    ShortcutBlocks8And13Disjoint();
    ShortcutBlocks9And13Disjoint();
    ShortcutBlocks10And13Disjoint();
    ShortcutBlocks11And13Disjoint();
    ShortcutBlocks12And13Disjoint();
    DisjointAppend(ShortcutBlock0, ShortcutBlock1, ShortcutBlock13);
    DisjointAppend(ShortcutUpTo1, ShortcutBlock2, ShortcutBlock13);
    DisjointAppend(ShortcutUpTo2, ShortcutBlock3, ShortcutBlock13);
    DisjointAppend(ShortcutUpTo3, ShortcutBlock4, ShortcutBlock13);
    DisjointAppend(ShortcutUpTo4, ShortcutBlock5, ShortcutBlock13);
    DisjointAppend(ShortcutUpTo5, ShortcutBlock6, ShortcutBlock13);
    DisjointAppend(ShortcutUpTo6, ShortcutBlock7, ShortcutBlock13);
    DisjointAppend(ShortcutUpTo7, ShortcutBlock8, ShortcutBlock13);
    DisjointAppend(ShortcutUpTo8, ShortcutBlock9, ShortcutBlock13);
    DisjointAppend(ShortcutUpTo9, ShortcutBlock10, ShortcutBlock13);
    DisjointAppend(ShortcutUpTo10, ShortcutBlock11, ShortcutBlock13);
    DisjointAppend(ShortcutUpTo11, ShortcutBlock12, ShortcutBlock13);
    RowsShapedAppend(ShortcutUpTo12, ShortcutBlock13);
    SymbolsInCodepageAppend(ShortcutUpTo12, ShortcutBlock13);
    DistinctAppend(ShortcutUpTo12, ShortcutBlock13);
  }

  /** The 242 rows of `shortcut_map`: every mnemonic is non-empty, no
      mnemonic is an array index, no two rows share a mnemonic, and every
      symbol is one character that occurs in the code page. */
  lemma ShortcutMapWellFormed()
    ensures |ShortcutMap| == 242
    ensures RowsShaped(ShortcutMap) && SymbolsInCodepage(ShortcutMap) && DistinctKeys(ShortcutMap)
  {
    ShortcutPrefix13();
  }

  // Block-by-block checks that no mnemonic extends the ones the examples type.
  lemma ShortcutBlock0NoKeyExtendsLambdax() ensures NoKeyExtends(ShortcutBlock0, "lambdax") {}
  lemma ShortcutBlock1NoKeyExtendsLambdax() ensures NoKeyExtends(ShortcutBlock1, "lambdax") {}
  lemma ShortcutBlock2NoKeyExtendsLambdax() ensures NoKeyExtends(ShortcutBlock2, "lambdax") {}
  lemma ShortcutBlock3NoKeyExtendsLambdax() ensures NoKeyExtends(ShortcutBlock3, "lambdax") {}
  lemma ShortcutBlock4NoKeyExtendsLambdax() ensures NoKeyExtends(ShortcutBlock4, "lambdax") {}
  lemma ShortcutBlock5NoKeyExtendsLambdax() ensures NoKeyExtends(ShortcutBlock5, "lambdax") {}
  lemma ShortcutBlock6NoKeyExtendsLambdax() ensures NoKeyExtends(ShortcutBlock6, "lambdax") {}
  lemma ShortcutBlock7NoKeyExtendsLambdax() ensures NoKeyExtends(ShortcutBlock7, "lambdax") {}
  lemma ShortcutBlock8NoKeyExtendsLambdax() ensures NoKeyExtends(ShortcutBlock8, "lambdax") {}
  lemma ShortcutBlock9NoKeyExtendsLambdax() ensures NoKeyExtends(ShortcutBlock9, "lambdax") {}
  lemma ShortcutBlock10NoKeyExtendsLambdax() ensures NoKeyExtends(ShortcutBlock10, "lambdax") {}
  lemma ShortcutBlock11NoKeyExtendsLambdax() ensures NoKeyExtends(ShortcutBlock11, "lambdax") {}
  lemma ShortcutBlock12NoKeyExtendsLambdax() ensures NoKeyExtends(ShortcutBlock12, "lambdax") {}
  lemma ShortcutBlock13NoKeyExtendsLambdax() ensures NoKeyExtends(ShortcutBlock13, "lambdax") {}
  lemma ShortcutBlock0NoKeyExtendsFloor() ensures NoKeyExtends(ShortcutBlock0, "floor") {}
  lemma ShortcutBlock1NoKeyExtendsFloor() ensures NoKeyExtends(ShortcutBlock1, "floor") {}
  lemma ShortcutBlock2NoKeyExtendsFloor() ensures NoKeyExtends(ShortcutBlock2, "floor") {}
  lemma ShortcutBlock3NoKeyExtendsFloor() ensures NoKeyExtends(ShortcutBlock3, "floor") {}
  lemma ShortcutBlock4NoKeyExtendsFloor() ensures NoKeyExtends(ShortcutBlock4, "floor") {}
  lemma ShortcutBlock5NoKeyExtendsFloor() ensures NoKeyExtends(ShortcutBlock5, "floor") {}
  lemma ShortcutBlock6NoKeyExtendsFloor() ensures NoKeyExtends(ShortcutBlock6, "floor") {}
  lemma ShortcutBlock7NoKeyExtendsFloor() ensures NoKeyExtends(ShortcutBlock7, "floor") {}
  lemma ShortcutBlock8NoKeyExtendsFloor() ensures NoKeyExtends(ShortcutBlock8, "floor") {}
  lemma ShortcutBlock9NoKeyExtendsFloor() ensures NoKeyExtends(ShortcutBlock9, "floor") {}
  lemma ShortcutBlock10NoKeyExtendsFloor() ensures NoKeyExtends(ShortcutBlock10, "floor") {}
  lemma ShortcutBlock11NoKeyExtendsFloor() ensures NoKeyExtends(ShortcutBlock11, "floor") {}
  lemma ShortcutBlock12NoKeyExtendsFloor() ensures NoKeyExtends(ShortcutBlock12, "floor") {}
  lemma ShortcutBlock13NoKeyExtendsFloor() ensures NoKeyExtends(ShortcutBlock13, "floor") {}
  lemma ShortcutBlock0NoKeyExtendsPi() ensures NoKeyExtends(ShortcutBlock0, "|^|") {}
  lemma ShortcutBlock1NoKeyExtendsPi() ensures NoKeyExtends(ShortcutBlock1, "|^|") {}
  lemma ShortcutBlock2NoKeyExtendsPi() ensures NoKeyExtends(ShortcutBlock2, "|^|") {}
  lemma ShortcutBlock3NoKeyExtendsPi() ensures NoKeyExtends(ShortcutBlock3, "|^|") {}
  lemma ShortcutBlock4NoKeyExtendsPi() ensures NoKeyExtends(ShortcutBlock4, "|^|") {}
  lemma ShortcutBlock5NoKeyExtendsPi() ensures NoKeyExtends(ShortcutBlock5, "|^|") {}
  lemma ShortcutBlock6NoKeyExtendsPi() ensures NoKeyExtends(ShortcutBlock6, "|^|") {}
  lemma ShortcutBlock7NoKeyExtendsPi() ensures NoKeyExtends(ShortcutBlock7, "|^|") {}
  lemma ShortcutBlock8NoKeyExtendsPi() ensures NoKeyExtends(ShortcutBlock8, "|^|") {}
  lemma ShortcutBlock9NoKeyExtendsPi() ensures NoKeyExtends(ShortcutBlock9, "|^|") {}
  lemma ShortcutBlock10NoKeyExtendsPi() ensures NoKeyExtends(ShortcutBlock10, "|^|") {}
  lemma ShortcutBlock11NoKeyExtendsPi() ensures NoKeyExtends(ShortcutBlock11, "|^|") {}
  lemma ShortcutBlock12NoKeyExtendsPi() ensures NoKeyExtends(ShortcutBlock12, "|^|") {}
  lemma ShortcutBlock13NoKeyExtendsPi() ensures NoKeyExtends(ShortcutBlock13, "|^|") {}
  lemma ShortcutBlock0NoKeyExtendsEllipsis() ensures NoKeyExtends(ShortcutBlock0, "...") {}
  lemma ShortcutBlock1NoKeyExtendsEllipsis() ensures NoKeyExtends(ShortcutBlock1, "...") {}
  lemma ShortcutBlock2NoKeyExtendsEllipsis() ensures NoKeyExtends(ShortcutBlock2, "...") {}
  lemma ShortcutBlock3NoKeyExtendsEllipsis() ensures NoKeyExtends(ShortcutBlock3, "...") {}
  lemma ShortcutBlock4NoKeyExtendsEllipsis() ensures NoKeyExtends(ShortcutBlock4, "...") {}
  lemma ShortcutBlock5NoKeyExtendsEllipsis() ensures NoKeyExtends(ShortcutBlock5, "...") {}
  lemma ShortcutBlock6NoKeyExtendsEllipsis() ensures NoKeyExtends(ShortcutBlock6, "...") {}
  lemma ShortcutBlock7NoKeyExtendsEllipsis() ensures NoKeyExtends(ShortcutBlock7, "...") {}
  lemma ShortcutBlock8NoKeyExtendsEllipsis() ensures NoKeyExtends(ShortcutBlock8, "...") {}
  lemma ShortcutBlock9NoKeyExtendsEllipsis() ensures NoKeyExtends(ShortcutBlock9, "...") {}
  lemma ShortcutBlock10NoKeyExtendsEllipsis() ensures NoKeyExtends(ShortcutBlock10, "...") {}
  lemma ShortcutBlock11NoKeyExtendsEllipsis() ensures NoKeyExtends(ShortcutBlock11, "...") {}
  lemma ShortcutBlock12NoKeyExtendsEllipsis() ensures NoKeyExtends(ShortcutBlock12, "...") {}
  lemma ShortcutBlock13NoKeyExtendsEllipsis() ensures NoKeyExtends(ShortcutBlock13, "...") {}

  /** A word no block extends is extended by no mnemonic of the table. */
  lemma ShortcutMapNoKeyExtends(w: string)
    requires NoKeyExtends(ShortcutBlock0, w)
      && NoKeyExtends(ShortcutBlock1, w)
      && NoKeyExtends(ShortcutBlock2, w)
      && NoKeyExtends(ShortcutBlock3, w)
      && NoKeyExtends(ShortcutBlock4, w)
      && NoKeyExtends(ShortcutBlock5, w)
      && NoKeyExtends(ShortcutBlock6, w)
      && NoKeyExtends(ShortcutBlock7, w)
      && NoKeyExtends(ShortcutBlock8, w)
      && NoKeyExtends(ShortcutBlock9, w)
      && NoKeyExtends(ShortcutBlock10, w)
      && NoKeyExtends(ShortcutBlock11, w)
      && NoKeyExtends(ShortcutBlock12, w)
      && NoKeyExtends(ShortcutBlock13, w)
    ensures NoKeyExtends(ShortcutMap, w)
  {
    NoKeyExtendsAppend(ShortcutBlock0, ShortcutBlock1, w);
    NoKeyExtendsAppend(ShortcutUpTo1, ShortcutBlock2, w);
    NoKeyExtendsAppend(ShortcutUpTo2, ShortcutBlock3, w);
    NoKeyExtendsAppend(ShortcutUpTo3, ShortcutBlock4, w);
    NoKeyExtendsAppend(ShortcutUpTo4, ShortcutBlock5, w);
    NoKeyExtendsAppend(ShortcutUpTo5, ShortcutBlock6, w);
    NoKeyExtendsAppend(ShortcutUpTo6, ShortcutBlock7, w);
    NoKeyExtendsAppend(ShortcutUpTo7, ShortcutBlock8, w);
    NoKeyExtendsAppend(ShortcutUpTo8, ShortcutBlock9, w);
    NoKeyExtendsAppend(ShortcutUpTo9, ShortcutBlock10, w);
    NoKeyExtendsAppend(ShortcutUpTo10, ShortcutBlock11, w);
    NoKeyExtendsAppend(ShortcutUpTo11, ShortcutBlock12, w);
    NoKeyExtendsAppend(ShortcutUpTo12, ShortcutBlock13, w);
  }

  /** No mnemonic is longer than `lambdax` and ends with it. */
  lemma NoKeyExtendsLambdax()
    ensures NoKeyExtends(ShortcutMap, "lambdax")
  {
    ShortcutBlock0NoKeyExtendsLambdax();
    ShortcutBlock1NoKeyExtendsLambdax();
    ShortcutBlock2NoKeyExtendsLambdax();
    ShortcutBlock3NoKeyExtendsLambdax();
    ShortcutBlock4NoKeyExtendsLambdax();
    ShortcutBlock5NoKeyExtendsLambdax();
    ShortcutBlock6NoKeyExtendsLambdax();
    ShortcutBlock7NoKeyExtendsLambdax();
    ShortcutBlock8NoKeyExtendsLambdax();
    ShortcutBlock9NoKeyExtendsLambdax();
    ShortcutBlock10NoKeyExtendsLambdax();
    ShortcutBlock11NoKeyExtendsLambdax();
    ShortcutBlock12NoKeyExtendsLambdax();
    ShortcutBlock13NoKeyExtendsLambdax();
    ShortcutMapNoKeyExtends("lambdax");
  }

  /** No mnemonic is longer than `floor` and ends with it. */
  lemma NoKeyExtendsFloor()
    ensures NoKeyExtends(ShortcutMap, "floor")
  {
    ShortcutBlock0NoKeyExtendsFloor();
    ShortcutBlock1NoKeyExtendsFloor();
    ShortcutBlock2NoKeyExtendsFloor();
    ShortcutBlock3NoKeyExtendsFloor();
    ShortcutBlock4NoKeyExtendsFloor();
    ShortcutBlock5NoKeyExtendsFloor();
    ShortcutBlock6NoKeyExtendsFloor();
    ShortcutBlock7NoKeyExtendsFloor();
    ShortcutBlock8NoKeyExtendsFloor();
    ShortcutBlock9NoKeyExtendsFloor();
    ShortcutBlock10NoKeyExtendsFloor();
    ShortcutBlock11NoKeyExtendsFloor();
    ShortcutBlock12NoKeyExtendsFloor();
    ShortcutBlock13NoKeyExtendsFloor();
    ShortcutMapNoKeyExtends("floor");
  }

  /** No mnemonic is longer than `|^|` and ends with it. */
  lemma NoKeyExtendsPi()
    ensures NoKeyExtends(ShortcutMap, "|^|")
  {
    ShortcutBlock0NoKeyExtendsPi();
    ShortcutBlock1NoKeyExtendsPi();
    ShortcutBlock2NoKeyExtendsPi();
    ShortcutBlock3NoKeyExtendsPi();
    ShortcutBlock4NoKeyExtendsPi();
    ShortcutBlock5NoKeyExtendsPi();
    ShortcutBlock6NoKeyExtendsPi();
    ShortcutBlock7NoKeyExtendsPi();
    ShortcutBlock8NoKeyExtendsPi();
    ShortcutBlock9NoKeyExtendsPi();
    ShortcutBlock10NoKeyExtendsPi();
    ShortcutBlock11NoKeyExtendsPi();
    ShortcutBlock12NoKeyExtendsPi();
    ShortcutBlock13NoKeyExtendsPi();
    ShortcutMapNoKeyExtends("|^|");
  }

  /** No mnemonic is longer than `...` and ends with it. */
  lemma NoKeyExtendsEllipsis()
    ensures NoKeyExtends(ShortcutMap, "...")
  {
    ShortcutBlock0NoKeyExtendsEllipsis();
    ShortcutBlock1NoKeyExtendsEllipsis();
    ShortcutBlock2NoKeyExtendsEllipsis();
    ShortcutBlock3NoKeyExtendsEllipsis();
    ShortcutBlock4NoKeyExtendsEllipsis();
    ShortcutBlock5NoKeyExtendsEllipsis();
    ShortcutBlock6NoKeyExtendsEllipsis();
    ShortcutBlock7NoKeyExtendsEllipsis();
    ShortcutBlock8NoKeyExtendsEllipsis();
    ShortcutBlock9NoKeyExtendsEllipsis();
    ShortcutBlock10NoKeyExtendsEllipsis();
    ShortcutBlock11NoKeyExtendsEllipsis();
    ShortcutBlock12NoKeyExtendsEllipsis();
    ShortcutBlock13NoKeyExtendsEllipsis();
    ShortcutMapNoKeyExtends("...");
  }

  /** `shortcut_list` is the rows of `shortcut_map` as written, since no
      mnemonic is an array index that `Object.entries` would move ahead. */
  lemma ShortcutListIsMap()
    ensures ShortcutList == ShortcutMap
  {
    ShortcutMapWellFormed();
    ObjectEntriesKeepsOrder(ShortcutMap);
  }

  /** The code page has 256 characters, one per byte value: it begins with
      λ, and the newline sits at index 10, its ASCII position. */
  lemma CodepageShape()
    ensures |Codepage| == 256
    ensures Codepage[0] == 'λ' && Codepage[10] == '\n'
  {
  }

  // Block-by-block facts about the catalogue.
  lemma ElementBlock0OneKeyField() ensures AllOneKeyField(ElementBlock0) {}
  lemma ElementBlock1OneKeyField() ensures AllOneKeyField(ElementBlock1) {}
  lemma ElementBlock2OneKeyField() ensures AllOneKeyField(ElementBlock2) {}
  lemma ElementBlock3OneKeyField() ensures AllOneKeyField(ElementBlock3) {}
  lemma ElementBlock4OneKeyField() ensures AllOneKeyField(ElementBlock4) {}
  lemma ElementBlock5OneKeyField() ensures AllOneKeyField(ElementBlock5) {}
  lemma ElementBlock6OneKeyField() ensures AllOneKeyField(ElementBlock6) {}
  lemma ElementBlock7OneKeyField() ensures AllOneKeyField(ElementBlock7) {}
  lemma ElementBlock8OneKeyField() ensures AllOneKeyField(ElementBlock8) {}
  lemma ElementBlock9OneKeyField() ensures AllOneKeyField(ElementBlock9) {}
  lemma ElementBlock10OneKeyField() ensures AllOneKeyField(ElementBlock10) {}
  lemma ElementBlock11OneKeyField() ensures AllOneKeyField(ElementBlock11) {}
  lemma ElementBlock12OneKeyField() ensures AllOneKeyField(ElementBlock12) {}
  lemma ElementBlock13OneKeyField() ensures AllOneKeyField(ElementBlock13) {}

  /** The first k + 1 blocks of the catalogue. */
  const ElementsUpTo1: seq<Record> := ElementBlock0 + ElementBlock1
  const ElementsUpTo2: seq<Record> := ElementsUpTo1 + ElementBlock2
  const ElementsUpTo3: seq<Record> := ElementsUpTo2 + ElementBlock3
  const ElementsUpTo4: seq<Record> := ElementsUpTo3 + ElementBlock4
  const ElementsUpTo5: seq<Record> := ElementsUpTo4 + ElementBlock5
  const ElementsUpTo6: seq<Record> := ElementsUpTo5 + ElementBlock6
  const ElementsUpTo7: seq<Record> := ElementsUpTo6 + ElementBlock7
  const ElementsUpTo8: seq<Record> := ElementsUpTo7 + ElementBlock8
  const ElementsUpTo9: seq<Record> := ElementsUpTo8 + ElementBlock9
  const ElementsUpTo10: seq<Record> := ElementsUpTo9 + ElementBlock10
  const ElementsUpTo11: seq<Record> := ElementsUpTo10 + ElementBlock11
  const ElementsUpTo12: seq<Record> := ElementsUpTo11 + ElementBlock12
  const ElementsUpTo13: seq<Record> := ElementsUpTo12 + ElementBlock13

  lemma ElementsPrefix1() ensures AllOneKeyField(ElementsUpTo1) {
    ElementBlock0OneKeyField();
    ElementBlock1OneKeyField();
    OneKeyFieldAppend(ElementBlock0, ElementBlock1);
  }
  lemma ElementsPrefix2() ensures AllOneKeyField(ElementsUpTo2) {
    ElementsPrefix1();
    ElementBlock2OneKeyField();
    OneKeyFieldAppend(ElementsUpTo1, ElementBlock2);
  }
  lemma ElementsPrefix3() ensures AllOneKeyField(ElementsUpTo3) {
    ElementsPrefix2();
    ElementBlock3OneKeyField();
    OneKeyFieldAppend(ElementsUpTo2, ElementBlock3);
  }
  lemma ElementsPrefix4() ensures AllOneKeyField(ElementsUpTo4) {
    ElementsPrefix3();
    ElementBlock4OneKeyField();
    OneKeyFieldAppend(ElementsUpTo3, ElementBlock4);
  }
  lemma ElementsPrefix5() ensures AllOneKeyField(ElementsUpTo5) {
    ElementsPrefix4();
    ElementBlock5OneKeyField();
    OneKeyFieldAppend(ElementsUpTo4, ElementBlock5);
  }
  lemma ElementsPrefix6() ensures AllOneKeyField(ElementsUpTo6) {
    ElementsPrefix5();
    ElementBlock6OneKeyField();
    OneKeyFieldAppend(ElementsUpTo5, ElementBlock6);
  }
  lemma ElementsPrefix7() ensures AllOneKeyField(ElementsUpTo7) {
    ElementsPrefix6();
    ElementBlock7OneKeyField();
    OneKeyFieldAppend(ElementsUpTo6, ElementBlock7);
  }
  lemma ElementsPrefix8() ensures AllOneKeyField(ElementsUpTo8) {
    ElementsPrefix7();
    ElementBlock8OneKeyField();
    OneKeyFieldAppend(ElementsUpTo7, ElementBlock8);
  }
  lemma ElementsPrefix9() ensures AllOneKeyField(ElementsUpTo9) {
    ElementsPrefix8();
    ElementBlock9OneKeyField();
    OneKeyFieldAppend(ElementsUpTo8, ElementBlock9);
  }
  lemma ElementsPrefix10() ensures AllOneKeyField(ElementsUpTo10) {
    ElementsPrefix9();
    ElementBlock10OneKeyField();
    OneKeyFieldAppend(ElementsUpTo9, ElementBlock10);
  }
  lemma ElementsPrefix11() ensures AllOneKeyField(ElementsUpTo11) {
    ElementsPrefix10();
    ElementBlock11OneKeyField();
    OneKeyFieldAppend(ElementsUpTo10, ElementBlock11);
  }
  lemma ElementsPrefix12() ensures AllOneKeyField(ElementsUpTo12) {
    ElementsPrefix11();
    ElementBlock12OneKeyField();
    OneKeyFieldAppend(ElementsUpTo11, ElementBlock12);
  }
  lemma ElementsPrefix13() ensures AllOneKeyField(ElementsUpTo13) {
    ElementsPrefix12();
    ElementBlock13OneKeyField();
    OneKeyFieldAppend(ElementsUpTo12, ElementBlock13);
  }

  /** Every catalogue record carries exactly one key field, of one or two
      characters. */
  lemma ElementsOneKeyField()
    ensures |Elements| == 559
    ensures AllOneKeyField(Elements)
  {
    ElementsPrefix13();
  }
}
