/** The static data of the site that the shortcut expander and the
    element pages read: the 256-character code page, the shortcut table
    `shortcut_map` with its entry list `shortcut_list`, and the key fields of
    the element catalogue `elements` (data.ts). The table and the catalogue
    are written in blocks of consecutive rows, in source order, so that facts
    about them can be checked block by block (see DataFacts). */
module Data {
  import opened Wrappers
  import Decimal

  /** (key, value) string pairs in order: an object's own properties, or
      the entry list `Object.entries` returns. */
  type Table = seq<(string, string)>

  predicate IsKey(t: Table, k: string) {
    exists i :: 0 <= i < |t| && t[i].0 == k
  }

  predicate DistinctKeys(t: Table) {
    forall i, j :: 0 <= i < j < |t| ==> t[i].0 != t[j].0
  }

  /** A catalogue record, reduced to the fields that key it: an element
      record has `element`, a modifier record has `modifier`. */
  datatype Record = Record(element: Option<string>, modifier: Option<string>)

  /** The code page (data.ts line 5), one row of 16 characters per line. */
  const Codepage: string :=
      "λƛ¬∧⟑∨⟇÷×«\n»°•ß†"
    + "€½∆ø↔¢⌐æʀʁɾɽÞƈ∞¨"
    + " !\"#$%&\'()*+,-./"
    + "0123456789:;<=>?"
    + "@ABCDEFGHIJKLMNO"
    + "PQRSTUVWXYZ[\\]`^"
    + "_abcdefghijklmno"
    + "pqrstuvwxyz{|}~↑"
    + "↓∴∵›‹∷¤ð→←βτȧḃċḋ"
    + "ėḟġḣḭŀṁṅȯṗṙṡṫẇẋẏ"
    + "ż√⟨⟩‛₀₁₂₃₄₅₆₇₈¶⁋"
    + "§ε¡∑¦≈µȦḂĊḊĖḞĠḢİ"
    + "ĿṀṄȮṖṘṠṪẆẊẎŻ₌₍⁰¹"
    + "²∇⌈⌊¯±₴…□↳↲⋏⋎꘍ꜝ℅"
    + "≤≥≠⁼ƒɖ∪∩⊍£¥⇧⇩ǍǎǏ"
    + "ǐǑǒǓǔ⁽‡≬⁺↵⅛¼¾Π„‟"

  /** `shortcut_map`, data.ts lines 6609-6626. */
  const ShortcutBlock0: Table := [
    ("A\\", "λ"),
    ("lambda", "λ"),
    ("lmb", "λ"),
    ("`l", "λ"),
    ("Ax", "ƛ"),
    ("lambdax", "ƛ"),
    ("lmbx", "ƛ"),
    ("`L", "ƛ"),
    ("`lx", "ƛ"),
    ("-,", "¬"),
    ("not", "¬"),
    ("and", "∧"),
    ("and.", "⟑"),
    ("or", "∨"),
    ("or.", "⟇"),
    (":-", "÷"),
    ("-:", "÷"),
    ("div", "÷")
  ]

  /** `shortcut_map`, data.ts lines 6627-6644. */
  const ShortcutBlock1: Table := [
    ("./.", "÷"),
    ("xx", "×"),
    ("mul", "×"),
    ("times", "×"),
    ("<<", "«"),
    (">>", "»"),
    ("^o", "°"),
    ("deg", "°"),
    ("..", "•"),
    ("ss", "ß"),
    ("dagger", "†"),
    ("tt", "†"),
    ("CE", "€"),
    ("EC", "€"),
    ("C=", "€"),
    ("=C", "€"),
    ("euro", "€"),
    ("1/2", "½")
  ]

  /** `shortcut_map`, data.ts lines 6645-6662. */
  const ShortcutBlock2: Table := [
    ("delta", "∆"),
    ("tri", "∆"),
    ("^_", "∆"),
    ("o/", "ø"),
    ("<>", "↔"),
    ("lr", "↔"),
    ("cent", "¢"),
    ("c|", "¢"),
    ("notr", "⌐"),
    (",-", "⌐"),
    ("ae", "æ"),
    ("RR", "ʀ"),
    ("_R", "ʀ"),
    ("R_", "ʁ"),
    ("R\'", "ʁ"),
    ("rr", "ɾ"),
    (",r", "ɽ"),
    ("rh", "ɽ")
  ]

  /** `shortcut_map`, data.ts lines 6663-6680. */
  const ShortcutBlock3: Table := [
    ("thorn", "Þ"),
    ("bp", "Þ"),
    ("ch", "ƈ"),
    ("oo", "∞"),
    ("inf", "∞"),
    ("^^", "¨"),
    ("^:", "¨"),
    ("up", "↑"),
    ("^|", "↑"),
    ("down", "↓"),
    ("dn", "↓"),
    ("therefore", "∴"),
    (":.", "∴"),
    ("since", "∵"),
    (".:", "∵"),
    ("_>", "›"),
    ("_<", "‹"),
    ("::", "∷")
  ]

  /** `shortcut_map`, data.ts lines 6681-6697. */
  const ShortcutBlock4: Table := [
    ("[]", "¤"),
    ("eth", "ð"),
    ("dx", "ð"),
    ("right", "→"),
    ("->", "→"),
    ("left", "←"),
    ("<-", "←"),
    ("BB", "β"),
    ("beta", "β"),
    ("tau", "τ"),
    (".a", "ȧ"),
    (".b", "ḃ"),
    (".c", "ċ"),
    (".d", "ḋ"),
    (".e", "ė"),
    (".f", "ḟ"),
    (".g", "ġ")
  ]

  /** `shortcut_map`, data.ts lines 6698-6714. */
  const ShortcutBlock5: Table := [
    (".h", "ḣ"),
    ("i~", "ḭ"),
    ("l.", "ŀ"),
    (".l", "ŀ"),
    (".m", "ṁ"),
    (".n", "ṅ"),
    (".o", "ȯ"),
    (".p", "ṗ"),
    (".r", "ṙ"),
    (".s", "ṡ"),
    (".t", "ṫ"),
    (".w", "ẇ"),
    (".x", "ẋ"),
    (".y", "ẏ"),
    (".z", "ż"),
    ("sqrt", "√"),
    ("v/", "√")
  ]

  /** `shortcut_map`, data.ts lines 6715-6731. */
  const ShortcutBlock6: Table := [
    ("[[", "⟨"),
    ("]]", "⟩"),
    ("\\\'", "‛"),
    ("``", "‛"),
    ("_0", "₀"),
    ("_1", "₁"),
    ("_2", "₂"),
    ("_3", "₃"),
    ("_4", "₄"),
    ("_5", "₅"),
    ("_6", "₆"),
    ("_7", "₇"),
    ("_8", "₈"),
    ("pilcrow", "¶"),
    ("pil", "¶"),
    ("pilr", "⁋"),
    ("pp", "⁋")
  ]

  /** `shortcut_map`, data.ts lines 6732-6748. */
  const ShortcutBlock7: Table := [
    ("section", "§"),
    ("sec", "§"),
    ("SS", "§"),
    ("epsilon", "ε"),
    ("ee", "ε"),
    ("!!", "¡"),
    ("sum", "∑"),
    ("EE", "∑"),
    ("||", "¦"),
    ("~~", "≈"),
    ("~=", "≈"),
    ("|u", "µ"),
    ("mu", "µ"),
    (".A", "Ȧ"),
    (".B", "Ḃ"),
    (".C", "Ċ"),
    (".D", "Ḋ")
  ]

  /** `shortcut_map`, data.ts lines 6749-6765. */
  const ShortcutBlock8: Table := [
    (".E", "Ė"),
    (".F", "Ḟ"),
    (".G", "Ġ"),
    (".H", "Ḣ"),
    (".I", "İ"),
    (".L", "Ŀ"),
    ("L.", "Ŀ"),
    (".M", "Ṁ"),
    (".N", "Ṅ"),
    (".O", "Ȯ"),
    (".P", "Ṗ"),
    (".R", "Ṙ"),
    (".S", "Ṡ"),
    (".T", "Ṫ"),
    (".W", "Ẇ"),
    (".X", "Ẋ"),
    (".Y", "Ẏ")
  ]

  /** `shortcut_map`, data.ts lines 6766-6782. */
  const ShortcutBlock9: Table := [
    (".Z", "Ż"),
    ("_=", "₌"),
    ("_(", "₍"),
    ("^0", "⁰"),
    ("^1", "¹"),
    ("^2", "²"),
    ("nabla", "∇"),
    ("_v", "∇"),
    ("ceil", "⌈"),
    ("|^", "⌈"),
    ("floor", "⌊"),
    ("|_", "⌊"),
    ("macron", "¯"),
    ("^-", "¯"),
    ("+-", "±"),
    ("pm", "±"),
    ("S=", "₴")
  ]

  /** `shortcut_map`, data.ts lines 6783-6799. */
  const ShortcutBlock10: Table := [
    ("...", "…"),
    ("box", "□"),
    ("L>", "↳"),
    ("v>", "↳"),
    ("<|", "↲"),
    ("<v", "↲"),
    ("andc", "⋏"),
    ("orc", "⋎"),
    ("/\\", "꘍"),
    ("vc", "꘍"),
    ("^!", "ꜝ"),
    ("c/o", "℅"),
    ("co", "℅"),
    ("<=", "≤"),
    ("le", "≤"),
    (">=", "≥"),
    ("ge", "≥")
  ]

  /** `shortcut_map`, data.ts lines 6800-6816. */
  const ShortcutBlock11: Table := [
    ("=/=", "≠"),
    ("!=", "≠"),
    ("ne", "≠"),
    ("^=", "⁼"),
    ("fh", "ƒ"),
    ("f/", "ƒ"),
    ("ff", "ƒ"),
    ("dq", "ɖ"),
    ("UU", "∪"),
    ("nn", "∩"),
    ("u.", "⊍"),
    ("pound", "£"),
    ("LE", "£"),
    ("yen", "¥"),
    ("Y=", "¥"),
    ("=Y", "¥"),
    ("UP", "⇧")
  ]

  /** `shortcut_map`, data.ts lines 6817-6833. */
  const ShortcutBlock12: Table := [
    ("DOWN", "⇩"),
    ("DN", "⇩"),
    ("uA", "Ǎ"),
    ("vA", "Ǎ"),
    ("ua", "ǎ"),
    ("va", "ǎ"),
    ("uI", "Ǐ"),
    ("vI", "Ǐ"),
    ("ui", "ǐ"),
    ("vi", "ǐ"),
    ("uO", "Ǒ"),
    ("vO", "Ǒ"),
    ("uo", "ǒ"),
    ("vo", "ǒ"),
    ("uU", "Ǔ"),
    ("vU", "Ǔ"),
    ("vu", "ǔ")
  ]

  /** `shortcut_map`, data.ts lines 6834-6850. */
  const ShortcutBlock13: Table := [
    ("uu", "ǔ"),
    ("^(", "⁽"),
    ("|=", "‡"),
    ("=|", "‡"),
    ("++", "‡"),
    ("()", "≬"),
    ("^+", "⁺"),
    ("ret", "↵"),
    ("1/8", "⅛"),
    ("1/4", "¼"),
    ("qt", "¼"),
    ("3/4", "¾"),
    ("3q", "¾"),
    ("|^|", "Π"),
    ("pi", "Π"),
    (",,", "„"),
    ("\'\'", "‟")
  ]

  /** The properties of the `shortcut_map` object literal, in source order
      (data.ts lines 6608-6851). */
  const ShortcutMap: Table :=
      ShortcutBlock0
    + ShortcutBlock1
    + ShortcutBlock2
    + ShortcutBlock3
    + ShortcutBlock4
    + ShortcutBlock5
    + ShortcutBlock6
    + ShortcutBlock7
    + ShortcutBlock8
    + ShortcutBlock9
    + ShortcutBlock10
    + ShortcutBlock11
    + ShortcutBlock12
    + ShortcutBlock13

  /** A key JavaScript treats as an array index: canonical decimal text of
      a number below 2^32 - 1. */
  predicate IsArrayIndex(k: string) {
    Decimal.Canonical(k) && Decimal.Value(k) < 0xFFFF_FFFF
  }

  /** A key is an array index exactly when it is the printed form of a
      natural number below 2^32 - 1. */
  lemma IsArrayIndexIff(k: string)
    ensures IsArrayIndex(k) <==> exists n: nat :: n < 0xFFFF_FFFF && Decimal.FromNat(n) == k
  {
    if IsArrayIndex(k) {
      Decimal.CanonicalIsFromNat(k);
    }
  }

  /** The array index a key denotes, and -1 for the other keys. */
  function IndexValue(k: string): int {
    if IsArrayIndex(k) then Decimal.Value(k) else -1
  }

  predicate IndexAscending(t: Table) {
    forall i, j :: 0 <= i < j < |t| ==> IndexValue(t[i].0) <= IndexValue(t[j].0)
  }

  /** Inserts a row into rows kept in ascending index order, before the
      first row with a larger or equal index. */
  function InsertByIndex(row: (string, string), t: Table): (r: Table)
    requires IndexAscending(t)
    ensures IndexAscending(r)
    ensures multiset(r) == multiset(t) + multiset{row}
  {
    if |t| == 0 then [row]
    else if IndexValue(row.0) <= IndexValue(t[0].0) then [row] + t
    else
      var rest := InsertByIndex(row, t[1..]);
      assert t == [t[0]] + t[1..];
      InsertedStaysAbove(t[0], row, t[1..], rest);
      [t[0]] + rest
  }

  lemma InsertedStaysAbove(first: (string, string), row: (string, string), t: Table, rest: Table)
    requires IndexAscending([first] + t)
    requires IndexValue(first.0) < IndexValue(row.0)
    requires IndexAscending(rest)
    requires multiset(rest) == multiset(t) + multiset{row}
    ensures IndexAscending([first] + rest)
  {
    forall j | 0 <= j < |rest|
      ensures IndexValue(first.0) <= IndexValue(rest[j].0)
    {
      assert rest[j] in multiset(rest);
      if rest[j] != row {
        assert multiset(t)[rest[j]] == multiset(rest)[rest[j]] > 0;
        var k :| 0 <= k < |t| && t[k] == rest[j];
        assert ([first] + t)[k + 1] == t[k];
        assert ([first] + t)[0] == first;
      }
    }
  }

  /** The rows whose keys are array indices, in ascending index order. */
  function IndexRows(t: Table): (r: Table)
    ensures IndexAscending(r)
    ensures forall row :: row in multiset(r) <==> row in multiset(t) && IsArrayIndex(row.0)
    ensures forall row :: multiset(r)[row] == if IsArrayIndex(row.0) then multiset(t)[row] else 0
  {
    if |t| == 0 then []
    else
      var last := t[|t| - 1];
      var init := t[..|t| - 1];
      var rest := IndexRows(init);
      assert t == init + [last];
      assert multiset(t) == multiset(init) + multiset{last};
      if IsArrayIndex(last.0) then InsertByIndex(last, rest) else rest
  }

  /** The rows whose keys are not array indices, in their original order. */
  function OtherRows(t: Table): (r: Table)
    ensures forall i :: 0 <= i < |r| ==> !IsArrayIndex(r[i].0)
    ensures forall row :: row in r <==> row in t && !IsArrayIndex(row.0)
    ensures (forall i :: 0 <= i < |t| ==> !IsArrayIndex(t[i].0)) ==> r == t
    ensures forall row :: multiset(r)[row] == if IsArrayIndex(row.0) then 0 else multiset(t)[row]
  {
    if |t| == 0 then []
    else
      assert t == [t[0]] + t[1..];
      if IsArrayIndex(t[0].0) then OtherRows(t[1..])
    else [t[0]] + OtherRows(t[1..])
  }

  /** Filtering out the array-index rows distributes over concatenation:
      with the membership clauses of OtherRows, this makes its result the
      subsequence of the non-index rows, in their original order. */
  lemma {:induction false} OtherRowsAppend(a: Table, b: Table)
    ensures OtherRows(a + b) == OtherRows(a) + OtherRows(b)
  {
    if |a| == 0 {
      assert a + b == b;
    } else {
      assert (a + b)[0] == a[0];
      assert (a + b)[1..] == a[1..] + b;
      OtherRowsAppend(a[1..], b);
    }
  }

  /** `Object.entries` of an object with the given own properties: the
      array-index keys first, ascending, then the other keys in insertion
      order. */
  function ObjectEntries(props: Table): (r: Table)
    ensures forall row :: row in r <==> row in props
    ensures forall i, j :: 0 <= i < j < |r| && !IsArrayIndex(r[i].0) ==> !IsArrayIndex(r[j].0)
  {
    var a := IndexRows(props);
    var b := OtherRows(props);
    assert forall row :: row in a <==> row in multiset(a);
    assert forall row :: row in props <==> row in multiset(props);
    assert forall i :: 0 <= i < |a| ==> IsArrayIndex(a[i].0) by {
      forall i | 0 <= i < |a| ensures IsArrayIndex(a[i].0) {
        assert a[i] in multiset(a);
      }
    }
    a + b
  }

  /** `Object.entries` lists every own property exactly once: its result is
      a permutation of the properties. */
  lemma ObjectEntriesPermutes(props: Table)
    ensures multiset(ObjectEntries(props)) == multiset(props)
  {
    forall row
      ensures multiset(IndexRows(props) + OtherRows(props))[row] == multiset(props)[row]
    {
    }
  }

  /** Without array-index keys, `Object.entries` lists the properties in
      insertion order. */
  lemma ObjectEntriesKeepsOrder(props: Table)
    requires forall i :: 0 <= i < |props| ==> !IsArrayIndex(props[i].0)
    ensures ObjectEntries(props) == props
  {
  }

  /** `shortcut_list` (data.ts line 6853). */
  const ShortcutList: Table := ObjectEntries(ShortcutMap)

  /** `elements`, the records starting at data.ts lines 8-405. */
  const ElementBlock0: seq<Record> := [
    Record(Some("λ"), None),
    Record(Some("ƛ"), None),
    Record(Some("¬"), None),
    Record(Some("∧"), None),
    Record(Some("⟑"), None),
    Record(Some("∨"), None),
    Record(Some("⟇"), None),
    Record(Some("÷"), None),
    Record(Some("×"), None),
    Record(Some("«"), None),
    Record(Some("␤"), None),
    Record(Some("»"), None),
    Record(Some("°"), None),
    Record(Some("•"), None),
    Record(None, Some("ß")),
    Record(Some("†"), None),
    Record(Some("€"), None),
    Record(Some("½"), None),
    Record(Some("∆"), None),
    Record(Some("ø"), None),
    Record(Some("↔"), None),
    Record(Some("¢"), None),
    Record(Some("⌐"), None),
    Record(Some("æ"), None),
    Record(Some("ʀ"), None),
    Record(Some("ʁ"), None),
    Record(Some("ɾ"), None),
    Record(Some("ɽ"), None),
    Record(Some("Þ"), None),
    Record(Some("ƈ"), None),
    Record(Some("∞"), None),
    Record(Some("¨"), None),
    Record(Some(" "), None),
    Record(Some("!"), None),
    Record(Some("\""), None),
    Record(Some("#"), None),
    Record(Some("#{"), None),
    Record(Some("$"), None),
    Record(Some("%"), None),
    Record(None, Some("&"))
  ]

  /** `elements`, the records starting at data.ts lines 411-839. */
  const ElementBlock1: seq<Record> := [
    Record(Some("\'"), None),
    Record(Some("("), None),
    Record(Some(")"), None),
    Record(Some("*"), None),
    Record(Some("+"), None),
    Record(Some(","), None),
    Record(Some("-"), None),
    Record(Some("."), None),
    Record(Some("/"), None),
    Record(Some("0"), None),
    Record(Some("1"), None),
    Record(Some("2"), None),
    Record(Some("3"), None),
    Record(Some("4"), None),
    Record(Some("5"), None),
    Record(Some("6"), None),
    Record(Some("7"), None),
    Record(Some("8"), None),
    Record(Some("9"), None),
    Record(Some(":"), None),
    Record(Some(";"), None),
    Record(Some("<"), None),
    Record(Some("="), None),
    Record(Some(">"), None),
    Record(Some("?"), None),
    Record(Some("@"), None),
    Record(Some("A"), None),
    Record(Some("B"), None),
    Record(Some("C"), None),
    Record(Some("D"), None),
    Record(Some("E"), None),
    Record(Some("F"), None),
    Record(Some("G"), None),
    Record(Some("H"), None),
    Record(Some("I"), None),
    Record(Some("J"), None),
    Record(Some("K"), None),
    Record(Some("L"), None),
    Record(Some("M"), None),
    Record(Some("N"), None)
  ]

  /** `elements`, the records starting at data.ts lines 853-1370. */
  const ElementBlock2: seq<Record> := [
    Record(Some("O"), None),
    Record(Some("P"), None),
    Record(Some("Q"), None),
    Record(Some("R"), None),
    Record(Some("S"), None),
    Record(Some("T"), None),
    Record(Some("U"), None),
    Record(Some("V"), None),
    Record(Some("W"), None),
    Record(Some("X"), None),
    Record(Some("Y"), None),
    Record(Some("Z"), None),
    Record(Some("["), None),
    Record(Some("\\"), None),
    Record(Some("]"), None),
    Record(Some("`"), None),
    Record(Some("^"), None),
    Record(Some("_"), None),
    Record(Some("a"), None),
    Record(Some("b"), None),
    Record(Some("c"), None),
    Record(Some("d"), None),
    Record(Some("e"), None),
    Record(Some("f"), None),
    Record(Some("g"), None),
    Record(Some("h"), None),
    Record(Some("i"), None),
    Record(Some("j"), None),
    Record(Some("k"), None),
    Record(Some("l"), None),
    Record(Some("m"), None),
    Record(Some("n"), None),
    Record(Some("o"), None),
    Record(Some("p"), None),
    Record(Some("q"), None),
    Record(Some("r"), None),
    Record(Some("s"), None),
    Record(Some("t"), None),
    Record(Some("u"), None),
    Record(None, Some("v"))
  ]

  /** `elements`, the records starting at data.ts lines 1377-1869. */
  const ElementBlock3: seq<Record> := [
    Record(None, Some("¨v")),
    Record(None, Some("¨V")),
    Record(Some("w"), None),
    Record(Some("x"), None),
    Record(Some("y"), None),
    Record(Some("z"), None),
    Record(Some("{"), None),
    Record(Some("|"), None),
    Record(Some("}"), None),
    Record(None, Some("~")),
    Record(Some("↑"), None),
    Record(Some("↓"), None),
    Record(Some("∴"), None),
    Record(Some("∵"), None),
    Record(Some("›"), None),
    Record(Some("‹"), None),
    Record(Some("∷"), None),
    Record(Some("¤"), None),
    Record(Some("ð"), None),
    Record(Some("→"), None),
    Record(Some("←"), None),
    Record(Some("β"), None),
    Record(Some("τ"), None),
    Record(Some("ȧ"), None),
    Record(Some("ḃ"), None),
    Record(Some("ċ"), None),
    Record(Some("ḋ"), None),
    Record(Some("ė"), None),
    Record(Some("ḟ"), None),
    Record(Some("ġ"), None),
    Record(Some("ḣ"), None),
    Record(Some("ḭ"), None),
    Record(Some("ŀ"), None),
    Record(Some("ṁ"), None),
    Record(Some("ṅ"), None),
    Record(Some("ȯ"), None),
    Record(Some("ṗ"), None),
    Record(Some("ṙ"), None),
    Record(Some("ṡ"), None),
    Record(Some("ṫ"), None)
  ]

  /** `elements`, the records starting at data.ts lines 1878-2402. */
  const ElementBlock4: seq<Record> := [
    Record(Some("ẇ"), None),
    Record(Some("ẋ"), None),
    Record(Some("ẏ"), None),
    Record(Some("ż"), None),
    Record(Some("√"), None),
    Record(Some("⟨"), None),
    Record(Some("⟩"), None),
    Record(Some("‛"), None),
    Record(Some("₀"), None),
    Record(Some("₁"), None),
    Record(Some("₂"), None),
    Record(Some("₃"), None),
    Record(Some("₄"), None),
    Record(Some("₅"), None),
    Record(Some("₆"), None),
    Record(Some("₇"), None),
    Record(Some("₈"), None),
    Record(Some("¶"), None),
    Record(Some("⁋"), None),
    Record(Some("§"), None),
    Record(Some("ε"), None),
    Record(Some("¡"), None),
    Record(Some("∑"), None),
    Record(Some("¦"), None),
    Record(Some("≈"), None),
    Record(Some("µ"), None),
    Record(Some("Ȧ"), None),
    Record(Some("Ḃ"), None),
    Record(Some("Ċ"), None),
    Record(Some("Ḋ"), None),
    Record(Some("Ė"), None),
    Record(Some("Ḟ"), None),
    Record(Some("Ġ"), None),
    Record(Some("Ḣ"), None),
    Record(Some("İ"), None),
    Record(Some("Ŀ"), None),
    Record(Some("Ṁ"), None),
    Record(Some("Ṅ"), None),
    Record(Some("Ȯ"), None),
    Record(Some("Ṗ"), None)
  ]

  /** `elements`, the records starting at data.ts lines 2415-2896. */
  const ElementBlock5: seq<Record> := [
    Record(Some("Ṙ"), None),
    Record(Some("Ṡ"), None),
    Record(Some("Ṫ"), None),
    Record(Some("Ẇ"), None),
    Record(Some("Ẋ"), None),
    Record(Some("Ẏ"), None),
    Record(Some("Ż"), None),
    Record(None, Some("₌")),
    Record(None, Some("₍")),
    Record(Some("⁰"), None),
    Record(Some("¹"), None),
    Record(Some("²"), None),
    Record(Some("∇"), None),
    Record(Some("⌈"), None),
    Record(Some("⌊"), None),
    Record(Some("¯"), None),
    Record(Some("±"), None),
    Record(Some("₴"), None),
    Record(Some("…"), None),
    Record(Some("□"), None),
    Record(Some("↳"), None),
    Record(Some("↲"), None),
    Record(Some("⋏"), None),
    Record(Some("⋎"), None),
    Record(Some("꘍"), None),
    Record(Some("ꜝ"), None),
    Record(Some("℅"), None),
    Record(Some("≤"), None),
    Record(Some("≥"), None),
    Record(Some("≠"), None),
    Record(Some("⁼"), None),
    Record(None, Some("ƒ")),
    Record(None, Some("ɖ")),
    Record(Some("∪"), None),
    Record(Some("∩"), None),
    Record(Some("⊍"), None),
    Record(Some("£"), None),
    Record(Some("¥"), None),
    Record(Some("⇧"), None),
    Record(Some("⇩"), None)
  ]

  /** `elements`, the records starting at data.ts lines 2911-3268. */
  const ElementBlock6: seq<Record> := [
    Record(Some("Ǎ"), None),
    Record(Some("ǎ"), None),
    Record(Some("Ǐ"), None),
    Record(Some("ǐ"), None),
    Record(Some("Ǒ"), None),
    Record(Some("ǒ"), None),
    Record(Some("Ǔ"), None),
    Record(Some("ǔ"), None),
    Record(Some("⁽"), None),
    Record(Some("‡"), None),
    Record(Some("≬"), None),
    Record(Some("⁺"), None),
    Record(Some("↵"), None),
    Record(Some("⅛"), None),
    Record(Some("¼"), None),
    Record(Some("¾"), None),
    Record(Some("Π"), None),
    Record(Some("„"), None),
    Record(Some("‟"), None),
    Record(Some("🍪"), None),
    Record(Some("ඞ"), None),
    Record(Some("kA"), None),
    Record(Some("ke"), None),
    Record(Some("kf"), None),
    Record(Some("kb"), None),
    Record(Some("kF"), None),
    Record(Some("kH"), None),
    Record(Some("kh"), None),
    Record(Some("k1"), None),
    Record(Some("k2"), None),
    Record(Some("k3"), None),
    Record(Some("k4"), None),
    Record(Some("ka"), None),
    Record(Some("kL"), None),
    Record(Some("kd"), None),
    Record(Some("k6"), None),
    Record(Some("k^"), None),
    Record(Some("ko"), None),
    Record(Some("kp"), None),
    Record(Some("kP"), None)
  ]

  /** `elements`, the records starting at data.ts lines 3278-3585. */
  const ElementBlock7: seq<Record> := [
    Record(Some("kQ"), None),
    Record(Some("kw"), None),
    Record(Some("kr"), None),
    Record(Some("kB"), None),
    Record(Some("kZ"), None),
    Record(Some("kz"), None),
    Record(Some("kl"), None),
    Record(Some("ki"), None),
    Record(Some("kg"), None),
    Record(Some("kD"), None),
    Record(Some("kN"), None),
    Record(Some("kḋ"), None),
    Record(Some("kḊ"), None),
    Record(Some("kð"), None),
    Record(Some("kβ"), None),
    Record(Some("kḂ"), None),
    Record(Some("kß"), None),
    Record(Some("kḃ"), None),
    Record(Some("k≥"), None),
    Record(Some("k≤"), None),
    Record(Some("kΠ"), None),
    Record(Some("kv"), None),
    Record(Some("kV"), None),
    Record(Some("k∨"), None),
    Record(Some("k⟇"), None),
    Record(Some("k½"), None),
    Record(Some("kḭ"), None),
    Record(Some("k+"), None),
    Record(Some("k-"), None),
    Record(Some("k≈"), None),
    Record(Some("k/"), None),
    Record(Some("kR"), None),
    Record(Some("kW"), None),
    Record(Some("k℅"), None),
    Record(Some("k↳"), None),
    Record(Some("k²"), None),
    Record(Some("k¶"), None),
    Record(Some("k⁋"), None),
    Record(Some("k¦"), None),
    Record(Some("kṄ"), None)
  ]

  /** `elements`, the records starting at data.ts lines 3593-3998. */
  const ElementBlock8: seq<Record> := [
    Record(Some("kṅ"), None),
    Record(Some("k¡"), None),
    Record(Some("kε"), None),
    Record(Some("k₴"), None),
    Record(Some("k×"), None),
    Record(Some("k⁰"), None),
    Record(Some("k¹"), None),
    Record(Some("kT"), None),
    Record(Some("kṗ"), None),
    Record(Some("kṖ"), None),
    Record(Some("kS"), None),
    Record(Some("k₁"), None),
    Record(Some("k₂"), None),
    Record(Some("k₃"), None),
    Record(Some("k∪"), None),
    Record(Some("k⊍"), None),
    Record(Some("k∩"), None),
    Record(Some("k□"), None),
    Record(Some("kṘ"), None),
    Record(Some("k•"), None),
    Record(Some("∆b"), None),
    Record(Some("∆c"), None),
    Record(Some("∆C"), None),
    Record(Some("∆q"), None),
    Record(Some("∆Q"), None),
    Record(Some("∆s"), None),
    Record(Some("∆S"), None),
    Record(Some("∆t"), None),
    Record(Some("∆T"), None),
    Record(Some("∆Ṫ"), None),
    Record(Some("∆P"), None),
    Record(Some("∆ƈ"), None),
    Record(Some("∆±"), None),
    Record(Some("∆K"), None),
    Record(Some("∆²"), None),
    Record(Some("∆e"), None),
    Record(Some("∆E"), None),
    Record(Some("∆L"), None),
    Record(Some("∆l"), None),
    Record(Some("∆τ"), None)
  ]

  /** `elements`, the records starting at data.ts lines 4018-4565. */
  const ElementBlock9: seq<Record> := [
    Record(Some("∆d"), None),
    Record(Some("∆D"), None),
    Record(Some("∆R"), None),
    Record(Some("∆Ṗ"), None),
    Record(Some("∆ṗ"), None),
    Record(Some("∆p"), None),
    Record(Some("∆ṙ"), None),
    Record(Some("∆W"), None),
    Record(Some("∆%"), None),
    Record(Some("∆Ŀ"), None),
    Record(Some("∆i"), None),
    Record(Some("∆I"), None),
    Record(Some("∆Ė"), None),
    Record(Some("∆ė"), None),
    Record(Some("∆f"), None),
    Record(Some("∆F"), None),
    Record(Some("∆Ṙ"), None),
    Record(Some("∆ṫ"), None),
    Record(Some("∆n"), None),
    Record(Some("∆ḟ"), None),
    Record(Some("∆Z"), None),
    Record(Some("∆ċ"), None),
    Record(Some("∆o"), None),
    Record(Some("∆M"), None),
    Record(Some("∆ṁ"), None),
    Record(Some("∆Ċ"), None),
    Record(Some("∆¢"), None),
    Record(Some("∆›"), None),
    Record(Some("∆‹"), None),
    Record(Some("∆ǐ"), None),
    Record(Some("∆Ǐ"), None),
    Record(Some("∆*"), None),
    Record(Some("∆ȯ"), None),
    Record(Some("∆Ȯ"), None),
    Record(Some("∆ṡ"), None),
    Record(Some("∆Ṡ"), None),
    Record(Some("∆ṅ"), None),
    Record(Some("∆Ṅ"), None),
    Record(Some("∆/"), None),
    Record(Some("∆r"), None)
  ]

  /** `elements`, the records starting at data.ts lines 4577-5131. */
  const ElementBlock10: seq<Record> := [
    Record(Some("øb"), None),
    Record(Some("øB"), None),
    Record(Some("øḃ"), None),
    Record(Some("øḂ"), None),
    Record(Some("øβ"), None),
    Record(Some("ø↳"), None),
    Record(Some("ø↲"), None),
    Record(Some("øM"), None),
    Record(Some("øA"), None),
    Record(Some("øṗ"), None),
    Record(Some("øm"), None),
    Record(Some("øo"), None),
    Record(Some("øO"), None),
    Record(Some("øV"), None),
    Record(Some("øc"), None),
    Record(Some("øC"), None),
    Record(Some("øĊ"), None),
    Record(Some("øe"), None),
    Record(Some("øĖ"), None),
    Record(Some("ød"), None),
    Record(Some("øḊ"), None),
    Record(Some("øD"), None),
    Record(Some("øW"), None),
    Record(Some("øċ"), None),
    Record(Some("øṙ"), None),
    Record(Some("øp"), None),
    Record(Some("øE"), None),
    Record(Some("øf"), None),
    Record(Some("øs"), None),
    Record(Some("øP"), None),
    Record(Some("øṁ"), None),
    Record(Some("øṀ"), None),
    Record(Some("øṖ"), None),
    Record(Some("øḋ"), None),
    Record(Some("ø⟇"), None),
    Record(Some("øṘ"), None),
    Record(Some("øJ"), None),
    Record(Some("øḞ"), None),
    Record(Some("øṄ"), None),
    Record(Some("øS"), None)
  ]

  /** `elements`, the records starting at data.ts lines 5141-5634. */
  const ElementBlock11: seq<Record> := [
    Record(Some("øL"), None),
    Record(Some("øR"), None),
    Record(Some("øl"), None),
    Record(Some("ør"), None),
    Record(Some("ø^"), None),
    Record(Some("ø∧"), None),
    Record(Some("ø."), None),
    Record(Some("øŀ"), None),
    Record(Some("øɽ"), None),
    Record(Some("Þ*"), None),
    Record(Some("Þa"), None),
    Record(Some("Þn"), None),
    Record(Some("Þż"), None),
    Record(Some("ÞŻ"), None),
    Record(Some("ÞA"), None),
    Record(Some("Þo"), None),
    Record(Some("Þc"), None),
    Record(Some("Þp"), None),
    Record(Some("Þu"), None),
    Record(Some("Þj"), None),
    Record(Some("ÞẊ"), None),
    Record(Some("Þf"), None),
    Record(Some("ÞB"), None),
    Record(Some("Þ<"), None),
    Record(Some("Þǔ"), None),
    Record(Some("ÞǓ"), None),
    Record(Some("Þk"), None),
    Record(Some("Þi"), None),
    Record(Some("ÞI"), None),
    Record(Some("Þḟ"), None),
    Record(Some("ÞḞ"), None),
    Record(Some("Þm"), None),
    Record(Some("ÞṄ"), None),
    Record(Some("Þ÷"), None),
    Record(Some("ÞZ"), None),
    Record(Some("Þ…"), None),
    Record(Some("Þ↓"), None),
    Record(Some("Þ↑"), None),
    Record(Some("Þ×"), None),
    Record(Some("Þx"), None)
  ]

  /** `elements`, the records starting at data.ts lines 5650-6179. */
  const ElementBlock12: seq<Record> := [
    Record(Some("ÞF"), None),
    Record(Some("Þ!"), None),
    Record(Some("ÞU"), None),
    Record(Some("ÞD"), None),
    Record(Some("Þ√"), None),
    Record(Some("Þḋ"), None),
    Record(Some("Þ`"), None),
    Record(Some("ÞS"), None),
    Record(Some("ÞṪ"), None),
    Record(Some("Þ℅"), None),
    Record(Some("ÞṀ"), None),
    Record(Some("ÞḊ"), None),
    Record(Some("Þ\\"), None),
    Record(Some("Þ/"), None),
    Record(Some("ÞC"), None),
    Record(Some("ÞĠ"), None),
    Record(Some("Þ∨"), None),
    Record(Some("Þ∩"), None),
    Record(Some("Þ∪"), None),
    Record(Some("Þ⊍"), None),
    Record(Some("Þ•"), None),
    Record(Some("Þṁ"), None),
    Record(Some("ÞM"), None),
    Record(Some("Þ∴"), None),
    Record(Some("Þ∵"), None),
    Record(Some("Þs"), None),
    Record(Some("Þ¾"), None),
    Record(Some("Þr"), None),
    Record(Some("Þ∞"), None),
    Record(Some("Þ:"), None),
    Record(Some("ÞR"), None),
    Record(Some("Þẇ"), None),
    Record(Some("Þg"), None),
    Record(Some("ÞG"), None),
    Record(Some("Þṡ"), None),
    Record(Some("ÞṠ"), None),
    Record(Some("ÞṘ"), None),
    Record(Some("ÞȮ"), None),
    Record(Some("ÞĊ"), None),
    Record(Some("Þ⇧"), None)
  ]

  /** `elements`, the records starting at data.ts lines 6200-6587. */
  const ElementBlock13: seq<Record> := [
    Record(Some("Þ⇩"), None),
    Record(Some("Þċ"), None),
    Record(Some("ÞK"), None),
    Record(Some("ÞT"), None),
    Record(Some("Þİ"), None),
    Record(Some("ÞN"), None),
    Record(Some("Þ□"), None),
    Record(Some("Þe"), None),
    Record(Some("Þd"), None),
    Record(Some("Þw"), None),
    Record(Some("ÞṖ"), None),
    Record(Some("Þṗ"), None),
    Record(Some("Þẏ"), None),
    Record(Some("Þė"), None),
    Record(Some("¨□"), None),
    Record(Some("¨^"), None),
    Record(Some("¨U"), None),
    Record(None, Some("¨=")),
    Record(Some("¨M"), None),
    Record(Some("¨,"), None),
    Record(Some("¨…"), None),
    Record(Some("¨>"), None),
    Record(Some("¨<"), None),
    Record(Some("¨*"), None),
    Record(Some("¨e"), None),
    Record(Some("¨²"), None),
    Record(Some("¨₀"), None),
    Record(None, Some("¨£")),
    Record(Some("¨ẇ"), None),
    Record(Some("¨2"), None),
    Record(Some("¨3"), None),
    Record(Some("¨₂"), None),
    Record(Some("¨₃"), None),
    Record(Some("¨Z"), None),
    Record(None, Some("¨p")),
    Record(Some("¨?"), None),
    Record(Some("¨S"), None),
    Record(Some("¨R"), None),
    Record(None, Some("¨i"))
  ]

  /** The key fields of the catalogue `elements` (data.ts lines 7-6606). */
  const Elements: seq<Record> :=
      ElementBlock0
    + ElementBlock1
    + ElementBlock2
    + ElementBlock3
    + ElementBlock4
    + ElementBlock5
    + ElementBlock6
    + ElementBlock7
    + ElementBlock8
    + ElementBlock9
    + ElementBlock10
    + ElementBlock11
    + ElementBlock12
    + ElementBlock13
}
