# Vyxapedia core, modelled in Dafny

Vyxapedia is the reference site of the Vyxal golfing language. This project
models the logic behind its pages and proves properties of it:

- **The shortcut expander** (`Shortcut`). On Alt+Enter in an editable field,
  it looks for the longest mnemonic of the shortcut table that ends exactly
  at the caret. It replaces that mnemonic by its code-page symbol, puts the
  caret just after the symbol and passes the new text to an `update`
  callback.
- **The code-page index matcher** (`CodePageParam`). It accepts a route
  segment when that segment names a position 0..255 of the code page.
- **The element-key matcher and `link` lookup** (`Catalogue`). A record of
  the element catalogue is keyed by `element ?? modifier`. The matcher asks
  whether some record has the key. `link` takes the first record that has
  it and throws when there is none.
- **`unparse_object`** (`Unparse`, with `Decimal` for number text). It writes
  a string, number or list as Vyxal literal text.
- **The static data** (`Data`, with facts in `DataFacts`):
  - the 256-character code page;
  - all 242 rows of `shortcut_map`;
  - `shortcut_list` as `Object.entries` of that map;
  - the key fields of all 559 catalogue records.

  The data is transcribed block by block in source order. The facts are
  proved per block and then combined.

Modelling choices:

- The DOM event becomes the `KeyEvent` datatype. It holds the Alt flag, the
  key name and the target field: its text, selection ends and `readonly`.
- The handler's effect becomes `Effect`: the field it leaves behind, plus
  the list of texts passed to `update`.
- `String.prototype.substring` is modelled with its clamping and swapping.
  This is why the expander needs no precondition on the caret.
- `Object.entries` is modelled with its ordering rule: array-index keys
  first, in ascending order, then the other keys in insertion order.

The scan in `shortcut.ts` replaces `mx` by any matching key that is at least
as long, so among equal-length matches it keeps the later one. That choice
cannot be observed: two keys of the same length that both end at the caret
are the same string (`SameLengthMatchesEqual`), and line 19 looks the symbol
up by that string. On the real table all 242 mnemonics are distinct anyway
(`DataFacts.ShortcutMapWellFormed`).

In the real table, `lambdax` (ƛ) and `dx` (ð) do not collide: `lambdax` ends
in `ax`, so `dx` never ends at the caret after it (`LambdaxExpands`). The
real suffix collisions are these:

- `floor` / `or`
- `|^|` / `^|`
- `...` / `..`
- `pilr` / `lr`

## Model

| member | source | states |
|---|---|---|
| Shortcut.Handle | src/lib/shortcut.ts:3-32 | Without Alt+Enter, or on a read-only field or a non-empty selection, the field is left unchanged and `update` is not called. Otherwise `update` is called at most once, with exactly the field's new text. `update` is called exactly when the chord was pressed and the expansion fires. When it is, the field's text becomes the spliced text and both selection ends become the caret `Expand` computes, which lies inside that text. |
| Shortcut.Expand | src/lib/shortcut.ts:9-28 | It does nothing exactly when the field is read-only, the selection is non-empty or no mnemonic ends at the caret. When it fires, the replaced text is a mnemonic ending at the caret and the inserted text is that mnemonic's symbol. The text before the mnemonic and the text after the caret are kept, and the caret lands right after the symbol. |
| Shortcut.Substring | src/lib/shortcut.ts:15 | `String.prototype.substring` for non-negative ends: both ends clamped to the string and swapped when out of order (its properties are stated by `SubstringFacts`). |
| Shortcut.EndsAtCaret | src/lib/shortcut.ts:15 | The loop test: the key is no longer than the caret offset and the substring ending at the caret equals it (characterised by `EndsAtCaretIff`). |
| Shortcut.SubstringFacts | src/lib/shortcut.ts:15 | `substring` is the slice for in-range ends and swaps out-of-order ends. It never returns more than the string, and it is empty when both ends are past the end. |
| Shortcut.EndsAtCaretIff | src/lib/shortcut.ts:15 | The loop test holds for a non-empty key exactly when the caret is inside the text and the key is the slice just before the caret. |
| Shortcut.Longest | src/lib/shortcut.ts:12-16 | The scan returns either the empty string or a key of the table that ends at the caret. |
| Shortcut.LongestSpec | src/lib/shortcut.ts:12-16 | No matching key is longer than the scan's result. A non-empty result is the key of a matching row that no later matching row equals in length, so ties go to the later row. |
| Shortcut.SameLengthMatchesEqual | src/lib/shortcut.ts:14-16 | Two keys of the same length that both end at the caret are the same key, so a table with distinct keys has one longest match. |
| Shortcut.Get | src/lib/shortcut.ts:19 | Looking a key up among the map's own properties finds nothing exactly when no row has that key, and otherwise returns the symbol of the first row with it. Line 19 only looks up a key the scan found in the table, so inherited members such as `toString` never arise. |
| Shortcut.GetDistinct | src/lib/shortcut.ts:19 | With distinct keys, looking up a row's key returns that row's symbol. |
| Shortcut.ExpandFiresOnMatch | src/lib/shortcut.ts:14-18 | Once the guard has passed, any non-empty key ending at the caret makes the expander fire. The replaced mnemonic is at least as long as that key. |
| Shortcut.NoMatchIsNoOp | src/lib/shortcut.ts:14-18 | Once the guard has passed, the expander does nothing if and only if no non-empty key ends at the caret. |
| Shortcut.SplicedText | src/lib/shortcut.ts:22-25 | The new text is the text before the mnemonic, then the symbol, then the text after the caret. |
| Shortcut.ExpandChoosesRow | src/lib/shortcut.ts:11-28 | With distinct keys, a row whose mnemonic ends at the caret, with no longer key matching, determines the result: that row's symbol replaces its mnemonic and the caret goes after the symbol. |
| Shortcut.MnemonicAtLineStart | src/lib/shortcut.ts:11-28 | With distinct keys, a mnemonic typed at the start of the text, with the caret after it, expands to its own symbol. The rest of the text is kept. |
| ShortcutExamples.TextEndingExpands | src/lib/shortcut.ts:11-28 | With distinct keys, text ending in a mnemonic that no longer mnemonic ends in, with the caret at the end of the text, has that mnemonic replaced by its symbol whatever text precedes it. The caret lands at the end of the new text. |
| ShortcutExamples.LongestEndingExpands | src/lib/shortcut.ts:11-28 | With distinct keys, text ending in a mnemonic that no longer matching key beats, with the caret at the end, becomes the preceding text followed by that mnemonic's symbol. |
| ShortcutExamples.NoLongerMatch | src/lib/shortcut.ts:14-16 | When a mnemonic ends at the caret and no longer mnemonic ends in it, no longer mnemonic ends at the caret. |
| ShortcutExamples.HandleOnList | src/lib/data.ts:6853 | The handler behaves the same whether it scans `shortcut_list` or the rows of `shortcut_map`. |
| ShortcutExamples.LambdaMnemonics | src/lib/data.ts:6609-6612 | `A\`, `lambda`, `lmb` and `` `l `` all map to λ. |
| ShortcutExamples.LambdaxExpands | src/lib/data.ts:6614 | On the real table, `lambdax` typed after any text expands to ƛ. The text before it is kept, and the caret ends up at the end of the new text. The mnemonic `dx` (ð) does not end at that caret. |
| ShortcutExamples.FloorBeatsOr | src/lib/data.ts:6776 | On the real table, `floor` typed after any text expands to ⌊ (the text before it is kept), although `or` (∨) also ends at the caret. |
| ShortcutExamples.PiBeatsUpArrow | src/lib/data.ts:6847 | On the real table, `\|^\|` typed after any text expands to Π (the text before it is kept), although `^\|` (↑) also ends at the caret. |
| ShortcutExamples.EllipsisBeatsBullet | src/lib/data.ts:6783 | On the real table, `...` typed after any text expands to … (the text before it is kept), although `..` (•) also ends at the caret. |
| ShortcutExamples.HandlerKeepsRestOfLine | src/lib/shortcut.ts:3-32 | Alt+Enter after `lambda` in `lambda 2` leaves `λ 2` with the caret at 1, and calls `update` once with `λ 2`. |
| ShortcutExamples.SmallTableLongestMatch | src/lib/shortcut.ts:14-28 | With the table {lambda, lmb, lambdax}, `foolambda` with the caret at its end becomes `fooλ` with the caret at 4. |
| ShortcutExamples.SmallTableSharedSuffix | src/lib/shortcut.ts:14-28 | With the table {rr, ,r}, `x,r` becomes `xɽ` with the caret at 2. |
| ShortcutExamples.SmallTableNoMatch | src/lib/shortcut.ts:18 | With the same table, `hello` is left alone. |
| CodePageParam.Match | src/params/cp.ts:3 | The matcher, one predicate per alternative of the anchored pattern. Whatever it accepts is one to three ASCII digits. |
| CodePageParam.UpToOneNinetyNine | src/params/cp.ts:3 | The first alternative `1?[0-9]{1,2}` accepts exactly one or two digits, or three digits starting with `1`. With `AlternativeValues`, its values are at most 199. |
| CodePageParam.TwoHundreds | src/params/cp.ts:3 | Whatever the second alternative `2([0-4][0-9]\|5[0-5])` accepts is three digits starting with `2`. |
| CodePageParam.AlternativeValues | src/params/cp.ts:3 | The first alternative accepts only values up to 199. The second accepts exactly the three-digit texts with values 200 to 255. |
| CodePageParam.MatchIff | src/params/cp.ts:3 | The pattern accepts exactly one to three ASCII digits, where three digits must have no leading zero and a value of at most 255. |
| CodePageParam.MatchInRange | src/params/cp.ts:3 | Every accepted segment names an index 0..255. |
| CodePageParam.MatchCoversIndices | src/params/cp.ts:3 | Every index 0..255, written canonically, is accepted. |
| CodePageParam.MatchCanonicalOrPadded | src/params/cp.ts:3 | An accepted segment is canonical decimal text or a zero-padded digit "00".."09". |
| CodePageParam.LeadingZeroPairsAccepted | src/params/cp.ts:3 | "00".."09" are accepted. |
| CodePageParam.ThreeDigitRejections | src/params/cp.ts:3 | Three digits starting with 0 or with 3..9, and 256..299, are rejected. |
| CodePageParam.AnchoredRejections | src/params/cp.ts:3 | The empty segment, four or more characters, and any non-digit are rejected. |
| CodePageParam.Examples | src/params/cp.ts:3 | Sample segments accepted and rejected. |
| Decimal.FromNat | src/lib/util.ts:13 | A natural number prints as canonical decimal text denoting that number. |
| Decimal.FromInt | src/lib/util.ts:13 | An integer prints with a `-` exactly when it is negative, followed by the canonical text of its magnitude. |
| Decimal.CanonicalIsFromNat | src/lib/util.ts:13 | Canonical decimal text is the printed form of the value it denotes, so printing is onto the canonical strings. |
| Decimal.FromIntInjective | src/lib/util.ts:13 | Distinct integers print as distinct text. |
| Unparse.Escape | src/lib/util.ts:12 | `replaceAll` of a backtick by backslash-backtick. The result grows by one character per backtick, every backtick in it is escaped, and unescaping gives back the input. |
| Unparse.EscapeInjective | src/lib/util.ts:12 | Different strings escape differently. |
| Unparse.Unparse | src/lib/util.ts:11-17 | The first character tells the kind of value: a backtick for strings, ⟨ for lists, and a sign or digit for numbers. |
| Unparse.StringLiteral | src/lib/util.ts:12 | A string is written between backticks, with its length grown by the backtick count plus two. Its inner text is fully escaped, and once a reader knows where that inner text ends, it unescapes to the input. Backslashes are not escaped, so a string ending in a backslash gives a literal whose closing backtick looks escaped. |
| Unparse.TrailingBackslash | src/lib/util.ts:12 | A string ending in a backslash is written with that backslash right before the closing backtick, because backslashes are not escaped. |
| Unparse.EscapeAppend | src/lib/util.ts:12 | Escaping leaves every character other than a backtick as it is: appending one to the input appends it to the escaped text. |
| Unparse.StringLiteralInjective | src/lib/util.ts:12 | Different strings serialise differently. |
| Unparse.NumberLiteral | src/lib/util.ts:13 | A number is written as a sign exactly when negative, then the canonical decimal text of its magnitude. |
| Unparse.NumberLiteralInjective | src/lib/util.ts:13 | Different integers serialise differently. |
| Unparse.ShortLists | src/lib/util.ts:14 | The empty list is `⟨⟩`, and a one-item list wraps its item's text. |
| Unparse.ListAppend | src/lib/util.ts:14 | Appending an item to a non-empty list inserts `\|` and the item's text before the closing bracket. |
| Unparse.JoinAppend | src/lib/util.ts:14 | `join` of one more part adds the separator and that part. |
| Unparse.Join | src/lib/util.ts:14 | `join` of no parts is "" and of one part is that part. Otherwise the text starts with the first part and the separator. `JoinAppend` adds that each later part follows a separator, and `JoinLength` that nothing else is added. |
| Unparse.JoinLength | src/lib/util.ts:14 | The joined text is as long as all the parts plus one separator between each two neighbours. |
| Catalogue.Key | src/params/element.ts:5 | `element ?? modifier`: the `element` field when present, otherwise the `modifier` field. It is absent only when both are. |
| Catalogue.Matches | src/params/element.ts:4-5 | The matcher accepts a segment exactly when some record is keyed by it. |
| Catalogue.Find | src/lib/util.ts:20 | `find` returns nothing exactly when the matcher rejects the symbol. Otherwise it returns the first record keyed by it. |
| Catalogue.Link | src/lib/util.ts:19-21 | `link` fails exactly when no record is keyed by the symbol, with the message naming the symbol. Otherwise it yields the first catalogue record keyed by the symbol, the one `find` returns. |
| Catalogue.FindFirst | src/lib/util.ts:20 | The first record keyed by the symbol is the one `find` returns. |
| Catalogue.DifferentKeysDifferentRecords | src/lib/util.ts:20 | Two different symbols never resolve to the same record. |
| CatalogueExamples.LambdaViaElement | src/lib/data.ts:8 | λ is the first record, keyed by its `element` field, and `link` finds it. |
| CatalogueExamples.SharpSViaModifier | src/lib/data.ts:122 | ß is a modifier record, keyed by its `modifier` field, and the matcher accepts it. |
| CatalogueExamples.KeysAreCaseSensitive | src/lib/data.ts:3123 | `kA` and `ka` both resolve, to different records. |
| CatalogueExamples.LinkRejectsOtherLengths | src/lib/util.ts:20-21 | On the real catalogue, `link` of the empty symbol or of any symbol of three or more characters throws the not-found error. |
| CatalogueExamples.ShortKeysOnly | src/params/element.ts:4-5 | When every record's key has one or two characters, the matcher rejects every other length. |
| Data.IsArrayIndex | src/lib/data.ts:6853 | The keys `Object.entries` moves ahead are canonical decimal text of a number below 2^32 - 1. `IsArrayIndexIff` gives the independent form. |
| Data.IsArrayIndexIff | src/lib/data.ts:6853 | A key is an array index exactly when it is the printed form of some natural number below 2^32 - 1. This is the array-index rule of section 6.1.7 of ECMA-262. |
| Data.InsertByIndex | src/lib/data.ts:6853 | Insertion keeps the array-index rows in ascending order and adds exactly the one row. |
| Data.IndexRows | src/lib/data.ts:6853 | The array-index rows of an object, in ascending index order. Each occurs as often as in the object, and no other row occurs. |
| Data.OtherRows | src/lib/data.ts:6853 | No row with an array-index key is kept, and every other row is kept as often as it occurs. Without array-index keys, all rows are kept in order. |
| Data.OtherRowsAppend | src/lib/data.ts:6853 | Dropping the array-index rows distributes over concatenation. With `OtherRows`' membership clauses, the non-index rows keep their insertion order whatever other keys are present. |
| Data.ObjectEntries | src/lib/data.ts:6853 | `Object.entries` lists the object's properties and nothing else, with every array-index key ahead of every other key. `ObjectEntriesPermutes` adds that each is listed exactly once. |
| Data.ObjectEntriesPermutes | src/lib/data.ts:6853 | `Object.entries` lists a permutation of the properties: each exactly as often as the object holds it. |
| Data.ObjectEntriesKeepsOrder | src/lib/data.ts:6853 | With no array-index key, `Object.entries` lists the properties in insertion order. |
| DataFacts.ShortcutMapWellFormed | src/lib/data.ts:6608-6851 | The map has 242 rows. Every mnemonic is non-empty, is not an array index and is distinct from every other. Every symbol is one code-page character. |
| DataFacts.NoKeyExtendsLambdax | src/lib/data.ts:6608-6851 | No mnemonic of the map is longer than `lambdax` and ends in it. |
| DataFacts.NoKeyExtendsFloor | src/lib/data.ts:6608-6851 | No mnemonic of the map is longer than `floor` and ends in it. |
| DataFacts.NoKeyExtendsPi | src/lib/data.ts:6608-6851 | No mnemonic of the map is longer than `\|^\|` and ends in it. |
| DataFacts.NoKeyExtendsEllipsis | src/lib/data.ts:6608-6851 | No mnemonic of the map is longer than `...` and ends in it. |
| DataFacts.ShortcutListIsMap | src/lib/data.ts:6853 | `shortcut_list` holds the map's rows as written. |
| DataFacts.CodepageShape | src/lib/data.ts:5 | The code page has 256 characters, begins with λ, and has the newline at index 10. |
| DataFacts.ElementsOneKeyField | src/lib/data.ts:7-6606 | The catalogue has 559 records. Each has exactly one of `element` and `modifier`, of one or two characters. |

## Left out

- `event.preventDefault()` and the DOM plumbing around it: the model has no
  DOM. On every Alt+Enter the handler also cancels the event's default
  action (line 6 of `shortcut.ts`, before the guard), even when it then
  changes nothing. `Effect` keeps only the field the handler writes and the
  `update` calls it makes, so a chord that changes nothing looks the same
  as a key that is not the chord.
- `try_to_parse` (`JSON.parse`): it is a call into the host's JSON parser.
- `unparse_object` for floating-point numbers, and its fallback
  `object.toString()` for other values: the host's number formatting and
  object conversion are not modelled. Numbers are integers.
- Unparse.Unparse: `Num` stands for an integer JavaScript holds exactly and
  prints without an exponent (magnitude below 2^53). `Number.prototype.toString`
  prints 10^21 as `1e+21` and cannot hold most larger integers, while the model
  prints every `int` in full, so its promises about numbers hold for JavaScript
  only in that range.
- The HTML that `link` builds (`encodeURIComponent` and the markup around the
  name). The model keeps the lookup and its error and returns the found
  record.
- The non-key fields of the catalogue (name, arity, description, overloads,
  tests, usage): nothing in the modelled code reads them except for display.
- `description_overrides`: the YAML parser is a foreign call, and the
  overrides are display text.
- The regular-expression engine: the one pattern of the code-page matcher is
  written out as predicates, one per alternative.
- The element page's `load` function beyond its `find`, which `Catalogue.Find`
  models: the rest only returns route data.
- One catalogue key is an emoji outside the Basic Multilingual Plane. In
  JavaScript it is two UTF-16 code units, in Dafny one `char`. Key equality is
  the same either way; only the length bound in
  `DataFacts.ElementsOneKeyField` counts it as one character.
- Text offsets are counted in Dafny `char`s (code points), whereas the DOM's
  `selectionStart`, `selectionEnd` and string lengths count UTF-16 code units.
  The two agree after translating the caret, because every mnemonic is ASCII
  and every symbol is a single Basic Multilingual Plane character. Text
  holding a character outside that plane before the caret needs its DOM
  offsets translated: in the field `🍪lmb` the DOM caret 5 is caret 4 here.
- `readonly` is modelled as a boolean that the handler reads, as written.
  Whether the host field exposes that property is not modelled.
