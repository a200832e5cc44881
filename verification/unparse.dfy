/** `unparse_object`: the serialiser that writes a string, integer or list
    value as the literal text of the golfing language. Strings are quoted in
    backticks with every backtick escaped by a backslash, numbers are written
    in decimal, and lists are written `⟨a|b|c⟩`. */
module Unparse {
  import Decimal

  /** The values the serialiser handles: strings, integers and (nested)
      lists of them. */
  datatype Val = Str(s: string) | Num(n: int) | Lst(items: seq<Val>)

  const Backtick: char := '`'
  const Backslash: char := '\\'
  const ListOpen: char := '⟨'
  const ListClose: char := '⟩'
  const ListSep: char := '|'

  /** Number of occurrences of c in s. */
  function Count(s: string, c: char): nat {
    if |s| == 0 then 0 else (if s[0] == c then 1 else 0) + Count(s[1..], c)
  }

  /** Inverse of the escaping: delete each backslash that immediately
      precedes a backtick, reading left to right. */
  function Unescape(r: string): string {
    if |r| == 0 then ""
    else if |r| >= 2 && r[0] == Backslash && r[1] == Backtick then [Backtick] + Unescape(r[2..])
    else [r[0]] + Unescape(r[1..])
  }

  /** Every backtick in r is immediately preceded by a backslash. */
  predicate BackticksEscaped(r: string) {
    forall i :: 0 <= i < |r| && r[i] == Backtick ==> i > 0 && r[i - 1] == Backslash
  }

  /** `s.replaceAll("`", "\\`")`: each backtick becomes backslash-backtick. */
  function Escape(s: string): (r: string)
    ensures |r| == |s| + Count(s, Backtick)
    ensures BackticksEscaped(r)
    ensures Unescape(r) == s
  {
    if |s| == 0 then ""
    else
      var rest := Escape(s[1..]);
      if s[0] == Backtick then
        var r := [Backslash, Backtick] + rest;
        assert r[2..] == rest;
        r
      else
        var r := [s[0]] + rest;
        assert r[1..] == rest;
        assert |rest| > 0 ==> rest[0] != Backtick;
        r
  }

  /** Escaping loses nothing: different strings escape differently. */
  lemma EscapeInjective(a: string, b: string)
    requires Escape(a) == Escape(b)
    ensures a == b
  {
  }

  /** The total length of the parts. */
  function Lengths(parts: seq<string>): nat {
    if |parts| == 0 then 0 else |parts[0]| + Lengths(parts[1..])
  }

  /** `Array.prototype.join`: the parts separated by sep. No parts give the
      empty string, one part gives itself, and otherwise the text starts
      with the first part followed by the separator. */
  function Join(parts: seq<string>, sep: string): (r: string)
    ensures |parts| == 0 ==> r == ""
    ensures |parts| == 1 ==> r == parts[0]
    ensures |parts| > 1 ==> parts[0] + sep <= r
  {
    if |parts| == 0 then ""
    else if |parts| == 1 then parts[0]
    else parts[0] + sep + Join(parts[1..], sep)
  }

  /** The joined text holds every part plus one separator between each two
      neighbours, and nothing else. */
  lemma {:induction false} JoinLength(parts: seq<string>, sep: string)
    requires |parts| > 0
    ensures |Join(parts, sep)| == Lengths(parts) + (|parts| - 1) * |sep|
  {
    if |parts| > 1 {
      JoinLength(parts[1..], sep);
    }
  }

  /** The serialiser, for the value kinds it handles without host number
      formatting. */
  function Unparse(v: Val): (r: string)
    ensures |r| >= 1
    ensures r[0] == Backtick <==> v.Str?
    ensures r[0] == ListOpen <==> v.Lst?
    ensures v.Num? <==> (r[0] == '-' || Decimal.IsDigit(r[0]))
  {
    match v
    case Str(s) => [Backtick] + Escape(s) + [Backtick]
    case Num(n) => Decimal.FromInt(n)
    case Lst(items) =>
      [ListOpen] + Join(seq(|items|, i requires 0 <= i < |items| => Unparse(items[i])), [ListSep]) + [ListClose]
  }

  /** A string is written as a backtick, its escaped text and a backtick:
      the length grows by the number of backticks plus the two quotes, every
      inner backtick is escaped, and unescaping the inside recovers s. */
  lemma StringLiteral(s: string)
    ensures var r := Unparse(Str(s));
      && |r| == |s| + Count(s, Backtick) + 2
      && r[0] == Backtick && r[|r| - 1] == Backtick
      && BackticksEscaped(r[1..|r| - 1])
      && Unescape(r[1..|r| - 1]) == s
  {
    var r := Unparse(Str(s));
    assert r[1..|r| - 1] == Escape(s);
  }

  /** Backslashes are not escaped, so a string that ends in a backslash is
      written with a backslash right before its closing backtick: Unescape
      recovers s only from the inner text, whose end the reader must already
      know. */
  lemma TrailingBackslash(s: string)
    requires |s| > 0 && s[|s| - 1] == Backslash
    ensures var r := Unparse(Str(s));
      |r| >= 3 && r[|r| - 2] == Backslash && r[|r| - 1] == Backtick
  {
    var p := s[..|s| - 1];
    assert s == p + [Backslash];
    EscapeAppend(p, Backslash);
    var e := Escape(p);
    assert Unparse(Str(s)) == [Backtick] + e + [Backslash, Backtick];
  }

  /** Escaping a character other than a backtick keeps it as it is, at the
      end of the text escaped so far. */
  lemma {:induction false} EscapeAppend(p: string, c: char)
    requires c != Backtick
    ensures Escape(p + [c]) == Escape(p) + [c]
  {
    if |p| == 0 {
      assert p + [c] == [c];
    } else {
      assert (p + [c])[0] == p[0];
      assert (p + [c])[1..] == p[1..] + [c];
      EscapeAppend(p[1..], c);
    }
  }

  /** Different strings serialise differently. */
  lemma StringLiteralInjective(a: string, b: string)
    requires Unparse(Str(a)) == Unparse(Str(b))
    ensures a == b
  {
    StringLiteral(a);
    StringLiteral(b);
  }

  /** An integer is written as its decimal text, with a leading `-` when it
      is negative; different integers are written differently. */
  lemma NumberLiteral(n: int)
    ensures var r := Unparse(Num(n));
      && (r[0] == '-' <==> n < 0)
      && (n < 0 ==> Decimal.Canonical(r[1..]) && Decimal.Value(r[1..]) == -n)
      && (n >= 0 ==> Decimal.Canonical(r) && Decimal.Value(r) == n)
  {
  }

  lemma NumberLiteralInjective(a: int, b: int)
    requires Unparse(Num(a)) == Unparse(Num(b))
    ensures a == b
  {
    Decimal.FromIntInjective(a, b);
  }

  /** The empty list is written `⟨⟩`, and a one-item list wraps the item's
      text. */
  lemma ShortLists(x: Val)
    ensures Unparse(Lst([])) == "⟨⟩"
    ensures Unparse(Lst([x])) == "⟨" + Unparse(x) + "⟩"
  {
  }

  /** Appending an item to a non-empty list inserts `|` and the item's text
      just before the closing bracket. */
  lemma ListAppend(xs: seq<Val>, x: Val)
    requires |xs| > 0
    ensures var before := Unparse(Lst(xs));
      Unparse(Lst(xs + [x])) == before[..|before| - 1] + "|" + Unparse(x) + "⟩"
  {
    var parts := seq(|xs|, i requires 0 <= i < |xs| => Unparse(xs[i]));
    var parts' := seq(|xs + [x]|, i requires 0 <= i < |xs + [x]| => Unparse((xs + [x])[i]));
    assert parts' == parts + [Unparse(x)];
    JoinAppend(parts, Unparse(x), "|");
    var joined := Join(parts, "|");
    var before := Unparse(Lst(xs));
    assert before == "⟨" + joined + "⟩";
    assert before[..|before| - 1] == "⟨" + joined;
    assert Unparse(Lst(xs + [x])) == "⟨" + (joined + "|" + Unparse(x)) + "⟩";
    Regroup("⟨", joined, "|", Unparse(x), "⟩");
  }

  lemma Regroup(a: string, b: string, c: string, d: string, e: string)
    ensures a + (b + c + d) + e == a + b + c + d + e
  {
  }

  lemma {:induction false} JoinAppend(parts: seq<string>, p: string, sep: string)
    requires |parts| > 0
    ensures Join(parts + [p], sep) == Join(parts, sep) + sep + p
  {
    if |parts| > 1 {
      assert (parts + [p])[1..] == parts[1..] + [p];
      JoinAppend(parts[1..], p, sep);
    }
  }
}
