/** Looking a symbol up in the element catalogue. A record is keyed by its
    `element` field when it has one and by its `modifier` field otherwise
    (`element.element ?? element.modifier`). The route matcher for element
    pages asks whether some record has the key (`elements.some`); `link` and
    the page loader take the first record that has it (`elements.find`), and
    `link` throws when there is none. */
module Catalogue {
  import opened Wrappers
  import opened Data

  /** `r.element ?? r.modifier`: None when the record has neither field. */
  function Key(r: Record): (k: Option<string>)
    ensures k.None? <==> r.element.None? && r.modifier.None?
    ensures r.element.Some? ==> k == r.element
    ensures r.element.None? ==> k == r.modifier
  {
    if r.element.Some? then r.element else r.modifier
  }

  /** The route matcher: `elements.some(e => x === (e.element ?? e.modifier))`,
      scanning left to right. An absent key never equals a string. */
  function Matches(rs: seq<Record>, x: string): (b: bool)
    ensures b <==> exists i :: 0 <= i < |rs| && Key(rs[i]) == Some(x)
  {
    if |rs| == 0 then false
    else if Key(rs[0]) == Some(x) then true
    else
      var b := Matches(rs[1..], x);
      assert forall i :: 1 <= i < |rs| ==> rs[i] == rs[1..][i - 1];
      b
  }

  /** `elements.find(...)` with the same test: the first record keyed x. */
  function Find(rs: seq<Record>, x: string): (r: Option<Record>)
    ensures r.None? <==> !Matches(rs, x)
    ensures r.Some? ==> exists i :: 0 <= i < |rs| && rs[i] == r.value && Key(rs[i]) == Some(x) &&
                                   (forall j :: 0 <= j < i ==> Key(rs[j]) != Some(x))
  {
    if |rs| == 0 then None
    else if Key(rs[0]) == Some(x) then Some(rs[0])
    else
      var r := Find(rs[1..], x);
      assert forall i :: 1 <= i < |rs| ==> rs[i] == rs[1..][i - 1];
      r
  }

  const NotFound: string := "No element found with symbol: "

  /** The lookup half of `link`: the record keyed by symbol, or the error
      `link` throws, whose message names the symbol. */
  function Link(rs: seq<Record>, symbol: string): (r: Result<Record>)
    ensures r.Failure? <==> !Matches(rs, symbol)
    ensures r.Failure? ==> r.error == NotFound + symbol
    ensures r.Success? ==> r.value in rs && Key(r.value) == Some(symbol)
    ensures r.Success? ==> Find(rs, symbol) == Some(r.value)
  {
    match Find(rs, symbol)
    case None => Failure(NotFound + symbol)
    case Some(e) => Success(e)
  }

  /** A record keyed x that no earlier record shares is the one found. */
  lemma FindFirst(rs: seq<Record>, i: nat, x: string)
    requires i < |rs| && Key(rs[i]) == Some(x)
    requires forall j :: 0 <= j < i ==> Key(rs[j]) != Some(x)
    ensures Find(rs, x) == Some(rs[i])
  {
    var r := Find(rs, x).value;
    var k :| 0 <= k < |rs| && rs[k] == r && Key(rs[k]) == Some(x) &&
             (forall j :: 0 <= j < k ==> Key(rs[j]) != Some(x));
  }

  /** Keys are compared exactly: records keyed by two different strings
      are never confused, whichever case the letters are in. */
  lemma DifferentKeysDifferentRecords(rs: seq<Record>, x: string, y: string)
    requires x != y && Matches(rs, x) && Matches(rs, y)
    ensures Link(rs, x).Success? && Link(rs, y).Success?
    ensures Link(rs, x).value != Link(rs, y).value
  {
  }
}
