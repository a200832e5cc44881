/** The catalogue lookup applied to the real catalogue. */
module CatalogueExamples {
  import opened Wrappers
  import opened Data
  import opened DataFacts
  import opened Catalogue

  /** The records the examples below use, by position. */
  lemma RecordsAt()
    ensures |Elements| == 559
    ensures Elements[0] == Record(Some("λ"), None)
    ensures Elements[14] == Record(None, Some("ß"))
  {
    assert Elements[0] == ElementBlock0[0];
  }

  lemma CaseRecordsAt()
    ensures |Elements| == 559
    ensures Elements[261] == Record(Some("kA"), None)
    ensures Elements[272] == Record(Some("ka"), None)
  {
  }

  /** `λ`, the first record, is keyed by its `element` field; `link`
      finds it. */
  lemma LambdaViaElement()
    ensures Key(Elements[0]) == Some("λ") && Elements[0].element == Some("λ")
    ensures Link(Elements, "λ") == Success(Elements[0])
  {
    RecordsAt();
    FindFirst(Elements, 0, "λ");
  }

  /** `ß` is a modifier: its record has no `element` field and is keyed by
      `modifier`, and the route matcher accepts it. */
  lemma SharpSViaModifier()
    ensures Elements[14].element.None? && Key(Elements[14]) == Some("ß")
    ensures Matches(Elements, "ß")
  {
    RecordsAt();
  }

  /** `kA` and `ka` are both keys, of different records. */
  lemma KeysAreCaseSensitive()
    ensures Matches(Elements, "kA") && Matches(Elements, "ka")
    ensures Link(Elements, "kA").Success? && Link(Elements, "ka").Success?
    ensures Link(Elements, "kA").value != Link(Elements, "ka").value
  {
    CaseRecordsAt();
    assert Key(Elements[261]) == Some("kA");
    assert Key(Elements[272]) == Some("ka");
    DifferentKeysDifferentRecords(Elements, "kA", "ka");
  }

  /** Every key is one or two characters long, so the empty symbol and
      every symbol of three or more characters make `link` throw. */
  lemma LinkRejectsOtherLengths(symbol: string)
    requires |symbol| == 0 || |symbol| > 2
    ensures Link(Elements, symbol) == Failure(NotFound + symbol)
  {
    ElementsOneKeyField();
    ShortKeysOnly(Elements, symbol);
  }

  lemma ShortKeysOnly(rs: seq<Record>, symbol: string)
    requires AllOneKeyField(rs)
    requires |symbol| == 0 || |symbol| > 2
    ensures !Matches(rs, symbol)
  {
    forall i | 0 <= i < |rs|
      ensures Key(rs[i]) != Some(symbol)
    {
      assert OneKeyField(rs[i]);
    }
  }
}
