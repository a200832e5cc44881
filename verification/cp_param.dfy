/** The route-parameter matcher for code-page indices: a path segment is
    accepted when it names a position 0..255 of the 256-character code page.
    The source decides this with the anchored regular expression
    `^(1?[0-9]{1,2}|2([0-4][0-9]|5[0-5]))$`; here each alternative of that
    pattern is an explicit predicate on the segment. */
module CodePageParam {
  import opened Decimal

  predicate InRange(c: char, lo: char, hi: char) {
    lo <= c <= hi
  }

  /** First alternative, `1?[0-9]{1,2}`: one or two digits, optionally
      preceded by a `1`. */
  predicate UpToOneNinetyNine(x: string): (b: bool)
    ensures b <==> 1 <= |x| <= 3 && AllDigits(x) && (|x| == 3 ==> x[0] == '1')
  {
    || (|x| == 1 && IsDigit(x[0]))
    || (|x| == 2 && IsDigit(x[0]) && IsDigit(x[1]))
    || (|x| == 2 && x[0] == '1' && IsDigit(x[1]))
    || (|x| == 3 && x[0] == '1' && IsDigit(x[1]) && IsDigit(x[2]))
  }

  /** Second alternative, `2([0-4][0-9]|5[0-5])`. */
  predicate TwoHundreds(x: string): (b: bool)
    ensures b ==> |x| == 3 && AllDigits(x) && x[0] == '2'
  {
    && |x| == 3
    && x[0] == '2'
    && (|| (InRange(x[1], '0', '4') && IsDigit(x[2]))
        || (x[1] == '5' && InRange(x[2], '0', '5')))
  }

  /** The first alternative covers the values 0..199 and the second exactly
      the three-digit texts 200..255. */
  lemma AlternativeValues(x: string)
    ensures UpToOneNinetyNine(x) ==> Value(x) <= 199
    ensures TwoHundreds(x) <==> |x| == 3 && AllDigits(x) && x[0] == '2' && 200 <= Value(x) <= 255
  {
    if |x| == 3 && AllDigits(x) {
      Value3(x);
    } else if UpToOneNinetyNine(x) {
      ValueBelowPow10(x);
    }
  }

  /** The matcher: the whole segment (both ends anchored) is one of the two
      alternatives. */
  predicate Match(x: string): (b: bool)
    ensures b ==> 1 <= |x| <= 3 && AllDigits(x)
  {
    UpToOneNinetyNine(x) || TwoHundreds(x)
  }

  /** What the pattern accepts, stated without the pattern: one to three
      ASCII digits, and when there are three, no leading zero and a value of
      at most 255. Leading zeros are accepted in two-digit segments. */
  lemma MatchIff(x: string)
    ensures Match(x) <==>
      && 1 <= |x| <= 3
      && AllDigits(x)
      && (|x| == 3 ==> x[0] != '0' && Value(x) <= 255)
  {
    if |x| == 3 && AllDigits(x) {
      Value3(x);
    }
  }

  /** Every accepted segment names an index of the code page. */
  lemma MatchInRange(x: string)
    ensures Match(x) ==> 1 <= |x| <= 3 && AllDigits(x) && Value(x) <= 255
  {
    MatchIff(x);
    if Match(x) && |x| < 3 {
      ValueBelowPow10(x);
    }
  }

  /** Every index 0..255, written canonically, is accepted. */
  lemma MatchCoversIndices(n: nat)
    requires n <= 255
    ensures Match(FromNat(n))
  {
    var s := FromNat(n);
    CanonicalAtLeast(s);
    MatchIff(s);
  }

  /** An accepted segment names the same index as its canonical form, so the
      matcher accepts exactly the canonical indices plus the two-digit
      spellings "00".."09". */
  lemma MatchCanonicalOrPadded(x: string)
    requires Match(x)
    ensures Canonical(x) || (|x| == 2 && x[0] == '0' && IsDigit(x[1]))
  {
    MatchIff(x);
  }

  /** Two-digit segments with a leading zero are accepted. */
  lemma LeadingZeroPairsAccepted(d: char)
    requires IsDigit(d)
    ensures Match(['0', d])
  {
  }

  /** Three-digit segments starting with 0 or 3..9, and 256..299, are
      rejected. */
  lemma ThreeDigitRejections(x: string)
    requires |x| == 3 && AllDigits(x)
    requires x[0] == '0' || '3' <= x[0] <= '9' || (x[0] == '2' && Value(x) >= 256)
    ensures !Match(x)
  {
    MatchIff(x);
    Value3(x);
  }

  /** Anchoring at both ends: the empty segment, segments of four or more
      characters and segments holding any non-digit are rejected. */
  lemma AnchoredRejections(x: string)
    requires |x| == 0 || |x| >= 4 || exists i :: 0 <= i < |x| && !IsDigit(x[i])
    ensures !Match(x)
  {
    MatchIff(x);
  }

  lemma Examples()
    ensures Match("0") && Match("9") && Match("00") && Match("07") && Match("99")
    ensures Match("100") && Match("199") && Match("200") && Match("249") && Match("255")
    ensures !Match("") && !Match("256") && !Match("299") && !Match("300") && !Match("012")
    ensures !Match("12a") && !Match(" 12") && !Match("1234") && !Match("-1")
  {
  }
}
