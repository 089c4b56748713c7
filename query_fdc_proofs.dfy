/** Properties of the ordinal and option rules of `query_fdc.py`. */
module QueryFdcProofs {
  import opened Wrappers
  import opened QueryFdc

  /** Reading the digits back gives the number. */
  lemma {:induction false} DigitsRoundTrip(n: nat)
    ensures DigitsValue(NatDigits(n)) == n
  {
    if n >= 10 {
      DigitsRoundTrip(n / 10);
      var s := NatDigits(n);
      assert s[..|s| - 1] == NatDigits(n / 10);
    }
  }

  /** The printed form starts with a minus sign exactly for negative numbers. */
  lemma DecimalSign(n: int)
    ensures |Decimal(n)| >= 1 && (Decimal(n)[0] == '-' <==> n < 0)
  {
  }

  /** Distinct numbers print differently. */
  lemma DecimalInjective(m: int, n: int)
    requires Decimal(m) == Decimal(n)
    ensures m == n
  {
    DecimalSign(m);
    DecimalSign(n);
    var a, b := if m < 0 then -m else m, if n < 0 then -n else n;
    assert NatDigits(a) == NatDigits(b) by {
      if m < 0 {
        assert NatDigits(a) == Decimal(m)[1..];
        assert NatDigits(b) == Decimal(n)[1..];
      }
    }
    DigitsRoundTrip(a);
    DigitsRoundTrip(b);
    assert a == b;
  }

  /** The ordinal is the number's decimal form followed by a two-letter suffix. */
  lemma OrdinalShape(n: int)
    ensures var s := NumberToOrdinal(n);
      |s| == |Decimal(n)| + 2 && s[..|s| - 2] == Decimal(n) && s[|s| - 2..] == Suffix(n)
  {
    var s := NumberToOrdinal(n);
    assert s[..|s| - 2] == Decimal(n);
    assert s[|s| - 2..] == Suffix(n);
  }

  /** The suffix letters are fixed by the remainder mod 10 alone, with no exception for 11 to 13. */
  lemma SuffixChoice(n: int)
    ensures |Suffix(n)| == 2
    ensures Suffix(n) == "st" <==> n % 10 == 1
    ensures Suffix(n) == "nd" <==> n % 10 == 2
    ensures Suffix(n) == "rd" <==> n % 10 == 3
    ensures Suffix(n) == "th" <==> n % 10 != 1 && n % 10 != 2 && n % 10 != 3
  {
    assert "st"[0] != "nd"[0] && "st"[0] != "rd"[0] && "st"[0] != "th"[0];
    assert "nd"[0] != "rd"[0] && "nd"[0] != "th"[0] && "rd"[0] != "th"[0];
  }

  /** For a position (a positive number) the suffix follows the last printed digit. */
  lemma SuffixFollowsLastDigit(n: int)
    requires n >= 1
    ensures var d := Decimal(n)[|Decimal(n)| - 1];
      Suffix(n) == if d == '1' then "st" else if d == '2' then "nd" else if d == '3' then "rd" else "th"
  {
  }

  /** The usual suffixes after the last digit. */
  lemma OrdinalExamples()
    ensures NumberToOrdinal(1) == "1st" && NumberToOrdinal(22) == "22nd" && NumberToOrdinal(4) == "4th"
  {
    assert NatDigits(22) == "22";
  }

  /** No exception for the teens: 11, 12 and 13 get "st", "nd" and "rd". */
  lemma TeenOrdinals()
    ensures NumberToOrdinal(11) == "11st" && NumberToOrdinal(12) == "12nd" && NumberToOrdinal(13) == "13rd"
  {
    assert NatDigits(11) == "11" && NatDigits(12) == "12" && NatDigits(13) == "13";
  }

  /** Python's floor remainder makes -1 end in 9, so its suffix is "th". */
  lemma NegativeOrdinal()
    ensures NumberToOrdinal(-1) == "-1th"
  {
  }

  /** The options are accepted exactly when the three rules hold together. */
  lemma AcceptedOptions(foodList: bool, hasArgs: bool, page: int)
    ensures ValidateOptions(foodList, hasArgs, page).None? <==>
      !(foodList && hasArgs) && (page != 0 ==> foodList) && page >= 0
  {
  }
}
