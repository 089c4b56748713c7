/** Worked examples of the title-caser on food names. */
module TitleCaseExamples {
  import opened Chars
  import opened TitleCase
  import opened TitleCaseProofs

  /** Title-casing through a split that is already known. */
  lemma TitleCasedVia(s: string, ts: seq<string>)
    requires s != [] && IsTokenization(ts, s)
    ensures TitleCased(s) == Concat(TitledTokens(ts))
  {
    TokenizationIsUnique(ts, s);
  }

  /** Re-casing a token list whose every token's outcome is known. */
  lemma RecasedAs(ts: seq<string>, first: int, last: int, us: seq<string>)
    requires |us| == |ts|
    requires forall i :: 0 <= i < |ts| ==> TitleCaseToken(ts[i], i, first, last) == us[i]
    ensures RecasedTokens(ts, first, last) == us
  {
  }

  lemma CapitalizeInitial(w: string)
    requires |w| > 0 && IsLetter(w[0])
    ensures Capitalize(w) == [UpperChar(w[0])] + w[1..]
  {
  }

  // ---------------------------------------------------------------------
  // "the lord of the rings"
  // ---------------------------------------------------------------------

  const Lord: string := "the lord of the rings"
  const LordTitle: string := "The Lord of the Rings"
  const LordTokens: seq<string> := ["the", " ", "lord", " ", "of", " ", "the", " ", "rings"]
  const LordTitled: seq<string> := ["The", " ", "Lord", " ", "of", " ", "the", " ", "Rings"]

  lemma LordJoins()
    ensures Concat(LordTokens) == Lord
  {
  }

  lemma LordTitledJoins()
    ensures Concat(LordTitled) == LordTitle
  {
  }

  lemma LordRuns()
    ensures forall i :: 0 <= i < |LordTokens| ==> IsWordRun(LordTokens[i]) || IsGapRun(LordTokens[i])
  {
  }

  lemma LordAlternates()
    ensures forall i :: 0 <= i < |LordTokens| - 1 ==> (IsWordRun(LordTokens[i]) <==> IsGapRun(LordTokens[i + 1]))
  {
    assert !IsWordChar(" "[0]);
    assert IsWordChar("the"[0]) && IsWordChar("lord"[0]) && IsWordChar("of"[0]) && IsWordChar("rings"[0]);
  }

  lemma LordWordIndexes()
    ensures FirstWordIndex(LordTokens) == 0 && LastWordIndex(LordTokens) == 8
  {
    FirstWordIndexIs(LordTokens, 0);
    LastWordIndexIs(LordTokens, 8);
  }

  lemma LordSeparatorRecased(i: int)
    requires i != 0 && i != 8
    ensures TitleCaseToken(" ", i, 0, 8) == " "
  {
    assert Lower(" ") == " ";
    assert !IsLowerWord(" ");
  }

  lemma LordFirstRecased()
    ensures TitleCaseToken("the", 0, 0, 8) == "The"
  {
    CapitalizeInitial("the");
  }

  lemma LordNounRecased()
    ensures TitleCaseToken("lord", 2, 0, 8) == "Lord"
  {
    assert "lord"[1] != '.';
    assert Lower("lord") == "lord";
    assert "lord" !in SmallWords;
    CapitalizeInitial("lord");
  }

  lemma LordSmallWordsKept()
    ensures TitleCaseToken("of", 4, 0, 8) == "of"
    ensures TitleCaseToken("the", 6, 0, 8) == "the"
  {
    assert Lower("of") == "of";
    assert Lower("the") == "the";
  }

  lemma LordLastRecased()
    ensures TitleCaseToken("rings", 8, 0, 8) == "Rings"
  {
    CapitalizeInitial("rings");
  }

  lemma LordWordsRecased()
    ensures TitleCaseToken("the", 0, 0, 8) == "The"
    ensures TitleCaseToken("lord", 2, 0, 8) == "Lord"
    ensures TitleCaseToken("of", 4, 0, 8) == "of"
    ensures TitleCaseToken("the", 6, 0, 8) == "the"
    ensures TitleCaseToken("rings", 8, 0, 8) == "Rings"
  {
    LordFirstRecased();
    LordNounRecased();
    LordSmallWordsKept();
    LordLastRecased();
  }

  lemma LordRecased()
    ensures TitledTokens(LordTokens) == LordTitled
  {
    LordWordIndexes();
    LordWordsRecased();
    LordSeparatorRecased(1);
    LordSeparatorRecased(3);
    LordSeparatorRecased(5);
    LordSeparatorRecased(7);
    forall i | 0 <= i < |LordTokens| ensures TitleCaseToken(LordTokens[i], i, 0, 8) == LordTitled[i] {
      if i == 0 {} else if i == 1 {} else if i == 2 {} else if i == 3 {} else if i == 4 {}
      else if i == 5 {} else if i == 6 {} else if i == 7 {} else {}
    }
    RecasedAs(LordTokens, 0, 8, LordTitled);
  }

  /**
   * Small words inside the title stay lower case; the first and last words
   * are capitalised even though "the" is a small word.
   */
  lemma TheLordOfTheRings()
    ensures TitleCased(Lord) == LordTitle
  {
    LordJoins();
    LordTitledJoins();
    LordRuns();
    LordAlternates();
    LordRecased();
    TitleCasedVia(Lord, LordTokens);
  }

  // ---------------------------------------------------------------------
  // "u.s.a. cheese"
  // ---------------------------------------------------------------------

  const Usa: string := "u.s.a. cheese"
  const UsaTitle: string := "U.S.A. Cheese"
  const UsaTokens: seq<string> := ["u.s.a.", " ", "cheese"]
  const UsaTitled: seq<string> := ["U.S.A.", " ", "Cheese"]

  lemma UsaJoins()
    ensures Concat(UsaTokens) == Usa
  {
  }

  lemma UsaTitledJoins()
    ensures Concat(UsaTitled) == UsaTitle
  {
  }

  lemma UsaSplit()
    ensures forall i :: 0 <= i < |UsaTokens| ==> IsWordRun(UsaTokens[i]) || IsGapRun(UsaTokens[i])
    ensures forall i :: 0 <= i < |UsaTokens| - 1 ==> (IsWordRun(UsaTokens[i]) <==> IsGapRun(UsaTokens[i + 1]))
  {
    assert !IsWordChar(" "[0]) && IsWordChar("u.s.a."[0]) && IsWordChar("cheese"[0]);
  }

  lemma UsaRecased()
    ensures TitledTokens(UsaTokens) == UsaTitled
  {
    FirstWordIndexIs(UsaTokens, 0);
    LastWordIndexIs(UsaTokens, 2);
    var us := TitledTokens(UsaTokens);
    assert us == RecasedTokens(UsaTokens, 0, 2);
    UsaAcronymRecased();
    assert IsGapRun(" ");
    GapTokensUnchanged(UsaTokens, 1);
    UsaLastRecased();
    assert forall i :: 0 <= i < |us| ==> us[i] == TitleCaseToken(UsaTokens[i], i, 0, 2);
  }

  lemma UsaAcronymRecased()
    ensures TitleCaseToken("u.s.a.", 0, 0, 2) == "U.S.A."
  {
    assert IsAcronym("u.s.a.");
    assert Upper("u.s.a.") == "U.S.A.";
  }

  lemma UsaLastRecased()
    ensures TitleCaseToken("cheese", 2, 0, 2) == "Cheese"
  {
    assert "cheese"[1] != '.';
    CapitalizeInitial("cheese");
  }

  /** Letter-and-period groups are upper-cased whole. */
  lemma UsaCheese()
    ensures TitleCased(Usa) == UsaTitle
  {
    UsaJoins();
    UsaTitledJoins();
    UsaSplit();
    UsaRecased();
    TitleCasedVia(Usa, UsaTokens);
  }
}
