/**
 * What the title-caser promises: the split is the unique alternating
 * split of the input and joins back to it, the re-casing keeps every
 * token's length and character kinds, leaves separators alone, only
 * changes letter case, and reaches a fixed point after one application.
 */
module TitleCaseProofs {
  import opened Chars
  import opened TitleCase

  // ---------------------------------------------------------------------
  // The split
  // ---------------------------------------------------------------------

  lemma {:induction false} ConcatAppend(xs: seq<string>, ys: seq<string>)
    ensures Concat(xs + ys) == Concat(xs) + Concat(ys)
  {
    if xs == [] {
      assert xs + ys == ys;
    } else {
      assert (xs + ys)[0] == xs[0];
      assert (xs + ys)[1..] == xs[1..] + ys;
      ConcatAppend(xs[1..], ys);
    }
  }

  /** Putting a run of the other class in front of an alternating split keeps it one. */
  lemma ConsTokenization(t: string, ts: seq<string>, s: string)
    requires IsTokenization(ts, s)
    requires IsWordRun(t) || IsGapRun(t)
    requires ts != [] ==> (IsWordRun(t) <==> IsGapRun(ts[0]))
    ensures IsTokenization([t] + ts, t + s)
  {
    var us := [t] + ts;
    assert us[0] == t && us[1..] == ts;
    forall i | 0 <= i < |us| - 1 ensures IsWordRun(us[i]) <==> IsGapRun(us[i + 1]) {
      if i > 0 {
        assert us[i] == ts[i - 1] && us[i + 1] == ts[i];
      }
    }
  }

  /** The maximal runs are an alternating split of the string. */
  lemma {:induction false} RunsAreTokenization(s: string)
    ensures IsTokenization(Runs(s), s)
    decreases |s|
  {
    if s != [] {
      var w := IsWordChar(s[0]);
      var k := RunLength(s, w);
      var t, rest := s[..k], s[k..];
      RunsAreTokenization(rest);
      assert Runs(s) == [t] + Runs(rest);
      assert t + rest == s;
      assert IsWordRun(t) || IsGapRun(t);
      if rest != [] {
        var k' := RunLength(rest, IsWordChar(rest[0]));
        assert Runs(rest)[0] == rest[..k'];
        assert rest[0] == s[k];
      }
      ConsTokenization(t, Runs(rest), rest);
    }
  }

  /** The run length is the one position where the class first changes. */
  lemma RunLengthIs(s: string, w: bool, n: nat)
    requires n <= |s|
    requires forall i :: 0 <= i < n ==> IsWordChar(s[i]) == w
    requires n < |s| ==> IsWordChar(s[n]) != w
    ensures RunLength(s, w) == n
  {
  }

  /** The tail of an alternating split is an alternating split of the rest. */
  lemma TailTokenization(ts: seq<string>, s: string)
    requires IsTokenization(ts, s) && ts != []
    ensures IsTokenization(ts[1..], Concat(ts[1..]))
  {
    var tail := ts[1..];
    forall i | 0 <= i < |tail| ensures IsWordRun(tail[i]) || IsGapRun(tail[i]) {
      assert tail[i] == ts[i + 1];
    }
    forall i | 0 <= i < |tail| - 1 ensures IsWordRun(tail[i]) <==> IsGapRun(tail[i + 1]) {
      assert tail[i] == ts[i + 1] && tail[i + 1] == ts[i + 2];
    }
  }

  /** The head of an alternating split is the first maximal run. */
  lemma HeadRun(ts: seq<string>, s: string)
    requires IsTokenization(ts, s) && ts != []
    ensures s != [] && |ts[0]| <= |s|
    ensures RunLength(s, IsWordChar(s[0])) == |ts[0]|
    ensures s[..|ts[0]|] == ts[0] && s[|ts[0]|..] == Concat(ts[1..])
  {
    var t := ts[0];
    var rest := Concat(ts[1..]);
    assert s == t + rest;
    var w := IsWordChar(t[0]);
    assert s[0] == t[0];
    forall i | 0 <= i < |t| ensures IsWordChar(s[i]) == w {
      assert s[i] == t[i];
    }
    if |ts| > 1 {
      assert rest == ts[1] + Concat(ts[2..]);
      assert s[|t|] == ts[1][0];
    }
    RunLengthIs(s, w, |t|);
  }

  /** Any alternating split of `s` into single-class runs is `Runs(s)`. */
  lemma {:induction false} TokenizationIsUnique(ts: seq<string>, s: string)
    requires IsTokenization(ts, s)
    ensures ts == Runs(s)
    decreases |ts|
  {
    if ts != [] {
      HeadRun(ts, s);
      TailTokenization(ts, s);
      TokenizationIsUnique(ts[1..], Concat(ts[1..]));
      assert ts == [ts[0]] + ts[1..];
    }
  }

  /** `''.join(tokens)` gives back the input: nothing is dropped by the split. */
  lemma TokenizeRoundTrip(s: string)
    ensures Concat(Tokenize(s)) == s
    ensures s != [] ==> IsTokenization(Tokenize(s), s)
  {
    RunsAreTokenization(s);
  }

  /** The split is the only alternating split: an independent characterisation. */
  lemma TokenizeCharacterized(s: string, ts: seq<string>)
    requires s != []
    ensures IsTokenization(ts, s) <==> ts == Tokenize(s)
  {
    RunsAreTokenization(s);
    if IsTokenization(ts, s) {
      TokenizationIsUnique(ts, s);
    }
  }

  // ---------------------------------------------------------------------
  // Re-casing keeps the kind of every character
  // ---------------------------------------------------------------------

  /** `x` and `y` agree, position by position, on the kind of character. */
  predicate SameKinds(x: string, y: string)
  {
    |x| == |y| && forall i :: 0 <= i < |x| ==> SameKind(x[i], y[i])
  }

  lemma CapitalizeFacts(x: string)
    ensures SameKinds(x, Capitalize(x))
    ensures FirstLetter(Capitalize(x)) == FirstLetter(x)
    ensures Capitalize(Capitalize(x)) == Capitalize(x)
    ensures Lower(Capitalize(x)) == Lower(x)
  {
    var y := Capitalize(x);
    var k := FirstLetter(x);
    forall i | 0 <= i < |x| ensures SameKind(x[i], y[i]) && LowerChar(y[i]) == LowerChar(x[i]) {
      CaseMappingKeepsKind(x[i]);
      CaseMappingLaws(x[i]);
    }
    if k < |x| {
      CaseMappingLaws(x[k]);
      assert FirstLetter(y) == k;
    }
  }

  lemma UpperLowerFacts(x: string)
    ensures SameKinds(x, Upper(x)) && SameKinds(x, Lower(x))
    ensures Upper(Upper(x)) == Upper(x)
    ensures Lower(Lower(x)) == Lower(x)
    ensures Lower(Upper(x)) == Lower(x)
  {
    forall i | 0 <= i < |x|
      ensures SameKind(x[i], Upper(x)[i]) && SameKind(x[i], Lower(x)[i])
    {
      CaseMappingKeepsKind(x[i]);
    }
    forall i | 0 <= i < |x|
      ensures Upper(Upper(x))[i] == Upper(x)[i] && Lower(Lower(x))[i] == Lower(x)[i]
      ensures Lower(Upper(x))[i] == Lower(x)[i]
    {
      CaseMappingLaws(x[i]);
    }
  }

  lemma SameKindsDropNewline(x: string, y: string)
    requires SameKinds(x, y)
    ensures SameKinds(DropFinalNewline(x), DropFinalNewline(y))
  {
  }

  /** Every pattern of the title-caser sees only the kinds of characters. */
  lemma PatternsSeeOnlyKinds(x: string, y: string)
    requires SameKinds(x, y)
    ensures IsWordRun(x) == IsWordRun(y) && IsGapRun(x) == IsGapRun(y)
    ensures IsUncAlnumPunct(x) == IsUncAlnumPunct(y)
    ensures IsAcronym(x) == IsAcronym(y)
  {
    SameKindsDropNewline(x, y);
    var x', y' := DropFinalNewline(x), DropFinalNewline(y);
    assert forall i :: 0 <= i < |x'| ==> SameKind(x'[i], y'[i]);
  }

  lemma RecasingKeepsKinds(t: string, index: int, first: int, last: int)
    ensures SameKinds(t, TitleCaseToken(t, index, first, last))
    ensures Lower(TitleCaseToken(t, index, first, last)) == Lower(t)
  {
    if IsAcronym(t) {
      UpperLowerFacts(t);
    } else if index == first || index == last {
      CapitalizeFacts(t);
    } else if IsSmallWord(Lower(t)) {
      UpperLowerFacts(t);
    } else if IsLowerWord(t) {
      CapitalizeFacts(t);
    }
  }

  /** A re-cased token falls under the same rule as the original, up to the lower-word rule. */
  lemma RecasedSeesSameRules(t: string, index: int, first: int, last: int)
    ensures var u := TitleCaseToken(t, index, first, last);
      IsAcronym(u) == IsAcronym(t) && Lower(u) == Lower(t)
  {
    var u := TitleCaseToken(t, index, first, last);
    RecasingKeepsKinds(t, index, first, last);
    PatternsSeeOnlyKinds(t, u);
  }

  /** Under the lower-word rule the result is capitalized or left alone, and either is a fixed point. */
  lemma LowerWordRuleIdempotent(u: string, index: int, first: int, last: int)
    requires Capitalize(u) == u
    requires !IsAcronym(u) && index != first && index != last && !IsSmallWord(Lower(u))
    ensures TitleCaseToken(u, index, first, last) == u
  {
  }

  /** Re-casing a re-cased token (at the same place) changes nothing more. */
  lemma RecasingIsIdempotent(t: string, index: int, first: int, last: int)
    ensures var u := TitleCaseToken(t, index, first, last);
            TitleCaseToken(u, index, first, last) == u
  {
    var u := TitleCaseToken(t, index, first, last);
    RecasedSeesSameRules(t, index, first, last);
    if IsAcronym(t) {
      UpperLowerFacts(t);
    } else if index == first || index == last {
      CapitalizeFacts(t);
    } else if IsSmallWord(Lower(t)) {
      UpperLowerFacts(t);
    } else if IsLowerWord(t) {
      CapitalizeFacts(t);
      LowerWordRuleIdempotent(u, index, first, last);
    }
  }

  /** The word-index scans only look at which tokens are words. */
  lemma WordIndexesAgree(ts: seq<string>, us: seq<string>)
    requires |ts| == |us|
    requires forall i :: 0 <= i < |ts| ==> IsUncAlnumPunct(ts[i]) == IsUncAlnumPunct(us[i])
    ensures FirstWordIndex(us) == FirstWordIndex(ts)
    ensures LastWordIndex(us) == LastWordIndex(ts)
  {
    var f, l := FirstWordIndex(ts), LastWordIndex(ts);
    assert f == FirstWordFrom(ts, 0);
    FirstWordIndexIs(us, f);
    LastWordIndexIs(us, l);
  }

  // ---------------------------------------------------------------------
  // Properties of the title-cased string
  // ---------------------------------------------------------------------

  lemma SmallWordsAreWords()
    ensures forall w :: w in SmallWords ==> IsWordRun(w)
  {
  }

  /** Separator tokens (spaces, punctuation) come through unchanged. */
  lemma GapTokensUnchanged(ts: seq<string>, i: int)
    requires 0 <= i < |ts| && IsGapRun(ts[i])
    ensures TitledTokens(ts)[i] == ts[i]
  {
    var t := ts[i];
    var d := DropFinalNewline(t);
    assert forall j :: 0 <= j < |d| ==> d[j] == t[j];
    assert !IsAcronym(t) by {
      if |d| > 0 { assert !IsLetter(d[0]); }
    }
    assert !IsUncAlnumPunct(t) by {
      if |d| > 0 { assert !IsWordChar(d[0]); }
    }
    assert !IsLowerWord(t) by {
      if |d| > 0 { assert !IsLowerWordChar(d[0]); }
    }
    assert Lower(t) == t;
    SmallWordsAreWords();
    assert !IsWordRun(t);
  }

  /** Re-casing keeps every token's kinds, so an alternating split stays one. */
  lemma TitledTokensAlternate(ts: seq<string>, s: string)
    requires IsTokenization(ts, s)
    ensures |TitledTokens(ts)| == |ts|
    ensures forall i :: 0 <= i < |ts| ==> SameKinds(ts[i], TitledTokens(ts)[i])
    ensures IsTokenization(TitledTokens(ts), Concat(TitledTokens(ts)))
  {
    var us := TitledTokens(ts);
    var f, l := FirstWordIndex(ts), LastWordIndex(ts);
    forall i | 0 <= i < |ts|
      ensures SameKinds(ts[i], us[i])
      ensures IsWordRun(ts[i]) == IsWordRun(us[i]) && IsGapRun(ts[i]) == IsGapRun(us[i])
    {
      RecasingKeepsKinds(ts[i], i, f, l);
      PatternsSeeOnlyKinds(ts[i], us[i]);
    }
  }

  /**
   * Title-casing re-splits into the re-cased tokens, in the same order and
   * number, each as long as before and of the same class.
   */
  lemma TitleCasedTokens(s: string)
    ensures var ts := Tokenize(s);
            && |TitledTokens(ts)| == |ts|
            && (forall i :: 0 <= i < |ts| ==> SameKinds(ts[i], TitledTokens(ts)[i]))
            && Tokenize(TitleCased(s)) == TitledTokens(ts)
  {
    if s == [] {
      var us := TitledTokens([""]);
      RecasingKeepsKinds("", 0, FirstWordIndex([""]), LastWordIndex([""]));
      assert us[0] == "";
      assert TitleCased(s) == "";
      return;
    }
    var ts := Tokenize(s);
    var us := TitledTokens(ts);
    RunsAreTokenization(s);
    TitledTokensAlternate(ts, s);
    assert TitleCased(s) == Concat(us);
    assert Concat(us) != [] by {
      assert us == [us[0]] + us[1..];
      ConcatAppend([us[0]], us[1..]);
    }
    TokenizationIsUnique(us, Concat(us));
  }

  /** Re-casing the re-cased tokens changes nothing: the word positions and every rule agree. */
  lemma TitledTokensIdempotent(ts: seq<string>)
    ensures TitledTokens(TitledTokens(ts)) == TitledTokens(ts)
  {
    var us := TitledTokens(ts);
    var f, l := FirstWordIndex(ts), LastWordIndex(ts);
    forall i | 0 <= i < |ts| ensures IsUncAlnumPunct(ts[i]) == IsUncAlnumPunct(us[i]) {
      RecasingKeepsKinds(ts[i], i, f, l);
      PatternsSeeOnlyKinds(ts[i], us[i]);
    }
    WordIndexesAgree(ts, us);
    forall i | 0 <= i < |us| ensures TitledTokens(us)[i] == us[i] {
      RecasingIsIdempotent(ts[i], i, f, l);
    }
  }

  /** Applying the title-caser to its own output changes nothing. */
  lemma TitleCaseIdempotent(s: string)
    ensures TitleCased(TitleCased(s)) == TitleCased(s)
  {
    if s == [] {
      assert TitledTokens([""]) == [""];
    } else {
      TitleCasedTokens(s);
      TitledTokensIdempotent(Tokenize(s));
    }
  }

  lemma {:induction false} LowerConcat(xs: seq<string>, ys: seq<string>)
    requires |xs| == |ys|
    requires forall i :: 0 <= i < |xs| ==> Lower(xs[i]) == Lower(ys[i])
    ensures Lower(Concat(xs)) == Lower(Concat(ys))
  {
    if xs != [] {
      LowerConcat(xs[1..], ys[1..]);
      assert Lower(Concat(xs)) == Lower(xs[0]) + Lower(Concat(xs[1..]));
      assert Lower(Concat(ys)) == Lower(ys[0]) + Lower(Concat(ys[1..]));
    }
  }

  /** Title-casing only changes the case of letters. */
  lemma TitleCaseOnlyChangesCase(s: string)
    ensures |TitleCased(s)| == |s|
    ensures Lower(TitleCased(s)) == Lower(s)
  {
    var ts := Tokenize(s);
    var us := TitledTokens(ts);
    var f, l := FirstWordIndex(ts), LastWordIndex(ts);
    forall i | 0 <= i < |ts| ensures Lower(us[i]) == Lower(ts[i]) {
      RecasingKeepsKinds(ts[i], i, f, l);
    }
    LowerConcat(us, ts);
    TokenizeRoundTrip(s);
    assert |Lower(TitleCased(s))| == |Lower(s)|;
  }

  /**
   * The first and the last word always get a capital first letter, whether
   * by the acronym rule or the first/last rule, small word or not.
   */
  lemma FirstAndLastWordsCapitalized(ts: seq<string>, i: int)
    requires 0 <= i < |ts| && (i == FirstWordIndex(ts) || i == LastWordIndex(ts))
    requires FirstLetter(ts[i]) < |ts[i]|
    ensures var k := FirstLetter(ts[i]);
            TitledTokens(ts)[i][k] == UpperChar(ts[i][k])
  {
  }

}
