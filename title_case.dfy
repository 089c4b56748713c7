/**
 * `Abstract_Food._title_case` (utils.py:86-146): food names are split into
 * maximal runs of word and non-word characters, and each run is re-cased
 * by a fixed rule priority before the runs are joined back together.
 */
module TitleCase {
  import opened Chars

  /** `title_case_lc_words`: words kept in lower case inside a title. */
  const SmallWords: set<string> :=
    {"a", "an", "and", "as", "at", "but", "by", "even", "for", "from", "if", "in", "into", "'n",
     "n'", "'n'", "\U{02BC}n", "n\U{02BC}", "\U{02BC}n\U{02BC}", "\U{2019}n", "n\U{2019}",
     "\U{2019}n\U{2019}", "nor", "now", "of", "off", "on", "or", "out", "so", "than", "that",
     "the", "to", "top", "up", "upon", "w", "when", "with", "yet"}

  predicate IsSmallWord(w: string)
  {
    w in SmallWords
  }

  // ---------------------------------------------------------------------
  // Tokenizing (`tokenizing_re.split`, utils.py:90-92 and 114)
  // ---------------------------------------------------------------------

  /** `''.join(tokens)`. */
  function Concat(ts: seq<string>): string
  {
    if ts == [] then "" else ts[0] + Concat(ts[1..])
  }

  /** The number of leading characters of `s` whose word class is `w`. */
  function RunLength(s: string, w: bool): (k: nat)
    ensures k <= |s|
    ensures forall i :: 0 <= i < k ==> IsWordChar(s[i]) == w
    ensures k < |s| ==> IsWordChar(s[k]) != w
  {
    if s == [] || IsWordChar(s[0]) != w then 0 else 1 + RunLength(s[1..], w)
  }

  /** The maximal runs of one character class, left to right. */
  function Runs(s: string): (r: seq<string>)
    ensures |r| <= |s| && (s != [] ==> |r| >= 1)
    ensures forall i :: 0 <= i < |r| ==> |r[i]| > 0
    decreases |s|
  {
    if s == [] then []
    else
      var k := RunLength(s, IsWordChar(s[0]));
      [s[..k]] + Runs(s[k..])
  }

  /**
   * The split: the pattern matches (with zero width) exactly where the word
   * class changes, so the pieces are the maximal runs; the empty string
   * splits into the single token "".
   */
  function Tokenize(s: string): (ts: seq<string>)
    ensures |ts| >= 1
    ensures ts == [""] <==> s == []
    ensures s != [] ==> forall i :: 0 <= i < |ts| ==> |ts[i]| > 0
  {
    if s == [] then [""]
    else
      var runs := Runs(s);
      assert |runs[0]| > 0;
      runs
  }

  /** A non-empty run of word characters. */
  predicate IsWordRun(t: string)
  {
    |t| > 0 && forall i :: 0 <= i < |t| ==> IsWordChar(t[i])
  }

  /** A non-empty run of non-word characters. */
  predicate IsGapRun(t: string)
  {
    |t| > 0 && forall i :: 0 <= i < |t| ==> !IsWordChar(t[i])
  }

  /**
   * `ts` splits `s` into non-empty single-class runs whose classes
   * alternate: a word run is followed by a gap run and vice versa.
   */
  predicate IsTokenization(ts: seq<string>, s: string)
  {
    && Concat(ts) == s
    && (forall i :: 0 <= i < |ts| ==> IsWordRun(ts[i]) || IsGapRun(ts[i]))
    && (forall i :: 0 <= i < |ts| - 1 ==> (IsWordRun(ts[i]) <==> IsGapRun(ts[i + 1])))
  }

  // ---------------------------------------------------------------------
  // The whole-token patterns (utils.py:94, 96, 136, 142)
  // ---------------------------------------------------------------------

  /**
   * `re.match("^...$", s)` also succeeds when the pattern covers all of `s`
   * but one final newline, since `$` matches just before it; none of the
   * classes below contains a newline, so matching `s` is matching this.
   */
  function DropFinalNewline(s: string): string
  {
    if |s| > 0 && s[|s| - 1] == '\n' then s[..|s| - 1] else s
  }

  /** `_is_unc_alnum_punct`: `^[A-Za-zÀ-ÿ0-9._'ʼ’]+$`. */
  predicate IsUncAlnumPunct(s: string)
    ensures IsWordRun(s) ==> IsUncAlnumPunct(s)
    ensures IsUncAlnumPunct(s) ==> |s| > 0 && IsWordChar(s[0])
    ensures IsUncAlnumPunct(s) && !IsWordRun(s) ==> |s| > 1 && s[|s| - 1] == '\n'
  {
    IsWordRun(DropFinalNewline(s))
  }

  /** `^([A-Za-zÀ-ÿ]\.){2,}$`: two or more letter-and-period pairs. */
  predicate IsAcronym(s: string)
  {
    var t := DropFinalNewline(s);
    && |t| >= 4 && |t| % 2 == 0
    && forall i :: 0 <= i < |t| ==> if i % 2 == 0 then IsLetter(t[i]) else t[i] == '.'
  }

  /** `^([à-ÿa-z'’ʼ]+)$`: lower-case letters and apostrophes only. */
  predicate IsLowerWord(s: string)
  {
    var t := DropFinalNewline(s);
    |t| > 0 && forall i :: 0 <= i < |t| ==> IsLowerWordChar(t[i])
  }

  /** The index of the first letter of `s`, or `|s|` if it has none. */
  function FirstLetter(s: string): (k: nat)
    ensures k <= |s|
    ensures forall i :: 0 <= i < k ==> !IsLetter(s[i])
    ensures k < |s| ==> IsLetter(s[k])
  {
    if s == [] then 0 else if IsLetter(s[0]) then 0 else 1 + FirstLetter(s[1..])
  }

  /**
   * `_capitalize`: `re.sub` with `count=1` upper-cases the first letter and
   * leaves every other character as it was.
   */
  function Capitalize(s: string): (r: string)
    ensures |r| == |s|
    ensures forall i :: 0 <= i < |s| && i != FirstLetter(s) ==> r[i] == s[i]
    ensures FirstLetter(s) < |s| ==> r[FirstLetter(s)] == UpperChar(s[FirstLetter(s)])
  {
    var k := FirstLetter(s);
    if k == |s| then s else s[..k] + [UpperChar(s[k])] + s[k + 1..]
  }

  // ---------------------------------------------------------------------
  // The rules (utils.py:117-144)
  // ---------------------------------------------------------------------

  /**
   * The first word token searching forward from `i`, or -1 when there is
   * none (`first_alpha_token_index`).
   */
  function FirstWordFrom(ts: seq<string>, i: nat): (k: int)
    requires i <= |ts|
    ensures k == -1 || i <= k < |ts|
    ensures k >= 0 ==> IsUncAlnumPunct(ts[k]) && forall j :: i <= j < k ==> !IsUncAlnumPunct(ts[j])
    ensures k == -1 ==> forall j :: i <= j < |ts| ==> !IsUncAlnumPunct(ts[j])
    decreases |ts| - i
  {
    if i == |ts| then -1 else if IsUncAlnumPunct(ts[i]) then i else FirstWordFrom(ts, i + 1)
  }

  function FirstWordIndex(ts: seq<string>): int
  {
    FirstWordFrom(ts, 0)
  }

  /**
   * The last word token among `ts[..i]`, or `|ts|` when there is none
   * (`last_alpha_token_index`).
   */
  function LastWordBefore(ts: seq<string>, i: nat): (k: int)
    requires i <= |ts|
    ensures k == |ts| || 0 <= k < i
    ensures k < |ts| ==> IsUncAlnumPunct(ts[k]) && forall j :: k < j < i ==> !IsUncAlnumPunct(ts[j])
    ensures k == |ts| ==> forall j :: 0 <= j < i ==> !IsUncAlnumPunct(ts[j])
  {
    if i == 0 then |ts| else if IsUncAlnumPunct(ts[i - 1]) then i - 1 else LastWordBefore(ts, i - 1)
  }

  function LastWordIndex(ts: seq<string>): int
  {
    LastWordBefore(ts, |ts|)
  }

  /** What the rule chain of utils.py:136-143 makes of the token at `index`. */
  function TitleCaseToken(token: string, index: int, first: int, last: int): string
  {
    if IsAcronym(token) then Upper(token)
    else if index == first || index == last then Capitalize(token)
    else if IsSmallWord(Lower(token)) then Lower(token)
    else if IsLowerWord(token) then Capitalize(token)
    else token
  }

  /** Every token re-cased, given the first and last word indexes. */
  function RecasedTokens(ts: seq<string>, first: int, last: int): seq<string>
  {
    seq(|ts|, i requires 0 <= i < |ts| => TitleCaseToken(ts[i], i, first, last))
  }

  /** The `output` list: every token re-cased, in the original order. */
  function TitledTokens(ts: seq<string>): seq<string>
  {
    RecasedTokens(ts, FirstWordIndex(ts), LastWordIndex(ts))
  }

  /** The title-cased string, as a function of the input. */
  function TitleCased(s: string): string
  {
    Concat(TitledTokens(Tokenize(s)))
  }

  /** No token of `ts[lo..hi]` is a word. */
  predicate NoWordBetween(ts: seq<string>, lo: int, hi: int)
    requires 0 <= lo <= hi <= |ts|
  {
    forall j :: lo <= j < hi ==> !IsUncAlnumPunct(ts[j])
  }

  lemma FirstWordIndexIs(ts: seq<string>, k: int)
    requires k == -1 || 0 <= k < |ts|
    requires k >= 0 ==> IsUncAlnumPunct(ts[k]) && NoWordBetween(ts, 0, k)
    requires k == -1 ==> NoWordBetween(ts, 0, |ts|)
    ensures k == FirstWordIndex(ts)
  {
  }

  lemma LastWordIndexIs(ts: seq<string>, k: int)
    requires k == |ts| || 0 <= k < |ts|
    requires k < |ts| ==> IsUncAlnumPunct(ts[k]) && NoWordBetween(ts, k + 1, |ts|)
    requires k == |ts| ==> NoWordBetween(ts, 0, |ts|)
    ensures k == LastWordIndex(ts)
  {
  }

  /** The forward scan of utils.py:125-128 for `first_alpha_token_index`. */
  method FindFirstWord(tokens: seq<string>) returns (first: int)
    ensures first == -1 || 0 <= first < |tokens|
    ensures first >= 0 ==> IsUncAlnumPunct(tokens[first]) && NoWordBetween(tokens, 0, first)
    ensures first == -1 ==> NoWordBetween(tokens, 0, |tokens|)
    ensures first == FirstWordIndex(tokens)
  {
    first := -1;
    var i := 0;
    while i < |tokens|
      invariant 0 <= i <= |tokens|
      invariant first == -1
      invariant NoWordBetween(tokens, 0, i)
    {
      if IsUncAlnumPunct(tokens[i]) {
        first := i;
        break;
      }
      i := i + 1;
    }
    FirstWordIndexIs(tokens, first);
  }

  /** The backward scan of utils.py:129-132 for `last_alpha_token_index`. */
  method FindLastWord(tokens: seq<string>) returns (last: int)
    ensures last == |tokens| || 0 <= last < |tokens|
    ensures last < |tokens| ==> IsUncAlnumPunct(tokens[last]) && NoWordBetween(tokens, last + 1, |tokens|)
    ensures last == |tokens| ==> NoWordBetween(tokens, 0, |tokens|)
    ensures last == LastWordIndex(tokens)
  {
    last := |tokens|;
    var i := |tokens|;
    while i > 0
      invariant 0 <= i <= |tokens|
      invariant last == |tokens|
      invariant NoWordBetween(tokens, i, |tokens|)
    {
      if IsUncAlnumPunct(tokens[i - 1]) {
        last := i - 1;
        break;
      }
      i := i - 1;
    }
    LastWordIndexIs(tokens, last);
  }

  lemma PrefixSnoc<T>(s: seq<T>, i: int)
    requires 0 <= i < |s|
    ensures s[..i + 1] == s[..i] + [s[i]]
  {
  }

  /** The rule chain of utils.py:136-143 applied to one token. */
  method RecaseToken(token: string, index: int, first: int, last: int) returns (r: string)
    ensures r == TitleCaseToken(token, index, first, last)
  {
    r := token;
    if IsAcronym(token) {
      r := Upper(token);
    } else if index == first || index == last {
      r := Capitalize(token);
    } else if IsSmallWord(Lower(token)) {
      r := Lower(token);
    } else if IsLowerWord(token) {
      r := Capitalize(token);
    }
  }

  /**
   * `_title_case`: split, find the first and last word tokens, re-case each
   * token by the rule chain and join the results.
   */
  method TitleCaseOf(strval: string) returns (r: string)
    ensures r == TitleCased(strval)
  {
    var tokens := Tokenize(strval);
    var first := FindFirstWord(tokens);
    var last := FindLastWord(tokens);

    ghost var titled := RecasedTokens(tokens, first, last);
    var output: seq<string> := [];
    var index := 0;
    while index < |tokens|
      invariant 0 <= index <= |tokens|
      invariant output == titled[..index]
    {
      var token := RecaseToken(tokens[index], index, first, last);
      assert titled[index] == token;
      PrefixSnoc(titled, index);
      output := output + [token];
      index := index + 1;
    }
    assert output == titled;
    r := Concat(output);
  }
}
