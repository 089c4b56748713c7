/**
 * The character classes of the title-casing regular expressions
 * (utils.py:90-96, 136, 142) and the case mapping that `str.upper` and
 * `str.lower` apply to them.  Case mapping covers ASCII and Latin-1, the
 * letters the word class admits.
 */
module Chars {

  const ModifierApostrophe: char := '\U{02BC}'   // ʼ
  const RightQuote: char := '\U{2019}'           // ’

  /** `[A-Za-zÀ-ÿ]`, the letters `_capitalize` looks for. */
  predicate IsLetter(c: char)
  {
    'A' <= c <= 'Z' || 'a' <= c <= 'z' || '\U{00C0}' <= c <= '\U{00FF}'
  }

  /** `[A-Za-zÀ-ÿ0-9._'ʼ’]`, the "word" class of the tokenizer. */
  predicate IsWordChar(c: char)
  {
    IsLetter(c) || '0' <= c <= '9' || c == '.' || c == '_' || c == '\''
    || c == ModifierApostrophe || c == RightQuote
  }

  /** `[à-ÿa-z'’ʼ]`, the class of the all-lower-case-word rule. */
  predicate IsLowerWordChar(c: char)
  {
    'a' <= c <= 'z' || '\U{00E0}' <= c <= '\U{00FF}' || c == '\''
    || c == RightQuote || c == ModifierApostrophe
  }

  /** `str.upper` on one character: a-z and à-þ (but not ÷) move down by 32. */
  function UpperChar(c: char): char
  {
    if 'a' <= c <= 'z' || ('\U{00E0}' <= c <= '\U{00FE}' && c != '\U{00F7}')
    then (c as int - 32) as char
    else c
  }

  /** `str.lower` on one character: A-Z and À-Þ (but not ×) move up by 32. */
  function LowerChar(c: char): char
  {
    if 'A' <= c <= 'Z' || ('\U{00C0}' <= c <= '\U{00DE}' && c != '\U{00D7}')
    then (c as int + 32) as char
    else c
  }

  function Upper(s: string): string
  {
    seq(|s|, i requires 0 <= i < |s| => UpperChar(s[i]))
  }

  function Lower(s: string): string
  {
    seq(|s|, i requires 0 <= i < |s| => LowerChar(s[i]))
  }

  /**
   * Two characters that every pattern of the title-caser treats alike:
   * same letter-ness, same word class, and the same answer to "is it a
   * period" and "is it a newline".
   */
  predicate SameKind(c: char, d: char)
  {
    && IsLetter(c) == IsLetter(d)
    && IsWordChar(c) == IsWordChar(d)
    && (c == '.') == (d == '.')
    && (c == '\n') == (d == '\n')
  }

  /** Case changes never change what kind of character it is. */
  lemma CaseMappingKeepsKind(c: char)
    ensures SameKind(c, UpperChar(c)) && SameKind(c, LowerChar(c))
  {
  }

  /** Upper and lower casing are idempotent, and lowering undoes upper-casing. */
  lemma CaseMappingLaws(c: char)
    ensures UpperChar(UpperChar(c)) == UpperChar(c)
    ensures LowerChar(LowerChar(c)) == LowerChar(c)
    ensures LowerChar(UpperChar(c)) == LowerChar(c)
  {
  }
}
