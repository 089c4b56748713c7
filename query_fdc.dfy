/**
 * The pure rules of the `query_fdc.py` command-line tool: ordinal numbers
 * for error messages (query_fdc.py:25-28) and the consistency checks on
 * the `-l`/`-p` options (query_fdc.py:59-67).
 */
module QueryFdc {
  import opened Wrappers

  predicate IsDigit(c: char)
  {
    '0' <= c <= '9'
  }

  function DigitChar(d: int): (c: char)
    requires 0 <= d < 10
    ensures IsDigit(c) && c as int - '0' as int == d
  {
    ('0' as int + d) as char
  }

  /** The decimal digits of `n`, most significant first, without leading zeros. */
  function NatDigits(n: nat): (s: string)
    ensures |s| >= 1 && forall i :: 0 <= i < |s| ==> IsDigit(s[i])
    ensures |s| > 1 ==> s[0] != '0'
    ensures s[|s| - 1] == DigitChar(n % 10)
  {
    if n < 10 then [DigitChar(n)] else NatDigits(n / 10) + [DigitChar(n % 10)]
  }

  /** `f"{n}"` for an `int`: a minus sign before the magnitude's digits. */
  function Decimal(n: int): string
  {
    if n < 0 then "-" + NatDigits(-n) else NatDigits(n)
  }

  /** The number a string of decimal digits denotes. */
  function DigitsValue(s: string): int
    requires forall i :: 0 <= i < |s| ==> IsDigit(s[i])
  {
    if s == [] then 0 else DigitsValue(s[..|s| - 1]) * 10 + (s[|s| - 1] as int - '0' as int)
  }

  /** The ordinal suffix chosen from the last decimal digit alone. */
  function Suffix(n: int): string
  {
    if n % 10 == 1 then "st" else if n % 10 == 2 then "nd" else if n % 10 == 3 then "rd" else "th"
  }

  /** `number_to_ordinal`: the number followed by its suffix, with no exception for 11 to 13. */
  function NumberToOrdinal(n: int): (r: string)
    ensures |r| == |Decimal(n)| + 2 && r[..|Decimal(n)|] == Decimal(n)
    ensures r[|Decimal(n)|..] in ["st", "nd", "rd", "th"]
  {
    Decimal(n) + Suffix(n)
  }

  /** The first failing option check; each one ends the program with status 1. */
  datatype OptionsError = ListModeWithArguments | PageWithoutListMode | NegativePage(page: int)

  /**
   * The checks of the `__main__` block in order: list mode with positional
   * arguments, then a non-zero page without list mode, then a negative page.
   */
  function ValidateOptions(foodList: bool, hasArgs: bool, page: int): (r: Option<OptionsError>)
    ensures r == Some(ListModeWithArguments) <==> foodList && hasArgs
    ensures r == Some(PageWithoutListMode) <==> !(foodList && hasArgs) && page != 0 && !foodList
    ensures r.Some? && r.value.NegativePage? <==> !(foodList && hasArgs) && (page != 0 ==> foodList) && page < 0
    ensures r.Some? && r.value.NegativePage? ==> r.value.page == page
  {
    if foodList && hasArgs then Some(ListModeWithArguments)
    else if page != 0 && !foodList then Some(PageWithoutListMode)
    else if page < 0 then Some(NegativePage(page))
    else None
  }

  /** The message printed for a rejected option set. */
  function OptionsMessage(e: OptionsError): string
  {
    match e
    case ListModeWithArguments =>
      "-l flag was specified but non-option arguments included on commandline. Cannot process non-option arguments in list mode."
    case PageWithoutListMode =>
      "-p flag was specified but -l flag was not. Cannot use a page number value when not in list mode."
    case NegativePage(page) =>
      "-p flag was specified with an argument that's less than zero. " + Decimal(page) + " cannot be a valid page number."
  }

  /** The first line printed when the argument at 1-based position `index` is not an integer. */
  function CastFailureMessage(index: int): string
  {
    "Unable to cast " + NumberToOrdinal(index) + " argument to int:"
  }
}
