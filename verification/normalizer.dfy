/** The display rule for individual lab results (`get_altered_result`): low CRP and RF
    readings are shown as a "below the detection limit" token instead of the number. */
module Normalizer {
  import opened Outcomes

  /** One spreadsheet cell as pandas hands it over: a number, a string, or an empty
      cell (pandas reads it as NaN). */
  datatype Cell = Num(x: real) | Str(s: string) | Blank

  /** Python's `float()` on a string: `None` where it raises `ValueError`. A string that
      parses to NaN may be mapped to `None` as well, since NaN is below no bound. */
  type Parser = string -> Option<real>

  /** The HTML-escaped tokens "<6" and "<10" the template receives. */
  const CrpToken: string := "&lt;6"
  const RfToken: string := "&lt;10"

  /** Python truthiness of a cell: zero and the empty string are falsy, NaN is truthy. */
  predicate Truthy(c: Cell) {
    match c
    case Num(x) => x != 0.0
    case Str(s) => s != ""
    case Blank => true
  }

  /** `float(result)` on a cell that passed the guard; NaN compares below nothing,
      so an empty cell yields no reading. */
  function AsFloat(c: Cell, parse: Parser): Option<real> {
    match c
    case Num(x) => Some(x)
    case Str(s) => parse(s)
    case Blank => None
  }

  /** The numeric value a cell shows, as the caller of the rule sees it: numbers read
      as themselves, non-empty strings through `float()`, nothing else has one. */
  function Reading(c: Cell, parse: Parser): Option<real> {
    match c
    case Num(x) => Some(x)
    case Str(s) => if s == "" then None else parse(s)
    case Blank => None
  }

  predicate Below(c: Cell, parse: Parser, bound: real) {
    Reading(c, parse).Some? && Reading(c, parse).value < bound
  }

  /** The rule as the source writes it, with the truthiness guard and the RF test
      `result_float < 10 or result_float == 0`. Its contract states the rule in terms of
      the cell's reading: the zero disjunct and the guard contribute nothing. */
  function AlteredResult(testName: string, result: Cell, parse: Parser): (r: Cell)
    ensures testName == "CRP" && Below(result, parse, 6.0) ==> r == Str(CrpToken)
    ensures testName == "RF" && Below(result, parse, 10.0) ==> r == Str(RfToken)
    ensures (!(testName == "CRP" && Below(result, parse, 6.0))
             && !(testName == "RF" && Below(result, parse, 10.0))) ==> r == result
  {
    if testName != "" && (Truthy(result) || result == Num(0.0)) then
      match AsFloat(result, parse)
      case None => result
      case Some(f) =>
        if testName == "CRP" && f < 6.0 then Str(CrpToken)
        else if testName == "RF" && (f < 10.0 || f == 0.0) then Str(RfToken)
        else result
    else
      result
  }

  /** A numeric CRP reading below 6 becomes the token; from 6 upwards it is kept. */
  lemma CrpThreshold(x: real, parse: Parser)
    ensures x < 6.0 ==> AlteredResult("CRP", Num(x), parse) == Str(CrpToken)
    ensures x >= 6.0 ==> AlteredResult("CRP", Num(x), parse) == Num(x)
  {
  }

  /** A numeric RF reading below 10 (zero included) becomes the token; from 10 upwards
      it is kept. */
  lemma RfThreshold(x: real, parse: Parser)
    ensures x < 10.0 ==> AlteredResult("RF", Num(x), parse) == Str(RfToken)
    ensures x >= 10.0 ==> AlteredResult("RF", Num(x), parse) == Num(x)
  {
  }

  /** The cases in which the result is handed back untouched: no test name, an empty
      string, a string `float()` rejects, an empty cell, or any test other than exactly
      "CRP" or "RF" (so "crp" and " CRP" are not altered). */
  lemma PassThrough(testName: string, result: Cell, parse: Parser)
    requires || testName == ""
             || result == Str("")
             || (result.Str? && parse(result.s) == None)
             || result == Blank
             || (testName != "CRP" && testName != "RF")
    ensures AlteredResult(testName, result, parse) == result
  {
  }

  /** Only the two tokens are ever introduced: the result is the input or a token. */
  lemma OnlyTokensIntroduced(testName: string, result: Cell, parse: Parser)
    ensures var r := AlteredResult(testName, result, parse);
      r == result || r == Str(CrpToken) || r == Str(RfToken)
  {
  }

  /** Applying the rule to its own output changes nothing, given that `float()`
      rejects the two tokens (as Python's does). */
  lemma AlteredResultIdempotent(testName: string, result: Cell, parse: Parser)
    requires parse(CrpToken) == None && parse(RfToken) == None
    ensures var r := AlteredResult(testName, result, parse);
      AlteredResult(testName, r, parse) == r
  {
  }
}
