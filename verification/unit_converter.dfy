/**
 * The unit conversion tool (`unit_converter_tool`): cups become grams at a
 * flat 120 grams per cup, every other unit passes through unchanged.
 */
module UnitConverter {

  /** Grams per cup; the source's flat approximation, with no ingredient density. */
  const CupFactor: real := 120.0

  /** `str.lower` on one character, restricted to ASCII letters. */
  function LowerChar(c: char): char {
    if 'A' <= c <= 'Z' then (c as int + 32) as char else c
  }

  /** `str.lower` on a string, restricted to ASCII letters. */
  function Lower(s: string): string {
    seq(|s|, i requires 0 <= i < |s| => LowerChar(s[i]))
  }

  /** The test the tool performs: `unit.lower() in ["cups", "cup"]`. */
  predicate IsCupUnit(unit: string) {
    Lower(unit) in ["cups", "cup"]
  }

  /**
   * Reference reading of "matches ignoring case", written without lowering:
   * `c` is the lower-case letter `t` itself or its upper-case form.
   */
  predicate SameLetter(c: char, t: char) {
    c == t || ('a' <= t <= 'z' && c as int == t as int - 32)
  }

  predicate MatchesIgnoringCase(s: string, word: string) {
    |s| == |word| && forall i :: 0 <= i < |s| ==> SameLetter(s[i], word[i])
  }

  /** Any capitalisation of "cup" or "cups". */
  predicate SpelledAsCup(unit: string) {
    MatchesIgnoringCase(unit, "cup") || MatchesIgnoringCase(unit, "cups")
  }

  /**
   * `unit_converter_tool(amount, unit)`: total, for every amount including
   * zero and negative ones; scales by CupFactor exactly when the unit is some
   * capitalisation of "cup" or "cups".
   */
  function Convert(amount: real, unit: string): (r: real)
    ensures SpelledAsCup(unit) ==> r == amount * CupFactor
    ensures !SpelledAsCup(unit) ==> r == amount
  {
    CupUnitIsCaseInsensitive(unit);
    if IsCupUnit(unit) then amount * CupFactor else amount
  }

  /** Lowering a string gives a lower-case word exactly when the string matches it ignoring case. */
  lemma LowerEqualsWord(s: string, word: string)
    requires forall i :: 0 <= i < |word| ==> 'a' <= word[i] <= 'z'
    ensures Lower(s) == word <==> MatchesIgnoringCase(s, word)
  {
  }

  /** The tool's lowering test agrees with the case-insensitive reference. */
  lemma CupUnitIsCaseInsensitive(unit: string)
    ensures IsCupUnit(unit) <==> SpelledAsCup(unit)
  {
    LowerEqualsWord(unit, "cup");
    LowerEqualsWord(unit, "cups");
  }

  /** Two units that agree letter by letter ignoring case convert any amount alike. */
  lemma CaseDoesNotMatter(amount: real, u: string, v: string)
    requires |u| == |v|
    requires forall i :: 0 <= i < |u| ==> LowerChar(u[i]) == LowerChar(v[i])
    ensures Convert(amount, u) == Convert(amount, v)
  {
  }

  /** "CUPS", "Cup" and "cups" all scale by 120; "grams" and "tablespoons" do not. */
  lemma CupSpellings(amount: real)
    ensures Convert(amount, "CUPS") == Convert(amount, "Cup") == Convert(amount, "cups") == amount * 120.0
    ensures Convert(amount, "grams") == amount
    ensures Convert(amount, "tablespoons") == amount
  {
  }
}
