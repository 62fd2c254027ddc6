/**
 * The syntax of the amount typed into the converter's input box.
 *
 * The keystroke handler accepts the empty string and every string matched by
 * the JavaScript regular expression /^\d{1,}(\.\d{0,6})?$/.  The expression has
 * no flags, so `\d` is exactly the ASCII digits 0-9 and `$` anchors at the end
 * of the input.  IsAmount reads the expression declaratively (some split into an
 * integer part and an optional fraction exists); MatchesAmount is the
 * recogniser, and MatchesAmountCorrect proves the two agree on every string.
 */
module AmountPattern {

  /** The most digits allowed after the decimal point (`\d{0,6}`). */
  const MAX_FRACTION_DIGITS: nat := 6

  predicate IsDigit(c: char) {
    '0' <= c <= '9'
  }

  predicate AllDigits(s: string) {
    forall i :: 0 <= i < |s| ==> IsDigit(s[i])
  }

  /** `s[..k]` is the integer part `\d{1,}` and `s[k..]` is either empty or `\.\d{0,6}`. */
  ghost predicate IsAmountSplit(s: string, k: int) {
    && 1 <= k <= |s|
    && AllDigits(s[..k])
    && (k == |s| || (s[k] == '.' && AllDigits(s[k + 1..]) && |s| - (k + 1) <= MAX_FRACTION_DIGITS))
  }

  /** `s` matches /^\d{1,}(\.\d{0,6})?$/. */
  ghost predicate IsAmount(s: string) {
    exists k :: IsAmountSplit(s, k)
  }

  /** The length of the longest prefix of `s` made of digits. */
  function LeadingDigits(s: string): (n: nat)
    ensures n <= |s|
    ensures AllDigits(s[..n])
    ensures n < |s| ==> !IsDigit(s[n])
  {
    if s == [] || !IsDigit(s[0]) then 0 else 1 + LeadingDigits(s[1..])
  }

  /** The recogniser: take the digits greedily, then expect the end or a point and at most six digits. */
  function MatchesAmount(s: string): bool {
    var n := LeadingDigits(s);
    1 <= n && (n == |s| || (s[n] == '.' && AllDigits(s[n + 1..]) && |s| - (n + 1) <= MAX_FRACTION_DIGITS))
  }

  /**
   * validateInput's test `!inputValue || inputValue.match(...)`: the empty
   * string is falsy, so it is accepted along with every match.
   */
  function Accepts(s: string): bool {
    s == "" || MatchesAmount(s)
  }

  lemma MatchesAmountCorrect(s: string)
    ensures MatchesAmount(s) <==> IsAmount(s)
  {
    var n := LeadingDigits(s);
    if MatchesAmount(s) {
      assert IsAmountSplit(s, n);
    }
    if IsAmount(s) {
      var k :| IsAmountSplit(s, k);
      // the integer part of a match is forced to be the whole leading run of digits
      assert k == n;
    }
  }

  /** What the keystroke handler accepts is exactly the empty string or a match of the pattern. */
  lemma AcceptsIff(s: string)
    ensures Accepts(s) <==> s == "" || IsAmount(s)
  {
    MatchesAmountCorrect(s);
  }

  /**
   * Every accepted non-empty amount starts with a digit, holds only digits and
   * points, has at most one point, and at most six digits after it.  So letters,
   * a sign, an exponent, a leading point, a second point and a seventh decimal
   * are all rejected.
   */
  lemma AcceptedShape(s: string)
    requires Accepts(s) && s != ""
    ensures IsDigit(s[0])
    ensures forall i :: 0 <= i < |s| ==> IsDigit(s[i]) || s[i] == '.'
    ensures forall i, j :: 0 <= i < j < |s| && s[i] == '.' ==> s[j] != '.'
    ensures forall i :: 0 <= i < |s| && s[i] == '.' ==> |s| - (i + 1) <= MAX_FRACTION_DIGITS
  {
  }

  /** The leading run of digits is the one that ends at the first non-digit. */
  lemma LeadingDigitsAt(s: string, n: nat)
    requires n <= |s| && AllDigits(s[..n]) && (n < |s| ==> !IsDigit(s[n]))
    ensures LeadingDigits(s) == n
  {
  }

  /** Worked examples of accepted input: whole numbers, a trailing point, six decimals. */
  lemma AcceptsExamples()
    ensures Accepts("") && Accepts("100") && Accepts("12.") && Accepts("12.345678")
  {
    LeadingDigitsAt("100", 3);
    LeadingDigitsAt("12.", 2);
    LeadingDigitsAt("12.345678", 2);
    assert "12.345678"[3..] == "345678";
  }

  /** Worked examples of rejected input: a leading point, a second point, a sign, an exponent, seven decimals. */
  lemma RejectsExamples()
    ensures !Accepts(".5") && !Accepts("1.2.3") && !Accepts("-1") && !Accepts("1e5")
    ensures !Accepts("1.1234567") && !Accepts("12.3456789")
  {
    LeadingDigitsAt(".5", 0);
    LeadingDigitsAt("-1", 0);
    LeadingDigitsAt("1.2.3", 1);
    assert "1.2.3"[2..][1] == '.';
    LeadingDigitsAt("1e5", 1);
    LeadingDigitsAt("1.1234567", 1);
    LeadingDigitsAt("12.3456789", 2);
  }
}
