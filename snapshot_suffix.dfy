/** The snapshot suffix that the generated body computes at run time from
    the `rstest::Context` of the running case: its description if it has one,
    otherwise its case number in decimal, otherwise `0`. */
module SnapshotSuffix {
  import opened Wrappers

  /** The two fields of `rstest::Context` that the suffix reads. */
  datatype Context = Context(description: Option<string>, caseNumber: Option<nat>)

  predicate IsDigit(c: char) {
    '0' <= c <= '9'
  }

  predicate IsDecimal(s: string) {
    forall i :: 0 <= i < |s| ==> IsDigit(s[i])
  }

  function DigitChar(d: nat): (c: char)
    requires d < 10
    ensures IsDigit(c) && c as int - '0' as int == d
  {
    ('0' as int + d) as char
  }

  /** `to_string` on an unsigned integer: the shortest decimal form. */
  function Decimal(n: nat): (s: string)
    ensures |s| >= 1 && IsDecimal(s)
    ensures s[0] == '0' <==> n == 0
    ensures n == 0 ==> s == "0"
    decreases n
  {
    if n < 10 then [DigitChar(n)] else Decimal(n / 10) + [DigitChar(n % 10)]
  }

  /** The value a string of decimal digits denotes: the inverse of `Decimal`. */
  function ParseDecimal(s: string): nat
    requires IsDecimal(s)
    decreases |s|
  {
    if s == [] then 0 else ParseDecimal(s[..|s| - 1]) * 10 + (s[|s| - 1] as int - '0' as int)
  }

  lemma {:induction false} DecimalRoundTrip(n: nat)
    ensures ParseDecimal(Decimal(n)) == n
    decreases n
  {
    if n >= 10 {
      var s := Decimal(n);
      assert s[..|s| - 1] == Decimal(n / 10);
      DecimalRoundTrip(n / 10);
    }
  }

  /** Different case numbers are written differently. */
  lemma DecimalInjective(a: nat, b: nat)
    ensures Decimal(a) == Decimal(b) ==> a == b
  {
    DecimalRoundTrip(a);
    DecimalRoundTrip(b);
  }

  /** The description when there is one; otherwise the decimal form of the
      case number, `0` when that is absent too. */
  function Suffix(description: Option<string>, caseNumber: Option<nat>): (s: string)
    ensures description.Some? ==> s == description.value
    ensures description.None? ==> s == Decimal(caseNumber.GetOr(0))
    ensures description.None? ==> IsDecimal(s) && ParseDecimal(s) == caseNumber.GetOr(0)
    ensures description.None? && caseNumber.None? ==> s == "0"
  {
    match description
    case Some(d) => d
    case None => DecimalRoundTrip(caseNumber.GetOr(0)); Decimal(caseNumber.GetOr(0))
  }

  /** The suffix is what tells the snapshots of two cases apart: two cases
      without a description and with different case numbers never share a
      suffix. */
  lemma SuffixSeparatesCases(c1: Context, c2: Context)
    requires c1.description.None? && c2.description.None?
    requires c1.caseNumber.GetOr(0) != c2.caseNumber.GetOr(0)
    ensures Suffix(c1.description, c1.caseNumber) != Suffix(c2.description, c2.caseNumber)
  {
    DecimalInjective(c1.caseNumber.GetOr(0), c2.caseNumber.GetOr(0));
  }

  /** A context without a case number shares its suffix with case 0. */
  lemma MissingCaseSharesSuffixWithCaseZero(d: Option<string>)
    ensures Suffix(d, None) == Suffix(d, Some(0))
  {
  }

  /** The three derivations: a description, a case number, neither. */
  lemma SuffixExamples()
    ensures Suffix(Some("alpha"), Some(3)) == "alpha"
    ensures Suffix(None, Some(3)) == "3"
    ensures Suffix(None, Some(12)) == "12"
    ensures Suffix(None, None) == "0"
  {
    assert Decimal(12) == Decimal(1) + [DigitChar(2)];
  }
}
