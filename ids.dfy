/**
  Document identifiers. A MongoDB ObjectId is a unique value the database generates; its
  string form (`_id.toString()`) is what the application compares. The model takes the
  identifiers as naturals drawn from a counter and their string form as canonical decimal
  text, and `new Types.ObjectId(s)` as parsing that text back, which fails on text that is
  not the string form of some identifier.
*/
module ObjectIds {
  import opened Wrappers

  function DigitChar(d: nat): char
    requires d < 10
  {
    "0123456789"[d]
  }

  predicate IsDigit(c: char) {
    '0' <= c <= '9'
  }

  function DigitValue(c: char): (d: nat)
    requires IsDigit(c)
    ensures d < 10 && DigitChar(d) == c
  {
    c as int - '0' as int
  }

  /** `oid.toString()` */
  function IdString(n: nat): (s: string)
    ensures |s| > 0
    ensures forall i :: 0 <= i < |s| ==> IsDigit(s[i])
  {
    if n < 10 then [DigitChar(n)] else IdString(n / 10) + [DigitChar(n % 10)]
  }

  predicate AllDigits(s: string) {
    forall i :: 0 <= i < |s| ==> IsDigit(s[i])
  }

  /** The string form of some identifier: decimal digits without a leading zero. */
  predicate Canonical(s: string) {
    |s| > 0 && AllDigits(s) && (s[0] == '0' ==> |s| == 1)
  }

  function DecimalValue(s: string): nat
    requires AllDigits(s)
  {
    if s == [] then 0 else DecimalValue(s[..|s| - 1]) * 10 + DigitValue(s[|s| - 1])
  }

  /** `new Types.ObjectId(s)`: the identifier whose string form is `s`, or a failure. */
  function ParseId(s: string): Option<nat> {
    if Canonical(s) then Some(DecimalValue(s)) else None
  }

  lemma {:induction false} IdStringCanonical(n: nat)
    ensures Canonical(IdString(n))
    ensures n > 0 ==> IdString(n)[0] != '0'
  {
    if n >= 10 {
      IdStringCanonical(n / 10);
    }
  }

  lemma {:induction false} DecimalValueOfIdString(n: nat)
    ensures DecimalValue(IdString(n)) == n
  {
    if n >= 10 {
      DecimalValueOfIdString(n / 10);
      var s := IdString(n);
      assert s[..|s| - 1] == IdString(n / 10);
    }
  }

  /** Parsing the string form of an identifier gives that identifier back. */
  lemma ParseIdString(n: nat)
    ensures ParseId(IdString(n)) == Some(n)
  {
    IdStringCanonical(n);
    DecimalValueOfIdString(n);
  }

  lemma {:induction false} LeadingDigitPositive(s: string)
    requires AllDigits(s) && |s| > 0 && s[0] != '0'
    ensures DecimalValue(s) >= 1
  {
    if |s| > 1 {
      LeadingDigitPositive(s[..|s| - 1]);
    }
  }

  lemma {:induction false} IdStringOfDecimal(s: string)
    requires Canonical(s)
    ensures IdString(DecimalValue(s)) == s
    decreases |s|
  {
    if |s| > 1 {
      var p := s[..|s| - 1];
      assert Canonical(p);
      IdStringOfDecimal(p);
      LeadingDigitPositive(p);
      var n := DecimalValue(s);
      assert n / 10 == DecimalValue(p) && n % 10 == DigitValue(s[|s| - 1]);
      assert s == p + [s[|s| - 1]];
    }
  }

  /** A text that parses is exactly the string form of the identifier it parses to. */
  lemma ParseIdIff(s: string, n: nat)
    ensures ParseId(s) == Some(n) <==> s == IdString(n)
  {
    ParseIdString(n);
    if ParseId(s) == Some(n) {
      IdStringOfDecimal(s);
    }
  }

  /** Distinct identifiers have distinct string forms, so comparing `id` strings compares identifiers. */
  lemma IdStringInjective(m: nat, n: nat)
    ensures IdString(m) == IdString(n) <==> m == n
  {
    ParseIdString(m);
    ParseIdString(n);
  }
}
