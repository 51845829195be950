/**
 * The PHP value conversions the service relies on: integers rendered as
 * decimal strings (`sprintf('%d')`, `(string)`), decimal strings read back
 * as integers (`(int)`, `FILTER_VALIDATE_INT`), and decoded JSON bodies
 * indexed the way PHP indexes arrays.
 */
module Php {

  const Int64Min: int := -0x8000_0000_0000_0000
  const Int64Max: int := 0x7FFF_FFFF_FFFF_FFFF

  function Pow10(k: nat): (r: nat)
    ensures r >= 1
  {
    if k == 0 then 1 else 10 * Pow10(k - 1)
  }

  lemma {:induction false} Pow10Monotonic(j: nat, k: nat)
    requires j <= k
    ensures Pow10(j) <= Pow10(k)
  {
    if j < k {
      Pow10Monotonic(j, k - 1);
    }
  }

  lemma {:induction false} Pow10Sum(j: nat, k: nat)
    ensures Pow10(j + k) == Pow10(j) * Pow10(k)
  {
    if k > 0 {
      Pow10Sum(j, k - 1);
    }
  }

  predicate IsDigit(c: char) {
    '0' <= c <= '9'
  }

  predicate AllDigits(s: string) {
    forall i :: 0 <= i < |s| ==> IsDigit(s[i])
  }

  /** A non-empty digit string without a superfluous leading zero. */
  predicate Canonical(s: string) {
    |s| >= 1 && AllDigits(s) && (|s| > 1 ==> s[0] != '0')
  }

  function DigitValue(c: char): (d: nat)
    requires IsDigit(c)
    ensures d < 10
  {
    (c as int) - ('0' as int)
  }

  function DigitChar(d: nat): (c: char)
    requires d < 10
    ensures IsDigit(c) && DigitValue(c) == d
  {
    (('0' as int) + d) as char
  }

  /** The value of a string of decimal digits, read left to right. */
  function ParseDigits(s: string): (n: nat)
    requires AllDigits(s)
    ensures n < Pow10(|s|)
  {
    if s == [] then 0 else 10 * ParseDigits(s[..|s| - 1]) + DigitValue(s[|s| - 1])
  }

  lemma ParseDigitsSnoc(s: string, c: char)
    requires AllDigits(s) && IsDigit(c)
    ensures AllDigits(s + [c])
    ensures ParseDigits(s + [c]) == 10 * ParseDigits(s) + DigitValue(c)
  {
    assert (s + [c])[..|s|] == s;
  }

  /** A canonical digit string of length k is worth at least 10^(k-1). */
  lemma {:induction false} ParseDigitsLowerBound(s: string)
    requires Canonical(s)
    ensures ParseDigits(s) >= Pow10(|s| - 1) || (|s| == 1 && s == "0")
  {
    if |s| > 1 {
      var p := s[..|s| - 1];
      assert p[0] == s[0];
      ParseDigitsLowerBound(p);
    }
  }

  /** PHP's rendering of a natural number in decimal. */
  function Natural(n: nat): (s: string)
    ensures Canonical(s)
    ensures ParseDigits(s) == n
  {
    if n < 10 then [DigitChar(n)]
    else
      var p := Natural(n / 10);
      ParseDigitsSnoc(p, DigitChar(n % 10));
      p + [DigitChar(n % 10)]
  }

  /** PHP's rendering of an integer in decimal (`(string)$n`, `sprintf('%d', $n)`). */
  function Decimal(n: int): (s: string)
    ensures |s| >= 1
    ensures n >= 0 ==> Canonical(s) && ParseDigits(s) == n
    ensures n < 0 ==> s[0] == '-' && Canonical(s[1..]) && ParseDigits(s[1..]) == -n
  {
    if n < 0 then "-" + Natural(-n) else Natural(n)
  }

  /** Reading a canonical digit string and printing it again gives it back. */
  lemma {:induction false} NaturalOfParse(s: string)
    requires Canonical(s)
    ensures Natural(ParseDigits(s)) == s
  {
    if |s| > 1 {
      var p, c := s[..|s| - 1], s[|s| - 1];
      assert p + [c] == s;
      assert p[0] == s[0];
      ParseDigitsSnoc(p, c);
      ParseDigitsLowerBound(p);
      if p == "0" {
        assert false;
      }
      Pow10Monotonic(0, |p| - 1);
      NaturalOfParse(p);
    }
  }

  /** A canonical digit string is its own signless integer text. */
  lemma CanonicalEcho(s: string)
    ensures Canonical(s) ==> Unsigned(s) == s && SignedValue(s) == ParseDigits(s) && Decimal(ParseDigits(s)) == s
  {
    if Canonical(s) {
      NaturalOfParse(s);
    }
  }

  /** Two canonical digit strings with the same value are the same string. */
  lemma CanonicalInjective(s: string, t: string)
    requires Canonical(s) && Canonical(t)
    requires ParseDigits(s) == ParseDigits(t)
    ensures s == t
  {
    NaturalOfParse(s);
    NaturalOfParse(t);
  }

  /** The number of decimal digits of n is k exactly when 10^(k-1) <= n < 10^k. */
  lemma NaturalLength(n: nat, k: nat)
    requires k >= 2
    ensures |Natural(n)| == k <==> Pow10(k - 1) <= n < Pow10(k)
  {
    var s := Natural(n);
    ParseDigitsLowerBound(s);
    if |s| < k {
      Pow10Monotonic(|s|, k - 1);
    } else if |s| > k {
      Pow10Monotonic(k, |s| - 1);
    }
  }

  /** The digits after an optional leading sign. */
  function Unsigned(s: string): string {
    if |s| > 0 && (s[0] == '-' || s[0] == '+') then s[1..] else s
  }

  function SignedValue(s: string): int
    requires AllDigits(Unsigned(s))
  {
    var magnitude: int := ParseDigits(Unsigned(s));
    if |s| > 0 && s[0] == '-' then -magnitude else magnitude
  }

  /**
   * A string that PHP's FILTER_VALIDATE_INT accepts: an optional sign,
   * digits without a superfluous leading zero, within the 64-bit range.
   */
  predicate IntegerString(s: string) {
    Canonical(Unsigned(s)) && Int64Min <= SignedValue(s) <= Int64Max
  }

  /** An unsigned number of at most 18 digits is a valid 64-bit integer string. */
  lemma ShortNumberIsInteger(s: string)
    requires Canonical(s) && |s| <= 18
    ensures IntegerString(s) && SignedValue(s) == ParseDigits(s)
  {
    assert Unsigned(s) == s;
    Pow10Of17();
    Pow10Monotonic(|s|, 18);
  }

  lemma Pow10Of17()
    ensures Pow10(16) == 10_000_000_000_000_000 && Pow10(17) == 100_000_000_000_000_000
  {
    Pow10Sum(2, 2);
    Pow10Sum(4, 4);
    Pow10Sum(8, 8);
    Pow10Sum(16, 1);
  }

  /** A decoded JSON document, as `$response->json()` returns it. */
  datatype Json =
    | JNull
    | JBool(b: bool)
    | JInt(n: int)
    | JStr(s: string)
    | JList(items: seq<Json>)
    | JObj(fields: map<string, Json>)

  /**
   * `$j[$key]` reads a value without a warning exactly when j is an object
   * holding the key; a missing key, or an offset on null, a scalar or a
   * list, raises a warning.
   */
  predicate HasKey(j: Json, key: string) {
    j.JObj? && key in j.fields
  }

  /** `isset($j[$key])`: never warns, and is false for a null value. */
  predicate Isset(j: Json, key: string) {
    HasKey(j, key) && j.fields[key] != JNull
  }

  /** `.` converts scalars silently; an array raises "Array to string conversion". */
  predicate Stringable(j: Json) {
    !j.JList? && !j.JObj?
  }

  /** PHP's string conversion of a scalar inside a `.` concatenation. */
  function ToStr(j: Json): string
    requires Stringable(j)
  {
    match j
    case JNull => ""
    case JBool(b) => if b then "1" else ""
    case JInt(n) => Decimal(n)
    case JStr(s) => s
  }
}
