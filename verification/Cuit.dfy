/** The CUIT: its verification digit, and the hyphenated form shown on screens. Digits are ASCII. */
module Cuit {
  import opened Base

  predicate IsDigit(c: char) { '0' <= c <= '9' }

  predicate AllDigits(s: string) { forall k | 0 <= k < |s| :: IsDigit(s[k]) }

  function Value(c: char): nat
    requires IsDigit(c)
  {
    c as int - '0' as int
  }

  /** The digits of a string, in order. */
  function Digits(s: string): (r: string)
    ensures AllDigits(r)
  {
    if s == "" then "" else (if IsDigit(s[0]) then [s[0]] else "") + Digits(s[1..])
  }

  const CUIT_CHECK_WEIGHTS: seq<nat> := [5, 4, 3, 2, 7, 6, 5, 4, 3, 2]

  /** The weight of a position, with 1 for the verification digit itself. */
  function Weight(k: nat): nat { if k < |CUIT_CHECK_WEIGHTS| then CUIT_CHECK_WEIGHTS[k] else 1 }

  function WeightedSum(digits: string, n: nat): nat
    requires AllDigits(digits) && n <= |digits|
  {
    if n == 0 then 0 else WeightedSum(digits, n - 1) + Value(digits[n - 1]) * Weight(n - 1)
  }

  /** `compute_cuit_check_digit`; pairing with the weights stops at the shorter of the two. */
  function ComputeCuitCheckDigit(firstTen: string): Option<nat>
    requires AllDigits(firstTen)
  {
    var total := WeightedSum(firstTen, if |firstTen| < 10 then |firstTen| else 10);
    var check := 11 - total % 11;
    if check == 11 then Some(0)
    else if check == 10 then None
    else Some(check)
  }

  predicate IsValidCuit(value: string) {
    var digits := Digits(value);
    |digits| == 11
    && var expected := ComputeCuitCheckDigit(digits[..10]);
       expected.Some? && expected.value == Value(digits[10])
  }

  // ----- only the digits count ------------------------------------------------------------------

  lemma {:induction false} DigitsOfConcat(a: string, b: string)
    ensures Digits(a + b) == Digits(a) + Digits(b)
  {
    if a == "" {
      assert a + b == b;
    } else {
      assert (a + b)[0] == a[0] && (a + b)[1..] == a[1..] + b;
      DigitsOfConcat(a[1..], b);
    }
  }

  lemma {:induction false} DigitsOfDigits(s: string)
    requires AllDigits(s)
    ensures Digits(s) == s
  {
    if s != "" {
      DigitsOfDigits(s[1..]);
    }
  }

  /** Whatever separates the digits, and wherever it stands, does not matter. */
  lemma SeparatorsDoNotMatter(before: string, separator: string, after: string)
    requires forall c :: c in separator ==> !IsDigit(c)
    ensures IsValidCuit(before + separator + after) <==> IsValidCuit(before + after)
    ensures IsValidCuit(before + after) <==> IsValidCuit(Digits(before + after))
  {
    DigitsOfConcat(before, after);
    DigitsOfConcat(before, separator);
    DigitsOfConcat(before + separator, after);
    NoDigits(separator);
    assert Digits(before) + "" == Digits(before);
    DigitsOfDigits(Digits(before + after));
  }

  lemma {:induction false} NoDigits(s: string)
    requires forall c :: c in s ==> !IsDigit(c)
    ensures Digits(s) == ""
  {
    if s != "" {
      NoDigits(s[1..]);
    }
  }

  // ----- what the check detects -----------------------------------------------------------------

  /** Eleven digits are valid exactly when their weighted sum, the last with weight 1, divides by 11:
      the combination without a verification digit included. */
  lemma ValidIffDivisible(value: string)
    requires |Digits(value)| == 11
    ensures IsValidCuit(value) <==> WeightedSum(Digits(value), 11) % 11 == 0
  {
    var digits := Digits(value);
    SumOfPrefix(digits, 10, 10);
    var total := WeightedSum(digits, 10);
    assert WeightedSum(digits, 11) == total + Value(digits[10]);
    assert total == total / 11 * 11 + total % 11;
  }

  /** The sum the tax authority publishes, digit by digit. */
  function PublishedSum(digits: string): nat
    requires |digits| == 11 && AllDigits(digits)
  {
    5 * Value(digits[0]) + 4 * Value(digits[1]) + 3 * Value(digits[2]) + 2 * Value(digits[3]) + 7 * Value(digits[4])
    + 6 * Value(digits[5]) + 5 * Value(digits[6]) + 4 * Value(digits[7]) + 3 * Value(digits[8]) + 2 * Value(digits[9])
    + Value(digits[10])
  }

  lemma ValidByDigits(value: string)
    requires |Digits(value)| == 11
    ensures IsValidCuit(value) <==> PublishedSum(Digits(value)) % 11 == 0
  {
    ValidIffDivisible(value);
    SumByDigits(Digits(value));
  }

  lemma OneMoreDigit(digits: string, n: nat, weight: nat)
    requires AllDigits(digits) && n < |digits| && weight == Weight(n)
    ensures WeightedSum(digits, n + 1) == WeightedSum(digits, n) + weight * Value(digits[n])
  {
  }

  lemma SumByDigits(digits: string)
    requires |digits| == 11 && AllDigits(digits)
    ensures WeightedSum(digits, 11) == PublishedSum(digits)
  {
    OneMoreDigit(digits, 0, 5);
    OneMoreDigit(digits, 1, 4);
    OneMoreDigit(digits, 2, 3);
    OneMoreDigit(digits, 3, 2);
    OneMoreDigit(digits, 4, 7);
    OneMoreDigit(digits, 5, 6);
    OneMoreDigit(digits, 6, 5);
    OneMoreDigit(digits, 7, 4);
    OneMoreDigit(digits, 8, 3);
    OneMoreDigit(digits, 9, 2);
    OneMoreDigit(digits, 10, 1);
    assert WeightedSum(digits, 0) == 0;
  }

  lemma {:induction false} SumOfPrefix(digits: string, cut: nat, n: nat)
    requires AllDigits(digits) && n <= cut <= |digits|
    ensures WeightedSum(digits[..cut], n) == WeightedSum(digits, n)
  {
    if n > 0 {
      SumOfPrefix(digits, cut, n - 1);
    }
  }

  lemma {:induction false} SumAfterChange(digits: string, k: nat, c: char, n: nat)
    requires AllDigits(digits) && k < |digits| && n <= |digits| && IsDigit(c)
    ensures WeightedSum(digits[k := c], n)
         == WeightedSum(digits, n) + if k < n then (Value(c) - Value(digits[k])) * Weight(k) else 0
  {
    if n > 0 {
      SumAfterChange(digits, k, c, n - 1);
      if k == n - 1 {
        assert digits[k := c][n - 1] == c;
        Distribute(Value(c), Value(digits[k]), Weight(k));
      } else {
        assert digits[k := c][n - 1] == digits[n - 1];
      }
    }
  }

  lemma Distribute(a: int, b: int, w: int)
    ensures a * w == b * w + (a - b) * w
  {
  }

  lemma NotDivisible(difference: int, weight: int)
    requires difference != 0 && -9 <= difference <= 9
    requires weight in {1, 2, 3, 4, 5, 6, 7, -5}
    ensures (difference * weight) % 11 != 0
  {
  }

  /** One wrong digit never goes unnoticed, the verification digit's own included. */
  lemma OneWrongDigitIsDetected(value: string, typed: string, k: nat, c: char)
    requires IsValidCuit(value) && k < 11 && IsDigit(c) && c != Digits(value)[k]
    requires Digits(typed) == Digits(value)[k := c]
    ensures !IsValidCuit(typed)
  {
    var digits := Digits(value);
    ValidIffDivisible(value);
    ValidIffDivisible(typed);
    SumAfterChange(digits, k, c, 11);
    var e := (Value(c) - Value(digits[k])) * Weight(k);
    NotDivisible(Value(c) - Value(digits[k]), Weight(k));
    NotBothDivisible(WeightedSum(digits, 11), e);
  }

  lemma NotBothDivisible(sum: int, e: int)
    requires sum % 11 == 0 && e % 11 != 0
    ensures (sum + e) % 11 != 0
  {
  }

  /** Nor do two neighbouring digits exchanged, separators between them or not. */
  lemma ExchangedDigitsAreDetected(value: string, typed: string, k: nat)
    requires IsValidCuit(value) && k < 10 && Digits(value)[k] != Digits(value)[k + 1]
    requires Digits(typed) == Digits(value)[k := Digits(value)[k + 1]][k + 1 := Digits(value)[k]]
    ensures !IsValidCuit(typed)
  {
    var digits := Digits(value);
    var a, b := digits[k], digits[k + 1];
    ValidIffDivisible(value);
    ValidIffDivisible(typed);
    SumAfterChange(digits, k, b, 11);
    SumAfterChange(digits[k := b], k + 1, a, 11);
    var d := Value(b) - Value(a);
    NotDivisible(d, Weight(k) - Weight(k + 1));
    Factor(d, Weight(k), Weight(k + 1));
    NotBothDivisible(WeightedSum(digits, 11), d * (Weight(k) - Weight(k + 1)));
  }

  lemma Factor(d: int, v: int, w: int)
    ensures d * v + -d * w == d * (v - w)
  {
  }

  // ----- the hyphenated form --------------------------------------------------------------------

  function Hyphenated(digits: string): string
    requires |digits| == 11
  {
    digits[..2] + "-" + digits[2..10] + "-" + [digits[10]]
  }

  /** The issuer as a form shows it: hyphenated when it is a whole number, the digits otherwise. */
  function ShownIssuer(vat: string): string {
    var digits := Digits(vat);
    if |digits| == 11 then Hyphenated(digits) else digits
  }

  /** Reading back what is shown gives the number that was stored. */
  lemma HyphenatedReadsBack(digits: string)
    requires |digits| == 11 && AllDigits(digits)
    ensures Digits(Hyphenated(digits)) == digits
    ensures |Hyphenated(digits)| == 13 && Hyphenated(digits)[2] == Hyphenated(digits)[11] == '-'
    ensures IsValidCuit(Hyphenated(digits)) <==> IsValidCuit(digits)
  {
    var a, b, c := digits[..2], digits[2..10], [digits[10]];
    DigitsOfConcat(a + "-" + b + "-", c);
    DigitsOfConcat(a + "-" + b, "-");
    DigitsOfConcat(a + "-", b);
    DigitsOfConcat(a, "-");
    DigitsOfDigits(a);
    DigitsOfDigits(b);
    DigitsOfDigits(c);
    DigitsOfDigits(digits);
    NoDigits("-");
    assert a + b + c == digits;
  }

  lemma ShownIssuerReadsBack(vat: string)
    ensures Digits(ShownIssuer(vat)) == Digits(vat)
    ensures |ShownIssuer(vat)| == if |Digits(vat)| == 11 then 13 else |Digits(vat)|
  {
    var digits := Digits(vat);
    if |digits| == 11 {
      HyphenatedReadsBack(digits);
    } else {
      DigitsOfDigits(digits);
    }
  }
}
