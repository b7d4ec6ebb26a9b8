/** Decimal text of integers: what a template literal `${n}` prints for an
    integer-valued number or a bigint, and what `BigInt(s)` and
    `parseInt(s, 10)` read back from a string of the form `-?[0-9]+`. */
module Decimal {
  import opened JsValues

  predicate IsDigit(c: char) {
    '0' <= c <= '9'
  }

  predicate AllDigits(s: string) {
    forall i :: 0 <= i < |s| ==> IsDigit(s[i])
  }

  /** The digit strings JavaScript prints: non-empty, and no leading zero
      unless the number is zero itself. */
  predicate Canonical(s: string) {
    |s| > 0 && AllDigits(s) && (s[0] == '0' ==> |s| == 1)
  }

  /** The integer texts JavaScript prints: a canonical digit string, with a
      minus sign in front for a negative value. */
  predicate CanonicalInt(s: string) {
    Canonical(s) || (|s| > 1 && s[0] == '-' && Canonical(s[1..]) && s[1..] != "0")
  }

  function DigitValue(c: char): (d: nat)
    requires IsDigit(c)
    ensures d < 10
  {
    c as int - '0' as int
  }

  function DigitChar(d: nat): (c: char)
    requires d < 10
    ensures IsDigit(c) && DigitValue(c) == d
  {
    ('0' as int + d) as char
  }

  /** The decimal text of a natural number. */
  function FromNat(n: nat): (s: string)
    ensures Canonical(s)
    ensures s[0] == '0' <==> n == 0
  {
    if n < 10 then [DigitChar(n)] else FromNat(n / 10) + [DigitChar(n % 10)]
  }

  /** The value of a digit string, most significant digit first. */
  function ToNat(s: string): nat
    requires AllDigits(s)
  {
    if s == [] then 0 else ToNat(s[..|s| - 1]) * 10 + DigitValue(s[|s| - 1])
  }

  /** The decimal text of an integer, with a leading minus sign when negative. */
  function FromInt(n: int): (s: string)
    ensures CanonicalInt(s)
  {
    if n < 0 then "-" + FromNat(-n) else FromNat(n)
  }

  /** Reads an optional minus sign followed by one or more digits; any other
      string is outside what the model reads and gives None. */
  function ParseInteger(s: string): (r: Option<int>)
    ensures r.Some? <==> (|s| > 0 && AllDigits(s)) || (|s| > 1 && s[0] == '-' && AllDigits(s[1..]))
  {
    if |s| > 1 && s[0] == '-' && AllDigits(s[1..]) then Some(-(ToNat(s[1..]) as int))
    else if |s| > 0 && AllDigits(s) then Some(ToNat(s))
    else None
  }

  /** Reading back the text of a natural number gives the number. */
  lemma {:induction false} ToNatFromNat(n: nat)
    ensures ToNat(FromNat(n)) == n
  {
    if n >= 10 {
      ToNatFromNat(n / 10);
      var s := FromNat(n);
      assert s[..|s| - 1] == FromNat(n / 10);
    }
  }

  /** A digit string without a leading zero denotes a positive number. */
  lemma {:induction false} ToNatPositive(s: string)
    requires |s| > 0 && AllDigits(s) && s[0] != '0'
    ensures ToNat(s) > 0
  {
    if |s| > 1 {
      ToNatPositive(s[..|s| - 1]);
    }
  }

  /** Printing the value of a canonical digit string gives the string back,
      so canonical texts and natural numbers correspond one to one. */
  lemma {:induction false} FromNatToNat(s: string)
    requires Canonical(s)
    ensures FromNat(ToNat(s)) == s
  {
    if |s| > 1 {
      var prefix := s[..|s| - 1];
      assert Canonical(prefix);
      ToNatPositive(prefix);
      FromNatToNat(prefix);
      assert s == prefix + [s[|s| - 1]];
    }
  }

  /** Two naturals with the same text are equal. */
  lemma FromNatInjective(a: nat, b: nat)
    requires FromNat(a) == FromNat(b)
    ensures a == b
  {
    ToNatFromNat(a);
    ToNatFromNat(b);
  }

  /** `BigInt(`${n}`)` and `parseInt(`${n}`, 10)` give n back, for every integer n. */
  lemma ParseIntegerFromInt(n: int)
    ensures ParseInteger(FromInt(n)) == Some(n)
  {
    if n < 0 {
      ToNatFromNat(-n);
      assert FromInt(n)[1..] == FromNat(-n);
    } else {
      ToNatFromNat(n);
    }
  }

  /** Every canonical integer text is the text of the integer it reads as. */
  lemma FromIntParseInteger(s: string)
    requires CanonicalInt(s)
    ensures ParseInteger(s).Some? && FromInt(ParseInteger(s).value) == s
  {
    if |s| > 0 && s[0] == '-' {
      FromNatToNat(s[1..]);
      ToNatPositive(s[1..]);
      assert s == "-" + s[1..];
    } else {
      FromNatToNat(s);
    }
  }
}
