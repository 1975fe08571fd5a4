/**
 * Shared numeric helpers (src/helpers.ts). The copies of `exponentToBigDecimal`,
 * `convertTokenToDecimal` and `abs` in cl-pool.ts, position-manager.ts and
 * voting-escrow.ts behave the same and are modelled once, here.
 *
 * BigDecimal is modelled as an exact `real`.
 */
module Helpers {

  type Byte = b: int | 0 <= b < 256

  datatype Option<T> = None | Some(value: T)

  /** 10^n */
  function Pow10(n: nat): (r: real)
    ensures r >= 1.0
  {
    if n == 0 then 1.0 else 10.0 * Pow10(n - 1)
  }

  /** The divisor `exponentToBigDecimal(decimals)`: the loop runs no times for decimals <= 0. */
  function Scale(decimals: int): (r: real)
    ensures r >= 1.0
    ensures decimals <= 0 ==> r == 1.0
  {
    if decimals <= 0 then 1.0 else Pow10(decimals)
  }

  /** `exponentToBigDecimal`: multiplies a running value by ten, `decimals` times. */
  method ExponentToBigDecimal(decimals: int) returns (bd: real)
    ensures bd == Scale(decimals)
  {
    bd := 1.0;
    var i := 0;
    while i < decimals
      invariant decimals <= 0 ==> i == 0
      invariant decimals > 0 ==> 0 <= i <= decimals
      invariant bd == Pow10(i)
    {
      bd := bd * 10.0;
      i := i + 1;
    }
  }

  /**
   * `convertTokenToDecimal`: the raw amount itself for 0 decimals, otherwise the
   * amount divided by 10^decimals. Multiplying back by the scale recovers the amount.
   */
  function ConvertTokenToDecimal(amount: int, decimals: int): (r: real)
    ensures r * Scale(decimals) == amount as real
    ensures decimals == 0 ==> r == amount as real
  {
    if decimals == 0 then amount as real
    else amount as real / Scale(decimals)
  }

  /** The conversion is exact: it is zero, positive or negative exactly when the amount is. */
  lemma ConvertTokenToDecimalSign(amount: int, decimals: int)
    ensures ConvertTokenToDecimal(amount, decimals) == 0.0 <==> amount == 0
    ensures ConvertTokenToDecimal(amount, decimals) > 0.0 <==> amount > 0
  {
    var r := ConvertTokenToDecimal(amount, decimals);
    var d := Scale(decimals);
    assert r * d == amount as real;
    if r > 0.0 {
      assert r * d > 0.0;
    } else if r < 0.0 {
      assert r * d < 0.0;
    }
  }

  /** The conversion is additive, so adding converted amounts equals converting the sum. */
  lemma ConvertTokenToDecimalAdditive(a: int, b: int, decimals: int)
    ensures ConvertTokenToDecimal(a, decimals) + ConvertTokenToDecimal(b, decimals)
         == ConvertTokenToDecimal(a + b, decimals)
  {
    if decimals != 0 {
      var d := Scale(decimals);
      assert (a + b) as real / d == a as real / d + b as real / d;
    }
  }

  /** `convertTokenToDecimal(x, 18)`, the scaling every handler applies to raw token amounts. */
  function Amount18(x: int): (r: real)
    ensures r * 1000000000000000000.0 == x as real
    ensures x >= 0 ==> r >= 0.0
  {
    Scale18();
    ConvertTokenToDecimalSign(x, 18);
    ConvertTokenToDecimal(x, 18)
  }

  /** The 18-decimal scale used throughout the handlers is 10^18. */
  lemma Scale18()
    ensures Scale(18) == 1000000000000000000.0
  {
    assert Pow10(3) == 1000.0;
    assert Pow10(6) == 1000.0 * Pow10(3) by { Pow10Add(3, 3); }
    assert Pow10(12) == Pow10(6) * Pow10(6) by { Pow10Add(6, 6); }
    assert Pow10(18) == Pow10(12) * Pow10(6) by { Pow10Add(12, 6); }
  }

  lemma {:induction false} Pow10Add(m: nat, n: nat)
    ensures Pow10(m + n) == Pow10(m) * Pow10(n)
  {
    if n > 0 {
      Pow10Add(m, n - 1);
      assert Pow10(m + n) == 10.0 * Pow10(m + n - 1);
    }
  }

  /** `abs`: the non-negative one of `value` and `-value`. */
  function Abs(value: int): (r: nat)
    ensures r == value || r == -value
    ensures r >= value && r >= -value
  {
    if value < 0 then -value else value
  }

  lemma AbsIdempotent(value: int)
    ensures Abs(Abs(value)) == Abs(value)
    ensures Abs(-value) == Abs(value)
  {
  }

  const USDC_ADDRESS: string := "0xe15fc38f6d8c56af07bbcbe3baf5708a2bf42392"
  const STABLECOINS: seq<string> := [USDC_ADDRESS]

  /** ASCII lower-casing of one character. */
  function LowerChar(c: char): (r: char)
    ensures 'A' <= c <= 'Z' ==> r as int == c as int + 32
    ensures !('A' <= c <= 'Z') ==> r == c
  {
    if 'A' <= c <= 'Z' then (c as int + 32) as char else c
  }

  /** `toLowerCase` (ASCII letters only). */
  function ToLower(s: string): (r: string)
    ensures |r| == |s|
    ensures forall i :: 0 <= i < |s| ==> r[i] == LowerChar(s[i])
  {
    if s == [] then [] else [LowerChar(s[0])] + ToLower(s[1..])
  }

  /** Lower-casing twice is lower-casing once. */
  lemma ToLowerIdempotent(s: string)
    ensures ToLower(ToLower(s)) == ToLower(s)
  {
    var once := ToLower(s);
    var twice := ToLower(once);
    assert forall i :: 0 <= i < |s| ==> twice[i] == LowerChar(LowerChar(s[i])) == once[i];
  }

  /** The character of a decimal digit. */
  function DigitChar(d: nat): (c: char)
    requires d < 10
    ensures '0' <= c <= '9'
    ensures c as int - '0' as int == d
  {
    ('0' as int + d) as char
  }

  /** Decimal digits of a natural number, most significant first. */
  function Digits(n: nat): (s: string)
    ensures |s| > 0
    ensures forall i :: 0 <= i < |s| ==> '0' <= s[i] <= '9'
  {
    if n < 10 then [DigitChar(n)] else Digits(n / 10) + [DigitChar(n % 10)]
  }

  /** Reads a string of decimal digits back as a number (the reference for `Digits`). */
  function DigitsValue(s: string): int
  {
    if s == [] then 0 else DigitsValue(s[..|s| - 1]) * 10 + (s[|s| - 1] as int - '0' as int)
  }

  /** Reads an optional minus sign and decimal digits back as an integer. */
  function IntValue(s: string): int
  {
    if |s| > 0 && s[0] == '-' then -DigitsValue(s[1..]) else DigitsValue(s)
  }

  /** `toString()` of an `i32`: a minus sign for negative values, then the digits; never a point. */
  function IntText(n: int): (s: string)
    ensures |s| > 0
    ensures '.' !in s
    ensures s[0] == '-' <==> n < 0
  {
    if n < 0 then "-" + Digits(-n) else Digits(n)
  }

  /** `toString()` of an `f64` holding a whole number: the integer text followed by ".0". */
  function IntegralF64Text(n: int): (s: string)
    ensures '.' in s
    ensures |s| == |IntText(n)| + 2
  {
    IntText(n) + ".0"
  }

  lemma {:induction false} DigitsRoundTrip(n: nat)
    ensures DigitsValue(Digits(n)) == n
  {
    var s := Digits(n);
    if n < 10 {
      assert s[..|s| - 1] == [];
    } else {
      assert s[..|s| - 1] == Digits(n / 10);
      DigitsRoundTrip(n / 10);
    }
  }

  /** Reading the `i32` text back gives the integer again. */
  lemma IntTextRoundTrip(n: int)
    ensures IntValue(IntText(n)) == n
  {
    if n < 0 {
      assert IntText(n)[1..] == Digits(-n);
      DigitsRoundTrip(-n);
    } else {
      DigitsRoundTrip(n);
    }
  }

  /** Different spacings give different `i32` texts. */
  lemma IntTextInjective(m: int, n: int)
    requires IntText(m) == IntText(n)
    ensures m == n
  {
    IntTextRoundTrip(m);
    IntTextRoundTrip(n);
  }

  /** No whole number formatted as an `f64` spells the same text as any `i32`. */
  lemma F64TextNeverIntText(m: int, n: int)
    ensures IntegralF64Text(m) != IntText(n)
  {
    assert '.' in IntegralF64Text(m);
  }

  /** `isStablecoin`: scans STABLECOINS for the lower-cased address. */
  method IsStablecoin(address: string) returns (b: bool)
    ensures b <==> exists i :: 0 <= i < |STABLECOINS| && STABLECOINS[i] == ToLower(address)
  {
    var lower := ToLower(address);
    var i := 0;
    while i < |STABLECOINS|
      invariant 0 <= i <= |STABLECOINS|
      invariant forall j :: 0 <= j < i ==> STABLECOINS[j] != lower
    {
      if lower == STABLECOINS[i] {
        return true;
      }
      i := i + 1;
    }
    return false;
  }

  /** Membership depends only on the lower-cased address: upper-case spellings match too. */
  lemma StablecoinCaseInsensitive(a: string, b: string)
    requires ToLower(a) == ToLower(b)
    ensures (exists i :: 0 <= i < |STABLECOINS| && STABLECOINS[i] == ToLower(a))
        <==> (exists i :: 0 <= i < |STABLECOINS| && STABLECOINS[i] == ToLower(b))
  {
  }

  /** `getFeeTierFromTickSpacing`: fee in parts per million, 3000 for unknown spacings. */
  function GetFeeTierFromTickSpacing(tickSpacing: int): (fee: real)
    ensures 100.0 <= fee <= 10000.0
    ensures tickSpacing !in {1, 10, 50, 60, 100, 200} ==> fee == 3000.0
  {
    if tickSpacing == 1 then 100.0
    else if tickSpacing == 10 then 500.0
    else if tickSpacing == 50 then 2500.0
    else if tickSpacing == 60 then 3000.0
    else if tickSpacing == 100 then 5000.0
    else if tickSpacing == 200 then 10000.0
    else 3000.0
  }

  /** On the known spacings, a wider spacing never has a lower fee tier. */
  lemma FeeTierMonotoneOnKnownSpacings(a: int, b: int)
    requires a in {1, 10, 50, 60, 100, 200} && b in {1, 10, 50, 60, 100, 200}
    requires a <= b
    ensures GetFeeTierFromTickSpacing(a) <= GetFeeTierFromTickSpacing(b)
  {
  }
}
