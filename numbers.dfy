/**
 * Numeric conversions the front end applies to what the contract returns:
 * scaling 18-decimal wei to whole units, rounding to a fixed number of decimals
 * (what `Number(x.toFixed(p))` does, here on exact rationals), and decimal
 * rendering of a natural number for template strings.
 */
module Numbers {
  import opened Wrappers

  /** 10^n. */
  function Pow10(n: nat): (r: nat)
    ensures r >= 1
  {
    if n == 0 then 1 else 10 * Pow10(n - 1)
  }

  /** The number of wei in one whole unit of the native asset. */
  const WeiPerUnit: real := 1000000000000000000.0

  /** `Number(formatEther(wei))`: an 18-decimal fixed-point integer as a whole-unit amount. */
  function WeiToEther(wei: nat): (r: real)
    ensures r >= 0.0
    ensures r * WeiPerUnit == wei as real
  {
    wei as real / WeiPerUnit
  }

  /** Rounding of a real to the nearest integer, halves away from zero. */
  function RoundHalfAway(y: real): (n: int)
    ensures -0.5 <= n as real - y <= 0.5
    ensures y >= 0.0 ==> n >= 0
    ensures y <= 0.0 ==> n <= 0
  {
    if y >= 0.0 then (y + 0.5).Floor else -((-y + 0.5).Floor)
  }

  /** r has at most `places` decimals: r * 10^places is an integer. */
  ghost predicate HasDecimals(r: real, places: nat) {
    IsInteger(r * (Pow10(places) as real))
  }

  /** v is a whole number. */
  ghost predicate IsInteger(v: real) {
    v == v.Floor as real
  }

  /** x rounded to a whole number of units of 10^-places. */
  function RoundedUnits(x: real, places: nat): (n: int)
    ensures -0.5 <= n as real - x * (Pow10(places) as real) <= 0.5
  {
    RoundHalfAway(x * (Pow10(places) as real))
  }

  /**
   * `Number(x.toFixed(places))` on an exact rational: round x to `places` decimals,
   * halves away from zero (toFixed rounds the magnitude and keeps the sign).
   */
  function RoundTo(x: real, places: nat): (r: real)
    ensures HasDecimals(r, places)
    ensures -0.5 <= (r - x) * (Pow10(places) as real) <= 0.5
  {
    var n := RoundedUnits(x, places);
    ScaledHasDecimals(n, places);
    ScaledDifference(n, x, places);
    n as real / (Pow10(places) as real)
  }

  /** n / 10^places has at most `places` decimals. */
  lemma ScaledHasDecimals(n: int, places: nat)
    ensures HasDecimals(n as real / (Pow10(places) as real), places)
  {
    var scale := Pow10(places) as real;
    assert (n as real / scale) * scale == n as real;
    assert (n as real).Floor == n;
  }

  /** Scaling distributes over the difference between n / 10^places and x. */
  lemma ScaledDifference(n: int, x: real, places: nat)
    ensures (n as real / (Pow10(places) as real) - x) * (Pow10(places) as real)
         == n as real - x * (Pow10(places) as real)
  {
    var scale := Pow10(places) as real;
    assert (n as real / scale) * scale == n as real;
  }

  /** Rounding a whole number to the nearest integer returns it. */
  lemma RoundHalfAwayWhole(k: int)
    ensures RoundHalfAway(k as real) == k
  {
    if k >= 0 {
      assert (k as real + 0.5).Floor == k;
    } else {
      assert (-(k as real) + 0.5).Floor == -k;
    }
  }

  /** Rounding a value that already has at most `places` decimals returns it unchanged. */
  lemma RoundToExact(k: int, places: nat)
    ensures RoundTo(k as real / (Pow10(places) as real), places) == k as real / (Pow10(places) as real)
  {
    var scale := Pow10(places) as real;
    var x := k as real / scale;
    ScaleCancels(k, scale);
    assert x * scale == k as real;
    RoundHalfAwayWhole(k);
    assert RoundedUnits(x, places) == k;
    assert RoundTo(x, places) == RoundedUnits(x, places) as real / scale;
  }

  /** Dividing by a positive scale and multiplying back cancels. */
  lemma ScaleCancels(k: int, scale: real)
    requires scale > 0.0
    ensures (k as real / scale) * scale == k as real
  {}

  /** Rounding zero gives zero, on any number of places. */
  lemma RoundToZero(places: nat)
    ensures RoundTo(0.0, places) == 0.0
  {
    RoundToExact(0, places);
  }

  /** The decimal digit character for d. */
  function DigitChar(d: nat): (c: char)
    requires d < 10
    ensures '0' <= c <= '9'
  {
    (48 + d) as char
  }

  /** The decimal rendering of n, as a template literal `${n}` shows a non-negative integer. */
  function NatToString(n: nat): (s: string)
    ensures 1 <= |s|
    ensures n < 10 <==> |s| == 1
    ensures forall i :: 0 <= i < |s| ==> '0' <= s[i] <= '9'
  {
    if n < 10 then [DigitChar(n)] else NatToString(n / 10) + [DigitChar(n % 10)]
  }

  predicate IsDigit(c: char) {
    '0' <= c <= '9'
  }

  predicate AllDigits(s: string) {
    forall i :: 0 <= i < |s| ==> IsDigit(s[i])
  }

  function DigitValue(c: char): (d: nat)
    requires IsDigit(c)
    ensures d < 10 && DigitChar(d) == c
  {
    c as int - 48
  }

  /** The number a string of decimal digits denotes (leading zeros allowed, the empty string is 0). */
  function DigitsValue(s: string): nat
    requires AllDigits(s)
  {
    if s == [] then 0 else 10 * DigitsValue(s[..|s| - 1]) + DigitValue(s[|s| - 1])
  }

  /** Reading back a rendering gives the number rendered. */
  lemma {:induction false} DigitsValueOfNatToString(n: nat)
    ensures DigitsValue(NatToString(n)) == n
  {
    if n >= 10 {
      var s := NatToString(n);
      assert s[..|s| - 1] == NatToString(n / 10);
      DigitsValueOfNatToString(n / 10);
    }
  }

  /** Distinct numbers have distinct renderings. */
  lemma NatToStringInjective(m: nat, n: nat)
    requires NatToString(m) == NatToString(n)
    ensures m == n
  {
    DigitsValueOfNatToString(m);
    DigitsValueOfNatToString(n);
  }

  /**
   * `Number(s)` for a configured chain id: a string of decimal digits denotes its
   * value (the empty string 0); any other string is NaN, here None.
   */
  function NumberOfDigits(s: string): (r: Option<nat>)
    ensures r.Some? <==> AllDigits(s)
    ensures forall n: nat :: s == NatToString(n) ==> r == Some(n)
  {
    NumberOfDigitsOfRendering(s);
    if AllDigits(s) then Some(DigitsValue(s)) else None
  }

  lemma NumberOfDigitsOfRendering(s: string)
    ensures forall n: nat :: s == NatToString(n) ==> AllDigits(s) && DigitsValue(s) == n
  {
    forall n: nat | s == NatToString(n)
      ensures AllDigits(s) && DigitsValue(s) == n
    {
      DigitsValueOfNatToString(n);
    }
  }

  /** The longest prefix of s made of decimal digits. */
  function LeadingDigits(s: string): (p: string)
    ensures p <= s && AllDigits(p)
    ensures |p| < |s| ==> !IsDigit(s[|p|])
  {
    if s == [] || !IsDigit(s[0]) then [] else [s[0]] + LeadingDigits(s[1..])
  }

  /**
   * `parseInt(s)` for a configured chain id: the value of the leading decimal
   * digits, NaN (None) when s does not start with a digit.
   */
  function ParseIntPrefix(s: string): (r: Option<nat>)
    ensures r.None? <==> (s == [] || !IsDigit(s[0]))
  {
    var p := LeadingDigits(s);
    if p == [] then None else Some(DigitsValue(p))
  }

  /** On a rendering the two parsers agree and give back the number rendered. */
  lemma {:induction false} ParsersReadRendering(n: nat)
    ensures NumberOfDigits(NatToString(n)) == Some(n)
    ensures ParseIntPrefix(NatToString(n)) == Some(n)
  {
    var s := NatToString(n);
    LeadingDigitsOfDigits(s);
    DigitsValueOfNatToString(n);
  }

  lemma {:induction false} LeadingDigitsOfDigits(s: string)
    requires AllDigits(s)
    ensures LeadingDigits(s) == s
  {
    if s != [] {
      LeadingDigitsOfDigits(s[1..]);
    }
  }
}
