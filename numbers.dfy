/**
 * The number handling the front end shares between its files, on exact reals:
 * JavaScript's `||` on an optional number, `Math.round(x * 100) / 100`, `Number.isInteger`,
 * `String(x)` and `x.toFixed(2)`.
 */
module Numbers {
  import opened Wrappers
  import opened Text
  import opened Platform

  /** Truthiness of an optional number: `undefined` and `0` are falsy. */
  predicate Truthy(o: Option<real>) {
    o.Some? && o.value != 0.0
  }

  /**
   * `o || d` on an optional number: the result is one of the two, and it is zero only when
   * both are, so a non-zero default never lets a zero through.
   */
  function OrElse(o: Option<real>, d: real): (r: real)
    ensures r == d || (o.Some? && r == o.value)
    ensures r != 0.0 <==> Truthy(o) || d != 0.0
    ensures Truthy(o) ==> r == o.value
  {
    if Truthy(o) then o.value else d
  }

  /** A value with at most two decimal places. */
  predicate OnCentGrid(x: real) {
    (x * 100.0).Floor as real == x * 100.0
  }

  /** `Math.round(x * 100) / 100`: `Math.round` rounds halves up, towards +infinity. */
  function Round2(x: real): real {
    ((x * 100.0 + 0.5).Floor as real) / 100.0
  }

  /** Rounding moves a value by at most half a cent and lands on the cent grid. */
  lemma Round2Near(x: real)
    ensures x - 0.005 < Round2(x) <= x + 0.005
    ensures OnCentGrid(Round2(x))
  {
    var n := (x * 100.0 + 0.5).Floor;
    assert Round2(x) * 100.0 == n as real;
  }

  /** A value already on the cent grid is left alone. */
  lemma Round2Fixes(x: real)
    requires OnCentGrid(x)
    ensures Round2(x) == x
  {
    var m := (x * 100.0).Floor;
    assert (x * 100.0 + 0.5).Floor == m;
  }

  lemma Round2Monotone(x: real, y: real)
    requires x <= y
    ensures Round2(x) <= Round2(y)
  {
    assert (x * 100.0 + 0.5).Floor <= (y * 100.0 + 0.5).Floor;
  }

  /**
   * The tolerance the menu card's decrease guard allows: anything within a thousandth below
   * a two-decimal bound still rounds to at least that bound.
   */
  lemma Round2KeepsBound(x: real, bound: real)
    requires OnCentGrid(bound)
    requires x >= bound - 0.001
    ensures Round2(x) >= bound
  {
    var b := (bound * 100.0).Floor;
    assert x * 100.0 + 0.5 >= b as real;
    assert (x * 100.0 + 0.5).Floor >= b;
  }

  /** `Number.isInteger(x)`. */
  predicate IsWhole(x: real) {
    x.Floor as real == x
  }

  /** `String(x)`: an integer is written in decimal; other values are the platform's business. */
  function ShowNumber(env: Env, x: real): string {
    if IsWhole(x) then IntToString(x.Floor) else env.showFraction(x)
  }

  /** Whole cents, rounding halves up, of a non-negative amount. */
  function Cents(x: real): nat
    requires x >= 0.0
  {
    (x * 100.0 + 0.5).Floor
  }

  /** `n` cents written with two decimals: units, a point, two digits. */
  function CentsText(n: nat): string {
    NatToString(n / 100) + "." + Pad2(n % 100)
  }

  /** `x.toFixed(2)`. */
  function Fixed2(x: real): string {
    if x < 0.0 then "-" + CentsText(Cents(-x)) else CentsText(Cents(x))
  }

  /**
   * A non-negative amount is written as its units, a point and two digits, which read back
   * as the amount rounded to whole cents.
   */
  lemma Fixed2ReadsBack(x: real)
    requires x >= 0.0
    ensures var s := Fixed2(x);
      |s| >= 4 && s[|s| - 3] == '.' && AllDigits(s[..|s| - 3]) && AllDigits(s[|s| - 2..])
      && ParseNat(s[..|s| - 3]) * 100 + ParseNat(s[|s| - 2..]) == Cents(x)
    ensures x - 0.005 < Cents(x) as real / 100.0 <= x + 0.005
  {
    var n := Cents(x);
    var u, d := NatToString(n / 100), Pad2(n % 100);
    var s := Fixed2(x);
    assert s == u + "." + d;
    NatToStringRoundTrip(n / 100);
    Pad2RoundTrip(n % 100);
    assert s[..|s| - 3] == u;
    assert s[|s| - 2..] == d;
  }

  lemma Pad2Digits(m: nat)
    requires m < 100
    ensures Pad2(m) == [DigitChar(m / 10), DigitChar(m % 10)]
  {
    if m >= 10 {
      assert NatToString(m / 10) == [DigitChar(m / 10)];
    }
  }

  /** The number of '0' characters `s` ends with. */
  function TrailingZeros(s: string): (k: nat)
    ensures k <= |s|
    ensures forall i :: |s| - k <= i < |s| ==> s[i] == '0'
    ensures k < |s| ==> s[|s| - 1 - k] != '0'
  {
    if s == [] || s[|s| - 1] != '0' then 0 else 1 + TrailingZeros(s[..|s| - 1])
  }

  /** `s.replace(/\.?0+$/, '')`: drop the trailing zeros, and the point before them if there is one. */
  function TrimZeros(s: string): string {
    var k := TrailingZeros(s);
    if k == 0 then s
    else if k < |s| && s[|s| - 1 - k] == '.' then s[..|s| - 1 - k]
    else s[..|s| - k]
  }

  /**
   * Trimming a two-decimal rendering behind a sign: a whole amount loses its point and both
   * zeros, one trailing zero goes on its own, and a last digit other than zero leaves the text
   * unchanged.
   */
  lemma TrimZerosOfCents(sign: string, n: nat)
    ensures TrimZeros(sign + CentsText(n)) ==
      if n % 100 == 0 then sign + NatToString(n / 100)
      else if n % 10 == 0 then sign + NatToString(n / 100) + "." + [DigitChar(n % 100 / 10)]
      else sign + CentsText(n)
  {
    var m := n % 100;
    var a := sign + NatToString(n / 100);
    Pad2Digits(m);
    assert sign + CentsText(n) == a + ['.', DigitChar(m / 10), DigitChar(m % 10)];
    assert DigitChar(m % 10) == '0' <==> m % 10 == 0;
    assert DigitChar(m / 10) == '0' <==> m / 10 == 0;
    if m % 10 != 0 {
      TrimZerosLastDigit(a, DigitChar(m / 10), DigitChar(m % 10));
    } else if m / 10 != 0 {
      TrimZerosOneZero(a, DigitChar(m / 10));
    } else {
      TrimZerosTwoZeros(a);
    }
  }

  lemma TrimZerosLastDigit(a: string, d1: char, d2: char)
    requires d2 != '0'
    ensures TrimZeros(a + ['.', d1, d2]) == a + ['.', d1, d2]
  {
  }

  lemma TrimZerosOneZero(a: string, d1: char)
    requires IsDigit(d1) && d1 != '0'
    ensures TrimZeros(a + ['.', d1, '0']) == a + "." + [d1]
  {
    var s := a + ['.', d1, '0'];
    var z := |s|;
    assert s[z - 1] == '0' && s[z - 2] != '0';
    assert TrailingZeros(s) == 1;
    assert s[..z - 1] == a + "." + [d1];
  }

  lemma TrimZerosTwoZeros(a: string)
    ensures TrimZeros(a + ['.', '0', '0']) == a
  {
    var s := a + ['.', '0', '0'];
    var z := |s|;
    assert s[z - 1] == '0' && s[z - 2] == '0' && s[z - 3] == '.';
    assert TrailingZeros(s) == 2;
    assert s[..z - 3] == a;
  }
}
