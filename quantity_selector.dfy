/**
 * The quantity stepper of src/components/UI/QuantitySelector.tsx: when its minus button is
 * disabled, and how a quantity is written between the two buttons (the menu card's badge
 * writes its quantity the same way).
 */
module QuantityDisplay {
  import opened Wrappers
  import opened Text
  import opened Numbers

  /** The minus button is disabled at or below the minimum, which defaults to 1 when not given. */
  predicate DecreaseDisabled(quantity: real, min: Option<real>) {
    quantity <= min.GetOr(1.0)
  }

  /** The plus button has no `disabled` condition at all. */
  predicate IncreaseDisabled(quantity: real, min: Option<real>) {
    false
  }

  /**
   * A whole quantity is written as the integer it is; any other one as its two-decimal
   * rendering with trailing zeros, and then a bare point, removed.
   */
  function QuantityText(quantity: real): string {
    if IsWhole(quantity) then IntToString(quantity.Floor) else TrimZeros(Fixed2(quantity))
  }

  /**
   * The minus button is enabled exactly above the minimum, so a press can only come from a
   * quantity greater than it; the plus button is always enabled.
   */
  lemma ButtonsEnabled(quantity: real, min: Option<real>)
    ensures !DecreaseDisabled(quantity, min) <==> quantity > (if min.Some? then min.value else 1.0)
    ensures min.None? ==> (DecreaseDisabled(quantity, min) <==> quantity <= 1.0)
    ensures !IncreaseDisabled(quantity, min)
  {
  }

  /** A whole, non-negative quantity is written in plain decimal digits that read back as it. */
  lemma {:induction false} WholeQuantityText(n: nat)
    ensures AllDigits(QuantityText(n as real))
    ensures ParseNat(QuantityText(n as real)) == n
  {
    assert (n as real).Floor == n;
    NatToStringRoundTrip(n);
  }

  /**
   * A fractional quantity is rounded to whole cents `c` (ties away from zero); then
   * two zero decimals vanish with the point, one trailing zero vanishes, and otherwise both
   * decimals stay.
   */
  lemma {:induction false} FractionalQuantityText(quantity: real)
    requires !IsWhole(quantity)
    ensures var sign := if quantity < 0.0 then "-" else "";
      var c := Cents(if quantity < 0.0 then -quantity else quantity);
      QuantityText(quantity) ==
        if c % 100 == 0 then sign + NatToString(c / 100)
        else if c % 10 == 0 then sign + NatToString(c / 100) + "." + [DigitChar(c % 100 / 10)]
        else sign + CentsText(c)
  {
    if quantity < 0.0 {
      TrimZerosOfCents("-", Cents(-quantity));
    } else {
      TrimZerosOfCents("", Cents(quantity));
      assert "" + CentsText(Cents(quantity)) == CentsText(Cents(quantity));
    }
  }

  /** One and a half is written "1.5". */
  lemma OneAndAHalfText()
    ensures QuantityText(1.5) == "1.5"
  {
    assert (1.5).Floor == 1;
    assert Cents(1.5) == 150 by {
      assert 1.5 * 100.0 + 0.5 == 150.5;
    }
    Pad2Digits(50);
    assert DigitChar(5) == '5' && DigitChar(0) == '0' && NatToString(1) == "1";
    assert Fixed2(1.5) == "1" + ['.', '5', '0'];
    TrimZerosOneZero("1", '5');
  }

  /** A quarter keeps both decimals: "0.25". */
  lemma QuarterText()
    ensures QuantityText(0.25) == "0.25"
  {
    assert (0.25).Floor == 0;
    assert Cents(0.25) == 25 by {
      assert 0.25 * 100.0 + 0.5 == 25.5;
    }
    Pad2Digits(25);
    assert DigitChar(2) == '2' && DigitChar(5) == '5' && NatToString(0) == "0";
    assert Fixed2(0.25) == "0" + ['.', '2', '5'];
    TrimZerosLastDigit("0", '2', '5');
  }

  /** A fractional quantity that rounds to a whole number of units is shown as that number: "2". */
  lemma RoundsToWholeText()
    ensures QuantityText(1.999) == "2"
  {
    assert (1.999).Floor == 1;
    assert Cents(1.999) == 200 by {
      assert 1.999 * 100.0 + 0.5 == 200.4;
    }
    Pad2Digits(0);
    assert DigitChar(0) == '0' && NatToString(2) == "2";
    assert Fixed2(1.999) == "2" + ['.', '0', '0'];
    TrimZerosTwoZeros("2");
  }
}
