/** Python's round(x, n) on exact reals: the nearest multiple of 10^-n,
    ties to the even multiple. The float representation error of the
    source's binary doubles is not part of this model. */
module Numeric {

  function Pow10(n: nat): (r: nat)
    ensures r >= 1
  {
    if n == 0 then 1 else 10 * Pow10(n - 1)
  }

  /** The integer nearest to x; an exact half goes to the even neighbour. */
  function RoundHalfEven(x: real): (k: int)
    ensures x - 0.5 <= k as real <= x + 0.5
    ensures k as real == x ==> k == x.Floor
  {
    var f := x.Floor;
    var d := x - f as real;
    if d < 0.5 then f
    else if d > 0.5 then f + 1
    else if f % 2 == 0 then f
    else f + 1
  }

  /** round(x, digits) */
  function Round(x: real, digits: nat): real
  {
    RoundHalfEven(x * Pow10(digits) as real) as real / Pow10(digits) as real
  }

  /** The source rounds to one or two decimals only. */
  lemma ScaleOf(digits: nat)
    requires digits <= 2
    ensures Pow10(digits) == if digits == 0 then 1 else if digits == 1 then 10 else 100
  {
    if digits > 0 {
      assert Pow10(digits) == 10 * Pow10(digits - 1);
      if digits > 1 {
        assert Pow10(digits - 1) == 10 * Pow10(digits - 2);
      }
    }
  }

  /** The result is within half a unit of the last kept digit. */
  lemma RoundError(x: real, digits: nat)
    requires digits <= 2
    ensures x - 0.5 / Pow10(digits) as real <= Round(x, digits) <= x + 0.5 / Pow10(digits) as real
  {
    ScaleOf(digits);
    var p := Pow10(digits) as real;
    var k := RoundHalfEven(x * p) as real;
    assert x * p - 0.5 <= k <= x * p + 0.5;
  }

  /** Round at one of the scales the source uses, written out. */
  lemma RoundAtScale(x: real, digits: nat)
    requires digits <= 2
    ensures digits == 0 ==> Round(x, digits) == RoundHalfEven(x) as real
    ensures digits == 1 ==> Round(x, digits) == RoundHalfEven(x * 10.0) as real / 10.0
    ensures digits == 2 ==> Round(x, digits) == RoundHalfEven(x * 100.0) as real / 100.0
  {
    ScaleOf(digits);
    if digits == 0 {
      assert x * Pow10(digits) as real == x;
    }
  }

  /** An integer lower bound survives rounding. */
  lemma RoundAtLeast(x: real, digits: nat, lo: int)
    requires digits <= 2
    requires x >= lo as real
    ensures Round(x, digits) >= lo as real
  {
    RoundAtScale(x, digits);
    if digits == 0 {
      assert RoundHalfEven(x) >= lo;
    } else if digits == 1 {
      assert RoundHalfEven(x * 10.0) >= 10 * lo;
    } else {
      assert RoundHalfEven(x * 100.0) >= 100 * lo;
    }
  }

  /** An integer upper bound survives rounding. */
  lemma RoundAtMost(x: real, digits: nat, hi: int)
    requires digits <= 2
    requires x <= hi as real
    ensures Round(x, digits) <= hi as real
  {
    RoundAtScale(x, digits);
    if digits == 0 {
      assert RoundHalfEven(x) <= hi;
    } else if digits == 1 {
      assert RoundHalfEven(x * 10.0) <= 10 * hi;
    } else {
      assert RoundHalfEven(x * 100.0) <= 100 * hi;
    }
  }

  /** Whole numbers are left as they are. */
  lemma RoundWhole(n: int, digits: nat)
    requires digits <= 2
    ensures Round(n as real, digits) == n as real
  {
    RoundAtLeast(n as real, digits, n);
    RoundAtMost(n as real, digits, n);
  }

  /** Rounding keeps the sign (weakly) and fixes zero. */
  lemma RoundSign(x: real, digits: nat)
    requires digits <= 2
    ensures x >= 0.0 ==> Round(x, digits) >= 0.0
    ensures x <= 0.0 ==> Round(x, digits) <= 0.0
  {
    if x >= 0.0 {
      RoundAtLeast(x, digits, 0);
    }
    if x <= 0.0 {
      RoundAtMost(x, digits, 0);
    }
  }

  /** round(66.25, 1) is 66.2: the tie goes to the even digit. */
  lemma RoundTieToEven()
    ensures Round(66.25, 1) == 66.2
  {
    assert Pow10(1) == 10;
    assert 66.25 * 10.0 == 662.5;
    assert (662.5).Floor == 662;
    assert RoundHalfEven(662.5) == 662;
  }

}
