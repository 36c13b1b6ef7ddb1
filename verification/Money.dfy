/**
 Decimal arithmetic as the broker uses it. Amounts are exact reals in USD; every `quantize` of the
 source is written out as a rounding to a number of decimal places.
 */
module Money {
  const SLIPPAGE: real := 0.0005

  const TAKER_FEE: real := 0.001

  /** ROUND_DOWN: truncation toward zero. */
  function Trunc(x: real): int {
    if x >= 0.0 then x.Floor else -((-x).Floor)
  }

  /** Decimal.quantize(0.00000001, ROUND_DOWN) */
  function Down8(x: real): real {
    Trunc(x * 100000000.0) as real / 100000000.0
  }

  /** Decimal.quantize(0.01, ROUND_DOWN) */
  function DownCents(x: real): real {
    Trunc(x * 100.0) as real / 100.0
  }

  /** ROUND_HALF_EVEN, Decimal's default. */
  function HalfEven(x: real): int {
    var f := x.Floor;
    var rest := x - f as real;
    if rest < 0.5 then f
    else if rest > 0.5 then f + 1
    else if f % 2 == 0 then f
    else f + 1
  }

  /** Decimal.quantize(0.01) */
  function RoundCents(x: real): real {
    HalfEven(x * 100.0) as real / 100.0
  }

  /** The fee on a fill: 0.1% of its notional, truncated to cents. */
  function Fee(notional: real): real {
    DownCents(notional * TAKER_FEE)
  }

  function BuyFill(ref: real): real {
    Down8(ref * (1.0 + SLIPPAGE))
  }

  function SellFill(ref: real): real {
    Down8(ref * (1.0 - SLIPPAGE))
  }

  /** Rounding to cents moves an amount by at most half a cent. */
  lemma RoundCentsError(x: real)
    ensures -0.005 <= RoundCents(x) - x <= 0.005
  {
    var y := x * 100.0;
    assert y.Floor as real <= y < y.Floor as real + 1.0;
    assert -0.5 <= HalfEven(y) as real - y <= 0.5;
  }

  /** A whole number of cents, the nearest one, and of two equally near ones the even one. */
  lemma RoundCentsIsNearest(x: real) returns (cents: int)
    ensures RoundCents(x) * 100.0 == cents as real
    ensures -0.005 <= RoundCents(x) - x <= 0.005
    ensures RoundCents(x) - x == 0.005 || x - RoundCents(x) == 0.005 ==> cents % 2 == 0
  {
    cents := HalfEven(x * 100.0);
    RoundCentsError(x);
    var y := x * 100.0;
    assert y.Floor as real <= y < y.Floor as real + 1.0;
  }

  /** A whole number of hundred-millionths, between zero and the amount, and less than one of them away. */
  lemma Down8Truncates(x: real) returns (k: int)
    ensures Down8(x) * 100000000.0 == k as real
    ensures x >= 0.0 ==> 0.0 <= Down8(x) <= x < Down8(x) + 0.00000001
    ensures x < 0.0 ==> Down8(x) - 0.00000001 < x <= Down8(x) <= 0.0
  {
    k := Trunc(x * 100000000.0);
  }

  /** A whole number of cents, at most a thousandth of the notional and less than a cent below it. */
  lemma FeeTruncates(notional: real) returns (cents: int)
    requires notional >= 0.0
    ensures Fee(notional) * 100.0 == cents as real
    ensures 0.0 <= Fee(notional) <= 0.001 * notional < Fee(notional) + 0.01
  {
    cents := Trunc(notional * TAKER_FEE * 100.0);
  }

  lemma TruncMonotone(x: real, y: real)
    requires x <= y
    ensures Trunc(x) <= Trunc(y)
  {
  }

  lemma Down8Monotone(x: real, y: real)
    requires x <= y
    ensures Down8(x) <= Down8(y)
  {
    TruncMonotone(x * 100000000.0, y * 100000000.0);
  }

  /** A price that already has eight decimals is left alone. */
  lemma Down8Idempotent(x: real)
    ensures Down8(Down8(x)) == Down8(x)
  {
    var k := Trunc(x * 100000000.0);
    assert Down8(x) * 100000000.0 == k as real;
    assert Trunc(k as real) == k;
  }

  lemma Down8Nonnegative(x: real)
    requires x >= 0.0
    ensures 0.0 <= Down8(x) <= x
  {
  }

  lemma FeeNonnegative(notional: real)
    requires notional >= 0.0
    ensures 0.0 <= Fee(notional) <= notional * TAKER_FEE
  {
  }

  /** An amount of whole hundred-millionths is left alone. */
  lemma Down8Exact(x: real, k: nat)
    requires x * 100000000.0 == k as real
    ensures Down8(x) == x
  {
    assert (k as real).Floor == k;
  }

  lemma FeeInCents(notional: real, cents: nat)
    requires cents as real <= notional / 10.0 < cents as real + 1.0
    ensures Fee(notional) == cents as real / 100.0
  {
    var x := notional * TAKER_FEE * 100.0;
    assert x == notional / 10.0;
    assert x.Floor == cents;
  }

  /** An amount of whole cents is left alone. */
  lemma RoundCentsExact(x: real, cents: int)
    requires x * 100.0 == cents as real
    ensures RoundCents(x) == x
  {
    assert (cents as real).Floor == cents;
  }

  /** The fee disappears in the truncation exactly below 10 USD. */
  lemma FeeIsZeroIff(notional: real)
    requires notional >= 0.0
    ensures Fee(notional) == 0.0 <==> notional < 10.0
  {
    var cents := notional * TAKER_FEE * 100.0;
    assert cents == notional / 10.0;
    assert cents.Floor == 0 <==> cents < 1.0;
  }

  /** At one reference price a buyer never pays less than a seller receives. */
  lemma SpreadIsAdverse(ref: real)
    requires ref > 0.0
    ensures 0.0 <= SellFill(ref) <= BuyFill(ref)
  {
    Down8Monotone(ref * (1.0 - SLIPPAGE), ref * (1.0 + SLIPPAGE));
    Down8Nonnegative(ref * (1.0 - SLIPPAGE));
  }
}
