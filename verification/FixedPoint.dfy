/** Signed 128-bit fixed-point arithmetic: checked operations and division that truncates toward zero. */
module FixedPoint {
  import opened Outcomes

  const PRECISION := 1_000_000_000_000_000_000
  const BPS_DENOMINATOR := 10_000
  const SECS_PER_HOUR := 3_600
  const I128_MAX := 0x7FFF_FFFF_FFFF_FFFF_FFFF_FFFF_FFFF_FFFF
  const U64_MAX := 0xFFFF_FFFF_FFFF_FFFF

  predicate IsI128(x: int) {
    -I128_MAX - 1 <= x <= I128_MAX
  }

  function Checked(x: int): Result<int> {
    if IsI128(x) then Ok(x) else Err(MathOverflow)
  }

  function CheckedAdd(a: int, b: int): Result<int> {
    Checked(a + b)
  }

  function CheckedSub(a: int, b: int): Result<int> {
    Checked(a - b)
  }

  /** Quotient rounded toward zero: the remainder has the dividend's sign and is smaller than the divisor. */
  function TruncDiv(a: int, b: int): (q: int)
    requires b != 0
    ensures 0 <= a ==> 0 <= a - q * b < Abs(b)
    ensures a <= 0 ==> -Abs(b) < a - q * b <= 0
  {
    if 0 <= a then a / b else -((-a) / b)
  }

  function Abs(x: int): int {
    if x < 0 then -x else x
  }

  /** The 256-bit product never overflows for 128-bit operands; only the quotient is range-checked. */
  function MulDiv(a: int, b: int, denominator: int): Result<int> {
    if denominator == 0 then Err(DivisionByZero) else Checked(TruncDiv(a * b, denominator))
  }

  function MulPrecision(a: int, b: int): Result<int> {
    MulDiv(a, b, PRECISION)
  }

  function DivPrecision(a: int, b: int): Result<int> {
    MulDiv(a, PRECISION, b)
  }

  function ApplyBps(amount: int, bps: nat): Result<int> {
    if bps > BPS_DENOMINATOR then Err(InvalidConfig) else MulDiv(amount, bps, BPS_DENOMINATOR)
  }

  lemma ProductOfDifference(a: int, x: int, y: int)
    ensures a * (x - y) == a * x - a * y && (x - y) * a == a * x - a * y
  {
  }

  lemma ProductNonNegative(a: int, b: int)
    requires a >= 0 && b >= 0
    ensures a * b >= 0
  {
  }

  lemma PositiveFactor(d: int, x: int)
    requires d > 0 && d * x > 0
    ensures x > 0
  {
  }

  /** Products by a positive factor reflect order. */
  lemma ScaleReflectsOrder(p: int, q: int, d: int)
    requires d > 0 && d * p < d * q + d
    ensures p <= q
  {
    var gap := q + 1 - p;
    assert d * gap == d * q + d - d * p;
    PositiveFactor(d, gap);
  }

  /** Truncation loses strictly less than one divisor, always toward zero, and keeps the sign. */
  lemma TruncDivBounds(a: int, d: int)
    requires d > 0
    ensures -d < d * TruncDiv(a, d) - a < d
    ensures 0 <= a ==> 0 <= TruncDiv(a, d) && d * TruncDiv(a, d) <= a
    ensures a <= 0 ==> TruncDiv(a, d) <= 0 && a <= d * TruncDiv(a, d)
  {
    var q := TruncDiv(a, d);
    assert q * d == d * q;
    if 0 <= a {
      ScaleReflectsOrder(0, q, d);
    }
    if a <= 0 {
      ScaleReflectsOrder(q, 0, d);
    }
  }

  /** Truncation is symmetric: negating the dividend negates the quotient. */
  lemma TruncDivNegates(a: int, d: int)
    requires d > 0
    ensures TruncDiv(-a, d) == -TruncDiv(a, d)
  {
  }

  /** The quotient is the only integer whose multiple is within one divisor of the dividend on the zero side. */
  lemma TruncDivUnique(a: int, d: int, q: int)
    requires d > 0
    requires if 0 <= a then 0 <= a - d * q < d else -d < a - d * q <= 0
    ensures TruncDiv(a, d) == q
  {
    TruncDivBounds(a, d);
    ScaleReflectsOrder(TruncDiv(a, d), q, d);
    ScaleReflectsOrder(q, TruncDiv(a, d), d);
  }

  /** Truncating division by a positive number is monotone. */
  lemma TruncDivMonotone(a: int, b: int, d: int)
    requires d > 0 && a <= b
    ensures TruncDiv(a, d) <= TruncDiv(b, d)
  {
    TruncDivBounds(a, d);
    TruncDivBounds(b, d);
    if 0 <= a || b <= 0 {
      ScaleReflectsOrder(TruncDiv(a, d), TruncDiv(b, d), d);
    }
  }
}
