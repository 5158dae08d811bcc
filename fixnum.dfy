/**
 * The numeric substrate: `Num<i32, 8>` of agb_fixnum as its raw integer (the
 * represented value is raw / 256), and `Vector2D<Num<i32, 8>>` as a pair of raws.
 * Arithmetic is exact over unbounded integers; the i32 range is not modelled.
 */
module Fixnum {

  /** Raw value of a `Num<i32, 8>`. */
  type Number = int

  const ONE: Number := 256

  /** `Num::new(n)` and every `i32` that is converted `into()` a Number. */
  function FromInt(n: int): (r: Number)
    ensures r / ONE == n && r % ONE == 0
  {
    n * ONE
  }

  /** `Num * Num`: the raw product shifted right by 8 bits, which rounds down. */
  function Mul(a: Number, b: Number): (r: Number)
    ensures ONE * r <= a * b < ONE * r + ONE
  {
    (a * b) / ONE
  }

  /** Rust's `/` on `i32`: the quotient truncated toward zero. */
  function TruncDiv(a: int, b: int): (r: int)
    requires b != 0
    ensures Abs(r) == Abs(a) / Abs(b)
    ensures r > 0 ==> (a > 0) == (b > 0)
    ensures r < 0 ==> (a > 0) != (b > 0)
    ensures a >= 0 && b > 0 ==> r == a / b
  {
    var q := Abs(a) / Abs(b);
    QuotientSign(Abs(a), Abs(b));
    if (a < 0) == (b < 0) then q else -q
  }

  /** A quotient of naturals is a natural, and positive only when the dividend reaches the divisor. */
  lemma QuotientSign(n: int, d: int)
    requires n >= 0 && d > 0
    ensures n / d >= 0
    ensures n / d > 0 ==> n >= d
  {
    if n < d {
      assert n / d == 0;
    }
  }

  /** `div_floor` of a positive divisor: the quotient rounded toward negative infinity. */
  function FloorDiv(a: int, b: int): (r: int)
    requires b > 0
    ensures b * r <= a < b * r + b
  {
    a / b
  }

  /** `i32::div_ceil` of a positive divisor: the quotient rounded toward positive infinity. */
  function CeilDiv(a: int, b: int): (r: int)
    requires b > 0
    ensures b * r - b < a <= b * r
  {
    if a % b == 0 then a / b else a / b + 1
  }

  /** `Num / Num`: the raw dividend shifted left by 8 bits, then an `i32` division. */
  function Div(a: Number, b: Number): Number
    requires b != 0
  {
    TruncDiv(a * ONE, b)
  }

  /** `Num::floor`: the integer part, by an arithmetic shift (rounds down). */
  function Floor(a: Number): (r: int)
    ensures ONE * r <= a < ONE * r + ONE
  {
    a / ONE
  }

  function Abs(a: int): (r: int)
    ensures r >= 0 && (r == a || r == -a)
  {
    if a < 0 then -a else a
  }

  function Max(a: int, b: int): (r: int)
    ensures r >= a && r >= b && (r == a || r == b)
  {
    if a >= b then a else b
  }

  function Min(a: int, b: int): (r: int)
    ensures r <= a && r <= b && (r == a || r == b)
  {
    if a <= b then a else b
  }

  /** `Vector2D<Num<i32, 8>>`. */
  datatype Vec = Vec(x: Number, y: Number)

  const Zero := Vec(0, 0)

  function Add(a: Vec, b: Vec): Vec { Vec(a.x + b.x, a.y + b.y) }

  function Sub(a: Vec, b: Vec): Vec { Vec(a.x - b.x, a.y - b.y) }

  function Neg(a: Vec): Vec { Vec(-a.x, -a.y) }

  /** `Vector2D * Num`. */
  function Scale(a: Vec, n: Number): Vec { Vec(Mul(a.x, n), Mul(a.y, n)) }

  /** `Vector2D * i32`. */
  function ScaleInt(a: Vec, k: int): Vec { Vec(a.x * k, a.y * k) }

  /** `Vector2D / i32`. */
  function DivInt(a: Vec, k: int): Vec
    requires k != 0
  {
    Vec(TruncDiv(a.x, k), TruncDiv(a.y, k))
  }

  function Dot(a: Vec, b: Vec): Number { Mul(a.x, b.x) + Mul(a.y, b.y) }

  function Cross(a: Vec, b: Vec): Number { Mul(a.x, b.y) - Mul(a.y, b.x) }

  function MagnitudeSquared(a: Vec): (r: Number)
    ensures r >= 0
  {
    Dot(a, a)
  }

  /** `Vector2D::floor`: both coordinates rounded down to integers. */
  function FloorVec(a: Vec): (int, int) { (Floor(a.x), Floor(a.y)) }

  /**
   * The parts of agb_fixnum and agb that are not part of this model, as
   * parameters: `magnitude`, `fast_normalise` and `Rect::contains_point`
   * (rectangle position, size, point).
   */
  datatype Numerics = Numerics(
    magnitude: Vec -> Number,
    fastNormalise: Vec -> Vec,
    rectContains: (Vec, Vec, Vec) -> bool)

  /** Squared distance is the same measured from either end. */
  lemma DistanceSymmetric(a: Vec, b: Vec)
    ensures MagnitudeSquared(Sub(a, b)) == MagnitudeSquared(Sub(b, a))
  {
    assert (a.x - b.x) * (a.x - b.x) == (b.x - a.x) * (b.x - a.x);
    assert (a.y - b.y) * (a.y - b.y) == (b.y - a.y) * (b.y - a.y);
  }

  /** Multiplying by `num!(1.)` and by zero are exact. */
  lemma MulUnit(a: Number)
    ensures Mul(a, ONE) == a && Mul(ONE, a) == a && Mul(a, 0) == 0 && Mul(0, a) == 0
  {
  }
}
