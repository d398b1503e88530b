/** Positions, Go's float-to-int conversion and the extended reals used by the
    grid traversal.  Positions are reals: floating-point rounding is not modelled. */
module Geometry {

  /** Go's Vector2 (backend/logic/types.go). */
  datatype Vec2 = Vec2(x: real, y: real)

  function Add(a: Vec2, b: Vec2): Vec2 { Vec2(a.x + b.x, a.y + b.y) }
  function Sub(a: Vec2, b: Vec2): Vec2 { Vec2(a.x - b.x, a.y - b.y) }
  function Dot(a: Vec2, b: Vec2): real { a.x * b.x + a.y * b.y }

  /** r squared, written as a one-step recursion so that Sq is unfolded only
      through SqIsProduct.  The step count is the expression
      `if r < 0.0 then 1 else 1` on purpose: the verifier unrolls a recursive
      call whose arguments are literals, so a plain 1 (or a named constant)
      would expose r * r at every use of Sq.  Keeping the product hidden keeps
      non-linear arithmetic out of the proofs that only compare squares. */
  function Sq(r: real): real { SquareAfter(r, if r < 0.0 then 1 else 1) }

  function SquareAfter(r: real, steps: nat): real
    decreases steps
  {
    if steps == 0 then r * r else SquareAfter(r, steps - 1)
  }

  lemma SqIsProduct(r: real)
    ensures Sq(r) == r * r
  {
    assert Sq(r) == SquareAfter(r, 1);
    assert SquareAfter(r, 1) == r * r;
  }

  /** Squared length; the model compares squared lengths where the source
      compares square roots. */
  function LenSq(a: Vec2): (l: real)
    ensures l >= 0.0
  {
    SqNonNegative(a.x);
    SqNonNegative(a.y);
    Sq(a.x) + Sq(a.y)
  }

  /** Squared Euclidean distance. */
  function DistSq(a: Vec2, b: Vec2): (d: real)
    ensures d >= 0.0
  {
    LenSq(Sub(a, b))
  }

  /** Go's int(x) for a float: truncation toward zero. */
  function Trunc(x: real): int {
    if x >= 0.0 then x.Floor else -((-x).Floor)
  }

  /** Truncation is the floor on non-negative values, is within one of its
      argument, and sends (-1, 1) to 0. */
  lemma TruncBounds(x: real)
    ensures x >= 0.0 ==> Trunc(x) == x.Floor
    ensures Trunc(x) as real <= x < Trunc(x) as real + 1.0 || Trunc(x) as real - 1.0 < x <= Trunc(x) as real
    ensures -1.0 < x < 1.0 ==> Trunc(x) == 0
  {
  }

  /** A float that may be +Inf, the sentinel Go's math.Inf(1) provides. */
  datatype Ext = Fin(v: real) | Inf

  function ExtAdd(a: Ext, b: Ext): Ext {
    if a.Fin? && b.Fin? then Fin(a.v + b.v) else Inf
  }

  /** a < b on the extended reals: Inf is larger than every finite value and
      Inf < Inf is false. */
  predicate ExtLess(a: Ext, b: Ext) {
    match (a, b)
    case (Fin(x), Fin(y)) => x < y
    case (Fin(_), Inf) => true
    case (Inf, _) => false
  }

  lemma MulPositive(a: real, b: real)
    requires a > 0.0 && b > 0.0
    ensures a * b > 0.0
  {
  }

  lemma SqNonNegative(a: real)
    ensures Sq(a) >= 0.0
  {
    SqIsProduct(a);
  }

  lemma SqPositive(a: real)
    requires a != 0.0
    ensures Sq(a) > 0.0
  {
    var h := a / 2.0;
    if a > 0.0 {
      MulPositive(a, h);
      SqIsProduct(a);
      assert Sq(a) == 2.0 * (a * h);
    } else {
      MulPositive(-a, -h);
      SqIsProduct(a);
      assert Sq(a) == 2.0 * ((-a) * (-h));
    }
  }

  /** Squaring is monotone on the non-negative reals. */
  lemma SqMonotone(a: real, b: real)
    requires 0.0 <= a <= b
    ensures Sq(a) <= Sq(b)
  {
    SqIsProduct(a);
    SqIsProduct(b);
  }

  /** Squaring is strictly monotone on the non-negative reals. */
  lemma SqStrictlyMonotone(a: real, b: real)
    requires 0.0 <= a < b
    ensures Sq(a) < Sq(b)
  {
    var p := b - a;
    var q := b + a;
    MulPositive(p, q);
    SqIsProduct(a);
    SqIsProduct(b);
    assert Sq(b) - Sq(a) == p * q;
  }

  lemma SqOfProduct(k: real, a: real)
    ensures Sq(k * a) == Sq(k) * Sq(a)
  {
    SqIsProduct(k * a);
    SqIsProduct(k);
    SqIsProduct(a);
    assert (k * a) * (k * a) == (k * k) * (a * a);
  }

  lemma SqOfNegation(a: real)
    ensures Sq(-a) == Sq(a)
  {
    SqIsProduct(-a);
    SqIsProduct(a);
  }

  /** Scaling a vector by k scales its squared length by k squared. */
  lemma LenSqScale(v: Vec2, k: real)
    ensures LenSq(Vec2(k * v.x, k * v.y)) == Sq(k) * LenSq(v)
  {
    SqIsProduct(k * v.x);
    SqIsProduct(k * v.y);
    SqIsProduct(k);
    SqIsProduct(v.x);
    SqIsProduct(v.y);
  }

  /** Only the zero vector has zero squared length. */
  lemma LenSqPositive(v: Vec2)
    requires v.x != 0.0 || v.y != 0.0
    ensures LenSq(v) > 0.0
  {
    SqNonNegative(v.x);
    SqNonNegative(v.y);
    if v.x != 0.0 { SqPositive(v.x); } else { SqPositive(v.y); }
  }
}
