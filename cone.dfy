/** The 90-degree view cone of backend/logic/aoi.go, stated without square
    roots or normalisation. */
module Cone {
  import opened Geometry

  /** The cone test "cos(angle between d and look) >= cos(45 degrees)",
      written without square roots:  d.L >= |d||L| / sqrt 2  holds exactly when
      d.L >= 0 and 2 (d.L)^2 >= |d|^2 |L|^2. */
  predicate ConeTest(dot: real, dd: real, ll: real) {
    dot >= 0.0 && 2.0 * Sq(dot) >= dd * ll
  }

  predicate InCone(d: Vec2, look: Vec2) {
    ConeTest(Dot(d, look), LenSq(d), LenSq(look))
  }

  lemma ScaleCompare(k: real, a: real, b: real)
    requires k > 0.0
    ensures k * a >= k * b <==> a >= b
  {
    if a > b {
      MulPositive(k, a - b);
      assert k * (a - b) == k * a - k * b;
    } else if a < b {
      MulPositive(k, b - a);
      assert k * (b - a) == k * b - k * a;
    }
  }

  lemma ScaleSign(k: real, a: real)
    requires k > 0.0
    ensures k * a >= 0.0 <==> a >= 0.0
  {
    if a > 0.0 {
      MulPositive(k, a);
    } else if a < 0.0 {
      MulPositive(k, -a);
      assert k * (-a) == -(k * a);
    }
  }

  /** Scaling the look vector by k > 0 scales the dot product by k and the
      squared look length by k squared, which leaves the test unchanged. */
  lemma ConeTestScale(dot: real, dd: real, ll: real, k: real, dot': real, ll': real)
    requires k > 0.0 && dot' == k * dot && ll' == Sq(k) * ll
    ensures ConeTest(dot', dd, ll') <==> ConeTest(dot, dd, ll)
  {
    SqPositive(k);
    SqOfProduct(k, dot);
    ScaleCompare(Sq(k), 2.0 * Sq(dot), dd * ll);
    ScaleSign(k, dot);
    assert 2.0 * (Sq(k) * Sq(dot)) == Sq(k) * (2.0 * Sq(dot));
    assert dd * (Sq(k) * ll) == Sq(k) * (dd * ll);
  }

  /** The cone test does not depend on the length of the look vector, so the
      source's normalisation of the look direction can be left out. */
  lemma InConeScaleInvariant(d: Vec2, look: Vec2, k: real)
    requires k > 0.0
    ensures InCone(d, Vec2(k * look.x, k * look.y)) <==> InCone(d, look)
  {
    var scaled := Vec2(k * look.x, k * look.y);
    assert Dot(d, scaled) == k * Dot(d, look);
    LenSqScale(look, k);
    ConeTestScale(Dot(d, look), LenSq(d), LenSq(look), k, Dot(d, scaled), LenSq(scaled));
  }

  /** With 2c^2 = 1, twice the square of c a b is (a^2)(b^2). */
  lemma HalfSquaredProduct(c: real, a: real, b: real)
    requires 2.0 * (c * c) == 1.0
    ensures 2.0 * Sq(c * a * b) == (a * a) * (b * b)
  {
    var x := (a * a) * (b * b);
    SqIsProduct(c * a * b);
    assert (c * a * b) * (c * a * b) == (c * c) * x;
    assert (c * c) * x == 0.5 * x;
  }

  /** The squared test is the source's cosine test.  With a = |d|, b = |look|
      and c = cos(45 degrees) (so 2c^2 = 1), the source's comparison
      normalize(d).normalize(look) >= c is  d.look >= c a b,  and that holds
      exactly when InCone(d, look). */
  lemma ConeTestIsCosineTest(d: Vec2, look: Vec2, a: real, b: real, c: real)
    requires a > 0.0 && a * a == LenSq(d)
    requires b > 0.0 && b * b == LenSq(look)
    requires c > 0.0 && 2.0 * (c * c) == 1.0
    ensures InCone(d, look) <==> Dot(d, look) >= c * a * b
  {
    var t := Dot(d, look);
    var m := c * a * b;
    MulPositive(c, a);
    MulPositive(c * a, b);
    HalfSquaredProduct(c, a, b);
    if t >= m {
      SqMonotone(m, t);
    } else if t >= 0.0 {
      SqStrictlyMonotone(t, m);
    }
  }

  lemma DotUnitX(d: Vec2)
    ensures Dot(d, Vec2(1.0, 0.0)) == d.x
  {
  }

  lemma LenSqUnitX()
    ensures LenSq(Vec2(1.0, 0.0)) == 1.0
  {
    SqIsProduct(1.0);
    SqIsProduct(0.0);
  }

  /** With the default look direction (1, 0) the cone is the quarter plane
      x >= |y|: the 90-degree wedge centred on the x axis, edges included. */
  lemma DefaultConeIsQuarterPlane(d: Vec2)
    ensures InCone(d, Vec2(1.0, 0.0)) <==> d.x >= 0.0 && d.x >= d.y && d.x >= -d.y
  {
    DotUnitX(d);
    LenSqUnitX();
    var ll := LenSq(Vec2(1.0, 0.0));
    var dd := LenSq(d);
    assert dd * ll == dd;
    assert InCone(d, Vec2(1.0, 0.0)) <==> d.x >= 0.0 && 2.0 * Sq(d.x) >= dd;
    assert dd == Sq(d.x) + Sq(d.y);
    var ay := if d.y >= 0.0 then d.y else -d.y;
    SqOfNegation(d.y);
    assert Sq(ay) == Sq(d.y);
    if d.x >= ay {
      SqMonotone(ay, d.x);
    } else if d.x >= 0.0 {
      SqStrictlyMonotone(d.x, ay);
    }
  }
}
