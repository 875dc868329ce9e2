/** study_reports.py: the Wilson score interval, over the reals and with an exact square root. */
module StudyReports {
  import opened Wrappers

  /** The two-sided 95% quantile of the normal distribution. */
  const Z: real := 1.959963984540054

  function Max(a: real, b: real): real { if a >= b then a else b }

  function Min(a: real, b: real): real { if a <= b then a else b }

  datatype Interval = Interval(lo: real, hi: real)

  datatype CountError = InvalidCounts

  function Radicand(p: real, n: real, z: real): real
    requires n > 0.0
  {
    p * (1.0 - p) / n + z * z / (4.0 * n * n)
  }

  function Proportion(successes: int, total: int): real
    requires total > 0
  {
    successes as real / total as real
  }

  function Divisor(n: real, z: real): real
    requires n > 0.0
  {
    1.0 + z * z / n
  }

  function Center(p: real, n: real, z: real): real
    requires n > 0.0
  {
    (p + z * z / (2.0 * n)) / Divisor(n, z)
  }

  /** The numerator of the half-width. */
  function Spread(p: real, n: real, sqrt: real -> real, z: real): real
    requires n > 0.0
  {
    z * sqrt(Radicand(p, n, z))
  }

  function Half(p: real, n: real, sqrt: real -> real, z: real): real
    requires n > 0.0
  {
    Spread(p, n, sqrt, z) / Divisor(n, z)
  }

  /** `wilson`; None without any trial. What follows holds for every positive z, not only the one of the source. */
  function Wilson(successes: int, total: int, sqrt: real -> real, z: real := Z): Result<Option<Interval>, CountError> {
    if !(0 <= successes <= total) then Failure(InvalidCounts)
    else if total == 0 then Success(None)
    else
      var p, n := Proportion(successes, total), total as real;
      Success(Some(Interval(Max(0.0, Center(p, n, z) - Half(p, n, sqrt, z)), Min(1.0, Center(p, n, z) + Half(p, n, sqrt, z)))))
  }

  predicate IsRoot(s: real, x: real) { s >= 0.0 && s * s == x }

  /** A square root without rounding. */
  ghost predicate Exact(sqrt: real -> real) { forall x :: x >= 0.0 ==> IsRoot(sqrt(x), x) }

  /** The score test that the interval inverts: how far p lies from x, less z*z squared standard errors of x, with
      c for z*z/n. */
  function ScoreExcess(p: real, c: real, x: real): real { (p - x) * (p - x) - c * x * (1.0 - x) }

  /** q is z times the square root. */
  predicate Discriminant(p: real, c: real, q: real) { q >= 0.0 && q * q == c * p * (1.0 - p) + c * c / 4.0 }

  // ---- The algebra, with c = z*z/n and q = z*s ----------------------------------------

  lemma SquaresGrow(a: real, b: real)
    requires 0.0 <= a < b
    ensures a * a < b * b
  {
    Positive(b - a, b + a);
    assert (b - a) * (b + a) == b * b - a * a;
  }

  lemma SquareOrder(a: real, q: real)
    requires q >= 0.0
    ensures a * a <= q * q <==> -q <= a <= q
    ensures a * a == q * q <==> a == q || a == -q
  {
    var m := if a >= 0.0 then a else -a;
    assert m * m == a * a;
    if m < q { SquaresGrow(m, q); }
    if m > q { SquaresGrow(q, m); }
  }

  lemma Positive(a: real, b: real)
    requires a > 0.0 && b > 0.0
    ensures a * b > 0.0
  {
  }

  lemma PositiveQuotient(a: real, n: real)
    requires a > 0.0 && n > 0.0
    ensures a / n > 0.0
  {
  }

  lemma NotNegative(a: real, b: real)
    requires a >= 0.0 && b >= 0.0
    ensures a * b >= 0.0
  {
  }

  /** `dx` is the divisor times x, `b` the divisor times the center. */
  lemma ExcessFactors(p: real, c: real, q: real, x: real, d: real)
    requires Discriminant(p, c, q) && d == 1.0 + c
    ensures d * ScoreExcess(p, c, x) == (d * x - (p + c / 2.0)) * (d * x - (p + c / 2.0)) - q * q
  {
    var b := p + c / 2.0;
    assert b * b == p * p + p * c + c * c / 4.0;
    assert b * b - q * q == p * p * d;
    Expanded(p, c, x, d);
    assert (d * x - b) * (d * x - b) == d * d * x * x - 2.0 * b * d * x + b * b;
    assert d * (d * x * x - 2.0 * b * x + p * p) == d * d * x * x - 2.0 * b * d * x + d * p * p;
  }

  lemma Expanded(p: real, c: real, x: real, d: real)
    requires d == 1.0 + c
    ensures ScoreExcess(p, c, x) == d * x * x - 2.0 * (p + c / 2.0) * x + p * p
  {
    assert (p - x) * (p - x) == p * p - 2.0 * p * x + x * x;
    assert c * x * (1.0 - x) == c * x - c * x * x;
    assert d * x * x == x * x + c * x * x;
    assert 2.0 * (p + c / 2.0) * x == 2.0 * p * x + c * x;
  }

  /** q is at most b. */
  lemma CenterCovers(p: real, c: real, q: real)
    requires 0.0 <= p <= 1.0 && c > 0.0 && Discriminant(p, c, q)
    ensures q <= p + c / 2.0
  {
    var b := p + c / 2.0;
    var pp, cp, cpp := p * p, c * p, c * p * p;
    assert b * b == pp + cp + c * c / 4.0;
    assert c * p * (1.0 - p) == cp - cpp;
    assert b * b - q * q == pp + cpp;
    NotNegative(p, p);
    NotNegative(c, pp);
    assert cpp == c * pp;
    SquareOrder(q, b);
  }

  /** d * p lies within q of b. */
  lemma ProportionCovered(p: real, c: real, q: real)
    requires 0.0 <= p <= 1.0 && c > 0.0 && Discriminant(p, c, q)
    ensures -q <= c * (0.5 - p) <= q
  {
    var g := p * (1.0 - p);
    var u := c * (0.5 - p);
    NotNegative(p, 1.0 - p);
    NotNegative(c, g);
    NotNegative(c * c, g);
    assert c * p * (1.0 - p) == c * g;
    HalfSquare(p, c);
    assert u * u == c * c / 4.0 - c * c * g;
    SquareOrder(u, q);
  }

  lemma HalfSquare(p: real, c: real)
    ensures (c * (0.5 - p)) * (c * (0.5 - p)) == c * c / 4.0 - c * c * (p * (1.0 - p))
  {
    var h := 0.5 - p;
    assert h * h == 0.25 - p * (1.0 - p);
    assert (c * h) * (c * h) == c * c * (h * h);
  }

  /** Multiplied by the divisor, the endpoints are b - q and b + q: within [0, d], around d * p. */
  lemma EndpointsOrdered(p: real, c: real, q: real)
    requires 0.0 <= p <= 1.0 && c > 0.0 && Discriminant(p, c, q)
    ensures 0.0 <= p + c / 2.0 - q <= p + c * p <= p + c / 2.0 + q <= 1.0 + c
  {
    CenterCovers(p, c, q);
    ProportionCovered(p, c, q);
    assert c * (0.5 - p) == c / 2.0 - c * p;
    assert c * (1.0 - p) * (1.0 - (1.0 - p)) == c * p * (1.0 - p);
    CenterCovers(1.0 - p, c, q);
  }

  // ---- What the interval promises ---------------------------------------------------------

  /** z*z/n */
  function Coefficient(n: real, z: real): real
    requires n > 0.0
  {
    z * z / n
  }

  /** The quantities of one call, and how they are related; `d` is the divisor. */
  predicate Related(p: real, c: real, d: real, q: real, center: real, half: real) {
    && c > 0.0 && d == 1.0 + c && Discriminant(p, c, q)
    && center * d == p + c / 2.0 && half * d == q
  }

  lemma Quantities(p: real, n: real, sqrt: real -> real, z: real)
    requires z > 0.0 && 0.0 <= p <= 1.0 && n >= 1.0 && IsRoot(sqrt(Radicand(p, n, z)), Radicand(p, n, z))
    ensures Related(p, Coefficient(n, z), Divisor(n, z), Spread(p, n, sqrt, z), Center(p, n, z), Half(p, n, sqrt, z))
  {
    hide Discriminant, Radicand, Coefficient, Divisor, Center, Half, Spread, IsRoot;
    SpreadDiscriminant(p, n, sqrt, z);
    CenterScaled(p, n, z);
    HalfScaled(p, n, sqrt, z);
  }

  lemma HalfScaled(p: real, n: real, sqrt: real -> real, z: real)
    requires n >= 1.0 && Divisor(n, z) > 0.0
    ensures Half(p, n, sqrt, z) * Divisor(n, z) == Spread(p, n, sqrt, z)
  {
    hide Divisor, Spread;
    Quotient(Spread(p, n, sqrt, z), Divisor(n, z));
  }

  lemma SpreadDiscriminant(p: real, n: real, sqrt: real -> real, z: real)
    requires z > 0.0 && n >= 1.0 && IsRoot(sqrt(Radicand(p, n, z)), Radicand(p, n, z))
    ensures Discriminant(p, Coefficient(n, z), Spread(p, n, sqrt, z)) && Coefficient(n, z) > 0.0
  {
    hide Discriminant;
    QuantitiesOf(z, p, n, sqrt(Radicand(p, n, z)), Coefficient(n, z), Spread(p, n, sqrt, z));
  }

  lemma CenterScaled(p: real, n: real, z: real)
    requires n >= 1.0 && Coefficient(n, z) > 0.0
    ensures Center(p, n, z) * Divisor(n, z) == p + Coefficient(n, z) / 2.0 && Divisor(n, z) == 1.0 + Coefficient(n, z)
  {
    Halved(z * z, n);
    hide Divisor;
    assert Divisor(n, z) == 1.0 + Coefficient(n, z) by { DivisorIs(n, z); }
    Quotient(p + z * z / (2.0 * n), Divisor(n, z));
  }

  lemma DivisorIs(n: real, z: real)
    requires n >= 1.0
    ensures Divisor(n, z) == 1.0 + Coefficient(n, z)
  {
  }

  lemma Quotient(a: real, d: real)
    requires d > 0.0
    ensures a / d * d == a
  {
  }

  lemma QuantitiesOf(z: real, p: real, n: real, s: real, c: real, q: real)
    requires z > 0.0 && n >= 1.0 && s >= 0.0 && s * s == p * (1.0 - p) / n + z * z / (4.0 * n * n)
    requires c == z * z / n && q == z * s
    ensures Discriminant(p, c, q) && c > 0.0
  {
    SquareQuotient(z, n);
    NotNegative(z, s);
    assert q * q == z * z * (s * s);
    Fractions(z * z, p * (1.0 - p), n);
    assert c * p * (1.0 - p) == c * (p * (1.0 - p));
  }

  lemma SquareQuotient(z: real, n: real)
    requires z > 0.0 && n > 0.0
    ensures z * z / n > 0.0
  {
    PositiveQuotient(z, n);
    Positive(z, z / n);
    assert z * (z / n) == z * z / n;
  }

  lemma Halved(a: real, n: real)
    requires n >= 1.0
    ensures a / (2.0 * n) == a / n / 2.0
  {
    var y := a / (2.0 * n);
    assert y * (2.0 * n) == a;
    SameScale(2.0 * y, a / n, n);
  }

  lemma Fractions(zz: real, g: real, n: real)
    requires n >= 1.0
    ensures zz * (g / n + zz / (4.0 * n * n)) == (zz / n) * g + (zz / n) * (zz / n) / 4.0
  {
    var c, h := zz / n, g / n;
    assert c * n == zz && h * n == g;
    assert zz * h == c * n * h == c * g;
    Quarter(zz, n);
  }

  lemma Quarter(zz: real, n: real)
    requires n >= 1.0
    ensures zz * (zz / (4.0 * n * n)) == (zz / n) * (zz / n) / 4.0
  {
    var c := zz / n;
    assert c * n == zz;
    var m := 4.0 * n * n;
    Positive(n, n);
    assert m > 0.0;
    var f := zz / m;
    assert f * m == zz;
    assert (4.0 * n * f) * n == c * n;
    assert 4.0 * n * f == c;
    assert zz * f == c * n * f == c * (n * f) == c * c / 4.0;
  }

  /** The endpoints lie in [0, 1], around the observed proportion, so neither clamp ever changes one. */
  lemma Ordered(p: real, c: real, d: real, q: real, center: real, half: real)
    requires 0.0 <= p <= 1.0 && Related(p, c, d, q, center, half)
    ensures 0.0 <= center - half <= p <= center + half <= 1.0
  {
    hide Discriminant;
    EndpointsOrdered(p, c, q);
    Times(p, c, d);
    Distributes(center, half, d);
    OrderedMultiples(d, 0.0, center - half, 0.0, p + c / 2.0 - q);
    OrderedMultiples(d, center - half, p, p + c / 2.0 - q, p + c * p);
    OrderedMultiples(d, p, center + half, p + c * p, p + c / 2.0 + q);
    OrderedMultiples(d, center + half, 1.0, p + c / 2.0 + q, d);
  }

  lemma Times(p: real, c: real, d: real)
    requires d == 1.0 + c
    ensures p * d == p + c * p
  {
  }

  lemma OrderedMultiples(d: real, a: real, b: real, ad: real, bd: real)
    requires d > 0.0 && a * d == ad && b * d == bd && ad <= bd
    ensures a <= b
  {
    if a > b { Positive(a - b, d); }
  }

  lemma Distributes(a: real, b: real, d: real)
    ensures (a - b) * d == a * d - b * d && (a + b) * d == a * d + b * d
  {
  }

  /** The interval is exactly the set of proportions that the score test does not reject, and its endpoints are
      exactly the roots of (p - x)^2 = z^2 x (1 - x) / n. */
  lemma TestedBy(p: real, c: real, d: real, q: real, center: real, half: real, x: real)
    requires Related(p, c, d, q, center, half)
    ensures var e := ScoreExcess(p, c, x);
      && (e <= 0.0 <==> center - half <= x <= center + half)
      && (e == 0.0 <==> x == center - half || x == center + half)
  {
    hide ScoreExcess, Discriminant;
    ExcessFactors(p, c, q, x, d);
    NonNegativeRoot(p, c, q);
    TestOf(d, ScoreExcess(p, c, x), d * x - (p + c / 2.0), q);
    Shifted(d, p + c / 2.0, q, center, half, x);
  }

  lemma NonNegativeRoot(p: real, c: real, q: real)
    requires Discriminant(p, c, q)
    ensures q >= 0.0
  {
  }

  /** `t` is the distance of the scaled x from the scaled center. */
  lemma TestOf(d: real, e: real, t: real, q: real)
    requires d > 0.0 && q >= 0.0 && d * e == t * t - q * q
    ensures (e <= 0.0 <==> -q <= t <= q) && (e == 0.0 <==> t == q || t == -q)
  {
    SquareOrder(t, q);
    Sign(d, e);
  }

  lemma Shifted(d: real, b: real, q: real, center: real, half: real, x: real)
    requires d > 0.0 && center * d == b && half * d == q
    ensures -q <= d * x - b <==> center - half <= x
    ensures d * x - b <= q <==> x <= center + half
    ensures (d * x - b == -q <==> x == center - half) && (d * x - b == q <==> x == center + half)
  {
    Distributes(center, half, d);
    Compare(center - half, x, d);
    Compare(x, center + half, d);
  }

  lemma Sign(d: real, e: real)
    requires d > 0.0
    ensures (d * e <= 0.0 <==> e <= 0.0) && (d * e == 0.0 <==> e == 0.0)
  {
    if e > 0.0 { Positive(d, e); }
    if e < 0.0 { Positive(d, -e); }
  }

  lemma Compare(a: real, b: real, d: real)
    requires d > 0.0
    ensures (a <= b <==> a * d <= b * d) && (a == b <==> a * d == b * d)
  {
    if a < b { Positive(b - a, d); }
    if a > b { Positive(a - b, d); }
  }

  /** The interval around the opposite proportion is the reflected one. */
  lemma Reflects(p: real, c: real, d: real, q: real, center: real, half: real, q': real, center': real, half': real)
    requires Related(p, c, d, q, center, half) && Related(1.0 - p, c, d, q', center', half')
    ensures center' - half' == 1.0 - (center + half) && center' + half' == 1.0 - (center - half)
  {
    SameRoot(p, c, q, q');
    hide Discriminant;
    Mirrored(p, c, d, center, center');
    SameScale(half, half', d);
  }

  lemma SameRoot(p: real, c: real, q: real, q': real)
    requires Discriminant(p, c, q) && Discriminant(1.0 - p, c, q')
    ensures q == q'
  {
    assert c * (1.0 - p) * (1.0 - (1.0 - p)) == c * p * (1.0 - p);
    SquareOrder(q, q');
  }

  lemma Mirrored(p: real, c: real, d: real, center: real, center': real)
    requires d == 1.0 + c && d > 0.0 && center * d == p + c / 2.0 && center' * d == 1.0 - p + c / 2.0
    ensures center' == 1.0 - center
  {
    Distributes(center, center', d);
    SameScale(center + center', 1.0, d);
  }

  lemma SameScale(a: real, b: real, d: real)
    requires d > 0.0 && a * d == b * d
    ensures a == b
  {
    Compare(a, b, d);
  }

  // ---- What `wilson` promises ---------------------------------------------------------------

  lemma ProportionBounds(successes: int, total: int)
    requires 0 <= successes <= total && total > 0
    ensures 0.0 <= Proportion(successes, total) <= 1.0
    ensures Proportion(total - successes, total) == 1.0 - Proportion(successes, total)
  {
    var k, n := successes as real, total as real;
    var a, b := (n - k) / n, k / n;
    assert a * n == n - k && b * n == k;
    Distributes(a, b, n);
    SameScale(a + b, 1.0, n);
    Compare(0.0, b, n);
    Compare(b, 1.0, n);
  }

  lemma RadicandIsPositive(p: real, n: real, z: real)
    requires z > 0.0 && 0.0 <= p <= 1.0 && n >= 1.0
    ensures Radicand(p, n, z) >= 0.0
  {
    NotNegative(p, 1.0 - p);
    QuotientNotNegative(p * (1.0 - p), n);
    Positive(n, n);
    QuotientNotNegative(z * z, 4.0 * n * n);
  }

  lemma QuotientNotNegative(a: real, n: real)
    requires a >= 0.0 && n > 0.0
    ensures a / n >= 0.0
  {
  }

  /** The interval is the one around the center, with both clamps redundant, and holds the observed proportion. */
  lemma WilsonHoldsProportion(successes: int, total: int, sqrt: real -> real, z: real)
    requires z > 0.0 && 0 <= successes <= total && total > 0 && Exact(sqrt)
    ensures var p, n := Proportion(successes, total), total as real;
      var (lo, hi) := (Center(p, n, z) - Half(p, n, sqrt, z), Center(p, n, z) + Half(p, n, sqrt, z));
      Wilson(successes, total, sqrt, z) == Success(Some(Interval(lo, hi))) && 0.0 <= lo <= p <= hi <= 1.0
  {
    hide Center, Half, Radicand, Divisor, Spread, Proportion, IsRoot;
    var p, n := Proportion(successes, total), total as real;
    ProportionBounds(successes, total);
    RadicandIsPositive(p, n, z);
    Quantities(p, n, sqrt, z);
    Ordered(p, Coefficient(n, z), Divisor(n, z), Spread(p, n, sqrt, z), Center(p, n, z), Half(p, n, sqrt, z));
  }

  /** The interval is exactly the set of proportions that the score test does not reject, and its endpoints are
      exactly the roots of (p - x)^2 = z^2 x (1 - x) / n. */
  lemma WilsonInvertsScoreTest(successes: int, total: int, sqrt: real -> real, z: real, x: real)
    requires z > 0.0 && 0 <= successes <= total && total > 0 && Exact(sqrt)
    ensures var p, c, i := Proportion(successes, total), Coefficient(total as real, z), Wilson(successes, total, sqrt, z).value.value;
      && (ScoreExcess(p, c, x) <= 0.0 <==> i.lo <= x <= i.hi)
      && (ScoreExcess(p, c, x) == 0.0 <==> x == i.lo || x == i.hi)
  {
    hide Wilson, ScoreExcess, Coefficient, Center, Half, Radicand, Divisor, Spread, Proportion, IsRoot;
    var p, n := Proportion(successes, total), total as real;
    ProportionBounds(successes, total);
    RadicandIsPositive(p, n, z);
    WilsonHoldsProportion(successes, total, sqrt, z);
    Quantities(p, n, sqrt, z);
    TestedBy(p, Coefficient(n, z), Divisor(n, z), Spread(p, n, sqrt, z), Center(p, n, z), Half(p, n, sqrt, z), x);
  }

  /** Counting failures instead of successes reflects the interval. */
  lemma WilsonReflects(successes: int, total: int, sqrt: real -> real, z: real)
    requires z > 0.0 && 0 <= successes <= total && total > 0 && Exact(sqrt)
    ensures var i, j := Wilson(successes, total, sqrt, z).value.value, Wilson(total - successes, total, sqrt, z).value.value;
      j.lo == 1.0 - i.hi && j.hi == 1.0 - i.lo
  {
    hide Wilson, Coefficient, Center, Half, Radicand, Divisor, Spread, Proportion, IsRoot;
    var p, n := Proportion(successes, total), total as real;
    var p' := Proportion(total - successes, total);
    ProportionBounds(successes, total);
    RadicandIsPositive(p, n, z);
    RadicandIsPositive(p', n, z);
    WilsonHoldsProportion(successes, total, sqrt, z);
    WilsonHoldsProportion(total - successes, total, sqrt, z);
    Quantities(p, n, sqrt, z);
    Quantities(p', n, sqrt, z);
    Reflects(p, Coefficient(n, z), Divisor(n, z), Spread(p, n, sqrt, z), Center(p, n, z), Half(p, n, sqrt, z),
             Spread(p', n, sqrt, z), Center(p', n, z), Half(p', n, sqrt, z));
  }
}
