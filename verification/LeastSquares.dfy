/** coordinator/math.go: the slope of the best-fit line, over exact reals. */
module LeastSquares {
  import opened Wrappers

  const NANOS_PER_SECOND := 1_000_000_000

  /** A sample: a time in nanoseconds and a number of users. */
  datatype Point = Point(x: int, y: int)

  /** Seconds since the epoch, rounded down. */
  function Unix(t: int): int {
    t / NANOS_PER_SECOND
  }

  /** A point of the plane the line is fitted in: whole seconds since some origin, and users. */
  datatype XY = XY(x: real, y: real)

  function Place(p: Point, origin: int): XY {
    XY((Unix(p.x) - origin) as real, p.y as real)
  }

  function Coords(points: seq<Point>, origin: int): (c: seq<XY>)
    ensures |c| == |points| && forall i | 0 <= i < |c| :: c[i] == Place(points[i], origin)
  {
    if points == [] then [] else Coords(points[..|points| - 1], origin) + [Place(points[|points| - 1], origin)]
  }

  function FirstSecond(points: seq<Point>): int {
    if points == [] then 0 else Unix(points[0].x)
  }

  /** The number of points and the sums of x, y, x squared and x times y. */
  datatype Moments = Moments(n: real, x: real, y: real, xx: real, xy: real)

  function Times(a: real, b: real): real { a * b }

  function Extend(m: Moments, p: XY): Moments {
    Moments(m.n + 1.0, m.x + p.x, m.y + p.y, m.xx + Times(p.x, p.x), m.xy + Times(p.x, p.y))
  }

  function MomentsOf(c: seq<XY>): Moments {
    if c == [] then Moments(0.0, 0.0, 0.0, 0.0, 0.0) else Extend(MomentsOf(c[..|c| - 1]), c[|c| - 1])
  }

  lemma {:induction false} CountsPoints(c: seq<XY>)
    ensures MomentsOf(c).n == |c| as real
  {
    if c != [] {
      CountsPoints(c[..|c| - 1]);
    }
  }

  /** n times the sum of products, less the product of the sums. */
  function Covariation(n: real, x: real, y: real, xy: real): real { Times(n, xy) - Times(x, y) }

  function Numerator(m: Moments): real { Covariation(m.n, m.x, m.y, m.xy) }
  function Denominator(m: Moments): real { Covariation(m.n, m.x, m.x, m.xx) }

  /** The quotient, or nothing where the division is by zero and the result compares with no threshold. */
  function SlopeOf(c: seq<XY>): Option<real> {
    Divide(Numerator(MomentsOf(c)), Denominator(MomentsOf(c)))
  }

  lemma PrefixMoments(c: seq<XY>, i: nat)
    requires i < |c|
    ensures MomentsOf(c[..i + 1]) == Extend(MomentsOf(c[..i]), c[i])
  {
    assert c[..i + 1][..i] == c[..i];
  }

  lemma Product(a: real, b: real)
    ensures Times(a, b) == a * b
  {
  }

  method Slope(points: seq<Point>) returns (r: Option<real>)
    ensures r == SlopeOf(Coords(points, FirstSecond(points)))
  {
    hide MomentsOf, SlopeOf, Times, Divide;
    var n := |points| as real;
    var sumXY, sumX, sumY, sumXX := 0.0, 0.0, 0.0, 0.0;
    ghost var c := Coords(points, FirstSecond(points));
    ghost var done := 0.0;
    EmptyMoments(c);
    for i := 0 to |points|
      invariant MomentsOf(c[..i]) == Moments(done, sumX, sumY, sumXX, sumXY)
    {
      var x := (Unix(points[i].x) - Unix(points[0].x)) as real;
      var y := points[i].y as real;
      assert c[i] == XY(x, y);
      PrefixMoments(c, i);
      Product(x, x);
      Product(x, y);
      sumXY := sumXY + x * y;
      sumX := sumX + x;
      sumY := sumY + y;
      sumXX := sumXX + x * x;
      done := done + 1.0;
    }
    assert c[..|points|] == c;
    r := Divide((n * sumXY) - (sumX * sumY), (n * sumXX) - (sumX * sumX));
    Product(n, sumXY);
    Product(n, sumXX);
    Product(sumX, sumY);
    Product(sumX, sumX);
    SlopeIsQuotient(c, n, sumX, sumY, sumXX, sumXY);
  }

  function Divide(a: real, b: real): Option<real> {
    if b == 0.0 then None else Some(a / b)
  }

  lemma SlopeIsQuotient(c: seq<XY>, n: real, x: real, y: real, xx: real, xy: real)
    requires MomentsOf(c) == Moments(MomentsOf(c).n, x, y, xx, xy) && n == |c| as real
    ensures SlopeOf(c) == Divide(Covariation(n, x, y, xy), Covariation(n, x, x, xx))
  {
    hide MomentsOf, Divide, Covariation;
    CountsPoints(c);
  }

  lemma EmptyMoments(c: seq<XY>)
    ensures MomentsOf(c[..0]) == Moments(0.0, 0.0, 0.0, 0.0, 0.0)
  {
  }

  // ----- arithmetic over the reals -----

  ghost function Square(r: real): real { Times(r, r) }

  lemma SquareSign(d: real)
    ensures 0.0 <= Square(d)
    ensures Square(d) == 0.0 <==> d == 0.0
  {
    hide Times;
    if d < 0.0 {
      PositiveProduct(-d, -d);
      BothNegated(d);
    } else if d == 0.0 {
      ZeroSquare();
    } else {
      PositiveProduct(d, d);
    }
  }

  lemma BothNegated(d: real)
    ensures Times(-d, -d) == Times(d, d)
  {
  }

  lemma ZeroSquare()
    ensures Times(0.0, 0.0) == 0.0
  {
  }

  lemma PositiveProduct(a: real, b: real)
    requires 0.0 < a && 0.0 < b
    ensures 0.0 < Times(a, b)
  {
  }

  lemma ZeroProduct(a: real, b: real)
    requires a * b == 0.0 && a != 0.0
    ensures b == 0.0
  {
    assert b == (a * b) / a;
  }

  // ----- the denominator -----

  ghost function Spread(c: seq<XY>, x: real): real {
    if c == [] then 0.0 else Spread(c[..|c| - 1], x) + Square(x - c[|c| - 1].x)
  }

  ghost function SpreadFromMoments(m: Moments, x: real): real {
    m.n * (x * x) - 2.0 * (x * m.x) + m.xx
  }

  lemma SpreadStep(m: Moments, p: XY, x: real)
    ensures SpreadFromMoments(Extend(m, p), x) == SpreadFromMoments(m, x) + Square(x - p.x)
  {
  }

  lemma NoSpread(x: real)
    ensures SpreadFromMoments(MomentsOf([]), x) == 0.0
  {
  }

  lemma {:induction false} SpreadClosed(c: seq<XY>, x: real)
    ensures Spread(c, x) == SpreadFromMoments(MomentsOf(c), x)
  {
    hide SpreadFromMoments, Extend, Square;
    if c == [] {
      NoSpread(x);
    } else {
      SpreadClosed(c[..|c| - 1], x);
      SpreadStep(MomentsOf(c[..|c| - 1]), c[|c| - 1], x);
    }
  }

  ghost predicate SameX(c: seq<XY>, x: real) {
    forall p | p in c :: p.x == x
  }

  lemma NoneDiffer(x: real)
    ensures SameX([], x)
  {
  }

  lemma SameXStep(c: seq<XY>, x: real)
    requires c != []
    ensures SameX(c, x) <==> SameX(c[..|c| - 1], x) && c[|c| - 1].x == x
  {
    assert c == c[..|c| - 1] + [c[|c| - 1]];
  }

  lemma {:induction false} SpreadSign(c: seq<XY>, x: real)
    ensures 0.0 <= Spread(c, x)
    ensures Spread(c, x) == 0.0 <==> SameX(c, x)
  {
    hide SameX, Square;
    if c == [] {
      NoneDiffer(x);
    } else {
      SpreadSign(c[..|c| - 1], x);
      SquareSign(x - c[|c| - 1].x);
      SameXStep(c, x);
    }
  }

  lemma DenominatorStep(m: Moments, p: XY)
    ensures Denominator(Extend(m, p)) == Denominator(m) + SpreadFromMoments(m, p.x)
  {
  }

  /** The denominator is never negative, and zero exactly when no two points differ in x. */
  lemma {:induction false} DenominatorPositive(c: seq<XY>)
    ensures 0.0 <= Denominator(MomentsOf(c))
    ensures Denominator(MomentsOf(c)) == 0.0 <==> c == [] || SameX(c, c[0].x)
  {
    hide SameX, Denominator, Spread, SpreadFromMoments, Extend;
    if c == [] {
      NoDenominator();
    } else {
      var init, p := c[..|c| - 1], c[|c| - 1];
      DenominatorPositive(init);
      DenominatorStep(MomentsOf(init), p);
      SpreadClosed(init, p.x);
      SpreadSign(init, p.x);
      SameXStep(c, c[0].x);
      if init == [] {
        NoneDiffer(p.x);
      } else {
        SameXFrom(init, p.x);
      }
    }
  }

  lemma NoDenominator()
    ensures Denominator(MomentsOf([])) == 0.0
  {
  }

  lemma SameXFrom(c: seq<XY>, x: real)
    requires c != []
    ensures SameX(c, x) <==> SameX(c, c[0].x) && x == c[0].x
  {
  }

  // ----- the origin -----

  ghost function Moved(p: XY, o: real): XY {
    XY(p.x - o, p.y)
  }

  ghost function Shift(c: seq<XY>, o: real): seq<XY> {
    if c == [] then [] else Shift(c[..|c| - 1], o) + [Moved(c[|c| - 1], o)]
  }

  ghost function ShiftMoments(m: Moments, o: real): Moments {
    Moments(m.n, m.x - Times(m.n, o), m.y,
            m.xx - 2.0 * Times(o, m.x) + Times(m.n, Times(o, o)), m.xy - Times(o, m.y))
  }

  lemma ShiftTerms(n: real, sx: real, sy: real, x: real, y: real, o: real, u: real)
    requires u == x - o
    ensures Times(u, u) == Times(x, x) - 2.0 * Times(o, x) + Times(o, o)
    ensures Times(u, y) == Times(x, y) - Times(o, y)
    ensures Times(n + 1.0, o) == Times(n, o) + o
    ensures Times(n + 1.0, Times(o, o)) == Times(n, Times(o, o)) + Times(o, o)
    ensures Times(o, sx + x) == Times(o, sx) + Times(o, x)
    ensures Times(o, sy + y) == Times(o, sy) + Times(o, y)
  {
    assert u * u == x * x - 2.0 * (o * x) + o * o;
  }

  lemma ShiftStep(m: Moments, p: XY, o: real)
    ensures ShiftMoments(Extend(m, p), o) == Extend(ShiftMoments(m, o), Moved(p, o))
  {
    hide Times;
    ShiftTerms(m.n, m.x, m.y, p.x, p.y, o, Moved(p, o).x);
  }

  lemma {:induction false} ShiftedMoments(c: seq<XY>, o: real)
    ensures MomentsOf(Shift(c, o)) == ShiftMoments(MomentsOf(c), o)
  {
    hide ShiftMoments;
    if c == [] {
      NothingShifted(o);
    } else {
      var init, p := c[..|c| - 1], c[|c| - 1];
      ShiftedMoments(init, o);
      ShiftStep(MomentsOf(init), p, o);
      assert Shift(c, o)[..|Shift(c, o)| - 1] == Shift(init, o);
    }
  }

  lemma NothingShifted(o: real)
    ensures ShiftMoments(MomentsOf([]), o) == MomentsOf([])
  {
  }

  lemma QuotientUnshifted(m: Moments, o: real)
    ensures Numerator(ShiftMoments(m, o)) == Numerator(m)
    ensures Denominator(ShiftMoments(m, o)) == Denominator(m)
  {
  }

  lemma {:induction false} CoordsShift(points: seq<Point>, o: int, o': int)
    ensures Coords(points, o') == Shift(Coords(points, o), (o' - o) as real)
  {
    if points != [] {
      CoordsShift(points[..|points| - 1], o, o');
      var c := Coords(points, o);
      assert c[..|c| - 1] == Coords(points[..|points| - 1], o);
    }
  }

  /** The slope does not depend on which second counts as zero. */
  lemma OriginFree(points: seq<Point>, o: int, o': int)
    ensures SlopeOf(Coords(points, o)) == SlopeOf(Coords(points, o'))
  {
    hide Numerator, Denominator;
    CoordsShift(points, o, o');
    ShiftedMoments(Coords(points, o), (o' - o) as real);
    QuotientUnshifted(MomentsOf(Coords(points, o)), (o' - o) as real);
  }

  ghost predicate DistinctSeconds(points: seq<Point>) {
    exists p, q :: p in points && q in points && Unix(p.x) != Unix(q.x)
  }

  /** The slope is a number exactly when two samples fall in different seconds. */
  lemma DefinedExactly(points: seq<Point>, origin: int)
    ensures SlopeOf(Coords(points, origin)).Some? <==> DistinctSeconds(points)
  {
    hide MomentsOf, Denominator, Numerator;
    var c := Coords(points, origin);
    DenominatorPositive(c);
    if c != [] && !SameX(c, c[0].x) {
      var z :| z in c && z.x != c[0].x;
      var i :| 0 <= i < |c| && c[i] == z;
      assert points[i] in points && points[0] in points;
    }
    if DistinctSeconds(points) {
      NotSameX(points, origin);
    }
  }

  lemma NotSameX(points: seq<Point>, origin: int)
    requires DistinctSeconds(points)
    ensures points != [] && !SameX(Coords(points, origin), Coords(points, origin)[0].x)
  {
    var c := Coords(points, origin);
    var p, q :| p in points && q in points && Unix(p.x) != Unix(q.x);
    assert Place(p, origin) in c && Place(q, origin) in c;
  }

  // ----- the fit -----

  /** How far p lies above the line y = a + b * x. */
  ghost function Gap(p: XY, a: real, b: real): real { p.y - a - b * p.x }

  ghost function Height(p: XY, d: real, e: real): real { d + e * p.x }

  /** The squared error of the line y = a + b * x. */
  ghost function SquaredError(c: seq<XY>, a: real, b: real): real {
    if c == [] then 0.0 else SquaredError(c[..|c| - 1], a, b) + Square(Gap(c[|c| - 1], a, b))
  }

  ghost function LineSquares(c: seq<XY>, d: real, e: real): real {
    if c == [] then 0.0 else LineSquares(c[..|c| - 1], d, e) + Square(Height(c[|c| - 1], d, e))
  }

  /** The residuals of the line, summed, and weighted by x. Both vanish at the best fit. */
  ghost function Residual(m: Moments, a: real, b: real): real { m.y - m.n * a - b * m.x }
  ghost function ResidualX(m: Moments, a: real, b: real): real { m.xy - a * m.x - b * m.xx }

  lemma ResidualStep(m: Moments, p: XY, a: real, b: real)
    ensures Residual(Extend(m, p), a, b) == Residual(m, a, b) + Gap(p, a, b)
    ensures ResidualX(Extend(m, p), a, b) == ResidualX(m, a, b) + Gap(p, a, b) * p.x
  {
  }

  ghost function Cross(m: Moments, a: real, b: real, d: real, e: real): real {
    d * Residual(m, a, b) + e * ResidualX(m, a, b)
  }

  lemma CrossStep(m: Moments, p: XY, a: real, b: real, d: real, e: real)
    ensures Cross(Extend(m, p), a, b, d, e) == Cross(m, a, b, d, e) + Gap(p, a, b) * Height(p, d, e)
  {
    hide Residual, ResidualX, Gap;
    ResidualStep(m, p, a, b);
    Distribute(d, e, Residual(m, a, b), ResidualX(m, a, b), Gap(p, a, b), p.x);
  }

  lemma Distribute(d: real, e: real, r: real, rx: real, u: real, x: real)
    ensures d * (r + u) + e * (rx + u * x) == (d * r + e * rx) + u * (d + e * x)
  {
  }

  lemma MovedGap(p: XY, a: real, b: real, d: real, e: real)
    ensures Square(Gap(p, a + d, b + e))
            == Square(Gap(p, a, b)) - 2.0 * (Gap(p, a, b) * Height(p, d, e)) + Square(Height(p, d, e))
  {
    assert Gap(p, a + d, b + e) == Gap(p, a, b) - Height(p, d, e);
    MovedSquare(Gap(p, a, b), Height(p, d, e));
  }

  lemma MovedSquare(r: real, s: real)
    ensures Square(r - s) == Square(r) - 2.0 * (r * s) + Square(s)
  {
  }

  lemma {:induction false} ErrorOfMovedLine(c: seq<XY>, a: real, b: real, d: real, e: real)
    ensures SquaredError(c, a + d, b + e)
            == SquaredError(c, a, b) - 2.0 * Cross(MomentsOf(c), a, b, d, e) + LineSquares(c, d, e)
  {
    hide Cross, Square, Gap, Height, Extend;
    if c == [] {
      NoCross(a, b, d, e);
    } else {
      var init, p := c[..|c| - 1], c[|c| - 1];
      ErrorOfMovedLine(init, a, b, d, e);
      CrossStep(MomentsOf(init), p, a, b, d, e);
      MovedGap(p, a, b, d, e);
    }
  }

  lemma NoCross(a: real, b: real, d: real, e: real)
    ensures Cross(MomentsOf([]), a, b, d, e) == 0.0
  {
  }

  lemma {:induction false} LineSquaresSign(c: seq<XY>, d: real, e: real)
    ensures 0.0 <= LineSquares(c, d, e)
    ensures LineSquares(c, d, e) == 0.0 ==> OnAxis(c, d, e)
  {
    hide Height, Square;
    if c != [] {
      assert c == c[..|c| - 1] + [c[|c| - 1]];
      LineSquaresSign(c[..|c| - 1], d, e);
      SquareSign(Height(c[|c| - 1], d, e));
    }
  }

  /** The line y = d + e * x is zero at every point. */
  ghost predicate OnAxis(c: seq<XY>, d: real, e: real) {
    forall p | p in c :: Height(p, d, e) == 0.0
  }

  ghost function Intercept(m: Moments, b: real): real
    requires m.n != 0.0
  {
    (m.y - b * m.x) / m.n
  }

  lemma NormalEquation(n: real, x: real, y: real, xx: real, xy: real, a: real, b: real)
    requires n != 0.0 && a * n == y - b * x && b * (n * xx - x * x) == n * xy - x * y
    ensures xy - a * x - b * xx == 0.0
  {
    calc {
      n * (xy - a * x - b * xx);
      n * xy - (a * n) * x - b * (n * xx);
      { assert (a * n) * x == y * x - b * (x * x); }
      n * xy - x * y - b * (n * xx - x * x);
      0.0;
    }
    ZeroProduct(n, xy - a * x - b * xx);
  }

  /** The slope and its intercept satisfy both normal equations. */
  lemma NoResidual(c: seq<XY>, b: real)
    requires SlopeOf(c) == Some(b)
    ensures c != [] && MomentsOf(c).n != 0.0
    ensures var m := MomentsOf(c);
            Residual(m, Intercept(m, b), b) == 0.0 && ResidualX(m, Intercept(m, b), b) == 0.0
  {
    hide MomentsOf;
    DenominatorPositive(c);
    CountsPoints(c);
    var m := MomentsOf(c);
    var a := Intercept(m, b);
    assert a * m.n == m.y - b * m.x;
    assert b * (m.n * m.xx - m.x * m.x) == m.n * m.xy - m.x * m.y;
    NormalEquation(m.n, m.x, m.y, m.xx, m.xy, a, b);
  }

  /** Of all lines, the one with the computed slope has the least squared error, and only it. */
  lemma BestFit(c: seq<XY>, b: real, a': real, b': real)
    requires SlopeOf(c) == Some(b)
    ensures c != [] && MomentsOf(c).n != 0.0
    ensures SquaredError(c, Intercept(MomentsOf(c), b), b) <= SquaredError(c, a', b')
    ensures SquaredError(c, Intercept(MomentsOf(c), b), b) == SquaredError(c, a', b')
            ==> a' == Intercept(MomentsOf(c), b) && b' == b
  {
    hide MomentsOf, Residual, ResidualX, Intercept, SquaredError, LineSquares, OnAxis, SameX;
    NoResidual(c, b);
    var a := Intercept(MomentsOf(c), b);
    var d, e := a' - a, b' - b;
    ErrorOfMovedLine(c, a, b, d, e);
    assert a + d == a' && b + e == b';
    NoCrossLeft(MomentsOf(c), a, b, d, e);
    LineSquaresSign(c, d, e);
    if LineSquares(c, d, e) == 0.0 {
      DenominatorPositive(c);
      OnlyZeroLine(c, d, e);
    }
  }

  lemma NoCrossLeft(m: Moments, a: real, b: real, d: real, e: real)
    requires Residual(m, a, b) == 0.0 && ResidualX(m, a, b) == 0.0
    ensures Cross(m, a, b, d, e) == 0.0
  {
    hide Residual, ResidualX;
  }

  lemma OnlyZeroLine(c: seq<XY>, d: real, e: real)
    requires c != [] && !SameX(c, c[0].x)
    requires OnAxis(c, d, e)
    ensures d == 0.0 && e == 0.0
  {
    assert Height(c[0], d, e) == 0.0;
    var p :| p in c && p.x != c[0].x;
    assert Height(p, d, e) == 0.0;
    assert (p.x - c[0].x) * e == 0.0;
    ZeroProduct(p.x - c[0].x, e);
  }
}
