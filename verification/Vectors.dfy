/** Five-dimensional embeddings: squared distance, means, the unit cube and list order. */
module Vectors {
  import opened Sequences
  import opened Reals

  const EMB_DIM := 5

  /** A list of EMB_DIM numbers. */
  datatype Point = Point(x0: real, x1: real, x2: real, x3: real, x4: real) {
    function At(d: nat): real {
      if d == 0 then x0 else if d == 1 then x1 else if d == 2 then x2 else if d == 3 then x3 else x4
    }
  }

  function Sq(x: real): real { Product(x, x) }

  lemma SqIs(x: real)
    ensures Sq(x) == x * x
  {
    ProductIs(x, x);
  }

  lemma SqBasics(x: real)
    ensures Sq(x) == Sq(-x) && Sq(x) >= 0.0 && Sq(0.0) == 0.0
  {
    SqIs(x);
    SqIs(-x);
    SqIs(0.0);
    if x >= 0.0 {
      NonNegativeProduct(x, x);
    } else {
      NonNegativeProduct(-x, -x);
    }
  }

  function SqDist(a: Point, b: Point): real {
    Sq(a.x0 - b.x0) + Sq(a.x1 - b.x1) + Sq(a.x2 - b.x2) + Sq(a.x3 - b.x3) + Sq(a.x4 - b.x4)
  }

  lemma SqDistBasics(a: Point, b: Point)
    ensures SqDist(a, b) == SqDist(b, a)
    ensures SqDist(a, b) >= 0.0 && SqDist(a, a) == 0.0
  {
    SqBasics(a.x0 - b.x0);
    SqBasics(a.x1 - b.x1);
    SqBasics(a.x2 - b.x2);
    SqBasics(a.x3 - b.x3);
    SqBasics(a.x4 - b.x4);
  }

  function Coord(d: nat): Point -> real {
    (p: Point) => p.At(d)
  }

  function DistTo(c: Point): Point -> real {
    (p: Point) => SqDist(p, c)
  }

  /** Total squared distance of a group of points to one centre. */
  function CostTo(members: seq<Point>, c: Point): real {
    SumBy(members, DistTo(c))
  }

  function Average(members: seq<Point>, d: nat): real
    requires |members| > 0
  {
    Quotient(SumBy(members, Coord(d)), |members| as real)
  }

  function Mean(members: seq<Point>): Point
    requires |members| > 0
  {
    Point(Average(members, 0), Average(members, 1), Average(members, 2), Average(members, 3), Average(members, 4))
  }

  // ---- The mean is the cheapest centre ----

  function GapTo(d: nat, x: real): Point -> real {
    (p: Point) => Sq(p.At(d) - x)
  }

  lemma {:induction false} CostByCoordinate(members: seq<Point>, c: Point)
    ensures CostTo(members, c)
         == SumBy(members, GapTo(0, c.x0)) + SumBy(members, GapTo(1, c.x1)) + SumBy(members, GapTo(2, c.x2))
          + SumBy(members, GapTo(3, c.x3)) + SumBy(members, GapTo(4, c.x4))
  {
    if |members| > 0 {
      CostByCoordinate(members[..|members| - 1], c);
    }
  }

  function Offset(d: nat, y: real): Point -> real {
    (p: Point) => p.At(d) - y
  }

  lemma {:induction false} OffsetSum(members: seq<Point>, d: nat, y: real)
    ensures SumBy(members, Offset(d, y)) == SumBy(members, Coord(d)) - |members| as real * y
  {
    if |members| > 0 {
      OffsetSum(members[..|members| - 1], d, y);
    }
  }

  /** Offsets from the mean cancel out. */
  lemma MeanBalances(members: seq<Point>, d: nat)
    requires |members| > 0
    ensures SumBy(members, Offset(d, Average(members, d))) == 0.0
  {
    OffsetSum(members, d, Average(members, d));
    QuotientIs(SumBy(members, Coord(d)), |members| as real);
    DivideBack(SumBy(members, Coord(d)), |members| as real);
  }

  /** A square lies above its tangent. */
  lemma SqTangent(p: real, x: real, y: real)
    ensures Sq(p - x) >= Sq(p - y) + (2.0 * (y - x)) * (p - y)
  {
    SqIs(p - x);
    SqIs(p - y);
    SqIs(x - y);
    SqBasics(x - y);
    SquareOfSum(p - y, y - x);
  }

  lemma SquareOfSum(a: real, b: real)
    ensures (a + b) * (a + b) == a * a + (2.0 * b) * a + b * b
  {
  }

  lemma {:induction false} GapTangent(members: seq<Point>, d: nat, x: real, y: real, k: real)
    requires k == 2.0 * (y - x)
    ensures SumBy(members, GapTo(d, x)) >= SumBy(members, GapTo(d, y)) + Product(k, SumBy(members, Offset(d, y)))
  {
    if |members| == 0 {
      ProductIs(k, 0.0);
    } else {
      var n := |members| - 1;
      var s, t := SumBy(members[..n], Offset(d, y)), members[n].At(d) - y;
      GapTangent(members[..n], d, x, y, k);
      TangentAt(members[n].At(d), x, y, k);
      AddProducts(k, s, t);
    }
  }

  lemma TangentAt(p: real, x: real, y: real, k: real)
    requires k == 2.0 * (y - x)
    ensures Sq(p - x) >= Sq(p - y) + Product(k, p - y)
  {
    SqTangent(p, x, y);
    ProductIs(k, p - y);
  }

  lemma AddProducts(k: real, s: real, t: real)
    ensures Product(k, s + t) == Product(k, s) + Product(k, t)
  {
    ProductIs(k, s + t);
    ProductIs(k, s);
    ProductIs(k, t);
  }

  lemma AverageBestInCoordinate(members: seq<Point>, d: nat, x: real)
    requires |members| > 0
    ensures SumBy(members, GapTo(d, Average(members, d))) <= SumBy(members, GapTo(d, x))
  {
    var y := Average(members, d);
    MeanBalances(members, d);
    GapTangent(members, d, x, y, 2.0 * (y - x));
    ProductIs(2.0 * (y - x), 0.0);
  }

  /** No centre serves a group better than its mean. */
  lemma MeanIsCheapest(members: seq<Point>, c: Point)
    requires |members| > 0
    ensures CostTo(members, Mean(members)) <= CostTo(members, c)
  {
    CostByCoordinate(members, c);
    CostByCoordinate(members, Mean(members));
    AverageBestInCoordinate(members, 0, c.x0);
    AverageBestInCoordinate(members, 1, c.x1);
    AverageBestInCoordinate(members, 2, c.x2);
    AverageBestInCoordinate(members, 3, c.x3);
    AverageBestInCoordinate(members, 4, c.x4);
  }

  // ---- The unit cube ----

  predicate InUnit(x: real) { 0.0 <= x <= 1.0 }

  predicate InCube(p: Point) {
    InUnit(p.x0) && InUnit(p.x1) && InUnit(p.x2) && InUnit(p.x3) && InUnit(p.x4)
  }

  ghost predicate AllInCube(ps: seq<Point>) {
    forall p :: p in ps ==> InCube(p)
  }

  lemma {:induction false} CoordSumInCube(members: seq<Point>, d: nat)
    requires AllInCube(members)
    ensures 0.0 <= SumBy(members, Coord(d)) <= |members| as real
  {
    if |members| > 0 {
      CoordSumInCube(members[..|members| - 1], d);
      assert InCube(members[|members| - 1]);
    }
  }

  lemma AverageInUnit(members: seq<Point>, d: nat)
    requires |members| > 0 && AllInCube(members)
    ensures InUnit(Average(members, d))
  {
    CoordSumInCube(members, d);
    QuotientIs(SumBy(members, Coord(d)), |members| as real);
    QuotientInUnit(SumBy(members, Coord(d)), |members| as real);
  }

  lemma QuotientInUnit(s: real, n: real)
    requires 0.0 <= s <= n && n > 0.0
    ensures InUnit(s / n)
  {
    var inv := Reciprocal(n);
    NonNegativeProduct(s, inv);
    RealMono(s, n, inv);
  }

  lemma MeanInCube(members: seq<Point>)
    requires |members| > 0 && AllInCube(members)
    ensures InCube(Mean(members))
  {
    AverageInUnit(members, 0);
    AverageInUnit(members, 1);
    AverageInUnit(members, 2);
    AverageInUnit(members, 3);
    AverageInUnit(members, 4);
  }

  // ---- Lexicographic list order ----

  predicate LexFrom(a: Point, b: Point, i: nat)
    requires i <= EMB_DIM
    decreases EMB_DIM - i
  {
    i == EMB_DIM || a.At(i) < b.At(i) || (a.At(i) == b.At(i) && LexFrom(a, b, i + 1))
  }

  function LexLe(): (Point, Point) -> bool {
    (a: Point, b: Point) => LexFrom(a, b, 0)
  }

  lemma {:induction false} LexTotal(a: Point, b: Point, i: nat)
    requires i <= EMB_DIM
    ensures LexFrom(a, b, i) || LexFrom(b, a, i)
    ensures LexFrom(a, b, i) && LexFrom(b, a, i) ==> forall d :: i <= d < EMB_DIM ==> a.At(d) == b.At(d)
    decreases EMB_DIM - i
  {
    if i < EMB_DIM {
      LexTotal(a, b, i + 1);
    }
  }

  lemma {:induction false} LexTransitive(a: Point, b: Point, c: Point, i: nat)
    requires i <= EMB_DIM && LexFrom(a, b, i) && LexFrom(b, c, i)
    ensures LexFrom(a, c, i)
    decreases EMB_DIM - i
  {
    if i < EMB_DIM && a.At(i) == b.At(i) && b.At(i) == c.At(i) {
      LexTransitive(a, b, c, i + 1);
    }
  }

  lemma LexOrder()
    ensures TotalPreorder(LexLe()) && Antisymmetric(LexLe())
  {
    forall a: Point, b: Point
      ensures LexLe()(a, b) || LexLe()(b, a)
      ensures LexLe()(a, b) && LexLe()(b, a) ==> a == b
    {
      LexTotal(a, b, 0);
      if LexLe()(a, b) && LexLe()(b, a) {
        assert a.At(0) == b.At(0) && a.At(1) == b.At(1) && a.At(2) == b.At(2) && a.At(3) == b.At(3) && a.At(4) == b.At(4);
      }
    }
    forall a: Point, b: Point, c: Point | LexLe()(a, b) && LexLe()(b, c)
      ensures LexLe()(a, c)
    {
      LexTransitive(a, b, c, 0);
    }
  }
}
