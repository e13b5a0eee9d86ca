/** Passes of run_clustering over few accounts, and over accounts that lie on one line of the unit cube. */
module SmallPasses {
  import opened Sequences
  import opened Reals
  import opened Vectors
  import opened Lloyd
  import opened Splitting
  import opened Reshaping

  // ---- With at most eight accounts nothing is split ----

  lemma {:induction false} MembersFew(embs: seq<Point>, a: seq<nat>, k: nat)
    requires |a| == |embs|
    ensures |Members(embs, a, k)| <= |embs|
  {
    if |embs| > 0 {
      MembersFew(embs[..|embs| - 1], a[..|a| - 1], k);
    }
  }

  lemma NoSplit(prev: seq<Point>, k: nat, members: seq<Point>, c: Point, age: nat, root: real -> real)
    requires k < |prev| && |members| <= SPLIT_SIZE
    ensures OfferSplit(prev, k, members, c, age, root) == prev
  {
  }

  lemma {:induction false} NoSplits(embs: seq<Point>, a: seq<nat>, cs: seq<Point>, ages: Ages, root: real -> real, k: nat)
    requires |a| == |embs| <= SPLIT_SIZE && k <= |cs|
    ensures Splits(embs, a, cs, ages, root, k) == cs
    decreases k
  {
    if k > 0 {
      var i := k - 1;
      NoSplits(embs, a, cs, ages, root, i);
      MembersFew(embs, a, i);
      SplitsNext(embs, a, cs, ages, root, i);
      NoSplit(cs, i, Members(embs, a, i), cs[i], Age(ages, i), root);
    }
  }

  lemma AfterRounds(embs: seq<Point>, start: seq<Point>, ages: Ages, quality: Qualities, root: real -> real)
    requires 0 < |embs| <= SPLIT_SIZE && |start| > 0
    ensures After(Split, embs, start, ages, quality, root) == After(Step.Means, embs, start, ages, quality, root)
  {
    var cs := After(Step.Means, embs, start, ages, quality, root);
    NoSplits(embs, LastAssignment(embs, start), cs, ages, root, |cs|);
  }

  lemma AfterSplit(embs: seq<Point>, start: seq<Point>, ages: Ages, quality: Qualities, root: real -> real, split: seq<Point>)
    requires |embs| > 0 && |start| > 0 && split == After(Split, embs, start, ages, quality, root)
    ensures After(Merge, embs, start, ages, quality, root) == Merged(split, ages, quality)
  {
  }

  lemma AfterMerge(embs: seq<Point>, start: seq<Point>, ages: Ages, quality: Qualities, root: real -> real, merged: seq<Point>)
    requires |embs| > 0 && |start| > 0 && merged == After(Merge, embs, start, ages, quality, root)
    ensures |merged| > 0 && Pass(embs, start, ages, quality, root) == Collapsed(embs, merged)
  {
  }

  lemma MeansAreRounds(embs: seq<Point>, start: seq<Point>, ages: Ages, quality: Qualities, root: real -> real, n: nat)
    requires |embs| > 0 && |start| > 0 && n == KMEANS_ITERS
    ensures After(Step.Means, embs, start, ages, quality, root) == Rounds(embs, start, n)
  {
  }

  /** A pass over few accounts: rounds, merging, collapse prevention. */
  lemma SmallPass(embs: seq<Point>, start: seq<Point>, ages: Ages, quality: Qualities, root: real -> real,
                  n: nat, rounds: seq<Point>, merged: seq<Point>)
    requires 0 < |embs| <= SPLIT_SIZE && |start| > 0 && n == KMEANS_ITERS
    requires rounds == Rounds(embs, start, n) && merged == Merged(rounds, ages, quality)
    ensures |merged| > 0 && Pass(embs, start, ages, quality, root) == Collapsed(embs, merged)
  {
    MeansAreRounds(embs, start, ages, quality, root, n);
    AfterRounds(embs, start, ages, quality, root);
    AfterSplit(embs, start, ages, quality, root, rounds);
    AfterMerge(embs, start, ages, quality, root, merged);
  }

  // ---- Merging goes by age ----

  /** No two different clusters are both old enough to merge. */
  ghost predicate Young(ages: Ages, n: nat) {
    forall i, j :: 0 <= i < j < n ==> Age(ages, i) < AGE_MIN_OPS || Age(ages, j) < AGE_MIN_OPS
  }

  lemma NothingMerges(cs: seq<Point>, ages: Ages, quality: Qualities)
    requires forall i, j :: 0 <= i < j < |cs| ==> !Mergeable(cs, ages, i, j)
    ensures Merged(cs, ages, quality) == cs
  {
  }

  lemma YoungStay(cs: seq<Point>, ages: Ages, quality: Qualities)
    requires Young(ages, |cs|)
    ensures Merged(cs, ages, quality) == cs
  {
    NothingMerges(cs, ages, quality);
  }

  /** The scan stops at the first pair that can merge. */
  lemma {:induction false} FirstFound(cs: seq<Point>, ages: Ages, i: nat, j: nat, x: nat, y: nat)
    requires i < j && x < y < |cs| && (i < x || (i == x && j <= y)) && Mergeable(cs, ages, x, y)
    requires forall p, q :: 0 <= p < q < |cs| && (p < x || (p == x && q < y)) ==> !Mergeable(cs, ages, p, q)
    ensures FindPair(cs, ages, i, j) == Some((x, y))
    decreases |cs| - i, |cs| - j
  {
    if j >= |cs| {
      FirstFound(cs, ages, i + 1, i + 2, x, y);
    } else if (i, j) != (x, y) {
      FirstFound(cs, ages, i, j + 1, x, y);
    }
  }

  /** One merge, after which nothing else can merge. */
  lemma MergesOnce(cs: seq<Point>, ages: Ages, quality: Qualities, x: nat, y: nat, next: seq<Point>)
    requires |cs| > K_MIN && x < y < |cs| && Mergeable(cs, ages, x, y) && next == MergePair(cs, quality, x, y)
    requires forall p, q :: 0 <= p < q < |cs| && (p < x || (p == x && q < y)) ==> !Mergeable(cs, ages, p, q)
    requires forall i, j :: 0 <= i < j < |next| ==> !Mergeable(next, ages, i, j)
    ensures Merged(cs, ages, quality) == next
  {
    FirstFound(cs, ages, 0, 1, x, y);
    NothingMerges(next, ages, quality);
  }

  // ---- Points on a line ----

  /** Points that differ in their first coordinate only. */
  function On(x: real): Point { Point(x, 0.52, 0.4, 0.46, 0.6) }

  lemma SquaresGrow(a: real, b: real)
    requires a >= b >= 0.0
    ensures a * a >= b * b && (a > b ==> a * a > b * b)
  {
    NonNegativeProduct(a - b, a + b);
    assert (a - b) * (a + b) == a * a - b * b;
    if a > b {
      PositiveProduct(a - b, a + b);
    }
  }

  lemma SqSize(x: real, a: real)
    requires a == Abs(x)
    ensures Sq(x) == a * a
  {
    SqIs(x);
  }

  lemma SqGrows(x: real, y: real)
    requires Abs(x) >= Abs(y)
    ensures Sq(x) >= Sq(y) && (Abs(x) > Abs(y) ==> Sq(x) > Sq(y))
  {
    var a, b := Abs(x), Abs(y);
    SqSize(x, a);
    SqSize(y, b);
    SquaresGrow(a, b);
  }

  lemma SqZero(x: real)
    requires x == 0.0
    ensures Sq(x) == 0.0
  {
    SqIs(x);
  }

  lemma OnDistance(x: real, y: real)
    ensures SqDist(On(x), On(y)) == Sq(x - y)
  {
    var a, b := On(x), On(y);
    SqZero(a.x1 - b.x1);
    SqZero(a.x2 - b.x2);
    SqZero(a.x3 - b.x3);
    SqZero(a.x4 - b.x4);
  }

  lemma FromLine(x: real, c: Point)
    ensures SqDist(On(x), c) >= Sq(x - c.x0)
  {
    SqBasics(0.52 - c.x1);
    SqBasics(0.4 - c.x2);
    SqBasics(0.46 - c.x3);
    SqBasics(0.6 - c.x4);
  }

  lemma OnlyNearest(p: Point, cs: seq<Point>, i: nat)
    requires IsNearest(p, cs, i)
    ensures Nearest(p, cs) == i
  {
    NearestIsNearest(p, cs);
    var b := Nearest(p, cs);
    assert SqDist(p, cs[b]) <= SqDist(p, cs[i]) && SqDist(p, cs[i]) <= SqDist(p, cs[b]);
  }

  /** A centroid on the line is nearest to a point of it if the others' first coordinates are farther away. */
  lemma NearestOn(cs: seq<Point>, x: real, y: real, i: nat)
    requires i < |cs| && cs[i] == On(y)
    requires forall j :: 0 <= j < |cs| ==> Abs(x - cs[j].x0) >= Abs(x - y) && (j < i ==> Abs(x - cs[j].x0) > Abs(x - y))
    ensures Nearest(On(x), cs) == i
  {
    OnDistance(x, y);
    forall j | 0 <= j < |cs|
      ensures SqDist(On(x), cs[j]) >= SqDist(On(x), cs[i]) && (j < i ==> SqDist(On(x), cs[j]) > SqDist(On(x), cs[i]))
    {
      FromLine(x, cs[j]);
      SqGrows(x - cs[j].x0, x - y);
    }
    OnlyNearest(On(x), cs, i);
  }

  // ---- Accounts in pairs ----

  function Twice(x: real): seq<Point> { [On(x), On(x)] }

  lemma AssignPair(embs: seq<Point>, x: real, cs: seq<Point>)
    requires |cs| > 0
    ensures Assign(embs + Twice(x), cs) == Assign(embs, cs) + [Nearest(On(x), cs), Nearest(On(x), cs)]
  {
    var once := embs + [On(x)];
    assert embs + Twice(x) == once + [On(x)];
    assert once[..|embs|] == embs && (once + [On(x)])[..|once|] == once;
  }

  lemma MembersPair(embs: seq<Point>, a: seq<nat>, x: real, i: nat, k: nat)
    requires |a| == |embs|
    ensures Members(embs + Twice(x), a + [i, i], k) == Members(embs, a, k) + if i == k then Twice(x) else []
  {
    var once, b := embs + [On(x)], a + [i];
    assert embs + Twice(x) == once + [On(x)] && a + [i, i] == b + [i];
    assert once[..|embs|] == embs && (once + [On(x)])[..|once|] == once;
    assert b[..|a|] == a && (b + [i])[..|b|] == b;
  }

  lemma TallyPair(a: seq<nat>, i: nat, k: nat)
    ensures Tally(a + [i, i], k) == Tally(a, k) + if i == k then 2 else 0
  {
    var b := a + [i];
    assert a + [i, i] == b + [i];
    assert b[..|a|] == a && (b + [i])[..|b|] == b;
  }

  function Trio(p: real, q: real, r: real): seq<Point> { Twice(p) + Twice(q) + Twice(r) }

  function Six(i: nat, j: nat, k: nat): seq<nat> { [i, i] + [j, j] + [k, k] }

  lemma AssignTwice(x: real, cs: seq<Point>)
    requires |cs| > 0
    ensures Assign(Twice(x), cs) == [Nearest(On(x), cs), Nearest(On(x), cs)]
  {
    AssignPair([], x, cs);
    assert [] + Twice(x) == Twice(x);
  }

  lemma AssignTrio(p: real, q: real, r: real, cs: seq<Point>)
    requires |cs| > 0
    ensures Assign(Trio(p, q, r), cs) == Six(Nearest(On(p), cs), Nearest(On(q), cs), Nearest(On(r), cs))
  {
    AssignTwice(p, cs);
    AssignPair(Twice(p), q, cs);
    AssignPair(Twice(p) + Twice(q), r, cs);
  }

  lemma MembersTwice(x: real, i: nat, k: nat)
    ensures Members(Twice(x), [i, i], k) == if i == k then Twice(x) else []
  {
    MembersPair([], [], x, i, k);
    assert [] + Twice(x) == Twice(x) && [] + [i, i] == [i, i];
  }

  lemma MembersTrio(p: real, q: real, r: real, i: nat, j: nat, k: nat, c: nat)
    ensures Members(Trio(p, q, r), Six(i, j, k), c)
            == (if i == c then Twice(p) else []) + (if j == c then Twice(q) else []) + (if k == c then Twice(r) else [])
  {
    MembersTwice(p, i, c);
    MembersPair(Twice(p), [i, i], q, j, c);
    MembersPair(Twice(p) + Twice(q), [i, i] + [j, j], r, k, c);
  }

  lemma TallySix(i: nat, j: nat, k: nat, c: nat)
    ensures Tally(Six(i, j, k), c) == (if i == c then 2 else 0) + (if j == c then 2 else 0) + (if k == c then 2 else 0)
  {
    TallyPair([], i, c);
    assert [] + [i, i] == [i, i];
    TallyPair([i, i], j, c);
    TallyPair([i, i] + [j, j], k, c);
  }

  // ---- Means of pairs ----

  lemma SumPair(ms: seq<Point>, x: real, d: nat)
    ensures SumBy(ms + Twice(x), Coord(d)) == SumBy(ms, Coord(d)) + On(x).At(d) + On(x).At(d)
  {
    var once := ms + [On(x)];
    assert ms + Twice(x) == once + [On(x)];
    SumAppend(ms, On(x), Coord(d));
    SumAppend(once, On(x), Coord(d));
  }

  /** The sum of n points that have y on average in one coordinate. */
  lemma AverageIs(ms: seq<Point>, d: nat, n: real, y: real)
    requires |ms| > 0 && n == |ms| as real && SumBy(ms, Coord(d)) == n * y
    ensures Average(ms, d) == y
  {
    QuotientIs(SumBy(ms, Coord(d)), n);
    QuotientBack(n, y);
  }

  lemma QuotientBack(n: real, y: real)
    requires n > 0.0
    ensures (n * y) / n == y
  {
    var q := (n * y) / n;
    DivideBack(n * y, n);
    SameFactor(n, q, y);
  }

  lemma NoZeroProduct(n: real, x: real)
    requires n > 0.0 && n * x == 0.0
    ensures x == 0.0
  {
  }

  lemma SameFactor(n: real, a: real, b: real)
    requires n > 0.0 && n * a == n * b
    ensures a == b
  {
    assert n * (a - b) == n * a - n * b;
    NoZeroProduct(n, a - b);
  }

  /** A group whose coordinates add up to those of as many points at On(y). */
  lemma MeanOnLine(ms: seq<Point>, n: real, y: real)
    requires |ms| > 0 && n == |ms| as real
    requires forall d :: 0 <= d < 5 ==> SumBy(ms, Coord(d)) == n * On(y).At(d)
    ensures Mean(ms) == On(y)
  {
    AverageIs(ms, 0, n, y);
    AverageIs(ms, 1, n, 0.52);
    AverageIs(ms, 2, n, 0.4);
    AverageIs(ms, 3, n, 0.46);
    AverageIs(ms, 4, n, 0.6);
  }

  lemma MeanTwice(x: real)
    ensures Mean(Twice(x)) == On(x)
  {
    forall d | 0 <= d < 5 ensures SumBy(Twice(x), Coord(d)) == 2.0 * On(x).At(d) {
      SumPair([], x, d);
      assert [] + Twice(x) == Twice(x);
    }
    MeanOnLine(Twice(x), 2.0, x);
  }

  lemma SumTwoPairs(x: real, y: real, d: nat)
    ensures SumBy(Twice(x) + Twice(y), Coord(d)) == 2.0 * On(x).At(d) + 2.0 * On(y).At(d)
  {
    SumPair([], x, d);
    assert [] + Twice(x) == Twice(x);
    SumPair(Twice(x), y, d);
  }

  lemma MeanTwoPairs(x: real, y: real, m: real)
    requires x + y == 2.0 * m
    ensures Mean(Twice(x) + Twice(y)) == On(m)
  {
    forall d | 0 <= d < 5 ensures SumBy(Twice(x) + Twice(y), Coord(d)) == 4.0 * On(m).At(d) {
      SumTwoPairs(x, y, d);
    }
    MeanOnLine(Twice(x) + Twice(y), 4.0, m);
  }

  lemma MeanTrio(p: real, q: real, r: real)
    requires p + r == 2.0 * q
    ensures Mean(Trio(p, q, r)) == On(q)
  {
    forall d | 0 <= d < 5 ensures SumBy(Trio(p, q, r), Coord(d)) == 6.0 * On(q).At(d) {
      SumTwoPairs(p, q, d);
      SumPair(Twice(p) + Twice(q), r, d);
    }
    MeanOnLine(Trio(p, q, r), 6.0, q);
  }

  // ---- Rounds ----

  lemma RoundAt(embs: seq<Point>, cs: seq<Point>, a: seq<nat>, k: nat)
    requires k < |cs| && a == Assign(embs, cs)
    ensures Round(embs, cs)[k] == MeanOr(Members(embs, a, k), cs[k])
  {
    RoundIs(embs, cs);
    MeansAt(embs, a, cs, |cs|, k);
  }

  /** Each round after one that changed nothing changes nothing. */
  lemma {:induction false} RoundsStandStill(embs: seq<Point>, start: seq<Point>, m: nat, n: nat, cs: seq<Point>)
    requires |start| > 0 && m <= n && Rounds(embs, start, m) == cs && Round(embs, cs) == cs
    ensures Rounds(embs, start, n) == cs
    decreases n
  {
    if m < n {
      RoundsStandStill(embs, start, m, n - 1, cs);
    }
  }

  // ---- Seeds of collapse prevention ----

  lemma SeedsInOrder(ms: seq<Point>)
    requires |ms| >= 2
    ensures Seeds(ms).0 in ms && Seeds(ms).1 in ms && LexLe()(Seeds(ms).0, Seeds(ms).1)
  {
    SeedsAreFarthest(ms, ms[0], ms[1]);
    var s := Sort(ms, LexLe());
    LexOrder();
    SortSorts(ms, LexLe());
    SortPermutes(ms, LexLe());
    ScanDominates(s, |s|, 0, 1);
  }

  lemma SeedsOfTwins(x: real)
    ensures Seeds(Twice(x)) == (On(x), On(x))
  {
    SeedsInOrder(Twice(x));
  }

  lemma SeedsOfTwoPairs(x: real, y: real)
    requires x < y
    ensures Seeds(Twice(x) + Twice(y)) == (On(x), On(y))
  {
    var ms := Twice(x) + Twice(y);
    SeedsInOrder(ms);
    assert ms[0] == On(x) && ms[2] == On(y);
    SeedsAreFarthest(ms, On(x), On(y));
    OnDistance(x, y);
    OnDistance(x, x);
    OnDistance(y, y);
    SqGrows(x - y, 0.0);
    SqBasics(0.0);
    var a, b := Seeds(ms).0, Seeds(ms).1;
    assert (a == On(x) || a == On(y)) && (b == On(x) || b == On(y));
    NotBefore(x, y);
  }

  lemma NotBefore(x: real, y: real)
    requires x < y
    ensures !LexLe()(On(y), On(x))
  {
  }
}
