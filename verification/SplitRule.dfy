/** When a pass splits a cluster, and what by: in terms of members, ages and distances alone. */
module SplitRule {
  import opened Sequences
  import opened Reals
  import opened Vectors
  import opened Lloyd
  import opened Splitting
  import opened Reshaping

  /** The squared distance, coordinate by coordinate. */
  lemma SquareIs(p: Point, c: Point)
    ensures SqDist(p, c) == (p.x0 - c.x0) * (p.x0 - c.x0) + (p.x1 - c.x1) * (p.x1 - c.x1) + (p.x2 - c.x2) * (p.x2 - c.x2)
                            + (p.x3 - c.x3) * (p.x3 - c.x3) + (p.x4 - c.x4) * (p.x4 - c.x4)
  {
    SqIs(p.x0 - c.x0);
    SqIs(p.x1 - c.x1);
    SqIs(p.x2 - c.x2);
    SqIs(p.x3 - c.x3);
    SqIs(p.x4 - c.x4);
  }

  /** The distances of the members to their centroid, added up. */
  function Spread(ms: seq<Point>, c: Point, root: real -> real): real {
    if |ms| == 0 then 0.0 else Spread(ms[..|ms| - 1], c, root) + root(SqDist(ms[|ms| - 1], c))
  }

  /** At least three passes old, more than eight members, and on average more than 0.40 from the centroid. */
  ghost predicate Loose(ms: seq<Point>, c: Point, age: nat, root: real -> real) {
    age >= 3 && |ms| > 8 && Spread(ms, c, root) > 0.40 * |ms| as real
  }

  lemma {:induction false} SpreadIs(ms: seq<Point>, c: Point, root: real -> real)
    ensures Spread(ms, c, root) == SumBy(ms, RootDistTo(c, root))
  {
    if |ms| > 0 {
      SpreadIs(ms[..|ms| - 1], c, root);
    }
  }

  lemma AverageAbove(total: real, n: real, limit: real)
    requires n > 0.0
    ensures Quotient(total, n) > limit <==> total > limit * n
  {
    var q := total / n;
    QuotientIs(total, n);
    DivideBack(total, n);
    if q > limit {
      PositiveProduct(n, q - limit);
      assert n * (q - limit) == n * q - n * limit;
    } else {
      NonNegativeProduct(n, limit - q);
      assert n * (limit - q) == n * limit - n * q;
    }
  }

  /** A cluster is ripe for a split exactly if it is loose. */
  lemma RipeIff(ms: seq<Point>, c: Point, age: nat, root: real -> real)
    ensures Ripe(ms, c, age, root) <==> Loose(ms, c, age, root)
  {
    if |ms| > 0 {
      SpreadIs(ms, c, root);
      AverageAbove(SumBy(ms, RootDistTo(c, root)), |ms| as real, SPLIT_COHESION);
    }
  }

  // ---- All clusters in turn ----

  /** The points that replace the centroid c of these members when they are split. */
  function Ends(ms: seq<Point>, c: Point): (Point, Point) { if |ms| > 0 then Seeds(ms) else (c, c) }

  /** Lists of centroids, from cs on, of which each comes from the one before by the turn of one cluster: a loose one
      is replaced by its one end, with the other at the end of the list, while there are fewer than twelve. */
  ghost predicate Turns(stages: seq<seq<Point>>, cs: seq<Point>, loose: seq<bool>, ends: seq<(Point, Point)>) {
    && |loose| == |ends| == |cs| && |stages| == |cs| + 1 && stages[0] == cs
    && forall k :: 0 <= k < |cs| ==>
         |stages[k]| >= |cs|
         && stages[k + 1] == if loose[k] && |stages[k]| < 12 then stages[k][k := ends[k].0] + [ends[k].1] else stages[k]
  }

  /** How many of the first k clusters are loose. */
  function LooseCount(loose: seq<bool>, k: nat): (n: nat)
    requires k <= |loose|
    ensures n <= k
  {
    if k == 0 then 0 else LooseCount(loose, k - 1) + if loose[k - 1] then 1 else 0
  }

  function AtMostTwelve(n: nat): nat { if n < 12 then n else 12 }

  /** One more for each loose cluster, up to twelve. */
  lemma {:induction false} TurnsCount(stages: seq<seq<Point>>, cs: seq<Point>, loose: seq<bool>, ends: seq<(Point, Point)>, k: nat)
    requires Turns(stages, cs, loose, ends) && k <= |cs| <= 12
    ensures |stages[k]| == AtMostTwelve(|cs| + LooseCount(loose, k))
  {
    if k > 0 {
      TurnsCount(stages, cs, loose, ends, k - 1);
      assert stages[k - 1 + 1] == stages[k];
    }
  }

  lemma {:induction false} NotYet(stages: seq<seq<Point>>, cs: seq<Point>, loose: seq<bool>, ends: seq<(Point, Point)>, k: nat, j: nat)
    requires Turns(stages, cs, loose, ends) && k <= j < |cs|
    ensures |stages[k]| >= |cs| && stages[k][j] == cs[j]
  {
    if k > 0 {
      NotYet(stages, cs, loose, ends, k - 1, j);
      assert stages[k - 1 + 1] == stages[k];
    }
  }

  /** A split centroid is replaced by the one end, with the other at position i; one that is not split stays c. */
  ghost predicate Placed(r: seq<Point>, j: nat, split: bool, ends: (Point, Point), i: nat, c: Point) {
    j < |r| && if split then r[j] == ends.0 && i < |r| && r[i] == ends.1 else r[j] == c
  }

  lemma {:induction false} TurnsPlace(stages: seq<seq<Point>>, cs: seq<Point>, loose: seq<bool>, ends: seq<(Point, Point)>,
                                      k: nat, j: nat, i: nat)
    requires Turns(stages, cs, loose, ends) && j < k <= |cs| <= 12 && i == |cs| + LooseCount(loose, j)
    ensures Placed(stages[k], j, loose[j] && i < 12, ends[j], i, cs[j])
  {
    assert stages[k - 1 + 1] == stages[k];
    if k == j + 1 {
      NotYet(stages, cs, loose, ends, j, j);
      TurnsCount(stages, cs, loose, ends, j);
    } else {
      TurnsPlace(stages, cs, loose, ends, k - 1, j, i);
    }
  }

  /** What is at the end, and where the ends of cluster j are. */
  lemma TurnsOutcome(stages: seq<seq<Point>>, cs: seq<Point>, loose: seq<bool>, ends: seq<(Point, Point)>, j: nat, i: nat, r: seq<Point>)
    requires Turns(stages, cs, loose, ends) && j < |cs| <= 12 && i == |cs| + LooseCount(loose, j) && r == stages[|cs|]
    ensures |r| == AtMostTwelve(|cs| + LooseCount(loose, |cs|)) && Placed(r, j, loose[j] && i < 12, ends[j], i, cs[j])
  {
    TurnsCount(stages, cs, loose, ends, |cs|);
    TurnsPlace(stages, cs, loose, ends, |cs|, j, i);
  }

  /** Which clusters are loose, and by what they would be replaced. */
  ghost predicate Tells(loose: seq<bool>, ends: seq<(Point, Point)>, embs: seq<Point>, a: seq<nat>, cs: seq<Point>, ages: Ages, root: real -> real) {
    && |a| == |embs| && |loose| == |ends| == |cs|
    && forall j :: 0 <= j < |cs| ==>
         && loose[j] == Loose(Members(embs, a, j), cs[j], if j in ages then ages[j] else 0, root)
         && ends[j] == Ends(Members(embs, a, j), cs[j])
  }

  lemma OfferIs(prev: seq<Point>, k: nat, ms: seq<Point>, c: Point, age: nat, root: real -> real)
    requires k < |prev|
    ensures OfferSplit(prev, k, ms, c, age, root)
            == if Loose(ms, c, age, root) && |prev| < 12 then prev[k := Ends(ms, c).0] + [Ends(ms, c).1] else prev
  {
    RipeIff(ms, c, age, root);
  }

  /** The split step takes the clusters in turn. */
  lemma SplitsTakeTurns(loose: seq<bool>, ends: seq<(Point, Point)>, embs: seq<Point>, a: seq<nat>, cs: seq<Point>, ages: Ages, root: real -> real)
    returns (stages: seq<seq<Point>>)
    requires Tells(loose, ends, embs, a, cs, ages, root)
    ensures Turns(stages, cs, loose, ends) && stages[|cs|] == Splits(embs, a, cs, ages, root, |cs|)
  {
    stages := seq(|cs| + 1, k requires 0 <= k <= |cs| => Splits(embs, a, cs, ages, root, k));
    forall k | 0 <= k < |cs|
      ensures |stages[k]| >= |cs|
      ensures stages[k + 1] == if loose[k] && |stages[k]| < 12 then stages[k][k := ends[k].0] + [ends[k].1] else stages[k]
    {
      SplitsNext(embs, a, cs, ages, root, k);
      OfferIs(Splits(embs, a, cs, ages, root, k), k, Members(embs, a, k), cs[k], Age(ages, k), root);
    }
  }

  /** No two of these points are farther apart than x and y, which are among them. */
  ghost predicate Farthest(ms: seq<Point>, x: Point, y: Point) {
    x in ms && y in ms && forall u, v :: u in ms && v in ms ==> SqDist(u, v) <= SqDist(x, y)
  }

  lemma EndsFarthest(ms: seq<Point>, c: Point)
    requires |ms| >= 2
    ensures Farthest(ms, Ends(ms, c).0, Ends(ms, c).1)
  {
    SeedsAreFarthest(ms, ms[0], ms[0]);
    forall u, v | u in ms && v in ms ensures SqDist(u, v) <= SqDist(Seeds(ms).0, Seeds(ms).1) {
      SeedsAreFarthest(ms, u, v);
    }
  }

  lemma SplitOutcome(loose: seq<bool>, ends: seq<(Point, Point)>, embs: seq<Point>, a: seq<nat>, cs: seq<Point>, ages: Ages,
                     root: real -> real, j: nat, i: nat)
    requires Tells(loose, ends, embs, a, cs, ages, root) && j < |cs| <= 12 && i == |cs| + LooseCount(loose, j)
    ensures |Splits(embs, a, cs, ages, root, |cs|)| == AtMostTwelve(|cs| + LooseCount(loose, |cs|))
    ensures Placed(Splits(embs, a, cs, ages, root, |cs|), j, loose[j] && i < 12, ends[j], i, cs[j])
  {
    var stages := SplitsTakeTurns(loose, ends, embs, a, cs, ages, root);
    TurnsOutcome(stages, cs, loose, ends, j, i, Splits(embs, a, cs, ages, root, |cs|));
  }

  lemma LooseEnds(loose: seq<bool>, ends: seq<(Point, Point)>, embs: seq<Point>, a: seq<nat>, cs: seq<Point>, ages: Ages,
                  root: real -> real, j: nat)
    requires Tells(loose, ends, embs, a, cs, ages, root) && j < |cs| && loose[j]
    ensures Farthest(Members(embs, a, j), ends[j].0, ends[j].1)
  {
    EndsFarthest(Members(embs, a, j), cs[j]);
  }

  /** What the split step does to cluster j: if it is loose and there is room, a farthest pair of its members takes
      its place and the next one at the end; if not, its centroid stays. The list grows by one for each loose
      cluster, up to twelve. */
  lemma SplitRuleHolds(loose: seq<bool>, ends: seq<(Point, Point)>, embs: seq<Point>, a: seq<nat>, cs: seq<Point>, ages: Ages,
                       root: real -> real, j: nat, i: nat, r: seq<Point>)
    requires Tells(loose, ends, embs, a, cs, ages, root) && j < |cs| <= 12 && i == |cs| + LooseCount(loose, j)
    requires r == Splits(embs, a, cs, ages, root, |cs|)
    ensures |r| == AtMostTwelve(|cs| + LooseCount(loose, |cs|)) && j < |r|
    ensures loose[j] && i < 12 ==> i < |r| && Farthest(Members(embs, a, j), r[j], r[i])
    ensures !loose[j] || i >= 12 ==> r[j] == cs[j]
  {
    SplitOutcome(loose, ends, embs, a, cs, ages, root, j, i);
    if loose[j] {
      LooseEnds(loose, ends, embs, a, cs, ages, root, j);
    }
  }

  // ---- Collapse prevention ----

  lemma {:induction false} TallyIsMembers(embs: seq<Point>, a: seq<nat>, k: nat)
    requires |a| == |embs|
    ensures |Members(embs, a, k)| == Tally(a, k)
  {
    if |a| > 0 {
      TallyIsMembers(embs[..|a| - 1], a[..|a| - 1], k);
    }
  }

  lemma {:induction false} TwoTallies(a: seq<nat>, i: nat, j: nat)
    requires i != j
    ensures Tally(a, i) + Tally(a, j) <= |a|
  {
    if |a| > 0 {
      TwoTallies(a[..|a| - 1], i, j);
    }
  }

  /** More than sixty percent of all accounts, and more than one. */
  ghost predicate Dominant(ms: seq<Point>, n: nat) { 10 * |ms| > 6 * n && |ms| >= 2 }

  lemma DominantIsLargest(embs: seq<Point>, a: seq<nat>, k: nat)
    requires |a| == |embs| > 0 && Dominant(Members(embs, a, k), |embs|)
    ensures Largest(a, |a|) == k
  {
    var l := Largest(a, |a|);
    TallyIsMembers(embs, a, k);
    if l != k {
      TwoTallies(a, k, l);
      if i :| 0 <= i < |a| && a[i] == k {
        LargestIsLargest(a, |a|, i);
      } else {
        AbsentTallyZero(a, k);
      }
    }
  }

  /** A cluster that holds more than sixty percent of the accounts gives way to a farthest pair of its members if
      there is room for one more; otherwise nothing changes. */
  lemma CollapseRule(embs: seq<Point>, cs: seq<Point>, k: nat, ms: seq<Point>, r: seq<Point>)
    requires |embs| > 0 && k < |cs| <= 12 && ms == Members(embs, Assign(embs, cs), k) && r == Collapsed(embs, cs)
    ensures Dominant(ms, |embs|) && |cs| < 12 ==> |r| == |cs| + 1 && r == cs[k := r[k]] + [r[|cs|]] && Farthest(ms, r[k], r[|cs|])
    ensures |cs| == 12 || (forall j :: 0 <= j < |cs| ==> !Dominant(Members(embs, Assign(embs, cs), j), |embs|)) ==> r == cs
  {
    var a := Assign(embs, cs);
    var l := Largest(a, |a|);
    TallyIsMembers(embs, a, l);
    AssignInRange(embs, cs, l);
    if Dominant(ms, |embs|) && |cs| < 12 {
      DominantIsLargest(embs, a, k);
      EndsFarthest(ms, cs[k]);
    }
  }

  lemma AssignInRange(embs: seq<Point>, cs: seq<Point>, k: nat)
    requires |cs| > 0 && k in Assign(embs, cs)
    ensures k < |cs|
  {
    var i :| 0 <= i < |Assign(embs, cs)| && Assign(embs, cs)[i] == k;
    AssignAt(embs, cs, i);
  }
}
