/** A pass that splits a loose cluster, and one that leaves two tight ones alone. */
module SplitWitnesses {
  import opened Sequences
  import opened Reals
  import opened Vectors
  import opened Lloyd
  import opened Splitting
  import opened Reshaping
  import opened SmallPasses
  import opened SplitRule

  // ---- Groups of accounts at one place ----

  function Group(p: Point, n: nat): (g: seq<Point>)
    ensures |g| == n && forall i :: 0 <= i < n ==> g[i] == p
  {
    if n == 0 then [] else Group(p, n - 1) + [p]
  }

  function Repeat(i: nat, n: nat): (a: seq<nat>)
    ensures |a| == n && forall k :: 0 <= k < n ==> a[k] == i
  {
    if n == 0 then [] else Repeat(i, n - 1) + [i]
  }

  lemma Snoc<T>(xs: seq<T>, ys: seq<T>, y: T)
    ensures xs + (ys + [y]) == (xs + ys) + [y] && ((xs + ys) + [y])[..|xs| + |ys|] == xs + ys
  {
  }

  lemma {:induction false} AssignGroup(embs: seq<Point>, p: Point, n: nat, cs: seq<Point>)
    requires |cs| > 0
    ensures Assign(embs + Group(p, n), cs) == Assign(embs, cs) + Repeat(Nearest(p, cs), n)
  {
    if n == 0 {
      assert embs + Group(p, 0) == embs && Assign(embs, cs) + Repeat(Nearest(p, cs), 0) == Assign(embs, cs);
    } else {
      AssignGroup(embs, p, n - 1, cs);
      Snoc(embs, Group(p, n - 1), p);
      Snoc(Assign(embs, cs), Repeat(Nearest(p, cs), n - 1), Nearest(p, cs));
    }
  }

  lemma {:induction false} MembersGroup(embs: seq<Point>, a: seq<nat>, p: Point, n: nat, i: nat, k: nat)
    requires |a| == |embs|
    ensures Members(embs + Group(p, n), a + Repeat(i, n), k) == Members(embs, a, k) + if i == k then Group(p, n) else []
  {
    if n == 0 {
      assert embs + Group(p, 0) == embs && a + Repeat(i, 0) == a;
    } else {
      MembersGroup(embs, a, p, n - 1, i, k);
      Snoc(embs, Group(p, n - 1), p);
      Snoc(a, Repeat(i, n - 1), i);
      if i == k {
        Snoc(Members(embs, a, k), Group(p, n - 1), p);
      }
    }
  }

  lemma {:induction false} TallyGroup(a: seq<nat>, i: nat, n: nat, k: nat)
    ensures Tally(a + Repeat(i, n), k) == Tally(a, k) + if i == k then n else 0
  {
    if n == 0 {
      assert a + Repeat(i, 0) == a;
    } else {
      TallyGroup(a, i, n - 1, k);
      Snoc(a, Repeat(i, n - 1), i);
    }
  }

  /** n times x, by addition. */
  function Times(n: nat, x: real): real { if n == 0 then 0.0 else Times(n - 1, x) + x }

  lemma {:induction false} SumGroup(embs: seq<Point>, p: Point, n: nat, f: Point -> real)
    ensures SumBy(embs + Group(p, n), f) == SumBy(embs, f) + Times(n, f(p))
  {
    if n == 0 {
      assert embs + Group(p, 0) == embs;
    } else {
      SumGroup(embs, p, n - 1, f);
      Snoc(embs, Group(p, n - 1), p);
      SumAppend(embs + Group(p, n - 1), p, f);
    }
  }

  // ---- Three groups ----

  function Crowd(p: Point, x: nat, q: Point, y: nat, r: Point, z: nat): (embs: seq<Point>)
    ensures |embs| == x + y + z
  {
    Group(p, x) + Group(q, y) + Group(r, z)
  }

  function Labels(i: nat, x: nat, j: nat, y: nat, h: nat, z: nat): (a: seq<nat>)
    ensures |a| == x + y + z && forall k :: k in a ==> k == i || k == j || k == h
  {
    Repeat(i, x) + Repeat(j, y) + Repeat(h, z)
  }

  lemma AssignCrowd(p: Point, x: nat, q: Point, y: nat, r: Point, z: nat, cs: seq<Point>)
    requires |cs| > 0
    ensures Assign(Crowd(p, x, q, y, r, z), cs) == Labels(Nearest(p, cs), x, Nearest(q, cs), y, Nearest(r, cs), z)
  {
    AssignGroup([], p, x, cs);
    assert [] + Group(p, x) == Group(p, x) && [] + Repeat(Nearest(p, cs), x) == Repeat(Nearest(p, cs), x);
    AssignGroup(Group(p, x), q, y, cs);
    AssignGroup(Group(p, x) + Group(q, y), r, z, cs);
  }

  lemma MembersCrowd(p: Point, x: nat, q: Point, y: nat, r: Point, z: nat, i: nat, j: nat, h: nat, k: nat)
    ensures Members(Crowd(p, x, q, y, r, z), Labels(i, x, j, y, h, z), k)
            == (if i == k then Group(p, x) else []) + (if j == k then Group(q, y) else []) + (if h == k then Group(r, z) else [])
  {
    MembersGroup([], [], p, x, i, k);
    assert [] + Group(p, x) == Group(p, x) && [] + Repeat(i, x) == Repeat(i, x);
    MembersGroup(Group(p, x), Repeat(i, x), q, y, j, k);
    MembersGroup(Group(p, x) + Group(q, y), Repeat(i, x) + Repeat(j, y), r, z, h, k);
  }

  lemma TallyCrowd(i: nat, x: nat, j: nat, y: nat, h: nat, z: nat, k: nat)
    ensures Tally(Labels(i, x, j, y, h, z), k) == (if i == k then x else 0) + (if j == k then y else 0) + (if h == k then z else 0)
  {
    TallyGroup([], i, x, k);
    assert [] + Repeat(i, x) == Repeat(i, x);
    TallyGroup(Repeat(i, x), j, y, k);
    TallyGroup(Repeat(i, x) + Repeat(j, y), h, z, k);
  }

  // ---- Means ----

  lemma OneTimesMore(k: real, x: real)
    ensures (k - 1.0) * x + x == k * x
  {
  }

  lemma {:induction false} TimesIs(n: nat, k: real, x: real)
    requires k == n as real
    ensures Times(n, x) == k * x
  {
    if n > 0 {
      TimesIs(n - 1, k - 1.0, x);
      OneTimesMore(k, x);
    }
  }

  lemma {:induction false} TimesAdd(n: nat, x: real, y: real)
    ensures Times(n, x) + Times(n, y) == Times(n, x + y)
  {
    if n > 0 {
      TimesAdd(n - 1, x, y);
    }
  }

  lemma {:induction false} TimesTwice(n: nat, x: real, z: real)
    requires z == 2.0 * x
    ensures Times(n, z) == Times(2 * n, x)
  {
    if n > 0 {
      TimesTwice(n - 1, x, z);
      assert Times(2 * n, x) == Times(2 * n - 1, x) + x && Times(2 * n - 1, x) == Times(2 * n - 2, x) + x;
    }
  }

  /** The average of n coordinates that add up to n times y. */
  lemma AverageTimes(ms: seq<Point>, d: nat, y: real)
    requires |ms| > 0 && SumBy(ms, Coord(d)) == Times(|ms|, y)
    ensures Average(ms, d) == y
  {
    var k := |ms| as real;
    TimesIs(|ms|, k, y);
    AverageIs(ms, d, k, y);
  }

  lemma SumOneGroup(p: Point, n: nat, d: nat, y: real)
    requires y == Coord(d)(p)
    ensures SumBy(Group(p, n), Coord(d)) == Times(n, y)
  {
    SumGroup([], p, n, Coord(d));
    assert [] + Group(p, n) == Group(p, n);
  }

  lemma AverageOfGroup(p: Point, n: nat, d: nat, y: real)
    requires n > 0 && y == Coord(d)(p)
    ensures Average(Group(p, n), d) == y
  {
    SumOneGroup(p, n, d, y);
    AverageTimes(Group(p, n), d, y);
  }

  lemma MeanGroup(p: Point, n: nat)
    requires n > 0
    ensures Mean(Group(p, n)) == p
  {
    AverageOfGroup(p, n, 0, p.x0);
    AverageOfGroup(p, n, 1, p.x1);
    AverageOfGroup(p, n, 2, p.x2);
    AverageOfGroup(p, n, 3, p.x3);
    AverageOfGroup(p, n, 4, p.x4);
  }

  lemma AverageOfTwo(p: Point, q: Point, n: nat, d: nat, x: real, y: real, m: real)
    requires n > 0 && x == Coord(d)(p) && y == Coord(d)(q) && x + y == 2.0 * m
    ensures Average(Group(p, n) + Group(q, n), d) == m
  {
    SumOneGroup(p, n, d, x);
    SumGroup(Group(p, n), q, n, Coord(d));
    TimesAdd(n, x, y);
    TimesTwice(n, m, x + y);
    AverageTimes(Group(p, n) + Group(q, n), d, m);
  }

  lemma MeanTwoGroups(p: Point, q: Point, n: nat, m: Point)
    requires n > 0 && Middle(p, q, m)
    ensures Mean(Group(p, n) + Group(q, n)) == m
  {
    AverageOfTwo(p, q, n, 0, p.x0, q.x0, m.x0);
    AverageOfTwo(p, q, n, 1, p.x1, q.x1, m.x1);
    AverageOfTwo(p, q, n, 2, p.x2, q.x2, m.x2);
    AverageOfTwo(p, q, n, 3, p.x3, q.x3, m.x3);
    AverageOfTwo(p, q, n, 4, p.x4, q.x4, m.x4);
  }

  ghost predicate Middle(p: Point, q: Point, m: Point) {
    && p.x0 + q.x0 == 2.0 * m.x0 && p.x1 + q.x1 == 2.0 * m.x1 && p.x2 + q.x2 == 2.0 * m.x2
    && p.x3 + q.x3 == 2.0 * m.x3 && p.x4 + q.x4 == 2.0 * m.x4
  }

  // ---- A pass whose rounds move nothing ----

  lemma AfterMeans(embs: seq<Point>, start: seq<Point>, ages: Ages, quality: Qualities, root: real -> real, rounds: seq<Point>)
    requires |embs| > 0 && |start| > 0 && rounds == After(Step.Means, embs, start, ages, quality, root)
    ensures After(Split, embs, start, ages, quality, root) == Splits(embs, LastAssignment(embs, start), rounds, ages, root, |rounds|)
  {
  }

  lemma LastIs(embs: seq<Point>, start: seq<Point>, n: nat)
    requires |start| > 0 && n == KMEANS_ITERS - 1
    ensures LastAssignment(embs, start) == Assign(embs, Rounds(embs, start, n))
  {
  }

  /** Splitting, merging and collapse prevention are all that happens. */
  lemma StillPass(embs: seq<Point>, start: seq<Point>, ages: Ages, quality: Qualities, root: real -> real, split: seq<Point>, merged: seq<Point>)
    requires |embs| > 0 && |start| > 0 && Round(embs, start) == start
    requires split == Splits(embs, Assign(embs, start), start, ages, root, |start|) && merged == Merged(split, ages, quality)
    ensures |merged| > 0 && Pass(embs, start, ages, quality, root) == Collapsed(embs, merged)
  {
    var n := KMEANS_ITERS;
    var m := n - 1;
    assert Rounds(embs, start, 0) == start;
    RoundsStandStill(embs, start, 0, n, start);
    RoundsStandStill(embs, start, 0, m, start);
    MeansAreRounds(embs, start, ages, quality, root, n);
    LastIs(embs, start, m);
    AfterMeans(embs, start, ages, quality, root, start);
    AfterSplit(embs, start, ages, quality, root, split);
    AfterMerge(embs, start, ages, quality, root, merged);
  }

  /** Nothing collapses if no cluster holds more than sixty percent of the accounts. */
  lemma NothingCollapses(embs: seq<Point>, cs: seq<Point>, a: seq<nat>)
    requires |embs| > 0 && |cs| > 0 && a == Assign(embs, cs)
    requires forall k :: k in a ==> Tally(a, k) as real <= 0.60 * |embs| as real
    ensures Collapsed(embs, cs) == cs
  {
    var k := Largest(a, |a|);
    assert Tally(a, k) as real <= 0.60 * |embs| as real;
  }

  // ---- Places ----

  /** Two ends of a cluster with their middle, and two places far from it and from each other. */
  datatype Places = Places(a: Point, b: Point, m: Point, f: Point, g: Point)

  ghost predicate FarApart(s: Places) { Ends3(s.a, s.m, s.b) && Outer(s) }

  ghost predicate Ends3(a: Point, m: Point, b: Point) {
    && Middle(a, b, m) && SqDist(a, m) == 0.25 && SqDist(b, m) == 0.25 && SqDist(a, b) == 1.0 && SqDist(b, a) == 1.0
    && SqDist(a, a) == 0.0 && SqDist(b, b) == 0.0
  }

  ghost predicate Outer(s: Places) {
    && SqDist(s.f, s.f) == 0.0
    && SqDist(s.a, s.f) > 1.0 && SqDist(s.b, s.f) > 1.0 && SqDist(s.a, s.g) > 1.0 && SqDist(s.b, s.g) > 1.0
    && SqDist(s.f, s.a) > 1.0 && SqDist(s.f, s.b) > 1.0 && SqDist(s.f, s.m) > 1.0 && SqDist(s.f, s.g) > 1.0
  }

  lemma SqOf(x: real, h: real)
    requires x == h || x == -h
    ensures Sq(x) == h * h
  {
    SqIs(x);
  }

  /** Points that differ in the first coordinate only. */
  lemma Beside(p: Point, c: Point, h: real, q: real)
    requires p.x0 - c.x0 == h && p.x1 == c.x1 && p.x2 == c.x2 && p.x3 == c.x3 && p.x4 == c.x4 && q == h * h
    ensures SqDist(p, c) == q && SqDist(c, p) == q
  {
    SqDistBasics(p, c);
    SqOf(p.x0 - c.x0, h);
    SqZero(p.x1 - c.x1);
    SqZero(p.x2 - c.x2);
    SqZero(p.x3 - c.x3);
    SqZero(p.x4 - c.x4);
  }

  /** Points whose second and third, or fourth and fifth, coordinates differ by one. */
  lemma Across(p: Point, c: Point, one: real)
    requires one == 1.0
    requires (c.x1 - p.x1 == one && c.x2 - p.x2 == one) || (c.x3 - p.x3 == one && c.x4 - p.x4 == one)
    ensures SqDist(p, c) > 1.0 && SqDist(c, p) > 1.0
  {
    SqDistBasics(p, c);
    SqBasics(p.x0 - c.x0);
    SqBasics(p.x1 - c.x1);
    SqBasics(p.x2 - c.x2);
    SqBasics(p.x3 - c.x3);
    SqBasics(p.x4 - c.x4);
    if c.x1 - p.x1 == one && c.x2 - p.x2 == one {
      SqOf(p.x1 - c.x1, one);
      SqOf(p.x2 - c.x2, one);
    } else {
      SqOf(p.x3 - c.x3, one);
      SqOf(p.x4 - c.x4, one);
    }
  }

  lemma SomeEnds(a: Point, m: Point, b: Point, half: real, one: real, quarter: real)
    requires half == 0.5 && one == 1.0 && quarter == 0.25
    requires a.x1 == m.x1 == b.x1 && a.x2 == m.x2 == b.x2 && a.x3 == m.x3 == b.x3 && a.x4 == m.x4 == b.x4
    requires m.x0 - a.x0 == half && b.x0 - m.x0 == half
    ensures Ends3(a, m, b)
  {
    Beside(m, a, half, quarter);
    Beside(b, m, half, quarter);
    Beside(b, a, one, one);
    SqDistBasics(a, a);
    SqDistBasics(b, b);
  }

  lemma SomeOuter(s: Places, zero: real, one: real)
    requires zero == 0.0 && one == 1.0
    requires s.a.x1 == s.b.x1 == s.m.x1 == zero && s.a.x2 == s.b.x2 == s.m.x2 == zero
    requires s.f.x1 == s.f.x2 == s.f.x3 == s.f.x4 == one && s.g.x1 == s.g.x2 == one && s.g.x3 == s.g.x4 == zero
    ensures Outer(s)
  {
    SqDistBasics(s.f, s.f);
    Across(s.a, s.f, one);
    Across(s.b, s.f, one);
    Across(s.a, s.g, one);
    Across(s.b, s.g, one);
    Across(s.m, s.f, one);
    Across(s.g, s.f, one);
  }

  lemma WithinCube(p: Point, zero: real, one: real)
    requires zero == 0.0 && one == 1.0
    requires zero <= p.x0 <= one && zero <= p.x1 <= one && zero <= p.x2 <= one && zero <= p.x3 <= one && zero <= p.x4 <= one
    ensures InCube(p)
  {
  }

  /** An edge of the unit cube, its middle, and two points over the middle. */
  function PlacesOver(zero: real, half: real, one: real): Places {
    Places(Point(zero, zero, zero, zero, zero), Point(one, zero, zero, zero, zero), Point(half, zero, zero, zero, zero),
           Point(half, one, one, one, one), Point(half, one, one, zero, zero))
  }

  /** Such places in the unit cube. */
  lemma SomePlaces(s: Places, zero: real, half: real, one: real)
    requires zero == 0.0 && half == 0.5 && one == 1.0 && s == PlacesOver(zero, half, one)
    ensures FarApart(s)
  {
    SomeEnds(s.a, s.m, s.b, half, one, 0.25);
    SomeOuter(s, zero, one);
  }

  lemma SomePlacesInCube(s: Places, zero: real, half: real, one: real)
    requires zero == 0.0 && half == 0.5 && one == 1.0 && s == PlacesOver(zero, half, one)
    ensures InCube(s.a) && InCube(s.b) && InCube(s.m) && InCube(s.f) && InCube(s.g)
  {
    WithinCube(s.a, zero, one);
    WithinCube(s.b, zero, one);
    WithinCube(s.m, zero, one);
    WithinCube(s.f, zero, one);
    WithinCube(s.g, zero, one);
  }

  lemma NearestOfFew(p: Point, cs: seq<Point>, i: nat)
    requires i < |cs| && forall j :: 0 <= j < |cs| ==> SqDist(p, cs[j]) >= SqDist(p, cs[i]) && (j < i ==> SqDist(p, cs[j]) > SqDist(p, cs[i]))
    ensures Nearest(p, cs) == i
  {
    OnlyNearest(p, cs, i);
  }

  lemma KeepsList(embs: seq<Point>, cs: seq<Point>, k: nat, ms: seq<Point>, a: seq<nat>)
    requires k < |cs| && a == Assign(embs, cs) && ms == Members(embs, a, k) && MeanOr(ms, cs[k]) == cs[k]
    ensures Round(embs, cs)[k] == cs[k]
  {
    RoundAt(embs, cs, a, k);
  }

  // ---- A loose cluster is split ----

  function LooseStart(s: Places): seq<Point> { [s.m, s.f, s.g, s.g] }

  function LooseCrowd(s: Places, n: nat): (embs: seq<Point>)
    ensures |embs| == 4 * n
  {
    Crowd(s.a, n, s.b, n, s.f, 2 * n)
  }

  function LooseLabels(n: nat): seq<nat> { Labels(0, n, 0, n, 1, 2 * n) }

  lemma LooseMembers(s: Places, n: nat, k: nat)
    ensures Members(LooseCrowd(s, n), LooseLabels(n), k)
            == if k == 0 then Group(s.a, n) + Group(s.b, n) else if k == 1 then Group(s.f, 2 * n) else []
  {
    MembersCrowd(s.a, n, s.b, n, s.f, 2 * n, 0, 0, 1, k);
    assert Group(s.a, n) + Group(s.b, n) + [] == Group(s.a, n) + Group(s.b, n);
    assert [] + [] + Group(s.f, 2 * n) == Group(s.f, 2 * n);
  }

  lemma LooseNearest(s: Places)
    requires FarApart(s)
    ensures var cs := LooseStart(s); Nearest(s.a, cs) == 0 && Nearest(s.b, cs) == 0 && Nearest(s.f, cs) == 1
  {
    NearestOfFew(s.a, LooseStart(s), 0);
    NearestOfFew(s.b, LooseStart(s), 0);
    NearestOfFew(s.f, LooseStart(s), 1);
  }

  lemma LooseRound(s: Places, n: nat)
    requires FarApart(s) && n > 0
    ensures Assign(LooseCrowd(s, n), LooseStart(s)) == LooseLabels(n)
    ensures Round(LooseCrowd(s, n), LooseStart(s)) == LooseStart(s)
  {
    var cs := LooseStart(s);
    LooseNearest(s);
    AssignCrowd(s.a, n, s.b, n, s.f, 2 * n, cs);
    MeanTwoGroups(s.a, s.b, n, s.m);
    MeanGroup(s.f, 2 * n);
    forall k | 0 <= k < |cs| ensures Round(LooseCrowd(s, n), cs)[k] == cs[k] {
      LooseMembers(s, n, k);
      KeepsList(LooseCrowd(s, n), cs, k, Members(LooseCrowd(s, n), LooseLabels(n), k), LooseLabels(n));
    }
    assert Round(LooseCrowd(s, n), cs) == cs;
  }

  lemma {:induction false} SpreadGroup(ms: seq<Point>, p: Point, n: nat, c: Point, root: real -> real)
    ensures Spread(ms + Group(p, n), c, root) == Spread(ms, c, root) + Times(n, root(SqDist(p, c)))
  {
    if n == 0 {
      assert ms + Group(p, 0) == ms;
    } else {
      SpreadGroup(ms, p, n - 1, c, root);
      Snoc(ms, Group(p, n - 1), p);
    }
  }

  lemma FiveHalves(n: nat, x: real)
    requires n == 5 && x == 0.5
    ensures Times(n, x) == 2.5
  {
    TimesIs(n, 5.0, x);
  }

  lemma LooseSpread(s: Places, root: real -> real, n: nat, h: real)
    requires FarApart(s) && root(0.25) == h == 0.5 && n == 5
    ensures Loose(Group(s.a, n) + Group(s.b, n), s.m, 3, root)
  {
    SpreadGroup([], s.a, n, s.m, root);
    assert [] + Group(s.a, n) == Group(s.a, n);
    SpreadGroup(Group(s.a, n), s.b, n, s.m, root);
    FiveHalves(n, h);
  }

  /** Ages by which only the first cluster is old. */
  ghost predicate FirstOld(ages: Ages) { ages == map[0 := 3] }

  lemma TellsFirst(s: Places, root: real -> real, n: nat, ages: Ages) returns (loose: seq<bool>, ends: seq<(Point, Point)>)
    requires FarApart(s) && root(0.25) == 0.5 && n == 5 && FirstOld(ages)
    ensures Tells(loose, ends, LooseCrowd(s, n), LooseLabels(n), LooseStart(s), ages, root)
    ensures loose == [true, false, false, false] && ends[0] == Ends(Group(s.a, n) + Group(s.b, n), s.m)
  {
    var embs, a, cs := LooseCrowd(s, n), LooseLabels(n), LooseStart(s);
    loose := [true, false, false, false];
    ends := seq(4, j requires 0 <= j < 4 => Ends(Members(embs, a, j), cs[j]));
    LooseSpread(s, root, n, 0.5);
    LooseMembers(s, n, 0);
  }

  lemma FarthestTwo(s: Places, ms: seq<Point>, x: Point, y: Point)
    requires FarApart(s) && Farthest(ms, x, y) && s.a in ms && s.b in ms && forall p :: p in ms ==> p == s.a || p == s.b
    ensures (x == s.a && y == s.b) || (x == s.b && y == s.a)
  {
    assert SqDist(s.a, s.b) <= SqDist(x, y);
  }

  lemma FirstTurn(stages: seq<seq<Point>>, cs: seq<Point>, loose: seq<bool>, ends: seq<(Point, Point)>, x: Point, y: Point)
    requires Turns(stages, cs, loose, ends) && |cs| == 4 && loose == [true, false, false, false] && ends[0] == (x, y)
    ensures stages[4] == [x, cs[1], cs[2], cs[3], y]
  {
    assert stages[0 + 1] == cs[0 := x] + [y];
    assert stages[1 + 1] == stages[1] && stages[2 + 1] == stages[2] && stages[3 + 1] == stages[3];
  }

  lemma GroupMembers(p: Point, q: Point, n: nat)
    requires n > 0
    ensures var ms := Group(p, n) + Group(q, n); p in ms && q in ms && forall x :: x in ms ==> x == p || x == q
  {
    var ms := Group(p, n) + Group(q, n);
    assert ms[0] == p && ms[n] == q;
  }

  lemma LooseSplits(s: Places, root: real -> real, n: nat, ages: Ages) returns (x: Point, y: Point)
    requires FarApart(s) && root(0.25) == 0.5 && n == 5 && FirstOld(ages)
    ensures Splits(LooseCrowd(s, n), LooseLabels(n), LooseStart(s), ages, root, 4) == [x, s.f, s.g, s.g, y]
    ensures (x == s.a && y == s.b) || (x == s.b && y == s.a)
  {
    var ms := Group(s.a, n) + Group(s.b, n);
    var loose, ends := TellsFirst(s, root, n, ages);
    var stages := SplitsTakeTurns(loose, ends, LooseCrowd(s, n), LooseLabels(n), LooseStart(s), ages, root);
    x, y := ends[0].0, ends[0].1;
    FirstTurn(stages, LooseStart(s), loose, ends, x, y);
    EndsFarthest(ms, s.m);
    GroupMembers(s.a, s.b, n);
    FarthestTwo(s, ms, x, y);
  }

  lemma SplitNearest(s: Places, split: seq<Point>, x: Point, y: Point)
    requires FarApart(s) && split == [x, s.f, s.g, s.g, y] && ((x == s.a && y == s.b) || (x == s.b && y == s.a))
    ensures Nearest(x, split) == 0 && Nearest(y, split) == 4 && Nearest(s.f, split) == 1
  {
    NearestOfFew(x, split, 0);
    NearestOfFew(y, split, 4);
    NearestOfFew(s.f, split, 1);
  }

  lemma SplitCrowdStays(s: Places, split: seq<Point>, i: nat, j: nat, n: nat)
    requires |split| == 5 && n == 5 && i != j && i != 1 && j != 1
    requires Nearest(s.a, split) == i && Nearest(s.b, split) == j && Nearest(s.f, split) == 1
    ensures Collapsed(LooseCrowd(s, n), split) == split
  {
    var a := Labels(i, n, j, n, 1, 2 * n);
    AssignCrowd(s.a, n, s.b, n, s.f, 2 * n, split);
    forall k | k in a ensures Tally(a, k) as real <= 0.60 * |LooseCrowd(s, n)| as real {
      TallyCrowd(i, n, j, n, 1, 2 * n, k);
    }
    NothingCollapses(LooseCrowd(s, n), split, a);
  }

  /** Ten accounts, half of them at either end of a cluster that is three passes old, and ten somewhere else: the
      pass replaces the cluster's centroid by the two ends. */
  lemma LooseClusterSplits(s: Places, quality: Qualities, root: real -> real, n: nat, ages: Ages) returns (x: Point, y: Point)
    requires FarApart(s) && root(0.25) == 0.5 && n == 5 && FirstOld(ages)
    ensures Pass(LooseCrowd(s, n), LooseStart(s), ages, quality, root) == [x, s.f, s.g, s.g, y]
    ensures (x == s.a && y == s.b) || (x == s.b && y == s.a)
  {
    LooseRound(s, n);
    x, y := LooseSplits(s, root, n, ages);
    var split := [x, s.f, s.g, s.g, y];
    YoungStay(split, ages, quality);
    StillPass(LooseCrowd(s, n), LooseStart(s), ages, quality, root, split, split);
    SplitNearest(s, split, x, y);
    SplitCrowdStays(s, split, if x == s.a then 0 else 4, if x == s.a then 4 else 0, n);
  }

  // ---- Tight clusters are not split ----

  function TightStart(s: Places): seq<Point> { [s.a, s.f, s.g, s.g] }

  function TightCrowd(s: Places, n: nat): (embs: seq<Point>)
    ensures |embs| == 2 * n
  {
    Crowd(s.a, n, s.f, n, s.f, 0)
  }

  function TightLabels(n: nat): seq<nat> { Labels(0, n, 1, n, 1, 0) }

  lemma TightMembers(s: Places, n: nat, k: nat)
    ensures Members(TightCrowd(s, n), TightLabels(n), k) == if k == 0 then Group(s.a, n) else if k == 1 then Group(s.f, n) else []
  {
    MembersCrowd(s.a, n, s.f, n, s.f, 0, 0, 1, 1, k);
    assert Group(s.a, n) + [] + [] == Group(s.a, n) && [] + Group(s.f, n) + [] == Group(s.f, n);
  }

  lemma TightRound(s: Places, n: nat)
    requires FarApart(s) && n > 0
    ensures Assign(TightCrowd(s, n), TightStart(s)) == TightLabels(n)
    ensures Round(TightCrowd(s, n), TightStart(s)) == TightStart(s)
  {
    var cs := TightStart(s);
    NearestOfFew(s.a, cs, 0);
    NearestOfFew(s.f, cs, 1);
    AssignCrowd(s.a, n, s.f, n, s.f, 0, cs);
    MeanGroup(s.a, n);
    MeanGroup(s.f, n);
    forall k | 0 <= k < |cs| ensures Round(TightCrowd(s, n), cs)[k] == cs[k] {
      TightMembers(s, n, k);
      KeepsList(TightCrowd(s, n), cs, k, Members(TightCrowd(s, n), TightLabels(n), k), TightLabels(n));
    }
    assert Round(TightCrowd(s, n), cs) == cs;
  }

  lemma {:induction false} TimesZero(n: nat, x: real)
    requires x == 0.0
    ensures Times(n, x) == 0.0
  {
    if n > 0 {
      TimesZero(n - 1, x);
    }
  }

  lemma TightSpread(p: Point, n: nat, age: nat, root: real -> real)
    requires SqDist(p, p) == 0.0 && root(0.0) == 0.0
    ensures !Loose(Group(p, n), p, age, root)
  {
    SpreadGroup([], p, n, p, root);
    assert [] + Group(p, n) == Group(p, n);
    TimesZero(n, root(SqDist(p, p)));
  }

  lemma TightNotLoose(s: Places, n: nat, k: nat, age: nat, root: real -> real)
    requires FarApart(s) && root(0.0) == 0.0 && k < 4
    ensures !Loose(Members(TightCrowd(s, n), TightLabels(n), k), TightStart(s)[k], age, root)
  {
    TightMembers(s, n, k);
    TightSpread(s.a, n, age, root);
    TightSpread(s.f, n, age, root);
  }

  lemma NoTurn(stages: seq<seq<Point>>, cs: seq<Point>, loose: seq<bool>, ends: seq<(Point, Point)>)
    requires Turns(stages, cs, loose, ends) && |cs| == 4 && loose == [false, false, false, false]
    ensures stages[4] == cs
  {
    assert stages[0 + 1] == stages[0] && stages[1 + 1] == stages[1] && stages[2 + 1] == stages[2] && stages[3 + 1] == stages[3];
  }

  lemma TightSplits(s: Places, root: real -> real, n: nat, ages: Ages)
    requires FarApart(s) && root(0.0) == 0.0
    ensures Splits(TightCrowd(s, n), TightLabels(n), TightStart(s), ages, root, 4) == TightStart(s)
  {
    var embs, a, cs := TightCrowd(s, n), TightLabels(n), TightStart(s);
    var loose := [false, false, false, false];
    var ends := seq(4, j requires 0 <= j < 4 => Ends(Members(embs, a, j), cs[j]));
    forall j | 0 <= j < 4 ensures !Loose(Members(embs, a, j), cs[j], if j in ages then ages[j] else 0, root) {
      TightNotLoose(s, n, j, if j in ages then ages[j] else 0, root);
    }
    var stages := SplitsTakeTurns(loose, ends, embs, a, cs, ages, root);
    NoTurn(stages, cs, loose, ends);
  }

  lemma TightCrowdStays(s: Places, n: nat)
    requires FarApart(s) && n > 0 && Assign(TightCrowd(s, n), TightStart(s)) == TightLabels(n)
    ensures Collapsed(TightCrowd(s, n), TightStart(s)) == TightStart(s)
  {
    forall k | k in TightLabels(n) ensures Tally(TightLabels(n), k) as real <= 0.60 * |TightCrowd(s, n)| as real {
      TallyCrowd(0, n, 1, n, 1, 0, k);
    }
    NothingCollapses(TightCrowd(s, n), TightStart(s), TightLabels(n));
  }

  /** Only the first two clusters are old, and they are far apart. */
  lemma OldFarApart(s: Places, ages: Ages)
    requires FarApart(s) && ages == map[0 := 3, 1 := 3]
    ensures forall i, j :: 0 <= i < j < 4 ==> !Mergeable(TightStart(s), ages, i, j)
  {
    forall i, j | 0 <= i < j < 4 ensures !Mergeable(TightStart(s), ages, i, j) {
      assert i == 0 && j == 1 ==> SqDist(TightStart(s)[i], TightStart(s)[j]) > 1.0;
    }
  }

  /** Two tight clusters far apart, however large and old: the pass changes nothing. */
  lemma TightClustersStay(s: Places, quality: Qualities, root: real -> real, n: nat, ages: Ages)
    requires FarApart(s) && root(0.0) == 0.0 && n > 0 && ages == map[0 := 3, 1 := 3]
    ensures Pass(TightCrowd(s, n), TightStart(s), ages, quality, root) == TightStart(s)
  {
    var cs := TightStart(s);
    TightRound(s, n);
    TightSplits(s, root, n, ages);
    OldFarApart(s, ages);
    NothingMerges(cs, ages, quality);
    StillPass(TightCrowd(s, n), cs, ages, quality, root, cs, cs);
    TightCrowdStays(s, n);
  }
}
