/** Passes over two and over six accounts that lie close together, from centroids that lie anywhere else:
    collapse prevention gives the accounts clusters of their own, and merging throws one out of the cube. */
module LinePasses {
  import opened Sequences
  import opened Reals
  import opened Vectors
  import opened Lloyd
  import opened Splitting
  import opened Reshaping
  import opened SmallPasses

  /** Three places on the line, and none of the centroids near. */
  ghost predicate Spots(p: real, q: real, r: real) { p == 0.5005 && q == 0.5006 && r == 0.5007 }

  ghost predicate Away(cs: seq<Point>) {
    |cs| > 0 && forall k :: 0 <= k < |cs| ==> cs[k].x0 <= 0.5 || cs[k].x0 >= 0.501
  }

  function One(base: seq<Point>, l: nat, x: real): (cs: seq<Point>)
    requires l < |base|
    ensures |cs| == |base|
  {
    base[l := On(x)]
  }

  function Two(base: seq<Point>, l: nat, x: real, y: real): (cs: seq<Point>)
    requires l < |base|
    ensures |cs| == |base| + 1
  {
    base[l := On(x)] + [On(y)]
  }

  function Three(base: seq<Point>, l: nat, x: real, y: real, z: real): (cs: seq<Point>)
    requires l < |base|
    ensures |cs| == |base| + 2
  {
    base[l := On(x)] + [On(y), On(z)]
  }

  // ---- Nearest centroids ----

  /** A point between the places is farther from all the other centroids than the places are apart. */
  ghost predicate OnStretch(x: real) { 0.5005 <= x <= 0.5007 }

  lemma NearOne(base: seq<Point>, l: nat, x: real)
    requires Away(base) && l < |base| && OnStretch(x)
    ensures Nearest(On(x), One(base, l, x)) == l
  {
    NearestOn(One(base, l, x), x, x, l);
  }

  /** Of two places the nearer one, and the first if they are equally near. */
  lemma NearTwo(base: seq<Point>, l: nat, x: real, y: real, z: real)
    requires Away(base) && l < |base| && OnStretch(x) && OnStretch(y) && OnStretch(z)
    ensures Nearest(On(x), Two(base, l, y, z)) == if Abs(x - y) <= Abs(x - z) then l else |base|
  {
    var cs := Two(base, l, y, z);
    if Abs(x - y) <= Abs(x - z) {
      NearestOn(cs, x, y, l);
    } else {
      NearestOn(cs, x, z, |base|);
    }
  }

  lemma NearThree(base: seq<Point>, l: nat, x: real, y: real, z: real)
    requires Away(base) && l < |base| && OnStretch(x) && OnStretch(y) && OnStretch(z) && x != y && y != z && x != z
    ensures var cs := Three(base, l, x, y, z);
            Nearest(On(x), cs) == l && Nearest(On(y), cs) == |base| && Nearest(On(z), cs) == |base| + 1
  {
    var cs := Three(base, l, x, y, z);
    NearestOn(cs, x, x, l);
    NearestOn(cs, y, y, |base|);
    NearestOn(cs, z, z, |base| + 1);
  }

  // ---- Rounds ----

  lemma RoundTwice(cs: seq<Point>, x: real, i: nat)
    requires i < |cs| && Nearest(On(x), cs) == i
    ensures Round(Twice(x), cs) == cs[i := On(x)]
  {
    AssignTwice(x, cs);
    MeanTwice(x);
    forall k | 0 <= k < |cs| ensures Round(Twice(x), cs)[k] == cs[i := On(x)][k] {
      RoundAt(Twice(x), cs, [i, i], k);
      MembersTwice(x, i, k);
    }
  }

  /** The centroid k of the next round is the mean of its group, or stays. */
  lemma RoundOne(cs: seq<Point>, p: real, q: real, r: real, a: seq<nat>, k: nat, ms: seq<Point>)
    requires k < |cs| && a == Assign(Trio(p, q, r), cs) && ms == Members(Trio(p, q, r), a, k)
    ensures Round(Trio(p, q, r), cs)[k] == MeanOr(ms, cs[k])
  {
    RoundAt(Trio(p, q, r), cs, a, k);
  }

  lemma SameEverywhere(xs: seq<Point>, ys: seq<Point>)
    requires |xs| == |ys| && forall k :: 0 <= k < |xs| ==> xs[k] == ys[k]
    ensures xs == ys
  {
  }

  lemma RoundAll(cs: seq<Point>, p: real, q: real, r: real, i: nat)
    requires i < |cs| && p + r == 2.0 * q
    requires Nearest(On(p), cs) == i && Nearest(On(q), cs) == i && Nearest(On(r), cs) == i
    ensures Round(Trio(p, q, r), cs) == cs[i := On(q)]
  {
    AssignTrio(p, q, r, cs);
    MeanTrio(p, q, r);
    forall k | 0 <= k < |cs| ensures Round(Trio(p, q, r), cs)[k] == cs[i := On(q)][k] {
      MembersAll(p, q, r, i, k);
      RoundOne(cs, p, q, r, Six(i, i, i), k, if k == i then Trio(p, q, r) else []);
    }
    SameEverywhere(Round(Trio(p, q, r), cs), cs[i := On(q)]);
  }

  lemma MembersAll(p: real, q: real, r: real, i: nat, k: nat)
    ensures Members(Trio(p, q, r), Six(i, i, i), k) == if k == i then Trio(p, q, r) else []
  {
    MembersTrio(p, q, r, i, i, i, k);
  }

  lemma RoundSplitAt(cs: seq<Point>, p: real, q: real, r: real, m: real, i: nat, j: nat, k: nat)
    requires i < |cs| && j < |cs| && i != j && q + r == 2.0 * m && k < |cs| && Assign(Trio(p, q, r), cs) == Six(i, j, j)
    ensures Round(Trio(p, q, r), cs)[k] == if k == j then On(m) else if k == i then On(p) else cs[k]
  {
    MembersOneTwo(p, q, r, i, j, k);
    RoundOne(cs, p, q, r, Six(i, j, j), k, if k == i then Twice(p) else if k == j then Twice(q) + Twice(r) else []);
    MeanTwice(p);
    MeanTwoPairs(q, r, m);
  }

  lemma RoundSplit(cs: seq<Point>, p: real, q: real, r: real, m: real, i: nat, j: nat)
    requires i < |cs| && j < |cs| && i != j && q + r == 2.0 * m
    requires Nearest(On(p), cs) == i && Nearest(On(q), cs) == j && Nearest(On(r), cs) == j
    ensures Round(Trio(p, q, r), cs) == cs[i := On(p)][j := On(m)]
  {
    AssignTrio(p, q, r, cs);
    forall k | 0 <= k < |cs| ensures Round(Trio(p, q, r), cs)[k] == cs[i := On(p)][j := On(m)][k] {
      RoundSplitAt(cs, p, q, r, m, i, j, k);
    }
    SameEverywhere(Round(Trio(p, q, r), cs), cs[i := On(p)][j := On(m)]);
  }

  lemma MembersOneTwo(p: real, q: real, r: real, i: nat, j: nat, k: nat)
    requires i != j
    ensures Members(Trio(p, q, r), Six(i, j, j), k) == if k == i then Twice(p) else if k == j then Twice(q) + Twice(r) else []
  {
    MembersTrio(p, q, r, i, j, j, k);
  }

  lemma RoundApartAt(cs: seq<Point>, p: real, q: real, r: real, i: nat, j: nat, h: nat, k: nat)
    requires i < |cs| && j < |cs| && h < |cs| && i != j && i != h && j != h && k < |cs| && Assign(Trio(p, q, r), cs) == Six(i, j, h)
    ensures Round(Trio(p, q, r), cs)[k] == if k == i then On(p) else if k == j then On(q) else if k == h then On(r) else cs[k]
  {
    MembersApart(p, q, r, i, j, h, k);
    RoundOne(cs, p, q, r, Six(i, j, h), k, if k == i then Twice(p) else if k == j then Twice(q) else if k == h then Twice(r) else []);
    MeanTwice(p);
    MeanTwice(q);
    MeanTwice(r);
  }

  lemma ThreeUpdates(cs: seq<Point>, i: nat, x: Point, j: nat, y: Point, h: nat, z: Point, k: nat)
    requires i < |cs| && j < |cs| && h < |cs| && i != j && i != h && j != h && k < |cs|
    ensures cs[i := x][j := y][h := z][k] == if k == i then x else if k == j then y else if k == h then z else cs[k]
  {
  }

  lemma RoundApart(cs: seq<Point>, p: real, q: real, r: real, i: nat, j: nat, h: nat)
    requires i < |cs| && j < |cs| && h < |cs| && i != j && i != h && j != h
    requires Nearest(On(p), cs) == i && Nearest(On(q), cs) == j && Nearest(On(r), cs) == h
    ensures Round(Trio(p, q, r), cs) == cs[i := On(p)][j := On(q)][h := On(r)]
  {
    var next := cs[i := On(p)][j := On(q)][h := On(r)];
    AssignTrio(p, q, r, cs);
    forall k | 0 <= k < |cs| ensures Round(Trio(p, q, r), cs)[k] == next[k] {
      RoundApartAt(cs, p, q, r, i, j, h, k);
      ThreeUpdates(cs, i, On(p), j, On(q), h, On(r), k);
    }
    SameEverywhere(Round(Trio(p, q, r), cs), next);
  }

  lemma MembersApart(p: real, q: real, r: real, i: nat, j: nat, h: nat, k: nat)
    requires i != j && i != h && j != h
    ensures Members(Trio(p, q, r), Six(i, j, h), k)
            == if k == i then Twice(p) else if k == j then Twice(q) else if k == h then Twice(r) else []
  {
    MembersTrio(p, q, r, i, j, h, k);
  }

  // ---- The first pass: two accounts at one place get two centroids ----

  lemma FirstRounds(base: seq<Point>, l: nat, p: real, n: nat)
    requires Away(base) && OnStretch(p) && l == Nearest(On(p), base) && n == KMEANS_ITERS
    ensures Rounds(Twice(p), base, n) == One(base, l, p)
  {
    var cs := One(base, l, p);
    RoundTwice(base, p, l);
    NearOne(base, l, p);
    RoundTwice(cs, p, l);
    assert cs[l := On(p)] == cs;
    assert Rounds(Twice(p), base, 0) == base;
    RoundsStandStill(Twice(p), base, 1, n, cs);
  }

  lemma LargestOfOne(l: nat)
    ensures Largest([l, l], 2) == l && Tally([l, l], l) == 2
  {
    TallyPair([], l, l);
    assert [] + [l, l] == [l, l];
  }

  lemma FirstSplit(base: seq<Point>, l: nat, p: real)
    requires l < |base|
    ensures SplitOne(One(base, l, p), l, Twice(p)) == Two(base, l, p, p)
  {
    SeedsOfTwins(p);
    assert One(base, l, p)[l := On(p)] == One(base, l, p);
  }

  lemma FirstCollapse(base: seq<Point>, l: nat, p: real)
    requires Away(base) && OnStretch(p) && l < |base| < K_MAX
    ensures Collapsed(Twice(p), One(base, l, p)) == Two(base, l, p, p)
  {
    NearOne(base, l, p);
    AssignTwice(p, One(base, l, p));
    LargestOfOne(l);
    MembersTwice(p, l, l);
    FirstSplit(base, l, p);
  }

  lemma FirstPass(base: seq<Point>, l: nat, p: real, ages: Ages, quality: Qualities, root: real -> real)
    requires Away(base) && OnStretch(p) && l == Nearest(On(p), base) && |base| < K_MAX && Young(ages, |base|)
    ensures Pass(Twice(p), base, ages, quality, root) == Two(base, l, p, p)
  {
    var n := KMEANS_ITERS;
    FirstRounds(base, l, p, n);
    YoungStay(One(base, l, p), ages, quality);
    SmallPass(Twice(p), base, ages, quality, root, n, One(base, l, p), One(base, l, p));
    FirstCollapse(base, l, p);
  }

  // ---- The second pass: six accounts at three places get three centroids ----

  lemma SecondRounds(base: seq<Point>, l: nat, p: real, q: real, r: real, u: real, n: nat)
    requires Away(base) && Spots(p, q, r) && l < |base| && u == 0.50065 && n == KMEANS_ITERS
    ensures Rounds(Trio(p, q, r), Two(base, l, p, p), n) == Two(base, l, u, p)
  {
    var embs, cs0, cs1, cs2 := Trio(p, q, r), Two(base, l, p, p), Two(base, l, q, p), Two(base, l, u, p);
    NearTwo(base, l, p, p, p);
    NearTwo(base, l, q, p, p);
    NearTwo(base, l, r, p, p);
    RoundAll(cs0, p, q, r, l);
    assert cs0[l := On(q)] == cs1;
    SecondRound(base, l, p, q, r, u, q);
    SecondRound(base, l, p, q, r, u, u);
    assert Rounds(embs, cs0, 0) == cs0;
    assert Rounds(embs, cs0, 1) == cs1;
    RoundsStandStill(embs, cs0, 2, n, cs2);
  }

  lemma SecondRound(base: seq<Point>, l: nat, p: real, q: real, r: real, u: real, x: real)
    requires Away(base) && Spots(p, q, r) && l < |base| && u == 0.50065 && (x == q || x == u)
    ensures Round(Trio(p, q, r), Two(base, l, x, p)) == Two(base, l, u, p)
  {
    var cs := Two(base, l, x, p);
    NearTwo(base, l, p, x, p);
    NearTwo(base, l, q, x, p);
    NearTwo(base, l, r, x, p);
    RoundSplit(cs, p, q, r, u, |base|, l);
    assert cs[|base| := On(p)][l := On(u)] == Two(base, l, u, p);
  }

  lemma LargestOfTwo(a: seq<nat>, i: nat, j: nat)
    requires a == Six(i, j, j) && i != j
    ensures Largest(a, |a|) == j && Tally(a, j) == 4
  {
    TallySix(i, j, j, i);
    TallySix(i, j, j, j);
    assert a[2] == j;
    LargestIsLargest(a, |a|, 2);
  }

  lemma SecondCollapse(base: seq<Point>, l: nat, p: real, q: real, r: real, u: real)
    requires Away(base) && Spots(p, q, r) && l < |base| && |base| + 1 < K_MAX && u == 0.50065
    ensures Collapsed(Trio(p, q, r), Two(base, l, u, p)) == Three(base, l, q, p, r)
  {
    var cs, n := Two(base, l, u, p), |base|;
    NearTwo(base, l, p, u, p);
    NearTwo(base, l, q, u, p);
    NearTwo(base, l, r, u, p);
    AssignTrio(p, q, r, cs);
    LargestOfTwo(Six(n, l, l), n, l);
    MembersOneTwo(p, q, r, n, l, l);
    SeedsOfTwoPairs(q, r);
    SplitInTwo(base, l, p, q, r, u);
  }

  lemma SplitInTwo(base: seq<Point>, l: nat, p: real, q: real, r: real, u: real)
    requires l < |base| && q < r
    ensures SplitOne(Two(base, l, u, p), l, Twice(q) + Twice(r)) == Three(base, l, q, p, r)
  {
    SeedsOfTwoPairs(q, r);
  }

  lemma SecondPass(base: seq<Point>, l: nat, p: real, q: real, r: real, ages: Ages, quality: Qualities, root: real -> real)
    requires Away(base) && Spots(p, q, r) && l < |base| && |base| + 1 < K_MAX && Young(ages, |base| + 1)
    ensures Pass(Trio(p, q, r), Two(base, l, p, p), ages, quality, root) == Three(base, l, q, p, r)
  {
    var n, u := KMEANS_ITERS, 0.50065;
    var cs := Two(base, l, u, p);
    SecondRounds(base, l, p, q, r, u, n);
    YoungStay(cs, ages, quality);
    SmallPass(Trio(p, q, r), Two(base, l, p, p), ages, quality, root, n, cs, cs);
    SecondCollapse(base, l, p, q, r, u);
  }

  // ---- The next passes: nothing changes while the clusters are young ----

  lemma ThirdRounds(base: seq<Point>, l: nat, p: real, q: real, r: real, n: nat)
    requires Away(base) && Spots(p, q, r) && l < |base|
    ensures Rounds(Trio(p, q, r), Three(base, l, q, p, r), n) == Three(base, l, q, p, r)
  {
    var cs := Three(base, l, q, p, r);
    NearThree(base, l, q, p, r);
    RoundApart(cs, p, q, r, |base|, l, |base| + 1);
    assert cs[|base| := On(p)][l := On(q)][|base| + 1 := On(r)] == cs;
    assert Rounds(Trio(p, q, r), cs, 0) == cs;
    RoundsStandStill(Trio(p, q, r), cs, 0, n, cs);
  }

  lemma NoneLargest(a: seq<nat>, n: nat, l: nat)
    requires l < n && a == Six(n, l, n + 1)
    ensures Tally(a, Largest(a, |a|)) == 2
  {
    var k := Largest(a, |a|);
    TallySix(n, l, n + 1, k);
    assert a == [n, n, l, l, n + 1, n + 1];
  }

  lemma ThirdCollapse(base: seq<Point>, l: nat, p: real, q: real, r: real)
    requires Away(base) && Spots(p, q, r) && l < |base|
    ensures Collapsed(Trio(p, q, r), Three(base, l, q, p, r)) == Three(base, l, q, p, r)
  {
    var cs, n := Three(base, l, q, p, r), |base|;
    NearThree(base, l, q, p, r);
    AssignTrio(p, q, r, cs);
    NoneLargest(Six(n, l, n + 1), n, l);
  }

  lemma ThirdPass(base: seq<Point>, l: nat, p: real, q: real, r: real, ages: Ages, quality: Qualities, root: real -> real)
    requires Away(base) && Spots(p, q, r) && l < |base| && Young(ages, |base| + 2)
    ensures Pass(Trio(p, q, r), Three(base, l, q, p, r), ages, quality, root) == Three(base, l, q, p, r)
  {
    var n := KMEANS_ITERS;
    var cs := Three(base, l, q, p, r);
    ThirdRounds(base, l, p, q, r, n);
    YoungStay(cs, ages, quality);
    SmallPass(Trio(p, q, r), cs, ages, quality, root, n, cs, cs);
    ThirdCollapse(base, l, p, q, r);
  }

  // ---- The last pass: the first two places merge out of the cube ----

  ghost predicate Newborn(ages: Ages, k: nat) { Age(ages, k) == 0 }

  /** All clusters below n but l are newborn. */
  ghost predicate OthersNewborn(ages: Ages, l: nat, n: nat) {
    forall k: nat :: k < n && k != l ==> Newborn(ages, k)
  }

  /** Only the three clusters with accounts are old enough to merge. */
  ghost predicate ThreeOld(ages: Ages, l: nat, n: nat) {
    && Age(ages, l) >= AGE_MIN_OPS && Age(ages, n) >= AGE_MIN_OPS && Age(ages, n + 1) >= AGE_MIN_OPS
    && OthersNewborn(ages, l, n)
  }

  lemma CloseBy(x: real, y: real)
    requires OnStretch(x) && OnStretch(y)
    ensures SqDist(On(x), On(y)) < MERGE_DIST * MERGE_DIST
  {
    var d := 0.05;
    OnDistance(x, y);
    SqGrows(d, x - y);
    SqSize(d, d);
  }

  lemma FarFromNegative(b: Point, x: real)
    requires b.x0 < 0.0 && OnStretch(x)
    ensures SqDist(b, On(x)) >= MERGE_DIST * MERGE_DIST
  {
    var d := 0.1;
    SqDistBasics(b, On(x));
    FromLine(x, b);
    SqGrows(x - b.x0, d);
    SqSize(d, d);
  }

  lemma NegativeMix(qi: real, x: real, qj: real, y: real)
    requires qi < 0.0 && qj < 0.0 && x > 0.0 && y > 0.0
    ensures Mix(Weight(qi, 1.0), x, Weight(qj, 1.0), y) < 0.0
  {
    QuotientIs(qi, 1.0);
    QuotientIs(qj, 1.0);
    ProductIs(Weight(qi, 1.0), x);
    ProductIs(Weight(qj, 1.0), y);
    PositiveProduct(-qi, x);
    PositiveProduct(-qj, y);
    assert (-qi) * x == -(qi * x) && (-qj) * y == -(qj * y);
  }

  lemma NegativeBlend(cs: seq<Point>, quality: Qualities, i: nat, j: nat)
    requires i < |cs| && j < |cs| && Quality(quality, i) < 0.0 && Quality(quality, j) < 0.0
    requires cs[i].x0 > 0.0 && cs[j].x0 > 0.0
    ensures Blend(cs, quality, i, j).x0 < 0.0
  {
    NegativeMix(Quality(quality, i), cs[i].x0, Quality(quality, j), cs[j].x0);
  }

  /** What is left after the merge: the blend in place of the first, and the last place moved down. */
  lemma LastPair(base: seq<Point>, l: nat, p: real, q: real, r: real, quality: Qualities)
    requires l < |base|
    ensures var cs := Three(base, l, q, p, r);
            MergePair(cs, quality, l, |base|) == base[l := Blend(cs, quality, l, |base|)] + [On(r)]
  {
  }

  lemma LastMerge(base: seq<Point>, l: nat, p: real, q: real, r: real, ages: Ages, quality: Qualities, b: Point)
    requires Away(base) && Spots(p, q, r) && l < |base| && |base| >= K_MIN && ThreeOld(ages, l, |base|)
    requires Quality(quality, l) < 0.0 && Quality(quality, |base|) < 0.0
    requires b == Blend(Three(base, l, q, p, r), quality, l, |base|)
    ensures b.x0 < 0.0 && Merged(Three(base, l, q, p, r), ages, quality) == base[l := b] + [On(r)]
  {
    var cs, n, next := Three(base, l, q, p, r), |base|, base[l := b] + [On(r)];
    NegativeBlend(cs, quality, l, n);
    LastPair(base, l, p, q, r, quality);
    CloseBy(q, p);
    forall i, j | 0 <= i < j < |cs| && (i < l || (i == l && j < n)) ensures !Mergeable(cs, ages, i, j) {
      assert if i < l then Newborn(ages, i) else Newborn(ages, j);
    }
    forall i, j | 0 <= i < j < |next| ensures !Mergeable(next, ages, i, j) {
      FarFromNegative(b, r);
      assert i != l ==> Newborn(ages, i);
      assert j < n && j != l ==> Newborn(ages, j);
    }
    MergesOnce(cs, ages, quality, l, n, next);
  }

  /** The accounts have a nearer centroid than the blend, so collapse prevention leaves the blend alone. */
  lemma LastCollapse(base: seq<Point>, l: nat, p: real, q: real, r: real, b: Point)
    requires Away(base) && Spots(p, q, r) && l < |base| && b.x0 < 0.0
    ensures b in Collapsed(Trio(p, q, r), base[l := b] + [On(r)])
  {
    var cs, n := base[l := b] + [On(r)], |base|;
    NearestOn(cs, p, r, n);
    NearestOn(cs, q, r, n);
    NearestOn(cs, r, r, n);
    AssignTrio(p, q, r, cs);
    var k := Largest(Six(n, n, n), 6);
    var next := Collapsed(Trio(p, q, r), cs);
    assert k == n && next[l] == b;
  }

  lemma LastPass(base: seq<Point>, l: nat, p: real, q: real, r: real, ages: Ages, quality: Qualities, root: real -> real)
    requires Away(base) && Spots(p, q, r) && l < |base| && |base| >= K_MIN && ThreeOld(ages, l, |base|)
    requires Quality(quality, l) < 0.0 && Quality(quality, |base|) < 0.0
    ensures !AllInCube(Pass(Trio(p, q, r), Three(base, l, q, p, r), ages, quality, root))
  {
    var n, cs := KMEANS_ITERS, Three(base, l, q, p, r);
    var b := Blend(cs, quality, l, |base|);
    ThirdRounds(base, l, p, q, r, n);
    LastMerge(base, l, p, q, r, ages, quality, b);
    SmallPass(Trio(p, q, r), cs, ages, quality, root, n, cs, base[l := b] + [On(r)]);
    LastCollapse(base, l, p, q, r, b);
    assert !InCube(b);
  }
}
