/** Split, merge and collapse prevention: the steps of run_clustering that change the number of centroids. */
module Reshaping {
  import opened Sequences
  import opened Reals
  import opened Vectors
  import opened Lloyd
  import opened Splitting

  const K_MIN := 3
  const K_MAX := 12
  const SPLIT_SIZE := 8
  const SPLIT_COHESION := 0.40
  const MERGE_DIST := 0.10
  const AGE_MIN_OPS := 3
  const COLLAPSE_FRAC := 0.60

  type Ages = map<nat, nat>
  type Qualities = map<nat, real>

  function Age(ages: Ages, k: nat): nat { if k in ages then ages[k] else 0 }

  function Quality(quality: Qualities, k: nat): real { if k in quality then quality[k] else 0.5 }

  /** No cluster number that can occur has a negative quality. */
  ghost predicate NonNegative(quality: Qualities) {
    forall k: nat :: k < K_MAX ==> Quality(quality, k) >= 0.0
  }

  /** Distance to the centroid, for whatever function computes the root. */
  function RootDistTo(c: Point, root: real -> real): Point -> real {
    (p: Point) => root(SqDist(p, c))
  }

  /** Average distance of the members to their centroid. */
  function Cohesion(members: seq<Point>, c: Point, root: real -> real): real {
    if |members| == 0 then 0.0 else Quotient(SumBy(members, RootDistTo(c, root)), |members| as real)
  }

  // ---- Split ----

  predicate Ripe(members: seq<Point>, c: Point, age: nat, root: real -> real) {
    age >= AGE_MIN_OPS && |members| > SPLIT_SIZE && Cohesion(members, c, root) > SPLIT_COHESION
  }

  function SplitOne(cs: seq<Point>, k: nat, members: seq<Point>): seq<Point>
    requires k < |cs| && |members| > 0
  {
    cs[k := Seeds(members).0] + [Seeds(members).1]
  }

  /** Cluster k is split in place if it is ripe and the list still has room. */
  function OfferSplit(prev: seq<Point>, k: nat, members: seq<Point>, c: Point, age: nat, root: real -> real): (r: seq<Point>)
    requires k < |prev|
    ensures |prev| <= |r| && (|prev| <= K_MAX ==> |r| <= K_MAX)
  {
    if Ripe(members, c, age, root) && |prev| < K_MAX then SplitOne(prev, k, members) else prev
  }

  /** The centroid list after the first k clusters were offered a split. */
  function Splits(embs: seq<Point>, a: seq<nat>, cs: seq<Point>, ages: Ages, root: real -> real, k: nat): (r: seq<Point>)
    requires |a| == |embs| && k <= |cs|
    ensures |cs| <= |r| && (|cs| <= K_MAX ==> |r| <= K_MAX)
  {
    if k == 0 then cs
    else OfferSplit(Splits(embs, a, cs, ages, root, k - 1), k - 1, Members(embs, a, k - 1), cs[k - 1], Age(ages, k - 1), root)
  }

  lemma SplitsNext(embs: seq<Point>, a: seq<nat>, cs: seq<Point>, ages: Ages, root: real -> real, k: nat)
    requires |a| == |embs| && k < |cs|
    ensures var prev, members := Splits(embs, a, cs, ages, root, k), Members(embs, a, k);
            Splits(embs, a, cs, ages, root, k + 1) == OfferSplit(prev, k, members, cs[k], Age(ages, k), root)
  {
  }

  method TrySplit(prev: seq<Point>, k: nat, members: seq<Point>, c: Point, age: nat, root: real -> real)
    returns (next: seq<Point>)
    requires k < |prev|
    ensures next == OfferSplit(prev, k, members, c, age, root)
  {
    next := prev;
    if Ripe(members, c, age, root) && |prev| < K_MAX {
      var seedA, seedB := SplitCluster(members);
      next := prev[k := seedA] + [seedB];
    }
  }

  method SplitStep(embs: seq<Point>, a: seq<nat>, cs: seq<Point>, ages: Ages, root: real -> real)
    returns (next: seq<Point>)
    requires |a| == |embs|
    ensures next == Splits(embs, a, cs, ages, root, |cs|)
  {
    next := cs;
    for k := 0 to |cs|
      invariant next == Splits(embs, a, cs, ages, root, k)
    {
      SplitsNext(embs, a, cs, ages, root, k);
      next := TrySplit(next, k, Members(embs, a, k), cs[k], Age(ages, k), root);
    }
  }

  lemma SplitOneInCube(cs: seq<Point>, k: nat, members: seq<Point>)
    requires k < |cs| && |members| >= 2 && AllInCube(cs)
    requires AllInCube(members)
    ensures AllInCube(SplitOne(cs, k, members))
  {
    SeedsAreFarthest(members, members[0], members[1]);
    forall p | p in SplitOne(cs, k, members) ensures InCube(p) {
      assert p in cs || p == Seeds(members).0 || p == Seeds(members).1;
    }
  }

  lemma OfferSplitInCube(prev: seq<Point>, k: nat, members: seq<Point>, c: Point, age: nat, root: real -> real)
    requires k < |prev| && AllInCube(prev) && AllInCube(members)
    ensures AllInCube(OfferSplit(prev, k, members, c, age, root))
  {
    if |members| >= 2 {
      SplitOneInCube(prev, k, members);
    }
  }

  lemma {:induction false} SplitsInCube(embs: seq<Point>, a: seq<nat>, cs: seq<Point>, ages: Ages, root: real -> real, k: nat)
    requires |a| == |embs| && k <= |cs| && AllInCube(embs) && AllInCube(cs)
    ensures AllInCube(Splits(embs, a, cs, ages, root, k))
  {
    if k > 0 {
      SplitsInCube(embs, a, cs, ages, root, k - 1);
      MembersInCube(embs, a, k - 1);
      OfferSplitInCube(Splits(embs, a, cs, ages, root, k - 1), k - 1, Members(embs, a, k - 1), cs[k - 1], Age(ages, k - 1), root);
    }
  }

  // ---- Merge ----

  /** Both old enough and within MERGE_DIST; squares are compared, which needs no root. */
  predicate Mergeable(cs: seq<Point>, ages: Ages, i: nat, j: nat)
    requires i < |cs| && j < |cs|
  {
    Age(ages, i) >= AGE_MIN_OPS && Age(ages, j) >= AGE_MIN_OPS && SqDist(cs[i], cs[j]) < MERGE_DIST * MERGE_DIST
  }

  /** The first mergeable pair from (i, j) on, in the order of the two nested loops. */
  function FindPair(cs: seq<Point>, ages: Ages, i: nat, j: nat): (r: Option<Pair>)
    ensures r.Some? ==> r.value.0 < |cs| && r.value.1 < |cs| && Mergeable(cs, ages, r.value.0, r.value.1)
    ensures r.Some? && i < j ==> r.value.0 < r.value.1
    decreases |cs| - i, |cs| - j
  {
    if i >= |cs| then None
    else if j >= |cs| then FindPair(cs, ages, i + 1, i + 2)
    else if Mergeable(cs, ages, i, j) then Some((i, j))
    else FindPair(cs, ages, i, j + 1)
  }

  lemma {:induction false} NoneFound(cs: seq<Point>, ages: Ages, i: nat, j: nat, x: nat, y: nat)
    requires FindPair(cs, ages, i, j) == None && i < j
    requires x < y < |cs| && (i < x || (i == x && j <= y))
    ensures !Mergeable(cs, ages, x, y)
    decreases |cs| - i, |cs| - j
  {
    if j >= |cs| {
      NoneFound(cs, ages, i + 1, i + 2, x, y);
    } else if (i, j) != (x, y) {
      NoneFound(cs, ages, i, j + 1, x, y);
    }
  }

  function Weight(q: real, total: real): real
    requires total != 0.0
  {
    Quotient(q, total)
  }

  function TotalQuality(quality: Qualities, i: nat, j: nat): (t: real)
    ensures t > 0.0
  {
    var t := Quality(quality, i) + Quality(quality, j);
    if t > 0.0 then t else 1.0
  }

  function Mix(wi: real, x: real, wj: real, y: real): real {
    Product(wi, x) + Product(wj, y)
  }

  /** The quality-weighted blend that replaces a merged pair. */
  function Blend(cs: seq<Point>, quality: Qualities, i: nat, j: nat): Point
    requires i < |cs| && j < |cs|
  {
    var total := TotalQuality(quality, i, j);
    var wi, wj := Weight(Quality(quality, i), total), Weight(Quality(quality, j), total);
    Point(Mix(wi, cs[i].x0, wj, cs[j].x0), Mix(wi, cs[i].x1, wj, cs[j].x1), Mix(wi, cs[i].x2, wj, cs[j].x2),
          Mix(wi, cs[i].x3, wj, cs[j].x3), Mix(wi, cs[i].x4, wj, cs[j].x4))
  }

  function MergePair(cs: seq<Point>, quality: Qualities, i: nat, j: nat): (r: seq<Point>)
    requires i < j < |cs|
    ensures |r| == |cs| - 1
  {
    var blended := cs[i := Blend(cs, quality, i, j)];
    blended[..j] + blended[j + 1..]
  }

  /** Merges one pair at a time until three centroids or no mergeable pair remain. */
  function Merged(cs: seq<Point>, ages: Ages, quality: Qualities): (r: seq<Point>)
    ensures |r| <= |cs| && (|cs| >= K_MIN ==> |r| >= K_MIN) && (|cs| > 0 ==> |r| > 0)
    decreases |cs|
  {
    if |cs| <= K_MIN then cs
    else
      match FindPair(cs, ages, 0, 1)
      case None => cs
      case Some(pair) => Merged(MergePair(cs, quality, pair.0, pair.1), ages, quality)
  }

  /** The exit condition: exactly three centroids remain, or no pair is left to merge. */
  lemma {:induction false} MergedIsSettled(cs: seq<Point>, ages: Ages, quality: Qualities, i: nat, j: nat)
    requires |cs| >= 3
    requires i < j < |Merged(cs, ages, quality)|
    ensures var r := Merged(cs, ages, quality);
            |r| == 3 || Age(ages, i) < 3 || Age(ages, j) < 3 || SqDist(r[i], r[j]) >= 0.01
    decreases |cs|
  {
    if |cs| > K_MIN {
      match FindPair(cs, ages, 0, 1)
      case None => NoneFound(cs, ages, 0, 1, i, j);
      case Some(pair) => MergedIsSettled(MergePair(cs, quality, pair.0, pair.1), ages, quality, i, j);
    }
  }

  /** The two scanning loops of one merge attempt, left at the first mergeable pair. */
  method ScanForPair(cs: seq<Point>, ages: Ages) returns (found: Option<Pair>)
    ensures found == FindPair(cs, ages, 0, 1)
  {
    found := None;
    var i := 0;
    while i < |cs| && found.None?
      invariant found.None? ==> FindPair(cs, ages, 0, 1) == FindPair(cs, ages, i, i + 1)
      invariant found.Some? ==> FindPair(cs, ages, 0, 1) == found
      decreases |cs| - i, found.None?
    {
      var j := i + 1;
      while j < |cs| && found.None?
        invariant i < j
        invariant found.None? ==> FindPair(cs, ages, 0, 1) == FindPair(cs, ages, i, j)
        invariant found.Some? ==> FindPair(cs, ages, 0, 1) == found
        decreases |cs| - j, found.None?
      {
        if Mergeable(cs, ages, i, j) {
          found := Some((i, j));
        } else {
          j := j + 1;
        }
      }
      if found.None? {
        i := i + 1;
      }
    }
  }

  method MergeStep(start: seq<Point>, ages: Ages, quality: Qualities) returns (cs: seq<Point>)
    ensures cs == Merged(start, ages, quality)
  {
    cs := start;
    var merged := true;
    while merged && |cs| > K_MIN
      invariant Merged(cs, ages, quality) == Merged(start, ages, quality)
      invariant !merged ==> FindPair(cs, ages, 0, 1) == None
      decreases |cs|, merged
    {
      var found := ScanForPair(cs, ages);
      merged := found.Some?;
      if merged {
        var pair := found.value;
        cs := MergePair(cs, quality, pair.0, pair.1);
      }
    }
  }

  lemma WeightsShareOne(quality: Qualities, i: nat, j: nat)
    requires Quality(quality, i) >= 0.0 && Quality(quality, j) >= 0.0
    ensures Weight(Quality(quality, i), TotalQuality(quality, i, j)) >= 0.0
    ensures Weight(Quality(quality, j), TotalQuality(quality, i, j)) >= 0.0
    ensures Weight(Quality(quality, i), TotalQuality(quality, i, j)) + Weight(Quality(quality, j), TotalQuality(quality, i, j)) <= 1.0
  {
    Shares(Quality(quality, i), Quality(quality, j), TotalQuality(quality, i, j));
  }

  lemma Shares(p: real, q: real, t: real)
    requires p >= 0.0 && q >= 0.0 && t > 0.0 && p + q <= t
    ensures Quotient(p, t) >= 0.0 && Quotient(q, t) >= 0.0 && Quotient(p, t) + Quotient(q, t) <= 1.0
  {
    QuotientInUnit(p, t);
    QuotientInUnit(q, t);
    QuotientInUnit(p + q, t);
    QuotientIs(p, t);
    QuotientIs(q, t);
    QuotientIs(p + q, t);
    SumOfQuotients(p, q, t);
  }

  lemma ScaledBounds(w: real, x: real)
    requires 0.0 <= w && 0.0 <= x <= 1.0
    ensures 0.0 <= Product(w, x) <= w
  {
    ProductIs(w, x);
    NonNegativeProduct(w, x);
    RealMono(x, 1.0, w);
  }

  lemma MixInUnit(wi: real, x: real, wj: real, y: real)
    requires 0.0 <= wi && 0.0 <= wj && wi + wj <= 1.0 && InUnit(x) && InUnit(y)
    ensures InUnit(Mix(wi, x, wj, y))
  {
    ScaledBounds(wi, x);
    ScaledBounds(wj, y);
  }

  /** Nonnegative qualities keep a blend inside the cube, even when both are zero. */
  lemma BlendInCube(cs: seq<Point>, quality: Qualities, i: nat, j: nat)
    requires i < |cs| && j < |cs| && AllInCube(cs) && Quality(quality, i) >= 0.0 && Quality(quality, j) >= 0.0
    ensures InCube(Blend(cs, quality, i, j))
  {
    var total := TotalQuality(quality, i, j);
    var wi, wj := Weight(Quality(quality, i), total), Weight(Quality(quality, j), total);
    WeightsShareOne(quality, i, j);
    assert InCube(cs[i]) && InCube(cs[j]);
    MixInUnit(wi, cs[i].x0, wj, cs[j].x0);
    MixInUnit(wi, cs[i].x1, wj, cs[j].x1);
    MixInUnit(wi, cs[i].x2, wj, cs[j].x2);
    MixInUnit(wi, cs[i].x3, wj, cs[j].x3);
    MixInUnit(wi, cs[i].x4, wj, cs[j].x4);
  }

  lemma WeightedBack(p: real, q: real, t: real, x: real, y: real)
    requires t > 0.0
    ensures Product(t, Mix(Quotient(p, t), x, Quotient(q, t), y)) == Product(p, x) + Product(q, y)
  {
    var u, v := Quotient(p, t), Quotient(q, t);
    ProductOfQuotient(t, p);
    ProductOfQuotient(t, q);
    PulledOut(t, u, x, p);
    PulledOut(t, v, y, q);
    ProductOverSum(t, Product(u, x), Product(v, y));
  }

  lemma PulledOut(t: real, u: real, x: real, p: real)
    requires Product(t, u) == p
    ensures Product(t, Product(u, x)) == Product(p, x)
  {
    ProductIs(t, u);
    ProductIs(u, x);
    ProductIs(t, u * x);
    ProductIs(p, x);
    assert t * (u * x) == (t * u) * x;
  }

  lemma ProductOverSum(t: real, a: real, b: real)
    ensures Product(t, a + b) == Product(t, a) + Product(t, b)
  {
    ProductIs(t, a + b);
    ProductIs(t, a);
    ProductIs(t, b);
  }

  /** The blend is the mean of the two centroids weighted by their qualities; if these do not add up to
      something positive, they are the weights themselves. */
  lemma BlendIsWeighted(cs: seq<Point>, quality: Qualities, i: nat, j: nat, d: nat, p: real, q: real)
    requires i < |cs| && j < |cs| && d < 5 && p == Quality(quality, i) && q == Quality(quality, j)
    ensures Product(if p + q > 0.0 then p + q else 1.0, Coord(d)(Blend(cs, quality, i, j)))
            == Product(p, Coord(d)(cs[i])) + Product(q, Coord(d)(cs[j]))
  {
    WeightedBack(p, q, TotalQuality(quality, i, j), Coord(d)(cs[i]), Coord(d)(cs[j]));
  }

  lemma MergePairInCube(cs: seq<Point>, quality: Qualities, i: nat, j: nat)
    requires i < j < |cs| <= K_MAX && AllInCube(cs) && NonNegative(quality)
    ensures AllInCube(MergePair(cs, quality, i, j))
  {
    BlendInCube(cs, quality, i, j);
    var r := MergePair(cs, quality, i, j);
    forall p | p in r ensures InCube(p) {
      assert p in cs || p == Blend(cs, quality, i, j);
    }
  }

  lemma {:induction false} MergedInCube(cs: seq<Point>, ages: Ages, quality: Qualities)
    requires |cs| <= K_MAX && AllInCube(cs) && NonNegative(quality)
    ensures AllInCube(Merged(cs, ages, quality))
    decreases |cs|
  {
    if |cs| > K_MIN {
      match FindPair(cs, ages, 0, 1)
      case None =>
      case Some(pair) =>
        MergePairInCube(cs, quality, pair.0, pair.1);
        MergedInCube(MergePair(cs, quality, pair.0, pair.1), ages, quality);
    }
  }

  // ---- Collapse prevention ----

  /** How many accounts are assigned to cluster k. */
  function Tally(a: seq<nat>, k: nat): nat {
    if |a| == 0 then 0 else Tally(a[..|a| - 1], k) + if a[|a| - 1] == k then 1 else 0
  }

  /** The cluster with most accounts; ties go to the one met first in account order. */
  function Largest(a: seq<nat>, upto: nat): (k: nat)
    requires 0 < upto <= |a|
    ensures k in a
  {
    if upto == 1 then a[0]
    else
      var k := Largest(a, upto - 1);
      if Tally(a, a[upto - 1]) > Tally(a, k) then a[upto - 1] else k
  }

  lemma {:induction false} LargestIsLargest(a: seq<nat>, upto: nat, i: nat)
    requires i < upto <= |a|
    ensures Tally(a, a[i]) <= Tally(a, Largest(a, upto))
  {
    if i < upto - 1 {
      LargestIsLargest(a, upto - 1, i);
    }
  }

  predicate Collapsing(a: seq<nat>, embs: seq<Point>, k: nat, count: nat)
    requires |a| == |embs|
  {
    Tally(a, k) as real > COLLAPSE_FRAC * |embs| as real && count < K_MAX && |Members(embs, a, k)| >= 2
  }

  function Collapsed(embs: seq<Point>, cs: seq<Point>): (r: seq<Point>)
    requires |embs| > 0 && |cs| > 0
    ensures |cs| <= |r| && (|cs| <= K_MAX ==> |r| <= K_MAX)
  {
    var a := Assign(embs, cs);
    var k := Largest(a, |a|);
    if Collapsing(a, embs, k, |cs|) then SplitOne(cs, k, Members(embs, a, k)) else cs
  }

  method CountSizes(a: seq<nat>) returns (sizes: map<nat, nat>)
    ensures forall x :: x in a ==> x in sizes && sizes[x] == Tally(a, x)
  {
    sizes := map[];
    for i := 0 to |a|
      invariant forall x :: x in sizes <==> x in a[..i]
      invariant forall x :: x in sizes ==> sizes[x] == Tally(a[..i], x)
    {
      var had := if a[i] in sizes then sizes[a[i]] else 0;
      ghost var before := sizes;
      sizes := sizes[a[i] := had + 1];
      assert a[..i + 1] == a[..i] + [a[i]];
      if a[i] !in before {
        AbsentTallyZero(a[..i], a[i]);
      }
      forall x | x in sizes ensures sizes[x] == Tally(a[..i + 1], x) {
        assert a[..i + 1][..i] == a[..i];
      }
    }
    assert a[..|a|] == a;
  }

  method LargestCluster(a: seq<nat>, sizes: map<nat, nat>) returns (largest: nat)
    requires |a| > 0
    requires forall x :: x in a ==> x in sizes && sizes[x] == Tally(a, x)
    ensures largest == Largest(a, |a|)
  {
    largest := a[0];
    for i := 1 to |a|
      invariant largest == Largest(a, i)
    {
      if sizes[a[i]] > sizes[largest] {
        largest := a[i];
      }
    }
  }

  method CollapseStep(embs: seq<Point>, cs: seq<Point>) returns (next: seq<Point>)
    requires |embs| > 0 && |cs| > 0
    ensures next == Collapsed(embs, cs)
  {
    var a := AssignAll(embs, cs);
    var sizes := CountSizes(a);
    var largest := LargestCluster(a, sizes);
    next := cs;
    if sizes[largest] as real > COLLAPSE_FRAC * |embs| as real && |cs| < K_MAX {
      var members := Members(embs, a, largest);
      if |members| >= 2 {
        var seedA, seedB := SplitCluster(members);
        next := cs[largest := seedA] + [seedB];
      }
    }
  }

  lemma {:induction false} AbsentTallyZero(a: seq<nat>, x: nat)
    requires x !in a
    ensures Tally(a, x) == 0
  {
    if |a| > 0 {
      AbsentTallyZero(a[..|a| - 1], x);
      assert a[|a| - 1] in a;
    }
  }

  lemma CollapsedInCube(embs: seq<Point>, cs: seq<Point>)
    requires |embs| > 0 && |cs| > 0 && AllInCube(embs) && AllInCube(cs)
    ensures AllInCube(Collapsed(embs, cs))
  {
    var a := Assign(embs, cs);
    var k := Largest(a, |a|);
    MembersInCube(embs, a, k);
    if Collapsing(a, embs, k, |cs|) {
      SplitOneInCube(cs, k, Members(embs, a, k));
    }
  }

  // ---- One whole pass ----

  datatype Step = Means | Split | Merge | Collapse

  /** The centroid list after the given step of a pass: Lloyd rounds, split, merge, collapse prevention. */
  function After(step: Step, embs: seq<Point>, start: seq<Point>, ages: Ages, quality: Qualities, root: real -> real): (r: seq<Point>)
    requires |embs| > 0 && |start| > 0
    ensures |r| > 0
    ensures K_MIN <= |start| <= K_MAX ==> K_MIN <= |r| <= K_MAX
    decreases match step case Means => 0 case Split => 1 case Merge => 2 case Collapse => 3, |embs|
  {
    match step
    case Means => Rounds(embs, start, KMEANS_ITERS)
    case Split =>
      var cs := After(Means, embs, start, ages, quality, root);
      Splits(embs, LastAssignment(embs, start), cs, ages, root, |cs|)
    case Merge => Merged(After(Split, embs, start, ages, quality, root), ages, quality)
    case Collapse => Collapsed(embs, After(Merge, embs, start, ages, quality, root))
  }

  /** The assignment made in the last Lloyd round, against the centroids of the round before. */
  function LastAssignment(embs: seq<Point>, start: seq<Point>): (a: seq<nat>)
    requires |start| > 0
    ensures |a| == |embs|
  {
    Assign(embs, Rounds(embs, start, KMEANS_ITERS - 1))
  }

  /** The centroid list a clustering pass leaves behind, before the final clamp. */
  function Pass(embs: seq<Point>, start: seq<Point>, ages: Ages, quality: Qualities, root: real -> real): (r: seq<Point>)
    requires |embs| > 0 && |start| > 0
    ensures K_MIN <= |start| <= K_MAX ==> K_MIN <= |r| <= K_MAX
  {
    After(Collapse, embs, start, ages, quality, root)
  }

  function Clamp(n: int): (k: nat)
    ensures K_MIN <= k <= K_MAX
    ensures K_MIN <= n <= K_MAX ==> k == n
  {
    if n < K_MIN then K_MIN else if n > K_MAX then K_MAX else n
  }

  /** A pass that starts with three to twelve centroids ends with three to twelve, so the
      final truncation to the clamped count drops nothing, whatever was split or merged. */
  lemma PassKeepsShape(embs: seq<Point>, start: seq<Point>, ages: Ages, quality: Qualities, root: real -> real)
    requires |embs| > 0 && 3 <= |start| <= 12
    ensures 3 <= |Pass(embs, start, ages, quality, root)| <= 12
    ensures Truncated(Pass(embs, start, ages, quality, root)) == Pass(embs, start, ages, quality, root)
  {
    TruncationIsInert(Pass(embs, start, ages, quality, root));
  }

  /** centroids[:_K] with _K the clamped count. */
  function Truncated(cs: seq<Point>): seq<Point> {
    if Clamp(|cs|) <= |cs| then cs[..Clamp(|cs|)] else cs
  }

  lemma TruncationIsInert(cs: seq<Point>)
    ensures Truncated(cs) == cs <==> |cs| <= 12
  {
    if |cs| <= K_MAX {
      assert cs[..|cs|] == cs;
    }
  }

  lemma {:induction false} AfterInCube(step: Step, embs: seq<Point>, start: seq<Point>, ages: Ages, quality: Qualities, root: real -> real)
    requires |embs| > 0 && K_MIN <= |start| <= K_MAX && AllInCube(embs) && AllInCube(start) && NonNegative(quality)
    ensures AllInCube(After(step, embs, start, ages, quality, root))
    decreases match step case Means => 0 case Split => 1 case Merge => 2 case Collapse => 3
  {
    match step
    case Means => RoundsInCube(embs, start, KMEANS_ITERS);
    case Split =>
      AfterInCube(Means, embs, start, ages, quality, root);
      var cs := After(Means, embs, start, ages, quality, root);
      SplitsInCube(embs, LastAssignment(embs, start), cs, ages, root, |cs|);
    case Merge =>
      AfterInCube(Split, embs, start, ages, quality, root);
      MergedInCube(After(Split, embs, start, ages, quality, root), ages, quality);
    case Collapse =>
      AfterInCube(Merge, embs, start, ages, quality, root);
      CollapsedInCube(embs, After(Merge, embs, start, ages, quality, root));
  }
}
