/** Nearest-centroid assignment and the Lloyd rounds of core/account_clustering.py. */
module Lloyd {
  import opened Sequences
  import opened Vectors

  const KMEANS_ITERS := 4

  /** Index i names a closest centroid, and ties go to the lowest index. */
  ghost predicate IsNearest(p: Point, cs: seq<Point>, i: nat) {
    && i < |cs|
    && (forall j {:trigger SqDist(p, cs[j])} :: 0 <= j < |cs| ==> SqDist(p, cs[i]) <= SqDist(p, cs[j]))
    && (forall j {:trigger SqDist(p, cs[j])} :: 0 <= j < i ==> SqDist(p, cs[i]) < SqDist(p, cs[j]))
  }

  function Nearest(p: Point, cs: seq<Point>): (i: nat)
    requires |cs| > 0
    ensures i < |cs|
  {
    var n := |cs| - 1;
    if n == 0 then 0
    else
      var b := Nearest(p, cs[..n]);
      if SqDist(p, cs[n]) < SqDist(p, cs[b]) then n else b
  }

  lemma {:induction false} NearestIsNearest(p: Point, cs: seq<Point>)
    requires |cs| > 0
    ensures IsNearest(p, cs, Nearest(p, cs))
  {
    var n := |cs| - 1;
    if n > 0 {
      NearestIsNearest(p, cs[..n]);
    }
  }

  method NearestCentroidIdx(p: Point, cs: seq<Point>) returns (best: nat)
    ensures |cs| == 0 ==> best == 0
    ensures |cs| > 0 ==> best == Nearest(p, cs)
  {
    best := 0;
    var bestDist: Option<real> := None;
    for i := 0 to |cs|
      invariant i == 0 ==> best == 0 && bestDist == None
      invariant i > 0 ==> best == Nearest(p, cs[..i]) && bestDist == Some(SqDist(p, cs[best]))
    {
      assert cs[..i + 1][..i] == cs[..i];
      var d := SqDist(p, cs[i]);
      if bestDist.None? || d < bestDist.value {
        bestDist, best := Some(d), i;
      }
    }
    assert cs[..|cs|] == cs;
  }

  // ---- Assignments and their cost ----

  predicate InRange(assignment: seq<nat>, n: nat) {
    forall i :: 0 <= i < |assignment| ==> assignment[i] < n
  }

  function Assign(embs: seq<Point>, cs: seq<Point>): (a: seq<nat>)
    requires |cs| > 0
    ensures |a| == |embs| && InRange(a, |cs|)
  {
    if |embs| == 0 then [] else Assign(embs[..|embs| - 1], cs) + [Nearest(embs[|embs| - 1], cs)]
  }

  lemma {:induction false} AssignAt(embs: seq<Point>, cs: seq<Point>, i: nat)
    requires |cs| > 0 && i < |embs|
    ensures Assign(embs, cs)[i] == Nearest(embs[i], cs)
  {
    if i < |embs| - 1 {
      AssignAt(embs[..|embs| - 1], cs, i);
    }
  }

  /** Total squared distance of every embedding to the centroid it is assigned to. */
  function Cost(embs: seq<Point>, a: seq<nat>, cs: seq<Point>): real
    requires |a| == |embs| && InRange(a, |cs|)
  {
    if |embs| == 0 then 0.0
    else
      var n := |embs| - 1;
      Cost(embs[..n], a[..n], cs) + SqDist(embs[n], cs[a[n]])
  }

  /** The total is zero exactly if every embedding lies on its centroid, and never negative. */
  lemma {:induction false} CostIsZeroIff(embs: seq<Point>, a: seq<nat>, cs: seq<Point>)
    requires |a| == |embs| && InRange(a, |cs|)
    ensures Cost(embs, a, cs) >= 0.0
    ensures Cost(embs, a, cs) == 0.0 <==> forall i :: 0 <= i < |embs| ==> SqDist(embs[i], cs[a[i]]) == 0.0
  {
    if |embs| > 0 {
      var n := |embs| - 1;
      CostIsZeroIff(embs[..n], a[..n], cs);
      SqDistBasics(embs[n], cs[a[n]]);
      assert forall i :: 0 <= i < n ==> embs[..n][i] == embs[i] && a[..n][i] == a[i];
    }
  }

  /** The embeddings assigned to centroid k, in account order. */
  function Members(embs: seq<Point>, a: seq<nat>, k: nat): (ms: seq<Point>)
    requires |a| == |embs|
  {
    if |embs| == 0 then []
    else
      var n := |embs| - 1;
      Members(embs[..n], a[..n], k) + if a[n] == k then [embs[n]] else []
  }

  /** The first k centroids after the mean update; an empty cluster keeps its centroid. */
  function MeansUpTo(embs: seq<Point>, a: seq<nat>, cs: seq<Point>, k: nat): (next: seq<Point>)
    requires |a| == |embs| && k <= |cs|
    ensures |next| == k
  {
    if k == 0 then [] else MeansUpTo(embs, a, cs, k - 1) + [MeanOr(Members(embs, a, k - 1), cs[k - 1])]
  }

  function Means(embs: seq<Point>, a: seq<nat>, cs: seq<Point>): (next: seq<Point>)
    requires |a| == |embs|
    ensures |next| == |cs|
  {
    MeansUpTo(embs, a, cs, |cs|)
  }

  lemma {:induction false} MeansAt(embs: seq<Point>, a: seq<nat>, cs: seq<Point>, k: nat, j: nat)
    requires |a| == |embs| && j < k <= |cs|
    ensures MeansUpTo(embs, a, cs, k)[j] == MeanOr(Members(embs, a, j), cs[j])
  {
    if j < k - 1 {
      MeansAt(embs, a, cs, k - 1, j);
    }
  }

  function MeanOr(members: seq<Point>, c: Point): Point {
    if |members| > 0 then Mean(members) else c
  }

  /** One round: every embedding to its nearest centroid, then every centroid to the mean of its own.
      Proofs open it through RoundIs only. */
  function Round(embs: seq<Point>, cs: seq<Point>): (r: seq<Point>)
    requires |cs| > 0
    ensures |r| == |cs|
  {
    RoundAfter(embs, cs, 1)
  }

  function RoundAfter(embs: seq<Point>, cs: seq<Point>, steps: nat): (r: seq<Point>)
    requires |cs| > 0
    ensures |r| == |cs|
    decreases steps, |embs|
  {
    if steps == 0 then Means(embs, Assign(embs, cs), cs) else RoundAfter(embs, cs, steps - 1)
  }

  lemma RoundIs(embs: seq<Point>, cs: seq<Point>)
    requires |cs| > 0
    ensures Round(embs, cs) == Means(embs, Assign(embs, cs), cs)
  {
    assert RoundAfter(embs, cs, 1) == RoundAfter(embs, cs, 0);
  }

  /** The centroids after the given number of rounds. */
  function Rounds(embs: seq<Point>, cs: seq<Point>, rounds: nat): (r: seq<Point>)
    requires |cs| > 0
    ensures |r| == |cs|
    decreases rounds, |embs|
  {
    if rounds == 0 then cs
    else Round(embs, Rounds(embs, cs, rounds - 1))
  }

  // ---- Descent ----

  /** Nearest-centroid assignment is the cheapest assignment to given centroids. */
  lemma {:induction false} AssignIsCheapest(embs: seq<Point>, a: seq<nat>, cs: seq<Point>)
    requires |cs| > 0 && |a| == |embs| && InRange(a, |cs|)
    ensures Cost(embs, Assign(embs, cs), cs) <= Cost(embs, a, cs)
  {
    if |embs| > 0 {
      var n := |embs| - 1;
      AssignIsCheapest(embs[..n], a[..n], cs);
      assert Assign(embs, cs)[..n] == Assign(embs[..n], cs);
      NearestIsNearest(embs[n], cs);
      assert SqDist(embs[n], cs[Nearest(embs[n], cs)]) <= SqDist(embs[n], cs[a[n]]);
    }
  }

  /** Moving one centroid changes the total by what its own members gain or lose. */
  lemma {:induction false} MoveOneCentroid(embs: seq<Point>, a: seq<nat>, cs: seq<Point>, k: nat, c: Point)
    requires |a| == |embs| && InRange(a, |cs|) && k < |cs|
    ensures Cost(embs, a, cs[k := c]) - Cost(embs, a, cs)
         == CostTo(Members(embs, a, k), c) - CostTo(Members(embs, a, k), cs[k])
  {
    if |embs| > 0 {
      var n := |embs| - 1;
      MoveOneCentroid(embs[..n], a[..n], cs, k, c);
      if a[n] == k {
        SumAppend(Members(embs[..n], a[..n], k), embs[n], DistTo(c));
        SumAppend(Members(embs[..n], a[..n], k), embs[n], DistTo(cs[k]));
      } else {
        assert Members(embs, a, k) == Members(embs[..n], a[..n], k);
      }
    }
  }

  /** Replacing the first k centroids by their members' means never costs more. */
  lemma {:induction false} MeansImprovePrefix(embs: seq<Point>, a: seq<nat>, cs: seq<Point>, k: nat)
    requires |a| == |embs| && InRange(a, |cs|) && k <= |cs|
    ensures Cost(embs, a, Means(embs, a, cs)[..k] + cs[k..]) <= Cost(embs, a, cs)
  {
    var next := Means(embs, a, cs);
    if k == 0 {
      assert next[..0] + cs[0..] == cs;
    } else {
      MeansImprovePrefix(embs, a, cs, k - 1);
      var before := next[..k - 1] + cs[k - 1..];
      assert next[..k] + cs[k..] == before[k - 1 := next[k - 1]];
      MoveOneCentroid(embs, a, before, k - 1, next[k - 1]);
      MeansAt(embs, a, cs, |cs|, k - 1);
      var members := Members(embs, a, k - 1);
      if |members| > 0 {
        MeanIsCheapest(members, cs[k - 1]);
      }
    }
  }

  lemma MeansImprove(embs: seq<Point>, a: seq<nat>, cs: seq<Point>)
    requires |a| == |embs| && InRange(a, |cs|)
    ensures Cost(embs, a, Means(embs, a, cs)) <= Cost(embs, a, cs)
  {
    MeansImprovePrefix(embs, a, cs, |cs|);
    assert Means(embs, a, cs)[..|cs|] + cs[|cs|..] == Means(embs, a, cs);
  }

  /** A full round never increases the total, whatever the assignment was before it. */
  lemma RoundDescends(embs: seq<Point>, a: seq<nat>, cs: seq<Point>)
    requires |cs| > 0 && |a| == |embs| && InRange(a, |cs|)
    ensures Cost(embs, Assign(embs, cs), Means(embs, Assign(embs, cs), cs)) <= Cost(embs, a, cs)
  {
    AssignIsCheapest(embs, a, cs);
    MeansImprove(embs, Assign(embs, cs), cs);
  }

  /** The total that a given round leaves behind: its assignment against its new centroids. */
  function RoundCost(embs: seq<Point>, cs: seq<Point>, round: nat): real
    requires |cs| > 0 && round > 0
  {
    Cost(embs, Assign(embs, Rounds(embs, cs, round - 1)), Rounds(embs, cs, round))
  }

  lemma NextRoundDescends(embs: seq<Point>, cs: seq<Point>, round: nat)
    requires |cs| > 0 && round > 0
    ensures RoundCost(embs, cs, round + 1) <= RoundCost(embs, cs, round)
  {
    var before, now := Rounds(embs, cs, round - 1), Rounds(embs, cs, round);
    RoundDescends(embs, Assign(embs, before), now);
    RoundIs(embs, now);
  }

  /** After any positive number of rounds the total is at most that of the first assignment. */
  lemma {:induction false} RoundsDescend(embs: seq<Point>, cs: seq<Point>, rounds: nat)
    requires |cs| > 0 && rounds > 0
    ensures RoundCost(embs, cs, rounds) <= Cost(embs, Assign(embs, cs), cs)
  {
    if rounds == 1 {
      MeansImprove(embs, Assign(embs, cs), cs);
      assert Rounds(embs, cs, 0) == cs;
      assert Rounds(embs, cs, 1) == Round(embs, cs);
      RoundIs(embs, cs);
    } else {
      RoundsDescend(embs, cs, rounds - 1);
      NextRoundDescends(embs, cs, rounds - 1);
    }
  }

  /** The four rounds of one pass: what they leave costs no more than the first assignment. */
  lemma PassDescends(embs: seq<Point>, cs: seq<Point>)
    requires |cs| > 0
    ensures Cost(embs, Assign(embs, Rounds(embs, cs, 3)), Rounds(embs, cs, 4))
         <= Cost(embs, Assign(embs, cs), cs)
  {
    RoundsDescend(embs, cs, KMEANS_ITERS);
    assert RoundCost(embs, cs, KMEANS_ITERS) == Cost(embs, Assign(embs, Rounds(embs, cs, KMEANS_ITERS - 1)), Rounds(embs, cs, KMEANS_ITERS));
  }

  lemma {:induction false} MembersInCube(embs: seq<Point>, a: seq<nat>, k: nat)
    requires |a| == |embs| && AllInCube(embs)
    ensures AllInCube(Members(embs, a, k))
  {
    if |embs| > 0 {
      MembersInCube(embs[..|embs| - 1], a[..|embs| - 1], k);
    }
  }

  lemma {:induction false} MeansInCube(embs: seq<Point>, a: seq<nat>, cs: seq<Point>, k: nat)
    requires |a| == |embs| && k <= |cs| && AllInCube(embs) && AllInCube(cs)
    ensures AllInCube(MeansUpTo(embs, a, cs, k))
  {
    if k > 0 {
      MeansInCube(embs, a, cs, k - 1);
      MembersInCube(embs, a, k - 1);
      if |Members(embs, a, k - 1)| > 0 {
        MeanInCube(Members(embs, a, k - 1));
      }
    }
  }

  lemma {:induction false} RoundsInCube(embs: seq<Point>, cs: seq<Point>, rounds: nat)
    requires |cs| > 0 && AllInCube(embs) && AllInCube(cs)
    ensures AllInCube(Rounds(embs, cs, rounds))
  {
    if rounds > 0 {
      var prev := Rounds(embs, cs, rounds - 1);
      RoundsInCube(embs, cs, rounds - 1);
      MeansInCube(embs, Assign(embs, prev), prev, |prev|);
      RoundIs(embs, prev);
    }
  }

  // ---- The loops ----

  method AssignAll(embs: seq<Point>, cs: seq<Point>) returns (a: seq<nat>)
    requires |cs| > 0
    ensures a == Assign(embs, cs)
  {
    a := [];
    for i := 0 to |embs|
      invariant a == Assign(embs[..i], cs)
    {
      var best := NearestCentroidIdx(embs[i], cs);
      assert embs[..i + 1][..i] == embs[..i];
      a := a + [best];
    }
    assert embs[..|embs|] == embs;
  }

  method UpdateMeans(embs: seq<Point>, a: seq<nat>, cs: seq<Point>) returns (next: seq<Point>)
    requires |a| == |embs|
    ensures next == Means(embs, a, cs)
  {
    next := [];
    for k := 0 to |cs|
      invariant next == MeansUpTo(embs, a, cs, k)
    {
      var members := Members(embs, a, k);
      if |members| > 0 {
        next := next + [Mean(members)];
      } else {
        next := next + [cs[k]];
      }
    }
  }

  method RunRounds(embs: seq<Point>, start: seq<Point>) returns (a: seq<nat>, cs: seq<Point>)
    requires |start| > 0
    ensures cs == Rounds(embs, start, 4)
    ensures a == Assign(embs, Rounds(embs, start, 3))
  {
    cs := start;
    a := [];
    for it := 0 to KMEANS_ITERS
      invariant cs == Rounds(embs, start, it)
      invariant it > 0 ==> a == Assign(embs, Rounds(embs, start, it - 1))
    {
      RoundIs(embs, cs);
      a := AssignAll(embs, cs);
      cs := UpdateMeans(embs, a, cs);
    }
  }
}
