/** Exactly which qualities keep a merge in the unit cube, and which rewards keep the qualities so. */
module LeavingCube {
  import opened Sequences
  import opened Reals
  import opened Vectors
  import opened Lloyd
  import opened Splitting
  import opened Reshaping

  const ORIGIN := Point(0.0, 0.0, 0.0, 0.0, 0.0)
  const NEAR := Point(0.09, 0.0, 0.0, 0.0, 0.0)

  // ---- One merge ----

  lemma NegativeWeight(q: real, t: real)
    requires q < 0.0 && t > 0.0
    ensures q / t < 0.0
  {
    PositiveQuotient(-q, t);
    assert (-q) / t == -(q / t);
  }

  /** Two centroids within merging distance, the one with the negative quality at NEAR. */
  ghost predicate Slanted(cs: seq<Point>, bad: nat, other: nat) {
    bad < |cs| && other < |cs| && cs[bad] == NEAR && cs[other] == ORIGIN
  }

  lemma SlantedBlend(cs: seq<Point>, quality: Qualities, i: nat, j: nat)
    requires (Slanted(cs, i, j) && Quality(quality, i) < 0.0) || (Slanted(cs, j, i) && Quality(quality, j) < 0.0)
    ensures var b := Blend(cs, quality, i, j);
            b.x0 < 0.0 && b.x1 == 0.0 && b.x2 == 0.0 && b.x3 == 0.0 && b.x4 == 0.0
  {
    if Slanted(cs, i, j) && Quality(quality, i) < 0.0 {
      SlantedCoordinates(Quality(quality, i), Quality(quality, j), TotalQuality(quality, i, j));
    } else {
      SlantedCoordinates(Quality(quality, j), Quality(quality, i), TotalQuality(quality, i, j));
    }
  }

  lemma SlantedCoordinates(bad: real, other: real, t: real)
    requires bad < 0.0 && t > 0.0
    ensures var w, v := Weight(bad, t), Weight(other, t);
            Product(w, 0.09) < 0.0 && Product(w, 0.0) == 0.0 && Product(v, 0.0) == 0.0
  {
    QuotientIs(bad, t);
    NegativeWeight(bad, t);
    ProductIs(Weight(bad, t), 0.09);
    ProductIs(Weight(bad, t), 0.0);
    ProductIs(Weight(other, t), 0.0);
  }

  /** Every blend of in-cube centroids within merging distance stays in the cube. */
  ghost predicate BlendsStay(quality: Qualities, i: nat, j: nat) {
    forall cs: seq<Point> :: i < |cs| && j < |cs| && AllInCube(cs) && SqDist(cs[i], cs[j]) < MERGE_DIST * MERGE_DIST
                             ==> InCube(Blend(cs, quality, i, j))
  }

  lemma SlantedPair(cs: seq<Point>, i: nat, j: nat)
    requires Slanted(cs, i, j)
    ensures SqDist(cs[i], cs[j]) < MERGE_DIST * MERGE_DIST && SqDist(cs[j], cs[i]) < MERGE_DIST * MERGE_DIST
  {
    SqIs(0.09);
    SqIs(-0.09);
    SqBasics(0.0);
  }

  /** n centroids at the origin but for one. */
  function Layout(n: nat, bad: nat): (cs: seq<Point>)
    ensures |cs| == n
    ensures forall k :: 0 <= k < n ==> cs[k] == if k == bad then NEAR else ORIGIN
  {
    seq(n, k => if k == bad then NEAR else ORIGIN)
  }

  lemma LayoutInCube(n: nat, bad: nat)
    ensures AllInCube(Layout(n, bad))
  {
  }

  /** A merge of two clusters keeps to the cube, wherever they are, exactly when neither quality is negative. */
  lemma BlendsStayIff(quality: Qualities, i: nat, j: nat)
    requires i != j
    ensures BlendsStay(quality, i, j) <==> Quality(quality, i) >= 0.0 && Quality(quality, j) >= 0.0
  {
    if Quality(quality, i) >= 0.0 && Quality(quality, j) >= 0.0 {
      forall cs: seq<Point> | i < |cs| && j < |cs| && AllInCube(cs) && SqDist(cs[i], cs[j]) < MERGE_DIST * MERGE_DIST
        ensures InCube(Blend(cs, quality, i, j))
      {
        BlendInCube(cs, quality, i, j);
      }
    } else {
      var bad, other := if Quality(quality, i) < 0.0 then i else j, if Quality(quality, i) < 0.0 then j else i;
      var cs := Layout(i + j + 1, bad);
      LayoutInCube(i + j + 1, bad);
      SlantedPair(cs, bad, other);
      SlantedBlend(cs, quality, i, j);
      assert !InCube(Blend(cs, quality, i, j));
    }
  }

  // ---- Where negative qualities come from ----

  /** The quality of a cluster after one more report of its detection risk and reward. */
  function UpdatedQuality(q: real, risk: real, reward: real): real {
    q * 0.85 + (reward + 1.5) / (1.0 + (if risk > 0.0 then risk else 0.0)) * 0.15
  }

  /** A report takes the quality fifteen hundredths of the way towards the shifted reward over one plus the risk; a
      negative risk counts as none. */
  lemma QualityTowards(q: real, risk: real, reward: real, t: real)
    requires Product(t, 1.0 + if risk < 0.0 then 0.0 else risk) == reward + 1.5
    ensures UpdatedQuality(q, risk, reward) - t == 0.85 * (q - t)
  {
    var d := 1.0 + if risk < 0.0 then 0.0 else risk;
    ProductIs(t, d);
    DividedBack(t, d, reward + 1.5);
  }

  lemma DividedBack(t: real, d: real, n: real)
    requires t * d == n && d > 0.0
    ensures n / d == t
  {
    assert (t * d) / d == t;
  }

  function ReportedOften(q: real, risk: real, reward: real, n: nat): real {
    if n == 0 then q else UpdatedQuality(ReportedOften(q, risk, reward, n - 1), risk, reward)
  }

  lemma UpdateNonNegative(q: real, risk: real, reward: real)
    requires q >= 0.0 && reward >= -1.5
    ensures UpdatedQuality(q, risk, reward) >= 0.0
  {
    var inv := Reciprocal(1.0 + if risk > 0.0 then risk else 0.0);
    NonNegativeProduct(reward + 1.5, inv);
  }

  /** While the quality is not negative, each report takes at least the same step down. */
  lemma {:induction false} Sinks(q: real, risk: real, reward: real, n: nat, step: real)
    requires reward < -1.5 && step == -0.15 * ((reward + 1.5) / (1.0 + if risk > 0.0 then risk else 0.0)) > 0.0
    ensures ReportedOften(q, risk, reward, n) < 0.0 || ReportedOften(q, risk, reward, n) <= q - n as real * step
    decreases n
  {
    if n > 0 {
      Sinks(q, risk, reward, n - 1, step);
      DistributeReal((n - 1) as real, 1.0, step);
    }
  }

  lemma EnoughSteps(q: real, step: real) returns (n: nat)
    requires step > 0.0
    ensures n as real * step > q
  {
    var inv := Reciprocal(step);
    n := if q < 0.0 then 1 else (q * inv).Floor + 1;
    if q >= 0.0 {
      NonNegativeProduct(q, inv);
      RealMono(q * inv, n as real, step);
      assert step * (q * inv) == q * (step * inv);
      assert n as real > q * inv;
      PositiveProduct(step, n as real - q * inv);
    }
  }

  /** A cluster's quality stays nonnegative, however often the same report comes in, exactly when the
      reported reward is at least -1.5. */
  lemma RewardFloorIff(q: real, risk: real, reward: real)
    requires q >= 0.0
    ensures (forall n: nat :: ReportedOften(q, risk, reward, n) >= 0.0) <==> reward >= -1.5
  {
    if reward >= -1.5 {
      forall n: nat ensures ReportedOften(q, risk, reward, n) >= 0.0 {
        StaysNonNegative(q, risk, reward, n);
      }
    } else {
      var t := 1.0 + if risk > 0.0 then risk else 0.0;
      NegativeWeight(reward + 1.5, t);
      var step := -0.15 * ((reward + 1.5) / t);
      var n := EnoughSteps(q, step);
      Sinks(q, risk, reward, n, step);
      assert ReportedOften(q, risk, reward, n) < 0.0;
    }
  }

  lemma {:induction false} StaysNonNegative(q: real, risk: real, reward: real, n: nat)
    requires q >= 0.0 && reward >= -1.5
    ensures ReportedOften(q, risk, reward, n) >= 0.0
    decreases n
  {
    if n > 0 {
      StaysNonNegative(q, risk, reward, n - 1);
      UpdateNonNegative(ReportedOften(q, risk, reward, n - 1), risk, reward);
    }
  }
}
