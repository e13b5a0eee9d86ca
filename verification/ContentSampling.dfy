/** Which batches survive every exploration sample, and which kept candidates the worker gate then stops,
    in core/content_decision.py. */
module ContentSamplings {
  import opened Sequences
  import opened Reals
  import opened ContentDecisions

  /** The ranked candidates that are not kept. */
  function LowOf(items: seq<Candidate>, mode: Mode, assess: Scorer): seq<Candidate>
    requires KeepFits(Ranked(items, ConfigOf(mode), assess), ConfigOf(mode), assess)
  {
    Low(Ranked(items, ConfigOf(mode), assess), ConfigOf(mode), assess)
  }

  /** With this sample every item of the batch appears exactly once among the results. */
  ghost predicate Partitions(items: seq<Candidate>, mode: Mode, assess: Scorer, explore: bool, sample: (nat, nat) -> seq<nat>)
    requires Samples(sample) && KeepFits(Ranked(items, ConfigOf(mode), assess), ConfigOf(mode), assess)
  {
    var cfg := ConfigOf(mode);
    var s := Divide(Ranked(items, cfg, assess), cfg, assess, explore, sample);
    multiset(Items(KeptResults(s, assess) + DroppedResults(items, s, cfg, assess))) == multiset(items)
  }

  lemma ExploresSomeNotAll(m: nat, mode: Mode)
    requires m >= 2
    ensures 1 <= ExploreCount(m, ConfigOf(mode)) < m
  {
    var pct := ConfigOf(mode).explorePct;
    ProductIs(m as real, pct);
    CeilBounds(Product(m as real, pct));
  }

  // ---- A sample that takes one of two positions and leaves the other ----

  /** The q-th position other than i and j. */
  function Besides(q: nat, i: nat, j: nat): nat {
    var r := if q < i then q else q + 1;
    if r < j then r else r + 1
  }

  lemma BesidesBoth(q: nat, i: nat, j: nat)
    requires i < j
    ensures Besides(q, i, j) != i && Besides(q, i, j) != j && q <= Besides(q, i, j) <= q + 2
    ensures forall q': nat :: q' < q ==> Besides(q', i, j) < Besides(q, i, j)
  {
  }

  function Choice(k: nat, i: nat, j: nat): (ps: seq<nat>)
    ensures |ps| == k
  {
    seq(k, p requires 0 <= p < k => if p == 0 then i else Besides(p - 1, i, j))
  }

  lemma ChoiceIsSample(n: nat, k: nat, i: nat, j: nat)
    requires k < n && i < j < n
    ensures IsSample(Choice(k, i, j), n, k) && j !in Choice(k, i, j)
    ensures k > 0 ==> i in Choice(k, i, j)
  {
    var ps := Choice(k, i, j);
    forall p | 0 <= p < k ensures ps[p] < n && ps[p] != j && (p > 0 ==> ps[p] != i) {
      if p > 0 {
        BesidesBoth(p - 1, i, j);
      }
    }
    forall p, q | 0 <= p < q < k ensures ps[p] != ps[q] {
      BesidesBoth(q - 1, i, j);
    }
    if k > 0 {
      assert ps[0] == i;
    }
  }

  function Count(k: nat): seq<nat> { seq(k, p requires 0 <= p < k => p) }

  /** A sampler that takes position i and leaves position j whenever it chooses among m. */
  function Leaving(m: nat, i: nat, j: nat): (nat, nat) -> seq<nat> {
    (n: nat, k: nat) => if n == m && k < n then Choice(k, i, j) else Count(k)
  }

  lemma LeavingSamples(m: nat, i: nat, j: nat)
    requires i < j < m
    ensures Samples(Leaving(m, i, j))
  {
    forall n: nat, k: nat | k <= n ensures IsSample(Leaving(m, i, j)(n, k), n, k) {
      if n == m && k < n {
        ChoiceIsSample(n, k, i, j);
      }
    }
  }

  // ---- When no sample can lose an item ----

  lemma SharedIdIsLost(items: seq<Candidate>, mode: Mode, assess: Scorer, i: nat, j: nat)
    requires KeepFits(Ranked(items, ConfigOf(mode), assess), ConfigOf(mode), assess)
    requires var low := LowOf(items, mode, assess);
             i < j < |low| && low[i].itemId == low[j].itemId
    ensures var m := |LowOf(items, mode, assess)|;
            Samples(Leaving(m, i, j)) && !Partitions(items, mode, assess, true, Leaving(m, i, j))
  {
    var cfg, low := ConfigOf(mode), LowOf(items, mode, assess);
    var m := |low|;
    var k := ExploreCount(m, cfg);
    LeavingSamples(m, i, j);
    ExploresSomeNotAll(m, mode);
    ChoiceIsSample(m, k, i, j);
    PickedIds(low, Choice(k, i, j), i);
    PartitionIff(items, mode, assess, true, Leaving(m, i, j));
  }

  lemma PartitionsWithoutLoss(items: seq<Candidate>, mode: Mode, assess: Scorer, explore: bool, sample: (nat, nat) -> seq<nat>)
    requires Samples(sample) && KeepFits(Ranked(items, ConfigOf(mode), assess), ConfigOf(mode), assess)
    requires explore ==> DistinctIds(LowOf(items, mode, assess))
    ensures Partitions(items, mode, assess, explore, sample)
  {
    var cfg, low := ConfigOf(mode), LowOf(items, mode, assess);
    PartitionIff(items, mode, assess, explore, sample);
    if explore {
      DistinctNotShared(low, Positions(|low|, cfg, explore, sample));
    }
  }

  /** No sample loses or repeats an item exactly when nothing is explored or the candidates ranked past the
      kept ones have distinct ids. */
  lemma EverySamplePartitionsIff(items: seq<Candidate>, mode: Mode, assess: Scorer, explore: bool)
    ensures KeepFits(Ranked(items, ConfigOf(mode), assess), ConfigOf(mode), assess)
    ensures (forall sample :: Samples(sample) ==> Partitions(items, mode, assess, explore, sample))
            <==> !explore || DistinctIds(LowOf(items, mode, assess))
  {
    KeepAlwaysFits(Ranked(items, ConfigOf(mode), assess), mode, assess);
    if !explore || DistinctIds(LowOf(items, mode, assess)) {
      forall sample | Samples(sample) ensures Partitions(items, mode, assess, explore, sample) {
        PartitionsWithoutLoss(items, mode, assess, explore, sample);
      }
    } else {
      var low := LowOf(items, mode, assess);
      var i, j :| 0 <= i < j < |low| && low[i].itemId == low[j].itemId;
      SharedIdIsLost(items, mode, assess, i, j);
    }
  }

  // ---- A batch that loses an item ----

  function Same(score: real, ev: real): Scorer { (c: Candidate) => Assessment(score, ev, 0.0, 0.0) }

  lemma {:induction false} FilterAll<T>(xs: seq<T>, p: T -> bool)
    requires forall x :: x in xs ==> p(x)
    ensures Filter(xs, p) == xs
  {
    if |xs| > 0 {
      var n := |xs| - 1;
      assert xs == xs[..n] + [xs[n]] && xs[n] in xs;
      FilterAll(xs[..n], p);
    }
  }

  lemma AllRanked(items: seq<Candidate>, mode: Mode, assess: Scorer)
    requires forall c :: c in items ==> GuardOk(ConfigOf(mode))(c) && EvOk(ConfigOf(mode), assess)(c)
    ensures multiset(Ranked(items, ConfigOf(mode), assess)) == multiset(items)
    ensures |Ranked(items, ConfigOf(mode), assess)| == |items|
  {
    var cfg := ConfigOf(mode);
    FilterAll(items, GuardOk(cfg));
    FilterAll(items, EvOk(cfg, assess));
    SortPermutes(items, ByScore(assess));
    assert |multiset(Ranked(items, cfg, assess))| == |multiset(items)|;
  }

  lemma SharesOfFour(r: real, x: real, k: int)
    requires x == 4.0 * r && k as real - 1.0 < x <= k as real
    ensures Share(4, r) == k
  {
    ProductIs(4.0, r);
    CeilBounds(x);
  }

  lemma TwoOfFour(ranked: seq<Candidate>, assess: Scorer)
    requires |ranked| == 4 && forall c :: c in ranked ==> assess(c).score == 0.0
    ensures KeepFits(ranked, ConfigOf(Reup), assess) && |Low(ranked, ConfigOf(Reup), assess)| == 2
  {
    assert ranked[0] in ranked;
    SharesOfFour(0.50, 2.0, 2);
    SharesOfFour(0.70, 2.8, 3);
  }

  lemma ZeroPassesReup(c: Candidate, assess: Scorer)
    requires assess(c) == Assessment(0.0, 0.0, 0.0, 0.0)
    ensures GuardOk(ConfigOf(Reup))(c) && EvOk(ConfigOf(Reup), assess)(c)
  {
  }

  lemma LowOfFour(items: seq<Candidate>, assess: Scorer, id: string)
    requires |items| == 4
    requires forall c :: c in items ==> c.itemId == id && assess(c) == Assessment(0.0, 0.0, 0.0, 0.0)
    ensures KeepFits(Ranked(items, ConfigOf(Reup), assess), ConfigOf(Reup), assess)
    ensures var low := LowOf(items, Reup, assess);
            |low| == 2 && low[0].itemId == low[1].itemId
  {
    forall c | c in items ensures GuardOk(ConfigOf(Reup))(c) && EvOk(ConfigOf(Reup), assess)(c) {
      ZeroPassesReup(c, assess);
    }
    RankedOfFour(items, Reup, assess);
  }

  lemma RankedOfFour(items: seq<Candidate>, mode: Mode, assess: Scorer)
    requires |items| == 4 && mode == Reup
    requires forall c :: c in items ==> GuardOk(ConfigOf(mode))(c) && EvOk(ConfigOf(mode), assess)(c) && assess(c).score == 0.0
    ensures KeepFits(Ranked(items, ConfigOf(mode), assess), ConfigOf(mode), assess)
    ensures |LowOf(items, mode, assess)| == 2 && LowOf(items, mode, assess)[0] in items && LowOf(items, mode, assess)[1] in items
  {
    AllRanked(items, mode, assess);
    var ranked := Ranked(items, ConfigOf(mode), assess);
    forall c | c in ranked ensures c in items {
      assert c in multiset(ranked);
    }
    TwoOfFour(ranked, assess);
    assert forall i :: 0 <= i < 2 ==> LowOf(items, mode, assess)[i] in ranked;
  }

  lemma FourOfOneId(items: seq<Candidate>, assess: Scorer, id: string, sample: (nat, nat) -> seq<nat>)
    requires Samples(sample) && |items| == 4
    requires forall c :: c in items ==> c.itemId == id && assess(c) == Assessment(0.0, 0.0, 0.0, 0.0)
    ensures KeepFits(Ranked(items, ConfigOf(Reup), assess), ConfigOf(Reup), assess)
    ensures !Partitions(items, Reup, assess, true, sample)
  {
    LowOfFour(items, assess, id);
    OneOfTwo(LowOf(items, Reup, assess), sample);
    PartitionIff(items, Reup, assess, true, sample);
  }

  function FourReposts(): (items: seq<Candidate>)
    ensures |items| == 4 && forall c :: c in items ==> c.itemId == "x"
  {
    [Candidate("x", 1.0, "a"), Candidate("x", 1.0, "b"), Candidate("x", 1.0, "c"), Candidate("x", 1.0, "d")]
  }

  /** Four reposts that share an id: whatever is sampled, one of them is neither kept, explored nor dropped. */
  lemma SharedIdLosesAnItem(sample: (nat, nat) -> seq<nat>)
    requires Samples(sample)
    ensures KeepFits(Ranked(FourReposts(), ConfigOf(Reup), Same(0.0, 0.0)), ConfigOf(Reup), Same(0.0, 0.0))
    ensures !Partitions(FourReposts(), Reup, Same(0.0, 0.0), true, sample)
  {
    FourOfOneId(FourReposts(), Same(0.0, 0.0), "x", sample);
  }

  lemma OneOfTwo(low: seq<Candidate>, sample: (nat, nat) -> seq<nat>)
    requires Samples(sample) && |low| == 2 && low[0].itemId == low[1].itemId
    ensures var ps := Positions(2, ConfigOf(Reup), true, sample);
            !NoSharedId(low, ps, Map(Picked(low, ps), IdOf()))
  {
    var ps := Positions(2, ConfigOf(Reup), true, sample);
    ExploresSomeNotAll(2, Reup);
    PickedIds(low, ps, ps[0]);
    assert 1 - ps[0] !in ps;
  }

  // ---- The batch and the worker gate ----

  /** Outside generation, and for products that are not killed, the worker produces every kept candidate
      exactly when at least the keep ratio of the batch reaches the threshold. */
  lemma KeptAllProducedIff(items: seq<Candidate>, mode: Mode, assess: Scorer, explore: bool, sample: (nat, nat) -> seq<nat>)
    requires Samples(sample) && mode != Generate && |Ranked(items, ConfigOf(mode), assess)| > 0
    ensures KeepFits(Ranked(items, ConfigOf(mode), assess), ConfigOf(mode), assess)
    ensures var cfg := ConfigOf(mode);
            var ranked := Ranked(items, cfg, assess);
            (forall c :: c in Divide(ranked, cfg, assess, explore, sample).keep ==> ShouldProduce(c, mode, assess, false))
            <==> PassIndex(ranked, cfg.threshold, assess) >= Fewest(|ranked|, cfg)
  {
    var cfg := ConfigOf(mode);
    var ranked := Ranked(items, cfg, assess);
    KeepAlwaysFits(ranked, mode, assess);
    ThresholdIsSoft(items, mode, assess);
    var keep := Divide(ranked, cfg, assess, explore, sample).keep;
    forall c | c in keep ensures ShouldProduce(c, mode, assess, false) <==> assess(c).score >= cfg.threshold {
      KeptButNotProduced(items, mode, assess, explore, sample, c, false);
    }
    AllReachIff(ranked, keep, cfg.threshold, assess);
  }

  /** Every element of a prefix reaches the threshold exactly when no position of it lies below. */
  lemma AllReachIff(ranked: seq<Candidate>, keep: seq<Candidate>, threshold: real, assess: Scorer)
    requires keep <= ranked
    ensures (forall c :: c in keep ==> assess(c).score >= threshold)
            <==> !exists i :: 0 <= i < |keep| && assess(ranked[i]).score < threshold
  {
    forall i | 0 <= i < |keep| ensures keep[i] == ranked[i] && keep[i] in keep {
    }
  }

  lemma OneRanked(c: Candidate, mode: Mode, assess: Scorer)
    requires GuardOk(ConfigOf(mode))(c) && EvOk(ConfigOf(mode), assess)(c)
    ensures Ranked([c], ConfigOf(mode), assess) == [c]
  {
    assert forall d :: d in [c] ==> d == c;
    AllRanked([c], mode, assess);
    SameElement(Ranked([c], ConfigOf(mode), assess), c);
  }

  lemma SameElement(xs: seq<Candidate>, c: Candidate)
    requires |xs| == 1 && multiset(xs) == multiset([c])
    ensures xs == [c]
  {
    assert xs[0] in multiset(xs);
  }

  /** A batch of one candidate that passes the gates keeps it, whatever its score. */
  lemma OneIsKept(c: Candidate, mode: Mode, assess: Scorer, explore: bool, sample: (nat, nat) -> seq<nat>)
    requires Samples(sample) && GuardOk(ConfigOf(mode))(c) && EvOk(ConfigOf(mode), assess)(c)
    ensures KeepFits(Ranked([c], ConfigOf(mode), assess), ConfigOf(mode), assess)
    ensures c in Divide(Ranked([c], ConfigOf(mode), assess), ConfigOf(mode), assess, explore, sample).keep
  {
    OneRanked(c, mode, assess);
    SoleIsKept([c], mode, assess, explore, sample);
  }

  lemma SoleIsKept(ranked: seq<Candidate>, mode: Mode, assess: Scorer, explore: bool, sample: (nat, nat) -> seq<nat>)
    requires Samples(sample) && |ranked| == 1
    ensures KeepFits(ranked, ConfigOf(mode), assess)
    ensures ranked[0] in Divide(ranked, ConfigOf(mode), assess, explore, sample).keep
  {
    KeepAlwaysFits(ranked, mode, assess);
    KeepCountIsClamp(1, PassIndex(ranked, ConfigOf(mode).threshold, assess), mode);
    assert Divide(ranked, ConfigOf(mode), assess, explore, sample).keep[0] == ranked[0];
  }

  /** Passing every gate of the batch with too little profit. */
  ghost predicate Unprofitable(c: Candidate, cfg: Config, assess: Scorer) {
    GuardOk(cfg)(c) && EvOk(cfg, assess)(c) && assess(c).profit < PROFIT_GATE
  }

  /** Full score and value without any profit is such a case. */
  lemma ValueWithoutProfit(c: Candidate, cfg: Config, assess: Scorer)
    requires cfg.matchGuard == 0.0 && cfg.minEv <= 1.0 && assess(c) == Assessment(1.0, 1.0, 0.0, 0.0)
    ensures Unprofitable(c, cfg, assess)
  {
  }

  /** Alone in its batch such a candidate for generation is kept, and then stopped by the worker. */
  lemma KeptYetStopped(c: Candidate, mode: Mode, assess: Scorer, explore: bool, sample: (nat, nat) -> seq<nat>)
    requires Samples(sample) && mode == Generate && Unprofitable(c, ConfigOf(mode), assess)
    ensures KeepFits(Ranked([c], ConfigOf(mode), assess), ConfigOf(mode), assess)
    ensures c in Divide(Ranked([c], ConfigOf(mode), assess), ConfigOf(mode), assess, explore, sample).keep
    ensures !ShouldProduce(c, mode, assess, false)
  {
    OneIsKept(c, mode, assess, explore, sample);
  }

  /** The best of candidates but for its profit: its batch keeps it, its worker does not produce it. */
  lemma WorthlessIsKept(explore: bool, sample: (nat, nat) -> seq<nat>) returns (c: Candidate, mode: Mode, assess: Scorer)
    requires Samples(sample)
    ensures mode == Generate && assess(c) == Assessment(1.0, 1.0, 0.0, 0.0)
    ensures KeepFits(Ranked([c], ConfigOf(mode), assess), ConfigOf(mode), assess)
    ensures c in Divide(Ranked([c], ConfigOf(mode), assess), ConfigOf(mode), assess, explore, sample).keep
    ensures !ShouldProduce(c, mode, assess, false)
  {
    c, mode, assess := Candidate("x", 1.0, ""), Generate, Same(1.0, 1.0);
    ValueWithoutProfit(c, ConfigOf(mode), assess);
    KeptYetStopped(c, mode, assess, explore, sample);
  }
}
