/** What the batch filter does with each candidate, in numbers: which ones the gates drop and why, and how many
    of the others are kept and explored. */
module ContentGates {
  import opened Sequences
  import opened Reals
  import opened ContentDecisions

  // ---- The gates ----

  /** A remark, and whatever mode is not known, needs a match score of 0.60. */
  ghost predicate Matches(mode: Mode, c: Candidate) { mode == Reup || mode == Generate || c.matchScore >= 0.60 }

  ghost function LeastEv(mode: Mode): real { if mode == Reup then 0.00 else if mode == Generate then 0.10 else 0.05 }

  /** The expected value covers the cost and reaches the least value of the mode. */
  ghost predicate Worth(mode: Mode, a: Assessment) { a.ev >= a.realCost && a.ev >= LeastEv(mode) }

  lemma GatesAre(mode: Mode, assess: Scorer, c: Candidate)
    ensures GuardOk(ConfigOf(mode))(c) == Matches(mode, c) == !GuardFails(ConfigOf(mode))(c)
    ensures EvOk(ConfigOf(mode), assess)(c) == Worth(mode, assess(c)) == !EvFails(ConfigOf(mode), assess)(c)
  {
  }

  /** Exactly the candidates that match and are worth it are ranked. */
  lemma RankedIff(items: seq<Candidate>, mode: Mode, assess: Scorer, c: Candidate)
    ensures c in Ranked(items, ConfigOf(mode), assess) <==> c in items && Matches(mode, c) && Worth(mode, assess(c))
  {
    RankedFacts(items, ConfigOf(mode), assess);
    GatesAre(mode, assess, c);
  }

  // ---- The results ----

  lemma {:induction false} MapMembers(xs: seq<Candidate>, f: Candidate -> Result, r: Result)
    ensures r in Map(xs, f) <==> exists c :: c in xs && f(c) == r
  {
    if |xs| > 0 {
      var n := |xs| - 1;
      MapMembers(xs[..n], f, r);
      assert xs == xs[..n] + [xs[n]];
    }
  }

  /** f makes a result of its argument. */
  ghost predicate OfItem(f: Candidate -> Result) { forall c :: f(c).item == c }

  lemma MapOf(xs: seq<Candidate>, f: Candidate -> Result, r: Result)
    requires OfItem(f)
    ensures r in Map(xs, f) <==> r.item in xs && r == f(r.item)
  {
    MapMembers(xs, f, r);
  }

  /** What a result of the filter says about its candidate. */
  ghost predicate Verdict(items: seq<Candidate>, s: Selection, mode: Mode, assess: Scorer, r: Result) {
    var c, a := r.item, assess(r.item);
    match r.decision
    case Keep => c in s.keep && r.score == a.score && r.reason == Ranking
    case Explore => c in s.explored && r.score == a.score && r.reason == Ranking
    case Drop =>
      match r.reason
      case MatchGuard => c in items && !Matches(mode, c) && r.score == 0.0
      case NegativeEv => c in items && Matches(mode, c) && a.ev < a.realCost && r.score == a.score
      case LowEv => c in items && Matches(mode, c) && a.realCost <= a.ev < LeastEv(mode) && r.score == a.score
      case Ranking => c in s.rest && r.score == a.score
  }

  lemma KeptSay(s: Selection, assess: Scorer, r: Result)
    ensures r in KeptResults(s, assess)
            <==> ((r.decision == Keep && r.item in s.keep) || (r.decision == Explore && r.item in s.explored))
                 && r.score == assess(r.item).score && r.reason == Ranking
  {
    MapOf(s.keep, Kept(assess), r);
    MapOf(s.explored, Explored(assess), r);
  }

  lemma GuardSays(items: seq<Candidate>, mode: Mode, r: Result)
    ensures r in Map(Filter(items, GuardFails(ConfigOf(mode))), GuardDropped())
            <==> r.item in items && !Matches(mode, r.item) && r == Result(r.item, 0.0, Drop, MatchGuard)
  {
    MapOf(Filter(items, GuardFails(ConfigOf(mode))), GuardDropped(), r);
    FilterMembers(items, GuardFails(ConfigOf(mode)), r.item);
  }

  lemma ValueSays(items: seq<Candidate>, mode: Mode, assess: Scorer, r: Result)
    ensures r in Map(Filter(AfterGuard(items, ConfigOf(mode)), EvFails(ConfigOf(mode), assess)), EvDropped(assess))
            <==> r.item in items && Matches(mode, r.item) && !Worth(mode, assess(r.item))
                 && r == Result(r.item, assess(r.item).score, Drop, if assess(r.item).ev < assess(r.item).realCost then NegativeEv else LowEv)
  {
    var cfg := ConfigOf(mode);
    MapOf(Filter(AfterGuard(items, cfg), EvFails(cfg, assess)), EvDropped(assess), r);
    FilterMembers(AfterGuard(items, cfg), EvFails(cfg, assess), r.item);
    FilterMembers(items, GuardOk(cfg), r.item);
    GatesAre(mode, assess, r.item);
  }

  lemma RankSays(s: Selection, assess: Scorer, r: Result)
    ensures r in Map(s.rest, RankDropped(assess))
            <==> r.item in s.rest && r == Result(r.item, assess(r.item).score, Drop, Ranking)
  {
    MapOf(s.rest, RankDropped(assess), r);
  }

  /** The two result lists hold exactly these results. */
  lemma ResultsAreVerdicts(items: seq<Candidate>, s: Selection, mode: Mode, assess: Scorer, r: Result)
    ensures r in KeptResults(s, assess) + DroppedResults(items, s, ConfigOf(mode), assess) <==> Verdict(items, s, mode, assess, r)
    ensures r in KeptResults(s, assess) ==> r.decision != Drop
    ensures r in DroppedResults(items, s, ConfigOf(mode), assess) ==> r.decision == Drop
  {
    KeptSay(s, assess, r);
    GuardSays(items, mode, r);
    ValueSays(items, mode, assess, r);
    RankSays(s, assess, r);
  }

  // ---- How many ----

  /** k is x rounded up. */
  ghost predicate RoundedUp(k: int, x: real) { k as real - 1.0 < x <= k as real }

  /** Of n ranked candidates at least the keep ratio and at most a fifth more are kept, both rounded up, and
      between these bounds exactly those that reach the threshold. */
  lemma KeptNumber(ranked: seq<Candidate>, mode: Mode, assess: Scorer, ratio: real, threshold: real) returns (lo: int, hi: int, reach: nat)
    requires SortedBy(ranked, ByScore(assess)) && |ranked| > 0
    requires ratio == match mode case Reup => 0.50 case Generate => 0.25 case _ => 0.35
    requires threshold == match mode case Reup => 0.30 case Generate => 0.55 case _ => 0.45
    ensures RoundedUp(lo, Product(|ranked| as real, ratio)) && RoundedUp(hi, Product(|ranked| as real, ratio + 0.20))
    ensures reach <= |ranked| && forall i :: 0 <= i < |ranked| ==> (i < reach <==> assess(ranked[i]).score >= threshold)
    ensures 0 < lo <= hi <= |ranked|
    ensures KeepCount(|ranked|, PassIndex(ranked, ConfigOf(mode).threshold, assess), ConfigOf(mode))
            == if reach < lo then lo else if reach > hi then hi else reach
  {
    var n, cfg := |ranked|, ConfigOf(mode);
    reach := PassIndex(ranked, cfg.threshold, assess);
    lo, hi := Fewest(n, cfg), Most(n, cfg);
    CeilBounds(Product(n as real, ratio));
    CeilBounds(Product(n as real, ratio + 0.20));
    FewestBelowMost(n, mode);
    KeepCountIsClamp(n, reach, mode);
    PassIndexSplits(ranked, cfg.threshold, assess);
  }

  /** Of m candidates behind the kept ones a tenth is explored, rounded up. */
  lemma ExploredNumber(m: nat, mode: Mode)
    ensures RoundedUp(ExploreCount(m, ConfigOf(mode)), Product(m as real, 0.10))
  {
    var cfg := ConfigOf(mode);
    CeilBounds(Product(m as real, 0.10));
    Shares(m, 0.10, 1.0);
    if m == 0 {
      ProductIs(m as real, 0.10);
    }
  }

  // ---- The worker ----

  /** The worker produces a candidate exactly if its product is not killed, it matches and is worth it, it reaches the
      threshold, and a generated one promises a profit of 0.20. */
  lemma ProducedIff(c: Candidate, mode: Mode, assess: Scorer, killed: bool)
    ensures ShouldProduce(c, mode, assess, killed)
            <==> !killed && Matches(mode, c) && Worth(mode, assess(c)) && (mode == Generate ==> assess(c).profit >= 0.20)
                 && assess(c).score >= match mode case Reup => 0.30 case Generate => 0.55 case _ => 0.45
  {
    GatesAre(mode, assess, c);
  }
}
