/** Batch selection of content candidates in core/content_decision.py. Scoring is an arbitrary
    function; the random sample is an arbitrary choice of distinct positions. */
module ContentDecisions {
  import opened Sequences
  import opened Reals

  datatype Mode = Reup | Remark | Generate | OtherMode

  datatype Config = Config(threshold: real, keepRatio: real, explorePct: real, matchGuard: real, minEv: real)

  function ConfigOf(m: Mode): Config {
    match m
    case Reup => Config(0.30, 0.50, 0.10, 0.0, 0.00)
    case Generate => Config(0.55, 0.25, 0.10, 0.0, 0.10)
    case _ => Config(0.45, 0.35, 0.10, 0.60, 0.05)
  }

  datatype Candidate = Candidate(itemId: string, matchScore: real, details: string)

  datatype Assessment = Assessment(score: real, ev: real, realCost: real, profit: real)

  type Scorer = Candidate -> Assessment

  datatype Decision = Keep | Explore | Drop

  datatype Reason = MatchGuard | NegativeEv | LowEv | Ranking

  datatype Result = Result(item: Candidate, score: real, decision: Decision, reason: Reason)

  // ---- Gates ----

  function GuardOk(cfg: Config): Candidate -> bool {
    (c: Candidate) => cfg.matchGuard <= 0.0 || c.matchScore >= cfg.matchGuard
  }

  function GuardFails(cfg: Config): Candidate -> bool {
    (c: Candidate) => !(cfg.matchGuard <= 0.0 || c.matchScore >= cfg.matchGuard)
  }

  function FinalScore(a: Assessment): real { a.ev - a.realCost }

  function EvOk(cfg: Config, assess: Scorer): Candidate -> bool {
    (c: Candidate) => FinalScore(assess(c)) >= 0.0 && assess(c).ev >= cfg.minEv
  }

  function EvFails(cfg: Config, assess: Scorer): Candidate -> bool {
    (c: Candidate) => FinalScore(assess(c)) < 0.0 || assess(c).ev < cfg.minEv
  }

  // ---- Ranking ----

  function ByScore(assess: Scorer): (Candidate, Candidate) -> bool {
    (a: Candidate, b: Candidate) => assess(a).score >= assess(b).score
  }

  function AfterGuard(items: seq<Candidate>, cfg: Config): seq<Candidate> { Filter(items, GuardOk(cfg)) }

  /** What passes both gates, best score first, ties in the order given. */
  function Ranked(items: seq<Candidate>, cfg: Config, assess: Scorer): seq<Candidate> {
    Sort(Filter(AfterGuard(items, cfg), EvOk(cfg, assess)), ByScore(assess))
  }

  function Ceil(x: real): int { -((-x).Floor) }

  /** The part r of n, rounded up. */
  function Share(n: nat, r: real): int { Ceil(Product(n as real, r)) }

  function Max(a: int, b: int): int { if a >= b then a else b }

  function Min(a: int, b: int): int { if a <= b then a else b }

  /** Position of the first score below the threshold. */
  function PassIndex(ranked: seq<Candidate>, threshold: real, assess: Scorer): (i: nat)
    ensures i <= |ranked|
  {
    if |ranked| == 0 || assess(ranked[0]).score < threshold then 0
    else 1 + PassIndex(ranked[1..], threshold, assess)
  }

  function KeepCount(n: nat, passIndex: nat, cfg: Config): int {
    KeepBetween(passIndex, Fewest(n, cfg), Most(n, cfg), n)
  }

  function Fewest(n: nat, cfg: Config): int { Share(n, cfg.keepRatio) }

  function Most(n: nat, cfg: Config): int { Share(n, cfg.keepRatio + 0.20) }

  function KeepBetween(passIndex: int, lo: int, hi: int, n: int): int {
    Min(Min(Max(Max(1, lo), passIndex), hi), n)
  }

  // ---- Exploration ----

  ghost predicate Below(ps: seq<nat>, n: nat) { forall i :: 0 <= i < |ps| ==> ps[i] < n }

  ghost predicate Distinct(ps: seq<nat>) { forall i, j :: 0 <= i < j < |ps| ==> ps[i] != ps[j] }

  /** What random.sample may return: k distinct positions below n. */
  ghost predicate IsSample(ps: seq<nat>, n: nat, k: nat) { |ps| == k && Below(ps, n) && Distinct(ps) }

  ghost predicate Samples(sample: (nat, nat) -> seq<nat>) {
    forall n: nat, k: nat :: k <= n ==> IsSample(sample(n, k), n, k)
  }

  function ExploreCount(m: nat, cfg: Config): (k: nat)
    ensures k <= m
  {
    if m == 0 then 0 else Min(Max(1, Share(m, cfg.explorePct)), m)
  }

  function Picked(xs: seq<Candidate>, ps: seq<nat>): (r: seq<Candidate>)
    requires Below(ps, |xs|)
    ensures |r| == |ps|
  {
    if |ps| == 0 then [] else Picked(xs, ps[..|ps| - 1]) + [xs[ps[|ps| - 1]]]
  }

  function IdOf(): Candidate -> string { (c: Candidate) => c.itemId }

  function NotNamed(ids: seq<string>): Candidate -> bool { (c: Candidate) => c.itemId !in ids }

  // ---- The whole selection ----

  datatype Selection = Selection(keep: seq<Candidate>, explored: seq<Candidate>, rest: seq<Candidate>)

  ghost predicate KeepFits(ranked: seq<Candidate>, cfg: Config, assess: Scorer) {
    0 <= KeepCount(|ranked|, PassIndex(ranked, cfg.threshold, assess), cfg) <= |ranked|
  }

  /** The positions explored among m rank-dropped candidates. */
  function Positions(m: nat, cfg: Config, explore: bool, sample: (nat, nat) -> seq<nat>): (ps: seq<nat>)
    requires Samples(sample)
    ensures Below(ps, m) && Distinct(ps) && |ps| == if explore then ExploreCount(m, cfg) else 0
  {
    if explore then sample(m, ExploreCount(m, cfg)) else []
  }

  /** The ranked candidates past the kept ones. */
  function Low(ranked: seq<Candidate>, cfg: Config, assess: Scorer): seq<Candidate>
    requires KeepFits(ranked, cfg, assess)
  {
    ranked[KeepCount(|ranked|, PassIndex(ranked, cfg.threshold, assess), cfg)..]
  }

  /** How the ranked candidates are divided; what shares an id with an explored one is not in the rest. */
  function Divide(ranked: seq<Candidate>, cfg: Config, assess: Scorer, explore: bool, sample: (nat, nat) -> seq<nat>): Selection
    requires Samples(sample) && KeepFits(ranked, cfg, assess)
  {
    var k := KeepCount(|ranked|, PassIndex(ranked, cfg.threshold, assess), cfg);
    var low := Low(ranked, cfg, assess);
    var picked := Picked(low, Positions(|low|, cfg, explore, sample));
    Selection(ranked[..k], picked, Filter(low, NotNamed(Map(picked, IdOf()))))
  }

  function Kept(assess: Scorer): Candidate -> Result { (c: Candidate) => Result(c, assess(c).score, Keep, Ranking) }

  function Explored(assess: Scorer): Candidate -> Result { (c: Candidate) => Result(c, assess(c).score, Explore, Ranking) }

  function RankDropped(assess: Scorer): Candidate -> Result { (c: Candidate) => Result(c, assess(c).score, Drop, Ranking) }

  function GuardDropped(): Candidate -> Result { (c: Candidate) => Result(c, 0.0, Drop, MatchGuard) }

  function EvDropped(assess: Scorer): Candidate -> Result {
    (c: Candidate) => Result(c, assess(c).score, Drop, if FinalScore(assess(c)) < 0.0 then NegativeEv else LowEv)
  }

  function KeptResults(s: Selection, assess: Scorer): seq<Result> {
    Map(s.keep, Kept(assess)) + Map(s.explored, Explored(assess))
  }

  function DroppedResults(items: seq<Candidate>, s: Selection, cfg: Config, assess: Scorer): seq<Result> {
    Map(Filter(items, GuardFails(cfg)), GuardDropped())
    + Map(Filter(AfterGuard(items, cfg), EvFails(cfg, assess)), EvDropped(assess))
    + Map(s.rest, RankDropped(assess))
  }

  // ---- Sizes ----

  function Clamp(x: int, lo: int, hi: int): int { if x < lo then lo else if x > hi then hi else x }

  lemma CeilBounds(x: real)
    ensures Ceil(x) as real - 1.0 < x <= Ceil(x) as real
  {
  }

  lemma CeilBelow(x: real, n: int)
    requires x <= n as real
    ensures Ceil(x) <= n
  {
    CeilBounds(x);
  }

  lemma CeilMono(x: real, y: real)
    requires x <= y
    ensures Ceil(x) <= Ceil(y)
  {
    CeilBounds(y);
    CeilBelow(x, Ceil(y));
  }

  lemma ClampArithmetic(passIndex: int, lo: int, hi: int, n: int)
    requires 0 <= lo <= hi <= n && (n > 0 ==> lo > 0)
    ensures n > 0 ==> KeepBetween(passIndex, lo, hi, n) == Clamp(passIndex, lo, hi) && KeepBetween(passIndex, lo, hi, n) > 0
    ensures 0 <= KeepBetween(passIndex, lo, hi, n) <= n
  {
  }

  lemma Shares(n: nat, r: real, q: real)
    requires 0.0 < r <= q <= 1.0
    ensures 0 <= Share(n, r) <= Share(n, q) <= n
    ensures n > 0 ==> Share(n, r) > 0
  {
    ProductPositive(n as real, r);
    ProductMono(n as real, r, q);
    ProductBelow(n as real, q);
    CeilMono(Product(n as real, r), Product(n as real, q));
    CeilBelow(Product(n as real, q), n);
    CeilBounds(Product(n as real, r));
  }

  lemma FewestBelowMost(n: nat, mode: Mode)
    ensures 0 <= Fewest(n, ConfigOf(mode)) <= Most(n, ConfigOf(mode)) <= n
    ensures n > 0 ==> Fewest(n, ConfigOf(mode)) > 0
  {
    var r := ConfigOf(mode).keepRatio;
    assert 0.0 < r <= 0.50;
    Shares(n, r, r + 0.20);
  }

  /** In every mode the number kept is the number at or above the threshold, clamped between the keep
      ratio and the keep ratio plus one fifth; the other two limits in the code never bind. */
  lemma KeepCountIsClamp(n: nat, passIndex: nat, mode: Mode)
    ensures var cfg := ConfigOf(mode);
            && (n > 0 ==> KeepCount(n, passIndex, cfg) == Clamp(passIndex, Fewest(n, cfg), Most(n, cfg)))
            && 0 <= KeepCount(n, passIndex, cfg) <= n
            && (n > 0 ==> KeepCount(n, passIndex, cfg) > 0)
  {
    FewestBelowMost(n, mode);
    ClampArithmetic(passIndex, Fewest(n, ConfigOf(mode)), Most(n, ConfigOf(mode)), n);
  }

  lemma {:induction false} PassIndexSplits(ranked: seq<Candidate>, threshold: real, assess: Scorer)
    requires SortedBy(ranked, ByScore(assess))
    ensures var i := PassIndex(ranked, threshold, assess);
            && (forall k :: 0 <= k < i ==> assess(ranked[k]).score >= threshold)
            && (forall k :: i <= k < |ranked| ==> assess(ranked[k]).score < threshold)
  {
    if |ranked| > 0 {
      if assess(ranked[0]).score < threshold {
        forall k | 0 < k < |ranked| ensures assess(ranked[k]).score < threshold {
          assert ByScore(assess)(ranked[0], ranked[k]);
        }
      } else {
        PassIndexSplits(ranked[1..], threshold, assess);
        var i := PassIndex(ranked[1..], threshold, assess);
        forall k | 0 <= k < |ranked| ensures k < i + 1 <==> assess(ranked[k]).score >= threshold {
          if k > 0 {
            assert ranked[k] == ranked[1..][k - 1];
          }
        }
      }
    }
  }

  lemma RankedFacts(items: seq<Candidate>, cfg: Config, assess: Scorer)
    ensures SortedBy(Ranked(items, cfg, assess), ByScore(assess))
    ensures forall c :: c in Ranked(items, cfg, assess) <==> c in items && GuardOk(cfg)(c) && EvOk(cfg, assess)(c)
  {
    var passed := Filter(AfterGuard(items, cfg), EvOk(cfg, assess));
    SortSorts(passed, ByScore(assess));
    forall c ensures c in Ranked(items, cfg, assess) <==> c in items && GuardOk(cfg)(c) && EvOk(cfg, assess)(c) {
      SortMember(passed, ByScore(assess), c);
      FilterMembers(AfterGuard(items, cfg), EvOk(cfg, assess), c);
      FilterMembers(items, GuardOk(cfg), c);
    }
  }

  /** Candidates of equal score keep the order in which they were given. */
  lemma TiesKeepOrder(items: seq<Candidate>, cfg: Config, assess: Scorer, score: real)
    ensures var tied := (c: Candidate) => assess(c).score == score;
            Filter(Ranked(items, cfg, assess), tied) == Filter(Filter(AfterGuard(items, cfg), EvOk(cfg, assess)), tied)
  {
    SortIsStable(Filter(AfterGuard(items, cfg), EvOk(cfg, assess)), ByScore(assess), (c: Candidate) => assess(c).score == score);
  }

  // ---- Partition ----

  /** The elements at positions outside ps, in order. */
  function Unpicked(xs: seq<Candidate>, ps: seq<nat>): seq<Candidate> {
    if |xs| == 0 then []
    else Unpicked(xs[..|xs| - 1], ps) + if |xs| - 1 in ps then [] else [xs[|xs| - 1]]
  }

  lemma {:induction false} SameUnpicked(xs: seq<Candidate>, ps: seq<nat>, qs: seq<nat>)
    requires forall i: nat :: i < |xs| ==> (i in ps <==> i in qs)
    ensures Unpicked(xs, ps) == Unpicked(xs, qs)
  {
    if |xs| > 0 {
      SameUnpicked(xs[..|xs| - 1], ps, qs);
    }
  }

  lemma PassTail(u: seq<Candidate>, u': seq<Candidate>, t: seq<Candidate>, x: Candidate)
    requires multiset(u) == multiset(u') + multiset{x}
    ensures multiset(u + t) == multiset(u' + t) + multiset{x}
  {
  }

  /** The last element is left out exactly when its position is not picked. */
  lemma UnpickedLast(xs: seq<Candidate>, ps: seq<nat>, picked: bool)
    requires |xs| > 0 && picked == (|xs| - 1 in ps)
    ensures Unpicked(xs, ps) == if picked then Unpicked(xs[..|xs| - 1], ps) else Unpicked(xs[..|xs| - 1], ps) + [xs[|xs| - 1]]
  {
  }

  /** Picking one more position takes exactly its element out of the unpicked ones. */
  lemma {:induction false} UnpickedOneLess(xs: seq<Candidate>, ps: seq<nat>, p: nat)
    requires p < |xs| && p !in ps
    ensures multiset(Unpicked(xs, ps)) == multiset(Unpicked(xs, ps + [p])) + multiset{xs[p]}
  {
    var n := |xs| - 1;
    UnpickedLast(xs, ps, n in ps);
    UnpickedLast(xs, ps + [p], n in ps || n == p);
    if p == n {
      SameUnpicked(xs[..n], ps, ps + [p]);
    } else {
      UnpickedOneLess(xs[..n], ps, p);
      if n !in ps {
        PassTail(Unpicked(xs[..n], ps), Unpicked(xs[..n], ps + [p]), [xs[n]], xs[p]);
      }
    }
  }

  lemma {:induction false} NothingPicked(xs: seq<Candidate>)
    ensures Unpicked(xs, []) == xs
  {
    if |xs| > 0 {
      NothingPicked(xs[..|xs| - 1]);
    }
  }

  lemma PassOver(a: multiset<Candidate>, b: multiset<Candidate>, b': multiset<Candidate>, x: Candidate)
    requires b == b' + multiset{x}
    ensures a + b == (a + multiset{x}) + b'
  {
  }

  lemma SameRest(a: multiset<Candidate>, b: multiset<Candidate>, b': multiset<Candidate>)
    requires a + b == a + b'
    ensures b == b' && |b| == |b'|
  {
    assert b == (a + b) - a;
    assert b' == (a + b') - a;
  }

  /** What is picked and what is not make up everything. */
  lemma {:induction false} PickedAndUnpicked(xs: seq<Candidate>, ps: seq<nat>)
    requires Below(ps, |xs|) && Distinct(ps)
    ensures multiset(Picked(xs, ps)) + multiset(Unpicked(xs, ps)) == multiset(xs)
  {
    if |ps| == 0 {
      NothingPicked(xs);
    } else {
      var n := |ps| - 1;
      PickedAndUnpicked(xs, ps[..n]);
      UnpickedOneLess(xs, ps[..n], ps[n]);
      assert ps == ps[..n] + [ps[n]];
      PassOver(multiset(Picked(xs, ps[..n])), multiset(Unpicked(xs, ps[..n])), multiset(Unpicked(xs, ps)), xs[ps[n]]);
    }
  }

  /** No candidate left out of the sample shares its id with one in it. */
  ghost predicate NoSharedId(xs: seq<Candidate>, ps: seq<nat>, ids: seq<string>) {
    forall i: nat :: i < |xs| && i !in ps ==> xs[i].itemId !in ids
  }

  lemma {:induction false} RemovalShrinks(xs: seq<Candidate>, ps: seq<nat>, ids: seq<string>)
    requires forall i: nat :: i < |xs| && i in ps ==> xs[i].itemId in ids
    ensures |Filter(xs, NotNamed(ids))| <= |Unpicked(xs, ps)|
    ensures |Filter(xs, NotNamed(ids))| == |Unpicked(xs, ps)| ==> NoSharedId(xs, ps, ids)
  {
    if |xs| > 0 {
      var n := |xs| - 1;
      RemovalShrinks(xs[..n], ps, ids);
      forall i: nat | |Filter(xs, NotNamed(ids))| == |Unpicked(xs, ps)| && i < |xs| && i !in ps ensures xs[i].itemId !in ids {
        assert i < n ==> xs[..n][i] == xs[i];
      }
    }
  }

  /** Removing by id removes exactly the picked ones if no id is shared. */
  lemma {:induction false} RemovalByIdIsExact(xs: seq<Candidate>, ps: seq<nat>, ids: seq<string>)
    requires forall i: nat :: i < |xs| && i in ps ==> xs[i].itemId in ids
    requires NoSharedId(xs, ps, ids)
    ensures Filter(xs, NotNamed(ids)) == Unpicked(xs, ps)
  {
    if |xs| > 0 {
      var n := |xs| - 1;
      forall i: nat | i < n && i !in ps ensures xs[..n][i].itemId !in ids {
        assert xs[..n][i] == xs[i];
      }
      RemovalByIdIsExact(xs[..n], ps, ids);
    }
  }

  lemma {:induction false} PickedIds(xs: seq<Candidate>, ps: seq<nat>, i: nat)
    requires Below(ps, |xs|) && i in ps
    ensures i < |xs| && xs[i].itemId in Map(Picked(xs, ps), IdOf())
  {
    var k :| 0 <= k < |ps| && ps[k] == i;
    PickedAt(xs, ps, k);
    assert Map(Picked(xs, ps), IdOf())[k] == xs[i].itemId;
  }

  lemma {:induction false} PickedAt(xs: seq<Candidate>, ps: seq<nat>, k: nat)
    requires k < |ps| && Below(ps, |xs|)
    ensures Picked(xs, ps)[k] == xs[ps[k]]
  {
    if k < |ps| - 1 {
      PickedAt(xs, ps[..|ps| - 1], k);
    }
  }

  /** Picking some and dropping by id divides xs exactly when no dropped id is shared. */
  lemma DivisionIff(xs: seq<Candidate>, ps: seq<nat>)
    requires IsSample(ps, |xs|, |ps|)
    ensures var ids := Map(Picked(xs, ps), IdOf());
            multiset(Picked(xs, ps)) + multiset(Filter(xs, NotNamed(ids))) == multiset(xs) <==> NoSharedId(xs, ps, ids)
  {
    var ids := Map(Picked(xs, ps), IdOf());
    forall i: nat | i < |xs| && i in ps ensures xs[i].itemId in ids {
      PickedIds(xs, ps, i);
    }
    RemovalShrinks(xs, ps, ids);
    PickedAndUnpicked(xs, ps);
    if NoSharedId(xs, ps, ids) {
      RemovalByIdIsExact(xs, ps, ids);
    }
    if multiset(Picked(xs, ps)) + multiset(Filter(xs, NotNamed(ids))) == multiset(xs) {
      SameRest(multiset(Picked(xs, ps)), multiset(Filter(xs, NotNamed(ids))), multiset(Unpicked(xs, ps)));
    }
  }

  // ---- The results of a batch ----

  function ItemOf(): Result -> Candidate { (r: Result) => r.item }

  function Items(rs: seq<Result>): seq<Candidate> { Map(rs, ItemOf()) }

  lemma ItemsOfMap(xs: seq<Candidate>, f: Candidate -> Result)
    requires forall x :: f(x).item == x
    ensures Items(Map(xs, f)) == xs
  {
  }

  lemma ItemsConcat(rs: seq<Result>, rs': seq<Result>)
    ensures Items(rs + rs') == Items(rs) + Items(rs')
  {
  }

  lemma ResultItems(items: seq<Candidate>, s: Selection, cfg: Config, assess: Scorer)
    ensures Items(KeptResults(s, assess)) == s.keep + s.explored
    ensures Items(DroppedResults(items, s, cfg, assess))
            == Filter(items, GuardFails(cfg)) + Filter(AfterGuard(items, cfg), EvFails(cfg, assess)) + s.rest
  {
    ItemsOfMap(s.keep, Kept(assess));
    ItemsOfMap(s.explored, Explored(assess));
    ItemsConcat(Map(s.keep, Kept(assess)), Map(s.explored, Explored(assess)));
    var guarded, evs := Filter(items, GuardFails(cfg)), Filter(AfterGuard(items, cfg), EvFails(cfg, assess));
    ItemsOfMap(guarded, GuardDropped());
    ItemsOfMap(evs, EvDropped(assess));
    ItemsOfMap(s.rest, RankDropped(assess));
    ItemsConcat(Map(guarded, GuardDropped()), Map(evs, EvDropped(assess)));
    ItemsConcat(Map(guarded, GuardDropped()) + Map(evs, EvDropped(assess)), Map(s.rest, RankDropped(assess)));
  }

  /** The gates and the ranking lose and invent nothing. */
  lemma GatesPartition(items: seq<Candidate>, cfg: Config, assess: Scorer)
    ensures multiset(Filter(items, GuardFails(cfg))) + multiset(Filter(AfterGuard(items, cfg), EvFails(cfg, assess)))
            + multiset(Ranked(items, cfg, assess)) == multiset(items)
  {
    var passed := AfterGuard(items, cfg);
    FilterSplits(items, GuardOk(cfg), GuardFails(cfg));
    FilterSplits(passed, EvOk(cfg, assess), EvFails(cfg, assess));
    SortPermutes(Filter(passed, EvOk(cfg, assess)), ByScore(assess));
  }

  lemma KeepAlwaysFits(ranked: seq<Candidate>, mode: Mode, assess: Scorer)
    ensures KeepFits(ranked, ConfigOf(mode), assess)
  {
    KeepCountIsClamp(|ranked|, PassIndex(ranked, ConfigOf(mode).threshold, assess), mode);
  }

  lemma DivideParts(ranked: seq<Candidate>, cfg: Config, assess: Scorer, explore: bool, sample: (nat, nat) -> seq<nat>)
    requires Samples(sample) && KeepFits(ranked, cfg, assess)
    ensures var s, low := Divide(ranked, cfg, assess, explore, sample), Low(ranked, cfg, assess);
            && ranked == s.keep + low
            && s.explored == Picked(low, Positions(|low|, cfg, explore, sample))
            && s.rest == Filter(low, NotNamed(Map(s.explored, IdOf())))
  {
    var k := KeepCount(|ranked|, PassIndex(ranked, cfg.threshold, assess), cfg);
    assert ranked == ranked[..k] + ranked[k..];
  }

  lemma DivideIff(ranked: seq<Candidate>, cfg: Config, assess: Scorer, explore: bool, sample: (nat, nat) -> seq<nat>)
    requires Samples(sample) && KeepFits(ranked, cfg, assess)
    ensures var s, low := Divide(ranked, cfg, assess, explore, sample), Low(ranked, cfg, assess);
            && ranked == s.keep + low
            && (multiset(s.explored) + multiset(s.rest) == multiset(low)
                <==> NoSharedId(low, Positions(|low|, cfg, explore, sample), Map(s.explored, IdOf())))
  {
    var s, low := Divide(ranked, cfg, assess, explore, sample), Low(ranked, cfg, assess);
    DivideParts(ranked, cfg, assess, explore, sample);
    DivisionOf(low, Positions(|low|, cfg, explore, sample), s.explored, s.rest);
  }

  lemma DivisionOf(low: seq<Candidate>, ps: seq<nat>, explored: seq<Candidate>, rest: seq<Candidate>)
    requires IsSample(ps, |low|, |ps|) && explored == Picked(low, ps) && rest == Filter(low, NotNamed(Map(explored, IdOf())))
    ensures multiset(explored) + multiset(rest) == multiset(low) <==> NoSharedId(low, ps, Map(explored, IdOf()))
  {
    DivisionIff(low, ps);
  }

  /** Every item appears exactly once among the results, exactly if no rank-dropped candidate outside
      the exploration sample shares its id with one inside. */
  lemma PartitionIff(items: seq<Candidate>, mode: Mode, assess: Scorer, explore: bool, sample: (nat, nat) -> seq<nat>)
    requires Samples(sample)
    ensures KeepFits(Ranked(items, ConfigOf(mode), assess), ConfigOf(mode), assess)
    ensures var cfg := ConfigOf(mode);
            var ranked := Ranked(items, cfg, assess);
            var s := Divide(ranked, cfg, assess, explore, sample);
            var low := Low(ranked, cfg, assess);
            multiset(Items(KeptResults(s, assess) + DroppedResults(items, s, cfg, assess))) == multiset(items)
            <==> NoSharedId(low, Positions(|low|, cfg, explore, sample), Map(s.explored, IdOf()))
  {
    var cfg := ConfigOf(mode);
    var ranked := Ranked(items, cfg, assess);
    KeepAlwaysFits(ranked, mode, assess);
    var s, low := Divide(ranked, cfg, assess, explore, sample), Low(ranked, cfg, assess);
    SelectionItems(items, s, cfg, assess);
    GatesPartition(items, cfg, assess);
    DivideIff(ranked, cfg, assess, explore, sample);
    Rearrange(multiset(Filter(items, GuardFails(cfg))), multiset(Filter(AfterGuard(items, cfg), EvFails(cfg, assess))),
              multiset(s.keep), multiset(low), multiset(s.explored), multiset(s.rest), multiset(items));
  }

  lemma SelectionItems(items: seq<Candidate>, s: Selection, cfg: Config, assess: Scorer)
    ensures multiset(Items(KeptResults(s, assess) + DroppedResults(items, s, cfg, assess)))
            == (multiset(s.keep) + multiset(s.explored))
               + (multiset(Filter(items, GuardFails(cfg))) + multiset(Filter(AfterGuard(items, cfg), EvFails(cfg, assess)))
                  + multiset(s.rest))
  {
    ItemsConcat(KeptResults(s, assess), DroppedResults(items, s, cfg, assess));
    ResultItems(items, s, cfg, assess);
  }

  lemma Rearrange(g: multiset<Candidate>, e: multiset<Candidate>, k: multiset<Candidate>, low: multiset<Candidate>,
                  x: multiset<Candidate>, r: multiset<Candidate>, all: multiset<Candidate>)
    requires g + e + (k + low) == all
    ensures (k + x) + (g + e + r) == all <==> x + r == low
  {
    assert (k + x) + (g + e + r) == (g + e + k) + (x + r);
    assert all == (g + e + k) + low;
    if (k + x) + (g + e + r) == all {
      SameRest(g + e + k, x + r, low);
    }
  }

  ghost predicate DistinctIds(xs: seq<Candidate>) {
    forall i, j :: 0 <= i < j < |xs| ==> xs[i].itemId != xs[j].itemId
  }

  /** Ids are distinct when no two elements, counted with multiplicity, share one. */
  ghost predicate UniqueIds(m: multiset<Candidate>) {
    forall x, y :: x in m && y in m && x.itemId == y.itemId ==> x == y && m[x] == 1
  }

  lemma {:induction false} DistinctIsUnique(xs: seq<Candidate>)
    requires DistinctIds(xs)
    ensures UniqueIds(multiset(xs))
  {
    if |xs| > 0 {
      var n := |xs| - 1;
      DistinctIsUnique(xs[..n]);
      assert xs == xs[..n] + [xs[n]];
      forall x | x in multiset(xs[..n]) ensures x.itemId != xs[n].itemId {
        var i :| 0 <= i < n && xs[..n][i] == x;
      }
    }
  }

  lemma UniqueIsDistinct(xs: seq<Candidate>)
    requires UniqueIds(multiset(xs))
    ensures DistinctIds(xs)
  {
    forall i, j | 0 <= i < j < |xs| ensures xs[i].itemId != xs[j].itemId {
      TwiceCounted(xs, i, j);
      assert xs[i] in multiset(xs) && xs[j] in multiset(xs);
    }
  }

  lemma TwiceCounted(xs: seq<Candidate>, i: nat, j: nat)
    requires i < j < |xs|
    ensures xs[i] == xs[j] ==> multiset(xs)[xs[i]] >= 2
  {
    assert xs == xs[..j] + [xs[j]] + xs[j + 1..];
    assert xs[i] in xs[..j];
    assert multiset(xs)[xs[i]] == multiset(xs[..j])[xs[i]] + multiset{xs[j]}[xs[i]] + multiset(xs[j + 1..])[xs[i]];
  }

  lemma SubsetUnique(a: multiset<Candidate>, b: multiset<Candidate>)
    requires UniqueIds(a + b)
    ensures UniqueIds(b)
  {
    forall x, y | x in b && y in b && x.itemId == y.itemId ensures x == y && b[x] == 1 {
      assert x in a + b && y in a + b;
    }
  }

  lemma SharedPosition(low: seq<Candidate>, ps: seq<nat>, i: nat)
    requires DistinctIds(low) && Below(ps, |low|) && i < |low|
    requires low[i].itemId in Map(Picked(low, ps), IdOf())
    ensures i in ps
  {
    var ids := Map(Picked(low, ps), IdOf());
    var k :| 0 <= k < |ids| && ids[k] == low[i].itemId;
    PickedAt(low, ps, k);
    assert ps[k] in ps && low[ps[k]].itemId == low[i].itemId;
  }

  lemma DistinctNotShared(low: seq<Candidate>, ps: seq<nat>)
    requires DistinctIds(low) && Below(ps, |low|)
    ensures NoSharedId(low, ps, Map(Picked(low, ps), IdOf()))
  {
    forall i: nat | i < |low| && low[i].itemId in Map(Picked(low, ps), IdOf()) ensures i in ps {
      SharedPosition(low, ps, i);
    }
  }

  lemma RankedDistinct(items: seq<Candidate>, cfg: Config, assess: Scorer)
    requires DistinctIds(items)
    ensures DistinctIds(Ranked(items, cfg, assess))
  {
    GatesPartition(items, cfg, assess);
    DistinctIsUnique(items);
    SubsetUnique(multiset(Filter(items, GuardFails(cfg))) + multiset(Filter(AfterGuard(items, cfg), EvFails(cfg, assess))),
                 multiset(Ranked(items, cfg, assess)));
    UniqueIsDistinct(Ranked(items, cfg, assess));
  }

  lemma LowDistinct(ranked: seq<Candidate>, cfg: Config, assess: Scorer)
    requires KeepFits(ranked, cfg, assess) && DistinctIds(ranked)
    ensures DistinctIds(Low(ranked, cfg, assess))
  {
  }

  /** With distinct ids every item appears exactly once among keep, explore and drop. */
  lemma DistinctIdsPartition(items: seq<Candidate>, mode: Mode, assess: Scorer, explore: bool, sample: (nat, nat) -> seq<nat>)
    requires Samples(sample) && DistinctIds(items)
    ensures KeepFits(Ranked(items, ConfigOf(mode), assess), ConfigOf(mode), assess)
    ensures var cfg := ConfigOf(mode);
            var s := Divide(Ranked(items, cfg, assess), cfg, assess, explore, sample);
            multiset(Items(KeptResults(s, assess) + DroppedResults(items, s, cfg, assess))) == multiset(items)
  {
    var cfg := ConfigOf(mode);
    var ranked := Ranked(items, cfg, assess);
    PartitionIff(items, mode, assess, explore, sample);
    RankedDistinct(items, cfg, assess);
    LowDistinct(ranked, cfg, assess);
    DivideParts(ranked, cfg, assess, explore, sample);
    var low := Low(ranked, cfg, assess);
    DistinctNotShared(low, Positions(|low|, cfg, explore, sample));
  }

  // ---- Quality of the selection ----

  lemma {:induction false} PickedMembers(xs: seq<Candidate>, ps: seq<nat>)
    requires Below(ps, |xs|)
    ensures forall c :: c in Picked(xs, ps) ==> c in xs
  {
    if |ps| > 0 {
      PickedMembers(xs, ps[..|ps| - 1]);
    }
  }

  lemma RankedApart(ranked: seq<Candidate>, keep: seq<Candidate>, low: seq<Candidate>, assess: Scorer, c: Candidate, d: Candidate)
    requires SortedBy(ranked, ByScore(assess)) && ranked == keep + low && c in keep && d in low
    ensures assess(c).score >= assess(d).score
  {
    var i :| 0 <= i < |keep| && keep[i] == c;
    var j :| 0 <= j < |low| && low[j] == d;
    assert ranked[i] == c && ranked[|keep| + j] == d;
    assert ByScore(assess)(ranked[i], ranked[|keep| + j]);
  }

  /** Explored and dropped candidates come from behind the kept ones. */
  lemma DivideMembers(ranked: seq<Candidate>, cfg: Config, assess: Scorer, explore: bool, sample: (nat, nat) -> seq<nat>, c: Candidate)
    requires Samples(sample) && KeepFits(ranked, cfg, assess)
    ensures var s := Divide(ranked, cfg, assess, explore, sample);
            c in s.explored || c in s.rest ==> c in Low(ranked, cfg, assess)
  {
    var s, low := Divide(ranked, cfg, assess, explore, sample), Low(ranked, cfg, assess);
    DivideParts(ranked, cfg, assess, explore, sample);
    PickedMembers(low, Positions(|low|, cfg, explore, sample));
    FilterMembers(low, NotNamed(Map(s.explored, IdOf())), c);
  }

  lemma DivideRanks(ranked: seq<Candidate>, cfg: Config, assess: Scorer, explore: bool, sample: (nat, nat) -> seq<nat>,
                    c: Candidate, d: Candidate)
    requires Samples(sample) && KeepFits(ranked, cfg, assess) && SortedBy(ranked, ByScore(assess))
    ensures var s := Divide(ranked, cfg, assess, explore, sample);
            && (c in s.keep || c in s.explored || c in s.rest ==> c in ranked)
            && (c in s.keep && (d in s.explored || d in s.rest) ==> assess(c).score >= assess(d).score)
  {
    var s, low := Divide(ranked, cfg, assess, explore, sample), Low(ranked, cfg, assess);
    DivideParts(ranked, cfg, assess, explore, sample);
    DivideMembers(ranked, cfg, assess, explore, sample, c);
    DivideMembers(ranked, cfg, assess, explore, sample, d);
    if c in s.keep && d in low {
      RankedApart(ranked, s.keep, low, assess, c, d);
    }
  }

  /** Everything kept or explored matches and covers its cost and the least value of its mode, and nothing
      explored or dropped for its rank outscores a kept candidate. */
  lemma SelectionIsSound(items: seq<Candidate>, mode: Mode, assess: Scorer, explore: bool, sample: (nat, nat) -> seq<nat>)
    requires Samples(sample)
    ensures KeepFits(Ranked(items, ConfigOf(mode), assess), ConfigOf(mode), assess)
    ensures var s := Divide(Ranked(items, ConfigOf(mode), assess), ConfigOf(mode), assess, explore, sample);
            && (forall c :: c in s.keep || c in s.explored ==>
                  && c in items && (mode == Reup || mode == Generate || c.matchScore >= 0.60)
                  && assess(c).ev >= assess(c).realCost
                  && assess(c).ev >= match mode case Reup => 0.00 case Generate => 0.10 case _ => 0.05)
            && (forall c, d :: c in s.keep && (d in s.explored || d in s.rest) ==> assess(c).score >= assess(d).score)
  {
    var cfg := ConfigOf(mode);
    var ranked := Ranked(items, cfg, assess);
    KeepAlwaysFits(ranked, mode, assess);
    RankedFacts(items, cfg, assess);
    forall c, d
      ensures var s := Divide(ranked, cfg, assess, explore, sample);
              && (c in s.keep || c in s.explored ==> c in items && GuardOk(cfg)(c) && EvOk(cfg, assess)(c))
              && (c in s.keep && (d in s.explored || d in s.rest) ==> assess(c).score >= assess(d).score)
    {
      DivideRanks(ranked, cfg, assess, explore, sample, c, d);
    }
  }

  /** The threshold is soft both ways: a kept candidate lies below it exactly when too few reach it,
      and a rank-dropped one reaches it exactly when too many do. */
  lemma ThresholdIsSoft(items: seq<Candidate>, mode: Mode, assess: Scorer)
    requires |Ranked(items, ConfigOf(mode), assess)| > 0
    ensures var cfg := ConfigOf(mode);
            var ranked := Ranked(items, cfg, assess);
            var n, reach := |ranked|, PassIndex(ranked, cfg.threshold, assess);
            var k := KeepCount(n, reach, cfg);
            && 0 <= k <= n
            && ((exists i :: 0 <= i < k && assess(ranked[i]).score < cfg.threshold) <==> reach < Fewest(n, cfg))
            && ((exists i :: k <= i < n && assess(ranked[i]).score >= cfg.threshold) <==> reach > Most(n, cfg))
  {
    var cfg := ConfigOf(mode);
    var ranked := Ranked(items, cfg, assess);
    var n, reach := |ranked|, PassIndex(ranked, cfg.threshold, assess);
    KeepCountIsClamp(n, reach, mode);
    FewestBelowMost(n, mode);
    RankedFacts(items, cfg, assess);
    PassIndexSplits(ranked, cfg.threshold, assess);
    var k := KeepCount(n, reach, cfg);
    if reach < k {
      assert assess(ranked[reach]).score < cfg.threshold;
    } else if reach > k {
      assert assess(ranked[k]).score >= cfg.threshold;
    }
  }

  // ---- The worker gate ----

  const PROFIT_GATE := 0.20

  /** The gate a worker asks before producing one candidate. */
  function ShouldProduce(c: Candidate, mode: Mode, assess: Scorer, killed: bool): bool {
    var cfg := ConfigOf(mode);
    && !killed
    && GuardOk(cfg)(c)
    && EvOk(cfg, assess)(c)
    && !(mode == Generate && assess(c).profit < PROFIT_GATE)
    && assess(c).score >= cfg.threshold
  }

  /** A kept candidate is stopped by the worker gate exactly if its product is killed, it lies below
      the threshold, or it is to be generated with too little profit; the batch checks none of these. */
  lemma KeptButNotProduced(items: seq<Candidate>, mode: Mode, assess: Scorer, explore: bool, sample: (nat, nat) -> seq<nat>,
                           c: Candidate, killed: bool)
    requires Samples(sample) && KeepFits(Ranked(items, ConfigOf(mode), assess), ConfigOf(mode), assess)
    requires c in Divide(Ranked(items, ConfigOf(mode), assess), ConfigOf(mode), assess, explore, sample).keep
    ensures !ShouldProduce(c, mode, assess, killed)
            <==> killed || (mode == Generate && assess(c).profit < 0.20)
                 || assess(c).score < match mode case Reup => 0.30 case Generate => 0.55 case _ => 0.45
  {
    RankedFacts(items, ConfigOf(mode), assess);
    DivideRanks(Ranked(items, ConfigOf(mode), assess), ConfigOf(mode), assess, explore, sample, c, c);
  }

  // ---- The loops ----

  method SplitByGuard(items: seq<Candidate>, cfg: Config) returns (dropped: seq<Result>, passed: seq<Candidate>)
    ensures dropped == Map(Filter(items, GuardFails(cfg)), GuardDropped())
    ensures passed == AfterGuard(items, cfg)
  {
    dropped, passed := [], [];
    for i := 0 to |items|
      invariant dropped == Map(Filter(items[..i], GuardFails(cfg)), GuardDropped())
      invariant passed == Filter(items[..i], GuardOk(cfg))
    {
      MapFilterPrefix(items, i, GuardFails(cfg), GuardDropped());
      FilterPrefix(items, i, GuardOk(cfg));
      if cfg.matchGuard > 0.0 && items[i].matchScore < cfg.matchGuard {
        dropped := dropped + [Result(items[i], 0.0, Drop, MatchGuard)];
      } else {
        passed := passed + [items[i]];
      }
    }
    assert items[..|items|] == items;
  }

  /** What one more candidate adds to the two lists of the value gate. */
  lemma ValueStep(passed: seq<Candidate>, i: nat, cfg: Config, assess: Scorer)
    requires i < |passed|
    ensures Map(Filter(passed[..i + 1], EvFails(cfg, assess)), EvDropped(assess))
            == Map(Filter(passed[..i], EvFails(cfg, assess)), EvDropped(assess))
               + if EvFails(cfg, assess)(passed[i]) then [EvDropped(assess)(passed[i])] else []
    ensures Filter(passed[..i + 1], EvOk(cfg, assess))
            == Filter(passed[..i], EvOk(cfg, assess)) + if EvOk(cfg, assess)(passed[i]) then [passed[i]] else []
  {
    MapFilterPrefix(passed, i, EvFails(cfg, assess), EvDropped(assess));
    FilterPrefix(passed, i, EvOk(cfg, assess));
  }

  method SplitByValue(passed: seq<Candidate>, cfg: Config, assess: Scorer) returns (dropped: seq<Result>, scored: seq<Candidate>)
    ensures dropped == Map(Filter(passed, EvFails(cfg, assess)), EvDropped(assess))
    ensures scored == Filter(passed, EvOk(cfg, assess))
  {
    dropped, scored := [], [];
    for i := 0 to |passed|
      invariant dropped == Map(Filter(passed[..i], EvFails(cfg, assess)), EvDropped(assess))
      invariant scored == Filter(passed[..i], EvOk(cfg, assess))
    {
      var c := passed[i];
      var a := assess(c);
      ValueStep(passed, i, cfg, assess);
      if FinalScore(a) < 0.0 {
        dropped := dropped + [Result(c, a.score, Drop, NegativeEv)];
      } else if a.ev < cfg.minEv {
        dropped := dropped + [Result(c, a.score, Drop, LowEv)];
      } else {
        scored := scored + [c];
      }
    }
    assert passed[..|passed|] == passed;
  }

  /** The batch filter: the kept and explored results, then the dropped ones. */
  method FilterCandidates(items: seq<Candidate>, mode: Mode, assess: Scorer, explore: bool, sample: (nat, nat) -> seq<nat>)
    returns (kept: seq<Result>, dropped: seq<Result>)
    requires Samples(sample)
    ensures KeepFits(Ranked(items, ConfigOf(mode), assess), ConfigOf(mode), assess)
    ensures var cfg := ConfigOf(mode);
            var s := Divide(Ranked(items, cfg, assess), cfg, assess, explore, sample);
            kept == KeptResults(s, assess) && dropped == DroppedResults(items, s, cfg, assess)
    ensures DistinctIds(items) ==> multiset(Items(kept + dropped)) == multiset(items)
  {
    var cfg := ConfigOf(mode);
    if DistinctIds(items) {
      DistinctIdsPartition(items, mode, assess, explore, sample);
    }
    var guardDropped, passed := SplitByGuard(items, cfg);
    var evDropped, scored := SplitByValue(passed, cfg, assess);
    var ranked := Sort(scored, ByScore(assess));
    kept, dropped := SelectRanked(ranked, mode, cfg, assess, explore, sample);
    dropped := guardDropped + evDropped + dropped;
  }

  method SelectRanked(ranked: seq<Candidate>, mode: Mode, cfg: Config, assess: Scorer, explore: bool, sample: (nat, nat) -> seq<nat>)
    returns (kept: seq<Result>, dropped: seq<Result>)
    requires Samples(sample) && cfg == ConfigOf(mode)
    ensures KeepFits(ranked, cfg, assess)
    ensures var s := Divide(ranked, cfg, assess, explore, sample);
            kept == KeptResults(s, assess) && dropped == Map(s.rest, RankDropped(assess))
  {
    KeepAlwaysFits(ranked, mode, assess);
    var keepN := KeepCount(|ranked|, PassIndex(ranked, cfg.threshold, assess), cfg);
    var explored, rest := ExploreSome(ranked[keepN..], cfg, explore, sample);
    kept := Map(ranked[..keepN], Kept(assess)) + Map(explored, Explored(assess));
    dropped := Map(rest, RankDropped(assess));
  }

  method ExploreSome(low: seq<Candidate>, cfg: Config, explore: bool, sample: (nat, nat) -> seq<nat>)
    returns (explored: seq<Candidate>, rest: seq<Candidate>)
    requires Samples(sample)
    ensures explored == Picked(low, Positions(|low|, cfg, explore, sample))
    ensures rest == Filter(low, NotNamed(Map(explored, IdOf())))
  {
    explored, rest := [], low;
    if explore && |low| > 0 {
      explored := Picked(low, sample(|low|, ExploreCount(|low|, cfg)));
      rest := Filter(low, NotNamed(Map(explored, IdOf())));
    } else {
      AllUnnamed(low);
    }
  }

  lemma {:induction false} AllUnnamed(xs: seq<Candidate>)
    ensures Filter(xs, NotNamed([])) == xs
  {
    if |xs| > 0 {
      AllUnnamed(xs[..|xs| - 1]);
    }
  }
}
