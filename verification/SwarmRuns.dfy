/** Runs of the clustering state from its beginning: exactly which rewards keep every centroid in the unit cube. */
module SwarmRuns {
  import opened Sequences
  import opened Reals
  import opened Vectors
  import opened Lloyd
  import opened Reshaping
  import opened LeavingCube
  import opened SmallPasses
  import opened LinePasses
  import opened Swarms

  ghost predicate Paired(s: State) { |s.accounts| == |s.points| }

  lemma StepPaired(s: State, e: Event, hash: (nat, nat) -> nat, root: real -> real)
    requires Paired(s)
    ensures Paired(Stepped(s, e, hash, root))
  {
  }

  /** The state after the given calls. */
  function After(es: seq<Event>, hash: (nat, nat) -> nat, root: real -> real): (s: State)
    ensures Paired(s)
  {
    if |es| == 0 then FRESH
    else
      var n := |es| - 1;
      var s := After(es[..n], hash, root);
      StepPaired(s, es[n], hash, root);
      Stepped(s, es[n], hash, root)
  }

  /** Every reported reward is at least the given one. */
  ghost predicate Floored(es: seq<Event>, floor: real) {
    forall i :: 0 <= i < |es| && es[i].Report? ==> es[i].reward >= floor
  }

  // ---- With rewards of at least -1.5 nothing leaves ----

  ghost predicate Sheltered(s: State) {
    && K_MIN <= s.shape.k <= K_MAX && AllInCube(s.shape.centroids) && AllInCube(s.points) && NonNegative(s.quality)
  }

  lemma UpdateSheltered(quality: Qualities, cluster: nat, risk: real, reward: real)
    requires NonNegative(quality) && reward >= -1.5
    ensures NonNegative(quality[cluster := UpdatedQuality(Quality(quality, cluster), risk, reward)])
  {
    var next := quality[cluster := UpdatedQuality(Quality(quality, cluster), risk, reward)];
    forall k: nat | k < K_MAX ensures Quality(next, k) >= 0.0 {
      if k == cluster {
        UpdateNonNegative(Quality(quality, cluster), risk, reward);
      } else {
        assert Quality(next, k) == Quality(quality, k);
      }
    }
  }

  lemma StepSheltered(s: State, e: Event, hash: (nat, nat) -> nat, root: real -> real)
    requires Paired(s) && Sheltered(s) && (e.Report? ==> e.reward >= -1.5)
    ensures Sheltered(Stepped(s, e, hash, root))
  {
    match e
    case Observe(account, signals) =>
    case Report(cluster, risk, reward) => UpdateSheltered(s.quality, cluster, risk, reward);
    case Recluster =>
      var input := PassInput(s.points, s.age, s.quality);
      PassStaysInCube(s.shape, input, hash, root);
      PassSettles(s.shape, input, hash, root);
  }

  lemma {:induction false} RunSheltered(es: seq<Event>, hash: (nat, nat) -> nat, root: real -> real)
    requires Floored(es, -1.5)
    ensures Sheltered(After(es, hash, root))
  {
    if |es| > 0 {
      var n := |es| - 1;
      RunSheltered(es[..n], hash, root);
      StepSheltered(After(es[..n], hash, root), es[n], hash, root);
    }
  }

  // ---- One more call ----

  lemma Then(es: seq<Event>, e: Event, hash: (nat, nat) -> nat, root: real -> real)
    ensures After(es + [e], hash, root) == Stepped(After(es, hash, root), e, hash, root)
  {
    assert (es + [e])[..|es|] == es;
  }

  lemma ThenFloored(es: seq<Event>, e: Event, floor: real)
    requires Floored(es, floor) && (e.Report? ==> e.reward >= floor)
    ensures Floored(es + [e], floor)
  {
  }

  // ---- Reports that make qualities negative ----

  /** Nothing but qualities yet, negative below k; cluster k has had n reports, and the ones above none. */
  ghost predicate Reported(s: State, floor: real, k: nat, n: nat) {
    && s == FRESH.(quality := s.quality)
    && (forall j: nat :: j < k ==> Quality(s.quality, j) < 0.0)
    && Quality(s.quality, k) == ReportedOften(0.5, 0.0, floor, n)
    && (forall j: nat :: j > k ==> Quality(s.quality, j) == 0.5)
  }

  lemma ReportNext(s: State, floor: real, k: nat, n: nat, hash: (nat, nat) -> nat, root: real -> real)
    requires Reported(s, floor, k, n)
    ensures Reported(Stepped(s, Report(k, 0.0, floor), hash, root), floor, k, n + 1)
  {
    var quality := s.quality[k := UpdatedQuality(Quality(s.quality, k), 0.0, floor)];
    forall j: nat ensures Quality(quality, j) == if j == k then UpdatedQuality(Quality(s.quality, k), 0.0, floor) else Quality(s.quality, j) {
    }
  }

  lemma {:induction false} ReportOften(es0: seq<Event>, floor: real, k: nat, n: nat, hash: (nat, nat) -> nat, root: real -> real)
    returns (es: seq<Event>)
    requires Floored(es0, floor) && Reported(After(es0, hash, root), floor, k, 0)
    ensures Floored(es, floor) && Reported(After(es, hash, root), floor, k, n)
  {
    es := es0;
    if n > 0 {
      es := ReportOften(es0, floor, k, n - 1, hash, root);
      ReportNext(After(es, hash, root), floor, k, n - 1, hash, root);
      Then(es, Report(k, 0.0, floor), hash, root);
      ThenFloored(es, Report(k, 0.0, floor), floor);
      es := es + [Report(k, 0.0, floor)];
    }
  }

  lemma {:induction false} ReportAll(floor: real, k: nat, n: nat, hash: (nat, nat) -> nat, root: real -> real) returns (es: seq<Event>)
    requires ReportedOften(0.5, 0.0, floor, n) < 0.0
    ensures Floored(es, floor) && Reported(After(es, hash, root), floor, k, 0)
  {
    es := [];
    if k > 0 {
      es := ReportAll(floor, k - 1, n, hash, root);
      es := ReportOften(es, floor, k - 1, n, hash, root);
    }
  }

  // ---- Accounts at three places ----

  function Seen(risk: real): Signals { Signals(Some(risk), None, false, "", false) }

  lemma SeenOnLine(risk: real, x: real)
    requires 0.0 <= risk <= 1.0 && x == 0.4 + 0.2 * risk
    ensures Blended(DEFAULT_EMBEDDING, Observed(Seen(risk))) == On(x)
  {
  }

  lemma ObserveNew(es: seq<Event>, account: string, risk: real, x: real, hash: (nat, nat) -> nat, root: real -> real)
    requires account !in After(es, hash, root).accounts && 0.0 <= risk <= 1.0 && x == 0.4 + 0.2 * risk
    ensures var s := After(es, hash, root);
            After(es + [Observe(account, Seen(risk))], hash, root)
            == s.(accounts := s.accounts + [account], points := s.points + [On(x)])
  {
    Then(es, Observe(account, Seen(risk)), hash, root);
    SeenOnLine(risk, x);
  }

  lemma TwoMore<T>(xs: seq<T>, a: T, b: T)
    ensures xs + [a] + [b] == xs + [a, b]
  {
  }

  /** Two more accounts seen in the same way. */
  lemma ObserveTwo(es0: seq<Event>, a: string, b: string, risk: real, x: real, floor: real, hash: (nat, nat) -> nat, root: real -> real)
    returns (es: seq<Event>)
    requires Floored(es0, floor) && a !in After(es0, hash, root).accounts && b !in After(es0, hash, root).accounts && a != b
    requires 0.0 <= risk <= 1.0 && x == 0.4 + 0.2 * risk
    ensures Floored(es, floor)
    ensures var s := After(es0, hash, root);
            After(es, hash, root) == s.(accounts := s.accounts + [a, b], points := s.points + Twice(x))
  {
    var s := After(es0, hash, root);
    ObserveNew(es0, a, risk, x, hash, root);
    ThenFloored(es0, Observe(a, Seen(risk)), floor);
    es := es0 + [Observe(a, Seen(risk))];
    ObserveNew(es, b, risk, x, hash, root);
    ThenFloored(es, Observe(b, Seen(risk)), floor);
    es := es + [Observe(b, Seen(risk))];
    TwoMore(s.accounts, a, b);
    TwoMore(s.points, On(x), On(x));
  }

  // ---- The ages after a pass ----

  lemma {:induction false} AgesAfterAt(ages: Ages, live: seq<nat>, n: nat, k: nat)
    requires k < n
    ensures Age(AgesAfter(ages, live, n), k) == if k in live then Age(ages, k) + 1 else 0
  {
    if k == n - 1 {
      AgesAfterUntouched(ages, live, k, k);
    } else {
      AgesAfterAt(ages, live, n - 1, k);
    }
  }

  /** The ages of the three clusters with accounts; all others below n are newborn. */
  ghost predicate Aged(ages: Ages, l: nat, n: nat, x: nat, y: nat, z: nat) {
    l < n && Age(ages, l) == x && Age(ages, n) == y && Age(ages, n + 1) == z && OthersNewborn(ages, l, n)
  }

  /** Clusters without accounts start over. */
  lemma OthersAfter(ages: Ages, live: seq<nat>, n: nat, m: nat, l: nat)
    requires n <= m && forall k :: k in live ==> k == l || k >= n
    ensures OthersNewborn(AgesAfter(ages, live, m), l, n)
  {
    forall k: nat | k < n && k != l ensures Newborn(AgesAfter(ages, live, m), k) {
      AgesAfterAt(ages, live, m, k);
    }
  }

  lemma PassAges(ages: Ages, l: nat, n: nat, x: nat, y: nat, z: nat)
    requires Aged(ages, l, n, x, y, z)
    ensures Aged(AgesAfter(ages, Six(n, l, n + 1), n + 2), l, n, x + 1, y + 1, z + 1)
  {
    var live := Six(n, l, n + 1);
    assert live == [n, n, l, l, n + 1, n + 1];
    OthersAfter(ages, live, n, n + 2, l);
    AgesAfterAt(ages, live, n + 2, l);
    AgesAfterAt(ages, live, n + 2, n);
    AgesAfterAt(ages, live, n + 2, n + 1);
    assert live[0] == n && live[2] == l && live[4] == n + 1;
  }

  lemma FirstAges(ages: Ages, l: nat, n: nat)
    requires l < n && forall k: nat :: Newborn(ages, k)
    ensures Aged(AgesAfter(ages, [l, l], n + 1), l, n, 1, 0, 0)
  {
    var live := [l, l];
    assert Newborn(ages, l) && Newborn(ages, n + 1) && live[0] == l;
    OthersAfter(ages, live, n, n + 1, l);
    AgesAfterAt(ages, live, n + 1, l);
    AgesAfterAt(ages, live, n + 1, n);
    AgesAfterUntouched(ages, live, n + 1, n + 1);
  }

  // ---- The passes of the run ----

  lemma InitCoordAway(hash: (nat, nat) -> nat, ki: nat)
    ensures InitCoord(hash, ki, 0) <= 0.5 || InitCoord(hash, ki, 0) >= 0.501
  {
    var m := hash(ki, 0) % 1000;
    assert m <= 500 || m >= 501;
  }

  lemma {:induction false} InitAway(k: nat, hash: (nat, nat) -> nat)
    requires k > 0
    ensures Away(InitCentroids(k, hash))
  {
    InitCoordAway(hash, k - 1);
    if k > 1 {
      InitAway(k - 1, hash);
    }
  }

  /** What reclustering leaves, given the centroid list its pass ends with. */
  lemma ReclusteredTo(s: State, start: seq<Point>, cs: seq<Point>, hash: (nat, nat) -> nat, root: real -> real)
    requires |s.points| > 0 && start == StartOf(s.shape, hash) && |start| > 0 && K_MIN <= |cs| <= K_MAX
    requires cs == Pass(s.points, start, s.age, s.quality, root)
    ensures Reclustered(s, hash, root) == s.(shape := Shape(|cs|, cs), age := AgesAfter(s.age, Assign(s.points, cs), |cs|))
  {
    TruncationIsInert(cs);
  }

  /** The state with two accounts at each of the places: the first list, and the ages of their clusters. */
  ghost predicate Spread(s: State, base: seq<Point>, l: nat, p: real, q: real, r: real, x: nat, y: nat, z: nat) {
    && Away(base) && Spots(p, q, r) && |base| == K_START && l < |base|
    && s.points == Trio(p, q, r) && s.shape == Shape(|base| + 2, Three(base, l, q, p, r))
    && Aged(s.age, l, |base|, x, y, z) && (forall k: nat :: k <= |base| ==> Quality(s.quality, k) < 0.0)
  }

  lemma AgedIsYoung(ages: Ages, l: nat, n: nat, x: nat, y: nat, z: nat)
    requires Aged(ages, l, n, x, y, z) && y < AGE_MIN_OPS && z < AGE_MIN_OPS
    ensures Young(ages, n + 1) && Young(ages, n + 2)
  {
    forall i, j | 0 <= i < j < n + 2 ensures Age(ages, i) < AGE_MIN_OPS || Age(ages, j) < AGE_MIN_OPS {
      assert i < n && i != l ==> Newborn(ages, i);
      assert j < n && j != l ==> Newborn(ages, j);
    }
  }

  lemma SpreadPass(s: State, base: seq<Point>, l: nat, p: real, q: real, r: real, x: nat, y: nat, z: nat,
                   hash: (nat, nat) -> nat, root: real -> real)
    requires Paired(s) && Spread(s, base, l, p, q, r, x, y, z) && y < AGE_MIN_OPS && z < AGE_MIN_OPS
    ensures Spread(Stepped(s, Recluster, hash, root), base, l, p, q, r, x + 1, y + 1, z + 1)
  {
    var cs, n := Three(base, l, q, p, r), |base|;
    AgedIsYoung(s.age, l, n, x, y, z);
    ThirdPass(base, l, p, q, r, s.age, s.quality, root);
    ReclusteredTo(s, cs, cs, hash, root);
    NearThree(base, l, q, p, r);
    AssignTrio(p, q, r, cs);
    PassAges(s.age, l, n, x, y, z);
  }

  lemma FinalPass(s: State, base: seq<Point>, l: nat, p: real, q: real, r: real, x: nat, y: nat, z: nat,
                  hash: (nat, nat) -> nat, root: real -> real)
    requires Paired(s) && Spread(s, base, l, p, q, r, x, y, z) && x >= AGE_MIN_OPS && y >= AGE_MIN_OPS && z >= AGE_MIN_OPS
    ensures !AllInCube(Stepped(s, Recluster, hash, root).shape.centroids)
  {
    var start := Three(base, l, q, p, r);
    var cs := Pass(s.points, start, s.age, s.quality, root);
    LastPass(base, l, p, q, r, s.age, s.quality, root);
    PassKeepsShape(s.points, start, s.age, s.quality, root);
    ReclusteredTo(s, start, cs, hash, root);
  }

  /** Two accounts at the first place, alone with the clusters of the beginning. */
  lemma OpeningPass(s: State, p: real, hash: (nat, nat) -> nat, root: real -> real) returns (base: seq<Point>, l: nat)
    requires Paired(s) && OnStretch(p) && s.points == Twice(p) && s.shape == FRESH.shape && s.age == map[]
    ensures Away(base) && |base| == K_START && l < |base|
    ensures var t := Stepped(s, Recluster, hash, root);
            && t.shape == Shape(|base| + 1, Two(base, l, p, p)) && Aged(t.age, l, |base|, 1, 0, 0)
            && t == s.(shape := t.shape, age := t.age)
  {
    base := InitCentroids(K_START, hash);
    InitAway(K_START, hash);
    l := Nearest(On(p), base);
    var cs := Two(base, l, p, p);
    FirstPass(base, l, p, s.age, s.quality, root);
    ReclusteredTo(s, base, cs, hash, root);
    NearTwo(base, l, p, p, p);
    AssignTwice(p, cs);
    assert forall k: nat :: Newborn(s.age, k);
    FirstAges(s.age, l, |base|);
  }

  /** Four more accounts, and the pass that gives each place its cluster. */
  lemma SpreadingPass(s: State, base: seq<Point>, l: nat, p: real, q: real, r: real, hash: (nat, nat) -> nat, root: real -> real)
    requires Paired(s) && Away(base) && Spots(p, q, r) && |base| == K_START && l < |base| && s.points == Trio(p, q, r)
    requires s.shape == Shape(|base| + 1, Two(base, l, p, p)) && Aged(s.age, l, |base|, 1, 0, 0)
    requires forall k: nat :: k <= |base| ==> Quality(s.quality, k) < 0.0
    ensures Spread(Stepped(s, Recluster, hash, root), base, l, p, q, r, 2, 1, 1)
  {
    var cs, n := Three(base, l, q, p, r), |base|;
    AgedIsYoung(s.age, l, n, 1, 0, 0);
    SecondPass(base, l, p, q, r, s.age, s.quality, root);
    ReclusteredTo(s, Two(base, l, p, p), cs, hash, root);
    NearThree(base, l, q, p, r);
    AssignTrio(p, q, r, cs);
    PassAges(s.age, l, n, 1, 0, 0);
  }

  lemma Reclustering(es0: seq<Event>, floor: real, hash: (nat, nat) -> nat, root: real -> real) returns (es: seq<Event>)
    requires Floored(es0, floor)
    ensures Floored(es, floor) && After(es, hash, root) == Stepped(After(es0, hash, root), Recluster, hash, root)
  {
    Then(es0, Recluster, hash, root);
    ThenFloored(es0, Recluster, floor);
    es := es0 + [Recluster];
  }

  /** Two accounts and a pass: all that has happened besides reports. */
  ghost predicate Gathered(s: State, base: seq<Point>, l: nat, p: real) {
    && Away(base) && |base| == K_START && l < |base|
    && s.accounts == ["a", "b"] && s.points == Twice(p)
    && s.shape == Shape(|base| + 1, Two(base, l, p, p)) && Aged(s.age, l, |base|, 1, 0, 0)
    && forall k: nat :: k <= |base| ==> Quality(s.quality, k) < 0.0
  }

  lemma Opening(es0: seq<Event>, floor: real, p: real, hash: (nat, nat) -> nat, root: real -> real)
    returns (es: seq<Event>, base: seq<Point>, l: nat)
    requires Floored(es0, floor) && Reported(After(es0, hash, root), floor, K_START + 1, 0) && p == 0.5005
    ensures Floored(es, floor) && Gathered(After(es, hash, root), base, l, p)
  {
    es := ObserveTwo(es0, "a", "b", 0.5025, p, floor, hash, root);
    assert [] + Twice(p) == Twice(p) && [] + ["a", "b"] == ["a", "b"];
    base, l := OpeningPass(After(es, hash, root), p, hash, root);
    es := Reclustering(es, floor, hash, root);
  }

  lemma Strangers(xs: seq<string>)
    requires xs == ["a", "b"]
    ensures "c" !in xs && "d" !in xs && "e" !in xs + ["c", "d"] && "f" !in xs + ["c", "d"]
  {
  }

  lemma Joining(es0: seq<Event>, floor: real, p: real, q: real, r: real, hash: (nat, nat) -> nat, root: real -> real)
    returns (es: seq<Event>)
    requires Floored(es0, floor) && Spots(p, q, r)
    requires After(es0, hash, root).accounts == ["a", "b"] && After(es0, hash, root).points == Twice(p)
    ensures Floored(es, floor)
    ensures var s := After(es0, hash, root);
            After(es, hash, root) == s.(accounts := s.accounts + ["c", "d"] + ["e", "f"], points := Trio(p, q, r))
  {
    Strangers(After(es0, hash, root).accounts);
    es := ObserveTwo(es0, "c", "d", 0.503, q, floor, hash, root);
    es := ObserveTwo(es, "e", "f", 0.5035, r, floor, hash, root);
  }

  /** Four more accounts and a pass. */
  lemma Gathering(es0: seq<Event>, floor: real, base: seq<Point>, l: nat, p: real, q: real, r: real,
                  hash: (nat, nat) -> nat, root: real -> real)
    returns (es: seq<Event>)
    requires Floored(es0, floor) && Gathered(After(es0, hash, root), base, l, p) && Spots(p, q, r)
    ensures Floored(es, floor) && Spread(After(es, hash, root), base, l, p, q, r, 2, 1, 1)
  {
    es := Joining(es0, floor, p, q, r, hash, root);
    SpreadingPass(After(es, hash, root), base, l, p, q, r, hash, root);
    es := Reclustering(es, floor, hash, root);
  }

  /** For every hash there is a run, from the beginning, whose centroids leave the cube. */
  lemma RunLeavesCube(floor: real, hash: (nat, nat) -> nat, root: real -> real) returns (es: seq<Event>)
    requires floor < -1.5
    ensures Floored(es, floor) && !AllInCube(After(es, hash, root).shape.centroids)
  {
    RewardFloorIff(0.5, 0.0, floor);
    var n: nat :| ReportedOften(0.5, 0.0, floor, n) < 0.0;
    var p, q, r := 0.5005, 0.5006, 0.5007;
    es := ReportAll(floor, K_START + 1, n, hash, root);
    var base, l;
    es, base, l := Opening(es, floor, p, hash, root);
    es := Gathering(es, floor, base, l, p, q, r, hash, root);
    SpreadPass(After(es, hash, root), base, l, p, q, r, 2, 1, 1, hash, root);
    es := Reclustering(es, floor, hash, root);
    SpreadPass(After(es, hash, root), base, l, p, q, r, 3, 2, 2, hash, root);
    es := Reclustering(es, floor, hash, root);
    FinalPass(After(es, hash, root), base, l, p, q, r, 4, 3, 3, hash, root);
    es := Reclustering(es, floor, hash, root);
  }

  /** Whatever the hash of the first centroids, no run ever leaves the cube exactly if no reward below -1.5 can
      be reported. */
  lemma RunsStayIff(floor: real, hash: (nat, nat) -> nat, root: real -> real)
    ensures (forall es: seq<Event> :: Floored(es, floor) ==> AllInCube(After(es, hash, root).shape.centroids)) <==> floor >= -1.5
  {
    if floor >= -1.5 {
      forall es: seq<Event> | Floored(es, floor) ensures AllInCube(After(es, hash, root).shape.centroids) {
        RunSheltered(es, hash, root);
      }
    } else {
      var es := RunLeavesCube(floor, hash, root);
    }
  }
}
