/** The module state of core/account_clustering.py and the passes that rewrite it. */
module Swarms {
  import opened Sequences
  import opened Reals
  import opened Vectors
  import opened Lloyd
  import opened Reshaping
  import opened LeavingCube

  const K_START := 6
  const DRIFT_THRESHOLD := 0.15
  const N_MAX_CYCLES := 10
  const EMB_ALPHA := 0.20

  /** What one pass reads besides the centroids. */
  datatype PassInput = PassInput(embs: seq<Point>, ages: Ages, quality: Qualities)

  datatype Shape = Shape(k: nat, centroids: seq<Point>)

  function InitCoord(hash: (nat, nat) -> nat, ki: nat, d: nat): (x: real)
    ensures 0.0 <= x <= 1.0
  {
    (hash(ki, d) % 1000) as real / 1000.0
  }

  /** Coordinates read off a stable hash of the centroid number and the dimension. */
  function InitCentroids(k: nat, hash: (nat, nat) -> nat): (cs: seq<Point>)
    ensures |cs| == k
  {
    if k == 0 then []
    else
      var c := Point(InitCoord(hash, k - 1, 0), InitCoord(hash, k - 1, 1), InitCoord(hash, k - 1, 2),
                     InitCoord(hash, k - 1, 3), InitCoord(hash, k - 1, 4));
      InitCentroids(k - 1, hash) + [c]
  }

  lemma {:induction false} InitInCube(k: nat, hash: (nat, nat) -> nat)
    ensures AllInCube(InitCentroids(k, hash))
  {
    if k > 0 {
      InitInCube(k - 1, hash);
    }
  }

  lemma InitCoordIs(hash: (nat, nat) -> nat, i: nat, d: nat)
    ensures 1000.0 * InitCoord(hash, i, d) == (hash(i, d) % 1000) as real
  {
  }

  /** Coordinate d of centroid i is the hash of the two, in thousandths, whatever the number of centroids. */
  lemma {:induction false} InitIs(k: nat, hash: (nat, nat) -> nat, i: nat, d: nat)
    requires i < k && d < 5
    ensures 1000.0 * InitCentroids(k, hash)[i].At(d) == (hash(i, d) % 1000) as real
  {
    if i < k - 1 {
      InitIs(k - 1, hash, i, d);
    } else {
      InitCoordIs(hash, i, d);
    }
  }

  /** The centroids a pass starts from: the stored ones, or fresh ones if none fit. */
  function StartOf(s: Shape, hash: (nat, nat) -> nat): (cs: seq<Point>) {
    if |s.centroids| == 0 || |s.centroids| != s.k then InitCentroids(s.k, hash) else s.centroids
  }

  function AfterPass(s: Shape, input: PassInput, hash: (nat, nat) -> nat, root: real -> real): Shape {
    if |input.embs| == 0 || |StartOf(s, hash)| == 0 then s
    else
      var r := Pass(input.embs, StartOf(s, hash), input.ages, input.quality, root);
      Shape(Clamp(|r|), Truncated(r))
  }

  function AfterPasses(s: Shape, inputs: seq<PassInput>, hash: (nat, nat) -> nat, root: real -> real): Shape {
    if |inputs| == 0 then s
    else AfterPass(AfterPasses(s, inputs[..|inputs| - 1], hash, root), inputs[|inputs| - 1], hash, root)
  }

  ghost predicate Settled(s: Shape) {
    K_MIN <= s.k <= K_MAX && |s.centroids| == s.k
  }

  lemma PassSettles(s: Shape, input: PassInput, hash: (nat, nat) -> nat, root: real -> real)
    requires K_MIN <= s.k <= K_MAX
    ensures K_MIN <= AfterPass(s, input, hash, root).k <= K_MAX
    ensures Settled(s) || |input.embs| > 0 ==> Settled(AfterPass(s, input, hash, root))
  {
    var start := StartOf(s, hash);
    if |input.embs| > 0 {
      PassKeepsShape(input.embs, start, input.ages, input.quality, root);
    }
  }

  lemma PassStaysInCube(s: Shape, input: PassInput, hash: (nat, nat) -> nat, root: real -> real)
    requires K_MIN <= s.k <= K_MAX && AllInCube(s.centroids)
    requires AllInCube(input.embs) && NonNegative(input.quality)
    ensures AllInCube(AfterPass(s, input, hash, root).centroids)
  {
    var start := StartOf(s, hash);
    InitInCube(s.k, hash);
    if |input.embs| > 0 {
      AfterInCube(Collapse, input.embs, start, input.ages, input.quality, root);
    }
  }

  /** Some pass sees an embedding. */
  ghost predicate AnyEmbedding(inputs: seq<PassInput>) { exists i :: 0 <= i < |inputs| && |inputs[i].embs| > 0 }

  lemma LastOrEarlier(inputs: seq<PassInput>)
    requires |inputs| > 0 && AnyEmbedding(inputs)
    ensures |inputs[|inputs| - 1].embs| > 0 || AnyEmbedding(inputs[..|inputs| - 1])
  {
    var i :| 0 <= i < |inputs| && |inputs[i].embs| > 0;
    assert i < |inputs| - 1 ==> inputs[..|inputs| - 1][i] == inputs[i];
  }

  /** Over every sequence of passes: the count stays in range, and from the first pass over
      any embedding on, the stored count is exactly the number of stored centroids. */
  lemma {:induction false} PassesKeepShape(s: Shape, inputs: seq<PassInput>, hash: (nat, nat) -> nat, root: real -> real)
    requires 3 <= s.k <= 12
    ensures var t := AfterPasses(s, inputs, hash, root);
            && 3 <= t.k <= 12
            && (|s.centroids| == s.k || AnyEmbedding(inputs) ==> |t.centroids| == t.k)
  {
    if |inputs| > 0 {
      var n := |inputs| - 1;
      PassesKeepShape(s, inputs[..n], hash, root);
      PassSettles(AfterPasses(s, inputs[..n], hash, root), inputs[n], hash, root);
      if AnyEmbedding(inputs) {
        LastOrEarlier(inputs);
      }
    }
  }

  /** With embeddings in the cube and nonnegative qualities, no pass ever leaves the cube. */
  lemma {:induction false} PassesStayInCube(s: Shape, inputs: seq<PassInput>, hash: (nat, nat) -> nat, root: real -> real)
    requires K_MIN <= s.k <= K_MAX && AllInCube(s.centroids)
    requires forall i :: 0 <= i < |inputs| ==> AllInCube(inputs[i].embs) && NonNegative(inputs[i].quality)
    ensures AllInCube(AfterPasses(s, inputs, hash, root).centroids)
  {
    if |inputs| > 0 {
      var n := |inputs| - 1;
      PassesStayInCube(s, inputs[..n], hash, root);
      PassesKeepShape(s, inputs[..n], hash, root);
      PassStaysInCube(AfterPasses(s, inputs[..n], hash, root), inputs[n], hash, root);
    }
  }

  /** Cluster k lives one pass longer if some account is in it, and starts over otherwise. */
  function AgesAfter(ages: Ages, live: seq<nat>, n: nat): Ages {
    if n == 0 then ages
    else AgesAfter(ages, live, n - 1)[n - 1 := if n - 1 in live then Age(ages, n - 1) + 1 else 0]
  }

  lemma {:induction false} AgesAfterUntouched(ages: Ages, live: seq<nat>, n: nat, k: nat)
    requires n <= k
    ensures Age(AgesAfter(ages, live, n), k) == Age(ages, k)
  {
    if n > 0 {
      AgesAfterUntouched(ages, live, n - 1, k);
    }
  }

  function Eased(was: real, obs: real): (y: real)
    ensures 0.0 <= y <= 1.0
  {
    Unit(was * (1.0 - EMB_ALPHA) + obs * EMB_ALPHA)
  }

  function Blended(emb: Point, obs: Point): (r: Point)
    ensures InCube(r)
  {
    Point(Eased(emb.x0, obs.x0), Eased(emb.x1, obs.x1), Eased(emb.x2, obs.x2), Eased(emb.x3, obs.x3), Eased(emb.x4, obs.x4))
  }

  const DEFAULT_EMBEDDING := Point(0.5, 0.5, 0.5, 0.5, 0.5)

  function StageCoordinate(stage: string): (x: real)
    ensures 0.0 <= x <= 1.0
  {
    if stage == "NEW" then 0.0 else if stage == "WARMUP" then 0.2 else if stage == "GROWTH" then 0.4
    else if stage == "MATURE" then 0.6 else if stage == "DECLINE" then 0.8 else if stage == "RECOVERY" then 1.0 else 0.3
  }

  /** What one account is seen to do; risk and reward are None when they are not numbers. */
  datatype Signals = Signals(risk: Option<real>, reward: Option<real>, success: bool, stage: string, suppressed: bool)

  function Observed(s: Signals): (p: Point)
    ensures InCube(p)
  {
    Point(if s.risk.Some? then Unit(s.risk.value) else 0.5,
          Unit(((if s.reward.Some? then s.reward.value else 0.0) + 1.5) / 2.5),
          if s.success then 1.0 else 0.0, StageCoordinate(s.stage), if s.suppressed then 0.0 else 1.0)
  }

  /** What is seen of an account: its risk within [0, 1], one half if unknown; its reward from -1.5 to 1 mapped onto
      [0, 1], zero if unknown; success; the place of its stage; and one unless it is suppressed. */
  lemma ObservedIs(s: Signals)
    ensures var p := Observed(s);
            && (match s.risk case None => p.x0 == 0.5
                case Some(r) => if r < 0.0 then p.x0 == 0.0 else if r > 1.0 then p.x0 == 1.0 else p.x0 == r)
            && (match s.reward case None => p.x1 == 0.6
                case Some(r) => if r < -1.5 then p.x1 == 0.0 else if r > 1.0 then p.x1 == 1.0 else 2.5 * p.x1 == r + 1.5)
            && p.x2 == (if s.success then 1.0 else 0.0) && p.x4 == (if s.suppressed then 0.0 else 1.0)
            && (s.stage == "NEW" ==> p.x3 == 0.0) && (s.stage == "WARMUP" ==> p.x3 == 0.2) && (s.stage == "GROWTH" ==> p.x3 == 0.4)
            && (s.stage == "MATURE" ==> p.x3 == 0.6) && (s.stage == "DECLINE" ==> p.x3 == 0.8) && (s.stage == "RECOVERY" ==> p.x3 == 1.0)
            && (s.stage !in {"NEW", "WARMUP", "GROWTH", "MATURE", "DECLINE", "RECOVERY"} ==> p.x3 == 0.3)
  {
  }

  /** Four fifths of the way to what is seen remain. */
  ghost predicate FourFifths(was: real, obs: real, y: real) { y - obs == 0.8 * (was - obs) }

  lemma EasedTowards(was: real, obs: real)
    requires 0.0 <= was <= 1.0 && 0.0 <= obs <= 1.0
    ensures FourFifths(was, obs, Eased(was, obs))
  {
  }

  /** Every observation takes each coordinate of an embedding a fifth of the way. */
  lemma BlendedTowards(emb: Point, obs: Point)
    requires InCube(emb) && InCube(obs)
    ensures var r := Blended(emb, obs);
            && FourFifths(emb.x0, obs.x0, r.x0) && FourFifths(emb.x1, obs.x1, r.x1) && FourFifths(emb.x2, obs.x2, r.x2)
            && FourFifths(emb.x3, obs.x3, r.x3) && FourFifths(emb.x4, obs.x4, r.x4)
  {
    EasedTowards(emb.x0, obs.x0);
    EasedTowards(emb.x1, obs.x1);
    EasedTowards(emb.x2, obs.x2);
    EasedTowards(emb.x3, obs.x3);
    EasedTowards(emb.x4, obs.x4);
  }

  // ---- The state, and what the calls do to it ----

  /** accounts[i] has embedding points[i]. */
  datatype State = State(accounts: seq<string>, points: seq<Point>, shape: Shape, age: Ages, quality: Qualities)

  datatype Event =
    | Observe(account: string, signals: Signals)
    | Report(cluster: nat, risk: real, reward: real)
    | Recluster

  const FRESH := State([], [], Shape(K_START, []), map[], map[])

  /** The position of an account, or the number of accounts if it has no embedding yet. */
  function IndexIn(accounts: seq<string>, account: string): (i: nat)
    ensures i <= |accounts| && (i < |accounts| ==> accounts[i] == account)
    ensures account in accounts <==> i < |accounts|
  {
    if |accounts| == 0 || accounts[0] == account then 0 else 1 + IndexIn(accounts[1..], account)
  }

  function WithObserved(s: State, account: string, obs: Point): State
    requires |s.accounts| == |s.points|
  {
    var i := IndexIn(s.accounts, account);
    if i < |s.accounts| then s.(points := s.points[i := Blended(s.points[i], obs)])
    else s.(accounts := s.accounts + [account], points := s.points + [Blended(DEFAULT_EMBEDDING, obs)])
  }

  function Reclustered(s: State, hash: (nat, nat) -> nat, root: real -> real): State {
    if |s.points| == 0 then s
    else
      var t := AfterPass(s.shape, PassInput(s.points, s.age, s.quality), hash, root);
      if |t.centroids| == 0 then s
      else s.(shape := t, age := AgesAfter(s.age, Assign(s.points, t.centroids), |t.centroids|))
  }

  function Stepped(s: State, e: Event, hash: (nat, nat) -> nat, root: real -> real): State
    requires |s.accounts| == |s.points|
  {
    match e
    case Observe(account, signals) => WithObserved(s, account, Observed(signals))
    case Report(cluster, risk, reward) => s.(quality := s.quality[cluster := UpdatedQuality(Quality(s.quality, cluster), risk, reward)])
    case Recluster => Reclustered(s, hash, root)
  }

  /** The statements of one pass up to the merge loop. */
  method RunToMerge(embs: seq<Point>, start: seq<Point>, ages: Ages, quality: Qualities, root: real -> real)
    returns (merged: seq<Point>)
    requires |embs| > 0 && |start| > 0
    ensures merged == After(Merge, embs, start, ages, quality, root)
  {
    var a, rounds := RunRounds(embs, start);
    assert rounds == After(Means, embs, start, ages, quality, root);
    var split := SplitStep(embs, a, rounds, ages, root);
    assert split == After(Split, embs, start, ages, quality, root);
    merged := MergeStep(split, ages, quality);
  }

  /** One pass, from the starting centroids to the list before the clamp. */
  method RunSteps(embs: seq<Point>, start: seq<Point>, ages: Ages, quality: Qualities, root: real -> real)
    returns (cs: seq<Point>)
    requires |embs| > 0 && |start| > 0
    ensures cs == Pass(embs, start, ages, quality, root)
  {
    var merged := RunToMerge(embs, start, ages, quality, root);
    cs := CollapseStep(embs, merged);
  }

  method Advance(s: Shape, input: PassInput, hash: (nat, nat) -> nat, root: real -> real) returns (t: Shape)
    requires |input.embs| > 0 && K_MIN <= s.k <= K_MAX
    ensures t == AfterPass(s, input, hash, root)
  {
    var start := StartOf(s, hash);
    var last := RunSteps(input.embs, start, input.ages, input.quality, root);
    t := Shape(Clamp(|last|), Truncated(last));
  }

  /** Every account carries the lowest index of a nearest centroid. */
  ghost predicate NamesNearest(accounts: seq<string>, points: seq<Point>, ids: map<string, nat>, cs: seq<Point>) {
    && |accounts| == |points|
    && forall i :: 0 <= i < |accounts| ==> accounts[i] in ids && IsNearest(points[i], cs, ids[accounts[i]])
  }

  method NameClusters(accounts: seq<string>, points: seq<Point>, cs: seq<Point>, ids: map<string, nat>)
    returns (r: map<string, nat>, live: seq<nat>)
    requires |accounts| == |points| && Distinct(accounts) && |cs| > 0
    ensures live == Assign(points, cs)
    ensures NamesNearest(accounts, points, r, cs)
    ensures forall x :: x in ids && x !in accounts ==> x in r && r[x] == ids[x]
  {
    live := AssignAll(points, cs);
    r := ids;
    for i := 0 to |accounts|
      invariant forall j :: 0 <= j < i ==> accounts[j] in r && r[accounts[j]] == live[j]
      invariant forall x :: x in ids && x !in accounts ==> x in r && r[x] == ids[x]
    {
      r := r[accounts[i] := live[i]];
    }
    forall i | 0 <= i < |accounts| ensures IsNearest(points[i], cs, r[accounts[i]]) {
      AssignAt(points, cs, i);
      NearestIsNearest(points[i], cs);
    }
  }

  method RaiseAges(ages: Ages, live: seq<nat>, n: nat) returns (r: Ages)
    ensures r == AgesAfter(ages, live, n)
  {
    r := ages;
    for k := 0 to n
      invariant r == AgesAfter(ages, live, k)
    {
      AgesAfterUntouched(ages, live, k, k);
      r := r[k := if k in live then Age(r, k) + 1 else 0];
    }
  }

  ghost predicate Distinct(xs: seq<string>) {
    forall i, j :: 0 <= i < j < |xs| ==> xs[i] != xs[j]
  }

  class Swarm {
    var k: nat
    // _EMBEDDINGS in insertion order: accounts[i] has embedding points[i]
    var accounts: seq<string>
    var points: seq<Point>
    var clusterIds: map<string, nat>
    var centroids: seq<Point>
    var age: Ages
    var quality: Qualities
    var driftEma: real
    var cycle: int
    var lastRecluster: int

    ghost predicate Valid()
      reads this
    {
      && K_MIN <= k <= K_MAX
      && (|centroids| == 0 || |centroids| == k)
      && |accounts| == |points| && Distinct(accounts)
      && AllInCube(points)
    }

    ghost function View(): Shape
      reads this
    {
      Shape(k, centroids)
    }

    ghost function Value(): State
      reads this
    {
      State(accounts, points, View(), age, quality)
    }

    /** Every embedded account carries the lowest index of a nearest stored centroid. */
    ghost predicate Assigned()
      reads this
    {
      NamesNearest(accounts, points, clusterIds, centroids)
    }

    constructor ()
      ensures Valid() && Value() == FRESH && clusterIds == map[] && k == 6 && driftEma == 0.0 && lastRecluster == -999
    {
      k, accounts, points, clusterIds, centroids := K_START, [], [], map[], [];
      age, quality, driftEma, cycle, lastRecluster := map[], map[], 0.0, 0, -999;
    }

    method IndexOf(account: string) returns (i: nat)
      ensures i == IndexIn(accounts, account)
    {
      i := 0;
      while i < |accounts| && accounts[i] != account
        invariant i <= |accounts| && IndexIn(accounts, account) == i + IndexIn(accounts[i..], account)
      {
        i := i + 1;
      }
    }

    /** Moves one account's embedding towards what it is seen to do; drift is the length of the step. */
    method UpdateEmbedding(account: string, signals: Signals, root: real -> real) returns (i: nat)
      requires Valid()
      modifies `accounts, `points, `driftEma
      ensures Valid() && i < |accounts| && accounts[i] == account
      ensures Value() == WithObserved(old(Value()), account, Observed(signals))
      ensures var prev := if account in old(accounts) then old(points)[i] else DEFAULT_EMBEDDING;
              driftEma == old(driftEma) * 0.80 + root(SqDist(points[i], prev)) * 0.20
    {
      i := IndexOf(account);
      var prev := if i < |accounts| then points[i] else DEFAULT_EMBEDDING;
      var next := Blended(prev, Observed(signals));
      if i < |accounts| {
        points := points[i := next];
      } else {
        accounts, points := accounts + [account], points + [next];
      }
      var step := root(SqDist(next, prev));
      driftEma := driftEma * 0.80 + step * 0.20;
    }

    /** One report on a cluster; rewards of at least -1.5 keep every quality nonnegative. */
    method RecordClusterQuality(cluster: nat, risk: real, reward: real)
      modifies `quality
      ensures Value() == old(Value()).(quality := old(quality)[cluster := UpdatedQuality(Quality(old(quality), cluster), risk, reward)])
      ensures old(NonNegative(quality)) && reward >= -1.5 ==> NonNegative(quality)
    {
      var prev := Quality(quality, cluster);
      if prev >= 0.0 && reward >= -1.5 {
        UpdateNonNegative(prev, risk, reward);
      }
      quality := quality[cluster := UpdatedQuality(prev, risk, reward)];
      assert forall k: nat :: k < K_MAX && k != cluster ==> Quality(quality, k) == Quality(old(quality), k);
    }

    method Keep(t: Shape, ids: map<string, nat>, ages: Ages)
      modifies `k, `centroids, `clusterIds, `age, `lastRecluster
      ensures View() == t && clusterIds == ids && age == ages && lastRecluster == cycle
    {
      k, centroids, clusterIds, age, lastRecluster := t.k, t.centroids, ids, ages, cycle;
    }

    method RunClustering(hash: (nat, nat) -> nat, root: real -> real)
      requires Valid()
      modifies `k, `centroids, `clusterIds, `age, `lastRecluster
      ensures Valid()
      ensures View() == AfterPass(old(View()), PassInput(points, old(age), quality), hash, root)
      ensures old(AllInCube(centroids)) && NonNegative(quality) ==> AllInCube(centroids)
      ensures Value() == Reclustered(old(Value()), hash, root)
      ensures |points| == 0 ==> unchanged(this)
      ensures |points| > 0 ==> Settled(View()) && Assigned() && lastRecluster == cycle
      ensures |points| > 0 ==> age == AgesAfter(old(age), Assign(points, centroids), |centroids|)
      ensures forall a :: a in old(clusterIds) && a !in accounts ==> a in clusterIds && clusterIds[a] == old(clusterIds)[a]
    {
      if |points| == 0 {
        return;
      }
      var s, input := Shape(k, centroids), PassInput(points, age, quality);
      var t := Advance(s, input, hash, root);
      PassSettles(s, input, hash, root);
      if AllInCube(centroids) && NonNegative(quality) {
        PassStaysInCube(s, input, hash, root);
      }
      var ids, live := NameClusters(accounts, points, t.centroids, clusterIds);
      var ages := RaiseAges(age, live, |t.centroids|);
      Keep(t, ids, ages);
    }

    /** Once per pipeline cycle; with any embedding, a pass is never more than nine cycles old. */
    method NotifyCycle(now: int, hash: (nat, nat) -> nat, root: real -> real) returns (fired: bool)
      requires Valid()
      modifies `cycle, `k, `centroids, `clusterIds, `age, `lastRecluster
      ensures Valid() && cycle == now
      ensures fired <==> old(driftEma) > 0.15 || now - old(lastRecluster) >= 10
      ensures |points| > 0 ==> now - lastRecluster < 10
      ensures fired && |points| > 0 ==> Assigned() && lastRecluster == now
      ensures fired ==> View() == AfterPass(old(View()), PassInput(points, old(age), quality), hash, root)
      ensures Value() == if fired then Reclustered(old(Value()), hash, root) else old(Value())
      ensures !fired ==> clusterIds == old(clusterIds)
    {
      cycle := now;
      fired := driftEma > DRIFT_THRESHOLD || now - lastRecluster >= N_MAX_CYCLES;
      if fired {
        RunClustering(hash, root);
      }
    }
  }
}
