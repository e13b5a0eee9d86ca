/** The stage of an account and what it remembers of its successes, in core/lifecycle_engine.py: when an
    account counts as declining, and which outcomes are taken into account at all. */
module InterestStages {
  import opened Sequences
  import opened Reals
  import opened InterestDrifts

  const WARMUP_DAYS := 3
  const GROWTH_DAYS := 14
  const MATURE_DAYS := 56
  const DECLINE_THRESHOLD := 0.30
  const RECOVERED := 0.50

  datatype Stage = New | Warmup | Growth | Mature | Decline | Recovery

  function Exploration(stage: Stage): (e: real)
    ensures 0.25 <= e <= 0.90
  {
    match stage
    case New => 0.90
    case Warmup => 0.75
    case Growth => 0.55
    case Mature => 0.25
    case Decline => 0.55
    case Recovery => 0.70
  }

  /** Success rate, whether the account has declined and not recovered yet, the stage last determined, and
      the success memory by niche. */
  datatype Health = Health(rate: real, inDecline: bool, stage: Stage, memory: map<string, real>)

  datatype Account = Account(created: int, interests: Interests, health: Health)

  function AgeStage(created: int, now: int): Stage {
    var age := (now - created) / SECONDS_PER_DAY;
    if age < WARMUP_DAYS then New else if age < GROWTH_DAYS then Warmup else if age < MATURE_DAYS then Growth else Mature
  }

  function StillInDecline(inDecline: bool, rate: real): bool {
    rate < DECLINE_THRESHOLD || (inDecline && rate < RECOVERED)
  }

  function Restaged(h: Health, created: int, now: int, rate: real): Health {
    h.(inDecline := StillInDecline(h.inDecline, rate),
       stage := if rate < DECLINE_THRESHOLD then Decline
                else if h.inDecline && rate < RECOVERED then Recovery
                else AgeStage(created, now))
  }

  function Outcome(success: bool): real { if success then 1.0 else 0.0 }

  function Blend(rate: real, success: bool): real { rate * 0.85 + Outcome(success) * 0.15 }

  function Remembered(h: Health, f: Feedback): Health {
    h.(rate := Blend(h.rate, f.success),
       memory := if f.niche != "" && f.niche in h.memory
                 then h.memory[f.niche := h.memory[f.niche] * 0.80 + Outcome(f.success) * 0.20]
                 else h.memory)
  }

  ghost predicate Spent(a: Account, day: int) { Used(a.interests, day) >= MAX_DRIFT_PER_DAY }

  /** The account after evolve_interests: the stage is always determined anew, the outcome is taken into
      account only while the day has drift left. */
  function Stepped(a: Account, now: int, f: Feedback): Account
    requires Aligned(a.interests)
  {
    var h := Restaged(a.health, a.created, now, a.health.rate);
    Account(a.created,
            Evolved(a.interests, now, f, Exploration(h.stage)),
            if Used(a.interests, DayOf(now)) >= MAX_DRIFT_PER_DAY then h else Remembered(h, f))
  }

  ghost predicate SoundHealth(h: Health) {
    0.0 <= h.rate <= 1.0 && forall n <- h.memory :: 0.0 <= h.memory[n] <= 1.0
  }

  ghost predicate SoundAccount(a: Account) { Sound(a.interests) && SoundHealth(a.health) }

  lemma RememberingKeepsSound(h: Health, f: Feedback)
    requires SoundHealth(h)
    ensures SoundHealth(Remembered(h, f)) && Remembered(h, f).memory.Keys == h.memory.Keys
  {
  }

  /** Every call keeps the weights normalized, the drift within budget, and rate and memory within [0, 1]. */
  lemma SteppingKeepsSound(a: Account, now: int, f: Feedback)
    requires SoundAccount(a)
    ensures SoundAccount(Stepped(a, now, f))
    ensures Stepped(a, now, f).interests.niches == a.interests.niches
    ensures Stepped(a, now, f).health.memory.Keys == a.health.memory.Keys
  {
    var h := Restaged(a.health, a.created, now, a.health.rate);
    EvolvingKeepsSound(a.interests, now, f, Exploration(h.stage));
    RememberingKeepsSound(h, f);
  }

  // ---- Decline and recovery over a run of evaluations ----

  function InDeclineAfter(inDecline: bool, rates: seq<real>): bool {
    if |rates| == 0 then inDecline
    else StillInDecline(InDeclineAfter(inDecline, rates[..|rates| - 1]), rates[|rates| - 1])
  }

  /** An evaluation below 0.30 that no evaluation of 0.50 or more has followed. */
  ghost predicate Unrecovered(rates: seq<real>, i: nat)
    requires i < |rates|
  {
    rates[i] < DECLINE_THRESHOLD && forall j :: i < j < |rates| ==> rates[j] < RECOVERED
  }

  lemma StillUnrecovered(rates: seq<real>, rate: real, i: nat)
    requires i < |rates|
    ensures Unrecovered(rates + [rate], i) <==> Unrecovered(rates, i) && rate < RECOVERED
  {
    var all := rates + [rate];
    assert all[|rates|] == rate && forall j :: 0 <= j < |rates| ==> all[j] == rates[j];
  }

  /** An account is in decline exactly when its rate has once been seen below 0.30 and never at 0.50 or
      more since. */
  lemma {:induction false} InDeclineIff(rates: seq<real>)
    ensures InDeclineAfter(false, rates) <==> exists i :: 0 <= i < |rates| && Unrecovered(rates, i)
  {
    if |rates| > 0 {
      var n := |rates| - 1;
      InDeclineIff(rates[..n]);
      assert rates == rates[..n] + [rates[n]];
      forall i | 0 <= i < n ensures Unrecovered(rates, i) <==> Unrecovered(rates[..n], i) && rates[n] < RECOVERED {
        StillUnrecovered(rates[..n], rates[n], i);
      }
      assert Unrecovered(rates, n) <==> rates[n] < DECLINE_THRESHOLD;
    }
  }

  datatype Evaluation = Evaluation(now: int, rate: real)

  function RateOf(): Evaluation -> real { (e: Evaluation) => e.rate }

  function Rates(es: seq<Evaluation>): seq<real> { Map(es, RateOf()) }

  /** What any sequence of stage evaluations leaves of a healthy account. */
  function Evaluated(h: Health, created: int, es: seq<Evaluation>): Health {
    if |es| == 0 then h
    else
      var e := es[|es| - 1];
      Restaged(Evaluated(h, created, es[..|es| - 1]), created, e.now, e.rate)
  }

  lemma {:induction false} FlagFollows(h: Health, created: int, es: seq<Evaluation>)
    requires !h.inDecline
    ensures Evaluated(h, created, es).inDecline == InDeclineAfter(false, Rates(es))
  {
    if |es| > 0 {
      FlagFollows(h, created, es[..|es| - 1]);
      assert Rates(es)[..|es| - 1] == Rates(es[..|es| - 1]);
    }
  }

  /** After any evaluations the stage is recovery exactly if the latest rate lies from 0.30 to below 0.50 and
      an earlier one was below 0.30 with none of 0.50 or more since; it is decline exactly if the latest
      rate is below 0.30. */
  lemma RecoveryIff(h: Health, created: int, es: seq<Evaluation>)
    requires !h.inDecline && |es| > 0
    ensures var rates, n := Rates(es), |es| - 1;
            && (Evaluated(h, created, es).stage == Recovery
                <==> 0.30 <= rates[n] < 0.50 && exists i :: 0 <= i < n && Unrecovered(rates[..n], i))
            && (Evaluated(h, created, es).stage == Decline <==> rates[n] < 0.30)
  {
    var n := |es| - 1;
    FlagFollows(h, created, es[..n]);
    InDeclineIff(Rates(es[..n]));
    assert Rates(es)[..n] == Rates(es[..n]);
  }

  /** The rates at which some account is in recovery: all from 0.30 to below 0.50, though the code names 0.40
      as its threshold. */
  lemma RecoveryRatesIff(h: Health, created: int, rate: real)
    requires !h.inDecline
    ensures (exists es: seq<Evaluation> :: |es| > 0 && es[|es| - 1].rate == rate && Evaluated(h, created, es).stage == Recovery)
            <==> 0.30 <= rate < 0.50
  {
    forall es: seq<Evaluation> | |es| > 0 && es[|es| - 1].rate == rate && Evaluated(h, created, es).stage == Recovery
      ensures 0.30 <= rate < 0.50
    {
      assert Rates(es)[|es| - 1] == rate;
      RecoveryIff(h, created, es);
    }
    if 0.30 <= rate < 0.50 {
      var es := [Evaluation(0, 0.0), Evaluation(0, rate)];
      assert Rates(es)[..1] == [0.0] && Unrecovered(Rates(es)[..1], 0);
      RecoveryIff(h, created, es);
    }
  }

  // ---- Which outcomes count ----

  datatype Feed = Feed(now: int, feedback: Feedback)

  /** The accounts a sequence of calls runs through, from a to a'. */
  ghost predicate Steps(a: Account, feeds: seq<Feed>, a': Account)
    decreases |feeds|
  {
    if |feeds| == 0 then a' == a
    else Aligned(a.interests) && Steps(Stepped(a, feeds[0].now, feeds[0].feedback), feeds[1..], a')
  }

  ghost predicate OnDay(feeds: seq<Feed>, day: int) { forall i :: 0 <= i < |feeds| ==> DayOf(feeds[i].now) == day }

  /** Once the day's drift is spent, no outcome of that day changes a weight, the rate or the memory. */
  lemma {:induction false} SpentDayForgets(a: Account, feeds: seq<Feed>, a': Account, day: int)
    requires Steps(a, feeds, a') && OnDay(feeds, day) && Spent(a, day)
    ensures a'.interests == a.interests && a'.health.rate == a.health.rate && a'.health.memory == a.health.memory
    decreases |feeds|
  {
    if |feeds| > 0 {
      SpentDayForgets(Stepped(a, feeds[0].now, feeds[0].feedback), feeds[1..], a', day);
    }
  }

  lemma {:induction false} PartOfSize(xs: seq<real>, i: nat)
    requires i < |xs|
    ensures Abs(xs[i]) <= AbsSum(xs)
  {
    var n := |xs| - 1;
    AbsSumNonNegative(xs[..n]);
    if i < n {
      PartOfSize(xs[..n], i);
    }
  }

  lemma SuccessDelta(w: real, n: nat, f: Feedback, e: real)
    requires n > 0 && f.success && f.trend >= 0.5 && e >= 0.25
    ensures Gated(RawDelta(true, w, n, f, e)) >= 0.016875
  {
    NonNegativeProduct((f.trend - 0.5) * 0.01, e);
  }

  /** A success in one of the account's niches charges at least 0.016875 or all that is left of the day. */
  lemma SuccessCharges(s: Interests, now: int, f: Feedback, e: real)
    requires Sound(s) && f.success && f.trend >= 0.5 && e >= 0.25 && f.niche in s.niches
    ensures var after := Used(Evolved(s, now, f, e), DayOf(now));
            after >= MAX_DRIFT_PER_DAY || after >= Used(s, DayOf(now)) + 0.016875
  {
    var remaining := MAX_DRIFT_PER_DAY - Used(s, DayOf(now));
    if remaining > 0.0 {
      var ds := Deltas(s.niches, s.weights, f, e);
      var i :| 0 <= i < |s.niches| && s.niches[i] == f.niche;
      SuccessDelta(s.weights[i], |s.weights|, f, e);
      PartOfSize(ds, i);
      BudgetIsCharged(ds, remaining);
    }
  }

  /** A success under a trend of at least one half in one of the account's niches. */
  predicate GoodOutcome(a: Account, f: Feedback) { f.success && f.trend >= 0.5 && f.niche in a.interests.niches }

  lemma {:induction false} SuccessesSpend(a: Account, feeds: seq<Feed>, a': Account, day: int)
    requires SoundAccount(a) && Steps(a, feeds, a') && OnDay(feeds, day)
    requires forall i :: 0 <= i < |feeds| ==> GoodOutcome(a, feeds[i].feedback)
    ensures Spent(a', day) || Used(a'.interests, day) >= Used(a.interests, day) + |feeds| as real * 0.016875
    decreases |feeds|
  {
    if |feeds| > 0 {
      var c := feeds[0];
      var next := Stepped(a, c.now, c.feedback);
      SteppingKeepsSound(a, c.now, c.feedback);
      SuccessCharges(a.interests, c.now, c.feedback, Exploration(next.health.stage));
      SuccessesSpend(next, feeds[1..], a', day);
      if Spent(next, day) {
        SpentDayForgets(next, feeds[1..], a', day);
      }
    }
  }

  /** Three such successes spend any day, so whatever follows on that day is not taken into account: no
      later outcome changes a weight, the rate or the memory. */
  lemma AfterThreeSuccesses(a: Account, feeds: seq<Feed>, b: Account, later: seq<Feed>, a': Account, day: int)
    requires SoundAccount(a) && Steps(a, feeds, b) && |feeds| >= 3 && OnDay(feeds, day)
    requires forall i :: 0 <= i < |feeds| ==> GoodOutcome(a, feeds[i].feedback)
    requires Steps(b, later, a') && OnDay(later, day)
    ensures a'.interests == b.interests && a'.health.rate == b.health.rate && a'.health.memory == b.health.memory
  {
    SuccessesSpend(a, feeds, b, day);
    assert Used(a.interests, day) >= 0.0;
    SpentDayForgets(b, later, a', day);
  }

  // ---- Failures in a row ----

  function Failures(rate: real, n: nat): real {
    if n == 0 then rate else Failures(rate, n - 1) * 0.85
  }

  lemma {:induction false} FailuresFall(rate: real, m: nat, n: nat)
    requires 0.0 <= rate && m <= n
    ensures 0.0 <= Failures(rate, n) <= Failures(rate, m)
  {
    if n > 0 {
      FailuresFall(rate, if m < n then m else m - 1, n - 1);
    }
  }

  lemma {:induction false} FailuresFrom(rate: real, n: nat)
    ensures Failures(Blend(rate, false), n) == Failures(rate, n + 1)
  {
    if n > 0 {
      FailuresFrom(rate, n - 1);
    }
  }

  /** Every call of the run reports a failure on a day that still has drift left. */
  ghost predicate FailuresCount(a: Account, feeds: seq<Feed>)
    decreases |feeds|
  {
    |feeds| > 0 ==> && Aligned(a.interests) && !feeds[0].feedback.success && !Spent(a, DayOf(feeds[0].now))
                    && FailuresCount(Stepped(a, feeds[0].now, feeds[0].feedback), feeds[1..])
  }

  lemma CountedFailure(a: Account, now: int, f: Feedback)
    requires Aligned(a.interests) && !f.success && !Spent(a, DayOf(now))
    ensures Stepped(a, now, f).health.rate == Blend(a.health.rate, false)
  {
  }

  lemma {:induction false} RateAfterFailures(a: Account, feeds: seq<Feed>, a': Account)
    requires Steps(a, feeds, a') && FailuresCount(a, feeds)
    ensures a'.health.rate == Failures(a.health.rate, |feeds|)
    decreases |feeds|
  {
    if |feeds| > 0 {
      var next := Stepped(a, feeds[0].now, feeds[0].feedback);
      CountedFailure(a, feeds[0].now, feeds[0].feedback);
      RateAfterFailures(next, feeds[1..], a');
      FailuresFrom(a.health.rate, |feeds| - 1);
    }
  }

  lemma EightSteps(r: real)
    requires 0.0 <= r <= 1.0
    ensures Failures(r, 8) < DECLINE_THRESHOLD
  {
    assert Failures(r, 1) <= 0.85;
    assert Failures(r, 2) <= 0.7225;
    assert Failures(r, 3) <= 0.6142;
    assert Failures(r, 4) <= 0.5221;
    assert Failures(r, 5) <= 0.4438;
    assert Failures(r, 6) <= 0.3773;
    assert Failures(r, 7) <= 0.3208;
  }

  /** Eight counted failures in a row put any account in decline, whatever its rate was. */
  lemma EightFailuresDecline(a: Account, feeds: seq<Feed>, a': Account, now: int)
    requires 0.0 <= a.health.rate <= 1.0 && Steps(a, feeds, a') && FailuresCount(a, feeds) && |feeds| >= 8
    ensures Restaged(a'.health, a'.created, now, a'.health.rate).stage == Decline
  {
    RateAfterFailures(a, feeds, a');
    EightSteps(a.health.rate);
    FailuresFall(a.health.rate, 8, |feeds|);
  }

  /** Seven may not: a rate of 0.95 is still above the threshold then. */
  lemma SevenFailuresMayNot(a: Account, feeds: seq<Feed>, a': Account, now: int)
    requires a.health.rate == 0.95 && Steps(a, feeds, a') && FailuresCount(a, feeds) && |feeds| == 7
    ensures Restaged(a'.health, a'.created, now, a'.health.rate).stage != Decline
  {
    RateAfterFailures(a, feeds, a');
    assert Failures(0.95, 2) >= 0.6863;
    assert Failures(0.95, 4) >= 0.4958;
    assert Failures(0.95, 6) >= 0.3582;
  }

  // ---- Successes in a row ----

  function Successes(rate: real, n: nat): real {
    if n == 0 then rate else Successes(rate, n - 1) * 0.85 + 0.15
  }

  lemma {:induction false} SuccessesFrom(rate: real, n: nat)
    ensures Successes(Blend(rate, true), n) == Successes(rate, n + 1)
  {
    if n > 0 {
      SuccessesFrom(rate, n - 1);
    }
  }

  lemma {:induction false} SuccessesRise(rate: real, m: nat, n: nat)
    requires rate <= 1.0 && m <= n
    ensures Successes(rate, m) <= Successes(rate, n) <= 1.0
  {
    if n > 0 {
      SuccessesRise(rate, if m < n then m else m - 1, n - 1);
    }
  }

  /** Every call of the run reports a success on a day that still has drift left. */
  ghost predicate SuccessesCount(a: Account, feeds: seq<Feed>)
    decreases |feeds|
  {
    |feeds| > 0 ==> && Aligned(a.interests) && feeds[0].feedback.success && !Spent(a, DayOf(feeds[0].now))
                    && SuccessesCount(Stepped(a, feeds[0].now, feeds[0].feedback), feeds[1..])
  }

  lemma CountedSuccess(a: Account, now: int, f: Feedback)
    requires Aligned(a.interests) && f.success && !Spent(a, DayOf(now))
    ensures Stepped(a, now, f).health.rate == Blend(a.health.rate, true)
  {
  }

  lemma {:induction false} RateAfterSuccesses(a: Account, feeds: seq<Feed>, a': Account)
    requires Steps(a, feeds, a') && SuccessesCount(a, feeds)
    ensures a'.health.rate == Successes(a.health.rate, |feeds|)
    decreases |feeds|
  {
    if |feeds| > 0 {
      var next := Stepped(a, feeds[0].now, feeds[0].feedback);
      CountedSuccess(a, feeds[0].now, feeds[0].feedback);
      RateAfterSuccesses(next, feeds[1..], a');
      SuccessesFrom(a.health.rate, |feeds| - 1);
    }
  }

  lemma FiveSteps(r: real)
    requires 0.0 <= r <= 1.0
    ensures Successes(r, 5) >= RECOVERED
  {
    assert Successes(r, 1) >= 0.15;
    assert Successes(r, 2) >= 0.2775;
    assert Successes(r, 3) >= 0.3858;
    assert Successes(r, 4) >= 0.4779;
  }

  /** Five counted successes in a row end any decline: the stage is then the one of the account's age. */
  lemma FiveSuccessesRecover(a: Account, feeds: seq<Feed>, a': Account, now: int)
    requires 0.0 <= a.health.rate <= 1.0 && Steps(a, feeds, a') && SuccessesCount(a, feeds) && |feeds| >= 5
    ensures var h := Restaged(a'.health, a'.created, now, a'.health.rate); !h.inDecline && h.stage == AgeStage(a'.created, now)
  {
    RateAfterSuccesses(a, feeds, a');
    FiveSteps(a.health.rate);
    SuccessesRise(a.health.rate, 5, |feeds|);
  }

  lemma DeclineKept(a: Account, now: int, f: Feedback)
    requires Aligned(a.interests) && a.health.inDecline && a.health.rate < RECOVERED
    ensures Stepped(a, now, f).health.inDecline
  {
  }

  lemma BlendRises(rate: real)
    requires rate <= 1.0
    ensures Blend(rate, true) <= 1.0
  {
  }

  lemma {:induction false} StaysInDecline(a: Account, feeds: seq<Feed>, a': Account)
    requires Steps(a, feeds, a') && SuccessesCount(a, feeds) && a.health.inDecline
    requires a.health.rate <= 1.0 && Successes(a.health.rate, |feeds|) < RECOVERED
    ensures a'.health.inDecline
    decreases |feeds|
  {
    if |feeds| > 0 {
      var next := Stepped(a, feeds[0].now, feeds[0].feedback);
      CountedSuccess(a, feeds[0].now, feeds[0].feedback);
      SuccessesRise(a.health.rate, 0, |feeds|);
      DeclineKept(a, feeds[0].now, feeds[0].feedback);
      BlendRises(a.health.rate);
      SuccessesFrom(a.health.rate, |feeds| - 1);
      StaysInDecline(next, feeds[1..], a');
    }
  }

  /** Four may not: from a rate of zero the account is still in recovery. */
  lemma FourSuccessesMayNot(a: Account, feeds: seq<Feed>, a': Account, now: int)
    requires a.health.rate == 0.0 && a.health.inDecline && Steps(a, feeds, a') && SuccessesCount(a, feeds) && |feeds| == 4
    ensures Restaged(a'.health, a'.created, now, a'.health.rate).stage == Recovery
  {
    RateAfterSuccesses(a, feeds, a');
    assert Successes(a.health.rate, 2) == 0.2775;
    StaysInDecline(a, feeds, a');
  }

  // ---- The stage by age, and the memory of a niche ----

  /** From a rate of one half on, the stage follows the account's age alone: 3, 14 and 56 days in seconds. */
  lemma StageByAge(h: Health, created: int, now: int, rate: real)
    requires rate >= 0.50
    ensures var r, age := Restaged(h, created, now, rate), now - created;
            && !r.inDecline
            && (r.stage == New <==> age < 259200)
            && (r.stage == Warmup <==> 259200 <= age < 1209600)
            && (r.stage == Growth <==> 1209600 <= age < 4838400)
            && (r.stage == Mature <==> 4838400 <= age)
  {
  }

  /** A counted outcome moves the memory of its niche a fifth of the way towards one or zero, if the niche is one
      of the account's, and leaves the other niches alone. */
  lemma MemoryFollows(a: Account, now: int, f: Feedback, niche: string)
    requires Aligned(a.interests) && !Spent(a, DayOf(now)) && niche in a.health.memory
    ensures var m, m' := a.health.memory, Stepped(a, now, f).health.memory;
            && m'.Keys == m.Keys
            && if niche != f.niche || niche == "" then m'[niche] == m[niche]
               else if f.success then 1.0 - m'[niche] == 0.80 * (1.0 - m[niche])
               else m'[niche] == 0.80 * m[niche]
  {
  }

  // ---- The object ----

  method DriftOnce(s: Interests, now: int, f: Feedback, exploration: real, usedToday: real, remaining: real)
    returns (drifted: seq<real>, used: real)
    requires Aligned(s) && usedToday == Used(s, DayOf(now)) && remaining == MAX_DRIFT_PER_DAY - usedToday > 0.0
    ensures Evolved(s, now, f, exploration) == Interests(s.niches, drifted, s.used[DayOf(now) := used])
  {
    var spent;
    drifted, spent := Drift(s.niches, s.weights, f, exploration, remaining);
    SpendingEvolves(s, now, f, exploration, remaining, drifted, spent);
    used := usedToday + spent;
  }

  class AccountLifecycleState {
    const createdTs: int
    const niches: seq<string>
    var weights: seq<real>
    var dailyDrift: map<int, real>
    var successByNiche: map<string, real>
    var successEma: real
    var inDecline: bool
    var cachedStage: Stage

    function State(): Account
      reads this
    {
      Account(createdTs, Interests(niches, weights, dailyDrift), Health(successEma, inDecline, cachedStage, successByNiche))
    }

    /** A new account: an even success memory for each of its niches, and no drift used. */
    constructor (createdTs: int, niches: seq<string>, weights: seq<real>)
      ensures State() == Account(createdTs, Interests(niches, weights, map[]),
                                 Health(0.5, false, New, map n | n in niches :: 0.5))
    {
      this.createdTs, this.niches, this.weights := createdTs, niches, weights;
      dailyDrift, successByNiche := map[], map n | n in niches :: 0.5;
      successEma, inDecline, cachedStage := 0.5, false, New;
    }

    /** The stage by age and success rate; a caller may supply its own rate. */
    method GetLifecycleStage(now: int, successRate: Option<real>) returns (stage: Stage)
      modifies `inDecline, `cachedStage
      ensures var rate := if successRate.Some? then successRate.value else old(successEma);
              State() == old(State()).(health := Restaged(old(State()).health, createdTs, now, rate))
      ensures stage == cachedStage
    {
      var rate := if successRate.Some? then successRate.value else successEma;
      var age := (now - createdTs) / SECONDS_PER_DAY;
      age := if age > 0 then age else 0;
      stage := if age < WARMUP_DAYS then New else if age < GROWTH_DAYS then Warmup else if age < MATURE_DAYS then Growth else Mature;
      if rate < DECLINE_THRESHOLD {
        inDecline := true;
        stage := Decline;
      } else if inDecline && rate < RECOVERED {
        stage := Recovery;
      } else if inDecline && rate >= RECOVERED {
        inDecline := false;
      }
      cachedStage := stage;
    }

    method EvolveInterests(now: int, f: Feedback)
      requires |niches| == |weights|
      modifies this
      ensures State() == Stepped(old(State()), now, f)
    {
      var stage := GetLifecycleStage(now, None);
      var counted := DriftWithinBudget(now, f, Exploration(stage));
      if counted {
        Remember(f);
      }
    }

    method DriftWithinBudget(now: int, f: Feedback, exploration: real) returns (counted: bool)
      requires |niches| == |weights|
      modifies `weights, `dailyDrift
      ensures State() == old(State()).(interests := Evolved(old(State().interests), now, f, exploration))
      ensures counted == (old(Used(State().interests, DayOf(now))) < MAX_DRIFT_PER_DAY)
    {
      var day := DayOf(now);
      var usedToday := if day in dailyDrift then dailyDrift[day] else 0.0;
      var remaining := MAX_DRIFT_PER_DAY - usedToday;
      counted := remaining > 0.0;
      if counted {
        var drifted, used := DriftOnce(State().interests, now, f, exploration, usedToday, remaining);
        weights, dailyDrift := drifted, dailyDrift[day := used];
      }
    }

    method Remember(f: Feedback)
      modifies `successByNiche, `successEma
      ensures State() == old(State()).(health := Remembered(old(State()).health, f))
    {
      var outcome := if f.success then 1.0 else 0.0;
      if f.niche != "" && f.niche in successByNiche {
        successByNiche := successByNiche[f.niche := successByNiche[f.niche] * 0.80 + outcome * 0.20];
      }
      successEma := successEma * 0.85 + outcome * 0.15;
    }
  }
}
