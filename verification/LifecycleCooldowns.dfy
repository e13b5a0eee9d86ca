/** The anomaly counter and the cooldowns of one account over whole runs. */
module LifecycleCooldowns {
  import opened Sequences
  import opened Lifecycles
  import opened LifecycleRuns

  // ---- The anomaly counter ----

  /** Anomalous minus healthy sessions. */
  function Balance(xs: seq<bool>): int {
    if |xs| == 0 then 0 else Balance(xs[..|xs| - 1]) + if xs[|xs| - 1] then 1 else -1
  }

  ghost predicate IsWorstSuffix(xs: seq<bool>, m: int) {
    && (exists k :: 0 <= k <= |xs| && Balance(xs[k..]) == m)
    && (forall k :: 0 <= k <= |xs| ==> Balance(xs[k..]) <= m)
  }

  lemma OneMoreOutcome(xs: seq<bool>, x: bool, k: nat)
    requires k <= |xs|
    ensures Balance((xs + [x])[k..]) == Balance(xs[k..]) + if x then 1 else -1
  {
    var ys := (xs + [x])[k..];
    assert ys[..|ys| - 1] == xs[k..];
  }

  lemma WorstSuffixStep(xs: seq<bool>, x: bool, m: nat)
    requires IsWorstSuffix(xs, m)
    ensures IsWorstSuffix(xs + [x], if x then m + 1 else if m > 0 then m - 1 else 0)
  {
    var r := if x then m + 1 else if m > 0 then m - 1 else 0;
    var k :| 0 <= k <= |xs| && Balance(xs[k..]) == m;
    assert (xs + [x])[|xs| + 1..] == [];
    OneMoreOutcome(xs, x, k);
    var from := if !x && m == 0 then |xs| + 1 else k;
    assert Balance((xs + [x])[from..]) == r;
    forall j | 0 <= j <= |xs + [x]| ensures Balance((xs + [x])[j..]) <= r {
      if j <= |xs| {
        OneMoreOutcome(xs, x, j);
      }
    }
  }

  function Deadline(trigger: Option<(real, bool)>): Option<real> {
    match trigger
    case None => None
    case Some(t) => Some(t.0 + CooldownHours(t.1) * HOUR)
  }

  ghost predicate CoolingTracked(c: Config) {
    && IsWorstSuffix(c.outcomes, c.lc.anomalyCount)
    && c.lc.cooldownUntil == Deadline(c.trigger)
    && (c.trigger.Some? ==> c.trigger.value.0 <= c.clock)
  }

  function CountAfter(n: nat, e: Event): nat {
    match e
    case Finish(_, _, anomaly, _) => if anomaly then n + 1 else if n > 0 then n - 1 else 0
    case Clear => 0
    case _ => n
  }

  lemma CountFollows(s: Lc, m: Moment)
    ensures Lifecycle(s, m).anomalyCount == CountAfter(s.anomalyCount, m.event)
  {
    LifecycleIs(s, m);
  }

  lemma AnomaliesStep(c: Config, m: Moment)
    requires IsWorstSuffix(c.outcomes, c.lc.anomalyCount)
    ensures IsWorstSuffix(OutcomesAfter(c.outcomes, m.event), CountAfter(c.lc.anomalyCount, m.event))
  {
    if m.event.Finish? {
      WorstSuffixStep(c.outcomes, m.event.anomaly, c.lc.anomalyCount);
    } else if m.event.Clear? {
      NoOutcomes();
    }
  }

  lemma NoOutcomes()
    ensures IsWorstSuffix([], 0)
  {
    var none: seq<bool> := [];
    assert none[0..] == none;
  }

  lemma DeadlineStep(c: Config, m: Moment)
    requires c.lc.cooldownUntil == Deadline(c.trigger)
    ensures Lifecycle(c.lc, m).cooldownUntil == Deadline(TriggerAfter(c, m))
  {
    LifecycleIs(c.lc, m);
  }

  lemma CoolingStep(c: Config, m: Moment)
    requires CoolingTracked(c) && Legal(c, m)
    ensures CoolingTracked(Next(c, m))
  {
    NextCooling(c, m);
    AnomaliesStep(c, m);
    CountFollows(c.lc, m);
    DeadlineStep(c, m);
  }

  lemma {:induction false} CoolingKept(c: Config, ms: seq<Moment>, c': Config)
    requires CoolingTracked(c) && Run(c, ms, c')
    ensures CoolingTracked(c')
    decreases |ms|
  {
    if |ms| > 0 {
      CoolingStep(c, ms[0]);
      CoolingKept(Next(c, ms[0]), ms[1..], c');
    }
  }

  /** In every reachable configuration the counter is the worst balance over all suffixes of the
      sessions since creation or the last clear. */
  lemma AnomalyCountIsWorstSuffix(created: real, ms: seq<Moment>, c: Config)
    requires Run(Initial(created), ms, c)
    ensures IsWorstSuffix(c.outcomes, c.lc.anomalyCount)
    ensures CoolingTracked(c)
  {
    NoOutcomes();
    CoolingKept(Initial(created), ms, c);
  }

  /** An anomaly that is not severe starts a 48 hour cooldown exactly when some run of latest
      sessions, this one included, holds two more anomalous than healthy ones; otherwise the
      deadline stays what it was. */
  lemma MildAnomalyTriggers(created: real, ms: seq<Moment>, c: Config, g: Grant, uploaded: bool, now: real)
    requires Run(Initial(created), ms, c)
    requires Legal(c, Moment(now, Finish(g, uploaded, true, false)))
    ensures var c' := Next(c, Moment(now, Finish(g, uploaded, true, false)));
            c'.lc.cooldownUntil ==
              if exists k :: 0 <= k <= |c'.outcomes| && Balance(c'.outcomes[k..]) >= 2 then Some(now + 48.0 * HOUR)
              else c.lc.cooldownUntil
  {
    var m := Moment(now, Finish(g, uploaded, true, false));
    AnomalyCountIsWorstSuffix(created, ms, c);
    CoolingStep(c, m);
    NextCooling(c, m);
    CountFollows(c.lc, m);
  }

  // ---- Cooldowns ----

  ghost predicate NoClear(ms: seq<Moment>) {
    forall m :: m in ms ==> !m.event.Clear?
  }

  /** Without a clear a trigger is only ever replaced by a later one. */
  lemma {:induction false} TriggerStays(c: Config, ms: seq<Moment>, c': Config, t: real)
    requires Run(c, ms, c') && NoClear(ms)
    requires c.trigger.Some? && t <= c.trigger.value.0 <= c.clock
    ensures c'.trigger.Some? && t <= c'.trigger.value.0
    decreases |ms|
  {
    if |ms| > 0 {
      assert ms[0] in ms;
      assert NoClear(ms[1..]);
      NextCooling(c, ms[0]);
      TriggerStays(Next(c, ms[0]), ms[1..], c', t);
    }
  }

  lemma {:induction false} ClockAdvances(c: Config, ms: seq<Moment>, c': Config)
    requires Run(c, ms, c')
    ensures c.clock <= c'.clock
    decreases |ms|
  {
    if |ms| > 0 {
      NextStarts(c, ms[0]);
      ClockAdvances(Next(c, ms[0]), ms[1..], c');
    }
  }

  /** For 48 hours after any cooldown trigger that is not cleared, whatever else happens (later
      triggers, restarts), the gate is in cooldown and never lets an upload through. */
  lemma CooldownLasts(created: real, ms: seq<Moment>, c: Config, ms': seq<Moment>, c': Config,
                      requested: Intent, trust: real, fatigue: real, now: real)
    requires created >= 0.0 && Run(Initial(created), ms, c)
    requires c.trigger.Some? && c.trigger.value.0 == c.clock
    requires Run(c, ms', c') && NoClear(ms')
    requires c'.clock <= now < c.clock + 48.0 * HOUR
    ensures var gate := GateAt(c'.lc, requested, trust, fatigue, now);
            gate.phase == Cooldown && gate.intent != Upload
  {
    ClockAdvances(Initial(created), ms, c);
    AnomalyCountIsWorstSuffix(created, ms, c);
    CoolingKept(c, ms', c');
    TriggerStays(c, ms', c', c.clock);
  }

  /** The 72 hours of a severe trigger survive exactly when the last trigger is severe too or comes
      a day or more later; a milder one in between moves the deadline forward. */
  lemma SevereCooldownLastsIff(created: real, ms: seq<Moment>, c: Config, ms': seq<Moment>, c': Config)
    requires created >= 0.0 && Run(Initial(created), ms, c)
    requires c.trigger == Some((c.clock, true))
    requires Run(c, ms', c') && NoClear(ms')
    ensures c'.trigger.Some?
    ensures (forall now :: c'.clock <= now < c.clock + 72.0 * HOUR ==> PhaseOf(c'.lc, now) == Cooldown)
            <==> c'.trigger.value.1 || c'.trigger.value.0 >= c.clock + 24.0 * HOUR || c'.clock >= c.clock + 72.0 * HOUR
  {
    ClockAdvances(Initial(created), ms, c);
    ClockAdvances(c, ms', c');
    AnomalyCountIsWorstSuffix(created, ms, c);
    CoolingKept(c, ms', c');
    TriggerStays(c, ms', c', c.clock);
    var until := c'.lc.cooldownUntil.value;
    if until < c.clock + 72.0 * HOUR && c'.clock < c.clock + 72.0 * HOUR {
      var now := if until <= c'.clock then c'.clock else until;
      assert PhaseOf(c'.lc, now) != Cooldown;
    }
  }

  /** In every reachable state the gate is in cooldown exactly for 48 hours, or 72 if it was severe, after the last
      trigger since the last clear. */
  lemma CooldownIff(created: real, ms: seq<Moment>, c: Config, now: real)
    requires created >= 0.0 && Run(Initial(created), ms, c) && c.clock <= now
    ensures PhaseOf(c.lc, now) == Cooldown
            <==> c.trigger.Some? && now < c.trigger.value.0 + if c.trigger.value.1 then 259200.0 else 172800.0
  {
    ClockAdvances(Initial(created), ms, c);
    AnomalyCountIsWorstSuffix(created, ms, c);
    if c.trigger.Some? {
      TriggeredLater(created, ms, c);
    }
  }

  lemma {:induction false} TriggersAfter(c: Config, ms: seq<Moment>, c': Config, from: real)
    requires Run(c, ms, c') && from <= c.clock && (c.trigger.Some? ==> from <= c.trigger.value.0)
    ensures c'.trigger.Some? ==> from <= c'.trigger.value.0
    decreases |ms|
  {
    if |ms| > 0 {
      NextCooling(c, ms[0]);
      TriggersAfter(Next(c, ms[0]), ms[1..], c', from);
    }
  }

  lemma TriggeredLater(created: real, ms: seq<Moment>, c: Config)
    requires Run(Initial(created), ms, c)
    ensures c.trigger.Some? ==> c.trigger.value.0 >= created
  {
    TriggersAfter(Initial(created), ms, c, created);
  }

  /** A severe anomaly, or a trigger by hand, starts a cooldown at once: 72 hours if severe, else 48. */
  lemma TriggerStarts(c: Config, m: Moment, severe: bool)
    requires Legal(c, m) && (m.event == Trigger(severe) || (m.event.Finish? && m.event.anomaly && m.event.severe && severe))
    ensures Lifecycle(c.lc, m).cooldownUntil == Some(m.at + if severe then 259200.0 else 172800.0)
  {
    LifecycleIs(c.lc, m);
  }

  /** A clear ends any cooldown and forgets the anomalies. */
  lemma ClearEnds(c: Config, m: Moment, now: real)
    requires m.event.Clear?
    ensures Lifecycle(c.lc, m) == c.lc.(cooldownUntil := None, anomalyCount := 0)
    ensures PhaseOf(Lifecycle(c.lc, m), now) != Cooldown
  {
    LifecycleIs(c.lc, m);
  }
}
