/** Runs of one account in which a guarantee ends, and what decides whether an upload is recorded. */
module LifecycleWitnesses {
  import opened Sequences
  import opened SlidingWindows
  import opened Lifecycles
  import opened LifecycleRuns
  import opened LifecycleDays
  import opened LifecycleCooldowns

  lemma {:induction false} OneMore(c: Config, ms: seq<Moment>, d: Config, e: Moment, m: nat)
    requires Run(c, ms, d) && OutAtMost(c, ms, m) && Legal(d, e) && |Next(d, e).waiting| + |Next(d, e).active| <= m
    ensures Run(c, ms + [e], Next(d, e)) && OutAtMost(c, ms + [e], m)
    decreases |ms|
  {
    if |ms| == 0 {
      assert (ms + [e])[1..] == [];
    } else {
      HeadJoins(ms, [e]);
      OneMore(Next(c, ms[0]), ms[1..], d, e, m);
    }
  }

  lemma Step(c: Config, ms: seq<Moment>, d: Config, e: Moment, m: nat) returns (ms': seq<Moment>, d': Config)
    requires Run(c, ms, d) && OutAtMost(c, ms, m) && Legal(d, e) && |Next(d, e).waiting| + |Next(d, e).active| <= m
    ensures ms' == ms + [e] && d' == Next(d, e) && Run(c, ms', d') && OutAtMost(c, ms', m)
  {
    OneMore(c, ms, d, e, m);
    ms', d' := ms + [e], Next(d, e);
  }

  // ---- When an upload is recorded ----

  lemma {:induction false} DatedKept(c: Config, ms: seq<Moment>, c': Config)
    requires UploadsDated(c.lc) && Run(c, ms, c')
    ensures UploadsDated(c'.lc)
    decreases |ms|
  {
    if |ms| > 0 {
      NextStarts(c, ms[0]);
      DatedStep(c.lc, ms[0]);
      DatedKept(Next(c, ms[0]), ms[1..], c');
    }
  }

  lemma DayLaterIsOtherDay(a: real, b: real)
    requires b - a >= DAY
    ensures UtcDay(a) != UtcDay(b)
  {
    if UtcDay(a) == UtcDay(b) {
      SameDay(a, b);
    }
  }

  lemma EndedUpload(s: Lc, anomaly: bool, severe: bool, now: real)
    requires s.lastUploadAt.Some? ==> UtcDay(s.lastUploadAt.value) != UtcDay(now)
    requires UploadsDated(s)
    ensures Ended(s, true, anomaly, severe, now).lastUploadAt
            == if PhaseOf(s, now) == RampUp || PhaseOf(s, now) == Normal then Some(now) else s.lastUploadAt
  {
  }

  /** With one session at a time, a granted upload is recorded when its session finishes exactly if the
      account is then neither warming up nor in cooldown; only recorded uploads keep their distance. */
  lemma GrantedUploadRecordedIff(created: real, ms: seq<Moment>, c: Config, g: Grant, now: real, anomaly: bool, severe: bool)
    requires Run(Initial(created), ms, c) && OutAtMost(Initial(created), ms, 1)
    requires g in c.active && g.upload && c.clock <= now
    ensures Ended(c.lc, true, anomaly, severe, now).lastUploadAt
            == if PhaseOf(c.lc, now) == RampUp || PhaseOf(c.lc, now) == Normal then Some(now) else c.lc.lastUploadAt
  {
    SpacingKept(Initial(created), ms, c);
    UploadRemembered(Initial(created), ms, c);
    DatedKept(Initial(created), ms, c);
    assert c.uploading[g] == c.waiting[g] + c.active[g];
    if c.lc.lastUploadAt.Some? {
      DayLaterIsOtherDay(c.lc.lastUploadAt.value, now);
    }
    EndedUpload(c.lc, anomaly, severe, now);
  }

  // ---- Single steps ----

  lemma NextIs(c: Config, e: Moment)
    ensures Next(c, e) == Config(Lifecycle(c.lc, e), WaitingAfter(c, e), ActiveAfter(c, e), UploadingAfter(c, e), e.at,
                                 StartsAfter(c, e), UploadsAfter(c, e), RestartsAfter(c, e), EarlierAfter(c, e),
                                 OutcomesAfter(c.outcomes, e.event), TriggerAfter(c, e))
  {
    assert NextIn(c, e, 1) == NextIn(c, e, 0);
  }

  lemma Granting(c: Config, t: real, intent: Intent)
    requires GateAt(c.lc, intent, 1.0, 0.0, t) == Gate(true, intent, Normal, None)
    ensures var g := Grant(t, Normal, intent == Upload);
            Next(c, Moment(t, Evaluate(intent, 1.0, 0.0)))
            == c.(lc := Refreshed(c.lc, t), waiting := c.waiting + multiset{g}, uploading := WithUpload(c.uploading, g), clock := t)
  {
    NextIs(c, Moment(t, Evaluate(intent, 1.0, 0.0)));
    LifecycleIs(c.lc, Moment(t, Evaluate(intent, 1.0, 0.0)));
    GivenIs(c.lc, Moment(t, Evaluate(intent, 1.0, 0.0)));
  }

  lemma Beginning(c: Config, t: real, g: Grant)
    ensures Next(c, Moment(t, Begin(g))) == c.(lc := Started(c.lc, t), waiting := c.waiting - multiset{g},
                                               active := c.active + multiset{g}, clock := t, starts := c.starts + [t])
  {
    NextIs(c, Moment(t, Begin(g)));
    LifecycleIs(c.lc, Moment(t, Begin(g)));
  }

  lemma Finishing(c: Config, t: real, g: Grant, uploaded: bool)
    ensures Next(c, Moment(t, Finish(g, uploaded, false, false)))
            == c.(lc := Ended(c.lc, uploaded, false, false, t), active := c.active - multiset{g},
                  uploading := WithoutUpload(c.uploading, g), clock := t,
                  uploads := if uploaded && Counts(c.lc, t) then c.uploads + [Mark(t, g.phase)] else c.uploads,
                  outcomes := c.outcomes + [false])
  {
    NextIs(c, Moment(t, Finish(g, uploaded, false, false)));
    LifecycleIs(c.lc, Moment(t, Finish(g, uploaded, false, false)));
  }

  lemma Registering(c: Config, t: real, ts: real)
    ensures Next(c, Moment(t, Register(ts))) == c.(lc := c.lc.(registeredAt := ts), clock := t)
  {
    NextIs(c, Moment(t, Register(ts)));
    LifecycleIs(c.lc, Moment(t, Register(ts)));
  }

  lemma Triggering(c: Config, t: real, severe: bool)
    ensures Next(c, Moment(t, Trigger(severe))) == c.(lc := Triggered(c.lc, severe, t), clock := t, trigger := Some((t, severe)))
  {
    NextIs(c, Moment(t, Trigger(severe)));
    LifecycleIs(c.lc, Moment(t, Trigger(severe)));
  }

  lemma Clearing(c: Config, t: real)
    ensures Next(c, Moment(t, Clear)) == c.(lc := Cleared(c.lc), clock := t, trigger := None, outcomes := [])
  {
    NextIs(c, Moment(t, Clear));
    LifecycleIs(c.lc, Moment(t, Clear));
  }

  lemma Restarting(c: Config, t: real)
    ensures Next(c, Moment(t, Restart(t))) == c.(lc := Loaded(Dumped(c.lc, t), t), clock := t,
                                                 restarts := c.restarts + [t], earlier := |c.starts|)
  {
    NextIs(c, Moment(t, Restart(t)));
    LifecycleIs(c.lc, Moment(t, Restart(t)));
  }

  /** The gate lets an account of at least three weeks through that is calm and rested. */
  lemma OpenGate(s: Lc, intent: Intent, t: real)
    requires t - s.registeredAt >= 21.0 * DAY && s.cooldownUntil == None && s.lastUploadAt == None && intent != Skip
    requires s.lastSessionAt.Some? ==> t - s.lastSessionAt.value >= 4.0 * HOUR
    requires Refreshed(s, t).sessionsToday < 3 && Refreshed(s, t).uploadsToday == 0
    ensures GateAt(s, intent, 1.0, 0.0, t) == Gate(true, intent, Normal, None)
  {
  }

  lemma DoEvaluate(c0: Config, ms: seq<Moment>, c: Config, t: real, intent: Intent, m: nat) returns (ms': seq<Moment>, c': Config)
    requires Run(c0, ms, c) && OutAtMost(c0, ms, m) && c.clock <= t && |c.waiting| + |c.active| < m
    requires GateAt(c.lc, intent, 1.0, 0.0, t) == Gate(true, intent, Normal, None)
    ensures var e, g := Moment(t, Evaluate(intent, 1.0, 0.0)), Grant(t, Normal, intent == Upload);
            && ms' == ms + [e] && Run(c0, ms', c') && OutAtMost(c0, ms', m)
            && c' == c.(lc := Refreshed(c.lc, t), waiting := c.waiting + multiset{g}, uploading := WithUpload(c.uploading, g), clock := t)
  {
    Granting(c, t, intent);
    ms', c' := Step(c0, ms, c, Moment(t, Evaluate(intent, 1.0, 0.0)), m);
  }

  lemma DoBegin(c0: Config, ms: seq<Moment>, c: Config, t: real, g: Grant, m: nat) returns (ms': seq<Moment>, c': Config)
    requires Run(c0, ms, c) && OutAtMost(c0, ms, m) && c.clock <= t && |c.waiting| + |c.active| <= m && g in c.waiting
    ensures ms' == ms + [Moment(t, Begin(g))] && Run(c0, ms', c') && OutAtMost(c0, ms', m)
    ensures c' == c.(lc := Started(c.lc, t), waiting := c.waiting - multiset{g}, active := c.active + multiset{g},
                     clock := t, starts := c.starts + [t])
    ensures |c'.waiting| + |c'.active| == |c.waiting| + |c.active|
  {
    Beginning(c, t, g);
    OneFewer(c.waiting, g);
    ms', c' := Step(c0, ms, c, Moment(t, Begin(g)), m);
  }

  lemma DoFinish(c0: Config, ms: seq<Moment>, c: Config, t: real, g: Grant, uploaded: bool, m: nat)
    returns (ms': seq<Moment>, c': Config)
    requires Run(c0, ms, c) && OutAtMost(c0, ms, m) && c.clock <= t && |c.waiting| + |c.active| <= m
    requires g in c.active && (uploaded ==> g.upload)
    ensures ms' == ms + [Moment(t, Finish(g, uploaded, false, false))] && Run(c0, ms', c') && OutAtMost(c0, ms', m)
    ensures c' == c.(lc := Ended(c.lc, uploaded, false, false, t), active := c.active - multiset{g},
                     uploading := WithoutUpload(c.uploading, g), clock := t,
                     uploads := if uploaded && Counts(c.lc, t) then c.uploads + [Mark(t, g.phase)] else c.uploads,
                     outcomes := c.outcomes + [false])
  {
    Finishing(c, t, g, uploaded);
    OneFewer(c.active, g);
    ms', c' := Step(c0, ms, c, Moment(t, Finish(g, uploaded, false, false)), m);
  }

  // ---- Runs ----

  const START := 3000000.0

  function MayUploadFrom(at: real): Grant { Grant(at, Normal, true) }

  /** An account created a moment ago and registered for thirty days. */
  lemma Registered(t: real, m: nat) returns (ms: seq<Moment>, c: Config)
    ensures ms == [Moment(t, Register(t - 30.0 * DAY))] && Run(Initial(t), ms, c) && OutAtMost(Initial(t), ms, m)
    ensures c == Initial(t).(lc := Lc(t - 30.0 * DAY, 0, 0, None, None, None, None, 0))
  {
    Registering(Initial(t), t, t - 30.0 * DAY);
    ms, c := Step(Initial(t), [], Initial(t), Moment(t, Register(t - 30.0 * DAY)), m);
  }

  /** A severe trigger, and a mild one an hour later. */
  lemma TwoTriggers() returns (ms: seq<Moment>, c: Config)
    ensures Run(Initial(START), ms, c) && OutAtMost(Initial(START), ms, 1)
    ensures ms == [Moment(START, Register(START - 30.0 * DAY)), Moment(START, Trigger(true)), Moment(START + HOUR, Trigger(false))]
    ensures c.clock == START + HOUR && c.waiting == multiset{} && c.active == multiset{}
    ensures c.lc == Lc(START - 30.0 * DAY, 0, 0, None, None, None, Some(START + 49.0 * HOUR), 0)
  {
    ms, c := Registered(START, 1);
    Triggering(c, START, true);
    ms, c := Step(Initial(START), ms, c, Moment(START, Trigger(true)), 1);
    Triggering(c, START + HOUR, false);
    ms, c := Step(Initial(START), ms, c, Moment(START + HOUR, Trigger(false)), 1);
  }

  /** After them an upload is granted 50 hours after the severe trigger. */
  lemma SevereCooldownCutShort() returns (ms: seq<Moment>, c: Config)
    ensures Run(Initial(START), ms, c) && OutAtMost(Initial(START), ms, 1)
    ensures NoClear(ms) && Moment(START, Trigger(true)) in ms
    ensures c.clock == START + 50.0 * HOUR && MayUploadFrom(c.clock) in c.waiting
  {
    ms, c := TwoTriggers();
    assert ms[1] == Moment(START, Trigger(true));
    ghost var before := ms;
    ms, c := DoEvaluate(Initial(START), ms, c, START + 50.0 * HOUR, Upload, 1);
    assert ms[1] == before[1];
  }

  /** A session granted an upload. */
  lemma UploadSession(t: real, m: nat) returns (ms: seq<Moment>, c: Config)
    requires m > 0
    ensures Run(Initial(t), ms, c) && OutAtMost(Initial(t), ms, m)
    ensures c.waiting == multiset{} && c.active == multiset{MayUploadFrom(t)} && c.clock == t && c.uploads == []
    ensures c.lc == Lc(t - 30.0 * DAY, 1, 0, Some(UtcDay(t)), Some(t), None, None, 0)
  {
    ms, c := Registered(t, m);
    OpenGate(c.lc, Upload, t);
    ms, c := DoEvaluate(Initial(t), ms, c, t, Upload, m);
    ms, c := DoBegin(Initial(t), ms, c, t, MayUploadFrom(t), m);
  }

  /** An operator triggers a cooldown during it, the upload is finished, and the cooldown cleared. */
  lemma UploadInCooldown(t: real) returns (ms: seq<Moment>, c: Config)
    requires t >= 0.0
    ensures Run(Initial(t), ms, c) && OutAtMost(Initial(t), ms, 1)
    ensures Moment(t, Finish(MayUploadFrom(t), true, false, false)) in ms
    ensures c.waiting == multiset{} && c.active == multiset{} && c.clock == t && c.uploads == []
    ensures c.lc == Lc(t - 30.0 * DAY, 1, 0, Some(UtcDay(t)), Some(t), None, None, 0)
  {
    ms, c := UploadSession(t, 1);
    Triggering(c, t, false);
    ms, c := Step(Initial(t), ms, c, Moment(t, Trigger(false)), 1);
    ghost var k := |ms|;
    ms, c := DoFinish(Initial(t), ms, c, t, MayUploadFrom(t), true, 1);
    Clearing(c, t);
    ms, c := Step(Initial(t), ms, c, Moment(t, Clear), 1);
    assert ms[k] == Moment(t, Finish(MayUploadFrom(t), true, false, false));
  }

  /** That finished upload leaves no trace, so four hours later the next one is granted and recorded. */
  lemma UnrecordedUpload() returns (ms: seq<Moment>, c: Config)
    ensures Run(Initial(START), ms, c) && OutAtMost(Initial(START), ms, 1)
    ensures Moment(START, Finish(MayUploadFrom(START), true, false, false)) in ms
    ensures var u := START + 4.0 * HOUR;
            Moment(u, Finish(MayUploadFrom(u), true, false, false)) in ms && c.uploads == [Mark(u, Normal)]
  {
    var t, u := START, START + 4.0 * HOUR;
    ms, c := UploadInCooldown(t);
    OpenGate(c.lc, Upload, u);
    ms, c := DoEvaluate(Initial(t), ms, c, u, Upload, 1);
    ms, c := DoBegin(Initial(t), ms, c, u, MayUploadFrom(u), 1);
    ms, c := DoFinish(Initial(t), ms, c, u, MayUploadFrom(u), true, 1);
    assert ms[|ms| - 1] == Moment(u, Finish(MayUploadFrom(u), true, false, false));
  }

  /** Two sessions evaluated before either begins. */
  lemma TwoGrants(t: real) returns (ms: seq<Moment>, c: Config)
    ensures Run(Initial(t), ms, c) && OutAtMost(Initial(t), ms, 2)
    ensures c.waiting == multiset{MayUploadFrom(t), MayUploadFrom(t)} && c.active == multiset{} && c.clock == t
    ensures c.starts == [] && c.uploads == []
    ensures c.lc == Lc(t - 30.0 * DAY, 0, 0, Some(UtcDay(t)), None, None, None, 0)
  {
    ms, c := Registered(t, 2);
    OpenGate(c.lc, Upload, t);
    ms, c := DoEvaluate(Initial(t), ms, c, t, Upload, 2);
    OpenGate(c.lc, Upload, t);
    ms, c := DoEvaluate(Initial(t), ms, c, t, Upload, 2);
  }

  lemma OneBegun(t: real) returns (ms: seq<Moment>, c: Config)
    ensures Run(Initial(t), ms, c) && OutAtMost(Initial(t), ms, 2)
    ensures c.waiting == multiset{MayUploadFrom(t)} && c.active == multiset{MayUploadFrom(t)} && c.clock == t
    ensures c.starts == [t] && c.uploads == []
    ensures c.lc == Lc(t - 30.0 * DAY, 1, 0, Some(UtcDay(t)), Some(t), None, None, 0)
  {
    ms, c := TwoGrants(t);
    ms, c := DoBegin(Initial(t), ms, c, t, MayUploadFrom(t), 2);
  }

  lemma TwoAtOnce(t: real) returns (ms: seq<Moment>, c: Config)
    ensures Run(Initial(t), ms, c) && OutAtMost(Initial(t), ms, 2)
    ensures c.waiting == multiset{} && c.active == multiset{MayUploadFrom(t), MayUploadFrom(t)} && c.clock == t
    ensures c.starts == [t, t] && c.uploads == []
    ensures c.lc == Lc(t - 30.0 * DAY, 2, 0, Some(UtcDay(t)), Some(t), None, None, 0)
  {
    ms, c := OneBegun(t);
    ms, c := DoBegin(Initial(t), ms, c, t, MayUploadFrom(t), 2);
  }

  /** Two sessions at once, around midnight: both start in the same instant, and their uploads are
      recorded one minute apart. */
  lemma OverlapBreaksSpacing() returns (ms: seq<Moment>, c: Config)
    ensures var t := 100.0 * DAY - 30.0;
            && Run(Initial(t), ms, c) && OutAtMost(Initial(t), ms, 2)
            && c.starts == [t, t] && c.uploads == [Mark(t, Normal), Mark(t + 60.0, Normal)]
  {
    var t := 100.0 * DAY - 30.0;
    assert UtcDay(t) == 99 && UtcDay(t + 60.0) == 100;
    ms, c := TwoAtOnce(t);
    ms, c := DoFinish(Initial(t), ms, c, t, MayUploadFrom(t), true, 2);
    ms, c := DoFinish(Initial(t), ms, c, t + 60.0, MayUploadFrom(t), true, 2);
  }

  // ---- Six starts on one day ----

  /** The lifecycle of an account of thirty days that has had n sessions since its counter was reset. */
  function Calm(n: nat, date: Option<int>, last: Option<real>): Lc { Lc(70.0 * DAY, n, 0, date, last, None, None, 0) }

  ghost predicate AtRest(c: Config) { c.waiting == multiset{} && c.active == multiset{} }

  /** One browsing session from grant to end. */
  lemma OneSession(c0: Config, ms: seq<Moment>, c: Config, t: real, n: nat, date: Option<int>, last: Option<real>, m: nat)
    returns (ms': seq<Moment>, c': Config)
    requires Run(c0, ms, c) && OutAtMost(c0, ms, m) && m >= 1 && AtRest(c) && c.clock <= t && UtcDay(t) == 100 && t >= 100.0 * DAY
    requires c.lc == Calm(n, date, last) && n < 3 && (n == 0 || date == Some(100))
    requires last.Some? ==> t - last.value >= 4.0 * HOUR
    ensures Run(c0, ms', c') && OutAtMost(c0, ms', m) && AtRest(c') && c'.clock == t
    ensures c'.lc == Calm(n + 1, Some(100), Some(t)) && c'.starts == c.starts + [t] && c'.restarts == c.restarts
  {
    var g := Grant(t, Normal, false);
    OpenGate(c.lc, Browse, t);
    ms', c' := DoEvaluate(c0, ms, c, t, Browse, m);
    ms', c' := DoBegin(c0, ms', c', t, g, m);
    ms', c' := DoFinish(c0, ms', c', t, g, false, m);
  }

  function Clock(k: nat): real { 100.0 * DAY + if k == 0 then 0.0 else (k - 1) as real * (4.0 * HOUR) }

  function Seen(k: nat, restarts: nat): Lc
    requires k >= 3 * restarts
  {
    Calm(k - 3 * restarts, if k == 0 then None else Some(100), if k == 0 then None else Some(Clock(k)))
  }

  /** After k sessions, four hours apart from the beginning of day 100 on, and the given number of restarts. */
  ghost predicate Reached(ms: seq<Moment>, c: Config, k: nat, restarts: nat, m: nat) {
    && Run(Initial(100.0 * DAY), ms, c) && OutAtMost(Initial(100.0 * DAY), ms, m) && AtRest(c)
    && k >= 3 * restarts && c.lc == Seen(k, restarts) && c.clock == Clock(k)
    && CountBy(c.starts, OnDay(100)) == |c.starts| == k
    && CountBy(c.restarts, OnDay(100)) == |c.restarts| == restarts
  }

  lemma NextSession(ms: seq<Moment>, c: Config, k: nat, restarts: nat, m: nat) returns (ms': seq<Moment>, c': Config)
    requires Reached(ms, c, k, restarts, m) && k < 6 && k - 3 * restarts < 3 && m >= 1
    ensures Reached(ms', c', k + 1, restarts, m)
  {
    var t := Clock(k + 1);
    assert UtcDay(t) == 100;
    ms', c' := OneSession(Initial(100.0 * DAY), ms, c, t, k - 3 * restarts, c.lc.counterDate, c.lc.lastSessionAt, m);
    CountAppend(c.starts, t, OnDay(100));
  }

  lemma Reloaded(s: Lc, t: real)
    requires s == Calm(3, Some(100), Some(t)) && UtcDay(t) == 100
    ensures Loaded(Dumped(s, t), t) == Calm(0, Some(100), Some(t))
  {
  }

  lemma NextRestart(ms: seq<Moment>, c: Config, m: nat) returns (ms': seq<Moment>, c': Config)
    requires Reached(ms, c, 3, 0, m)
    ensures Reached(ms', c', 3, 1, m)
  {
    var t := Clock(3);
    assert UtcDay(t) == 100;
    Restarting(c, t);
    Reloaded(c.lc, t);
    CountAppend(c.restarts, t, OnDay(100));
    ms', c' := Step(Initial(100.0 * DAY), ms, c, Moment(t, Restart(t)), m);
  }

  lemma FirstDay(m: nat) returns (ms: seq<Moment>, c: Config)
    ensures Reached(ms, c, 0, 0, m)
  {
    Registering(Initial(100.0 * DAY), 100.0 * DAY, 70.0 * DAY);
    ms, c := Step(Initial(100.0 * DAY), [], Initial(100.0 * DAY), Moment(100.0 * DAY, Register(70.0 * DAY)), m);
  }

  lemma {:induction false} Reach(k: nat, m: nat) returns (ms: seq<Moment>, c: Config)
    requires k <= 6 && m >= 1
    ensures Reached(ms, c, k, if k < 3 then 0 else 1, m)
  {
    if k == 0 {
      ms, c := FirstDay(m);
    } else {
      ms, c := Reach(k - 1, m);
      ms, c := NextSession(ms, c, k - 1, if k - 1 < 3 then 0 else 1, m);
      if k == 3 {
        ms, c := NextRestart(ms, c, m);
      }
    }
  }

  /** With a single restart, after the third session, six sessions start on one UTC day. */
  lemma OneRestartAllowsSix() returns (ms: seq<Moment>, c: Config)
    ensures Run(Initial(100.0 * DAY), ms, c) && OutAtMost(Initial(100.0 * DAY), ms, 1)
    ensures CountBy(c.starts, OnDay(100)) == 6 && CountBy(c.restarts, OnDay(100)) == 1
  {
    ms, c := Reach(6, 1);
  }

  // ---- Many sessions granted at once ----

  /** On day 100 two sessions have started before t, and n more at t; j grants of t are out, and a running sessions. */
  ghost predicate Rushing(ms: seq<Moment>, c: Config, m: nat, t: real, n: nat, j: nat) {
    var g := Grant(t, Normal, false);
    && Run(Initial(100.0 * DAY), ms, c) && OutAtMost(Initial(100.0 * DAY), ms, m) && c.clock <= t && UtcDay(t) == 100
    && |c.waiting| == j && c.waiting[g] == j && |c.active| == n && CountBy(c.starts, OnDay(100)) == 2 + n && c.restarts == []
  }

  lemma {:induction false} ManyGrants(ms0: seq<Moment>, c0: Config, m: nat, t: real, last: real, j: nat)
    returns (ms: seq<Moment>, c: Config)
    requires Rushing(ms0, c0, m, t, 0, 0) && j <= m && c0.lc == Calm(2, Some(100), Some(last)) && t - last >= 4.0 * HOUR && t >= 100.0 * DAY
    ensures Rushing(ms, c, m, t, 0, j) && c.lc == c0.lc
  {
    ms, c := ms0, c0;
    if j > 0 {
      ms, c := ManyGrants(ms0, c0, m, t, last, j - 1);
      OpenGate(c.lc, Browse, t);
      ms, c := DoEvaluate(Initial(100.0 * DAY), ms, c, t, Browse, m);
    }
  }

  lemma {:induction false} ManyBegins(ms0: seq<Moment>, c0: Config, m: nat, t: real, n: nat, j: nat) returns (ms: seq<Moment>, c: Config)
    requires Rushing(ms0, c0, m, t, n, j) && n + j <= m
    ensures Rushing(ms, c, m, t, n + j, 0)
    decreases j
  {
    ms, c := ms0, c0;
    if j > 0 {
      var g := Grant(t, Normal, false);
      CountAppend(c.starts, t, OnDay(100));
      OneFewer(c.waiting, g);
      ms, c := DoBegin(Initial(100.0 * DAY), ms, c, t, g, m);
      ms, c := ManyBegins(ms, c, m, t, n + 1, j - 1);
    }
  }

  /** For every m a run with m sessions at once starts 2 + m on one UTC day without a restart. */
  lemma DayBoundIsReached(m: nat) returns (ms: seq<Moment>, c: Config)
    requires m >= 1
    ensures Run(Initial(100.0 * DAY), ms, c) && OutAtMost(Initial(100.0 * DAY), ms, m)
    ensures CountBy(c.starts, OnDay(100)) == 2 + m && CountBy(c.restarts, OnDay(100)) == 0
  {
    var t := Clock(3);
    assert UtcDay(t) == 100;
    ms, c := Reach(2, m);
    ms, c := ManyGrants(ms, c, m, t, Clock(2), m);
    ms, c := ManyBegins(ms, c, m, t, 0, m);
  }
}
