/** Runs of one account: its lifecycle object, sessions that are granted, begun and finished around it,
    and the clock, with every other call (operator actions, snapshots, restarts) interleaved freely. */
module LifecycleRuns {
  import opened Sequences
  import opened SlidingWindows
  import opened Lifecycles

  /** What an allowed evaluation leaves with its caller. */
  datatype Grant = Grant(at: real, phase: Phase, upload: bool)

  datatype Event =
    | Evaluate(intent: Intent, trust: real, fatigue: real)
    | GiveUp(grant: Grant)
    | Begin(grant: Grant)
    | Finish(grant: Grant, uploaded: bool, anomaly: bool, severe: bool)
    | Trigger(severe: bool)
    | Clear
    | Register(ts: real)
    | Snapshot
    | Restart(dumpedAt: real)

  datatype Moment = Moment(at: real, event: Event)

  // ---- The object alone, driven in any order by any clock ----

  /** What a call does to the object. Proofs open it through LifecycleIs, or use one of its fields below. */
  function Lifecycle(s: Lc, m: Moment): Lc { LifecycleIn(s, m, 1) }

  function LifecycleIn(s: Lc, m: Moment, steps: nat): Lc
    decreases steps, m
  {
    if steps > 0 then LifecycleIn(s, m, steps - 1)
    else
      match m.event
      case Evaluate(_, _, _) => Refreshed(s, m.at)
      case GiveUp(_) => s
      case Begin(_) => Started(s, m.at)
      case Finish(_, uploaded, anomaly, severe) => Ended(s, uploaded, anomaly, severe, m.at)
      case Trigger(severe) => Triggered(s, severe, m.at)
      case Clear => Cleared(s)
      case Register(ts) => s.(registeredAt := ts)
      case Snapshot => Refreshed(s, m.at)
      case Restart(dumpedAt) => Loaded(Dumped(s, dumpedAt), m.at)
  }

  lemma LifecycleIs(s: Lc, m: Moment)
    ensures Lifecycle(s, m) ==
              match m.event
              case Evaluate(_, _, _) => Refreshed(s, m.at)
              case GiveUp(_) => s
              case Begin(_) => Started(s, m.at)
              case Finish(_, uploaded, anomaly, severe) => Ended(s, uploaded, anomaly, severe, m.at)
              case Trigger(severe) => Triggered(s, severe, m.at)
              case Clear => Cleared(s)
              case Register(ts) => s.(registeredAt := ts)
              case Snapshot => Refreshed(s, m.at)
              case Restart(dumpedAt) => Loaded(Dumped(s, dumpedAt), m.at)
  {
    assert LifecycleIn(s, m, 1) == LifecycleIn(s, m, 0);
  }

  lemma LastSessionFollows(s: Lc, m: Moment)
    ensures Lifecycle(s, m).lastSessionAt == if m.event.Begin? then Some(m.at) else s.lastSessionAt
  {
    LifecycleIs(s, m);
  }

  lemma LastUploadFollows(s: Lc, m: Moment)
    ensures Lifecycle(s, m).lastUploadAt
            == if m.event.Finish? && m.event.uploaded && Counts(s, m.at) then Some(m.at) else s.lastUploadAt
  {
    LifecycleIs(s, m);
  }

  /** The session counter and its day after a call. */
  lemma CounterFollows(s: Lc, m: Moment)
    ensures var r := Lifecycle(s, m);
            match m.event
            case Begin(_) => r.counterDate == Some(UtcDay(m.at)) && r.sessionsToday == Refreshed(s, m.at).sessionsToday + 1
            case Restart(_) => r.counterDate == Some(UtcDay(m.at)) && r.sessionsToday == 0
            case _ => (r.counterDate == s.counterDate && r.sessionsToday == s.sessionsToday)
                      || (r.counterDate == Some(UtcDay(m.at)) && r.sessionsToday == Refreshed(s, m.at).sessionsToday)
  {
    LifecycleIs(s, m);
  }

  function States(s: Lc, ms: seq<Moment>): Lc {
    if |ms| == 0 then s else Lifecycle(States(s, ms[..|ms| - 1]), ms[|ms| - 1])
  }

  /** A positive upload counter belongs to the day of the last upload. */
  ghost predicate UploadsDated(s: Lc) {
    s.uploadsToday > 0 ==> s.lastUploadAt.Some? && s.counterDate == Some(UtcDay(s.lastUploadAt.value))
  }

  lemma DatedStep(s: Lc, m: Moment)
    requires UploadsDated(s)
    ensures UploadsDated(Lifecycle(s, m))
  {
    LifecycleIs(s, m);
  }

  lemma {:induction false} ReachableDated(created: real, ms: seq<Moment>)
    ensures UploadsDated(States(Created(created), ms))
  {
    if |ms| > 0 {
      ReachableDated(created, ms[..|ms| - 1]);
      DatedStep(States(Created(created), ms[..|ms| - 1]), ms[|ms| - 1]);
    }
  }

  /** Two instants of the same UTC day are less than a day apart. */
  lemma SameDay(a: real, b: real)
    requires UtcDay(a) == UtcDay(b)
    ensures (b - a) / DAY < 1.0
  {
    var x, y := a / DAY, b / DAY;
    assert y - x < 1.0;
    assert (b - a) / DAY == y - x;
  }

  /** The daily upload cap never decides: whenever it would, the upload gap already has. Holds in
      every state reachable by any calls in any order under any clock. */
  lemma UploadCapNeverDecides(created: real, ms: seq<Moment>, requested: Intent, trust: real, fatigue: real, now: real)
    ensures GateAt(States(Created(created), ms), requested, trust, fatigue, now).cap != Some(MaxUploadsPerDay)
  {
    var s := Refreshed(States(Created(created), ms), now);
    ReachableDated(created, ms);
    if s.uploadsToday > 0 {
      SameDay(s.lastUploadAt.value, now);
    }
  }

  /** A deadline that has not passed; one of exactly zero counts as none. */
  ghost predicate InCooldown(s: Lc, now: real) {
    s.cooldownUntil.Some? && s.cooldownUntil.value != 0.0 && now < s.cooldownUntil.value
  }

  /** The sessions counted on the UTC day of now. */
  ghost function SessionsOn(s: Lc, now: real): nat {
    if s.counterDate == Some((now / 86400.0).Floor) then s.sessionsToday else 0
  }

  /** What it takes to be allowed an upload. */
  ghost predicate MayUpload(s: Lc, trust: real, fatigue: real, now: real) {
    var age := now - s.registeredAt;
    && (s.lastSessionAt.Some? ==> now - s.lastSessionAt.value >= 14400.0)
    && !InCooldown(s, now)
    && age >= 604800.0
    && trust >= 0.70 && fatigue < 0.70
    && SessionsOn(s, now) < (if age < 1814400.0 then 2 else 3)
    && (s.lastUploadAt.Some? ==> now - s.lastUploadAt.value >= if age < 1814400.0 then 259200.0 else 86400.0)
  }

  /** In a reachable state the gate grants an upload exactly on request and under these conditions;
      the counter of today's uploads plays no part in it. */
  lemma UploadGrantedIff(created: real, ms: seq<Moment>, requested: Intent, trust: real, fatigue: real, now: real)
    ensures var s := States(Created(created), ms);
            GateAt(s, requested, trust, fatigue, now).intent == Upload <==> requested == Upload && MayUpload(s, trust, fatigue, now)
  {
    UploadCapNeverDecides(created, ms, requested, trust, fatigue, now);
  }

  // ---- The protocol: evaluate, begin, finish, possibly several sessions at once ----

  datatype Mark = Mark(at: real, phase: Phase)

  const SESSION_GAP := 14400.0

  function Gap(p: Phase): real { if p == RampUp then 3.0 * DAY else DAY }

  /** waiting holds the grants not yet begun, active the sessions running, uploading the grants of
      either kind that allow an upload; starts, uploads and restarts are everything recorded so far, and
      earlier is how many starts came before the last restart. */
  datatype Config = Config(lc: Lc, waiting: multiset<Grant>, active: multiset<Grant>, uploading: multiset<Grant>, clock: real,
                           starts: seq<real>, uploads: seq<Mark>, restarts: seq<real>, earlier: nat,
                           outcomes: seq<bool>, trigger: Option<(real, bool)>)

  function Initial(now: real): Config {
    Config(Created(now), multiset{}, multiset{}, multiset{}, now, [], [], [], 0, [], None)
  }

  /** A session begins only on a grant, finishes only once begun, and uploads only if its grant was for an upload. */
  ghost predicate Legal(c: Config, m: Moment) {
    && c.clock <= m.at
    && match m.event
       case GiveUp(g) => g in c.waiting
       case Begin(g) => g in c.waiting
       case Finish(g, uploaded, _, _) => g in c.active && (uploaded ==> g.upload)
       case Restart(dumpedAt) => c.clock <= dumpedAt <= m.at
       case _ => true
  }

  /** The grant an evaluation gives, if it allows a session. Proofs open it through GivenIs. */
  function Given(s: Lc, m: Moment): Option<Grant> { GivenIn(s, m, 1) }

  function GivenIn(s: Lc, m: Moment, steps: nat): Option<Grant>
    decreases steps, m
  {
    if steps > 0 then GivenIn(s, m, steps - 1)
    else if !m.event.Evaluate? then None
    else
      var gate := GateAt(s, m.event.intent, m.event.trust, m.event.fatigue, m.at);
      if gate.allowed then Some(Grant(m.at, gate.phase, gate.intent == Upload)) else None
  }

  lemma GivenIs(s: Lc, m: Moment)
    ensures !m.event.Evaluate? ==> Given(s, m) == None
    ensures m.event.Evaluate? ==>
              var gate := GateAt(s, m.event.intent, m.event.trust, m.event.fatigue, m.at);
              Given(s, m) == if gate.allowed then Some(Grant(m.at, gate.phase, gate.intent == Upload)) else None
  {
    assert GivenIn(s, m, 1) == GivenIn(s, m, 0);
  }

  /** What an evaluation that gives a grant has looked at. */
  lemma GivenGaps(s: Lc, m: Moment)
    requires Given(s, m).Some?
    ensures m.event.Evaluate? && Given(s, m).value.at == m.at
    ensures s.lastSessionAt.Some? ==> m.at - s.lastSessionAt.value >= SESSION_GAP
    ensures Refreshed(s, m.at).sessionsToday < 3
    ensures Given(s, m).value.upload && s.lastUploadAt.Some? ==> m.at - s.lastUploadAt.value >= Gap(Given(s, m).value.phase)
  {
    GivenIs(s, m);
  }

  function WaitingAfter(c: Config, m: Moment): multiset<Grant> {
    match m.event
    case Evaluate(_, _, _) => if Given(c.lc, m).Some? then c.waiting + multiset{Given(c.lc, m).value} else c.waiting
    case GiveUp(g) => c.waiting - multiset{g}
    case Begin(g) => c.waiting - multiset{g}
    case _ => c.waiting
  }

  function ActiveAfter(c: Config, m: Moment): multiset<Grant> {
    match m.event
    case Begin(g) => c.active + multiset{g}
    case Finish(g, _, _, _) => c.active - multiset{g}
    case _ => c.active
  }

  function UploadingAfter(c: Config, m: Moment): multiset<Grant> {
    match m.event
    case Evaluate(_, _, _) => if Given(c.lc, m).Some? then WithUpload(c.uploading, Given(c.lc, m).value) else c.uploading
    case GiveUp(g) => WithoutUpload(c.uploading, g)
    case Finish(g, _, _, _) => WithoutUpload(c.uploading, g)
    case _ => c.uploading
  }

  function StartsAfter(c: Config, m: Moment): seq<real> {
    if m.event.Begin? then c.starts + [m.at] else c.starts
  }

  /** The uploads the object has recorded, each with the phase its grant was given in. */
  function UploadsAfter(c: Config, m: Moment): seq<Mark> {
    if m.event.Finish? && m.event.uploaded && Counts(c.lc, m.at) then c.uploads + [Mark(m.at, m.event.grant.phase)] else c.uploads
  }

  function RestartsAfter(c: Config, m: Moment): seq<real> {
    if m.event.Restart? then c.restarts + [m.at] else c.restarts
  }

  function EarlierAfter(c: Config, m: Moment): nat {
    if m.event.Restart? then |c.starts| else c.earlier
  }

  /** Whether each session since creation or the last clear was anomalous. */
  function OutcomesAfter(xs: seq<bool>, e: Event): seq<bool> {
    match e
    case Finish(_, _, anomaly, _) => xs + [anomaly]
    case Clear => []
    case _ => xs
  }

  /** The last cooldown trigger since creation or the last clear: when, and whether severe. */
  function TriggerAfter(c: Config, m: Moment): Option<(real, bool)> {
    match m.event
    case Trigger(severe) => Some((m.at, severe))
    case Finish(_, _, anomaly, severe) => if anomaly && (severe || c.lc.anomalyCount >= 1) then Some((m.at, severe)) else c.trigger
    case Clear => None
    case _ => c.trigger
  }

  /** The configuration after a moment. Proofs use the groups of its fields below. */
  function Next(c: Config, m: Moment): Config { NextIn(c, m, 1) }

  function NextIn(c: Config, m: Moment, steps: nat): Config
    decreases steps, m
  {
    if steps > 0 then NextIn(c, m, steps - 1)
    else
      Config(Lifecycle(c.lc, m), WaitingAfter(c, m), ActiveAfter(c, m), UploadingAfter(c, m), m.at,
             StartsAfter(c, m), UploadsAfter(c, m), RestartsAfter(c, m), EarlierAfter(c, m),
             OutcomesAfter(c.outcomes, m.event), TriggerAfter(c, m))
  }

  lemma NextStarts(c: Config, m: Moment)
    ensures var n := Next(c, m);
            n.lc == Lifecycle(c.lc, m) && n.clock == m.at && n.waiting == WaitingAfter(c, m) && n.starts == StartsAfter(c, m)
  {
    assert NextIn(c, m, 1) == NextIn(c, m, 0);
  }

  lemma NextUploads(c: Config, m: Moment)
    ensures var n := Next(c, m);
            && n.lc == Lifecycle(c.lc, m) && n.clock == m.at && n.waiting == WaitingAfter(c, m) && n.active == ActiveAfter(c, m)
            && n.uploading == UploadingAfter(c, m) && n.uploads == UploadsAfter(c, m)
  {
    assert NextIn(c, m, 1) == NextIn(c, m, 0);
  }

  lemma NextDays(c: Config, m: Moment)
    ensures var n := Next(c, m);
            && n.lc == Lifecycle(c.lc, m) && n.clock == m.at && n.waiting == WaitingAfter(c, m)
            && n.starts == StartsAfter(c, m) && n.restarts == RestartsAfter(c, m) && n.earlier == EarlierAfter(c, m)
  {
    assert NextIn(c, m, 1) == NextIn(c, m, 0);
  }

  lemma NextCooling(c: Config, m: Moment)
    ensures var n := Next(c, m);
            && n.lc == Lifecycle(c.lc, m) && n.clock == m.at
            && n.outcomes == OutcomesAfter(c.outcomes, m.event) && n.trigger == TriggerAfter(c, m)
  {
    assert NextIn(c, m, 1) == NextIn(c, m, 0);
  }

  ghost predicate Run(c: Config, ms: seq<Moment>, c': Config)
    decreases |ms|
  {
    if |ms| == 0 then c' == c else Legal(c, ms[0]) && Run(Next(c, ms[0]), ms[1..], c')
  }

  /** At no moment of the run are more than m sessions somewhere between their grant and their end. */
  ghost predicate OutAtMost(c: Config, ms: seq<Moment>, m: nat)
    decreases |ms|
  {
    |c.waiting| + |c.active| <= m && (|ms| > 0 ==> OutAtMost(Next(c, ms[0]), ms[1..], m))
  }

  lemma OneFewer(s: multiset<Grant>, g: Grant)
    requires g in s
    ensures |s - multiset{g}| + 1 == |s|
  {
    assert s == (s - multiset{g}) + multiset{g};
  }

  // ---- Starts: windows of four hours ----

  function Instant(): real -> real { (t: real) => t }

  function MarkAt(): Mark -> real { (u: Mark) => u.at }

  function LastOf<T>(log: seq<T>, ts: T -> real): Option<real> { if |log| == 0 then None else Some(ts(log[|log| - 1])) }

  /** The instant remembered is that of the last event, or that event is a gap or more in the past. */
  ghost predicate Recalls<T>(last: Option<real>, log: seq<T>, ts: T -> real, now: real, gap: real) {
    last == LastOf(log, ts) || (|log| > 0 && now - ts(log[|log| - 1]) >= gap)
  }

  /** If the remembered event lies a gap back, no recent half-open window holds any event. */
  lemma RoomAfterGap<T(!new)>(last: Option<real>, log: seq<T>, ts: T -> real, now: real, gap: real)
    requires Chronological(log, ts) && Recalls(last, log, ts, now, gap)
    requires last.Some? ==> now - last.value >= gap
    ensures HasRoom(log, ts, now, gap, HalfOpen, 1)
  {
    forall x: real | Recent(x, now, gap, HalfOpen) ensures CountBy(log, Since(ts, x)) < 1 {
      forall i | 0 <= i < |log| ensures ts(log[i]) < x {
        assert ts(log[i]) <= ts(log[|log| - 1]);
      }
      AllBefore(log, ts, x);
    }
  }

  ghost predicate StartsKept(c: Config, m: nat) {
    && Chronological(c.starts, Instant()) && Recalls(c.lc.lastSessionAt, c.starts, Instant(), c.clock, SESSION_GAP)
    && |c.waiting| <= m
    && WindowsHold(c.starts, Instant(), |c.waiting|, c.clock, SESSION_GAP, HalfOpen, m)
  }

  lemma LastOfAppend<T>(log: seq<T>, e: T, ts: T -> real)
    ensures LastOf(log + [e], ts) == Some(ts(e))
  {
  }

  lemma StartStep(c: Config, e: Moment, m: nat)
    requires StartsKept(c, m) && Legal(c, e) && |WaitingAfter(c, e)| <= m && e.event.Begin?
    ensures StartsKept(Next(c, e), m)
  {
    NextStarts(c, e);
    LastSessionFollows(c.lc, e);
    OneFewer(c.waiting, e.event.grant);
    RecordingKeeps(c.starts, e.at, Instant(), |WaitingAfter(c, e)|, c.clock, SESSION_GAP, HalfOpen, m);
    ChronologicalAppend(c.starts, e.at, Instant(), c.clock);
    LastOfAppend(c.starts, e.at, Instant());
  }

  lemma NoStartStep(c: Config, e: Moment, m: nat)
    requires StartsKept(c, m) && Legal(c, e) && |WaitingAfter(c, e)| <= m && !e.event.Begin?
    ensures StartsKept(Next(c, e), m)
  {
    NextStarts(c, e);
    LastSessionFollows(c.lc, e);
    var out, out' := |c.waiting|, |WaitingAfter(c, e)|;
    if Given(c.lc, e).Some? {
      GivenGaps(c.lc, e);
      RoomAfterGap(c.lc.lastSessionAt, c.starts, Instant(), e.at, SESSION_GAP);
      GrantingKeeps(c.starts, Instant(), out, c.clock, out', e.at, SESSION_GAP, HalfOpen, 1, m);
    } else {
      FewerWaiting(c, e);
      WaitingKeeps(c.starts, Instant(), out, c.clock, out', e.at, SESSION_GAP, HalfOpen, m);
    }
  }

  lemma FewerWaiting(c: Config, e: Moment)
    requires Given(c.lc, e) == None
    ensures |WaitingAfter(c, e)| <= |c.waiting|
  {
  }

  lemma {:induction false} StartsStayKept(c: Config, ms: seq<Moment>, c': Config, m: nat)
    requires StartsKept(c, m) && Run(c, ms, c') && OutAtMost(c, ms, m)
    ensures StartsKept(c', m)
    decreases |ms|
  {
    if |ms| > 0 {
      NextStarts(c, ms[0]);
      assert OutAtMost(Next(c, ms[0]), ms[1..], m);
      if ms[0].event.Begin? {
        StartStep(c, ms[0], m);
      } else {
        NoStartStep(c, ms[0], m);
      }
      StartsStayKept(Next(c, ms[0]), ms[1..], c', m);
    }
  }

  /** With at most m sessions between grant and end at any moment, restarts and operator actions
      included, any half-open four hours hold at most m starts, and any half-open day at most 6m. */
  lemma StartsPerWindow(created: real, ms: seq<Moment>, c: Config, m: nat, from: real)
    requires Run(Initial(created), ms, c) && OutAtMost(Initial(created), ms, m)
    ensures CountBy(c.starts, Window(Instant(), from, 4.0 * HOUR, HalfOpen)) <= m
    ensures CountBy(c.starts, Window(Instant(), from, DAY, HalfOpen)) <= 6 * m
  {
    StartsStayKept(Initial(created), ms, c, m);
    LongWindow(c.starts, Instant(), from, SESSION_GAP, m, 6, DAY);
  }

  // ---- Recorded uploads: windows of a day ----

  /** uploading holds exactly the upload grants among those waiting and active. */
  ghost predicate Covers(uploading: multiset<Grant>, waiting: multiset<Grant>, active: multiset<Grant>) {
    forall g: Grant :: uploading[g] == if g.upload then waiting[g] + active[g] else 0
  }

  ghost predicate Covered(c: Config) { Covers(c.uploading, c.waiting, c.active) }

  function WithUpload(uploading: multiset<Grant>, g: Grant): multiset<Grant> {
    if g.upload then uploading + multiset{g} else uploading
  }

  function WithoutUpload(uploading: multiset<Grant>, g: Grant): multiset<Grant> {
    if g.upload then uploading - multiset{g} else uploading
  }

  lemma CoverGiven(u: multiset<Grant>, w: multiset<Grant>, a: multiset<Grant>, g: Grant)
    requires Covers(u, w, a)
    ensures Covers(WithUpload(u, g), w + multiset{g}, a)
  {
  }

  lemma CoverGivenUp(u: multiset<Grant>, w: multiset<Grant>, a: multiset<Grant>, g: Grant)
    requires Covers(u, w, a) && g in w
    ensures Covers(WithoutUpload(u, g), w - multiset{g}, a)
  {
  }

  lemma CoverBegun(u: multiset<Grant>, w: multiset<Grant>, a: multiset<Grant>, g: Grant)
    requires Covers(u, w, a) && g in w
    ensures Covers(u, w - multiset{g}, a + multiset{g})
  {
  }

  lemma CoverFinished(u: multiset<Grant>, w: multiset<Grant>, a: multiset<Grant>, g: Grant)
    requires Covers(u, w, a) && g in a
    ensures Covers(WithoutUpload(u, g), w, a - multiset{g})
  {
  }

  lemma CoveredStep(c: Config, e: Moment)
    requires Covered(c) && Legal(c, e)
    ensures Covered(Next(c, e))
  {
    NextUploads(c, e);
    match e.event {
      case Evaluate(_, _, _) =>
        if Given(c.lc, e).Some? {
          CoverGiven(c.uploading, c.waiting, c.active, Given(c.lc, e).value);
        }
      case GiveUp(g) => CoverGivenUp(c.uploading, c.waiting, c.active, g);
      case Begin(g) => CoverBegun(c.uploading, c.waiting, c.active, g);
      case Finish(g, _, _, _) => CoverFinished(c.uploading, c.waiting, c.active, g);
      case _ =>
    }
  }

  lemma PartIsSmaller(part: multiset<Grant>, all: multiset<Grant>)
    requires forall g: Grant :: part[g] <= all[g]
    ensures |part| <= |all|
  {
    assert all == part + (all - part);
  }

  /** The grants that allow uploads are among those out. */
  lemma UploadingWithin(c: Config)
    requires Covered(c)
    ensures |c.uploading| <= |c.waiting| + |c.active|
  {
    var all := c.waiting + c.active;
    forall g: Grant ensures c.uploading[g] <= all[g] {
      assert c.uploading[g] == if g.upload then c.waiting[g] + c.active[g] else 0;
    }
    PartIsSmaller(c.uploading, all);
  }

  ghost predicate UploadsKept(c: Config, m: nat) {
    && Chronological(c.uploads, MarkAt()) && Recalls(c.lc.lastUploadAt, c.uploads, MarkAt(), c.clock, 3.0 * DAY)
    && WindowsHold(c.uploads, MarkAt(), |c.uploading|, c.clock, DAY, HalfOpen, m)
  }

  lemma UsesGrant(c: Config, e: Moment)
    requires Covered(c) && Legal(c, e) && e.event.Finish? && e.event.uploaded
    ensures e.event.grant in c.uploading && UploadingAfter(c, e) == c.uploading - multiset{e.event.grant}
    ensures |UploadingAfter(c, e)| + 1 == |c.uploading|
  {
    var g := e.event.grant;
    assert c.uploading[g] == c.waiting[g] + c.active[g];
    OneFewer(c.uploading, g);
  }

  /** A recorded upload uses up one of the grants that allow uploads. */
  lemma UploadStep(c: Config, e: Moment, m: nat)
    requires UploadsKept(c, m) && Covered(c) && Legal(c, e) && UploadsAfter(c, e) != c.uploads
    ensures UploadsKept(Next(c, e), m)
  {
    var u := Mark(e.at, e.event.grant.phase);
    NextUploads(c, e);
    LastUploadFollows(c.lc, e);
    UsesGrant(c, e);
    RecordingKeeps(c.uploads, u, MarkAt(), |UploadingAfter(c, e)|, c.clock, DAY, HalfOpen, m);
    ChronologicalAppend(c.uploads, u, MarkAt(), c.clock);
    LastOfAppend(c.uploads, u, MarkAt());
  }

  /** Without a loss of state the object remembers the last recorded upload. */
  lemma {:induction false} UploadRemembered(c: Config, ms: seq<Moment>, c': Config)
    requires c.lc.lastUploadAt == LastOf(c.uploads, MarkAt()) && Run(c, ms, c')
    ensures c'.lc.lastUploadAt == LastOf(c'.uploads, MarkAt())
    decreases |ms|
  {
    if |ms| > 0 {
      NextUploads(c, ms[0]);
      LastUploadFollows(c.lc, ms[0]);
      UploadRemembered(Next(c, ms[0]), ms[1..], c');
    }
  }

  lemma RecallsSooner<T>(last: Option<real>, log: seq<T>, ts: T -> real, now: real, gap: real, gap': real)
    requires Recalls(last, log, ts, now, gap) && gap' <= gap
    ensures Recalls(last, log, ts, now, gap')
  {
  }

  lemma FewerUploading(c: Config, e: Moment)
    requires Given(c.lc, e).Some? ==> !Given(c.lc, e).value.upload
    ensures |UploadingAfter(c, e)| <= |c.uploading|
  {
  }

  lemma NoUploadStep(c: Config, e: Moment, m: nat)
    requires UploadsKept(c, m) && Legal(c, e) && UploadsAfter(c, e) == c.uploads && |UploadingAfter(c, e)| <= m
    ensures UploadsKept(Next(c, e), m)
  {
    NextUploads(c, e);
    LastUploadFollows(c.lc, e);
    var out, out' := |c.uploading|, |UploadingAfter(c, e)|;
    if Given(c.lc, e).Some? && Given(c.lc, e).value.upload {
      GivenGaps(c.lc, e);
      RecallsSooner(c.lc.lastUploadAt, c.uploads, MarkAt(), e.at, 3.0 * DAY, DAY);
      RoomAfterGap(c.lc.lastUploadAt, c.uploads, MarkAt(), e.at, DAY);
      GrantingKeeps(c.uploads, MarkAt(), out, c.clock, out', e.at, DAY, HalfOpen, 1, m);
    } else {
      FewerUploading(c, e);
      WaitingKeeps(c.uploads, MarkAt(), out, c.clock, out', e.at, DAY, HalfOpen, m);
    }
  }

  lemma UploadsStep(c: Config, e: Moment, m: nat)
    requires UploadsKept(c, m) && Covered(c) && Legal(c, e) && |Next(c, e).waiting| + |Next(c, e).active| <= m
    ensures UploadsKept(Next(c, e), m) && Covered(Next(c, e)) && |Next(c, e).uploading| <= m
  {
    NextUploads(c, e);
    CoveredStep(c, e);
    UploadingWithin(Next(c, e));
    if UploadsAfter(c, e) != c.uploads {
      UploadStep(c, e, m);
    } else {
      NoUploadStep(c, e, m);
    }
  }

  lemma {:induction false} UploadsStayKept(c: Config, ms: seq<Moment>, c': Config, m: nat)
    requires UploadsKept(c, m) && Covered(c) && Run(c, ms, c') && OutAtMost(c, ms, m)
    ensures UploadsKept(c', m) && Covered(c')
    decreases |ms|
  {
    if |ms| > 0 {
      assert OutAtMost(Next(c, ms[0]), ms[1..], m);
      UploadsStep(c, ms[0], m);
      UploadsStayKept(Next(c, ms[0]), ms[1..], c', m);
    }
  }

  /** With at most m sessions between grant and end at any moment, any half-open day holds at most m
      recorded uploads. */
  lemma UploadsPerDay(created: real, ms: seq<Moment>, c: Config, m: nat, from: real)
    requires Run(Initial(created), ms, c) && OutAtMost(Initial(created), ms, m)
    ensures CountBy(c.uploads, Window(MarkAt(), from, DAY, HalfOpen)) <= m
  {
    UploadsStayKept(Initial(created), ms, c, m);
  }

  // ---- One session at a time ----

  ghost predicate UploadsSpaced(us: seq<Mark>) {
    forall i, j :: 0 <= i < j < |us| ==> us[j].at - us[i].at >= Gap(us[j].phase)
  }

  /** The one grant out that allows an upload came a gap after the last upload. */
  ghost predicate GrantsSpaced(c: Config) {
    && UploadsSpaced(c.uploads)
    && forall g: Grant :: g in c.uploading ==>
         g.at <= c.clock && (|c.uploads| > 0 ==> g.at - c.uploads[|c.uploads| - 1].at >= Gap(g.phase))
  }

  lemma UploadsSpacedAppend(us: seq<Mark>, last: Mark)
    requires UploadsSpaced(us)
    requires |us| > 0 ==> last.at - us[|us| - 1].at >= Gap(last.phase)
    ensures UploadsSpaced(us + [last])
  {
    forall i | 0 <= i < |us| ensures last.at - us[i].at >= Gap(last.phase) {
      assert us[i].at <= us[|us| - 1].at;
    }
  }

  lemma Alone(s: multiset<Grant>, g: Grant)
    requires g in s && |s| <= 1
    ensures s - multiset{g} == multiset{}
  {
    OneFewer(s, g);
  }

  lemma SpacedUpload(c: Config, e: Moment)
    requires Covered(c) && GrantsSpaced(c) && Legal(c, e) && |c.uploading| <= 1 && UploadsAfter(c, e) != c.uploads
    ensures GrantsSpaced(Next(c, e))
  {
    NextUploads(c, e);
    UsesGrant(c, e);
    Alone(c.uploading, e.event.grant);
    UploadsSpacedAppend(c.uploads, Mark(e.at, e.event.grant.phase));
  }

  lemma GrantGap(c: Config, e: Moment)
    requires UploadsKept(c, 1) && Legal(c, e) && Given(c.lc, e).Some? && Given(c.lc, e).value.upload && |c.uploads| > 0
    ensures e.at - c.uploads[|c.uploads| - 1].at >= Gap(Given(c.lc, e).value.phase)
  {
    GivenGaps(c.lc, e);
  }

  lemma OldOrGiven(c: Config, e: Moment, g: Grant)
    requires g in UploadingAfter(c, e)
    ensures g in c.uploading || (Given(c.lc, e) == Some(g) && g.upload && g.at == e.at)
  {
    if Given(c.lc, e).Some? {
      GivenGaps(c.lc, e);
    }
  }

  lemma SpacedStep(c: Config, e: Moment)
    requires UploadsKept(c, 1) && Covered(c) && GrantsSpaced(c) && Legal(c, e) && |c.uploading| <= 1
    ensures GrantsSpaced(Next(c, e))
  {
    if UploadsAfter(c, e) != c.uploads {
      SpacedUpload(c, e);
    } else {
      NextUploads(c, e);
      forall g: Grant | g in UploadingAfter(c, e)
        ensures g.at <= e.at && (|c.uploads| > 0 ==> g.at - c.uploads[|c.uploads| - 1].at >= Gap(g.phase))
      {
        OldOrGiven(c, e, g);
        if g !in c.uploading && |c.uploads| > 0 {
          GrantGap(c, e);
        }
      }
    }
  }

  lemma {:induction false} SpacingKept(c: Config, ms: seq<Moment>, c': Config)
    requires UploadsKept(c, 1) && Covered(c) && GrantsSpaced(c) && Run(c, ms, c') && OutAtMost(c, ms, 1)
    ensures GrantsSpaced(c') && UploadsKept(c', 1) && Covered(c')
    decreases |ms|
  {
    if |ms| > 0 {
      assert OutAtMost(Next(c, ms[0]), ms[1..], 1);
      UploadingWithin(c);
      SpacedStep(c, ms[0]);
      UploadsStep(c, ms[0], 1);
      SpacingKept(Next(c, ms[0]), ms[1..], c');
    }
  }

  /** With one session at a time, restarts and operator actions included: any two recorded uploads are a
      day apart, three days when the later was granted in ramp-up, and any two starts four hours. */
  lemma SpacingHolds(created: real, ms: seq<Moment>, c: Config)
    requires Run(Initial(created), ms, c) && OutAtMost(Initial(created), ms, 1)
    ensures UploadsSpaced(c.uploads) && Spaced(c.starts, Instant(), 4.0 * HOUR)
  {
    SpacingKept(Initial(created), ms, c);
    StartsStayKept(Initial(created), ms, c, 1);
    OnePerWindowIsSpaced(c.starts, Instant(), SESSION_GAP);
  }
}
