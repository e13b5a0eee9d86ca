/** The fleet coordinator of core/fleet_coordinator.py as a value, and its runs with many sessions
    holding slots at once. */
module FleetRuns {
  import opened Sequences
  import opened Reals
  import opened SlidingWindows

  const SESSION_WINDOW := 60.0
  const HOUR_WINDOW := 3600.0

  /** Full event histories; the object itself keeps only what its windows still need. */
  datatype Fleet = Fleet(starts: seq<real>, uploads: seq<real>, bans: seq<real>, safe: bool, accounts: set<string>,
                         lastStart: map<string, real>, maxSessions: nat, maxUploads: nat, banThreshold: nat)

  function At(): real -> real { (t: real) => t }

  function InWindow(log: seq<real>, now: real, length: real): nat { CountBy(log, Since(At(), now - length)) }

  function SlotGranted(f: Fleet, now: real): bool { !f.safe && InWindow(f.starts, now, SESSION_WINDOW) < f.maxSessions }

  function UploadGranted(f: Fleet, now: real): bool { !f.safe && InWindow(f.uploads, now, HOUR_WINDOW) < f.maxUploads }

  function Started(f: Fleet, account: string, now: real): Fleet {
    f.(starts := f.starts + [now], lastStart := f.lastStart[account := now])
  }

  /** A result counts only for a registered account; a ban that fills the window makes the fleet safe. */
  function Reported(f: Fleet, account: string, blocked: bool, uploaded: bool, now: real): Fleet {
    if account !in f.accounts then f
    else
      var bans := if blocked then f.bans + [now] else f.bans;
      f.(bans := bans,
         safe := f.safe || (blocked && InWindow(bans, now, HOUR_WINDOW) >= f.banThreshold),
         uploads := if uploaded then f.uploads + [now] else f.uploads)
  }

  // ---- Runs ----

  datatype Event =
    | Request(account: string)
    | Start(account: string)
    | GiveUp
    | AskUpload
    | DropUpload
    | Report(account: string, blocked: bool, uploaded: bool)
    | SetMode(safe: bool)

  datatype Moment = Moment(at: real, event: Event)

  /** slots are granted requests whose session has not started yet, uploadSlots granted upload checks
      whose upload has not been reported yet. */
  datatype Config = Config(fleet: Fleet, slots: nat, uploadSlots: nat, clock: real, manual: bool)

  function NewFleet(maxSessions: nat, maxUploads: nat, banThreshold: nat): Fleet {
    Fleet([], [], [], false, {}, map[], maxSessions, maxUploads, banThreshold)
  }

  function Begin(f: Fleet, now: real): Config { Config(f, 0, 0, now, false) }

  function Less(n: nat): nat { if n > 0 then n - 1 else 0 }

  function FleetAfter(f: Fleet, e: Moment): Fleet {
    match e.event
    case Request(account) => f.(accounts := f.accounts + {account})
    case Start(account) => Started(f, account, e.at)
    case Report(account, blocked, uploaded) => Reported(f, account, blocked, uploaded, e.at)
    case SetMode(safe) => f.(safe := safe)
    case _ => f
  }

  function SlotsAfter(c: Config, e: Moment): nat {
    match e.event
    case Request(_) => if SlotGranted(c.fleet, e.at) then c.slots + 1 else c.slots
    case Start(_) => Less(c.slots)
    case GiveUp => Less(c.slots)
    case _ => c.slots
  }

  function UploadSlotsAfter(c: Config, e: Moment): nat {
    match e.event
    case AskUpload => if UploadGranted(c.fleet, e.at) then c.uploadSlots + 1 else c.uploadSlots
    case DropUpload => Less(c.uploadSlots)
    case Report(_, _, uploaded) => if uploaded then Less(c.uploadSlots) else c.uploadSlots
    case _ => c.uploadSlots
  }

  function Next(c: Config, e: Moment): Config {
    Config(FleetAfter(c.fleet, e), SlotsAfter(c, e), UploadSlotsAfter(c, e), e.at, c.manual || e.event.SetMode?)
  }

  /** A session starts only on a slot, and at most m slots are out at any moment. */
  ghost predicate Legal(c: Config, e: Moment, m: nat) {
    && c.clock <= e.at
    && (e.event.Start? || e.event.GiveUp? ==> c.slots > 0)
    && SlotsAfter(c, e) <= m
  }

  ghost predicate Run(c: Config, es: seq<Moment>, c': Config, m: nat)
    decreases |es|
  {
    if |es| == 0 then c' == c else Legal(c, es[0], m) && Run(Next(c, es[0]), es[1..], c', m)
  }

  lemma {:induction false} RunJoins(c: Config, es: seq<Moment>, d: Config, es': seq<Moment>, c': Config, m: nat)
    requires Run(c, es, d, m) && Run(d, es', c', m)
    ensures Run(c, es + es', c', m)
    decreases |es|
  {
    if |es| == 0 {
      assert es + es' == es';
    } else {
      HeadJoins(es, es');
      RunJoins(Next(c, es[0]), es[1..], d, es', c', m);
    }
  }

  lemma OneMore(c0: Config, es: seq<Moment>, c: Config, e: Moment, m: nat) returns (es': seq<Moment>, c': Config)
    requires Run(c0, es, c, m) && Legal(c, e, m)
    ensures es' == es + [e] && c' == Next(c, e) && Run(c0, es', c', m)
  {
    es', c' := es + [e], Next(c, e);
    assert Run(c', [], c', m) && [e][1..] == [];
    RunJoins(c0, es, c, [e], c', m);
  }

  // ---- Sessions per minute ----

  ghost predicate StartsHold(c: Config, m: nat) {
    WindowsHold(c.fleet.starts, At(), c.slots, c.clock, SESSION_WINDOW, Closed, c.fleet.maxSessions - 1 + m)
  }

  lemma StartsStep(c: Config, e: Moment, m: nat)
    requires StartsHold(c, m) && Legal(c, e, m)
    ensures StartsHold(Next(c, e), m)
  {
    var log, bound := c.fleet.starts, c.fleet.maxSessions - 1 + m;
    if e.event.Start? {
      RecordingKeeps(log, e.at, At(), c.slots - 1, c.clock, SESSION_WINDOW, Closed, bound);
    } else if e.event.Request? && SlotGranted(c.fleet, e.at) {
      ClosedRoom(log, At(), e.at, SESSION_WINDOW, c.fleet.maxSessions);
      GrantingKeeps(log, At(), c.slots, c.clock, c.slots + 1, e.at, SESSION_WINDOW, Closed, c.fleet.maxSessions, m);
    } else {
      WaitingKeeps(log, At(), c.slots, c.clock, SlotsAfter(c, e), e.at, SESSION_WINDOW, Closed, bound);
    }
  }

  lemma {:induction false} StartsKept(c: Config, es: seq<Moment>, c': Config, m: nat)
    requires StartsHold(c, m) && Run(c, es, c', m)
    ensures StartsHold(c', m) && c'.fleet.maxSessions == c.fleet.maxSessions
    decreases |es|
  {
    if |es| > 0 {
      StartsStep(c, es[0], m);
      StartsKept(Next(c, es[0]), es[1..], c', m);
    }
  }

  /** With at most m slots out at any moment, no 60 seconds hold more than limit - 1 + m starts; one
      slot at a time, as in a batch, keeps exactly to the limit. */
  lemma StartsPerMinute(f: Fleet, now: real, es: seq<Moment>, c: Config, m: nat, from: real)
    requires f.starts == [] && m >= 1
    requires Run(Begin(f, now), es, c, m)
    ensures CountBy(c.fleet.starts, Window(At(), from, SESSION_WINDOW, Closed)) <= f.maxSessions - 1 + m
  {
    StartsKept(Begin(f, now), es, c, m);
  }

  // ---- Uploads per hour ----

  /** Every reported upload used a granted upload check, and at most m such checks are out at any moment. */
  ghost predicate UploadsChecked(c: Config, es: seq<Moment>, m: nat)
    decreases |es|
  {
    c.uploadSlots <= m
    && (|es| > 0 ==>
          && (es[0].event.DropUpload? || (es[0].event.Report? && es[0].event.uploaded) ==> c.uploadSlots > 0)
          && UploadsChecked(Next(c, es[0]), es[1..], m))
  }

  ghost predicate UploadsHold(c: Config, m: nat) {
    WindowsHold(c.fleet.uploads, At(), c.uploadSlots, c.clock, HOUR_WINDOW, Closed, c.fleet.maxUploads - 1 + m)
  }

  lemma UploadsFollow(f: Fleet, e: Moment)
    ensures FleetAfter(f, e).maxUploads == f.maxUploads
    ensures FleetAfter(f, e).uploads
            == if e.event.Report? && e.event.uploaded && e.event.account in f.accounts then f.uploads + [e.at] else f.uploads
  {
  }

  lemma UploadsStep(c: Config, e: Moment, m: nat)
    requires UploadsHold(c, m) && c.clock <= e.at && UploadSlotsAfter(c, e) <= m
    requires e.event.Report? && e.event.uploaded ==> c.uploadSlots > 0
    ensures UploadsHold(Next(c, e), m)
  {
    var log, bound, out' := c.fleet.uploads, c.fleet.maxUploads - 1 + m, UploadSlotsAfter(c, e);
    UploadsFollow(c.fleet, e);
    if e.event.Report? && e.event.uploaded && e.event.account in c.fleet.accounts {
      RecordingKeeps(log, e.at, At(), out', c.clock, HOUR_WINDOW, Closed, bound);
    } else if e.event.AskUpload? && UploadGranted(c.fleet, e.at) {
      ClosedRoom(log, At(), e.at, HOUR_WINDOW, c.fleet.maxUploads);
      GrantingKeeps(log, At(), c.uploadSlots, c.clock, out', e.at, HOUR_WINDOW, Closed, c.fleet.maxUploads, m);
    } else {
      WaitingKeeps(log, At(), c.uploadSlots, c.clock, out', e.at, HOUR_WINDOW, Closed, bound);
    }
  }

  lemma {:induction false} UploadsKept(c: Config, es: seq<Moment>, c': Config, k: nat, m: nat)
    requires UploadsHold(c, m) && Run(c, es, c', k) && UploadsChecked(c, es, m)
    ensures UploadsHold(c', m) && c'.fleet.maxUploads == c.fleet.maxUploads
    decreases |es|
  {
    if |es| > 0 {
      UploadsStep(c, es[0], m);
      UploadsKept(Next(c, es[0]), es[1..], c', k, m);
    }
  }

  /** If every upload was checked before and at most m checks are out at any moment, no hour holds more
      than limit - 1 + m counted uploads. */
  lemma UploadsPerHour(f: Fleet, now: real, es: seq<Moment>, c: Config, k: nat, m: nat, from: real)
    requires f.uploads == [] && m >= 1
    requires Run(Begin(f, now), es, c, k) && UploadsChecked(Begin(f, now), es, m)
    ensures CountBy(c.fleet.uploads, Window(At(), from, HOUR_WINDOW, Closed)) <= f.maxUploads - 1 + m
  {
    UploadsKept(Begin(f, now), es, c, k, m);
  }

  // ---- Bans ----

  function InClosedHour(from: real): real -> bool { Window(At(), from, HOUR_WINDOW, Closed) }

  /** No closed hour holds as many bans as the threshold, unless it holds none at all. */
  ghost predicate Quiet(bans: seq<real>, threshold: nat) {
    forall x: real :: CountBy(bans, InClosedHour(x)) < threshold || CountBy(bans, InClosedHour(x)) == 0
  }

  /** In normal mode no hour of bans has reached the threshold. */
  ghost predicate BansHold(c: Config) {
    NoneAfter(c.fleet.bans, At(), c.clock) && (!c.manual && !c.fleet.safe ==> Quiet(c.fleet.bans, c.fleet.banThreshold))
  }

  lemma CountedBanKeepsQuiet(bans: seq<real>, now: real, threshold: nat)
    requires Quiet(bans, threshold) && InWindow(bans + [now], now, HOUR_WINDOW) < threshold
    ensures Quiet(bans + [now], threshold)
  {
    var bans' := bans + [now];
    forall x: real ensures CountBy(bans', InClosedHour(x)) < threshold || CountBy(bans', InClosedHour(x)) == 0 {
      CountAppend(bans, now, InClosedHour(x));
      if InClosedHour(x)(now) {
        CountPointwise(bans', bans', InClosedHour(x), Since(At(), now - HOUR_WINDOW));
      }
    }
  }

  lemma BansFollow(f: Fleet, e: Moment)
    ensures var f' := FleetAfter(f, e);
            && f'.banThreshold == f.banThreshold && (f'.bans == f.bans || f'.bans == f.bans + [e.at])
            && (f'.bans != f.bans && !f'.safe ==> InWindow(f'.bans, e.at, HOUR_WINDOW) < f.banThreshold)
            && (!e.event.SetMode? && !f'.safe ==> !f.safe)
  {
  }

  lemma BanStep(c: Config, e: Moment)
    requires BansHold(c) && c.clock <= e.at
    ensures BansHold(Next(c, e))
  {
    BansFollow(c.fleet, e);
    var c' := Next(c, e);
    if c'.fleet.bans != c.fleet.bans && !c'.manual && !c'.fleet.safe {
      CountedBanKeepsQuiet(c.fleet.bans, e.at, c.fleet.banThreshold);
    }
  }

  lemma {:induction false} BansKept(c: Config, es: seq<Moment>, c': Config, m: nat)
    requires BansHold(c) && Run(c, es, c', m)
    ensures BansHold(c') && c'.fleet.banThreshold == c.fleet.banThreshold
    decreases |es|
  {
    if |es| > 0 {
      BanStep(c, es[0]);
      BansKept(Next(c, es[0]), es[1..], c', m);
    }
  }

  /** If nobody ever set the mode by hand and it is normal, no hour of counted bans, past or
      present, reached the threshold. */
  lemma NormalMeansNoSpike(f: Fleet, now: real, es: seq<Moment>, c: Config, m: nat, from: real)
    requires f.bans == [] && f.banThreshold > 0
    requires Run(Begin(f, now), es, c, m)
    requires !c.manual && !c.fleet.safe
    ensures CountBy(c.fleet.bans, InClosedHour(from)) < f.banThreshold
  {
    BansKept(Begin(f, now), es, c, m);
  }

  // ---- Safe mode ----

  ghost predicate NoManualReset(es: seq<Moment>) {
    forall e :: e in es ==> !e.event.SetMode? || e.event.safe
  }

  /** Once safe the fleet stays safe until a manual reset: no slot and no upload is granted, and only
      the slots already out can still turn into starts. */
  lemma {:induction false} SafeStays(c: Config, es: seq<Moment>, c': Config, m: nat)
    requires Run(c, es, c', m) && c.fleet.safe && NoManualReset(es)
    ensures c'.fleet.safe
    ensures forall now :: !SlotGranted(c'.fleet, now) && !UploadGranted(c'.fleet, now)
    ensures |c'.fleet.starts| + c'.slots <= |c.fleet.starts| + c.slots
    decreases |es|
  {
    if |es| > 0 {
      assert es[0] in es;
      assert NoManualReset(es[1..]);
      SafeStays(Next(c, es[0]), es[1..], c', m);
    }
  }

  // ---- Batches ----

  /** What a session reports; plan is the fingerprint of what it did. */
  datatype Outcome = Outcome(blocked: bool, uploaded: bool, plan: string)

  /** One account of a batch: whether it has signals, when it asks, starts and ends, and its outcome;
      None when the session fails with an exception. */
  datatype Attempt = Attempt(account: string, signals: bool, askAt: real, startAt: real, endAt: real, outcome: Option<Outcome>)

  function Attempted(f: Fleet, a: Attempt): Fleet {
    if !a.signals then f
    else
      var asked := f.(accounts := f.accounts + {a.account});
      if !SlotGranted(f, a.askAt) then asked
      else
        var started := Started(asked, a.account, a.startAt);
        match a.outcome
        case None => started
        case Some(o) => Reported(started, a.account, o.blocked, o.uploaded, a.endAt)
  }

  function Batch(f: Fleet, attempts: seq<Attempt>): Fleet {
    if |attempts| == 0 then f else Attempted(Batch(f, attempts[..|attempts| - 1]), attempts[|attempts| - 1])
  }

  /** The outcome an attempt adds to the batch's results: only a session that had signals, got a slot
      and did not fail. */
  function ResultOf(f: Fleet, a: Attempt): seq<Outcome> {
    if a.signals && SlotGranted(f, a.askAt) && a.outcome.Some? then [a.outcome.value] else []
  }

  function Results(f: Fleet, attempts: seq<Attempt>): seq<Outcome> {
    if |attempts| == 0 then []
    else
      var n := |attempts| - 1;
      Results(f, attempts[..n]) + ResultOf(Batch(f, attempts[..n]), attempts[n])
  }

  /** The instants of a batch follow one another, from the given one on. */
  ghost predicate InOrder(now: real, attempts: seq<Attempt>) {
    && (forall i :: 0 <= i < |attempts| ==> now <= attempts[i].askAt <= attempts[i].startAt <= attempts[i].endAt)
    && (forall i, j :: 0 <= i < j < |attempts| ==> attempts[i].endAt <= attempts[j].askAt)
  }

  lemma AttemptRuns(c: Config, a: Attempt) returns (es: seq<Moment>, c': Config)
    requires c.slots == 0 && c.clock <= a.askAt <= a.startAt <= a.endAt
    ensures Run(c, es, c', 1) && c'.fleet == Attempted(c.fleet, a) && c'.slots == 0 && c'.clock <= a.endAt
  {
    es, c' := [], c;
    if a.signals {
      es, c' := OneMore(c, es, c', Moment(a.askAt, Request(a.account)), 1);
      if SlotGranted(c.fleet, a.askAt) {
        es, c' := OneMore(c, es, c', Moment(a.startAt, Start(a.account)), 1);
        if a.outcome.Some? {
          var o := a.outcome.value;
          es, c' := OneMore(c, es, c', Moment(a.endAt, Report(a.account, o.blocked, o.uploaded)), 1);
        }
      }
    }
  }

  /** A batch is a run in which at most one slot is out. */
  lemma {:induction false} BatchRuns(c: Config, attempts: seq<Attempt>) returns (es: seq<Moment>, c': Config)
    requires c.slots == 0 && InOrder(c.clock, attempts)
    ensures Run(c, es, c', 1) && c'.fleet == Batch(c.fleet, attempts) && c'.slots == 0
    ensures c'.clock == c.clock || exists i :: 0 <= i < |attempts| && c'.clock <= attempts[i].endAt
  {
    if |attempts| == 0 {
      es, c' := [], c;
    } else {
      var n := |attempts| - 1;
      var es0, d := BatchRuns(c, attempts[..n]);
      var es1;
      es1, c' := AttemptRuns(d, attempts[n]);
      RunJoins(c, es0, d, es1, c', 1);
      es := es0 + es1;
    }
  }

  /** Whatever one-slot run came before, other batches included, a sequential batch never makes any
      60 seconds hold more starts than the limit. */
  lemma BatchKeepsLimit(f: Fleet, now: real, es: seq<Moment>, c: Config, attempts: seq<Attempt>, from: real)
    requires f.starts == [] && Run(Begin(f, now), es, c, 1) && c.slots == 0 && InOrder(c.clock, attempts)
    ensures CountBy(Batch(c.fleet, attempts).starts, Window(At(), from, SESSION_WINDOW, Closed)) <= f.maxSessions
  {
    var es', c' := BatchRuns(c, attempts);
    RunJoins(Begin(f, now), es, c, es', c', 1);
    StartsPerMinute(f, now, es + es', c', 1, from);
  }

  // ---- The bounds are reached ----

  ghost predicate AllZero(log: seq<real>) { forall i :: 0 <= i < |log| ==> log[i] == 0.0 }

  lemma AllAtZero(log: seq<real>, length: real)
    requires AllZero(log) && length >= 0.0
    ensures CountBy(log, Window(At(), 0.0, length, Closed)) == |log|
    ensures InWindow(log, 0.0, length) == |log|
  {
    AllInWindow(log, At(), 0.0, length);
    AllSince(log, At(), -length);
  }

  /** At instant 0 a fresh fleet has started k sessions, and j slots are out. */
  ghost predicate Starting(f: Fleet, es: seq<Moment>, c: Config, m: nat, k: nat, j: nat) {
    && Run(Begin(f, 0.0), es, c, m) && c.clock == 0.0 && !c.fleet.safe && c.fleet.maxSessions == f.maxSessions
    && |c.fleet.starts| == k && AllZero(c.fleet.starts) && c.slots == j
  }

  lemma {:induction false} Requests(f: Fleet, es0: seq<Moment>, c0: Config, m: nat, k: nat, j: nat) returns (es: seq<Moment>, c: Config)
    requires Starting(f, es0, c0, m, k, 0) && k < f.maxSessions && j <= m
    ensures Starting(f, es, c, m, k, j)
  {
    es, c := es0, c0;
    if j > 0 {
      es, c := Requests(f, es0, c0, m, k, j - 1);
      AllAtZero(c.fleet.starts, SESSION_WINDOW);
      es, c := OneMore(Begin(f, 0.0), es, c, Moment(0.0, Request("a")), m);
    }
  }

  lemma {:induction false} Starts(f: Fleet, es0: seq<Moment>, c0: Config, m: nat, k: nat, j: nat) returns (es: seq<Moment>, c: Config)
    requires Starting(f, es0, c0, m, k, j) && j <= m
    ensures Starting(f, es, c, m, k + j, 0)
    decreases j
  {
    es, c := es0, c0;
    if j > 0 {
      es, c := OneMore(Begin(f, 0.0), es, c, Moment(0.0, Start("a")), m);
      es, c := Starts(f, es, c, m, k + 1, j - 1);
    }
  }

  lemma {:induction false} OneByOne(f: Fleet, m: nat, k: nat) returns (es: seq<Moment>, c: Config)
    requires f.starts == [] && !f.safe && k < f.maxSessions && m >= 1
    ensures Starting(f, es, c, m, k, 0)
  {
    es, c := [], Begin(f, 0.0);
    if k > 0 {
      es, c := OneByOne(f, m, k - 1);
      es, c := Requests(f, es, c, m, k - 1, 1);
      es, c := Starts(f, es, c, m, k - 1, 1);
    }
  }

  /** For every limit and every m some run with m slots out starts limit - 1 + m sessions within a minute. */
  lemma StartsBoundIsReached(f: Fleet, m: nat) returns (es: seq<Moment>, c: Config)
    requires f.starts == [] && !f.safe && f.maxSessions >= 1 && m >= 1
    ensures Run(Begin(f, 0.0), es, c, m)
    ensures CountBy(c.fleet.starts, Window(At(), 0.0, SESSION_WINDOW, Closed)) == f.maxSessions - 1 + m
  {
    es, c := OneByOne(f, m, f.maxSessions - 1);
    es, c := Requests(f, es, c, m, f.maxSessions - 1, m);
    es, c := Starts(f, es, c, m, f.maxSessions - 1, m);
    AllAtZero(c.fleet.starts, SESSION_WINDOW);
  }

  // ---- A batch does not check uploads ----

  /** A batch takes the accounts of a dictionary, each once. */
  ghost predicate OneEach(attempts: seq<Attempt>) {
    forall i, j :: 0 <= i < j < |attempts| ==> attempts[i].account != attempts[j].account
  }

  /** At most one upload of the hour has no start of its own in it. */
  ghost predicate Followed(uploads: seq<real>, starts: seq<real>, from: real) {
    CountBy(uploads, InClosedHour(from)) <= CountBy(starts, InClosedHour(from)) + 1
  }

  lemma StartFollowed(uploads: seq<real>, starts: seq<real>, from: real, startAt: real)
    requires Followed(uploads, starts, from)
    ensures Followed(uploads, starts + [startAt], from)
  {
    CountAppend(starts, startAt, InClosedHour(from));
  }

  lemma NoneBefore(uploads: seq<real>, from: real, now: real)
    requires NoneAfter(uploads, At(), now) && now < from
    ensures CountBy(uploads, InClosedHour(from)) == 0
  {
    assert forall i :: 0 <= i < |uploads| ==> uploads[i] in uploads;
    NoneInWindow(uploads, At(), from, HOUR_WINDOW, Closed);
  }

  /** One more session uploads at its end; if it started before the hour, nothing else was uploaded in it yet. */
  lemma UploadFollowed(uploads: seq<real>, starts: seq<real>, from: real, askAt: real, startAt: real, endAt: real)
    requires askAt <= startAt <= endAt && NoneAfter(uploads, At(), askAt) && Followed(uploads, starts, from)
    ensures Followed(uploads + [endAt], starts + [startAt], from)
  {
    CountAppend(starts, startAt, InClosedHour(from));
    CountAppend(uploads, endAt, InClosedHour(from));
    if startAt < from {
      NoneBefore(uploads, from, askAt);
    }
  }

  /** What an attempt adds to the histories. */
  lemma AttemptedLogs(f: Fleet, a: Attempt)
    ensures var f' := Attempted(f, a);
            || (f'.starts == f.starts && f'.uploads == f.uploads)
            || (f'.starts == f.starts + [a.startAt] && (f'.uploads == f.uploads || f'.uploads == f.uploads + [a.endAt]))
  {
  }

  lemma LaterNone(uploads: seq<real>, now: real, later: real)
    requires NoneAfter(uploads, At(), now) && now <= later
    ensures NoneAfter(uploads, At(), later) && NoneAfter(uploads + [later], At(), later)
  {
  }

  lemma AttemptUploads(f: Fleet, a: Attempt, from: real)
    requires a.askAt <= a.startAt <= a.endAt && NoneAfter(f.uploads, At(), a.askAt) && Followed(f.uploads, f.starts, from)
    ensures NoneAfter(Attempted(f, a).uploads, At(), a.endAt) && Followed(Attempted(f, a).uploads, Attempted(f, a).starts, from)
  {
    AttemptedLogs(f, a);
    LaterNone(f.uploads, a.askAt, a.endAt);
    StartFollowed(f.uploads, f.starts, from, a.startAt);
    UploadFollowed(f.uploads, f.starts, from, a.askAt, a.startAt, a.endAt);
  }

  /** In a batch at most one upload of an hour belongs to a session that started before it. */
  lemma {:induction false} UploadsFollowStarts(f: Fleet, now: real, attempts: seq<Attempt>, from: real)
    requires f.uploads == [] && InOrder(now, attempts)
    ensures var f' := Batch(f, attempts);
            && NoneAfter(f'.uploads, At(), if |attempts| == 0 then now else attempts[|attempts| - 1].endAt)
            && Followed(f'.uploads, f'.starts, from)
  {
    if |attempts| > 0 {
      var n := |attempts| - 1;
      var prev := Batch(f, attempts[..n]);
      UploadsFollowStarts(f, now, attempts[..n], from);
      LaterNone(prev.uploads, if n == 0 then now else attempts[n - 1].endAt, attempts[n].askAt);
      AttemptUploads(prev, attempts[n], from);
    }
  }

  lemma {:induction false} NothingStarts(f: Fleet, attempts: seq<Attempt>)
    requires f.maxSessions == 0
    ensures Batch(f, attempts).uploads == f.uploads && Batch(f, attempts).maxSessions == 0
  {
    if |attempts| > 0 {
      NothingStarts(f, attempts[..|attempts| - 1]);
    }
  }

  lemma BatchHour(f: Fleet, now: real, attempts: seq<Attempt>, from: real)
    requires f.starts == [] && f.uploads == [] && InOrder(now, attempts)
    ensures CountBy(Batch(f, attempts).uploads, InClosedHour(from)) <= 60 * f.maxSessions + 1
  {
    UploadsFollowStarts(f, now, attempts, from);
    forall x: real ensures CountBy(Batch(f, attempts).starts, Window(At(), x, SESSION_WINDOW, Closed)) <= f.maxSessions {
      BatchKeepsLimit(f, now, [], Begin(f, now), attempts, x);
    }
    LongClosedWindow(Batch(f, attempts).starts, At(), from, SESSION_WINDOW, f.maxSessions, 60, HOUR_WINDOW);
  }

  function Label(n: nat): (s: string)
    ensures |s| == n
  {
    seq(n, i => 'a')
  }

  /** A session that starts when it asks and ends with an upload. */
  function Busy(n: nat, at: real, endAt: real): Attempt { Attempt(Label(n), true, at, at, endAt, Some(Outcome(false, true, ""))) }

  /** Bursts of sessions a little more than a minute apart. */
  function BurstAt(b: nat): real { b as real * 60.5 }

  /** The accounts are numbered by the lengths of their names, and everything is over at the instant given. */
  ghost predicate Numbered(attempts: seq<Attempt>, now: real) {
    && InOrder(0.0, attempts)
    && forall i :: 0 <= i < |attempts| ==> |attempts[i].account| == i && attempts[i].endAt <= now
  }

  /** Everything uploaded, the first session at instant 30, the others in b bursts, of the last of which j have started. */
  ghost predicate Bursting(f0: Fleet, attempts: seq<Attempt>, b: nat, j: nat) {
    && Numbered(attempts, BurstAt(b)) && !Batch(f0, attempts).safe && Batch(f0, attempts).maxSessions == f0.maxSessions
    && BurstLogs(Batch(f0, attempts).starts, Batch(f0, attempts).uploads, BurstAt(b), j, |attempts|)
  }

  ghost predicate BurstLogs(starts: seq<real>, uploads: seq<real>, now: real, j: nat, n: nat) {
    && NoneAfter(starts, At(), now) && InWindow(starts, now, SESSION_WINDOW) == j
    && |uploads| == n && forall i :: 0 <= i < |uploads| ==> 30.0 <= uploads[i] <= now
  }

  lemma BatchAppend(f: Fleet, attempts: seq<Attempt>, a: Attempt)
    ensures Batch(f, attempts + [a]) == Attempted(Batch(f, attempts), a)
  {
    assert (attempts + [a])[..|attempts|] == attempts;
  }

  lemma NumberedAppend(attempts: seq<Attempt>, a: Attempt, now: real)
    requires Numbered(attempts, now) && |a.account| == |attempts| && 0.0 <= now == a.askAt == a.startAt == a.endAt
    ensures Numbered(attempts + [a], now)
  {
  }

  lemma NumberedIsOneEach(attempts: seq<Attempt>, now: real)
    requires Numbered(attempts, now)
    ensures OneEach(attempts)
  {
    forall i, j | 0 <= i < j < |attempts| ensures attempts[i].account != attempts[j].account {
      assert |attempts[i].account| == i && |attempts[j].account| == j;
    }
  }

  lemma BusyAttempted(f: Fleet, n: nat, at: real, endAt: real)
    requires SlotGranted(f, at)
    ensures var f' := Attempted(f, Busy(n, at, endAt));
            !f'.safe && f'.maxSessions == f.maxSessions && f'.starts == f.starts + [at] && f'.uploads == f.uploads + [endAt]
  {
  }

  lemma BurstLogsAppend(starts: seq<real>, uploads: seq<real>, now: real, j: nat, n: nat)
    requires BurstLogs(starts, uploads, now, j, n) && now >= 30.0
    ensures BurstLogs(starts + [now], uploads + [now], now, j + 1, n + 1)
  {
    CountAppend(starts, now, Since(At(), now - SESSION_WINDOW));
  }

  lemma FirstLogs(now: real)
    requires now > 60.0
    ensures BurstLogs([] + [0.0], [] + [30.0], now, 0, 1)
  {
    AllBefore([] + [0.0], At(), now - SESSION_WINDOW);
  }

  lemma BusyBatch(f0: Fleet, attempts: seq<Attempt>, n: nat, at: real, endAt: real)
    requires SlotGranted(Batch(f0, attempts), at)
    ensures var f, f' := Batch(f0, attempts), Batch(f0, attempts + [Busy(n, at, endAt)]);
            !f'.safe && f'.maxSessions == f.maxSessions && f'.starts == f.starts + [at] && f'.uploads == f.uploads + [endAt]
  {
    BatchAppend(f0, attempts, Busy(n, at, endAt));
    BusyAttempted(Batch(f0, attempts), n, at, endAt);
  }

  lemma FirstNumbered(now: real)
    requires now >= 30.0
    ensures Numbered([] + [Busy(0, 0.0, 30.0)], now)
  {
  }

  lemma FirstBusy(f0: Fleet)
    requires f0.starts == [] && f0.uploads == [] && !f0.safe && f0.maxSessions > 0
    ensures Bursting(f0, [] + [Busy(0, 0.0, 30.0)], 1, 0)
  {
    BusyBatch(f0, [], 0, 0.0, 30.0);
    FirstNumbered(BurstAt(1));
    FirstLogs(BurstAt(1));
  }

  lemma NextBusy(f0: Fleet, attempts: seq<Attempt>, b: nat, j: nat, t: real)
    requires Bursting(f0, attempts, b, j) && j < f0.maxSessions && b > 0 && t == BurstAt(b)
    ensures Bursting(f0, attempts + [Busy(|attempts|, t, t)], b, j + 1)
  {
    var f := Batch(f0, attempts);
    BusyBatch(f0, attempts, |attempts|, t, t);
    NumberedAppend(attempts, Busy(|attempts|, t, t), t);
    BurstLogsAppend(f.starts, f.uploads, t, j, |attempts|);
  }

  lemma LogsLater(starts: seq<real>, uploads: seq<real>, now: real, later: real, j: nat, n: nat)
    requires BurstLogs(starts, uploads, now, j, n) && later > now + SESSION_WINDOW
    ensures BurstLogs(starts, uploads, later, 0, n)
  {
    assert forall i :: 0 <= i < |starts| ==> starts[i] in starts;
    AllBefore(starts, At(), later - SESSION_WINDOW);
  }

  lemma NextBurst(f0: Fleet, attempts: seq<Attempt>, b: nat, j: nat)
    requires Bursting(f0, attempts, b, j)
    ensures Bursting(f0, attempts, b + 1, 0)
  {
    LogsLater(Batch(f0, attempts).starts, Batch(f0, attempts).uploads, BurstAt(b), BurstAt(b + 1), j, |attempts|);
  }

  lemma {:induction false} FillBurst(f0: Fleet, attempts0: seq<Attempt>, b: nat, j: nat) returns (attempts: seq<Attempt>)
    requires Bursting(f0, attempts0, b, 0) && j <= f0.maxSessions && b > 0
    ensures Bursting(f0, attempts, b, j) && |attempts| == |attempts0| + j
  {
    attempts := attempts0;
    if j > 0 {
      attempts := FillBurst(f0, attempts0, b, j - 1);
      var t := BurstAt(b);
      NextBusy(f0, attempts, b, j - 1, t);
      attempts := attempts + [Busy(|attempts|, t, t)];
    }
  }

  lemma FirstBurst(f0: Fleet) returns (attempts: seq<Attempt>)
    requires f0.starts == [] && f0.uploads == [] && !f0.safe && f0.maxSessions > 0
    ensures Bursting(f0, attempts, 1, 0) && |attempts| == 1
  {
    FirstBusy(f0);
    attempts := [] + [Busy(0, 0.0, 30.0)];
  }

  /** b times n, by addition. */
  function Many(b: nat, n: nat): nat {
    if b == 0 then 0 else Many(b - 1, n) + n
  }

  lemma {:induction false} ManyIs(b: nat, n: nat)
    ensures Many(b, n) == b * n
  {
    if b > 0 {
      ManyIs(b - 1, n);
      OneMoreTimes(b, n);
    }
  }

  lemma OneMoreTimes(b: nat, n: nat)
    requires b > 0
    ensures b * n == (b - 1) * n + n
  {
  }

  lemma {:induction false} Bursts(f0: Fleet, b: nat) returns (attempts: seq<Attempt>)
    requires f0.starts == [] && f0.uploads == [] && !f0.safe && f0.maxSessions > 0 && b > 0
    ensures Bursting(f0, attempts, b, f0.maxSessions) && |attempts| == Many(b, f0.maxSessions) + 1
  {
    if b == 1 {
      attempts := FirstBurst(f0);
      assert Many(1, f0.maxSessions) == f0.maxSessions;
    } else {
      attempts := Bursts(f0, b - 1);
      NextBurst(f0, attempts, b - 1, f0.maxSessions);
    }
    attempts := FillBurst(f0, attempts, b, f0.maxSessions);
  }

  /** A batch of a fresh fleet that records sixty times the session limit and one upload in an hour. */
  lemma BatchHourIsReached(f: Fleet) returns (attempts: seq<Attempt>)
    requires f.starts == [] && f.uploads == [] && !f.safe && f.maxSessions > 0
    ensures InOrder(0.0, attempts) && OneEach(attempts)
    ensures CountBy(Batch(f, attempts).uploads, InClosedHour(30.0)) == 60 * f.maxSessions + 1
  {
    var many := 60;
    attempts := Bursts(f, many);
    ManyIs(many, f.maxSessions);
    NumberedIsOneEach(attempts, BurstAt(many));
    assert BurstAt(many) == 30.0 + HOUR_WINDOW;
    AllInWindow(Batch(f, attempts).uploads, At(), 30.0, HOUR_WINDOW);
  }

  /** No batch of a fresh fleet with these limits ever records more uploads in an hour than allowed. */
  ghost predicate BatchesKeepUploads(maxSessions: nat, maxUploads: nat, banThreshold: nat) {
    forall now: real, attempts: seq<Attempt>, from: real :: InOrder(now, attempts) && OneEach(attempts)
      ==> CountBy(Batch(NewFleet(maxSessions, maxUploads, banThreshold), attempts).uploads, InClosedHour(from)) <= maxUploads
  }

  /** No upload of a batch is ever checked: the hourly limit holds exactly if there are no sessions at all or
      it exceeds what sixty minutes of sessions, and one from before, can upload. */
  lemma BatchUploadLimitIff(maxSessions: nat, maxUploads: nat, banThreshold: nat)
    ensures BatchesKeepUploads(maxSessions, maxUploads, banThreshold) <==> maxSessions == 0 || maxUploads >= 60 * maxSessions + 1
  {
    var f := NewFleet(maxSessions, maxUploads, banThreshold);
    if maxSessions == 0 || maxUploads >= 60 * maxSessions + 1 {
      forall now: real, attempts: seq<Attempt>, from: real | InOrder(now, attempts) && OneEach(attempts)
        ensures CountBy(Batch(f, attempts).uploads, InClosedHour(from)) <= maxUploads
      {
        if maxSessions == 0 {
          NothingStarts(f, attempts);
        } else {
          BatchHour(f, now, attempts, from);
        }
      }
    } else {
      var attempts := BatchHourIsReached(f);
      assert CountBy(Batch(f, attempts).uploads, InClosedHour(30.0)) > maxUploads;
    }
  }

  // ---- Staggering and diversity ----

  /** The delay of a granted slot, read off a hash of the account and the minute. */
  function Stagger(seed: (string, int) -> real, account: string, minute: int, lo: real, hi: real): real {
    lo + seed(account, minute) * (hi - lo)
  }

  lemma EndsOfScale(x: real, d: real)
    ensures x == 0.0 ==> x * d == 0.0
    ensures x == 1.0 ==> x * d == d
  {
  }

  lemma StaggerGrows(x: real, y: real, d: real)
    requires x <= y && d >= 0.0
    ensures x * d <= y * d
  {
    RealMono(x, y, d);
    assert d * x == x * d && d * y == y * d;
  }

  lemma StaggerOf(x: real, lo: real, hi: real, delay: real)
    requires 0.0 <= x <= 1.0 && lo <= hi && delay == lo + x * (hi - lo)
    ensures lo <= delay <= hi && (x == 0.0 ==> delay == lo) && (x == 1.0 ==> delay == hi)
  {
    EndsOfScale(x, hi - lo);
    var d := hi - lo;
    NonNegativeProduct(x, d);
    NonNegativeProduct(1.0 - x, d);
    assert (1.0 - x) * d == d - x * d;
  }

  /** The delay lies between the two bounds, at the lower one for the draw 0 and at the upper one for 1. */
  lemma StaggerWithin(seed: (string, int) -> real, account: string, minute: int, lo: real, hi: real)
    requires 0.0 <= seed(account, minute) <= 1.0 && lo <= hi
    ensures lo <= Stagger(seed, account, minute, lo, hi) <= hi
    ensures seed(account, minute) == 0.0 ==> Stagger(seed, account, minute, lo, hi) == lo
    ensures seed(account, minute) == 1.0 ==> Stagger(seed, account, minute, lo, hi) == hi
  {
    StaggerOf(seed(account, minute), lo, hi, Stagger(seed, account, minute, lo, hi));
  }

  /** A larger draw never shortens the delay. */
  lemma LargerDrawWaitsLonger(seed: (string, int) -> real, a: string, m: int, b: string, n: int, lo: real, hi: real)
    requires seed(a, m) <= seed(b, n) && lo <= hi
    ensures Stagger(seed, a, m, lo, hi) <= Stagger(seed, b, n, lo, hi)
  {
    StaggerGrows(seed(a, m), seed(b, n), hi - lo);
  }

  function Is(x: string): string -> bool { (y: string) => y == x }

  /** How often the most common plan among the first n occurs in all of them. */
  function TopCount(plans: seq<string>, n: nat): (k: nat)
    requires n <= |plans|
  {
    if n == 0 then 0
    else
      var k, here := TopCount(plans, n - 1), CountBy(plans, Is(plans[n - 1]));
      if here > k then here else k
  }

  /** The share of the most common plan. */
  function Similarity(plans: seq<string>): real
    requires |plans| > 0
  {
    TopCount(plans, |plans|) as real / |plans| as real
  }

  lemma {:induction false} IsCounts(plans: seq<string>, x: string)
    ensures CountBy(plans, Is(x)) == multiset(plans)[x]
  {
    if |plans| > 0 {
      var n := |plans| - 1;
      IsCounts(plans[..n], x);
      assert plans == plans[..n] + [plans[n]];
    }
  }

  /** No plan occurs more often. */
  lemma TopIsMost(plans: seq<string>)
    requires |plans| > 0
    ensures forall x :: multiset(plans)[x] <= TopCount(plans, |plans|)
    ensures exists x :: x in plans && multiset(plans)[x] == TopCount(plans, |plans|)
  {
    forall x ensures multiset(plans)[x] <= TopCount(plans, |plans|) {
      if x in plans {
        var i :| 0 <= i < |plans| && plans[i] == x;
        TopCountIsMost(plans, |plans|, i);
        IsCounts(plans, x);
      }
    }
    TopCountIsMost(plans, |plans|, 0);
    var j :| 0 <= j < |plans| && TopCount(plans, |plans|) == CountBy(plans, Is(plans[j]));
    IsCounts(plans, plans[j]);
  }

  lemma {:induction false} TopCountIsMost(plans: seq<string>, n: nat, i: nat)
    requires i < n <= |plans|
    ensures CountBy(plans, Is(plans[i])) <= TopCount(plans, n)
    ensures exists j :: 0 <= j < n && TopCount(plans, n) == CountBy(plans, Is(plans[j]))
  {
    if n == 1 {
      assert TopCount(plans, 1) == CountBy(plans, Is(plans[0]));
    } else if i < n - 1 {
      TopCountIsMost(plans, n - 1, i);
    } else {
      TopCountIsMost(plans, n - 1, 0);
    }
  }
}
