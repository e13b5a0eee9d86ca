/** The fleet upload throttle of core/cross_account_coordinator.py as a check-then-record protocol
    run by many jobs at once. `now` is the monotonic clock, `today` the UTC day number. */
module UploadThrottles {
  import opened Sequences
  import opened SlidingWindows
  import opened DailyCaps

  const UPLOAD_WINDOW := 600.0
  const UPLOAD_MAX_IN_WINDOW := 5
  const HOURLY_WINDOW := 3600.0
  const UPLOAD_MAX_PER_HOUR := 10
  const MAX_UPLOADS_PER_ACCOUNT_PER_DAY := 1
  const HISTORY_CAP := 200

  function Ts(): Stamp -> real { (u: Stamp) => u.ts }

  function WithinLast(now: real, window: real): Stamp -> bool { (u: Stamp) => now - u.ts <= window }

  /** The two fleet windows, on any record of uploads. */
  function FleetAllows(uploads: seq<Stamp>, now: real): bool {
    && CountBy(uploads, WithinLast(now, UPLOAD_WINDOW)) < UPLOAD_MAX_IN_WINDOW
    && CountBy(uploads, WithinLast(now, HOURLY_WINDOW)) < UPLOAD_MAX_PER_HOUR
  }

  function CanUpload(c: Counter, account: string, now: real, today: int): bool {
    FleetAllows(c.log, now) && CountToday(c, account, today) < MAX_UPLOADS_PER_ACCOUNT_PER_DAY
  }

  /** A check that gets as far as the account's own cap opens the account's counter for the day. */
  function Asked(c: Counter, account: string, now: real, today: int): Counter {
    if FleetAllows(c.log, now) then Opened(c, account, today) else c
  }

  // ---- The bounded history decides like the unbounded one ----

  lemma WithinLastIsSince(log: seq<Stamp>, now: real, window: real)
    ensures CountBy(log, WithinLast(now, window)) == CountBy(log, Since(Ts(), now - window))
  {
    CountPointwise(log, log, WithinLast(now, window), Since(Ts(), now - window));
    CountPointwise(log, log, Since(Ts(), now - window), WithinLast(now, window));
  }

  lemma LatestCount(log: seq<Stamp>, now: real, window: real)
    requires Chronological(log, Ts()) && |log| > HISTORY_CAP
    ensures CountBy(Latest(log, HISTORY_CAP), WithinLast(now, window))
            == if CountBy(log, WithinLast(now, window)) <= HISTORY_CAP then CountBy(log, WithinLast(now, window)) else HISTORY_CAP
  {
    WithinLastIsSince(log, now, window);
    WithinLastIsSince(Latest(log, HISTORY_CAP), now, window);
    CountOfLatest(log, Ts(), |log| - HISTORY_CAP, now - window);
  }

  /** Keeping only the latest two hundred uploads never changes a decision. */
  lemma BoundedHistoryDecidesAlike(log: seq<Stamp>, now: real)
    requires Chronological(log, Ts())
    ensures FleetAllows(Latest(log, 200), now) == FleetAllows(log, now)
  {
    if |log| > HISTORY_CAP {
      LatestCount(log, now, UPLOAD_WINDOW);
      LatestCount(log, now, HOURLY_WINDOW);
    }
  }

  // ---- The protocol ----

  /** A job asks, and later ends; held says whether it holds an approval, and only then may it upload. */
  datatype Event = Ask(account: string) | End(account: string, held: bool, uploaded: bool)

  datatype Moment = Moment(now: real, today: int, event: Event)

  /** pending counts the approvals given and not yet ended, per account: one account may hold several. */
  datatype Config = Config(counter: Counter, pending: multiset<string>, clock: real, day: int)

  function Initial(now: real, today: int): Config { Config(Counter([], map[], map[]), multiset{}, now, today) }

  ghost predicate Legal(c: Config, e: Moment) {
    && c.clock <= e.now && c.day <= e.today
    && (e.event.End? ==> (e.event.uploaded ==> e.event.held) && (e.event.held ==> e.event.account in c.pending))
  }

  function PendingAfter(c: Config, e: Moment): multiset<string> {
    match e.event
    case Ask(a) => if CanUpload(c.counter, a, e.now, e.today) then c.pending + multiset{a} else c.pending
    case End(a, held, _) => if held then c.pending - multiset{a} else c.pending
  }

  function CounterAfter(c: Counter, e: Moment): Counter {
    match e.event
    case Ask(a) => Asked(c, a, e.now, e.today)
    case End(a, _, uploaded) => if uploaded then Recorded(c, Stamp(a, e.now, e.today)) else c
  }

  function Next(c: Config, e: Moment): Config {
    Config(CounterAfter(c.counter, e), PendingAfter(c, e), e.now, e.today)
  }

  /** Any interleaving of any jobs, several of one account included. */
  ghost predicate Run(c: Config, es: seq<Moment>, c': Config)
    decreases |es|
  {
    if |es| == 0 then c' == c else Legal(c, es[0]) && Run(Next(c, es[0]), es[1..], c')
  }

  /** At no moment of the run are more than m approvals out. */
  ghost predicate OutAtMost(c: Config, es: seq<Moment>, m: nat)
    decreases |es|
  {
    |c.pending| <= m && (|es| > 0 ==> OutAtMost(Next(c, es[0]), es[1..], m))
  }

  /** At no moment of the run are more than k approvals of this account out. */
  ghost predicate AccountOutAtMost(c: Config, es: seq<Moment>, account: string, k: nat)
    decreases |es|
  {
    c.pending[account] <= k && (|es| > 0 ==> AccountOutAtMost(Next(c, es[0]), es[1..], account, k))
  }

  // ---- Fleet windows ----

  ghost predicate Holds(c: Config, m: nat, window: real, limit: nat) {
    |c.pending| <= m && WindowsHold(c.counter.log, Ts(), |c.pending|, c.clock, window, Closed, limit - 1 + m)
  }

  lemma OneFewer(pending: multiset<string>, account: string)
    requires account in pending
    ensures |pending - multiset{account}| + 1 == |pending|
  {
    assert pending == (pending - multiset{account}) + multiset{account};
  }

  lemma AskKeeps(c: Config, e: Moment, m: nat, window: real, limit: nat)
    requires Holds(c, m, window, limit) && Legal(c, e) && e.event.Ask? && |Next(c, e).pending| <= m
    requires FleetAllows(c.counter.log, e.now) ==> CountBy(c.counter.log, WithinLast(e.now, window)) < limit
    ensures Holds(Next(c, e), m, window, limit)
  {
    var log, out, out' := c.counter.log, |c.pending|, |PendingAfter(c, e)|;
    if CanUpload(c.counter, e.event.account, e.now, e.today) {
      WithinLastIsSince(log, e.now, window);
      ClosedRoom(log, Ts(), e.now, window, limit);
      GrantingKeeps(log, Ts(), out, c.clock, out', e.now, window, Closed, limit, m);
    } else {
      WaitingKeeps(log, Ts(), out, c.clock, out', e.now, window, Closed, limit - 1 + m);
    }
  }

  lemma EndKeeps(c: Config, e: Moment, m: nat, window: real, limit: nat)
    requires Holds(c, m, window, limit) && Legal(c, e) && e.event.End? && |Next(c, e).pending| <= m && window > 0.0
    ensures Holds(Next(c, e), m, window, limit)
  {
    var log, out, out' := c.counter.log, |c.pending|, |PendingAfter(c, e)|;
    if e.event.held {
      OneFewer(c.pending, e.event.account);
    }
    if e.event.uploaded {
      RecordingKeeps(log, Stamp(e.event.account, e.now, e.today), Ts(), out', c.clock, window, Closed, limit - 1 + m);
    } else {
      WaitingKeeps(log, Ts(), out, c.clock, out', e.now, window, Closed, limit - 1 + m);
    }
  }

  ghost predicate BothHold(c: Config, m: nat) {
    Holds(c, m, UPLOAD_WINDOW, UPLOAD_MAX_IN_WINDOW) && Holds(c, m, HOURLY_WINDOW, UPLOAD_MAX_PER_HOUR)
  }

  lemma StepKeeps(c: Config, e: Moment, m: nat)
    requires BothHold(c, m) && Legal(c, e) && |Next(c, e).pending| <= m
    ensures BothHold(Next(c, e), m)
  {
    if e.event.Ask? {
      AskKeeps(c, e, m, UPLOAD_WINDOW, UPLOAD_MAX_IN_WINDOW);
      AskKeeps(c, e, m, HOURLY_WINDOW, UPLOAD_MAX_PER_HOUR);
    } else {
      EndKeeps(c, e, m, UPLOAD_WINDOW, UPLOAD_MAX_IN_WINDOW);
      EndKeeps(c, e, m, HOURLY_WINDOW, UPLOAD_MAX_PER_HOUR);
    }
  }

  lemma {:induction false} WindowsKept(c: Config, es: seq<Moment>, c': Config, m: nat)
    requires BothHold(c, m) && Run(c, es, c') && OutAtMost(c, es, m)
    ensures BothHold(c', m)
    decreases |es|
  {
    if |es| > 0 {
      StepKeeps(c, es[0], m);
      WindowsKept(Next(c, es[0]), es[1..], c', m);
    }
  }

  /** With at most m approvals out at any moment, however the jobs interleave, no ten minutes hold more
      than 4 + m recorded uploads and no hour more than 9 + m. */
  lemma FleetCapsHold(now: real, today: int, es: seq<Moment>, c: Config, m: nat, from: real)
    requires Run(Initial(now, today), es, c) && OutAtMost(Initial(now, today), es, m)
    ensures CountBy(c.counter.log, Window(Ts(), from, 600.0, Closed)) <= 4 + m
    ensures CountBy(c.counter.log, Window(Ts(), from, 3600.0, Closed)) <= 9 + m
  {
    WindowsKept(Initial(now, today), es, c, m);
  }

  // ---- Uploads per account and day ----

  lemma CountsStep(c: Config, e: Moment)
    requires Counts(c.counter, c.day) && Legal(c, e)
    ensures Counts(CounterAfter(c.counter, e), e.today)
  {
    match e.event {
      case Ask(a) => OpeningCounts(c.counter, c.day, a, e.today);
      case End(a, _, uploaded) => RecordingCounts(c.counter, c.day, Stamp(a, e.now, e.today));
    }
  }

  ghost predicate AccountHolds(c: Config, account: string, k: nat) {
    Counts(c.counter, c.day) && DaysHold(c.counter.log, account, c.pending[account], c.day, k)
  }

  lemma DaysStep(c: Config, e: Moment, account: string, k: nat)
    requires AccountHolds(c, account, k) && Legal(c, e) && PendingAfter(c, e)[account] <= k
    ensures DaysHold(CounterAfter(c.counter, e).log, account, PendingAfter(c, e)[account], e.today, k)
  {
    var log, out, out' := c.counter.log, c.pending[account], PendingAfter(c, e)[account];
    if e.event.End? && e.event.uploaded {
      RecordKeepsDays(log, Stamp(e.event.account, e.now, e.today), account, out, c.day, k);
    } else if e.event == Ask(account) && CanUpload(c.counter, account, e.now, e.today) {
      CounterIsCount(c.counter, c.day, account, e.today);
      GrantKeepsDays(log, account, out, c.day, out', e.today, MAX_UPLOADS_PER_ACCOUNT_PER_DAY, k);
    } else {
      DayPasses(log, account, out, c.day, out', e.today, k);
    }
  }

  lemma {:induction false} DaysKept(c: Config, es: seq<Moment>, c': Config, account: string, k: nat)
    requires AccountHolds(c, account, k) && Run(c, es, c') && AccountOutAtMost(c, es, account, k)
    ensures AccountHolds(c', account, k)
    decreases |es|
  {
    if |es| > 0 {
      CountsStep(c, es[0]);
      DaysStep(c, es[0], account, k);
      DaysKept(Next(c, es[0]), es[1..], c', account, k);
    }
  }

  /** With at most k approvals of an account out at any moment, the account records at most k uploads
      on one UTC day; its counter reads the true number. */
  lemma AccountCapHolds(now: real, today: int, es: seq<Moment>, c: Config, account: string, k: nat, day: int)
    requires Run(Initial(now, today), es, c) && AccountOutAtMost(Initial(now, today), es, account, k)
    ensures CountBy(c.counter.log, ByOn(account, day)) <= k
    ensures CountToday(c.counter, account, c.day) == CountBy(c.counter.log, ByOn(account, c.day))
  {
    DaysKept(Initial(now, today), es, c, account, k);
    CounterIsCount(c.counter, c.day, account, c.day);
  }

  // ---- The bounds are reached ----

  /** A run from the beginning with at most m approvals out. */
  ghost predicate Reached(es: seq<Moment>, c: Config, m: nat) {
    Run(Initial(0.0, 0), es, c) && OutAtMost(Initial(0.0, 0), es, m)
  }

  lemma {:induction false} OneMore(c: Config, es: seq<Moment>, d: Config, e: Moment, m: nat)
    requires Run(c, es, d) && OutAtMost(c, es, m)
    requires Legal(d, e) && |Next(d, e).pending| <= m
    ensures Run(c, es + [e], Next(d, e)) && OutAtMost(c, es + [e], m)
    decreases |es|
  {
    if |es| == 0 {
      assert (es + [e])[1..] == [];
    } else {
      HeadJoins(es, [e]);
      OneMore(Next(c, es[0]), es[1..], d, e, m);
    }
  }

  lemma Extended(es: seq<Moment>, c: Config, e: Moment, m: nat) returns (es': seq<Moment>, c': Config)
    requires Reached(es, c, m) && Legal(c, e) && |Next(c, e).pending| <= m
    ensures Reached(es', c', m) && c' == Next(c, e)
  {
    OneMore(Initial(0.0, 0), es, c, e, m);
    es', c' := es + [e], Next(c, e);
  }

  /** Whatever is out in all bounds what is out of one account. */
  lemma {:induction false} AccountWithinAll(c: Config, es: seq<Moment>, account: string, m: nat)
    requires OutAtMost(c, es, m)
    ensures AccountOutAtMost(c, es, account, m)
    decreases |es|
  {
    assert c.pending == c.pending[account := 0] + multiset{}[account := c.pending[account]];
    if |es| > 0 {
      AccountWithinAll(Next(c, es[0]), es[1..], account, m);
    }
  }

  /** At instant 0 on day 0, n uploads of the account are recorded and k of its approvals are out. */
  ghost predicate Doubled(c: Config, account: string, n: nat, k: nat) {
    && c.clock == 0.0 && c.day == 0 && |c.pending| == k && c.pending[account] == k
    && |c.counter.log| == n && CountBy(c.counter.log, ByOn(account, 0)) == n
    && (n == 0 ==> CountToday(c.counter, account, 0) == 0)
  }

  lemma NoneRecordedAllows(c: Config, account: string)
    requires c.counter.log == [] && CountToday(c.counter, account, 0) == 0
    ensures CanUpload(c.counter, account, 0.0, 0)
  {
  }

  lemma ApprovingAgain(c: Config, account: string, k: nat) returns (e: Moment)
    requires Doubled(c, account, 0, k)
    ensures Legal(c, e) && Doubled(Next(c, e), account, 0, k + 1)
  {
    e := Moment(0.0, 0, Ask(account));
    NoneRecordedAllows(c, account);
  }

  lemma UploadingAgain(c: Config, account: string, n: nat, k: nat) returns (e: Moment)
    requires Doubled(c, account, n, k + 1)
    ensures Legal(c, e) && Doubled(Next(c, e), account, n + 1, k)
  {
    e := Moment(0.0, 0, End(account, true, true));
    OneFewer(c.pending, account);
    CountAppend(c.counter.log, Stamp(account, 0.0, 0), ByOn(account, 0));
  }

  lemma {:induction false} ManyApprovals(account: string, k: nat, j: nat) returns (es: seq<Moment>, c: Config)
    requires j <= k
    ensures Reached(es, c, k) && Doubled(c, account, 0, j)
  {
    es, c := [], Initial(0.0, 0);
    if j > 0 {
      es, c := ManyApprovals(account, k, j - 1);
      var e := ApprovingAgain(c, account, j - 1);
      es, c := Extended(es, c, e, k);
    }
  }

  lemma {:induction false} ManyUploads(account: string, k: nat, n: nat) returns (es: seq<Moment>, c: Config)
    requires n <= k
    ensures Reached(es, c, k) && Doubled(c, account, n, k - n)
  {
    if n == 0 {
      es, c := ManyApprovals(account, k, k);
    } else {
      es, c := ManyUploads(account, k, n - 1);
      var e := UploadingAgain(c, account, n - 1, k - n);
      es, c := Extended(es, c, e, k);
    }
  }

  /** For every k some interleaving with k approvals of an account out records k of its uploads on one day. */
  lemma AccountBoundIsReached(account: string, k: nat) returns (es: seq<Moment>, c: Config)
    ensures Run(Initial(0.0, 0), es, c) && AccountOutAtMost(Initial(0.0, 0), es, account, k)
    ensures CountBy(c.counter.log, ByOn(account, 0)) == k
  {
    es, c := ManyUploads(account, k, k);
    AccountWithinAll(Initial(0.0, 0), es, account, k);
  }

  /** Whatever the interleaving, no day holds two uploads of the account. */
  ghost predicate OnePerDay(account: string, k: nat) {
    forall es: seq<Moment>, c: Config, day: int ::
      Run(Initial(0.0, 0), es, c) && AccountOutAtMost(Initial(0.0, 0), es, account, k)
      ==> CountBy(c.counter.log, ByOn(account, day)) <= 1
  }

  /** One upload per account and day is guaranteed exactly if an account never holds two approvals at once. */
  lemma OneUploadPerDayIff(account: string, k: nat)
    ensures OnePerDay(account, k) <==> k <= 1
  {
    if k <= 1 {
      forall es: seq<Moment>, c: Config, day: int | Run(Initial(0.0, 0), es, c) && AccountOutAtMost(Initial(0.0, 0), es, account, k)
        ensures CountBy(c.counter.log, ByOn(account, day)) <= 1
      {
        AccountCapHolds(0.0, 0, es, c, account, k, day);
      }
    } else {
      var es, c := AccountBoundIsReached(account, k);
      assert CountBy(c.counter.log, ByOn(account, 0)) == k;
    }
  }

  function Name(k: nat): string { if k == 0 then "" else Name(k - 1) + "a" }

  lemma {:induction false} NameLength(k: nat)
    ensures |Name(k)| == k
  {
    if k > 0 {
      NameLength(k - 1);
    }
  }

  /** n uploads at instant 0 and k at instant t are recorded, of accounts 0 to n + k - 1, and the next j
      accounts hold one approval each. */
  ghost predicate Crowded(c: Config, t: real, n: nat, k: nat, j: nat) {
    c.clock <= t && c.day == 0 && Logged(c.counter.log, t, n, k) && Queued(c, n + k, j)
  }

  ghost predicate Logged(log: seq<Stamp>, t: real, n: nat, k: nat) {
    |log| == n + k && (forall i :: 0 <= i < n ==> log[i].ts == 0.0) && (forall i :: n <= i < n + k ==> log[i].ts == t)
  }

  ghost predicate Queued(c: Config, done: nat, j: nat) {
    && |c.pending| == j && (forall i :: done <= i < done + j ==> Name(i) in c.pending)
    && (forall a :: a in c.counter.dates || a in c.pending ==> |a| < done + j)
  }

  /** The uploads of instant 0 are out of the ten minutes before t, but within the hour. */
  ghost predicate Apart(t: real, n: nat) { (n == 0 && t == 0.0) || UPLOAD_WINDOW < t <= HOURLY_WINDOW }

  lemma LoggedCounts(log: seq<Stamp>, t: real, n: nat, k: nat)
    requires Logged(log, t, n, k) && Apart(t, n)
    ensures CountBy(log, WithinLast(t, UPLOAD_WINDOW)) == k && CountBy(log, WithinLast(t, HOURLY_WINDOW)) == n + k
  {
    WithinLastIsSince(log, t, UPLOAD_WINDOW);
    WithinLastIsSince(log, t, HOURLY_WINDOW);
    CountIsSuffix(log, Ts(), n, t - UPLOAD_WINDOW);
    CountIsSuffix(log, Ts(), 0, t - HOURLY_WINDOW);
  }

  lemma CrowdAllows(c: Config, t: real, n: nat, k: nat, j: nat)
    requires Crowded(c, t, n, k, j) && Apart(t, n) && k <= 4 && n + k <= 9
    ensures CanUpload(c.counter, Name(n + k + j), t, 0)
  {
    LoggedCounts(c.counter.log, t, n, k);
    NameLength(n + k + j);
  }

  lemma ApprovedQueue(c: Config, e: Moment, done: nat, j: nat)
    requires Queued(c, done, j) && e.event == Ask(Name(done + j)) && CanUpload(c.counter, Name(done + j), e.now, e.today)
    ensures Queued(Next(c, e), done, j + 1)
  {
    NameLength(done + j);
  }

  lemma Approving(c: Config, t: real, n: nat, k: nat, j: nat) returns (e: Moment)
    requires Crowded(c, t, n, k, j) && Apart(t, n) && k <= 4 && n + k <= 9
    ensures Legal(c, e) && Crowded(Next(c, e), t, n, k, j + 1)
  {
    e := Moment(t, 0, Ask(Name(n + k + j)));
    CrowdAllows(c, t, n, k, j);
    ApprovedQueue(c, e, n + k, j);
    ApprovedFields(c, e);
  }

  lemma NextQueued(c: Config, done: nat, j: nat)
    requires Queued(c, done, j + 1)
    ensures Name(done) in c.pending && |Name(done)| == done && |c.pending - multiset{Name(done)}| == j
    ensures forall i :: done + 1 <= i < done + 1 + j ==> Name(i) in c.pending - multiset{Name(done)}
  {
    NameLength(done);
    OneFewer(c.pending, Name(done));
    forall i | done + 1 <= i < done + 1 + j ensures Name(i) in c.pending - multiset{Name(done)} {
      NameLength(i);
    }
  }

  lemma UploadedQueue(c: Config, e: Moment, done: nat, j: nat)
    requires Queued(c, done, j + 1) && e.event == End(Name(done), true, true)
    ensures Queued(Next(c, e), done + 1, j)
  {
    NextQueued(c, done, j);
    assert PendingAfter(c, e) == c.pending - multiset{Name(done)};
  }

  lemma LoggedAppend(log: seq<Stamp>, u: Stamp, t: real, n: nat, k: nat)
    requires Logged(log, t, n, k) && u.ts == t
    ensures Logged(log + [u], t, n, k + 1)
  {
  }

  lemma UploadedFields(c: Config, e: Moment)
    requires e.event.End? && e.event.uploaded
    ensures var c' := Next(c, e);
            c'.clock == e.now && c'.day == e.today && c'.counter.log == c.counter.log + [Stamp(e.event.account, e.now, e.today)]
  {
  }

  lemma ApprovedFields(c: Config, e: Moment)
    requires e.event.Ask?
    ensures var c' := Next(c, e); c'.clock == e.now && c'.day == e.today && c'.counter.log == c.counter.log
  {
  }

  lemma Uploading(c: Config, t: real, n: nat, k: nat, j: nat) returns (e: Moment)
    requires Crowded(c, t, n, k, j + 1)
    ensures Legal(c, e) && Crowded(Next(c, e), t, n, k + 1, j)
  {
    e := Moment(t, 0, End(Name(n + k), true, true));
    NextQueued(c, n + k, j);
    UploadedQueue(c, e, n + k, j);
    UploadedFields(c, e);
    LoggedAppend(c.counter.log, Stamp(Name(n + k), t, 0), t, n, k);
  }

  /** j jobs are approved before any of them records. */
  lemma {:induction false} Rush(es0: seq<Moment>, c0: Config, m: nat, t: real, n: nat, k: nat, j: nat)
    returns (es: seq<Moment>, c: Config)
    requires Reached(es0, c0, m) && Crowded(c0, t, n, k, 0) && Apart(t, n) && k <= 4 && n + k <= 9 && j <= m
    ensures Reached(es, c, m) && Crowded(c, t, n, k, j)
  {
    es, c := es0, c0;
    if j > 0 {
      es, c := Rush(es0, c0, m, t, n, k, j - 1);
      var e := Approving(c, t, n, k, j - 1);
      es, c := Extended(es, c, e, m);
    }
  }

  lemma {:induction false} Drain(es0: seq<Moment>, c0: Config, m: nat, t: real, n: nat, k: nat, j: nat)
    returns (es: seq<Moment>, c: Config)
    requires Reached(es0, c0, m) && Crowded(c0, t, n, k, j) && j <= m
    ensures Reached(es, c, m) && Crowded(c, t, n, k + j, 0)
    decreases j
  {
    es, c := es0, c0;
    if j > 0 {
      var e := Uploading(c, t, n, k, j - 1);
      es, c := Extended(es, c, e, m);
      es, c := Drain(es, c, m, t, n, k + 1, j - 1);
    }
  }

  /** Uploads one by one, each approved and recorded before the next asks. */
  lemma {:induction false} Serial(es0: seq<Moment>, c0: Config, m: nat, t: real, n: nat, k: nat) returns (es: seq<Moment>, c: Config)
    requires Reached(es0, c0, m) && Crowded(c0, t, n, 0, 0) && Apart(t, n) && m >= 1 && k <= 5 && n + k <= 10
    ensures Reached(es, c, m) && Crowded(c, t, n, k, 0)
  {
    es, c := es0, c0;
    if k > 0 {
      es, c := Serial(es0, c0, m, t, n, k - 1);
      es, c := Rush(es, c, m, t, n, k - 1, 1);
      es, c := Drain(es, c, m, t, n, k - 1, 1);
    }
  }

  lemma CrowdInWindow(c: Config, t: real, n: nat, k: nat, length: real)
    requires Crowded(c, t, n, k, 0) && 0.0 <= t <= length
    ensures CountBy(c.counter.log, Window(Ts(), 0.0, length, Closed)) == n + k
  {
    AllInWindow(c.counter.log, Ts(), 0.0, length);
  }

  lemma Start(m: nat, t: real, n: nat) returns (es: seq<Moment>, c: Config)
    requires t == 0.0 && n == 0
    ensures Reached(es, c, m) && Crowded(c, t, n, n, n)
  {
    es, c := [], Initial(0.0, 0);
  }

  /** k uploads one by one, and then m approved together. */
  lemma Surge(es0: seq<Moment>, c0: Config, m: nat, t: real, n: nat, k: nat) returns (es: seq<Moment>, c: Config)
    requires Reached(es0, c0, m) && Crowded(c0, t, n, 0, 0) && Apart(t, n) && m >= 1 && k <= 4 && n + k <= 9
    ensures Reached(es, c, m) && Crowded(c, t, n, k + m, 0)
  {
    es, c := Serial(es0, c0, m, t, n, k);
    es, c := Rush(es, c, m, t, n, k, m);
    es, c := Drain(es, c, m, t, n, k, m);
  }

  /** The last k of them at t, the first n at instant 0. */
  lemma TwoSurges(m: nat, start: real, none: nat, n: nat, t: real, k: nat) returns (es: seq<Moment>, c: Config)
    requires m >= 1 && start == 0.0 && none == 0 && n <= 5 && Apart(t, n) && k <= 4
    ensures Reached(es, c, m) && Crowded(c, t, n, k + m, none)
  {
    es, c := Start(m, start, none);
    es, c := Serial(es, c, m, start, none, n);
    Later(c, t, n);
    es, c := Surge(es, c, m, t, n, k);
  }

  /** For every m there is an interleaving that records exactly 4 + m uploads in ten minutes. */
  lemma BurstBoundIsReached(m: nat) returns (es: seq<Moment>, c: Config)
    requires m >= 1
    ensures Run(Initial(0.0, 0), es, c) && OutAtMost(Initial(0.0, 0), es, m)
    ensures CountBy(c.counter.log, Window(Ts(), 0.0, 600.0, Closed)) == 4 + m
  {
    var none, few, start := 0, 4, 0.0;
    es, c := TwoSurges(m, start, none, none, start, few);
    CrowdInWindow(c, start, none, few + m, UPLOAD_WINDOW);
  }

  lemma Later(c: Config, t: real, k: nat)
    requires Crowded(c, 0.0, 0, k, 0) && t >= 0.0
    ensures Crowded(c, t, k, 0, 0)
  {
  }

  /** For every m there is an interleaving that records exactly 9 + m uploads in an hour: five, and after ten
      minutes four, one by one, and then m approved together. */
  lemma HourBoundIsReached(m: nat) returns (es: seq<Moment>, c: Config)
    requires m >= 1
    ensures Run(Initial(0.0, 0), es, c) && OutAtMost(Initial(0.0, 0), es, m)
    ensures CountBy(c.counter.log, Window(Ts(), 0.0, 3600.0, Closed)) == 9 + m
  {
    var none, few, many, start, t := 0, 4, 5, 0.0, 700.0;
    es, c := TwoSurges(m, start, none, many, t, few);
    CrowdInWindow(c, t, many, few + m, HOURLY_WINDOW);
  }
}
