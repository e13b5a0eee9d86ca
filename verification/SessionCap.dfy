/** The session cap per account and day of core/cross_account_coordinator.py, run by many jobs at once. */
module SessionCaps {
  import opened Sequences
  import opened DailyCaps

  const MAX_SESSIONS_PER_ACCOUNT_PER_DAY := 3

  /** A job asks whether it may start, and starts or gives up later; started jobs are recorded. */
  datatype Event = Check(account: string) | Start(account: string) | GiveUp(account: string)

  datatype Moment = Moment(now: real, today: int, event: Event)

  datatype Config = Config(counter: Counter, pending: multiset<string>, day: int)

  function Initial(today: int): Config { Config(Counter([], map[], map[]), multiset{}, today) }

  function SessionAllowed(c: Counter, account: string, today: int): bool {
    CountToday(c, account, today) < MAX_SESSIONS_PER_ACCOUNT_PER_DAY
  }

  ghost predicate Legal(c: Config, e: Moment) {
    c.day <= e.today && (e.event.Check? || e.event.account in c.pending)
  }

  function Next(c: Config, e: Moment): Config {
    match e.event
    case Check(a) =>
      Config(Opened(c.counter, a, e.today), if SessionAllowed(c.counter, a, e.today) then c.pending + multiset{a} else c.pending, e.today)
    case Start(a) => Config(Recorded(c.counter, Stamp(a, e.now, e.today)), c.pending - multiset{a}, e.today)
    case GiveUp(a) => Config(c.counter, c.pending - multiset{a}, e.today)
  }

  /** The moments lead from c to c', and at most k granted checks of the account are out at any time. */
  ghost predicate Run(c: Config, es: seq<Moment>, c': Config, account: string, k: nat)
    decreases |es|
  {
    if |es| == 0 then c' == c
    else Legal(c, es[0]) && Next(c, es[0]).pending[account] <= k && Run(Next(c, es[0]), es[1..], c', account, k)
  }

  ghost predicate SessionsHold(c: Config, account: string, k: nat) {
    Counts(c.counter, c.day) && DaysHold(c.counter.log, account, c.pending[account], c.day, 2 + k)
  }

  lemma CountsStep(c: Config, e: Moment)
    requires Counts(c.counter, c.day) && Legal(c, e)
    ensures Counts(Next(c, e).counter, e.today)
  {
    match e.event {
      case Check(a) => OpeningCounts(c.counter, c.day, a, e.today);
      case Start(a) => RecordingCounts(c.counter, c.day, Stamp(a, e.now, e.today));
      case GiveUp(a) =>
    }
  }

  lemma DaysStep(c: Config, e: Moment, account: string, k: nat)
    requires SessionsHold(c, account, k) && Legal(c, e) && Next(c, e).pending[account] <= k
    ensures var c' := Next(c, e); DaysHold(c'.counter.log, account, c'.pending[account], c'.day, 2 + k)
  {
    var log, out, out' := c.counter.log, c.pending[account], Next(c, e).pending[account];
    if e.event.Start? {
      RecordKeepsDays(log, Stamp(e.event.account, e.now, e.today), account, out, c.day, 2 + k);
    } else if e.event == Check(account) && SessionAllowed(c.counter, account, e.today) {
      CounterIsCount(c.counter, c.day, account, e.today);
      GrantKeepsDays(log, account, out, c.day, out', e.today, 3, k);
    } else {
      DayPasses(log, account, out, c.day, out', e.today, 2 + k);
    }
  }

  lemma SessionStep(c: Config, e: Moment, account: string, k: nat)
    requires SessionsHold(c, account, k) && Legal(c, e) && Next(c, e).pending[account] <= k
    ensures SessionsHold(Next(c, e), account, k)
  {
    CountsStep(c, e);
    DaysStep(c, e, account, k);
  }

  lemma {:induction false} SessionsKept(c: Config, es: seq<Moment>, c': Config, account: string, k: nat)
    requires SessionsHold(c, account, k) && Run(c, es, c', account, k)
    ensures SessionsHold(c', account, k)
    decreases |es|
  {
    if |es| > 0 {
      SessionStep(c, es[0], account, k);
      SessionsKept(Next(c, es[0]), es[1..], c', account, k);
    }
  }

  /** With at most k granted checks of an account out at any time, at most 2 + k of its sessions start
      on one UTC day: three when checks and starts alternate. The counter is the true number. */
  lemma SessionCapHolds(today: int, es: seq<Moment>, c: Config, account: string, k: nat, day: int)
    requires Run(Initial(today), es, c, account, k)
    ensures CountBy(c.counter.log, ByOn(account, day)) <= 2 + k
    ensures CountToday(c.counter, account, c.day) == CountBy(c.counter.log, ByOn(account, c.day))
  {
    SessionsKept(Initial(today), es, c, account, k);
    CounterIsCount(c.counter, c.day, account, c.day);
  }

  // ---- The bound is reached ----

  lemma {:induction false} OneMore(c: Config, es: seq<Moment>, d: Config, e: Moment, account: string, k: nat)
    requires Run(c, es, d, account, k) && Legal(d, e) && Next(d, e).pending[account] <= k
    ensures Run(c, es + [e], Next(d, e), account, k)
    decreases |es|
  {
    if |es| == 0 {
      assert (es + [e])[1..] == [];
    } else {
      HeadJoins(es, [e]);
      OneMore(Next(c, es[0]), es[1..], d, e, account, k);
    }
  }

  /** On day 0, n sessions of the account are recorded and j of its granted checks are out. */
  ghost predicate Racing(es: seq<Moment>, c: Config, account: string, k: nat, n: nat, j: nat) {
    && Run(Initial(0), es, c, account, k) && c.day == 0 && c.pending[account] == j
    && CountBy(c.counter.log, ByOn(account, 0)) == n && CountToday(c.counter, account, 0) == n
  }

  lemma Checking(es: seq<Moment>, c: Config, account: string, k: nat, n: nat, j: nat) returns (es': seq<Moment>, c': Config)
    requires Racing(es, c, account, k, n, j) && n <= 2 && j < k
    ensures Racing(es', c', account, k, n, j + 1)
  {
    var e := Moment(0.0, 0, Check(account));
    OneMore(Initial(0), es, c, e, account, k);
    es', c' := es + [e], Next(c, e);
  }

  lemma Starting(es: seq<Moment>, c: Config, account: string, k: nat, n: nat, j: nat) returns (es': seq<Moment>, c': Config)
    requires Racing(es, c, account, k, n, j + 1) && j < k
    ensures Racing(es', c', account, k, n + 1, j)
  {
    var e := Moment(0.0, 0, Start(account));
    CountAppend(c.counter.log, Stamp(account, 0.0, 0), ByOn(account, 0));
    OneMore(Initial(0), es, c, e, account, k);
    es', c' := es + [e], Next(c, e);
  }

  lemma {:induction false} ManyChecks(es0: seq<Moment>, c0: Config, account: string, k: nat, n: nat, j: nat) returns (es: seq<Moment>, c: Config)
    requires Racing(es0, c0, account, k, n, 0) && n <= 2 && j <= k
    ensures Racing(es, c, account, k, n, j)
  {
    es, c := es0, c0;
    if j > 0 {
      es, c := ManyChecks(es0, c0, account, k, n, j - 1);
      es, c := Checking(es, c, account, k, n, j - 1);
    }
  }

  lemma {:induction false} ManyStarts(es0: seq<Moment>, c0: Config, account: string, k: nat, n: nat, j: nat) returns (es: seq<Moment>, c: Config)
    requires Racing(es0, c0, account, k, n, j) && j <= k
    ensures Racing(es, c, account, k, n + j, 0)
    decreases j
  {
    es, c := es0, c0;
    if j > 0 {
      es, c := Starting(es, c, account, k, n, j - 1);
      es, c := ManyStarts(es, c, account, k, n + 1, j - 1);
    }
  }

  /** For every k some interleaving with at most k granted checks of an account out starts 2 + k of its
      sessions on one day: two one by one, then k checked together. */
  lemma SessionBoundIsReached(account: string, k: nat) returns (es: seq<Moment>, c: Config)
    requires k >= 1
    ensures Run(Initial(0), es, c, account, k)
    ensures CountBy(c.counter.log, ByOn(account, 0)) == 2 + k
  {
    es, c := ManyChecks([], Initial(0), account, k, 0, 1);
    es, c := ManyStarts(es, c, account, k, 0, 1);
    es, c := ManyChecks(es, c, account, k, 1, 1);
    es, c := ManyStarts(es, c, account, k, 1, 1);
    es, c := ManyChecks(es, c, account, k, 2, k);
    es, c := ManyStarts(es, c, account, k, 2, k);
  }

  /** Whatever the interleaving, no day holds more than three sessions of the account. */
  ghost predicate ThreePerDay(account: string, k: nat) {
    forall es: seq<Moment>, c: Config, day: int ::
      Run(Initial(0), es, c, account, k) ==> CountBy(c.counter.log, ByOn(account, day)) <= 3
  }

  /** Three sessions per account and day are guaranteed exactly if an account never has two granted checks out. */
  lemma ThreeSessionsPerDayIff(account: string, k: nat)
    ensures ThreePerDay(account, k) <==> k <= 1
  {
    if k <= 1 {
      forall es: seq<Moment>, c: Config, day: int | Run(Initial(0), es, c, account, k)
        ensures CountBy(c.counter.log, ByOn(account, day)) <= 3
      {
        SessionCapHolds(0, es, c, account, k, day);
      }
    } else {
      var es, c := SessionBoundIsReached(account, k);
      assert CountBy(c.counter.log, ByOn(account, 0)) == 2 + k;
    }
  }
}
