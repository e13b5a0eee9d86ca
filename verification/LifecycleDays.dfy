/** How many sessions of one account start on one UTC day, with and without restarts. */
module LifecycleDays {
  import opened Sequences
  import opened SlidingWindows
  import opened Lifecycles
  import opened LifecycleRuns

  function OnDay(d: int): real -> bool { (t: real) => UtcDay(t) == d }

  ghost predicate NoneLater(starts: seq<real>, day: int) {
    forall i :: 0 <= i < |starts| ==> UtcDay(starts[i]) <= day
  }

  /** The count that belongs to date is the number of starts on that day since the last restart, and no
      start is later than that day. */
  ghost predicate Tracks(starts: seq<real>, earlier: nat, today: int, date: Option<int>, count: nat) {
    && earlier <= |starts| && NoneLater(starts, today)
    && match date
       case None => starts == [] && count == 0
       case Some(d) => d <= today && NoneLater(starts, d) && count == CountBy(starts[earlier..], OnDay(d))
  }

  ghost predicate CounterTracks(c: Config) {
    Tracks(c.starts, c.earlier, UtcDay(c.clock), c.lc.counterDate, c.lc.sessionsToday)
  }

  lemma DaysFollowClock(a: real, b: real)
    requires a <= b
    ensures UtcDay(a) <= UtcDay(b)
  {
    assert a / DAY <= b / DAY;
  }

  lemma {:induction false} NoneThatDay(ts: seq<real>, before: int, d: int)
    requires NoneLater(ts, before) && before < d
    ensures CountBy(ts, OnDay(d)) == 0
  {
    if |ts| > 0 {
      NoneThatDay(ts[..|ts| - 1], before, d);
    }
  }

  function CountOn(date: Option<int>, count: nat, day: int): nat { if date == Some(day) then count else 0 }

  lemma TracksLater(starts: seq<real>, earlier: nat, today: int, date: Option<int>, count: nat, later: int)
    requires Tracks(starts, earlier, today, date, count) && today <= later
    ensures Tracks(starts, earlier, later, date, count)
  {
  }

  /** A refresh leaves in the counter exactly the starts of the day it makes current. */
  lemma TracksRefresh(starts: seq<real>, earlier: nat, today: int, date: Option<int>, count: nat)
    requires Tracks(starts, earlier, today, date, count)
    ensures Tracks(starts, earlier, today, Some(today), CountOn(date, count, today))
  {
    if date.Some? && date.value < today {
      NoneThatDay(starts[earlier..], date.value, today);
    }
  }

  lemma TracksBegin(starts: seq<real>, earlier: nat, now: real, today: int, count: nat)
    requires Tracks(starts, earlier, today, Some(today), count) && today == UtcDay(now)
    ensures Tracks(starts + [now], earlier, today, Some(today), count + 1)
  {
    assert (starts + [now])[earlier..] == starts[earlier..] + [now];
    CountAppend(starts[earlier..], now, OnDay(today));
  }

  lemma TracksRestart(starts: seq<real>, earlier: nat, today: int, count: nat)
    requires Tracks(starts, earlier, today, Some(today), count)
    ensures Tracks(starts, |starts|, today, Some(today), 0)
  {
    assert starts[|starts|..] == [];
  }

  /** The tracked counter at a later instant, as it is and refreshed. */
  lemma TracksAt(c: Config, now: real)
    requires CounterTracks(c) && c.clock <= now
    ensures Tracks(c.starts, c.earlier, UtcDay(now), c.lc.counterDate, c.lc.sessionsToday)
    ensures Tracks(c.starts, c.earlier, UtcDay(now), Some(UtcDay(now)), Refreshed(c.lc, now).sessionsToday)
  {
    DaysFollowClock(c.clock, now);
    TracksLater(c.starts, c.earlier, UtcDay(c.clock), c.lc.counterDate, c.lc.sessionsToday, UtcDay(now));
    TracksRefresh(c.starts, c.earlier, UtcDay(now), c.lc.counterDate, c.lc.sessionsToday);
  }

  lemma RefreshCounts(c: Config, now: real)
    requires CounterTracks(c) && c.clock <= now
    ensures Refreshed(c.lc, now).sessionsToday == CountBy(c.starts[c.earlier..], OnDay(UtcDay(now)))
  {
    TracksAt(c, now);
  }

  lemma TrackStep(c: Config, e: Moment)
    requires CounterTracks(c) && Legal(c, e)
    ensures CounterTracks(Next(c, e))
  {
    NextDays(c, e);
    CounterFollows(c.lc, e);
    TracksAt(c, e.at);
    if e.event.Begin? {
      TracksBegin(c.starts, c.earlier, e.at, UtcDay(e.at), Refreshed(c.lc, e.at).sessionsToday);
    } else if e.event.Restart? {
      TracksRestart(c.starts, c.earlier, UtcDay(e.at), Refreshed(c.lc, e.at).sessionsToday);
    }
  }

  lemma {:induction false} TrackKept(c: Config, ms: seq<Moment>, c': Config)
    requires CounterTracks(c) && Run(c, ms, c')
    ensures CounterTracks(c')
    decreases |ms|
  {
    if |ms| > 0 {
      TrackStep(c, ms[0]);
      TrackKept(Next(c, ms[0]), ms[1..], c');
    }
  }

  /** In every run, whatever the sessions do, what the gate compares with its cap is the number of
      starts on the current UTC day since the last restart. */
  lemma CounterIsStartsSinceRestart(created: real, ms: seq<Moment>, c: Config, now: real)
    requires Run(Initial(created), ms, c) && c.clock <= now
    ensures c.earlier <= |c.starts|
    ensures Refreshed(c.lc, now).sessionsToday == CountBy(c.starts[c.earlier..], OnDay(UtcDay(now)))
  {
    TrackKept(Initial(created), ms, c);
    RefreshCounts(c, now);
  }

  function Times(cap: nat, n: nat): nat {
    if n == 0 then 0 else Times(cap, n - 1) + cap
  }

  /** Starts of one day: since the last restart at most cap less what is still waiting, and as much again
      for every restart of that day. */
  ghost predicate DaysBounded(starts: seq<real>, restarts: seq<real>, earlier: nat, waiting: nat, today: int, cap: nat) {
    && earlier <= |starts|
    && CountBy(starts[earlier..], OnDay(today)) + waiting <= cap
    && CountBy(starts, OnDay(today)) <= Times(cap, CountBy(restarts, OnDay(today))) + CountBy(starts[earlier..], OnDay(today))
    && forall d: int :: CountBy(starts, OnDay(d)) <= Times(cap, CountBy(restarts, OnDay(d))) + cap
  }

  ghost predicate Bounded(c: Config, cap: nat) {
    DaysBounded(c.starts, c.restarts, c.earlier, |c.waiting|, UtcDay(c.clock), cap)
  }

  /** Time alone: a new day has no starts yet. */
  lemma NewDay(starts: seq<real>, restarts: seq<real>, earlier: nat, waiting: nat, today: int, later: int, cap: nat)
    requires DaysBounded(starts, restarts, earlier, waiting, today, cap) && today <= later && waiting <= cap
    requires NoneLater(starts, today)
    ensures DaysBounded(starts, restarts, earlier, waiting, later, cap)
  {
    if today < later {
      NoneThatDay(starts[earlier..], today, later);
      NoneThatDay(starts, today, later);
    }
  }

  lemma BeginDay(starts: seq<real>, restarts: seq<real>, earlier: nat, waiting: nat, now: real, today: int, cap: nat)
    requires DaysBounded(starts, restarts, earlier, waiting + 1, today, cap) && today == UtcDay(now)
    ensures DaysBounded(starts + [now], restarts, earlier, waiting, today, cap)
  {
    assert (starts + [now])[earlier..] == starts[earlier..] + [now];
    CountAppend(starts[earlier..], now, OnDay(today));
    forall d: int ensures CountBy(starts + [now], OnDay(d)) <= Times(cap, CountBy(restarts, OnDay(d))) + cap
                          && CountBy(starts + [now], OnDay(d)) == CountBy(starts, OnDay(d)) + if today == d then 1 else 0 {
      CountAppend(starts, now, OnDay(d));
    }
  }

  lemma RestartDay(starts: seq<real>, restarts: seq<real>, earlier: nat, waiting: nat, now: real, today: int, cap: nat)
    requires DaysBounded(starts, restarts, earlier, waiting, today, cap) && waiting <= cap && today == UtcDay(now)
    ensures DaysBounded(starts, restarts + [now], |starts|, waiting, today, cap)
  {
    assert starts[|starts|..] == [];
    forall d: int ensures Times(cap, CountBy(restarts + [now], OnDay(d)))
                          == Times(cap, CountBy(restarts, OnDay(d))) + if today == d then cap else 0 {
      CountAppend(restarts, now, OnDay(d));
    }
  }

  lemma OtherDay(starts: seq<real>, restarts: seq<real>, earlier: nat, waiting: nat, waiting': nat, today: int, cap: nat)
    requires DaysBounded(starts, restarts, earlier, waiting, today, cap)
    requires waiting' <= waiting || CountBy(starts[earlier..], OnDay(today)) + waiting' <= cap
    ensures DaysBounded(starts, restarts, earlier, waiting', today, cap)
  {
  }

  lemma GrantedDay(c: Config, e: Moment, m: nat)
    requires CounterTracks(c) && Legal(c, e) && |WaitingAfter(c, e)| <= m
    ensures |WaitingAfter(c, e)| <= |c.waiting| || CountBy(c.starts[c.earlier..], OnDay(UtcDay(e.at))) + |WaitingAfter(c, e)| <= 2 + m
  {
    if Given(c.lc, e).Some? {
      GivenGaps(c.lc, e);
      RefreshCounts(c, e.at);
    } else {
      FewerWaiting(c, e);
    }
  }

  lemma DayComes(c: Config, now: real, cap: nat)
    requires CounterTracks(c) && Bounded(c, cap) && c.clock <= now && |c.waiting| <= cap
    ensures DaysBounded(c.starts, c.restarts, c.earlier, |c.waiting|, UtcDay(now), cap)
  {
    DaysFollowClock(c.clock, now);
    NewDay(c.starts, c.restarts, c.earlier, |c.waiting|, UtcDay(c.clock), UtcDay(now), cap);
  }

  lemma DayBegins(c: Config, e: Moment, cap: nat)
    requires CounterTracks(c) && Bounded(c, cap) && |c.waiting| <= cap && Legal(c, e) && e.event.Begin?
    ensures Bounded(Next(c, e), cap)
  {
    DayComes(c, e.at, cap);
    NextDays(c, e);
    OneFewer(c.waiting, e.event.grant);
    BeginDay(c.starts, c.restarts, c.earlier, |WaitingAfter(c, e)|, e.at, UtcDay(e.at), cap);
  }

  lemma DayRestarts(c: Config, e: Moment, cap: nat)
    requires CounterTracks(c) && Bounded(c, cap) && |c.waiting| <= cap && Legal(c, e) && e.event.Restart?
    ensures Bounded(Next(c, e), cap)
  {
    DayComes(c, e.at, cap);
    NextDays(c, e);
    RestartDay(c.starts, c.restarts, c.earlier, |c.waiting|, e.at, UtcDay(e.at), cap);
  }

  lemma DayElse(c: Config, e: Moment, m: nat)
    requires CounterTracks(c) && Bounded(c, 2 + m) && |c.waiting| <= m && |WaitingAfter(c, e)| <= m && Legal(c, e)
    requires !e.event.Begin? && !e.event.Restart?
    ensures Bounded(Next(c, e), 2 + m)
  {
    GrantedDay(c, e, m);
    DayComes(c, e.at, 2 + m);
    NextDays(c, e);
    OtherDay(c.starts, c.restarts, c.earlier, |c.waiting|, |WaitingAfter(c, e)|, UtcDay(e.at), 2 + m);
  }

  lemma DayStep(c: Config, e: Moment, m: nat)
    requires CounterTracks(c) && Bounded(c, 2 + m) && Legal(c, e) && |c.waiting| <= m && |WaitingAfter(c, e)| <= m
    ensures Bounded(Next(c, e), 2 + m)
  {
    if e.event.Begin? {
      DayBegins(c, e, 2 + m);
    } else if e.event.Restart? {
      DayRestarts(c, e, 2 + m);
    } else {
      DayElse(c, e, m);
    }
  }

  lemma {:induction false} DaysKept(c: Config, ms: seq<Moment>, c': Config, m: nat)
    requires CounterTracks(c) && Bounded(c, 2 + m) && Run(c, ms, c') && OutAtMost(c, ms, m)
    ensures Bounded(c', 2 + m)
    decreases |ms|
  {
    if |ms| > 0 {
      TrackStep(c, ms[0]);
      NextDays(c, ms[0]);
      assert OutAtMost(Next(c, ms[0]), ms[1..], m);
      DayStep(c, ms[0], m);
      DaysKept(Next(c, ms[0]), ms[1..], c', m);
    }
  }

  /** With at most m sessions out at any moment, a UTC day sees at most 2 + m starts, and as many again
      for every restart on that very day. */
  lemma StartsPerDay(created: real, ms: seq<Moment>, c: Config, m: nat, d: int)
    requires Run(Initial(created), ms, c) && OutAtMost(Initial(created), ms, m)
    ensures CountBy(c.starts, OnDay(d)) <= (2 + m) * (CountBy(c.restarts, OnDay(d)) + 1)
  {
    DaysKept(Initial(created), ms, c, m);
    TimesIs(2 + m, CountBy(c.restarts, OnDay(d)));
  }

  lemma {:induction false} TimesIs(cap: nat, n: nat)
    ensures Times(cap, n) + cap == cap * (n + 1)
  {
    if n > 0 {
      TimesIs(cap, n - 1);
      assert cap * (n + 1) == cap * n + cap;
    }
  }

  /** One session at a time: at most three starts on every UTC day without a restart, whatever happened
      on other days; six are the most on any day, and one restart is enough for them. */
  lemma ThreeStartsPerDay(created: real, ms: seq<Moment>, c: Config, d: int)
    requires Run(Initial(created), ms, c) && OutAtMost(Initial(created), ms, 1)
    ensures CountBy(c.restarts, OnDay(d)) == 0 ==> CountBy(c.starts, OnDay(d)) <= 3
    ensures CountBy(c.starts, OnDay(d)) <= 6
  {
    StartsPerDay(created, ms, c, 1, d);
    StartsPerWindow(created, ms, c, 1, d as real * DAY);
    DayIsWindow(c.starts, d);
  }

  lemma DayIsWindow(ts: seq<real>, d: int)
    ensures CountBy(ts, OnDay(d)) <= CountBy(ts, Window(Instant(), d as real * DAY, DAY, HalfOpen))
  {
    forall i | 0 <= i < |ts| && OnDay(d)(ts[i]) ensures Window(Instant(), d as real * DAY, DAY, HalfOpen)(ts[i]) {
      DayBounds(ts[i]);
    }
    CountPointwise(ts, ts, OnDay(d), Window(Instant(), d as real * DAY, DAY, HalfOpen));
  }

  lemma DayBounds(t: real)
    ensures UtcDay(t) as real * DAY <= t < UtcDay(t) as real * DAY + DAY
  {
    var q := t / DAY;
    assert q.Floor as real <= q < q.Floor as real + 1.0;
  }
}
