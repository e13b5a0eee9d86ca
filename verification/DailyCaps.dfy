/** Per-account daily counters as a check-then-record protocol: a check reads the counter of the UTC
    day, a granted check may be recorded at any later time, even on a later day. */
module DailyCaps {
  import opened Sequences

  datatype Stamp = Stamp(account: string, ts: real, day: int)

  /** Everything ever recorded, and the per-account counters with the day each belongs to. */
  datatype Counter = Counter(log: seq<Stamp>, dates: map<string, int>, counts: map<string, nat>)

  function CountToday(c: Counter, account: string, today: int): nat {
    if account in c.dates && c.dates[account] == today && account in c.counts then c.counts[account] else 0
  }

  /** Reading a counter opens it for the day. */
  function Opened(c: Counter, account: string, today: int): Counter {
    if account in c.dates && c.dates[account] == today then c
    else Counter(c.log, c.dates[account := today], c.counts[account := 0])
  }

  function Recorded(c: Counter, s: Stamp): Counter {
    Counter(c.log + [s], c.dates[s.account := s.day], c.counts[s.account := CountToday(c, s.account, s.day) + 1])
  }

  function ByOn(account: string, day: int): Stamp -> bool { (s: Stamp) => s.account == account && s.day == day }

  ghost predicate NoneLater(log: seq<Stamp>, day: int) {
    forall s :: s in log ==> s.day <= day
  }

  /** The counters count the log. */
  ghost predicate Counts(c: Counter, day: int) {
    && (forall s :: s in c.log ==> s.account in c.dates && s.day <= c.dates[s.account])
    && (forall a :: a in c.dates ==> a in c.counts && c.dates[a] <= day && c.counts[a] == CountBy(c.log, ByOn(a, c.dates[a])))
  }

  lemma {:induction false} NoneBy(log: seq<Stamp>, account: string, day: int)
    requires forall s :: s in log && s.account == account ==> s.day != day
    ensures CountBy(log, ByOn(account, day)) == 0
  {
    if |log| > 0 {
      assert log[|log| - 1] in log;
      NoneBy(log[..|log| - 1], account, day);
    }
  }

  /** The counter reads the number of this account's records of the day. */
  lemma CounterIsCount(c: Counter, day: int, account: string, today: int)
    requires Counts(c, day) && day <= today
    ensures CountToday(c, account, today) == CountBy(c.log, ByOn(account, today))
  {
    if account !in c.dates || c.dates[account] != today {
      NoneBy(c.log, account, today);
    }
  }

  lemma OpeningCounts(c: Counter, day: int, account: string, today: int)
    requires Counts(c, day) && day <= today
    ensures Counts(Opened(c, account, today), today)
  {
    if account !in c.dates || c.dates[account] != today {
      NoneBy(c.log, account, today);
    }
  }

  /** A counter of an account not recorded for keeps its count. */
  lemma OtherCounts(c: Counter, day: int, s: Stamp, x: string)
    requires Counts(c, day) && x in c.dates && x != s.account
    ensures x in Recorded(c, s).counts && Recorded(c, s).counts[x] == CountBy(Recorded(c, s).log, ByOn(x, c.dates[x]))
  {
    CountAppend(c.log, s, ByOn(x, c.dates[x]));
  }

  lemma OwnCounts(c: Counter, day: int, s: Stamp)
    requires Counts(c, day) && day <= s.day
    ensures Recorded(c, s).counts[s.account] == CountBy(Recorded(c, s).log, ByOn(s.account, s.day))
  {
    CounterIsCount(c, day, s.account, s.day);
    CountAppend(c.log, s, ByOn(s.account, s.day));
  }

  lemma RecordingCounts(c: Counter, day: int, s: Stamp)
    requires Counts(c, day) && day <= s.day
    ensures Counts(Recorded(c, s), s.day)
  {
    var c' := Recorded(c, s);
    OwnCounts(c, day, s);
    forall x | x in c'.dates && x != s.account
      ensures x in c'.counts && c'.counts[x] == CountBy(c'.log, ByOn(x, c'.dates[x]))
    {
      OtherCounts(c, day, s, x);
    }
  }

  // ---- One account against its cap ----

  /** Today's records of an account, plus those still to come from its granted checks, stay within the
      bound; and every day of the past did. */
  ghost predicate DaysHold(log: seq<Stamp>, account: string, out: nat, day: int, bound: int) {
    && NoneLater(log, day)
    && CountBy(log, ByOn(account, day)) + out <= bound
    && (forall d: int :: CountBy(log, ByOn(account, d)) <= bound)
  }

  lemma DayPasses(log: seq<Stamp>, account: string, out: nat, day: int, out': nat, day': int, bound: int)
    requires DaysHold(log, account, out, day, bound) && day <= day' && out' <= out
    ensures DaysHold(log, account, out', day', bound)
  {
    if day < day' {
      NoneBy(log, account, day');
    }
  }

  /** A check below the cap may be granted while at most k grants of the account are out. */
  lemma GrantKeepsDays(log: seq<Stamp>, account: string, out: nat, day: int, out': nat, day': int, cap: int, k: nat)
    requires DaysHold(log, account, out, day, cap - 1 + k) && day <= day' && out' <= k
    requires CountBy(log, ByOn(account, day')) < cap
    ensures DaysHold(log, account, out', day', cap - 1 + k)
  {
  }

  lemma RecordKeepsDays(log: seq<Stamp>, s: Stamp, account: string, out: nat, day: int, bound: int)
    requires DaysHold(log, account, out, day, bound) && day <= s.day && (s.account == account ==> out > 0)
    ensures DaysHold(log + [s], account, if s.account == account then out - 1 else out, s.day, bound)
  {
    DayPasses(log, account, out, day, out, s.day, bound);
    forall d: int ensures CountBy(log + [s], ByOn(account, d)) <= bound {
      CountAppend(log, s, ByOn(account, d));
    }
    CountAppend(log, s, ByOn(account, s.day));
  }
}
