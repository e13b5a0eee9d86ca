/** The coordinator object of core/cross_account_coordinator.py. */
module Coordinators {
  import opened Sequences
  import opened SlidingWindows
  import opened DailyCaps
  import opened UploadThrottles
  import SessionCaps
  import opened ActivityHealing
  import Reals

  const SKIP_WINDOW := 1800.0
  const SKIP_RATE_CEILING := 0.15
  const CONSEC_SKIP_PENALTY := 0.70
  const STARTS_CAP := 500

  datatype Job = Job(account: string, proxy: string, startedAt: real)

  datatype Level = Low | Medium | High | Unknown

  datatype SkipRecord = SkipRecord(account: string, skipped: bool, ts: real)

  // ---- Skips ----

  function RecentSkipRecord(now: real): SkipRecord -> bool { (r: SkipRecord) => now - r.ts <= SKIP_WINDOW }

  function RecentSkip(now: real): SkipRecord -> bool { (r: SkipRecord) => now - r.ts <= SKIP_WINDOW && r.skipped }

  function Records(h: seq<SkipRecord>, now: real): nat { CountBy(h, RecentSkipRecord(now)) }

  function Skips(h: seq<SkipRecord>, now: real): nat { CountBy(h, RecentSkip(now)) }

  /** The share of skips among the records of the last half hour. */
  function SkipRate(h: seq<SkipRecord>, now: real): real
    requires Records(h, now) > 0
  {
    Skips(h, now) as real / Records(h, now) as real
  }

  /** Whether a wanted skip is granted; draw stands for the random number of the repeat penalty. */
  function SkipGranted(h: seq<SkipRecord>, skippedLast: bool, draw: real, now: real): bool {
    && !(skippedLast && draw < CONSEC_SKIP_PENALTY)
    && (Records(h, now) > 0 ==> (Skips(h, now) + 1) as real / (Records(h, now) + 1) as real <= SKIP_RATE_CEILING)
  }

  /** A record counts for half an hour, the last instant included, and as a skip if it is one. */
  lemma SkipsOfMore(h: seq<SkipRecord>, r: SkipRecord, now: real)
    ensures Records(h + [r], now) == Records(h, now) + if now - r.ts <= 1800.0 then 1 else 0
    ensures Skips(h + [r], now) == Skips(h, now) + if now - r.ts <= 1800.0 && r.skipped then 1 else 0
    ensures Records([], now) == 0 && Skips([], now) == 0
  {
    CountAppend(h, r, RecentSkipRecord(now));
    CountAppend(h, r, RecentSkip(now));
  }

  lemma RateIff(p: real, q: real)
    requires q > 0.0
    ensures p / q <= 0.15 <==> 20.0 * p <= 3.0 * q
  {
    var x := p / q;
    assert x * q == p;
    RateBelow(x, q);
  }

  lemma RateBelow(x: real, q: real)
    requires q > 0.0
    ensures x <= 0.15 <==> x * q <= 0.15 * q
  {
    if x <= 0.15 {
      Reals.NonNegativeProduct(0.15 - x, q);
      assert (0.15 - x) * q == 0.15 * q - x * q;
    } else {
      Reals.PositiveProduct(x - 0.15, q);
      assert (x - 0.15) * q == x * q - 0.15 * q;
    }
  }

  /** A wanted skip is granted exactly if the account did not skip last or the draw reaches 0.70, and, if anything
      was recorded in the last half hour, skips make up at most three in twenty of it, this one included. */
  lemma SkipGrantedIff(h: seq<SkipRecord>, skippedLast: bool, draw: real, now: real)
    ensures SkipGranted(h, skippedLast, draw, now)
            <==> (skippedLast ==> draw >= 0.70)
                 && (Records(h, now) == 0 || 20 * (Skips(h, now) + 1) <= 3 * (Records(h, now) + 1))
  {
    var p, q := (Skips(h, now) + 1) as real, (Records(h, now) + 1) as real;
    RateIff(p, q);
  }

  lemma CeilingNeedsSeven(skips: nat, records: nat)
    requires skips > 0 && records > 0 && skips as real / records as real <= SKIP_RATE_CEILING
    ensures records >= 7
  {
    var s, r := skips as real, records as real;
    var q := s / r;
    assert s == q * r;
    assert q * r <= 0.15 * r;
  }

  /** At the moment a skip is granted the half-hour rate, this skip included, is within the ceiling
      exactly if anything was recorded in the half hour before; the first one makes it 100 percent.
      A skip under the ceiling needs six earlier records. */
  lemma GrantedSkipRate(h: seq<SkipRecord>, account: string, skippedLast: bool, draw: real, now: real)
    requires SkipGranted(h, skippedLast, draw, now)
    ensures var h' := h + [SkipRecord(account, true, now)];
            && Records(h', now) == Records(h, now) + 1
            && (SkipRate(h', now) <= 0.15 <==> Records(h, now) > 0)
            && (Records(h, now) == 0 || Records(h, now) >= 6)
  {
    var r := SkipRecord(account, true, now);
    CountAppend(h, r, RecentSkipRecord(now));
    CountAppend(h, r, RecentSkip(now));
    if Records(h, now) == 0 {
      CountPointwise(h, h, RecentSkip(now), RecentSkipRecord(now));
    } else {
      CeilingNeedsSeven(Skips(h, now) + 1, Records(h, now) + 1);
    }
  }

  /** Later the rate can pass the ceiling: when all other records have left the window, the skip alone
      makes it 100 percent. */
  lemma SkipOutlivesTheOthers(h: seq<SkipRecord>, account: string, now: real, later: real)
    requires now <= later <= now + 1800.0
    requires forall r :: r in h ==> later - r.ts > 1800.0
    ensures var h' := h + [SkipRecord(account, true, now)];
            Records(h', later) == 1 && SkipRate(h', later) == 1.0
  {
    var r := SkipRecord(account, true, now);
    NoRecord(h, RecentSkipRecord(later));
    NoRecord(h, RecentSkip(later));
    CountAppend(h, r, RecentSkipRecord(later));
    CountAppend(h, r, RecentSkip(later));
  }

  /** n records without a skip, all of the same instant. */
  function Quiet(n: nat, ts: real): (h: seq<SkipRecord>)
    ensures |h| == n && forall r :: r in h ==> r == SkipRecord("b", false, ts)
  {
    seq(n, i => SkipRecord("b", false, ts))
  }

  lemma {:induction false} QuietCounts(h: seq<SkipRecord>, now: real)
    requires forall r :: r in h ==> !r.skipped && now - r.ts <= SKIP_WINDOW
    ensures Records(h, now) == |h| && Skips(h, now) == 0
  {
    if |h| > 0 {
      assert h[|h| - 1] in h;
      QuietCounts(h[..|h| - 1], now);
    }
  }

  /** A skip granted with the rate at one in seven, which makes it one in one a second later. */
  lemma GrantedSkipPassesCeiling() returns (h: seq<SkipRecord>, now: real, later: real)
    ensures SkipGranted(h, false, 1.0, now) && Records(h, now) == 6 && later == now + 1.0
    ensures var h' := h + [SkipRecord("a", true, now)];
            && Records(h', now) > 0 && SkipRate(h', now) <= SKIP_RATE_CEILING
            && Records(h', later) > 0 && SkipRate(h', later) == 1.0
  {
    h, now, later := Quiet(6, 0.0), SKIP_WINDOW, SKIP_WINDOW + 1.0;
    QuietCounts(h, now);
    GrantedSkipRate(h, "a", false, 1.0, now);
    SkipOutlivesTheOthers(h, "a", now, later);
  }

  lemma {:induction false} NoRecord(h: seq<SkipRecord>, p: SkipRecord -> bool)
    requires forall r :: r in h ==> !p(r)
    ensures CountBy(h, p) == 0
  {
    if |h| > 0 {
      assert h[|h| - 1] in h;
      NoRecord(h[..|h| - 1], p);
    }
  }

  // ---- Proxies ----

  function Joined(proxies: map<string, set<string>>, proxy: string, account: string): map<string, set<string>> {
    proxies[proxy := (if proxy in proxies then proxies[proxy] else {}) + {account}]
  }

  function Left(proxies: map<string, set<string>>, proxy: string, account: string): map<string, set<string>> {
    if proxy !in proxies then proxies
    else
      var rest := proxies[proxy] - {account};
      if rest == {} then proxies - {proxy} else proxies[proxy := rest]
  }

  ghost predicate NoIdleProxy(proxies: map<string, set<string>>) {
    forall p :: p in proxies ==> proxies[p] != {}
  }

  /** Ending a job undoes what starting it did to the proxy map, unless the account was there already. */
  lemma LeavingUndoesJoining(proxies: map<string, set<string>>, proxy: string, account: string)
    requires NoIdleProxy(proxies)
    ensures Left(Joined(proxies, proxy, account), proxy, account) == proxies
            <==> !(proxy in proxies && account in proxies[proxy])
  {
    var there := if proxy in proxies then proxies[proxy] else {};
    if account !in there {
      assert there + {account} - {account} == there;
    }
  }

  // ---- The object ----

  class CrossAccountCoordinator {
    var activeJobs: map<string, Job>
    var recentStarts: seq<real>
    var proxyAccounts: map<string, set<string>>
    var uploadHistory: seq<Stamp>
    var uploadDates: map<string, int>
    var uploads: map<string, nat>
    var sessionDates: map<string, int>
    var sessions: map<string, nat>
    var skipHistory: seq<SkipRecord>
    var lastSkip: map<string, bool>
    var activity: Counts
    // every upload and every start since creation; uploadHistory keeps the latest two hundred uploads
    ghost var log: seq<Stamp>
    ghost var started: seq<Stamp>

    ghost predicate Valid()
      reads this
    {
      && uploadHistory == Latest(log, 200)
      && Chronological(log, Ts())
      && NoIdleProxy(proxyAccounts)
    }

    ghost function Uploads(): Counter
      reads this
    {
      Counter(log, uploadDates, uploads)
    }

    ghost function Sessions(): Counter
      reads this
    {
      Counter(started, sessionDates, sessions)
    }

    constructor ()
      ensures Valid() && Uploads() == Counter([], map[], map[]) && Sessions() == Counter([], map[], map[])
      ensures activeJobs == map[] && proxyAccounts == map[] && recentStarts == []
      ensures activity == Counts(0, 0, 0) && skipHistory == [] && lastSkip == map[]
    {
      activeJobs, recentStarts, proxyAccounts, uploadHistory, uploadDates, uploads := map[], [], map[], [], map[], map[];
      sessionDates, sessions, skipHistory, lastSkip := map[], map[], [], map[];
      activity, log, started := Counts(0, 0, 0), [], [];
    }

    /** Starts a job; the start is one Recorded step of the session counter. */
    method RegisterJobStart(account: string, proxy: string, now: real, today: int)
      requires Valid()
      modifies `activeJobs, `recentStarts, `proxyAccounts, `sessionDates, `sessions, `started
      ensures Valid()
      ensures activeJobs == old(activeJobs)[account := Job(account, proxy, now)]
      ensures recentStarts == Latest(old(recentStarts) + [now], 500)
      ensures proxyAccounts == Joined(old(proxyAccounts), proxy, account)
      ensures Sessions() == Recorded(old(Sessions()), Stamp(account, now, today))
    {
      activeJobs := activeJobs[account := Job(account, proxy, now)];
      recentStarts := Latest(recentStarts + [now], STARTS_CAP);
      JoinProxy(account, proxy);
      CountSession(account, now, today);
    }

    method JoinProxy(account: string, proxy: string)
      requires NoIdleProxy(proxyAccounts)
      modifies `proxyAccounts
      ensures NoIdleProxy(proxyAccounts)
      ensures proxyAccounts == Joined(old(proxyAccounts), proxy, account)
    {
      var there := {};
      if proxy in proxyAccounts {
        there := proxyAccounts[proxy];
      }
      proxyAccounts := proxyAccounts[proxy := there + {account}];
    }

    method CountSession(account: string, now: real, today: int)
      modifies `sessionDates, `sessions, `started
      ensures Sessions() == Recorded(old(Sessions()), Stamp(account, now, today))
    {
      var before := 0;
      if account in sessionDates && sessionDates[account] == today && account in sessions {
        before := sessions[account];
      }
      sessionDates := sessionDates[account := today];
      sessions := sessions[account := before + 1];
      started := started + [Stamp(account, now, today)];
    }

    /** Ends a job; an upload is one Recorded step of the upload counter. */
    method RegisterJobEnd(account: string, proxy: string, uploaded: bool, level: Level, now: real, today: int)
      requires Valid() && NoneAfter(log, Ts(), now)
      modifies `activeJobs, `proxyAccounts, `uploadHistory, `uploadDates, `uploads, `activity, `log
      ensures Valid()
      ensures activeJobs == old(activeJobs) - {account}
      ensures proxyAccounts == Left(old(proxyAccounts), proxy, account)
      ensures Uploads() == if uploaded then Recorded(old(Uploads()), Stamp(account, now, today)) else old(Uploads())
      ensures activity == Released(old(activity), level)
    {
      activeJobs := activeJobs - {account};
      LeaveProxy(account, proxy);
      if uploaded {
        RecordUpload(account, now, today);
      }
      activity := Released(activity, level);
    }

    method LeaveProxy(account: string, proxy: string)
      requires NoIdleProxy(proxyAccounts)
      modifies `proxyAccounts
      ensures NoIdleProxy(proxyAccounts)
      ensures proxyAccounts == Left(old(proxyAccounts), proxy, account)
    {
      if proxy in proxyAccounts {
        proxyAccounts := proxyAccounts[proxy := proxyAccounts[proxy] - {account}];
        if proxyAccounts[proxy] == {} {
          proxyAccounts := proxyAccounts - {proxy};
        }
      }
    }

    method RecordUpload(account: string, now: real, today: int)
      requires uploadHistory == Latest(log, HISTORY_CAP) && Chronological(log, Ts()) && NoneAfter(log, Ts(), now)
      modifies `uploadHistory, `uploadDates, `uploads, `log
      ensures uploadHistory == Latest(log, HISTORY_CAP) && Chronological(log, Ts())
      ensures Uploads() == Recorded(old(Uploads()), Stamp(account, now, today))
    {
      LatestAppend(log, Stamp(account, now, today), HISTORY_CAP);
      uploadHistory := Latest(uploadHistory + [Stamp(account, now, today)], HISTORY_CAP);
      log := log + [Stamp(account, now, today)];
      var before := 0;
      if account in uploadDates && uploadDates[account] == today && account in uploads {
        before := uploads[account];
      }
      uploadDates := uploadDates[account := today];
      uploads := uploads[account := before + 1];
    }

    /** The verdict on the kept history is the verdict on everything ever recorded. */
    method CanUploadNow(account: string, now: real, today: int) returns (ok: bool)
      requires Valid()
      modifies `uploadDates, `uploads
      ensures Valid()
      ensures ok == CanUpload(old(Uploads()), account, now, today)
      ensures Uploads() == Asked(old(Uploads()), account, now, today)
    {
      BoundedHistoryDecidesAlike(log, now);
      var recent10min := CountBy(uploadHistory, WithinLast(now, UPLOAD_WINDOW));
      if recent10min >= UPLOAD_MAX_IN_WINDOW {
        return false;
      }
      var recent1h := CountBy(uploadHistory, WithinLast(now, HOURLY_WINDOW));
      if recent1h >= UPLOAD_MAX_PER_HOUR {
        return false;
      }
      if account !in uploadDates || uploadDates[account] != today {
        uploadDates := uploadDates[account := today];
        uploads := uploads[account := 0];
      }
      ok := (if account in uploads then uploads[account] else 0) < MAX_UPLOADS_PER_ACCOUNT_PER_DAY;
    }

    method CheckSessionAllowed(account: string, today: int) returns (ok: bool)
      requires Valid()
      modifies `sessionDates, `sessions
      ensures Valid()
      ensures ok == SessionCaps.SessionAllowed(old(Sessions()), account, today)
      ensures Sessions() == Opened(old(Sessions()), account, today)
    {
      if account !in sessionDates || sessionDates[account] != today {
        sessionDates := sessionDates[account := today];
        sessions := sessions[account := 0];
      }
      ok := (if account in sessions then sessions[account] else 0) < SessionCaps.MAX_SESSIONS_PER_ACCOUNT_PER_DAY;
    }

    /** The local wish to skip, granted or overruled, is recorded either way. */
    method ShouldAllowSkip(account: string, wantsSkip: bool, draw: real, now: real) returns (skip: bool)
      requires Valid()
      modifies `skipHistory, `lastSkip
      ensures Valid()
      ensures skip == (wantsSkip && SkipGranted(old(skipHistory), account in old(lastSkip) && old(lastSkip)[account], draw, now))
      ensures skipHistory == Latest(old(skipHistory) + [SkipRecord(account, skip, now)], 200)
      ensures lastSkip == old(lastSkip)[account := skip]
    {
      skip := wantsSkip;
      if skip && account in lastSkip && lastSkip[account] && draw < CONSEC_SKIP_PENALTY {
        skip := false;
      }
      if skip {
        var total := Records(skipHistory, now);
        var skips := Skips(skipHistory, now);
        if total > 0 && (skips + 1) as real / (total + 1) as real > SKIP_RATE_CEILING {
          skip := false;
        }
      }
      skipHistory := Latest(skipHistory + [SkipRecord(account, skip, now)], HISTORY_CAP);
      lastSkip := lastSkip[account := skip];
    }

    /** Inflated activity counters are healed against the number of active jobs. */
    method RecomputeActivityCounts()
      requires Valid()
      modifies `activity
      ensures Valid()
      ensures activity == Healed(old(activity), |activeJobs|)
      ensures activity.low <= old(activity).low && activity.medium <= old(activity).medium && activity.high <= old(activity).high
      ensures activity.Total() > |activeJobs| ==>
                old(activity).Total() <= |activeJobs| || Overshoots(old(activity), |activeJobs|)
    {
      HealingShrinks(activity, |activeJobs|);
      if |activeJobs| < activity.Total() {
        HealingOvershootsIff(activity, |activeJobs|);
      }
      var totalActive := |activeJobs|;
      var totalCounted := activity.Total();
      if totalCounted > 0 && totalActive < totalCounted {
        var recomputed := Scaled(activity, totalActive);
        var totalAfter := recomputed.Total();
        if totalAfter > totalActive {
          var excess := totalAfter - totalActive;
          recomputed := recomputed.(medium := if recomputed.medium >= excess then recomputed.medium - excess else 0);
        }
        activity := recomputed;
      }
    }
  }

  /** Two checks before the first upload: one account records two uploads on one day. */
  method TwoUploadsOneDay() returns (c: CrossAccountCoordinator)
    ensures fresh(c) && CountBy(c.log, ByOn("a", 0)) == 2
  {
    c := new CrossAccountCoordinator();
    var first := c.CanUploadNow("a", 0.0, 0);
    var second := c.CanUploadNow("a", 1.0, 0);
    assert first && second;
    c.RegisterJobEnd("a", "p", first, Medium, 2.0, 0);
    c.RegisterJobEnd("a", "p", second, Medium, 3.0, 0);
    CountAppend([], Stamp("a", 2.0, 0), ByOn("a", 0));
    CountAppend([Stamp("a", 2.0, 0)], Stamp("a", 3.0, 0), ByOn("a", 0));
    assert c.log == [Stamp("a", 2.0, 0)] + [Stamp("a", 3.0, 0)];
  }

  /** One session less at its own level, none at the others; an unknown level changes nothing. */
  lemma ReleasedLevels(c: Counts, level: Level)
    ensures var r := Released(c, level);
            && (r == c <==> match level case Low => c.low == 0 case Medium => c.medium == 0 case High => c.high == 0 case Unknown => true)
            && r.Total() == c.Total() - (if r == c then 0 else 1)
            && (r.low != c.low ==> level == Low) && (r.medium != c.medium ==> level == Medium) && (r.high != c.high ==> level == High)
  {
  }

  function Released(c: Counts, level: Level): Counts {
    match level
    case Low => c.(low := if c.low > 0 then c.low - 1 else 0)
    case Medium => c.(medium := if c.medium > 0 then c.medium - 1 else 0)
    case High => c.(high := if c.high > 0 then c.high - 1 else 0)
    case Unknown => c
  }
}
