/** The window counter and the fleet coordinator object of core/fleet_coordinator.py. */
module Fleets {
  import opened Sequences
  import opened SlidingWindows
  import opened Reals
  import opened FleetRuns

  /** The kept events are the log without its first popped ones, all of which had left the window
      of some instant up to the clock. */
  ghost predicate Keeps(events: seq<real>, log: seq<real>, popped: nat, clock: real, window: real) {
    && Chronological(log, At()) && NoneAfter(log, At(), clock)
    && popped <= |log| && events == log[popped..]
    && forall i :: 0 <= i < popped ==> log[i] < clock - window
  }

  lemma LaterKeeps(events: seq<real>, log: seq<real>, popped: nat, clock: real, now: real, window: real)
    requires Keeps(events, log, popped, clock, window) && clock <= now
    ensures Keeps(events, log, popped, now, window)
  {
  }

  lemma PopKeeps(events: seq<real>, log: seq<real>, popped: nat, clock: real, window: real)
    requires Keeps(events, log, popped, clock, window) && |events| > 0 && events[0] < clock - window
    ensures Keeps(events[1..], log, popped + 1, clock, window)
  {
    assert log[popped] == events[0];
  }

  lemma AppendKeeps(events: seq<real>, log: seq<real>, popped: nat, now: real, window: real)
    requires Keeps(events, log, popped, now, window)
    ensures Keeps(events + [now], log + [now], popped, now, window)
  {
    assert forall i :: 0 <= i < |log| ==> log[i] in log;
  }

  /** Once nothing kept is stale, the number kept is the count over the full history. */
  lemma KeptIsCount(events: seq<real>, log: seq<real>, popped: nat, now: real, window: real)
    requires Keeps(events, log, popped, now, window)
    requires |events| == 0 || events[0] >= now - window
    ensures |events| == InWindow(log, now, window)
  {
    forall i | popped <= i < |log| ensures log[i] >= now - window {
      assert events[0] == log[popped];
    }
    CountIsSuffix(log, At(), popped, now - window);
  }

  class SlidingWindowCounter {
    const window: real
    const limit: nat
    var events: seq<real>
    // everything ever recorded, how much of it was popped, and the latest instant seen
    ghost var log: seq<real>
    ghost var popped: nat
    ghost var clock: real

    ghost predicate Valid()
      reads this
    {
      Keeps(events, log, popped, clock, window)
    }

    constructor (window: real, limit: nat, now: real)
      ensures Valid() && log == [] && clock == now && this.window == window && this.limit == limit
    {
      this.window, this.limit := window, limit;
      events, log, popped, clock := [], [], 0, now;
    }

    /** Counting what is left after popping is counting the full history. */
    method CanProceed(now: real) returns (ok: bool)
      requires Valid() && clock <= now
      modifies this
      ensures Valid() && clock == now && log == old(log)
      ensures ok == (InWindow(log, now, window) < limit)
    {
      LaterKeeps(events, log, popped, clock, now, window);
      clock := now;
      while |events| > 0 && events[0] < now - window
        invariant Valid() && clock == now && log == old(log)
        decreases |events|
      {
        PopKeeps(events, log, popped, now, window);
        events := events[1..];
        popped := popped + 1;
      }
      KeptIsCount(events, log, popped, now, window);
      ok := |events| < limit;
    }

    method Record(now: real)
      requires Valid() && clock <= now
      modifies this
      ensures Valid() && clock == now && log == old(log) + [now]
    {
      LaterKeeps(events, log, popped, clock, now, window);
      AppendKeeps(events, log, popped, now, window);
      events := events + [now];
      log := log + [now];
      clock := now;
    }
  }

  const PLANS_KEPT := 20
  const PLANS_NEEDED := 5

  /** uploads and bans are never reset; plans are the fingerprints of the last twenty sessions. */
  datatype Health = Health(lastSessionAt: real, uploads: nat, bans: nat, sessions: nat, plans: seq<string>)

  const NEW_ACCOUNT := Health(0.0, 0, 0, 0, [])

  function PlansAfter(plans: seq<string>, plan: string): seq<string> {
    var next := plans + [plan];
    if |next| > PLANS_KEPT then next[1..] else next
  }

  function HealthAfter(h: Health, o: Outcome, now: real): Health {
    Health(now, if o.uploaded then h.uploads + 1 else h.uploads, if o.blocked then h.bans + 1 else h.bans,
           h.sessions + 1, PlansAfter(h.plans, o.plan))
  }

  /** An account whose recent plans are too much alike gets a hint for its next session. */
  function HintsAfter(hints: map<string, real>, account: string, plans: seq<string>, threshold: real): map<string, real> {
    if |plans| >= PLANS_NEEDED && Similarity(plans) >= threshold then hints[account := Similarity(plans)] else hints
  }

  // ---- Accounts over a run of results ----

  datatype Finished = Finished(at: real, outcome: Outcome)

  function HealthOf(rs: seq<Finished>): Health {
    if |rs| == 0 then NEW_ACCOUNT else HealthAfter(HealthOf(rs[..|rs| - 1]), rs[|rs| - 1].outcome, rs[|rs| - 1].at)
  }

  function Uploaded(): Finished -> bool { (r: Finished) => r.outcome.uploaded }

  function Banned(): Finished -> bool { (r: Finished) => r.outcome.blocked }

  function PlanOf(): Finished -> string { (r: Finished) => r.outcome.plan }

  lemma PlansFollow(all: seq<string>, plan: string)
    ensures PlansAfter(Latest(all, 20), plan) == Latest(all + [plan], 20)
  {
    LatestAppend(all, plan, 20);
  }

  /** After any results of an account its counters are the numbers of uploads, bans and sessions, and its plans
      the latest twenty. */
  lemma {:induction false} HealthCounts(rs: seq<Finished>)
    ensures var h := HealthOf(rs);
            && h.uploads == CountBy(rs, Uploaded()) && h.bans == CountBy(rs, Banned()) && h.sessions == |rs|
            && h.plans == Latest(Map(rs, PlanOf()), 20)
            && h.lastSessionAt == if |rs| > 0 then rs[|rs| - 1].at else 0.0
  {
    if |rs| > 0 {
      var n := |rs| - 1;
      HealthCounts(rs[..n]);
      PlansFollow(Map(rs[..n], PlanOf()), rs[n].outcome.plan);
    }
  }

  lemma SimilarityIs(plans: seq<string>, top: nat, threshold: real)
    requires |plans| > 0 && top == TopCount(plans, |plans|)
    ensures Product(Similarity(plans), |plans| as real) == top as real
    ensures Similarity(plans) >= threshold <==> top as real >= Product(threshold, |plans| as real)
  {
    RatioIs(top as real, |plans| as real, Similarity(plans), threshold);
  }

  /** A hint is left exactly if there are at least five plans and some plan makes up the threshold of them; it is
      then the share of a most frequent one, and no other account's hint is touched. */
  lemma HintIff(hints: map<string, real>, account: string, plans: seq<string>, threshold: real)
    ensures var h' := HintsAfter(hints, account, plans, threshold);
            var hinted := |plans| >= 5 && exists x :: x in plans && multiset(plans)[x] as real >= Product(threshold, |plans| as real);
            && (!hinted ==> h' == hints)
            && (hinted ==> && account in h' && h' == hints[account := h'[account]]
                           && (forall x :: x in plans ==> Product(h'[account], |plans| as real) >= multiset(plans)[x] as real)
                           && (exists x :: x in plans && Product(h'[account], |plans| as real) == multiset(plans)[x] as real))
  {
    if |plans| >= 5 {
      SimilarityIs(plans, TopCount(plans, |plans|), threshold);
      TopIsMost(plans);
    }
  }

  datatype Reason = Ok | SafeMode | RateLimitSessions

  class FleetCoordinator {
    const sessionLimiter: SlidingWindowCounter
    const uploadLimiter: SlidingWindowCounter
    const banWindow: SlidingWindowCounter
    const minStagger: real
    const maxStagger: real
    const diversityThreshold: real
    var safe: bool
    var accounts: map<string, Health>
    var hints: map<string, real>
    var lastStart: map<string, real>
    var sessionCount: nat
    ghost var clock: real

    ghost function Repr(): set<object> { {this, sessionLimiter, uploadLimiter, banWindow} }

    ghost predicate Valid()
      reads Repr()
    {
      && sessionLimiter != uploadLimiter && sessionLimiter != banWindow && uploadLimiter != banWindow
      && sessionLimiter.Valid() && uploadLimiter.Valid() && banWindow.Valid()
      && sessionLimiter.window == SESSION_WINDOW && uploadLimiter.window == HOUR_WINDOW && banWindow.window == HOUR_WINDOW
      && sessionLimiter.clock <= clock && uploadLimiter.clock <= clock && banWindow.clock <= clock
    }

    ghost function State(): Fleet
      reads Repr()
    {
      Fleet(sessionLimiter.log, uploadLimiter.log, banWindow.log, safe, accounts.Keys, lastStart,
            sessionLimiter.limit, uploadLimiter.limit, banWindow.limit)
    }

    constructor (maxUploads: nat, maxSessions: nat, banThreshold: nat, minStagger: real, maxStagger: real,
                 diversityThreshold: real, now: real)
      ensures Valid() && clock == now && fresh(Repr() - {this})
      ensures State() == NewFleet(maxSessions, maxUploads, banThreshold) && hints == map[]
      ensures this.minStagger == minStagger && this.maxStagger == maxStagger && this.diversityThreshold == diversityThreshold
    {
      var s := new SlidingWindowCounter(SESSION_WINDOW, maxSessions, now);
      var u := new SlidingWindowCounter(HOUR_WINDOW, maxUploads, now);
      var b := new SlidingWindowCounter(HOUR_WINDOW, banThreshold, now);
      sessionLimiter, uploadLimiter, banWindow := s, u, b;
      this.minStagger, this.maxStagger, this.diversityThreshold := minStagger, maxStagger, diversityThreshold;
      safe, accounts, hints, lastStart, sessionCount, clock := false, map[], map[], map[], 0, now;
    }

    /** Asking registers an unknown account; safe mode is looked at before the rate. */
    method RequestSlot(account: string, now: real, minute: int, seed: (string, int) -> real)
      returns (allowed: bool, delay: real, reason: Reason)
      requires Valid() && clock <= now
      modifies `accounts, `clock, sessionLimiter
      ensures Valid() && clock == now
      ensures State() == old(State()).(accounts := old(State()).accounts + {account})
      ensures accounts == if account in old(accounts) then old(accounts) else old(accounts)[account := NEW_ACCOUNT]
      ensures allowed == SlotGranted(old(State()), now)
      ensures delay == if allowed then Stagger(seed, account, minute, minStagger, maxStagger) else 0.0
      ensures reason == if old(safe) then SafeMode else if allowed then Ok else RateLimitSessions
    {
      clock := now;
      if account !in accounts {
        accounts := accounts[account := NEW_ACCOUNT];
      }
      if safe {
        return false, 0.0, SafeMode;
      }
      allowed := sessionLimiter.CanProceed(now);
      if allowed {
        delay, reason := Stagger(seed, account, minute, minStagger, maxStagger), Ok;
      } else {
        delay, reason := 0.0, RateLimitSessions;
      }
    }

    method RequestUploadSlot(now: real) returns (allowed: bool)
      requires Valid() && clock <= now
      modifies `clock, uploadLimiter
      ensures Valid() && clock == now && State() == old(State())
      ensures allowed == UploadGranted(old(State()), now)
    {
      clock := now;
      if safe {
        return false;
      }
      allowed := uploadLimiter.CanProceed(now);
    }

    method RecordSessionStart(account: string, now: real)
      requires Valid() && clock <= now
      modifies `clock, `lastStart, `sessionCount, sessionLimiter
      ensures Valid() && clock == now
      ensures State() == Started(old(State()), account, now)
      ensures sessionCount == old(sessionCount) + 1
    {
      sessionLimiter.Record(now);
      lastStart := lastStart[account := now];
      sessionCount := sessionCount + 1;
      clock := now;
    }

    method ReportResult(account: string, o: Outcome, now: real)
      requires Valid() && clock <= now
      modifies `clock, `accounts, `hints, `safe, banWindow, uploadLimiter
      ensures Valid() && clock == now
      ensures State() == Reported(old(State()), account, o.blocked, o.uploaded, now)
      ensures account !in old(accounts) ==> accounts == old(accounts) && hints == old(hints)
      ensures account in old(accounts) ==>
                && accounts == old(accounts)[account := HealthAfter(old(accounts)[account], o, now)]
                && hints == HintsAfter(old(hints), account, accounts[account].plans, diversityThreshold)
    {
      clock := now;
      if account !in accounts {
        return;
      }
      var h := HealthAfter(accounts[account], o, now);
      accounts := accounts[account := h];
      assert accounts.Keys == old(accounts).Keys;
      CountOutcome(o, now);
      hints := HintsAfter(hints, account, h.plans, diversityThreshold);
    }

    /** One more ban, which turns the fleet safe when it fills the window. */
    method CountBan(now: real)
      requires Valid() && clock == now
      modifies `safe, banWindow
      ensures Valid()
      ensures var bans := old(State()).bans + [now];
              State() == old(State()).(bans := bans, safe := old(safe) || InWindow(bans, now, HOUR_WINDOW) >= banWindow.limit)
    {
      banWindow.Record(now);
      var calm := banWindow.CanProceed(now);
      if !calm {
        safe := true;
      }
    }

    /** The window counters and the mode after one counted result. */
    method CountOutcome(o: Outcome, now: real)
      requires Valid() && clock == now
      modifies `safe, banWindow, uploadLimiter
      ensures Valid()
      ensures var bans := if o.blocked then old(State()).bans + [now] else old(State()).bans;
              State() == old(State()).(bans := bans,
                                       safe := old(safe) || (o.blocked && InWindow(bans, now, HOUR_WINDOW) >= banWindow.limit),
                                       uploads := if o.uploaded then old(State()).uploads + [now] else old(State()).uploads)
    {
      if o.blocked {
        CountBan(now);
      }
      if o.uploaded {
        uploadLimiter.Record(now);
      }
    }

    method SetFleetMode(safeMode: bool)
      requires Valid()
      modifies `safe
      ensures Valid() && State() == old(State()).(safe := safeMode)
    {
      safe := safeMode;
    }

    /** One account of a batch; the pending hint of an account is used up when its session starts. */
    method RunOne(a: Attempt, minute: int, seed: (string, int) -> real) returns (result: seq<Outcome>)
      requires Valid() && clock <= a.askAt <= a.startAt <= a.endAt
      modifies Repr()
      ensures Valid() && clock <= a.endAt
      ensures State() == Attempted(old(State()), a) && result == ResultOf(old(State()), a)
    {
      result := [];
      if !a.signals {
        return;
      }
      var allowed, delay, reason := RequestSlot(a.account, a.askAt, minute, seed);
      if !allowed {
        return;
      }
      RecordSessionStart(a.account, a.startAt);
      hints := hints - {a.account};
      if a.outcome.Some? {
        ReportResult(a.account, a.outcome.value, a.endAt);
        result := [a.outcome.value];
      }
    }

    /** A batch over the accounts in order; what it leaves behind and returns is the batch function's result. */
    method RunBatch(attempts: seq<Attempt>, minute: int, seed: (string, int) -> real) returns (results: seq<Outcome>)
      requires Valid() && InOrder(clock, attempts)
      modifies Repr()
      ensures Valid()
      ensures State() == Batch(old(State()), attempts) && results == Results(old(State()), attempts)
    {
      results := [];
      for i := 0 to |attempts|
        invariant Valid()
        invariant State() == Batch(old(State()), attempts[..i]) && results == Results(old(State()), attempts[..i])
        invariant i < |attempts| ==> clock <= attempts[i].askAt
      {
        assert attempts[..i + 1][..i] == attempts[..i];
        var result := RunOne(attempts[i], minute, seed);
        results := results + result;
      }
      assert attempts[..|attempts|] == attempts;
    }
  }
}
