/** The verdicts of the lifecycle gate in every reachable state: whether a session is allowed, what becomes of
    the intent that was asked for, and which cap is named. */
module LifecycleVerdicts {
  import opened Sequences
  import opened Lifecycles
  import opened LifecycleRuns

  /** The phase by deadline and age. */
  ghost function PhaseAt(s: Lc, now: real): Phase {
    if InCooldown(s, now) then Cooldown
    else if now - s.registeredAt < 604800.0 then WarmUp
    else if now - s.registeredAt < 1814400.0 then RampUp
    else Normal
  }

  /** What it takes to be allowed a session: four hours since the last start, and fewer sessions on this UTC day
      than the phase admits. */
  ghost predicate MayStart(s: Lc, now: real) {
    && (s.lastSessionAt.Some? ==> now - s.lastSessionAt.value >= 14400.0)
    && SessionsOn(s, now) < match PhaseAt(s, now) case WarmUp => 1 case RampUp => 2 case Normal => 3 case Cooldown => 1
  }

  /** The tests of the gate in their order, and whether each one fails. */
  ghost function Tests(s: Lc, upload: bool, trust: real, fatigue: real, now: real): seq<(Cap, bool)> {
    var age := now - s.registeredAt;
    [ (MinSessionGap, s.lastSessionAt.Some? && now - s.lastSessionAt.value < 14400.0),
      (MaxSessionsPerDay, SessionsOn(s, now) >= if InCooldown(s, now) || age < 604800.0 then 1 else if age < 1814400.0 then 2 else 3),
      (PhaseWarmUp, upload && !InCooldown(s, now) && age < 604800.0),
      (PhaseCooldown, upload && InCooldown(s, now)),
      (TrustGate, upload && trust < 0.70),
      (FatigueGate, upload && fatigue >= 0.70),
      (UploadFrequency, upload && s.lastUploadAt.Some? && now - s.lastUploadAt.value < if age < 1814400.0 then 259200.0 else 86400.0) ]
  }

  /** Test i fails and none before it. */
  ghost predicate FirstFailing(tests: seq<(Cap, bool)>, i: nat) {
    i < |tests| && tests[i].1 && forall j :: 0 <= j < i ==> !tests[j].1
  }

  lemma PhaseIs(s: Lc, now: real)
    ensures PhaseOf(s, now) == PhaseOf(Refreshed(s, now), now) == PhaseAt(s, now)
  {
  }

  lemma TooSoonIff(s: Lc, now: real)
    ensures TooSoon(Refreshed(s, now), now) <==> s.lastSessionAt.Some? && now - s.lastSessionAt.value < 14400.0
  {
  }

  lemma UploadTooSoonIff(s: Lc, now: real)
    requires PhaseAt(s, now) == RampUp || PhaseAt(s, now) == Normal
    ensures UploadTooSoon(Refreshed(s, now), now)
            <==> s.lastUploadAt.Some? && now - s.lastUploadAt.value < if now - s.registeredAt < 1814400.0 then 259200.0 else 86400.0
  {
    PhaseIs(s, now);
  }

  /** In every reachable state a session is allowed exactly if MayStart holds; the intent is then the requested
      one, or browsing exactly if an upload was asked for and MayUpload fails; a refused session is skipped. */
  lemma GateVerdict(created: real, ms: seq<Moment>, requested: Intent, trust: real, fatigue: real, now: real)
    ensures var s := States(Created(created), ms);
            var gate := GateAt(s, requested, trust, fatigue, now);
            && (gate.allowed <==> MayStart(s, now))
            && gate.phase == PhaseAt(s, now)
            && gate.intent == if !MayStart(s, now) then Skip
                              else if requested == Upload && !MayUpload(s, trust, fatigue, now) then Browse
                              else requested
  {
    var s := States(Created(created), ms);
    PhaseIs(s, now);
    TooSoonIff(s, now);
    UploadGrantedIff(created, ms, requested, trust, fatigue, now);
  }

  function Place(c: Cap): nat {
    match c
    case MinSessionGap => 0
    case MaxSessionsPerDay => 1
    case PhaseWarmUp => 2
    case PhaseCooldown => 3
    case TrustGate => 4
    case FatigueGate => 5
    case _ => 6
  }

  /** The cap named is that of the first test that fails, and none is named exactly if all tests pass. */
  lemma CapIsFirstFailing(created: real, ms: seq<Moment>, requested: Intent, trust: real, fatigue: real, now: real)
    ensures var s := States(Created(created), ms);
            var tests := Tests(s, requested == Upload, trust, fatigue, now);
            var cap := GateAt(s, requested, trust, fatigue, now).cap;
            && (cap == None <==> forall j :: 0 <= j < |tests| ==> !tests[j].1)
            && (cap.Some? ==> exists i: nat :: FirstFailing(tests, i) && tests[i].0 == cap.value)
  {
    var s := States(Created(created), ms);
    var tests := Tests(s, requested == Upload, trust, fatigue, now);
    var cap := GateAt(s, requested, trust, fatigue, now).cap;
    PhaseIs(s, now);
    TooSoonIff(s, now);
    if PhaseAt(s, now) == RampUp || PhaseAt(s, now) == Normal {
      UploadTooSoonIff(s, now);
    }
    UploadCapNeverDecides(created, ms, requested, trust, fatigue, now);
    if cap.Some? {
      var i := Place(cap.value);
      assert FirstFailing(tests, i) && tests[i].0 == cap.value;
    }
  }
}
