/** The per-account lifecycle state and gate of core/lifecycle_manager.py. Every operation reads
    the clock once; times are seconds since the epoch. */
module Lifecycles {
  import opened Sequences

  const DAY := 86400.0
  const HOUR := 3600.0
  const WARM_UP_DAYS := 7.0
  const RAMP_UP_DAYS := 21.0
  const MIN_SESSION_GAP_HOURS := 4.0
  const COOLDOWN_ANOMALY_THRESHOLD := 2
  const COOLDOWN_HOURS := 48.0
  const COOLDOWN_SEVERE_HOURS := 72.0
  const UPLOAD_MIN_TRUST := 0.70
  const UPLOAD_MAX_FATIGUE := 0.70

  datatype Phase = WarmUp | RampUp | Normal | Cooldown

  datatype Intent = Upload | Browse | Idle | Skip

  datatype Cap = MinSessionGap | MaxSessionsPerDay | PhaseWarmUp | PhaseCooldown | TrustGate | FatigueGate
               | UploadFrequency | MaxUploadsPerDay

  datatype Gate = Gate(allowed: bool, intent: Intent, phase: Phase, cap: Option<Cap>)

  /** counterDate is the UTC day number the two daily counters belong to; None before the first refresh. */
  datatype Lc = Lc(registeredAt: real, sessionsToday: nat, uploadsToday: nat, counterDate: Option<int>,
                   lastSessionAt: Option<real>, lastUploadAt: Option<real>,
                   cooldownUntil: Option<real>, anomalyCount: nat)

  function SessionCap(p: Phase): nat {
    match p case WarmUp => 1 case RampUp => 2 case Normal => 3 case Cooldown => 1
  }

  function UploadCap(p: Phase): nat {
    match p case WarmUp => 0 case RampUp => 1 case Normal => 1 case Cooldown => 0
  }

  function UploadGapDays(p: Phase): real {
    match p case WarmUp => 999.0 case RampUp => 3.0 case Normal => 1.0 case Cooldown => 999.0
  }

  function CooldownHours(severe: bool): real { if severe then COOLDOWN_SEVERE_HOURS else COOLDOWN_HOURS }

  function UtcDay(t: real): int { (t / DAY).Floor }

  // ---- Derived properties ----

  /** A deadline of exactly 0 reads as "no cooldown". */
  function Cooling(s: Lc, now: real): bool {
    s.cooldownUntil.Some? && s.cooldownUntil.value != 0.0 && now < s.cooldownUntil.value
  }

  function AgeDays(s: Lc, now: real): real { (now - s.registeredAt) / DAY }

  function PhaseOf(s: Lc, now: real): Phase {
    if Cooling(s, now) then Cooldown
    else if AgeDays(s, now) < WARM_UP_DAYS then WarmUp
    else if AgeDays(s, now) < RAMP_UP_DAYS then RampUp
    else Normal
  }

  // ---- Operations on values ----

  function Created(now: real): Lc { Lc(now, 0, 0, None, None, None, None, 0) }

  function Refreshed(s: Lc, now: real): Lc {
    if s.counterDate == Some(UtcDay(now)) then s
    else s.(sessionsToday := 0, uploadsToday := 0, counterDate := Some(UtcDay(now)))
  }

  function TooSoon(s: Lc, now: real): bool {
    s.lastSessionAt.Some? && (now - s.lastSessionAt.value) / HOUR < MIN_SESSION_GAP_HOURS
  }

  function UploadTooSoon(s: Lc, now: real): bool {
    s.lastUploadAt.Some? && (now - s.lastUploadAt.value) / DAY < UploadGapDays(PhaseOf(s, now))
  }

  /** The decision tree on a state whose counters are already refreshed; the first match wins. */
  function Decide(s: Lc, requested: Intent, trust: real, fatigue: real, now: real): Gate {
    var phase := PhaseOf(s, now);
    if TooSoon(s, now) then Gate(false, Skip, phase, Some(MinSessionGap))
    else if s.sessionsToday >= SessionCap(phase) then Gate(false, Skip, phase, Some(MaxSessionsPerDay))
    else if requested != Upload then Gate(true, requested, phase, None)
    else if phase == WarmUp then Gate(true, Browse, phase, Some(PhaseWarmUp))
    else if phase == Cooldown then Gate(true, Browse, phase, Some(PhaseCooldown))
    else if trust < UPLOAD_MIN_TRUST then Gate(true, Browse, phase, Some(TrustGate))
    else if fatigue >= UPLOAD_MAX_FATIGUE then Gate(true, Browse, phase, Some(FatigueGate))
    else if UploadTooSoon(s, now) then Gate(true, Browse, phase, Some(UploadFrequency))
    else if s.uploadsToday >= UploadCap(phase) then Gate(true, Browse, phase, Some(MaxUploadsPerDay))
    else Gate(true, Upload, phase, None)
  }

  function GateAt(s: Lc, requested: Intent, trust: real, fatigue: real, now: real): Gate {
    Decide(Refreshed(s, now), requested, trust, fatigue, now)
  }

  function Started(s: Lc, now: real): Lc {
    var r := Refreshed(s, now);
    r.(sessionsToday := r.sessionsToday + 1, lastSessionAt := Some(now))
  }

  function Triggered(s: Lc, severe: bool, now: real): Lc {
    s.(cooldownUntil := Some(now + CooldownHours(severe) * HOUR))
  }

  function Counts(s: Lc, now: real): bool { Refreshed(s, now).uploadsToday < UploadCap(PhaseOf(s, now)) }

  /** An upload is recorded only below the cap of the phase the session ends in. */
  function UploadRecorded(s: Lc, uploaded: bool, now: real): Lc {
    var r := Refreshed(s, now);
    if uploaded && Counts(s, now) then r.(uploadsToday := r.uploadsToday + 1, lastUploadAt := Some(now)) else r
  }

  function Ended(s: Lc, uploaded: bool, anomaly: bool, severe: bool, now: real): Lc {
    var r := UploadRecorded(s, uploaded, now);
    if !anomaly then r.(anomalyCount := if r.anomalyCount > 0 then r.anomalyCount - 1 else 0)
    else
      var a := r.(anomalyCount := r.anomalyCount + 1);
      if a.anomalyCount >= COOLDOWN_ANOMALY_THRESHOLD || severe then Triggered(a, severe, now) else a
  }

  function Cleared(s: Lc): Lc { s.(cooldownUntil := None, anomalyCount := 0) }

  /** What a dump keeps: everything but the day the counters belong to. */
  datatype Dump = Dump(registeredAt: real, sessionsToday: nat, uploadsToday: nat, lastSessionAt: Option<real>,
                       lastUploadAt: Option<real>, cooldownUntil: Option<real>, anomalyCount: nat)

  function Dumped(s: Lc, now: real): Dump {
    var r := Refreshed(s, now);
    Dump(r.registeredAt, r.sessionsToday, r.uploadsToday, r.lastSessionAt, r.lastUploadAt, r.cooldownUntil, r.anomalyCount)
  }

  function Loaded(d: Dump, now: real): Lc {
    Refreshed(Lc(if d.registeredAt != 0.0 then d.registeredAt else now, d.sessionsToday, d.uploadsToday, None,
                 d.lastSessionAt, d.lastUploadAt, d.cooldownUntil, d.anomalyCount), now)
  }

  /** A dump and a load keep what spacing and cooldowns depend on, and forget the daily counters
      even when both happen on the same day. */
  lemma RestartForgetsCounters(s: Lc, dumpedAt: real, now: real)
    ensures var r := Loaded(Dumped(s, dumpedAt), now);
            && r.sessionsToday == 0 && r.uploadsToday == 0 && r.counterDate == Some(UtcDay(now))
            && r.lastSessionAt == s.lastSessionAt && r.lastUploadAt == s.lastUploadAt
            && r.cooldownUntil == s.cooldownUntil && r.anomalyCount == s.anomalyCount
            && (s.registeredAt != 0.0 ==> PhaseOf(r, now) == PhaseOf(s, now))
  {
  }

  // ---- The object ----

  class AccountLifecycle {
    var registeredAt: real
    var sessionsToday: nat
    var uploadsToday: nat
    var counterDate: Option<int>
    var lastSessionAt: Option<real>
    var lastUploadAt: Option<real>
    var cooldownUntil: Option<real>
    var anomalyCount: nat

    function State(): Lc
      reads this
    {
      Lc(registeredAt, sessionsToday, uploadsToday, counterDate, lastSessionAt, lastUploadAt, cooldownUntil, anomalyCount)
    }

    constructor (now: real)
      ensures State() == Created(now)
    {
      registeredAt, sessionsToday, uploadsToday, counterDate := now, 0, 0, None;
      lastSessionAt, lastUploadAt, cooldownUntil, anomalyCount := None, None, None, 0;
    }

    constructor FromDump(d: Dump, now: real)
      ensures State() == Loaded(d, now)
    {
      registeredAt := if d.registeredAt != 0.0 then d.registeredAt else now;
      sessionsToday, uploadsToday, counterDate := d.sessionsToday, d.uploadsToday, None;
      lastSessionAt, lastUploadAt, cooldownUntil, anomalyCount := d.lastSessionAt, d.lastUploadAt, d.cooldownUntil, d.anomalyCount;
      new;
      RefreshDailyCounters(now);
    }

    method RefreshDailyCounters(now: real)
      modifies this
      ensures State() == Refreshed(old(State()), now)
    {
      var today := UtcDay(now);
      if counterDate != Some(today) {
        sessionsToday := 0;
        uploadsToday := 0;
        counterDate := Some(today);
      }
    }

    method ToDump(now: real) returns (d: Dump)
      modifies this
      ensures State() == Refreshed(old(State()), now) && d == Dumped(old(State()), now)
    {
      RefreshDailyCounters(now);
      d := Dump(registeredAt, sessionsToday, uploadsToday, lastSessionAt, lastUploadAt, cooldownUntil, anomalyCount);
    }

    /** The gate's verdict; the only change is the daily refresh. */
    method Evaluate(requested: Intent, trust: real, fatigue: real, now: real) returns (gate: Gate)
      modifies this
      ensures State() == Refreshed(old(State()), now)
      ensures gate == GateAt(old(State()), requested, trust, fatigue, now)
    {
      RefreshDailyCounters(now);
      var phase := PhaseOf(State(), now);
      if lastSessionAt.Some? && (now - lastSessionAt.value) / HOUR < MIN_SESSION_GAP_HOURS {
        return Gate(false, Skip, phase, Some(MinSessionGap));
      }
      if sessionsToday >= SessionCap(phase) {
        return Gate(false, Skip, phase, Some(MaxSessionsPerDay));
      }
      if requested == Upload && phase == WarmUp {
        return Gate(true, Browse, phase, Some(PhaseWarmUp));
      }
      if requested == Upload && phase == Cooldown {
        return Gate(true, Browse, phase, Some(PhaseCooldown));
      }
      if requested == Upload && trust < UPLOAD_MIN_TRUST {
        return Gate(true, Browse, phase, Some(TrustGate));
      }
      if requested == Upload && fatigue >= UPLOAD_MAX_FATIGUE {
        return Gate(true, Browse, phase, Some(FatigueGate));
      }
      if requested == Upload && lastUploadAt.Some? && (now - lastUploadAt.value) / DAY < UploadGapDays(phase) {
        return Gate(true, Browse, phase, Some(UploadFrequency));
      }
      if requested == Upload && uploadsToday >= UploadCap(phase) {
        return Gate(true, Browse, phase, Some(MaxUploadsPerDay));
      }
      return Gate(true, requested, phase, None);
    }

    method RecordSessionStart(now: real)
      modifies this
      ensures State() == Started(old(State()), now)
    {
      RefreshDailyCounters(now);
      sessionsToday := sessionsToday + 1;
      lastSessionAt := Some(now);
    }

    method TriggerCooldown(severe: bool, now: real)
      modifies `cooldownUntil
      ensures State() == Triggered(old(State()), severe, now)
    {
      cooldownUntil := Some(now + CooldownHours(severe) * HOUR);
    }

    method RecordSessionEnd(uploaded: bool, hadAnomaly: bool, severeAnomaly: bool, now: real)
      modifies this
      ensures State() == Ended(old(State()), uploaded, hadAnomaly, severeAnomaly, now)
    {
      RefreshDailyCounters(now);
      var maxUploads := UploadCap(PhaseOf(State(), now));
      if uploaded && uploadsToday < maxUploads {
        uploadsToday := uploadsToday + 1;
        lastUploadAt := Some(now);
      }
      if hadAnomaly {
        anomalyCount := anomalyCount + 1;
        if anomalyCount >= COOLDOWN_ANOMALY_THRESHOLD || severeAnomaly {
          TriggerCooldown(severeAnomaly, now);
        }
      } else {
        anomalyCount := if anomalyCount > 0 then anomalyCount - 1 else 0;
      }
    }

    method ClearCooldown()
      modifies `cooldownUntil, `anomalyCount
      ensures State() == Cleared(old(State()))
    {
      cooldownUntil := None;
      anomalyCount := 0;
    }
  }
}
