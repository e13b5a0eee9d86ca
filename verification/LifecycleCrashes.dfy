/** A process that dies loads the last saved state: when the gaps between sessions and between uploads survive. */
module LifecycleCrashes {
  import opened Sequences
  import opened SlidingWindows
  import opened Lifecycles
  import opened LifecycleRuns

  /** All sessions end with the process; the state is that of an earlier dump, the history is what happened. */
  function Crashed(c: Config, saved: Lc, dumpedAt: real, now: real): Config {
    c.(lc := Loaded(Dumped(saved, dumpedAt), now), waiting := multiset{}, active := multiset{}, uploading := multiset{}, clock := now)
  }

  datatype Leg = Sessions(ms: seq<Moment>, end: Config) | Crash(saved: Lc, dumpedAt: real, now: real)

  /** The dump holds the last start, or that start is four hours in the past; and likewise for uploads and
      three days. */
  ghost predicate Timely(c: Config, saved: Lc, now: real) {
    && Recalls(saved.lastSessionAt, c.starts, Instant(), now, SESSION_GAP)
    && Recalls(saved.lastUploadAt, c.uploads, MarkAt(), now, 3.0 * DAY)
  }

  /** Legs of a run with one session at a time, and timely crashes between them. */
  ghost predicate Reaches(c: Config, legs: seq<Leg>, c': Config)
    decreases |legs|
  {
    if |legs| == 0 then c' == c
    else
      match legs[0]
      case Sessions(ms, d) => Run(c, ms, d) && OutAtMost(c, ms, 1) && Reaches(d, legs[1..], c')
      case Crash(saved, dumpedAt, now) =>
        c.clock <= now && Timely(c, saved, now) && Reaches(Crashed(c, saved, dumpedAt, now), legs[1..], c')
  }

  ghost predicate Spacing(c: Config) {
    StartsKept(c, 1) && UploadsKept(c, 1) && Covered(c) && GrantsSpaced(c)
  }

  lemma CrashStarts(c: Config, saved: Lc, dumpedAt: real, now: real)
    requires StartsKept(c, 1) && c.clock <= now && Timely(c, saved, now)
    ensures StartsKept(Crashed(c, saved, dumpedAt, now), 1)
  {
    WaitingKeeps(c.starts, Instant(), |c.waiting|, c.clock, 0, now, SESSION_GAP, HalfOpen, 1);
  }

  lemma CrashUploads(c: Config, saved: Lc, dumpedAt: real, now: real)
    requires UploadsKept(c, 1) && GrantsSpaced(c) && c.clock <= now && Timely(c, saved, now)
    ensures var d := Crashed(c, saved, dumpedAt, now); UploadsKept(d, 1) && Covered(d) && GrantsSpaced(d)
  {
    WaitingKeeps(c.uploads, MarkAt(), |c.uploading|, c.clock, 0, now, DAY, HalfOpen, 1);
  }

  lemma {:induction false} SpacingReached(c: Config, legs: seq<Leg>, c': Config)
    requires Spacing(c) && Reaches(c, legs, c')
    ensures Spacing(c')
    decreases |legs|
  {
    if |legs| > 0 {
      match legs[0]
      case Sessions(ms, d) =>
        SpacingKept(c, ms, d);
        StartsStayKept(c, ms, d, 1);
        SpacingReached(d, legs[1..], c');
      case Crash(saved, dumpedAt, now) =>
        CrashStarts(c, saved, dumpedAt, now);
        CrashUploads(c, saved, dumpedAt, now);
        SpacingReached(Crashed(c, saved, dumpedAt, now), legs[1..], c');
    }
  }

  /** With one session at a time and any number of timely crashes the gaps hold as without crashes. */
  lemma TimelyCrashesKeepSpacing(created: real, legs: seq<Leg>, c: Config)
    requires Reaches(Initial(created), legs, c)
    ensures UploadsSpaced(c.uploads) && Spaced(c.starts, Instant(), 4.0 * HOUR)
  {
    SpacingReached(Initial(created), legs, c);
    OnePerWindowIsSpaced(c.starts, Instant(), SESSION_GAP);
  }

  // ---- A crash that is not timely ----

  /** Whatever sessions follow, one at a time, all starts stay four hours apart. */
  ghost predicate StartsStaySpaced(c: Config) {
    forall ms: seq<Moment>, c': Config :: Run(c, ms, c') && OutAtMost(c, ms, 1) ==> Spaced(c'.starts, Instant(), 4.0 * HOUR)
  }

  /** The gate opens at once when the dump has forgotten all starts but some old enough. */
  lemma OpenAfterCrash(lc: Lc, now: real)
    requires lc.sessionsToday == 0 && lc.counterDate == Some(UtcDay(now))
    requires lc.lastSessionAt.Some? ==> now - lc.lastSessionAt.value >= SESSION_GAP
    ensures Given(lc, Moment(now, Evaluate(Browse, 1.0, 0.0))).Some?
    ensures !Given(lc, Moment(now, Evaluate(Browse, 1.0, 0.0))).value.upload
  {
    GivenIs(lc, Moment(now, Evaluate(Browse, 1.0, 0.0)));
  }

  lemma TwoSteps(c: Config, a: Moment, b: Moment)
    requires Legal(c, a) && Legal(Next(c, a), b)
    requires |c.waiting| + |c.active| <= 1 && |Next(c, a).waiting| + |Next(c, a).active| <= 1
    requires |Next(Next(c, a), b).waiting| + |Next(Next(c, a), b).active| <= 1
    ensures Run(c, [a, b], Next(Next(c, a), b)) && OutAtMost(c, [a, b], 1)
  {
    var d := Next(c, a);
    assert [a, b][1..] == [b] && [b][1..] == [];
    assert Run(d, [b], Next(d, b)) && OutAtMost(d, [b], 1);
  }

  lemma StartAtOnce(c: Config, now: real) returns (ms: seq<Moment>, c': Config)
    requires c.waiting == multiset{} && c.active == multiset{} && c.clock == now
    requires c.lc.sessionsToday == 0 && c.lc.counterDate == Some(UtcDay(now))
    requires c.lc.lastSessionAt.Some? ==> now - c.lc.lastSessionAt.value >= SESSION_GAP
    ensures Run(c, ms, c') && OutAtMost(c, ms, 1) && c'.starts == c.starts + [now]
  {
    var a := Moment(now, Evaluate(Browse, 1.0, 0.0));
    OpenAfterCrash(c.lc, now);
    var g := Given(c.lc, a).value;
    var b := Moment(now, Begin(g));
    NextUploads(c, a);
    NextStarts(c, a);
    NextUploads(Next(c, a), b);
    NextStarts(Next(c, a), b);
    TwoSteps(c, a, b);
    ms, c' := [a, b], Next(Next(c, a), b);
  }

  /** What the dump remembers is a start of the run, the last one of its time. */
  lemma {:induction false} StartsGrow(c: Config, ms: seq<Moment>, c': Config)
    requires Run(c, ms, c') && c.lc.lastSessionAt == LastOf(c.starts, Instant())
    ensures c.starts <= c'.starts && c'.lc.lastSessionAt == LastOf(c'.starts, Instant())
    decreases |ms|
  {
    if |ms| > 0 {
      NextStarts(c, ms[0]);
      LastSessionFollows(c.lc, ms[0]);
      StartsGrow(Next(c, ms[0]), ms[1..], c');
    }
  }

  /** After a crash that loads the state of an earlier moment, the four hours between starts hold in every
      continuation exactly if there was no start since that moment, or the last one is four hours ago. */
  lemma CrashKeepsStartsIff(created: real, ms: seq<Moment>, d: Config, ms': seq<Moment>, c: Config, now: real)
    requires Run(Initial(created), ms, d) && OutAtMost(Initial(created), ms, 1)
    requires Run(d, ms', c) && OutAtMost(d, ms', 1) && c.clock <= now
    ensures StartsStaySpaced(Crashed(c, d.lc, d.clock, now))
            <==> |c.starts| == |d.starts| || (|c.starts| > 0 && now - c.starts[|c.starts| - 1] >= 4.0 * HOUR)
  {
    StartsGrow(Initial(created), ms, d);
    StartsGrow(d, ms', c);
    StartsStayKept(Initial(created), ms, d, 1);
    StartsStayKept(d, ms', c, 1);
    OnePerWindowIsSpaced(c.starts, Instant(), SESSION_GAP);
    if |c.starts| == |d.starts| || (|c.starts| > 0 && now - c.starts[|c.starts| - 1] >= SESSION_GAP) {
      KeptAfterCrash(c, d, now);
    } else {
      BrokenAfterCrash(c, d, now);
    }
  }

  lemma KeptAfterCrash(c: Config, d: Config, now: real)
    requires StartsKept(c, 1) && c.clock <= now && d.starts <= c.starts && d.lc.lastSessionAt == LastOf(d.starts, Instant())
    requires |c.starts| == |d.starts| || (|c.starts| > 0 && now - c.starts[|c.starts| - 1] >= SESSION_GAP)
    ensures StartsStaySpaced(Crashed(c, d.lc, d.clock, now))
  {
    var crashed := Crashed(c, d.lc, d.clock, now);
    WaitingKeeps(c.starts, Instant(), |c.waiting|, c.clock, 0, now, SESSION_GAP, HalfOpen, 1);
    forall ms: seq<Moment>, c': Config | Run(crashed, ms, c') && OutAtMost(crashed, ms, 1)
      ensures Spaced(c'.starts, Instant(), 4.0 * HOUR)
    {
      StartsStayKept(crashed, ms, c', 1);
      OnePerWindowIsSpaced(c'.starts, Instant(), SESSION_GAP);
    }
  }

  lemma BrokenAfterCrash(c: Config, d: Config, now: real)
    requires c.clock <= now && d.starts <= c.starts && |d.starts| < |c.starts| && d.lc.lastSessionAt == LastOf(d.starts, Instant())
    requires Spaced(c.starts, Instant(), SESSION_GAP) && NoneAfter(c.starts, Instant(), c.clock)
    requires now - c.starts[|c.starts| - 1] < SESSION_GAP
    ensures !StartsStaySpaced(Crashed(c, d.lc, d.clock, now))
  {
    var crashed, n := Crashed(c, d.lc, d.clock, now), |c.starts| - 1;
    assert c.starts[n] in c.starts;
    assert d.starts == c.starts[..|d.starts|];
    var ms, c' := StartAtOnce(crashed, now);
    assert c'.starts[n] == c.starts[n] && c'.starts[n + 1] == now;
    assert !Spaced(c'.starts, Instant(), 4.0 * HOUR);
  }
}
