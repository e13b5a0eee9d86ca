/** Check-then-record throttling over a growing log of events: a check counts the events of the last
    window, a granted check may be recorded at any later time. Shared by every gate and throttle. */
module SlidingWindows {
  import opened Sequences

  /** Whether a window of the given length holds its far end. */
  datatype Edge = Closed | HalfOpen

  function Since<T>(ts: T -> real, from: real): T -> bool { (e: T) => ts(e) >= from }

  function Window<T>(ts: T -> real, from: real, length: real, edge: Edge): T -> bool {
    (e: T) => from <= ts(e) && (if edge.Closed? then ts(e) <= from + length else ts(e) < from + length)
  }

  /** The windows opening at from still hold the instant now. */
  predicate Recent(from: real, now: real, length: real, edge: Edge) {
    if edge.Closed? then from >= now - length else from > now - length
  }

  ghost predicate Chronological<T>(log: seq<T>, ts: T -> real) {
    forall i, j :: 0 <= i < j < |log| ==> ts(log[i]) <= ts(log[j])
  }

  ghost predicate NoneAfter<T>(log: seq<T>, ts: T -> real, now: real) {
    forall e :: e in log ==> ts(e) <= now
  }

  /** What a check looks at: no recent window holds as many events as the limit. */
  ghost predicate HasRoom<T(!new)>(log: seq<T>, ts: T -> real, now: real, length: real, edge: Edge, limit: int) {
    forall x: real :: Recent(x, now, length, edge) ==> CountBy(log, Since(ts, x)) < limit
  }

  /** Events of the last window, plus those still to come from granted checks, stay within the bound;
      and every window of the past did. */
  ghost predicate WindowsHold<T(!new)>(log: seq<T>, ts: T -> real, pending: nat, now: real, length: real, edge: Edge, bound: int) {
    && NoneAfter(log, ts, now)
    && (forall x: real :: Recent(x, now, length, edge) ==> CountBy(log, Since(ts, x)) + pending <= bound)
    && (forall x: real :: CountBy(log, Window(ts, x, length, edge)) <= bound)
  }

  lemma ClosedRoom<T(!new)>(log: seq<T>, ts: T -> real, now: real, length: real, limit: int)
    requires CountBy(log, Since(ts, now - length)) < limit
    ensures HasRoom(log, ts, now, length, Closed, limit)
  {
    forall x: real | Recent(x, now, length, Closed) ensures CountBy(log, Since(ts, x)) < limit {
      CountPointwise(log, log, Since(ts, x), Since(ts, now - length));
    }
  }

  /** Time passes, or a grant is given up. */
  lemma WaitingKeeps<T(!new)>(log: seq<T>, ts: T -> real, pending: nat, now: real, pending': nat, now': real,
                              length: real, edge: Edge, bound: int)
    requires WindowsHold(log, ts, pending, now, length, edge, bound) && now <= now' && pending' <= pending
    ensures WindowsHold(log, ts, pending', now', length, edge, bound)
  {
    forall x: real | Recent(x, now', length, edge) ensures CountBy(log, Since(ts, x)) + pending' <= bound {
      assert Recent(x, now, length, edge);
    }
  }

  /** A check that finds room may be granted while at most m grants are out. */
  lemma GrantingKeeps<T(!new)>(log: seq<T>, ts: T -> real, pending: nat, now: real, pending': nat, now': real,
                               length: real, edge: Edge, limit: int, m: nat)
    requires WindowsHold(log, ts, pending, now, length, edge, limit - 1 + m) && now <= now' && pending' <= m
    requires HasRoom(log, ts, now', length, edge, limit)
    ensures WindowsHold(log, ts, pending', now', length, edge, limit - 1 + m)
  {
    forall x: real | Recent(x, now', length, edge) ensures CountBy(log, Since(ts, x)) + pending' <= limit - 1 + m {
      assert CountBy(log, Since(ts, x)) < limit;
    }
  }

  /** Recording turns one outstanding grant into an event. */
  lemma RecordingKeeps<T(!new)>(log: seq<T>, e: T, ts: T -> real, pending: nat, now: real, length: real, edge: Edge, bound: int)
    requires WindowsHold(log, ts, pending + 1, now, length, edge, bound) && now <= ts(e) && length > 0.0
    ensures WindowsHold(log + [e], ts, pending, ts(e), length, edge, bound)
  {
    var log' := log + [e];
    forall x: real | Recent(x, ts(e), length, edge) ensures CountBy(log', Since(ts, x)) + pending <= bound {
      CountAppend(log, e, Since(ts, x));
      assert Recent(x, now, length, edge);
    }
    forall x: real ensures CountBy(log', Window(ts, x, length, edge)) <= bound {
      CountAppend(log, e, Window(ts, x, length, edge));
      if Window(ts, x, length, edge)(e) {
        CountPointwise(log', log', Window(ts, x, length, edge), Since(ts, x));
        assert Recent(x, ts(e), length, edge);
      }
    }
  }

  lemma ChronologicalAppend<T>(log: seq<T>, e: T, ts: T -> real, now: real)
    requires Chronological(log, ts) && NoneAfter(log, ts, now) && now <= ts(e)
    ensures Chronological(log + [e], ts)
  {
    assert forall i :: 0 <= i < |log| ==> log[i] in log;
  }

  // ---- In a chronological log the recent events are the last ones ----

  lemma {:induction false} AllBefore<T>(log: seq<T>, ts: T -> real, from: real)
    requires forall i :: 0 <= i < |log| ==> ts(log[i]) < from
    ensures CountBy(log, Since(ts, from)) == 0
  {
    if |log| > 0 {
      AllBefore(log[..|log| - 1], ts, from);
    }
  }

  /** If exactly the events from position k on are recent, counting is subtracting. */
  lemma {:induction false} CountIsSuffix<T>(log: seq<T>, ts: T -> real, k: nat, from: real)
    requires k <= |log|
    requires forall i :: 0 <= i < k ==> ts(log[i]) < from
    requires forall i :: k <= i < |log| ==> ts(log[i]) >= from
    ensures CountBy(log, Since(ts, from)) == |log| - k
  {
    if k == |log| {
      AllBefore(log, ts, from);
    } else {
      CountIsSuffix(log[..|log| - 1], ts, k, from);
    }
  }

  /** Dropping the oldest k events caps the count at what is left and otherwise keeps it. */
  lemma {:induction false} CountOfLatest<T>(log: seq<T>, ts: T -> real, k: nat, from: real)
    requires Chronological(log, ts) && k <= |log|
    ensures CountBy(log[k..], Since(ts, from))
            == if CountBy(log, Since(ts, from)) <= |log| - k then CountBy(log, Since(ts, from)) else |log| - k
  {
    var n := |log| - 1;
    if k == 0 {
      assert log[0..] == log;
    } else if k <= n {
      assert log[k..][..n - k] == log[..n][k..];
      if ts(log[n]) >= from {
        CountOfLatest(log[..n], ts, k, from);
      } else {
        AllBefore(log, ts, from);
        AllBefore(log[k..], ts, from);
      }
    }
  }

  // ---- Spacing: half-open windows that never hold two events ----

  ghost predicate Spaced<T>(log: seq<T>, ts: T -> real, gap: real) {
    forall i, j :: 0 <= i < j < |log| ==> ts(log[j]) - ts(log[i]) >= gap
  }

  lemma {:induction false} CountPair<T>(log: seq<T>, p: T -> bool, i: nat, j: nat)
    requires i < j < |log| && p(log[i]) && p(log[j])
    ensures CountBy(log, p) >= 2
  {
    var n := |log| - 1;
    if j == n {
      CountOne(log[..n], p, i);
    } else {
      CountPair(log[..n], p, i, j);
    }
  }

  lemma {:induction false} CountOne<T>(log: seq<T>, p: T -> bool, i: nat)
    requires i < |log| && p(log[i])
    ensures CountBy(log, p) >= 1
  {
    if i < |log| - 1 {
      CountOne(log[..|log| - 1], p, i);
    }
  }

  /** One event per half-open window means events a window apart. */
  lemma OnePerWindowIsSpaced<T(!new)>(log: seq<T>, ts: T -> real, length: real)
    requires Chronological(log, ts)
    requires forall x: real :: CountBy(log, Window(ts, x, length, HalfOpen)) <= 1
    ensures Spaced(log, ts, length)
  {
    forall i, j | 0 <= i < j < |log| ensures ts(log[j]) - ts(log[i]) >= length {
      if ts(log[j]) - ts(log[i]) < length {
        CountPair(log, Window(ts, ts(log[i]), length, HalfOpen), i, j);
      }
    }
  }

  lemma {:induction false} WindowSplits<T>(log: seq<T>, ts: T -> real, from: real, a: real, b: real)
    requires a >= 0.0 && b >= 0.0
    ensures CountBy(log, Window(ts, from, a + b, HalfOpen))
            == CountBy(log, Window(ts, from, a, HalfOpen)) + CountBy(log, Window(ts, from + a, b, HalfOpen))
  {
    if |log| > 0 {
      WindowSplits(log[..|log| - 1], ts, from, a, b);
    }
  }

  /** n windows in a row hold at most n times what one may hold. */
  lemma {:induction false} LongWindow<T(!new)>(log: seq<T>, ts: T -> real, from: real, length: real, bound: nat, n: nat, total: real)
    requires length >= 0.0 && n > 0 && total == n as real * length
    requires forall x: real :: CountBy(log, Window(ts, x, length, HalfOpen)) <= bound
    ensures CountBy(log, Window(ts, from, total, HalfOpen)) <= n * bound
    decreases n
  {
    if n == 1 {
      assert total == length;
    } else {
      var rest := OneLonger(n, length, bound);
      WindowSplits(log, ts, from, length, rest);
      LongWindow(log, ts, from + length, length, bound, n - 1, rest);
    }
  }

  // ---- Closed windows ----

  lemma {:induction false} ClosedSplits<T>(log: seq<T>, ts: T -> real, from: real, a: real, b: real)
    requires a >= 0.0 && b >= 0.0
    ensures CountBy(log, Window(ts, from, a + b, Closed))
            <= CountBy(log, Window(ts, from, a, Closed)) + CountBy(log, Window(ts, from + a, b, Closed))
  {
    if |log| > 0 {
      ClosedSplits(log[..|log| - 1], ts, from, a, b);
    }
  }

  lemma OneLonger(n: nat, length: real, bound: nat) returns (rest: real)
    requires n > 1 && length >= 0.0
    ensures rest == (n - 1) as real * length && rest >= 0.0 && n as real * length == length + rest
    ensures n * bound == bound + (n - 1) * bound
  {
    rest := (n - 1) as real * length;
  }

  /** n closed windows in a row hold at most n times what one may hold. */
  lemma {:induction false} LongClosedWindow<T(!new)>(log: seq<T>, ts: T -> real, from: real, length: real, bound: nat, n: nat, total: real)
    requires length >= 0.0 && n > 0 && total == n as real * length
    requires forall x: real :: CountBy(log, Window(ts, x, length, Closed)) <= bound
    ensures CountBy(log, Window(ts, from, total, Closed)) <= n * bound
    decreases n
  {
    if n == 1 {
      assert total == length;
    } else {
      var rest := OneLonger(n, length, bound);
      ClosedSplits(log, ts, from, length, rest);
      LongClosedWindow(log, ts, from + length, length, bound, n - 1, rest);
    }
  }

  lemma {:induction false} NoneInWindow<T>(log: seq<T>, ts: T -> real, from: real, length: real, edge: Edge)
    requires forall i :: 0 <= i < |log| ==> ts(log[i]) < from
    ensures CountBy(log, Window(ts, from, length, edge)) == 0
  {
    if |log| > 0 {
      NoneInWindow(log[..|log| - 1], ts, from, length, edge);
    }
  }

  lemma {:induction false} AllInWindow<T>(log: seq<T>, ts: T -> real, from: real, length: real)
    requires forall i :: 0 <= i < |log| ==> from <= ts(log[i]) <= from + length
    ensures CountBy(log, Window(ts, from, length, Closed)) == |log|
  {
    if |log| > 0 {
      AllInWindow(log[..|log| - 1], ts, from, length);
    }
  }

  lemma {:induction false} AllSince<T>(log: seq<T>, ts: T -> real, from: real)
    requires forall i :: 0 <= i < |log| ==> from <= ts(log[i])
    ensures CountBy(log, Since(ts, from)) == |log|
  {
    if |log| > 0 {
      AllSince(log[..|log| - 1], ts, from);
    }
  }
}
