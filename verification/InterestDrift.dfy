/** The bounded drift of an account's interest weights in core/lifecycle_engine.py, over exact reals.
    A dictionary from niche to weight is a list of niches beside a list of weights. */
module InterestDrifts {
  import opened Sequences
  import opened Reals

  const MAX_DRIFT_PER_DAY := 0.05
  const DRIFT_DEADZONE := 0.01
  const FLOOR := 0.001
  const GAIN_CAP := 0.15
  const SECONDS_PER_DAY := 86400

  datatype Feedback = Feedback(success: bool, ban: bool, niche: string, trend: real)

  datatype Interests = Interests(niches: seq<string>, weights: seq<real>, used: map<int, real>)

  function Same(): real -> real { (x: real) => x }

  function Size(): real -> real { (x: real) => Abs(x) }

  function Sum(xs: seq<real>): real { SumBy(xs, Same()) }

  function AbsSum(xs: seq<real>): real { SumBy(xs, Size()) }

  // ---- One call ----

  function RawDelta(acted: bool, w: real, n: nat, f: Feedback, exploration: real): real
    requires n > 0
  {
    var pull := (f.trend - 0.5) * 0.01 * exploration;
    if acted then
      (if f.success then 0.015 * (1.0 + exploration * 0.5)
       else if f.ban then -0.010 * (1.0 + exploration * 0.3)
       else 0.003 * exploration) + pull
    else (1.0 / n as real - w) * exploration * 0.02 + pull
  }

  /** Small deltas are ignored, large ones capped. */
  function Gated(d: real): real {
    if Abs(d) < DRIFT_DEADZONE then 0.0 else if d > GAIN_CAP then GAIN_CAP else if d < -GAIN_CAP then -GAIN_CAP else d
  }

  function Deltas(niches: seq<string>, ws: seq<real>, f: Feedback, exploration: real): (ds: seq<real>)
    requires |niches| == |ws|
    ensures |ds| == |ws|
  {
    seq(|ws|, i requires 0 <= i < |ws| => Gated(RawDelta(niches[i] == f.niche, ws[i], |ws|, f, exploration)))
  }

  function Times(xs: seq<real>, c: real): (ys: seq<real>)
    ensures |ys| == |xs|
  {
    if |xs| == 0 then [] else Times(xs[..|xs| - 1], c) + [Product(xs[|xs| - 1], c)]
  }

  /** Deltas scaled down to what is left of the day's budget. */
  function Budgeted(ds: seq<real>, remaining: real): (r: seq<real>)
    requires remaining > 0.0
    ensures |r| == |ds|
  {
    if AbsSum(ds) > remaining then Times(ds, Quotient(remaining, AbsSum(ds))) else ds
  }

  function Raised(w: real, d: real): real { if w * 0.97 + d > FLOOR then w * 0.97 + d else FLOOR }

  function RaisedAll(ws: seq<real>, ds: seq<real>): (r: seq<real>)
    requires |ws| == |ds|
    ensures |r| == |ws|
  {
    if |ws| == 0 then []
    else RaisedAll(ws[..|ws| - 1], ds[..|ws| - 1]) + [Raised(ws[|ws| - 1], ds[|ws| - 1])]
  }

  function Normalized(xs: seq<real>): seq<real> {
    Times(xs, if Sum(xs) == 0.0 then 1.0 else Quotient(1.0, Sum(xs)))
  }

  function Drifted(ws: seq<real>, ds: seq<real>): seq<real>
    requires |ws| == |ds|
  {
    Normalized(RaisedAll(ws, ds))
  }

  function DayOf(now: int): int { now / SECONDS_PER_DAY }

  function Used(s: Interests, day: int): real { if day in s.used then s.used[day] else 0.0 }

  ghost predicate Aligned(s: Interests) { |s.niches| == |s.weights| }

  /** The deltas a call applies; None when the day's budget is spent. */
  function Applied(s: Interests, now: int, f: Feedback, exploration: real): (r: Option<seq<real>>)
    requires Aligned(s)
    ensures r.Some? ==> |r.value| == |s.weights|
  {
    var remaining := MAX_DRIFT_PER_DAY - Used(s, DayOf(now));
    if remaining <= 0.0 then None
    else Some(Budgeted(Deltas(s.niches, s.weights, f, exploration), remaining))
  }

  /** The deltas applied, and their total size charged to the day. */
  function Charged(s: Interests, day: int, ds: seq<real>): Interests
    requires |ds| == |s.weights|
  {
    Interests(s.niches, Drifted(s.weights, ds), s.used[day := Used(s, day) + AbsSum(ds)])
  }

  function Evolved(s: Interests, now: int, f: Feedback, exploration: real): Interests
    requires Aligned(s)
  {
    match Applied(s, now, f, exploration)
    case None => s
    case Some(ds) =>
      Charged(s, DayOf(now), ds)
  }

  /** Weights that sum to one, none of them negative, and a budget that was never overdrawn. */
  ghost predicate Sound(s: Interests) {
    && Aligned(s) && |s.weights| > 0
    && (forall i :: 0 <= i < |s.weights| ==> s.weights[i] >= 0.0)
    && Sum(s.weights) == 1.0
    && forall day :: 0.0 <= Used(s, day) <= MAX_DRIFT_PER_DAY
  }

  // ---- Elementwise facts ----

  lemma {:induction false} TimesAt(xs: seq<real>, c: real, i: nat)
    requires i < |xs|
    ensures Times(xs, c)[i] == Product(xs[i], c)
  {
    if i < |xs| - 1 {
      TimesAt(xs[..|xs| - 1], c, i);
    }
  }

  lemma {:induction false} SumTimes(xs: seq<real>, c: real)
    ensures Sum(Times(xs, c)) == Product(Sum(xs), c)
  {
    if |xs| == 0 {
      ProductIs(0.0, c);
    } else {
      var n := |xs| - 1;
      SumTimes(xs[..n], c);
      SumAppend(Times(xs[..n], c), Product(xs[n], c), Same());
      ProductOfSum(Sum(xs[..n]), xs[n], c);
    }
  }

  lemma AbsSumAppend(xs: seq<real>, x: real)
    ensures AbsSum(xs + [x]) == AbsSum(xs) + Abs(x)
  {
    SumAppend(xs, x, Size());
  }

  lemma {:induction false} AbsSumTimes(xs: seq<real>, c: real)
    requires c >= 0.0
    ensures AbsSum(Times(xs, c)) == Product(AbsSum(xs), c)
  {
    if |xs| == 0 {
      ProductIs(0.0, c);
    } else {
      var init, x := xs[..|xs| - 1], xs[|xs| - 1];
      assert xs == init + [x];
      AbsSumTimes(init, c);
      AbsSumAppend(init, x);
      AbsSumAppend(Times(init, c), Product(x, c));
      ProductOfSize(x, c);
      ProductOfSum(AbsSum(init), Abs(x), c);
    }
  }

  lemma {:induction false} RaisedAt(ws: seq<real>, ds: seq<real>, i: nat)
    requires |ws| == |ds| && i < |ws|
    ensures RaisedAll(ws, ds)[i] == Raised(ws[i], ds[i])
  {
    if i < |ws| - 1 {
      RaisedAt(ws[..|ws| - 1], ds[..|ws| - 1], i);
    }
  }

  lemma {:induction false} AbsSumNonNegative(xs: seq<real>)
    ensures AbsSum(xs) >= 0.0
  {
    if |xs| > 0 {
      AbsSumNonNegative(xs[..|xs| - 1]);
    }
  }

  /** What a call charges to the day is what its deltas add up to, and never more than is left. */
  lemma BudgetIsCharged(ds: seq<real>, remaining: real)
    requires remaining > 0.0
    ensures AbsSum(Budgeted(ds, remaining)) == if AbsSum(ds) > remaining then remaining else AbsSum(ds)
    ensures 0.0 <= AbsSum(Budgeted(ds, remaining)) <= remaining
  {
    AbsSumNonNegative(ds);
    if AbsSum(ds) > remaining {
      PositiveQuotient(remaining, AbsSum(ds));
      QuotientIs(remaining, AbsSum(ds));
      AbsSumTimes(ds, Quotient(remaining, AbsSum(ds)));
      ProductOfQuotient(AbsSum(ds), remaining);
    }
  }

  // ---- How far one call moves a weight ----

  /** What the floor adds to one weight. */
  function Lift(w: real, d: real): real { Raised(w, d) - (w * 0.97 + d) }

  function Lifts(ws: seq<real>, ds: seq<real>): real
    requires |ws| == |ds|
  {
    if |ws| == 0 then 0.0 else Lifts(ws[..|ws| - 1], ds[..|ws| - 1]) + Lift(ws[|ws| - 1], ds[|ws| - 1])
  }

  /** The change of each weight before normalization, decay apart. */
  function Shifts(ws: seq<real>, ds: seq<real>): (r: seq<real>)
    requires |ws| == |ds|
    ensures |r| == |ws|
  {
    if |ws| == 0 then []
    else Shifts(ws[..|ws| - 1], ds[..|ws| - 1]) + [ds[|ws| - 1] + Lift(ws[|ws| - 1], ds[|ws| - 1])]
  }

  lemma {:induction false} ShiftsAt(ws: seq<real>, ds: seq<real>, i: nat)
    requires |ws| == |ds| && i < |ws|
    ensures Shifts(ws, ds)[i] == ds[i] + Lift(ws[i], ds[i])
  {
    if i < |ws| - 1 {
      ShiftsAt(ws[..|ws| - 1], ds[..|ws| - 1], i);
    }
  }

  /** How far the decayed weight is below the floor. */
  function Deficit(w: real): real { if w * 0.97 < FLOOR then FLOOR - w * 0.97 else 0.0 }

  function Short(): real -> real { (w: real) => Deficit(w) }

  function Deficits(ws: seq<real>): real { SumBy(ws, Short()) }

  /** The floor makes up for a deficit, or undoes part of the delta that ran into it. */
  lemma ShiftSize(w: real, d: real)
    ensures Abs(d + Lift(w, d)) <= Abs(d) + Deficit(w)
  {
  }

  lemma {:induction false} ShiftSums(ws: seq<real>, ds: seq<real>)
    requires |ws| == |ds|
    ensures Sum(RaisedAll(ws, ds)) == 0.97 * Sum(ws) + Sum(Shifts(ws, ds))
    ensures AbsSum(Shifts(ws, ds)) <= AbsSum(ds) + Deficits(ws)
    ensures Sum(Shifts(ws, ds)) >= -AbsSum(ds)
    ensures Lifts(ws, ds) >= 0.0
  {
    if |ws| > 0 {
      var n := |ws| - 1;
      ShiftSums(ws[..n], ds[..n]);
      var s := ds[n] + Lift(ws[n], ds[n]);
      ShiftSize(ws[n], ds[n]);
      SumAppend(RaisedAll(ws[..n], ds[..n]), Raised(ws[n], ds[n]), Same());
      SumAppend(Shifts(ws[..n], ds[..n]), s, Same());
      SumAppend(Shifts(ws[..n], ds[..n]), s, Size());
    }
  }

  /** The other elements together move no more than their sizes add up to. */
  lemma {:induction false} RestBounded(xs: seq<real>, i: nat)
    requires i < |xs|
    ensures Abs(Sum(xs) - xs[i]) <= AbsSum(xs) - Abs(xs[i])
  {
    var n := |xs| - 1;
    if i == n {
      SumBounded(xs[..n]);
    } else {
      RestBounded(xs[..n], i);
    }
  }

  lemma {:induction false} SumBounded(xs: seq<real>)
    ensures Abs(Sum(xs)) <= AbsSum(xs)
  {
    if |xs| > 0 {
      SumBounded(xs[..|xs| - 1]);
    }
  }

  lemma {:induction false} PartBelowWhole(ws: seq<real>, i: nat)
    requires i < |ws| && forall j :: 0 <= j < |ws| ==> ws[j] >= 0.0
    ensures ws[i] <= Sum(ws)
  {
    var n := |ws| - 1;
    if i == n {
      NonNegativeSum(ws[..n]);
    } else {
      PartBelowWhole(ws[..n], i);
    }
  }

  lemma {:induction false} NonNegativeSum(ws: seq<real>)
    requires forall j :: 0 <= j < |ws| ==> ws[j] >= 0.0
    ensures Sum(ws) >= 0.0
  {
    if |ws| > 0 {
      NonNegativeSum(ws[..|ws| - 1]);
    }
  }

  /** A mixture of two quantities stays within the sum of their sizes. */
  lemma Mixture(w: real, c: real, e: real, rest: real, a: real)
    requires w >= 0.0 && c >= 0.0 && c + w == 1.0 && Abs(rest) <= a - Abs(e)
    ensures Abs(c * e - w * rest) <= a
  {
    var p, q, u, v := c * e, w * rest, c * a, w * a;
    Between(c, e, a, p, u);
    Between(w, rest, a, q, v);
    WholeParts(c, w, a, u, v);
  }

  lemma WholeParts(c: real, w: real, a: real, u: real, v: real)
    requires c + w == 1.0 && u == c * a && v == w * a
    ensures u + v == a
  {
    DistributeReal(c, w, a);
  }

  lemma Reassociate(b: real, t: real, inv: real)
    requires t * inv == 1.0
    ensures inv * (b * t) == b
  {
    assert inv * (b * t) == b * (t * inv);
  }

  lemma QuotientBound(x: real, t: real, inv: real, a: real)
    requires Abs(x) <= a && t >= 0.92 && t * inv == 1.0 && inv > 0.0
    ensures Abs(inv * x) <= a / 0.92
  {
    var b := a / 0.92;
    RealMono(0.92, t, b);
    RealMono(x, b * t, inv);
    RealMono(-(b * t), x, inv);
    Reassociate(b, t, inv);
    Reassociate(-b, t, inv);
    assert inv * -(b * t) == inv * (-b * t);
  }

  /** How far w * 0.97 + e is from its share w of the new total. */
  lemma Numerator(w: real, e: real, total: real, a: real) returns (x: real)
    requires 0.0 <= w <= 1.0 && Abs(total - e) <= a - Abs(e)
    ensures Abs(x) <= a && w * 0.97 + e == x + w * (0.97 + total)
  {
    x := (1.0 - w) * e - w * (total - e);
    Mixture(w, 1.0 - w, e, total - e, a);
  }

  lemma DividedDifference(n: real, x: real, w: real, t: real, inv: real)
    requires t * inv == 1.0 && n == x + w * t
    ensures n * inv - w == inv * x
  {
    Reassociate(w, t, inv);
    DistributeReal(x, w * t, inv);
  }

  lemma MoveOne(w: real, e: real, total: real, a: real, n: real, t: real, moved: real)
    requires 0.0 <= w <= 1.0 && Abs(total - e) <= a - Abs(e)
    requires n == w * 0.97 + e && t == 0.97 + total >= 0.92 && moved == Product(n, Quotient(1.0, t))
    ensures Abs(moved - w) <= a / 0.92
  {
    var x := Numerator(w, e, total, a);
    var inv := Reciprocal(t);
    QuotientIs(1.0, t);
    ProductIs(n, inv);
    DividedDifference(n, x, w, t, inv);
    QuotientBound(x, t, inv, a);
  }

  /** A weight after the drift is its raised value divided by the total. */
  lemma DriftedAt(ws: seq<real>, ds: seq<real>, i: nat, t: real)
    requires |ws| == |ds| && i < |ws| && Sum(ws) == 1.0 && AbsSum(ds) <= MAX_DRIFT_PER_DAY
    requires t == 0.97 + Sum(Shifts(ws, ds))
    ensures |Drifted(ws, ds)| == |ws| && t >= 0.92
    ensures Drifted(ws, ds)[i] == Product(RaisedAll(ws, ds)[i], Quotient(1.0, t))
    ensures RaisedAll(ws, ds)[i] == ws[i] * 0.97 + Shifts(ws, ds)[i]
  {
    var raised := RaisedAll(ws, ds);
    ShiftSums(ws, ds);
    assert Sum(raised) == t;
    RaisedAt(ws, ds, i);
    ShiftsAt(ws, ds, i);
    assert raised[i] == ws[i] * 0.97 + Shifts(ws, ds)[i];
    TimesAt(raised, Quotient(1.0, t), i);
  }

  /** One application of deltas within the budget moves no weight by more than the total shift over 0.92,
      and the total shift is at most the size of the deltas plus what the weights fall short of the floor. */
  lemma DriftIsBounded(ws: seq<real>, ds: seq<real>, i: nat)
    requires |ws| == |ds| && i < |ws| && (forall j :: 0 <= j < |ws| ==> ws[j] >= 0.0) && Sum(ws) == 1.0
    requires AbsSum(ds) <= MAX_DRIFT_PER_DAY
    ensures |Drifted(ws, ds)| == |ws|
    ensures Abs(Drifted(ws, ds)[i] - ws[i]) <= AbsSum(Shifts(ws, ds)) / 0.92
    ensures Abs(Drifted(ws, ds)[i] - ws[i]) <= (AbsSum(ds) + Deficits(ws)) / 0.92
  {
    var shifts, total, a := Shifts(ws, ds), Sum(Shifts(ws, ds)), AbsSum(Shifts(ws, ds));
    var n, moved := RaisedAll(ws, ds)[i], Drifted(ws, ds)[i];
    PartBelowWhole(ws, i);
    RestBounded(shifts, i);
    DriftedAt(ws, ds, i, 0.97 + total);
    MoveOne(ws[i], shifts[i], total, a, n, 0.97 + total, moved);
    ShiftSums(ws, ds);
    LargerBound(moved - ws[i], a, AbsSum(ds) + Deficits(ws));
  }

  lemma LargerBound(x: real, a: real, b: real)
    requires Abs(x) <= a / 0.92 && a <= b
    ensures Abs(x) <= b / 0.92
  {
  }

  lemma {:induction false} AllRaised(ws: seq<real>, ds: seq<real>)
    requires |ws| == |ds|
    ensures forall i :: 0 <= i < |ws| ==> RaisedAll(ws, ds)[i] >= FLOOR
  {
    forall i | 0 <= i < |ws| ensures RaisedAll(ws, ds)[i] >= FLOOR {
      RaisedAt(ws, ds, i);
    }
  }

  lemma {:induction false} FloorSum(xs: seq<real>)
    requires |xs| > 0 && forall i :: 0 <= i < |xs| ==> xs[i] >= FLOOR
    ensures Sum(xs) >= FLOOR
  {
    if |xs| > 1 {
      FloorSum(xs[..|xs| - 1]);
    } else {
      assert Sum(xs[..0]) == 0.0;
    }
  }

  lemma DriftNormalizes(ws: seq<real>, ds: seq<real>)
    requires |ws| == |ds| > 0
    ensures |Drifted(ws, ds)| == |ws| && Sum(Drifted(ws, ds)) == 1.0
    ensures forall i :: 0 <= i < |ws| ==> Drifted(ws, ds)[i] > 0.0
  {
    var raised := RaisedAll(ws, ds);
    AllRaised(ws, ds);
    FloorSum(raised);
    var inv := Quotient(1.0, Sum(raised));
    QuotientIs(1.0, Sum(raised));
    PositiveQuotient(1.0, Sum(raised));
    SumTimes(raised, inv);
    ProductOfQuotient(Sum(raised), 1.0);
    forall i | 0 <= i < |ws| ensures Drifted(ws, ds)[i] > 0.0 {
      TimesAt(raised, inv, i);
      ProductIs(raised[i], inv);
      PositiveProduct(raised[i], inv);
    }
  }

  // ---- What the weights fall short of the floor afterwards ----

  const MAX_INTERESTS := 5

  /** What at least a thousandth of inv is short of, when inv falls short of 1 / 0.97 by y / 0.97. */
  lemma DeficitWithin(x: real, inv: real, y: real, a: real)
    requires x >= 0.001 * inv && 0.97 * inv + y == 1.0 && 0.97 * y <= a && a >= 0.0
    ensures Deficit(x) <= a / 970.0
  {
  }

  lemma NegativeShare(e: real, inv: real)
    requires e <= 0.0 && inv > 0.0
    ensures e * inv <= 0.0
  {
    NonNegativeProduct(-e, inv);
    assert (-e) * inv == -(e * inv);
  }

  lemma PositiveShare(e: real, inv: real)
    requires e >= 0.0 && 0.97 * inv <= 1.0
    ensures 0.97 * (e * inv) <= e
  {
    var rest := 1.0 - 0.97 * inv;
    NonNegativeProduct(e, rest);
    assert e * rest == e - 0.97 * (e * inv);
  }

  /** How much of a share of the total growth beyond the decay is, against the size of the shifts. */
  lemma GrowthShare(e: real, inv: real, a: real) returns (y: real)
    requires (0.97 + e) * inv == 1.0 && inv > 0.0 && e <= a && a >= 0.0
    ensures 0.97 * inv + y == 1.0 && 0.97 * y <= a
  {
    y := e * inv;
    DistributeReal(0.97, e, inv);
    if e <= 0.0 {
      NegativeShare(e, inv);
    } else {
      NonNegativeProduct(e, inv);
      PositiveShare(e, inv);
    }
  }

  lemma FloorShare(r: real, floor: real, inv: real)
    requires r >= floor && inv > 0.0 && floor == 0.001
    ensures r * inv >= 0.001 * inv
  {
    NonNegativeProduct(r - floor, inv);
    DistributeReal(r - floor, floor, inv);
  }

  /** A raised weight falls short of the floor only as far as the total has grown past the decay. */
  lemma DeficitAfter(r: real, e: real, t: real, inv: real, a: real)
    requires r >= FLOOR && t == 0.97 + e && t * inv == 1.0 && inv > 0.0 && e <= a && a >= 0.0
    ensures Deficit(r * inv) <= a / 970.0
  {
    var y := GrowthShare(e, inv, a);
    FloorShare(r, FLOOR, inv);
    DeficitWithin(r * inv, inv, y, a);
  }

  /** n times b, by addition. */
  function Copies(n: nat, b: real): real {
    if n == 0 then 0.0 else Copies(n - 1, b) + b
  }

  lemma {:induction false} DeficitsWithin(xs: seq<real>, b: real)
    requires forall i :: 0 <= i < |xs| ==> Deficit(xs[i]) <= b
    ensures Deficits(xs) <= Copies(|xs|, b)
  {
    if |xs| > 0 {
      DeficitsWithin(xs[..|xs| - 1], b);
    }
  }

  lemma {:induction false} CopiesGrow(m: nat, n: nat, b: real)
    requires m <= n && b >= 0.0
    ensures Copies(m, b) <= Copies(n, b)
  {
    if m < n {
      CopiesGrow(m, n - 1, b);
    }
  }

  lemma DeficitAt(ws: seq<real>, ds: seq<real>, i: nat)
    requires |ws| == |ds| && i < |ws| && Sum(ws) == 1.0 && AbsSum(ds) <= MAX_DRIFT_PER_DAY
    ensures |Drifted(ws, ds)| == |ws| && Deficit(Drifted(ws, ds)[i]) <= AbsSum(Shifts(ws, ds)) / 970.0
  {
    var a, total, r := AbsSum(Shifts(ws, ds)), Sum(Shifts(ws, ds)), RaisedAll(ws, ds)[i];
    AbsSumNonNegative(Shifts(ws, ds));
    SumBounded(Shifts(ws, ds));
    DriftedAt(ws, ds, i, 0.97 + total);
    RaisedAt(ws, ds, i);
    DeficitOfQuotient(r, total, a);
  }

  lemma DeficitOfQuotient(r: real, e: real, a: real)
    requires r >= FLOOR && 0.97 + e >= 0.92 && e <= a && a >= 0.0
    ensures Deficit(Product(r, Quotient(1.0, 0.97 + e))) <= a / 970.0
  {
    var inv := Reciprocal(0.97 + e);
    QuotientIs(1.0, 0.97 + e);
    ProductIs(r, inv);
    DeficitAfter(r, e, 0.97 + e, inv, a);
  }

  lemma FiveDeficits(xs: seq<real>, b: real)
    requires |xs| <= MAX_INTERESTS && b >= 0.0 && forall i :: 0 <= i < |xs| ==> Deficit(xs[i]) <= b
    ensures Deficits(xs) <= 5.0 * b
  {
    DeficitsWithin(xs, b);
    CopiesGrow(|xs|, MAX_INTERESTS, b);
    assert Copies(1, b) == b;
    assert Copies(3, b) == b + b + b;
  }

  lemma DeficitsAfter(ws: seq<real>, ds: seq<real>)
    requires 0 < |ws| == |ds| <= MAX_INTERESTS && Sum(ws) == 1.0 && AbsSum(ds) <= MAX_DRIFT_PER_DAY
    ensures Deficits(Drifted(ws, ds)) <= AbsSum(Shifts(ws, ds)) / 194.0
  {
    var drifted, b := Drifted(ws, ds), AbsSum(Shifts(ws, ds)) / 970.0;
    AbsSumNonNegative(Shifts(ws, ds));
    DeficitAt(ws, ds, 0);
    forall i | 0 <= i < |drifted| ensures Deficit(drifted[i]) <= b {
      DeficitAt(ws, ds, i);
    }
    FiveDeficits(drifted, b);
  }

  // ---- Calls and days ----

  lemma AppliedFits(s: Interests, now: int, f: Feedback, exploration: real)
    requires Sound(s) && Applied(s, now, f, exploration).Some?
    ensures var ds := Applied(s, now, f, exploration).value;
            |ds| == |s.weights| && 0.0 <= AbsSum(ds) <= MAX_DRIFT_PER_DAY - Used(s, DayOf(now))
  {
    BudgetIsCharged(Deltas(s.niches, s.weights, f, exploration), MAX_DRIFT_PER_DAY - Used(s, DayOf(now)));
  }

  /** On a day without any drift yet a call applies and charges its deltas in full, up to 0.05. */
  lemma FreshDayBudget(s: Interests, now: int, f: Feedback, exploration: real)
    requires Aligned(s) && DayOf(now) !in s.used
    ensures var whole := AbsSum(Deltas(s.niches, s.weights, f, exploration));
            Used(Evolved(s, now, f, exploration), DayOf(now)) == if whole > 0.05 then 0.05 else whole
  {
    BudgetIsCharged(Deltas(s.niches, s.weights, f, exploration), 0.05);
  }

  lemma ChargingKeepsSound(s: Interests, day: int, ds: seq<real>)
    requires Sound(s) && |ds| == |s.weights| && 0.0 <= AbsSum(ds) <= MAX_DRIFT_PER_DAY - Used(s, day)
    ensures Sound(Charged(s, day, ds))
    ensures forall d :: Used(Charged(s, day, ds), d) == if d == day then Used(s, day) + AbsSum(ds) else Used(s, d)
  {
    DriftNormalizes(s.weights, ds);
    var s' := Charged(s, day, ds);
    forall d ensures 0.0 <= Used(s', d) <= MAX_DRIFT_PER_DAY {
      assert 0.0 <= Used(s, d) <= MAX_DRIFT_PER_DAY;
    }
  }

  /** Whatever the weights were, all zero included, a call within the budget leaves them positive with sum one. */
  lemma ChargedCallNormalizes(s: Interests, now: int, f: Feedback, exploration: real)
    requires Aligned(s) && |s.weights| > 0 && Used(s, DayOf(now)) < MAX_DRIFT_PER_DAY
    ensures var ws := Evolved(s, now, f, exploration).weights;
            |ws| == |s.weights| && Sum(ws) == 1.0 && forall i :: 0 <= i < |ws| ==> ws[i] > 0.0
  {
    DriftNormalizes(s.weights, Applied(s, now, f, exploration).value);
  }

  /** Every call keeps the niches, nonnegative weights with sum one, and every day within its budget. */
  lemma EvolvingKeepsSound(s: Interests, now: int, f: Feedback, exploration: real)
    requires Sound(s)
    ensures Sound(Evolved(s, now, f, exploration))
    ensures Evolved(s, now, f, exploration).niches == s.niches
    ensures forall day :: day != DayOf(now) ==> Used(Evolved(s, now, f, exploration), day) == Used(s, day)
  {
    if Applied(s, now, f, exploration).Some? {
      AppliedFits(s, now, f, exploration);
      ChargingKeepsSound(s, DayOf(now), Applied(s, now, f, exploration).value);
    }
  }

  /** What one call shifts in all before normalizing; nothing once the day's budget is spent. */
  function Shifted(s: Interests, now: int, f: Feedback, exploration: real): real
    requires Aligned(s)
  {
    match Applied(s, now, f, exploration)
    case None => 0.0
    case Some(ds) => AbsSum(Shifts(s.weights, ds))
  }

  /** One call moves a weight by at most its shift over 0.92. */
  lemma CallMoves(s: Interests, now: int, f: Feedback, exploration: real, i: nat)
    requires Sound(s) && i < |s.weights|
    ensures |Evolved(s, now, f, exploration).weights| == |s.weights|
    ensures Abs(Evolved(s, now, f, exploration).weights[i] - s.weights[i]) <= Shifted(s, now, f, exploration) / 0.92
  {
    if Applied(s, now, f, exploration).Some? {
      AppliedFits(s, now, f, exploration);
      DriftIsBounded(s.weights, Applied(s, now, f, exploration).value, i);
    }
  }

  /** What a call shifts is paid for by the day's budget and by what the weights were short of the floor. */
  lemma CallIsPaid(s: Interests, now: int, f: Feedback, exploration: real)
    requires Sound(s) && |s.weights| <= MAX_INTERESTS
    ensures var s' := Evolved(s, now, f, exploration);
            193.0 * Shifted(s, now, f, exploration)
            <= 194.0 * (Used(s', DayOf(now)) - Used(s, DayOf(now)) + Deficits(s.weights) - Deficits(s'.weights))
  {
    if Applied(s, now, f, exploration).Some? {
      var ds := Applied(s, now, f, exploration).value;
      AppliedFits(s, now, f, exploration);
      ShiftSums(s.weights, ds);
      DeficitsAfter(s.weights, ds);
    }
  }

  /** If no weight runs into the floor, a call shifts exactly what it charges. */
  lemma UntouchedIsPaid(s: Interests, now: int, f: Feedback, exploration: real)
    requires Sound(s) && Untouched(s, now, f, exploration)
    ensures Shifted(s, now, f, exploration) == Used(Evolved(s, now, f, exploration), DayOf(now)) - Used(s, DayOf(now))
  {
    if Applied(s, now, f, exploration).Some? {
      NoLiftNoShift(s.weights, Applied(s, now, f, exploration).value);
    }
  }

  ghost predicate Untouched(s: Interests, now: int, f: Feedback, exploration: real)
    requires Aligned(s)
  {
    match Applied(s, now, f, exploration)
    case None => true
    case Some(ds) => forall i :: 0 <= i < |ds| ==> s.weights[i] * 0.97 + ds[i] >= FLOOR
  }

  lemma {:induction false} NoLiftNoShift(ws: seq<real>, ds: seq<real>)
    requires |ws| == |ds| && forall i :: 0 <= i < |ds| ==> ws[i] * 0.97 + ds[i] >= FLOOR
    ensures Shifts(ws, ds) == ds
  {
    forall i | 0 <= i < |ws| ensures Shifts(ws, ds)[i] == ds[i] {
      ShiftsAt(ws, ds, i);
    }
  }

  datatype Call = Call(now: int, feedback: Feedback, exploration: real)

  function Evolve(s: Interests, c: Call): (r: Interests)
    requires Aligned(s)
  {
    Evolved(s, c.now, c.feedback, c.exploration)
  }

  lemma EvolveKeepsSound(s: Interests, c: Call)
    requires Sound(s)
    ensures Sound(Evolve(s, c)) && Evolve(s, c).niches == s.niches && |Evolve(s, c).weights| == |s.weights|
  {
    EvolvingKeepsSound(s, c.now, c.feedback, c.exploration);
  }

  /** The states a sequence of calls runs through, from s to s'. */
  ghost predicate Run(s: Interests, calls: seq<Call>, s': Interests)
    decreases |calls|
  {
    if |calls| == 0 then s' == s else Aligned(s) && Run(Evolve(s, calls[0]), calls[1..], s')
  }

  /** No weight runs into the floor in any of the calls. */
  ghost predicate FloorUntouched(s: Interests, calls: seq<Call>)
    decreases |calls|
  {
    |calls| > 0 ==> && Aligned(s) && Untouched(s, calls[0].now, calls[0].feedback, calls[0].exploration)
                    && FloorUntouched(Evolve(s, calls[0]), calls[1..])
  }

  lemma {:induction false} RunKeepsSound(s: Interests, calls: seq<Call>, s': Interests)
    requires Sound(s) && Run(s, calls, s')
    ensures Sound(s') && s'.niches == s.niches && |s'.weights| == |s.weights|
    decreases |calls|
  {
    if |calls| > 0 {
      EvolveKeepsSound(s, calls[0]);
      RunKeepsSound(Evolve(s, calls[0]), calls[1..], s');
    }
  }

  lemma AddMoves(a: real, b: real, c: real, x: real, y: real)
    requires Abs(b - a) <= x / 0.92 && Abs(c - b) <= y / 0.92
    ensures Abs(c - a) <= (x + y) / 0.92
  {
  }

  ghost predicate SameDay(calls: seq<Call>, day: int) { forall i :: 0 <= i < |calls| ==> DayOf(calls[i].now) == day }

  /** The movement of the first call, and its price, from its own lemmas. */
  lemma FirstCall(s: Interests, c: Call, i: nat) returns (x: real)
    requires Sound(s) && i < |s.weights|
    ensures Sound(Evolve(s, c)) && |Evolve(s, c).weights| == |s.weights|
    ensures Abs(Evolve(s, c).weights[i] - s.weights[i]) <= x / 0.92
    ensures |s.weights| <= MAX_INTERESTS ==>
              193.0 * x <= 194.0 * (Used(Evolve(s, c), DayOf(c.now)) - Used(s, DayOf(c.now)) + Deficits(s.weights) - Deficits(Evolve(s, c).weights))
    ensures Untouched(s, c.now, c.feedback, c.exploration) ==> x == Used(Evolve(s, c), DayOf(c.now)) - Used(s, DayOf(c.now))
  {
    x := Shifted(s, c.now, c.feedback, c.exploration);
    EvolveKeepsSound(s, c);
    CallMoves(s, c.now, c.feedback, c.exploration, i);
    if |s.weights| <= MAX_INTERESTS {
      CallIsPaid(s, c.now, c.feedback, c.exploration);
    }
    if Untouched(s, c.now, c.feedback, c.exploration) {
      UntouchedIsPaid(s, c.now, c.feedback, c.exploration);
    }
  }

  lemma {:induction false} DayMoves(s: Interests, calls: seq<Call>, s': Interests, day: int, i: nat) returns (x: real)
    requires Sound(s) && i < |s.weights| <= MAX_INTERESTS && Run(s, calls, s') && SameDay(calls, day)
    ensures |s'.weights| == |s.weights| && Abs(s'.weights[i] - s.weights[i]) <= x / 0.92
    ensures 193.0 * x <= 194.0 * (Used(s', day) - Used(s, day) + Deficits(s.weights) - Deficits(s'.weights))
    decreases |calls|
  {
    if |calls| == 0 {
      x := 0.0;
    } else {
      var x1 := FirstCall(s, calls[0], i);
      var x2 := DayMoves(Evolve(s, calls[0]), calls[1..], s', day, i);
      x := x1 + x2;
      AddMoves(s.weights[i], Evolve(s, calls[0]).weights[i], s'.weights[i], x1, x2);
    }
  }

  lemma {:induction false} DeficitsNonNegative(ws: seq<real>)
    ensures Deficits(ws) >= 0.0
  {
    if |ws| > 0 {
      DeficitsNonNegative(ws[..|ws| - 1]);
    }
  }

  /** However many calls a day sees, no weight moves by more than 194/193 of the daily budget plus what
      the weights are short of the floor when the day begins, over 0.92. */
  lemma DailyMovementBounded(s: Interests, calls: seq<Call>, s': Interests, day: int, i: nat)
    requires Sound(s) && i < |s.weights| <= MAX_INTERESTS && Run(s, calls, s') && SameDay(calls, day)
    ensures |s'.weights| == |s.weights|
    ensures Abs(s'.weights[i] - s.weights[i]) <= 194.0 / 193.0 * (0.05 + Deficits(s.weights)) / 0.92
  {
    var x := DayMoves(s, calls, s', day, i);
    RunKeepsSound(s, calls, s');
    DeficitsNonNegative(s'.weights);
    assert 0.0 <= Used(s, day) && Used(s', day) <= 0.05;
  }

  lemma UntouchedCall(s: Interests, c: Call, day: int, i: nat)
    requires Sound(s) && i < |s.weights| && DayOf(c.now) == day && Untouched(s, c.now, c.feedback, c.exploration)
    ensures var s' := Evolve(s, c);
            Sound(s') && |s'.weights| == |s.weights| && Abs(s'.weights[i] - s.weights[i]) <= (Used(s', day) - Used(s, day)) / 0.92
  {
    var x := FirstCall(s, c, i);
  }

  lemma {:induction false} UntouchedDayMoves(s: Interests, calls: seq<Call>, s': Interests, day: int, i: nat)
    requires Sound(s) && i < |s.weights| && Run(s, calls, s') && SameDay(calls, day) && FloorUntouched(s, calls)
    ensures |s'.weights| == |s.weights|
    ensures Abs(s'.weights[i] - s.weights[i]) <= (Used(s', day) - Used(s, day)) / 0.92
    decreases |calls|
  {
    if |calls| > 0 {
      var next := Evolve(s, calls[0]);
      UntouchedCall(s, calls[0], day, i);
      UntouchedDayMoves(next, calls[1..], s', day, i);
      AddMoves(s.weights[i], next.weights[i], s'.weights[i], Used(next, day) - Used(s, day), Used(s', day) - Used(next, day));
    }
  }

  /** While no weight runs into the floor, no weight moves by more than 0.05 / 0.92 in a day. */
  lemma DailyMovementAboveFloor(s: Interests, calls: seq<Call>, s': Interests, day: int, i: nat)
    requires Sound(s) && i < |s.weights| && Run(s, calls, s') && SameDay(calls, day) && FloorUntouched(s, calls)
    ensures |s'.weights| == |s.weights| && Abs(s'.weights[i] - s.weights[i]) <= 0.05 / 0.92
  {
    UntouchedDayMoves(s, calls, s', day, i);
    RunKeepsSound(s, calls, s');
    assert 0.0 <= Used(s, day) && Used(s', day) <= 0.05;
  }

  // ---- The floor and the decay ----

  ghost predicate Clears(ws: seq<real>, ds: seq<real>, i: nat)
    requires i < |ws| == |ds|
  {
    ws[i] * 0.97 + ds[i] >= FLOOR
  }

  lemma LiftSign(w: real, d: real)
    ensures Lift(w, d) >= 0.0 && (Lift(w, d) == 0.0 <==> w * 0.97 + d >= FLOOR)
  {
  }

  lemma {:induction false} LiftsSign(ws: seq<real>, ds: seq<real>)
    requires |ws| == |ds|
    ensures Lifts(ws, ds) >= 0.0
    ensures Lifts(ws, ds) == 0.0 <==> forall i :: 0 <= i < |ws| ==> Clears(ws, ds, i)
  {
    if |ws| > 0 {
      var n := |ws| - 1;
      LiftsSign(ws[..n], ds[..n]);
      LiftSign(ws[n], ds[n]);
      assert Clears(ws, ds, n) <==> Lift(ws[n], ds[n]) == 0.0;
      forall i | 0 <= i < n ensures Clears(ws, ds, i) <==> Clears(ws[..n], ds[..n], i) {
      }
    }
  }

  /** The floor adds nothing exactly when no decayed and shifted weight falls below it. */
  lemma NoLiftsIff(ws: seq<real>, ds: seq<real>)
    requires |ws| == |ds|
    ensures Lifts(ws, ds) == 0.0 <==> forall i :: 0 <= i < |ws| ==> ws[i] * 0.97 + ds[i] >= FLOOR
  {
    LiftsSign(ws, ds);
    forall i | 0 <= i < |ws| ensures Clears(ws, ds, i) <==> ws[i] * 0.97 + ds[i] >= FLOOR {
    }
  }

  /** Nothing is short of the floor exactly when no decayed weight is below it. */
  lemma {:induction false} NoDeficitsIff(ws: seq<real>)
    ensures Deficits(ws) == 0.0 <==> forall i :: 0 <= i < |ws| ==> ws[i] * 0.97 >= FLOOR
  {
    if |ws| > 0 {
      var n := |ws| - 1;
      NoDeficitsIff(ws[..n]);
      DeficitsNonNegative(ws[..n]);
      assert forall i :: 0 <= i < n ==> ws[..n][i] == ws[i];
      assert Deficits(ws) == Deficits(ws[..n]) + Deficit(ws[n]);
      if forall i :: 0 <= i < n ==> ws[i] * 0.97 >= FLOOR {
        assert forall i :: 0 <= i < n ==> ws[..n][i] * 0.97 >= FLOOR;
      }
    }
  }

  /** Decay alone is undone by normalizing: without deltas and above the floor nothing changes. */
  lemma DecayAloneIsNeutral(ws: seq<real>, ds: seq<real>)
    requires |ws| == |ds| && Sum(ws) == 1.0
    requires forall i :: 0 <= i < |ws| ==> ws[i] * 0.97 >= FLOOR && ds[i] == 0.0
    ensures Drifted(ws, ds) == ws
  {
    NoLiftNoShift(ws, ds);
    AllZero(ds);
    forall i | 0 <= i < |ws| ensures |Drifted(ws, ds)| == |ws| && Drifted(ws, ds)[i] == ws[i] {
      DriftedAt(ws, ds, i, 0.97);
      DecayUndone(ws[i]);
    }
  }

  lemma {:induction false} AllZero(ds: seq<real>)
    requires forall i :: 0 <= i < |ds| ==> ds[i] == 0.0
    ensures Sum(ds) == 0.0 && AbsSum(ds) == 0.0
  {
    if |ds| > 0 {
      AllZero(ds[..|ds| - 1]);
    }
  }

  lemma DecayUndone(w: real)
    ensures Product(w * 0.97, Quotient(1.0, 0.97)) == w
  {
    QuotientIs(1.0, 0.97);
    ProductIs(w * 0.97, 1.0 / 0.97);
  }

  /** A positive weight whose own delta is zero stays where it is exactly when the other shifts cancel out. */
  lemma UntouchedWeightStaysIff(ws: seq<real>, ds: seq<real>, i: nat)
    requires |ws| == |ds| && i < |ws| && Sum(ws) == 1.0 && AbsSum(ds) <= MAX_DRIFT_PER_DAY
    requires ds[i] == 0.0 && ws[i] > 0.0 && ws[i] * 0.97 >= FLOOR
    ensures |Drifted(ws, ds)| == |ws|
    ensures Drifted(ws, ds)[i] == ws[i] <==> Sum(Shifts(ws, ds)) == 0.0
  {
    var total := Sum(Shifts(ws, ds));
    DriftedAt(ws, ds, i, 0.97 + total);
    ShiftsAt(ws, ds, i);
    StaysIff(ws[i], total, Drifted(ws, ds)[i]);
  }

  lemma ZeroFactor(a: real, b: real)
    requires a * b == 0.0 && b != 0.0
    ensures a == 0.0
  {
  }

  lemma Residue(w: real, total: real, t: real, moved: real)
    requires t == 0.97 + total && moved * t == w * 0.97
    ensures (moved - w) * t == -(w * total)
  {
    DistributeReal(moved, -w, t);
    assert -w * t == -(w * 0.97) - w * total;
  }

  lemma StaysIff(w: real, total: real, moved: real)
    requires w > 0.0 && 0.97 + total > 0.0 && moved == Product(w * 0.97, Quotient(1.0, 0.97 + total))
    ensures moved == w <==> total == 0.0
  {
    var t := 0.97 + total;
    var inv := Reciprocal(t);
    QuotientIs(1.0, t);
    ProductIs(w * 0.97, inv);
    TimesBack(w * 0.97, t, inv);
    Residue(w, total, t, moved);
    if moved == w {
      ZeroFactor(total, w);
    } else if total == 0.0 {
      ZeroFactor(moved - w, t);
    }
  }

  lemma TimesBack(n: real, t: real, inv: real)
    requires t * inv == 1.0
    ensures (n * inv) * t == n
  {
    assert (n * inv) * t == n * (t * inv);
  }

  lemma SmallPull(e: real, p: real, x: real)
    requires e >= 0.0 && -p <= x <= p && p == 0.005
    ensures -0.005 * e <= x * e <= 0.005 * e
  {
    NonNegativeProduct(e, p - x);
    NonNegativeProduct(e, p + x);
    assert e * (p - x) == p * e - x * e && e * (p + x) == p * e + x * e;
  }

  lemma NeutralDelta(x: real, e: real, d: real)
    requires 0.0 <= e <= 1.0 && Abs(x) <= 0.005 && d == 0.003 * e + x * e
    ensures Abs(d) < 0.01
  {
    SmallPull(e, 0.005, x);
  }

  /** With trend and exploration in [0, 1] the delta of the acted niche falls in the dead zone whenever the
      outcome is neither success nor ban; the niche then moves only as the others' shifts and the
      normalization move it. */
  lemma NeutralOutcomeIsIgnored(w: real, n: nat, f: Feedback, exploration: real)
    requires n > 0 && !f.success && !f.ban && 0.0 <= f.trend <= 1.0 && 0.0 <= exploration <= 1.0
    ensures Gated(RawDelta(true, w, n, f, exploration)) == 0.0
  {
    NeutralDelta((f.trend - 0.5) * 0.01, exploration, RawDelta(true, w, n, f, exploration));
  }

  // ---- The loops of one call ----

  /** The weights a call leaves and what it charges. */
  function Drifting(niches: seq<string>, ws: seq<real>, f: Feedback, exploration: real, remaining: real): (seq<real>, real)
    requires |niches| == |ws| && remaining > 0.0
  {
    var ds := Budgeted(Deltas(niches, ws, f, exploration), remaining);
    (Drifted(ws, ds), AbsSum(ds))
  }

  lemma SpendingEvolves(s: Interests, now: int, f: Feedback, exploration: real, remaining: real, drifted: seq<real>, used: real)
    requires Aligned(s) && remaining == MAX_DRIFT_PER_DAY - Used(s, DayOf(now)) > 0.0
    requires (drifted, used) == Drifting(s.niches, s.weights, f, exploration, remaining)
    ensures Evolved(s, now, f, exploration)
            == Interests(s.niches, drifted, s.used[DayOf(now) := Used(s, DayOf(now)) + used])
  {
  }

  method Drift(niches: seq<string>, ws: seq<real>, f: Feedback, exploration: real, remaining: real)
    returns (drifted: seq<real>, used: real)
    requires |niches| == |ws| && remaining > 0.0
    ensures (drifted, used) == Drifting(niches, ws, f, exploration, remaining)
  {
    var deltas := ComputeDeltas(niches, ws, f, exploration);
    var applied;
    applied, used := FitBudget(deltas, remaining);
    var raised := ApplyDrift(ws, applied);
    drifted := Normalized(raised);
  }

  method FitBudget(deltas: seq<real>, remaining: real) returns (applied: seq<real>, used: real)
    requires remaining > 0.0
    ensures applied == Budgeted(deltas, remaining) && used == AbsSum(applied)
    ensures 0.0 <= used <= remaining
  {
    BudgetIsCharged(deltas, remaining);
    var totalAbs := AbsSum(deltas);
    if totalAbs > remaining {
      applied, used := Times(deltas, Quotient(remaining, totalAbs)), remaining;
    } else {
      applied, used := deltas, totalAbs;
    }
  }

  method ComputeDeltas(niches: seq<string>, ws: seq<real>, f: Feedback, exploration: real) returns (ds: seq<real>)
    requires |niches| == |ws|
    ensures ds == Deltas(niches, ws, f, exploration)
  {
    ds := [];
    for i := 0 to |ws|
      invariant |ds| == i
      invariant forall k :: 0 <= k < i ==> ds[k] == Gated(RawDelta(niches[k] == f.niche, ws[k], |ws|, f, exploration))
    {
      var delta := RawDelta(niches[i] == f.niche, ws[i], |ws|, f, exploration);
      if Abs(delta) < DRIFT_DEADZONE {
        delta := 0.0;
      }
      delta := if delta > GAIN_CAP then GAIN_CAP else if delta < -GAIN_CAP then -GAIN_CAP else delta;
      ds := ds + [delta];
    }
  }

  method ApplyDrift(ws: seq<real>, ds: seq<real>) returns (raised: seq<real>)
    requires |ws| == |ds|
    ensures raised == RaisedAll(ws, ds)
  {
    raised := [];
    for i := 0 to |ws|
      invariant raised == RaisedAll(ws[..i], ds[..i])
    {
      assert ws[..i + 1][..i] == ws[..i] && ds[..i + 1][..i] == ds[..i];
      var w := ws[i] * 0.97 + ds[i];
      raised := raised + [if w > FLOOR then w else FLOOR];
    }
    assert ws[..|ws|] == ws && ds[..|ws|] == ds;
  }
}
