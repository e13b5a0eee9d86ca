/** Which way an outcome moves the interest weights of an account: what a ban, a success and the pull towards
    even weights shift in each stage, when that is taken into account, and what it does to every weight. */
module DriftDirections {
  import opened Sequences
  import opened Reals
  import opened InterestDrifts
  import opened InterestStages

  // ---- What one outcome shifts, stage by stage ----

  /** A ban without success in the acted niche; x is how far the trend lies above one half. */
  lemma BanShift(stage: Stage, w: real, n: nat, f: Feedback, x: real)
    requires n > 0 && f.ban && !f.success && x == f.trend - 0.5
    ensures RawDelta(true, w, n, f, Exploration(stage))
            == match stage
               case New => -0.0127 + 0.0090 * x
               case Warmup => -0.01225 + 0.0075 * x
               case Growth => -0.01165 + 0.0055 * x
               case Mature => -0.01075 + 0.0025 * x
               case Decline => -0.01165 + 0.0055 * x
               case Recovery => -0.0121 + 0.0070 * x
  {
  }

  /** A success in the acted niche, whether or not a ban is reported with it. */
  lemma SuccessShift(stage: Stage, w: real, n: nat, f: Feedback, x: real)
    requires n > 0 && f.success && x == f.trend - 0.5
    ensures RawDelta(true, w, n, f, Exploration(stage))
            == match stage
               case New => 0.02175 + 0.0090 * x
               case Warmup => 0.020625 + 0.0075 * x
               case Growth => 0.019125 + 0.0055 * x
               case Mature => 0.016875 + 0.0025 * x
               case Decline => 0.019125 + 0.0055 * x
               case Recovery => 0.02025 + 0.0070 * x
  {
  }

  /** Neither success nor ban in the acted niche. */
  lemma NeutralShift(stage: Stage, w: real, n: nat, f: Feedback, x: real)
    requires n > 0 && !f.success && !f.ban && x == f.trend - 0.5
    ensures RawDelta(true, w, n, f, Exploration(stage))
            == match stage
               case New => 0.0027 + 0.0090 * x
               case Warmup => 0.00225 + 0.0075 * x
               case Growth => 0.00165 + 0.0055 * x
               case Mature => 0.00075 + 0.0025 * x
               case Decline => 0.00165 + 0.0055 * x
               case Recovery => 0.0021 + 0.0070 * x
  {
  }

  /** A niche that was not acted in is pulled towards the even share of n niches; y is how far it is below. */
  lemma PullShift(stage: Stage, w: real, n: nat, f: Feedback, x: real, y: real)
    requires n > 0 && x == f.trend - 0.5 && y == 1.0 / n as real - w
    ensures RawDelta(false, w, n, f, Exploration(stage))
            == match stage
               case New => 0.0180 * y + 0.0090 * x
               case Warmup => 0.0150 * y + 0.0075 * x
               case Growth => 0.0110 * y + 0.0055 * x
               case Mature => 0.0050 * y + 0.0025 * x
               case Decline => 0.0110 * y + 0.0055 * x
               case Recovery => 0.0140 * y + 0.0070 * x
  {
  }

  // ---- What is taken into account ----

  /** The cap on a single shift never decides: what leaves the dead zone is applied as it is. */
  lemma CapNeverDecides(stage: Stage, acted: bool, w: real, n: nat, f: Feedback)
    requires n > 0 && 0.0 <= w <= 1.0 && 0.0 <= f.trend <= 1.0
    ensures var d := RawDelta(acted, w, n, f, Exploration(stage));
            Abs(d) <= 0.03 && Gated(d) == if -0.01 < d < 0.01 then 0.0 else d
  {
    var x, y := f.trend - 0.5, 1.0 / n as real - w;
    ShareInUnit(n);
    if !acted {
      PullShift(stage, w, n, f, x, y);
    } else if f.success {
      SuccessShift(stage, w, n, f, x);
    } else if f.ban {
      BanShift(stage, w, n, f, x);
    } else {
      NeutralShift(stage, w, n, f, x);
    }
  }

  lemma ShareInUnit(n: nat)
    requires n > 0
    ensures 0.0 < 1.0 / n as real <= 1.0 && (n >= 4 ==> 1.0 / n as real <= 0.25)
  {
  }

  /** A ban is taken into account exactly under a trend of at most 0.8, whatever the stage. */
  lemma BanCountsIff(stage: Stage, w: real, n: nat, f: Feedback)
    requires n > 0 && f.ban && !f.success && 0.0 <= f.trend <= 1.0
    ensures var d := RawDelta(true, w, n, f, Exploration(stage));
            if f.trend <= 0.8 then Gated(d) == d <= -0.01 else Gated(d) == 0.0
  {
    BanShift(stage, w, n, f, f.trend - 0.5);
  }

  /** A success always is. */
  lemma SuccessCounts(stage: Stage, w: real, n: nat, f: Feedback)
    requires n > 0 && f.success && 0.0 <= f.trend <= 1.0
    ensures var d := RawDelta(true, w, n, f, Exploration(stage)); Gated(d) == d > 0.015
  {
    SuccessShift(stage, w, n, f, f.trend - 0.5);
  }

  /** Under an even trend a niche that was not acted in is pulled towards the even share, by at most two hundredths
      of the way. */
  lemma PullTowardsEven(stage: Stage, w: real, n: nat, f: Feedback, y: real)
    requires n > 0 && f.trend == 0.5 && y == 1.0 / n as real - w
    ensures var d := RawDelta(false, w, n, f, Exploration(stage));
            if y > 0.0 then 0.0 < d <= 0.02 * y else if y < 0.0 then 0.02 * y <= d < 0.0 else d == 0.0
  {
    PullShift(stage, w, n, f, 0.0, y);
  }

  /** How far the weight must be from the even share for that pull to be taken into account at all. */
  lemma PullCountsIff(stage: Stage, w: real, n: nat, f: Feedback, x: real, y: real)
    requires n > 0 && 0.0 <= w <= 1.0 && 0.0 <= f.trend <= 1.0 && x == f.trend - 0.5 && y == 1.0 / n as real - w
    ensures Gated(RawDelta(false, w, n, f, Exploration(stage))) != 0.0
            <==> match stage
                 case New => 0.9 * Abs(2.0 * y + x) >= 1.0
                 case Warmup => 0.75 * Abs(2.0 * y + x) >= 1.0
                 case Growth => 0.55 * Abs(2.0 * y + x) >= 1.0
                 case Mature => false
                 case Decline => 0.55 * Abs(2.0 * y + x) >= 1.0
                 case Recovery => 0.7 * Abs(2.0 * y + x) >= 1.0
  {
    ShareInUnit(n);
    PullShift(stage, w, n, f, x, y);
  }

  /** With four niches or more it is never taken into account upwards. */
  lemma PullNeverRaises(stage: Stage, w: real, n: nat, f: Feedback)
    requires n >= 4 && 0.0 <= w <= 1.0 && 0.0 <= f.trend <= 1.0
    ensures Gated(RawDelta(false, w, n, f, Exploration(stage))) <= 0.0
  {
    ShareInUnit(n);
    PullShift(stage, w, n, f, f.trend - 0.5, 1.0 / n as real - w);
  }

  // ---- Which way a weight moves ----

  lemma SameSign(x: real, t: real, y: real)
    requires t > 0.0 && x * t == y
    ensures (x > 0.0 <==> y > 0.0) && (x < 0.0 <==> y < 0.0)
  {
    if x > 0.0 {
      PositiveProduct(x, t);
    } else if x < 0.0 {
      PositiveProduct(-x, t);
      assert (-x) * t == -(x * t);
    }
  }

  lemma Excess(w: real, d: real, total: real, t: real, moved: real)
    requires t == 0.97 + total && moved * t == w * 0.97 + d
    ensures (moved - w) * t == d - w * total
  {
    DistributeReal(moved, -w, t);
    assert -w * t == -(w * 0.97) - w * total;
  }

  /** A shifted weight against the share it would need to keep its place. */
  lemma MovesBy(w: real, d: real, total: real, moved: real)
    requires 0.97 + total > 0.0 && moved == Product(w * 0.97 + d, Quotient(1.0, 0.97 + total))
    ensures moved > w <==> d > Product(w, total)
    ensures moved < w <==> d < Product(w, total)
  {
    var t, n := 0.97 + total, w * 0.97 + d;
    var inv := Reciprocal(t);
    QuotientIs(1.0, t);
    ProductIs(n, inv);
    ProductIs(w, total);
    TimesBack(n, t, inv);
    Excess(w, d, total, t, moved);
    SameSign(moved - w, t, d - w * total);
  }

  /** No weight runs into the floor. */
  ghost predicate AboveFloor(ws: seq<real>, ds: seq<real>)
    requires |ws| == |ds|
  {
    forall i :: 0 <= i < |ds| ==> ws[i] * 0.97 + ds[i] >= 0.001
  }

  /** Above the floor a weight rises exactly if its own shift is more than its share of all shifts, and falls
      exactly if it is less. */
  lemma RisesIff(ws: seq<real>, ds: seq<real>, i: nat)
    requires |ws| == |ds| && i < |ws| && Sum(ws) == 1.0 && AbsSum(ds) <= 0.05 && AboveFloor(ws, ds)
    ensures |Drifted(ws, ds)| == |ws|
    ensures Drifted(ws, ds)[i] > ws[i] <==> ds[i] > Product(ws[i], Sum(ds))
    ensures Drifted(ws, ds)[i] < ws[i] <==> ds[i] < Product(ws[i], Sum(ds))
  {
    NoLiftNoShift(ws, ds);
    DriftedAt(ws, ds, i, 0.97 + Sum(ds));
    MovesBy(ws[i], ds[i], Sum(ds), Drifted(ws, ds)[i]);
  }

  // ---- A single shift ----

  /** d is the only shift, at i. */
  ghost predicate Lone(ds: seq<real>, i: nat, d: real) {
    i < |ds| && ds[i] == d && forall j :: 0 <= j < |ds| && j != i ==> ds[j] == 0.0
  }

  lemma {:induction false} LoneSums(ds: seq<real>, i: nat, d: real)
    requires Lone(ds, i, d)
    ensures Sum(ds) == d && AbsSum(ds) == Abs(d)
  {
    var n := |ds| - 1;
    if i == n {
      AllZero(ds[..n]);
    } else {
      LoneSums(ds[..n], i, d);
    }
  }

  lemma NegatedProduct(a: real, c: real)
    ensures Product(-a, c) == -Product(a, c) && Product(0.0, c) == 0.0
  {
    ProductIs(-a, c);
    ProductIs(a, c);
    ProductIs(0.0, c);
  }

  /** A single shift as the day's budget leaves it. */
  function Allowed(d: real, remaining: real): real {
    if d > remaining then remaining else if d < -remaining then -remaining else d
  }

  lemma ScaledToBudget(d: real, remaining: real)
    requires Abs(d) > remaining > 0.0
    ensures Product(d, Quotient(remaining, Abs(d))) == Allowed(d, remaining)
  {
    var c := Quotient(remaining, Abs(d));
    ProductOfQuotient(Abs(d), remaining);
    NegatedProduct(Abs(d), c);
  }

  lemma LoneBudgeted(ds: seq<real>, i: nat, d: real, remaining: real)
    requires Lone(ds, i, d) && remaining > 0.0
    ensures Lone(Budgeted(ds, remaining), i, Allowed(d, remaining))
  {
    LoneSums(ds, i, d);
    if Abs(d) > remaining {
      var c := Quotient(remaining, Abs(d));
      ScaledToBudget(d, remaining);
      NegatedProduct(0.0, c);
      forall j | 0 <= j < |ds| ensures Times(ds, c)[j] == if j == i then Allowed(d, remaining) else 0.0 {
        TimesAt(ds, c, j);
      }
    }
  }

  lemma ShareOfSize(w: real, a: real)
    requires 0.0 <= w < 1.0 && a > 0.0
    ensures Product(w, a) < a
  {
    ProductIs(w, a);
    PositiveProduct(1.0 - w, a);
    assert (1.0 - w) * a == a - w * a;
  }

  lemma ShareOfNegative(w: real, a: real)
    ensures Product(w, -a) == -Product(w, a)
  {
    ProductIs(w, -a);
    ProductIs(w, a);
  }

  lemma ShareOfShift(w: real, d: real)
    requires 0.0 <= w < 1.0
    ensures d > 0.0 ==> Product(w, d) < d
    ensures d < 0.0 ==> d < Product(w, d)
  {
    if d > 0.0 {
      ShareOfSize(w, d);
    } else if d < 0.0 {
      ShareOfSize(w, -d);
      ShareOfNegative(w, -d);
    }
  }

  /** With two positive weights every weight is below one. */
  lemma TwoPositive(ws: seq<real>, i: nat, j: nat)
    requires i < |ws| && j < |ws| && i != j && ws[j] > 0.0 && Sum(ws) == 1.0
    requires forall k :: 0 <= k < |ws| ==> ws[k] >= 0.0
    ensures ws[i] < 1.0
  {
    TwoParts(ws, i, j);
  }

  lemma {:induction false} TwoParts(ws: seq<real>, i: nat, j: nat)
    requires i < |ws| && j < |ws| && i != j && forall k :: 0 <= k < |ws| ==> ws[k] >= 0.0
    ensures ws[i] + ws[j] <= Sum(ws)
  {
    var n := |ws| - 1;
    if i == n {
      PartBelowWhole(ws[..n], j);
    } else if j == n {
      PartBelowWhole(ws[..n], i);
    } else {
      TwoParts(ws[..n], i, j);
    }
  }

  /** A single shift moves its own weight its way and every other positive weight the other way. */
  lemma LoneMoves(ws: seq<real>, ds: seq<real>, i: nat, d: real, j: nat)
    requires |ws| == |ds| >= 2 && Sum(ws) == 1.0 && AbsSum(ds) <= 0.05 && AboveFloor(ws, ds)
    requires Lone(ds, i, d) && j < |ws| && forall k :: 0 <= k < |ws| ==> ws[k] >= 0.0
    ensures |Drifted(ws, ds)| == |ws|
    ensures d > 0.0 && j == i ==> Drifted(ws, ds)[j] > ws[j]
    ensures d < 0.0 && j == i ==> Drifted(ws, ds)[j] < ws[j]
    ensures d > 0.0 && j != i && ws[j] > 0.0 ==> Drifted(ws, ds)[j] < ws[j]
    ensures d < 0.0 && j != i && ws[j] > 0.0 ==> Drifted(ws, ds)[j] > ws[j]
  {
    RisesIff(ws, ds, j);
    LoneSums(ds, i, d);
    if j == i {
      var k := if i == 0 then 1 else 0;
      assert ws[k] * 0.97 + ds[k] >= 0.001;
      TwoPositive(ws, i, k);
      ShareOfShift(ws[j], d);
    } else {
      ShareSign(ws[j], d);
    }
  }

  lemma ShareSign(w: real, d: real)
    requires w >= 0.0
    ensures w > 0.0 && d > 0.0 ==> Product(w, d) > 0.0
    ensures w > 0.0 && d < 0.0 ==> Product(w, d) < 0.0
  {
    if d > 0.0 {
      ProductPositive(w, d);
    } else if d < 0.0 {
      ProductPositive(w, -d);
      ShareOfNegative(w, -d);
    }
  }

  /** Its size in full: every weight after it, times the new total. */
  lemma LoneAmount(ws: seq<real>, ds: seq<real>, i: nat, d: real, j: nat)
    requires |ws| == |ds| && Sum(ws) == 1.0 && AbsSum(ds) <= 0.05 && AboveFloor(ws, ds)
    requires Lone(ds, i, d) && j < |ws|
    ensures |Drifted(ws, ds)| == |ws|
    ensures Product(Drifted(ws, ds)[j], 0.97 + d) == ws[j] * 0.97 + if j == i then d else 0.0
  {
    LoneSums(ds, i, d);
    NoLiftNoShift(ws, ds);
    DriftedAt(ws, ds, j, 0.97 + d);
    MultipliedBack(ws[j] * 0.97 + ds[j], 0.97 + d);
  }

  lemma MultipliedBack(n: real, t: real)
    requires t > 0.0
    ensures Product(Product(n, Quotient(1.0, t)), t) == n
  {
    var inv := Reciprocal(t);
    QuotientIs(1.0, t);
    ProductIs(n, inv);
    ProductIs(n * inv, t);
    TimesBack(n, t, inv);
  }

  // ---- What an outcome does to the weights ----

  /** The outcome is in niche i alone, and no other weight's pull is taken into account. */
  ghost predicate OnlyActed(s: Interests, f: Feedback, stage: Stage, i: nat) {
    && Aligned(s) && i < |s.niches|
    && forall j :: 0 <= j < |s.niches| ==>
         (s.niches[j] == f.niche <==> j == i)
         && (j != i ==> Gated(RawDelta(false, s.weights[j], |s.weights|, f, Exploration(stage))) == 0.0)
  }

  /** What is applied then. */
  lemma OneApplied(s: Interests, now: int, f: Feedback, stage: Stage, i: nat, d: real, remaining: real) returns (ds: seq<real>)
    requires Sound(s) && OnlyActed(s, f, stage, i) && remaining == 0.05 - Used(s, DayOf(now)) > 0.0
    requires d == Gated(RawDelta(true, s.weights[i], |s.weights|, f, Exploration(stage)))
    ensures |ds| == |s.weights| && Applied(s, now, f, Exploration(stage)) == Some(ds)
    ensures Lone(ds, i, Allowed(d, remaining)) && AbsSum(ds) <= 0.05
  {
    var raw := Deltas(s.niches, s.weights, f, Exploration(stage));
    assert Lone(raw, i, d);
    LoneBudgeted(raw, i, d, remaining);
    BudgetIsCharged(raw, remaining);
    ds := Budgeted(raw, remaining);
  }

  lemma OneMoves(s: Interests, now: int, f: Feedback, stage: Stage, i: nat, d: real, j: nat)
    requires Sound(s) && OnlyActed(s, f, stage, i) && Used(s, DayOf(now)) < 0.05 && Untouched(s, now, f, Exploration(stage))
    requires d == Gated(RawDelta(true, s.weights[i], |s.weights|, f, Exploration(stage))) && j < |s.weights| && |s.weights| >= 2
    ensures var ws := Evolved(s, now, f, Exploration(stage)).weights;
            && |ws| == |s.weights|
            && (d > 0.0 && j == i ==> ws[j] > s.weights[j]) && (d < 0.0 && j == i ==> ws[j] < s.weights[j])
            && (d > 0.0 && j != i && s.weights[j] > 0.0 ==> ws[j] < s.weights[j])
            && (d < 0.0 && j != i && s.weights[j] > 0.0 ==> ws[j] > s.weights[j])
  {
    var remaining := 0.05 - Used(s, DayOf(now));
    var ds := OneApplied(s, now, f, stage, i, d, remaining);
    LoneMoves(s.weights, ds, i, Allowed(d, remaining), j);
  }

  /** A ban under a trend of at most 0.8 lowers the weight of its niche and raises every other positive weight. */
  lemma BanLowers(s: Interests, now: int, f: Feedback, stage: Stage, i: nat, j: nat)
    requires Sound(s) && OnlyActed(s, f, stage, i) && Used(s, DayOf(now)) < 0.05 && Untouched(s, now, f, Exploration(stage))
    requires f.ban && !f.success && 0.0 <= f.trend <= 0.8 && j < |s.weights| && |s.weights| >= 2
    ensures var ws := Evolved(s, now, f, Exploration(stage)).weights;
            && |ws| == |s.weights|
            && if j == i then ws[j] < s.weights[j] else s.weights[j] > 0.0 ==> ws[j] > s.weights[j]
  {
    BanCountsIff(stage, s.weights[i], |s.weights|, f);
    OneMoves(s, now, f, stage, i, Gated(RawDelta(true, s.weights[i], |s.weights|, f, Exploration(stage))), j);
  }

  /** Under a stronger trend it changes no weight. */
  lemma HotBanIsIgnored(s: Interests, now: int, f: Feedback, stage: Stage, i: nat)
    requires Sound(s) && OnlyActed(s, f, stage, i) && Untouched(s, now, f, Exploration(stage))
    requires f.ban && !f.success && 0.8 < f.trend <= 1.0
    ensures Evolved(s, now, f, Exploration(stage)).weights == s.weights
  {
    var remaining := 0.05 - Used(s, DayOf(now));
    if remaining > 0.0 {
      BanCountsIff(stage, s.weights[i], |s.weights|, f);
      var ds := OneApplied(s, now, f, stage, i, 0.0, remaining);
      DecayAloneIsNeutral(s.weights, ds);
    }
  }

  /** A success raises the weight of its niche and lowers every other positive weight. */
  lemma SuccessRaises(s: Interests, now: int, f: Feedback, stage: Stage, i: nat, j: nat)
    requires Sound(s) && OnlyActed(s, f, stage, i) && Used(s, DayOf(now)) < 0.05 && Untouched(s, now, f, Exploration(stage))
    requires f.success && 0.0 <= f.trend <= 1.0 && j < |s.weights| && |s.weights| >= 2
    ensures var ws := Evolved(s, now, f, Exploration(stage)).weights;
            && |ws| == |s.weights|
            && if j == i then ws[j] > s.weights[j] else s.weights[j] > 0.0 ==> ws[j] < s.weights[j]
  {
    SuccessCounts(stage, s.weights[i], |s.weights|, f);
    OneMoves(s, now, f, stage, i, Gated(RawDelta(true, s.weights[i], |s.weights|, f, Exploration(stage))), j);
  }

  /** A ban on one of five even niches of a mature account, on a fresh day: about 0.191 is left of 0.2. */
  lemma BanOnFive(s: Interests, now: int, f: Feedback, i: nat, share: real, trend: real)
    requires Sound(s) && Used(s, DayOf(now)) == 0.0 && |s.weights| == 5 && share == 0.2 && trend == 0.5
    requires i < 5 && forall j :: 0 <= j < 5 ==> s.weights[j] == share && (s.niches[j] == f.niche <==> j == i)
    requires f.ban && !f.success && f.trend == trend
    ensures |Evolved(s, now, f, Exploration(Mature)).weights| == 5
    ensures Evolved(s, now, f, Exploration(Mature)).weights[i] * 0.95925 == 0.18325
  {
    forall j | 0 <= j < 5 && j != i ensures Gated(RawDelta(false, s.weights[j], 5, f, Exploration(Mature))) == 0.0 {
      PullCountsIff(Mature, s.weights[j], 5, f, 0.0, 1.0 / 5 as real - s.weights[j]);
    }
    BanShift(Mature, s.weights[i], 5, f, 0.0);
    var d := Gated(RawDelta(true, s.weights[i], 5, f, Exploration(Mature)));
    var ds := OneApplied(s, now, f, Mature, i, d, 0.05);
    LoneAmount(s.weights, ds, i, d, i);
    ProductIs(Drifted(s.weights, ds)[i], 0.97 + d);
  }
}
