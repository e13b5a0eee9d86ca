/** The self-healing of the activity counters in core/cross_account_coordinator.py, in exact integers:
    round(level * active / total) is rounding half to even of a quotient. */
module ActivityHealing {

  datatype Counts = Counts(low: nat, medium: nat, high: nat) {
    function Total(): nat { low + medium + high }
  }

  /** num / den rounded to the nearest integer, ties to the even one. Taking off two whole units at a
      time changes neither the fraction nor which neighbour is even. */
  function RoundHalfEven(num: nat, den: nat): nat
    requires den > 0
    decreases num
  {
    if num >= 2 * den then RoundHalfEven(num - 2 * den, den) + 2
    else if 2 * num <= den then 0
    else if 2 * num < 3 * den then 1
    else 2
  }

  function Scaled(c: Counts, active: nat): Counts
    requires c.Total() > 0
  {
    var t := c.Total();
    Counts(RoundHalfEven(c.low * active, t), RoundHalfEven(c.medium * active, t), RoundHalfEven(c.high * active, t))
  }

  function Repaired(s: Counts, active: nat): Counts {
    var excess := s.Total() - active;
    if excess <= 0 then s else s.(medium := if s.medium >= excess then s.medium - excess else 0)
  }

  /** The counters after healing against the number of active jobs; only inflated ones change. */
  function Healed(c: Counts, active: nat): Counts {
    if c.Total() == 0 || active >= c.Total() then c else Repaired(Scaled(c, active), active)
  }

  // ---- Products and remainders ----

  lemma Distribute(a: int, b: int, t: int)
    ensures (a + b) * t == a * t + b * t
  {
  }

  lemma MulMono(a: int, b: int, t: int)
    requires a <= b && t >= 0
    ensures a * t <= b * t
  {
  }

  lemma SameMultiple(a: int, b: int, t: int)
    requires t > 0 && a * t == b * t
    ensures a == b
  {
    if a < b {
      MulMono(a + 1, b, t);
      Distribute(a, 1, t);
    } else if b < a {
      MulMono(b + 1, a, t);
      Distribute(b, 1, t);
    }
  }

  // ---- Rounding ----

  /** num / den is an odd number and one half. */
  predicate HalfwayAboveOdd(num: int, den: int)
    requires den > 0
    decreases num
  {
    if num >= 2 * den then HalfwayAboveOdd(num - 2 * den, den) else 2 * num == 3 * den
  }

  /** The rounded quotient is within one half of the exact one, and even when exactly one half away. */
  lemma {:induction false} RoundsToNearestEven(num: nat, den: nat)
    requires den > 0
    ensures var error := 2 * (RoundHalfEven(num, den) * den) - 2 * num;
            -(den as int) <= error <= den && ((error == den || error == -(den as int)) ==> RoundHalfEven(num, den) % 2 == 0)
    decreases num
  {
    if num >= 2 * den {
      RoundsToNearestEven(num - 2 * den, den);
      TwoMore(num, den);
    }
  }

  lemma TwoMore(num: nat, den: nat)
    requires den > 0 && num >= 2 * den
    ensures RoundHalfEven(num, den) * den == RoundHalfEven(num - 2 * den, den) * den + 2 * den
    ensures RoundHalfEven(num, den) % 2 == RoundHalfEven(num - 2 * den, den) % 2
  {
    Distribute(RoundHalfEven(num - 2 * den, den), 2, den);
  }

  /** Half a unit is gained exactly when the quotient lies halfway above an odd number. */
  lemma {:induction false} HalfGained(num: nat, den: nat)
    requires den > 0
    ensures 2 * (RoundHalfEven(num, den) * den) - 2 * num == den <==> HalfwayAboveOdd(num, den)
    decreases num
  {
    if num >= 2 * den {
      HalfGained(num - 2 * den, den);
      TwoMore(num, den);
    }
  }

  lemma {:induction false} HalfwayForm(num: nat, den: nat) returns (k: nat)
    requires den > 0 && HalfwayAboveOdd(num, den)
    ensures 2 * num == 4 * (k * den) + 3 * den
    decreases num
  {
    if num >= 2 * den {
      k := HalfwayForm(num - 2 * den, den);
      Distribute(k, 1, den);
      k := k + 1;
    } else {
      k := 0;
    }
  }

  lemma {:induction false} HalfwayFrom(num: nat, den: nat, k: nat)
    requires den > 0 && 2 * num == 4 * (k * den) + 3 * den
    ensures HalfwayAboveOdd(num, den)
    decreases k
  {
    if k > 0 {
      Distribute(k - 1, 1, den);
      assert (k - 1) * den >= 0;
      HalfwayFrom(num - 2 * den, den, k - 1);
    }
  }

  lemma SharesAddUp(c: Counts, active: nat)
    ensures c.low * active + c.medium * active + c.high * active == active * c.Total()
  {
    Distribute(c.low, c.medium, active);
    Distribute(c.low + c.medium, c.high, active);
  }

  /** Three roundings of at most one half each move the sum by at most one. */
  lemma RoundedSum(l: nat, m: nat, h: nat, l': nat, m': nat, h': nat, active: nat, t: nat)
    requires t == l + m + h > 0
    requires Near(l', l, active, t) && Near(m', m, active, t) && Near(h', h, active, t)
    ensures active - 1 <= l' + m' + h' <= active + 1
  {
    SharesAddUp(Counts(l, m, h), active);
    SharesAddUp(Counts(l', m', h'), t);
    TotalsClose(l' + m' + h', active, t);
  }

  lemma LevelError(n: nat, active: nat, t: nat)
    requires t > 0
    ensures Near(RoundHalfEven(n * active, t), n, active, t)
  {
    RoundsToNearestEven(n * active, t);
  }

  /** r is within one half of n * active / t. */
  predicate Near(r: nat, n: nat, active: nat, t: nat) {
    -(t as int) <= 2 * (r * t) - 2 * (n * active) <= t
  }

  /** Scaling changes the total by less than two. */
  lemma ScaledTotal(c: Counts, active: nat)
    requires c.Total() > 0
    ensures active - 1 <= Scaled(c, active).Total() <= active + 1
  {
    var s := Scaled(c, active);
    LevelError(c.low, active, c.Total());
    LevelError(c.medium, active, c.Total());
    LevelError(c.high, active, c.Total());
    RoundedSum(c.low, c.medium, c.high, s.low, s.medium, s.high, active, c.Total());
  }

  lemma TotalsClose(a: int, b: int, t: int)
    requires t > 0 && -3 * t <= 2 * (t * a) - 2 * (b * t) <= 3 * t
    ensures b - 1 <= a <= b + 1
  {
    Distribute(b, 2, t);
    Distribute(a, 2, t);
    if a >= b + 2 {
      MulMono(b + 2, a, t);
    } else if b >= a + 2 {
      MulMono(a + 2, b, t);
    }
  }

  /** A quotient of at most n rounds to at most n. */
  lemma {:induction false} RoundsAtMost(num: nat, den: nat, n: nat)
    requires den > 0 && num <= n * den
    ensures RoundHalfEven(num, den) <= n
    decreases num
  {
    if num >= 2 * den {
      if n < 2 {
        MulMono(n, 1, den);
      }
      Distribute(n - 2, 2, den);
      RoundsAtMost(num - 2 * den, den, n - 2);
    } else if n < 2 {
      MulMono(n, 1, den);
    }
  }

  lemma RoundsBelow(n: nat, active: nat, total: nat)
    requires 0 <= active < total
    ensures RoundHalfEven(n * active, total) <= n
  {
    MulMono(active, total, n);
    RoundsAtMost(n * active, total, n);
  }

  // ---- What healing guarantees ----

  /** No level ever grows, and inflated counters end within one of the number of active jobs. */
  lemma HealingShrinks(c: Counts, active: nat)
    ensures var h := Healed(c, active);
            && h.low <= c.low && h.medium <= c.medium && h.high <= c.high
            && (active < c.Total() ==> active - 1 <= h.Total() <= active + 1)
  {
    if active < c.Total() {
      RoundsBelow(c.low, active, c.Total());
      RoundsBelow(c.medium, active, c.Total());
      RoundsBelow(c.high, active, c.Total());
      ScaledTotal(c, active);
    }
  }

  /** The inputs on which the repaired total still exceeds the number of active jobs. */
  predicate Overshoots(c: Counts, active: nat) {
    && active < c.Total()
    && c.medium == 0
    && active % 2 == 1
    && HalfwayAboveOdd(c.low * active, c.Total())
  }

  /** The same condition in remainders. */
  lemma {:induction false} HalfwayRemainder(num: nat, den: nat)
    requires den > 0
    ensures HalfwayAboveOdd(num, den) <==> (2 * num) % (4 * den) == 3 * den
    decreases num
  {
    if num >= 2 * den {
      HalfwayRemainder(num - 2 * den, den);
      LessOneModulus(2 * num, 4 * den);
    } else {
      SmallRemainder(2 * num, 4 * den);
    }
  }

  lemma SmallRemainder(x: nat, m: nat)
    requires x < m
    ensures x % m == x
  {
  }

  lemma LessOneModulus(x: nat, m: nat)
    requires x >= m > 0
    ensures x % m == (x - m) % m
  {
    var q, r, q', r' := x / m, x % m, (x - m) / m, (x - m) % m;
    assert x == q * m + r && x == q' * m + r' + m;
    Distribute(q', 1, m);
    SameRemainder(m, q, r, q' + 1, r');
  }

  lemma SameRemainder(m: int, k: int, r: int, k': int, r': int)
    requires m > 0 && k * m + r == k' * m + r' && 0 <= r < m && 0 <= r' < m
    ensures k == k' && r == r'
  {
    if k < k' {
      MulMono(k + 1, k', m);
      Distribute(k, 1, m);
    } else if k > k' {
      MulMono(k' + 1, k, m);
      Distribute(k', 1, m);
    }
  }

  lemma LessOneMore(a: int, k: int, t: int)
    ensures (a - k - 1) * t == a * t - k * t - t
  {
    Distribute(a - k, -1, t);
    Distribute(a, -k, t);
    assert (-k) * t == -(k * t);
  }

  lemma OddMultiple(a: int, t: int)
    ensures (2 * a + 1) * t == 2 * (a * t) + t
  {
    Distribute(2 * a, 1, t);
    Distribute(a, a, t);
  }

  lemma NotBelowZero(n: int, t: nat, y: nat)
    requires t > 0 && 2 * y == 4 * (n * t) + 3 * t
    ensures n >= 0
  {
    if n < 0 {
      MulMono(n, -1, t);
    }
  }

  /** Two shares of an odd number of units: if one lies halfway above an odd number, so does the other. */
  lemma Mirror(x: nat, y: nat, active: nat, t: nat)
    requires t > 0 && active % 2 == 1 && x + y == active * t
    requires HalfwayAboveOdd(x, t)
    ensures HalfwayAboveOdd(y, t)
  {
    var k := HalfwayForm(x, t);
    var a := active / 2;
    assert active == 2 * a + 1;
    OddMultiple(a, t);
    LessOneMore(a, k, t);
    NotBelowZero(a - k - 1, t, y);
    HalfwayFrom(y, t, a - k - 1);
  }

  lemma OvershootSuffices(c: Counts, active: nat)
    requires Overshoots(c, active)
    ensures Healed(c, active).Total() == active + 1
  {
    var t, s := c.Total(), Scaled(c, active);
    SharesAddUp(c, active);
    Mirror(c.low * active, c.high * active, active, t);
    HalfGained(c.low * active, t);
    HalfGained(c.high * active, t);
    assert RoundHalfEven(0, t) == 0;
    SharesAddUp(s, t);
    Distribute(active, 1, t);
    SameMultiple(s.Total(), active + 1, t);
  }

  lemma PositiveProduct(m: nat, active: nat)
    requires m > 0 && active > 0
    ensures m * active > 0
  {
  }

  /** If rounding three shares gains a whole unit and the second share rounds to nothing, then that
      share is nothing and the other two gain one half each. */
  lemma TwoHalves(l: nat, m: nat, h: nat, l': nat, h': nat, active: nat, t: nat)
    requires t == l + m + h && l' + h' == active + 1
    requires 2 * (l' * t) - 2 * (l * active) <= t && 2 * (h' * t) - 2 * (h * active) <= t
    ensures m * active == 0 && 2 * (l' * t) - 2 * (l * active) == t && 2 * (h' * t) - 2 * (h * active) == t
  {
    Distribute(l', h', t);
    Distribute(active, 1, t);
    Distribute(l, m, active);
    Distribute(l + m, h, active);
    assert m * active >= 0;
  }

  lemma OvershootShape(c: Counts, active: nat)
    requires active < c.Total() && Healed(c, active).Total() > active
    ensures Scaled(c, active).medium == 0 && Scaled(c, active).low + Scaled(c, active).high == active + 1
  {
    ScaledTotal(c, active);
    OneTooMany(Scaled(c, active), active);
  }

  lemma OneTooMany(s: Counts, active: nat)
    requires s.Total() <= active + 1 && Repaired(s, active).Total() > active
    ensures s.medium == 0 && s.low + s.high == active + 1
  {
  }

  lemma OvershootHalves(c: Counts, active: nat, s: Counts)
    requires active < c.Total() && s == Scaled(c, active) && Healed(c, active).Total() > active
    ensures c.medium * active == 0 && s.low + s.high == active + 1
    ensures 2 * (s.low * c.Total()) - 2 * (c.low * active) == c.Total()
    ensures 2 * (s.high * c.Total()) - 2 * (c.high * active) == c.Total()
  {
    OvershootShape(c, active);
    LevelError(c.low, active, c.Total());
    LevelError(c.high, active, c.Total());
    TwoHalves(c.low, c.medium, c.high, s.low, s.high, active, c.Total());
  }

  lemma OvershootNeedsJobs(c: Counts, active: nat)
    requires active < c.Total() && Healed(c, active).Total() > active
    ensures active > 0
  {
    if active == 0 {
      assert c.low * active == 0 && c.high * active == 0;
      OvershootShape(c, active);
    }
  }

  lemma OvershootLow(c: Counts, active: nat)
    requires active < c.Total() && Healed(c, active).Total() > active
    ensures HalfwayAboveOdd(c.low * active, c.Total()) && Scaled(c, active).low % 2 == 0
  {
    OvershootHalves(c, active, Scaled(c, active));
    HalfGained(c.low * active, c.Total());
    RoundsToNearestEven(c.low * active, c.Total());
  }

  lemma OvershootHigh(c: Counts, active: nat)
    requires active < c.Total() && Healed(c, active).Total() > active
    ensures Scaled(c, active).high % 2 == 0
  {
    OvershootHalves(c, active, Scaled(c, active));
    RoundsToNearestEven(c.high * active, c.Total());
  }

  lemma OvershootWithoutMedium(c: Counts, active: nat)
    requires active < c.Total() && Healed(c, active).Total() > active
    ensures c.medium == 0
  {
    OvershootHalves(c, active, Scaled(c, active));
    OvershootNeedsJobs(c, active);
    if c.medium > 0 {
      PositiveProduct(c.medium, active);
    }
  }

  lemma EvensAddToEven(a: nat, b: nat, active: nat)
    requires a % 2 == 0 && b % 2 == 0 && a + b == active + 1
    ensures active % 2 == 1
  {
  }

  lemma OvershootNeeded(c: Counts, active: nat)
    requires active < c.Total() && Healed(c, active).Total() > active
    ensures Overshoots(c, active)
  {
    OvershootShape(c, active);
    OvershootLow(c, active);
    OvershootHigh(c, active);
    OvershootWithoutMedium(c, active);
    EvensAddToEven(Scaled(c, active).low, Scaled(c, active).high, active);
  }

  /** Healing leaves more jobs counted than active exactly on those inputs; whenever the scaled
      medium count is positive, the repair works. */
  lemma HealingOvershootsIff(c: Counts, active: nat)
    requires active < c.Total()
    ensures Healed(c, active).Total() > active <==> Overshoots(c, active)
    ensures Scaled(c, active).medium >= 1 ==> Healed(c, active).Total() <= active
  {
    if Overshoots(c, active) {
      OvershootSuffices(c, active);
    }
    if Healed(c, active).Total() > active {
      OvershootNeeded(c, active);
    }
    ScaledTotal(c, active);
  }

  /** Six counted, three active: four remain counted, and healing again does not help. */
  lemma HealingCanStick()
    ensures Healed(Counts(3, 0, 3), 3) == Counts(2, 0, 2)
    ensures Healed(Counts(2, 0, 2), 3) == Counts(2, 0, 2)
  {
  }
}
