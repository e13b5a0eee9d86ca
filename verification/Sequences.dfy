/** Sums, counts, filters and a stable sort over sequences, shared by every component model. */
module Sequences {

  datatype Option<+T> = None | Some(value: T)

  function SumBy<T>(xs: seq<T>, f: T -> real): (total: real) {
    if |xs| == 0 then 0.0 else SumBy(xs[..|xs| - 1], f) + f(xs[|xs| - 1])
  }

  function CountBy<T>(xs: seq<T>, p: T -> bool): (n: nat)
    ensures n <= |xs|
  {
    if |xs| == 0 then 0
    else CountBy(xs[..|xs| - 1], p) + if p(xs[|xs| - 1]) then 1 else 0
  }

  function Filter<T>(xs: seq<T>, p: T -> bool): (ys: seq<T>)
    ensures |ys| <= |xs|
  {
    if |xs| == 0 then [] else Filter(xs[..|xs| - 1], p) + if p(xs[|xs| - 1]) then [xs[|xs| - 1]] else []
  }

  lemma {:induction false} FilterMembers<T>(xs: seq<T>, p: T -> bool, x: T)
    ensures x in Filter(xs, p) <==> x in xs && p(x)
  {
    if |xs| > 0 {
      var n := |xs| - 1;
      FilterMembers(xs[..n], p, x);
      assert xs == xs[..n] + [xs[n]];
    }
  }

  function Map<T, U>(xs: seq<T>, f: T -> U): (ys: seq<U>)
    ensures |ys| == |xs|
    ensures forall i :: 0 <= i < |xs| ==> ys[i] == f(xs[i])
  {
    seq(|xs|, i requires 0 <= i < |xs| => f(xs[i]))
  }

  /** The first element of a concatenation, and what follows it. */
  lemma HeadJoins<T>(xs: seq<T>, ys: seq<T>)
    requires |xs| > 0
    ensures (xs + ys)[0] == xs[0] && (xs + ys)[1..] == xs[1..] + ys
  {
  }

  lemma SumAppend<T>(xs: seq<T>, x: T, f: T -> real)
    ensures SumBy(xs + [x], f) == SumBy(xs, f) + f(x)
  {
    assert (xs + [x])[..|xs|] == xs;
  }

  lemma CountAppend<T>(xs: seq<T>, x: T, p: T -> bool)
    ensures CountBy(xs + [x], p) == CountBy(xs, p) + if p(x) then 1 else 0
  {
    assert (xs + [x])[..|xs|] == xs;
  }

  lemma FilterAppend<T>(xs: seq<T>, x: T, p: T -> bool)
    ensures Filter(xs + [x], p) == Filter(xs, p) + if p(x) then [x] else []
  {
    assert (xs + [x])[..|xs|] == xs;
  }

  lemma {:induction false} SumConcat<T>(xs: seq<T>, ys: seq<T>, f: T -> real)
    ensures SumBy(xs + ys, f) == SumBy(xs, f) + SumBy(ys, f)
  {
    if |ys| == 0 {
      assert xs + ys == xs;
    } else {
      var n := |ys| - 1;
      assert xs + ys == (xs + ys[..n]) + [ys[n]];
      SumAppend(xs + ys[..n], ys[n], f);
      SumConcat(xs, ys[..n], f);
    }
  }

  /** Replacing one element changes a sum by exactly the difference of the two summands. */
  lemma {:induction false} SumUpdate<T>(xs: seq<T>, i: nat, x: T, f: T -> real)
    requires i < |xs|
    ensures SumBy(xs[i := x], f) == SumBy(xs, f) - f(xs[i]) + f(x)
  {
    var n := |xs| - 1;
    if i == n {
      assert xs[i := x][..n] == xs[..n];
    } else {
      assert xs[i := x][..n] == xs[..n][i := x];
      SumUpdate(xs[..n], i, x, f);
    }
  }

  lemma {:induction false} CountPointwise<T, U>(xs: seq<T>, ys: seq<U>, p: T -> bool, q: U -> bool)
    requires |xs| == |ys|
    requires forall i :: 0 <= i < |xs| ==> p(xs[i]) ==> q(ys[i])
    ensures CountBy(xs, p) <= CountBy(ys, q)
  {
    if |xs| > 0 {
      CountPointwise(xs[..|xs| - 1], ys[..|xs| - 1], p, q);
    }
  }

  // ---- Stable sort, the order Python's sorted() and ORDER BY ... ASC produce ----

  ghost predicate TotalPreorder<T(!new)>(le: (T, T) -> bool) {
    && (forall x, y :: le(x, y) || le(y, x))
    && (forall x, y, z :: le(x, y) && le(y, z) ==> le(x, z))
  }

  ghost predicate Antisymmetric<T(!new)>(le: (T, T) -> bool) {
    forall x, y :: le(x, y) && le(y, x) ==> x == y
  }

  ghost predicate SortedBy<T>(xs: seq<T>, le: (T, T) -> bool) {
    forall i, j :: 0 <= i < j < |xs| ==> le(xs[i], xs[j])
  }

  function Insert<T>(xs: seq<T>, x: T, le: (T, T) -> bool): (ys: seq<T>) {
    if |xs| == 0 || le(xs[|xs| - 1], x) then xs + [x]
    else Insert(xs[..|xs| - 1], x, le) + [xs[|xs| - 1]]
  }

  function Sort<T>(xs: seq<T>, le: (T, T) -> bool): (ys: seq<T>) {
    if |xs| == 0 then [] else Insert(Sort(xs[..|xs| - 1], le), xs[|xs| - 1], le)
  }

  lemma {:induction false} InsertPermutes<T>(xs: seq<T>, x: T, le: (T, T) -> bool)
    ensures multiset(Insert(xs, x, le)) == multiset(xs) + multiset{x}
    ensures |Insert(xs, x, le)| == |xs| + 1
  {
    if |xs| > 0 && !le(xs[|xs| - 1], x) {
      var n := |xs| - 1;
      assert xs == xs[..n] + [xs[n]];
      InsertPermutes(xs[..n], x, le);
    }
  }

  /** What bounds the elements and the new one bounds the result. */
  lemma {:induction false} InsertedBelow<T>(xs: seq<T>, x: T, y: T, le: (T, T) -> bool)
    requires le(x, y) && forall i :: 0 <= i < |xs| ==> le(xs[i], y)
    ensures forall i :: 0 <= i < |Insert(xs, x, le)| ==> le(Insert(xs, x, le)[i], y)
  {
    if |xs| > 0 && !le(xs[|xs| - 1], x) {
      InsertedBelow(xs[..|xs| - 1], x, y, le);
    }
  }

  lemma SortedAppend<T>(xs: seq<T>, y: T, le: (T, T) -> bool)
    requires SortedBy(xs, le) && forall i :: 0 <= i < |xs| ==> le(xs[i], y)
    ensures SortedBy(xs + [y], le)
  {
  }

  lemma AllBelowLast<T(!new)>(xs: seq<T>, x: T, le: (T, T) -> bool)
    requires TotalPreorder(le) && SortedBy(xs, le) && |xs| > 0 && le(xs[|xs| - 1], x)
    ensures forall i :: 0 <= i < |xs| ==> le(xs[i], x)
  {
    var last := xs[|xs| - 1];
    forall i | 0 <= i < |xs| ensures le(xs[i], x) {
      assert le(xs[i], last);
    }
  }

  lemma {:induction false} InsertSorts<T(!new)>(xs: seq<T>, x: T, le: (T, T) -> bool)
    requires TotalPreorder(le) && SortedBy(xs, le)
    ensures SortedBy(Insert(xs, x, le), le)
  {
    if |xs| == 0 {
    } else if le(xs[|xs| - 1], x) {
      AllBelowLast(xs, x, le);
      SortedAppend(xs, x, le);
    } else {
      var n := |xs| - 1;
      InsertSorts(xs[..n], x, le);
      InsertedBelow(xs[..n], x, xs[n], le);
      SortedAppend(Insert(xs[..n], x, le), xs[n], le);
    }
  }

  lemma {:induction false} SortPermutes<T>(xs: seq<T>, le: (T, T) -> bool)
    ensures multiset(Sort(xs, le)) == multiset(xs)
    ensures |Sort(xs, le)| == |xs|
  {
    if |xs| > 0 {
      var n := |xs| - 1;
      assert xs == xs[..n] + [xs[n]];
      SortPermutes(xs[..n], le);
      InsertPermutes(Sort(xs[..n], le), xs[n], le);
    }
  }

  lemma {:induction false} SortSorts<T(!new)>(xs: seq<T>, le: (T, T) -> bool)
    requires TotalPreorder(le)
    ensures SortedBy(Sort(xs, le), le)
  {
    if |xs| > 0 {
      SortSorts(xs[..|xs| - 1], le);
      InsertSorts(Sort(xs[..|xs| - 1], le), xs[|xs| - 1], le);
    }
  }

  lemma SortMember<T>(xs: seq<T>, le: (T, T) -> bool, x: T)
    ensures x in Sort(xs, le) <==> x in xs
  {
    SortPermutes(xs, le);
    assert x in Sort(xs, le) <==> x in multiset(Sort(xs, le));
  }

  lemma {:induction false} SumInsert<T>(xs: seq<T>, x: T, le: (T, T) -> bool, f: T -> real)
    ensures SumBy(Insert(xs, x, le), f) == SumBy(xs, f) + f(x)
  {
    if |xs| == 0 || le(xs[|xs| - 1], x) {
      SumAppend(xs, x, f);
    } else {
      SumInsert(xs[..|xs| - 1], x, le, f);
      SumAppend(Insert(xs[..|xs| - 1], x, le), xs[|xs| - 1], f);
    }
  }

  /** A sum does not depend on the order in which its terms are taken. */
  lemma {:induction false} SumSort<T>(xs: seq<T>, le: (T, T) -> bool, f: T -> real)
    ensures SumBy(Sort(xs, le), f) == SumBy(xs, f)
  {
    if |xs| > 0 {
      SumSort(xs[..|xs| - 1], le, f);
      SumInsert(Sort(xs[..|xs| - 1], le), xs[|xs| - 1], le, f);
    }
  }

  /** Two sorted arrangements of the same elements end in the same element. */
  lemma SortedSameLast<T(!new)>(xs: seq<T>, ys: seq<T>, le: (T, T) -> bool)
    requires SortedBy(xs, le) && SortedBy(ys, le)
    requires |xs| > 0 && multiset(xs) == multiset(ys)
    requires Antisymmetric(le)
    ensures |ys| > 0 && xs[|xs| - 1] == ys[|ys| - 1]
  {
    var x := xs[|xs| - 1];
    assert x in multiset(ys);
    var y := ys[|ys| - 1];
    assert y in multiset(xs);
    var i :| 0 <= i < |ys| && ys[i] == x;
    var j :| 0 <= j < |xs| && xs[j] == y;
  }

  lemma WithoutLast<T>(xs: seq<T>)
    requires |xs| > 0
    ensures multiset(xs[..|xs| - 1]) == multiset(xs) - multiset{xs[|xs| - 1]}
  {
    assert xs == xs[..|xs| - 1] + [xs[|xs| - 1]];
  }

  lemma SameWithoutLast<T>(xs: seq<T>, ys: seq<T>)
    requires multiset(xs) == multiset(ys) && |xs| > 0 && |ys| > 0 && xs[|xs| - 1] == ys[|ys| - 1]
    ensures multiset(xs[..|xs| - 1]) == multiset(ys[..|ys| - 1])
  {
    WithoutLast(xs);
    WithoutLast(ys);
  }

  lemma SameEmpty<T>(xs: seq<T>, ys: seq<T>)
    requires multiset(xs) == multiset(ys) && xs == []
    ensures ys == []
  {
    assert |multiset(xs)| == |xs| && |multiset(ys)| == |ys|;
  }

  lemma SameEnds<T>(xs: seq<T>, ys: seq<T>)
    requires |xs| > 0 && |ys| > 0 && xs[|xs| - 1] == ys[|ys| - 1] && xs[..|xs| - 1] == ys[..|ys| - 1]
    ensures xs == ys
  {
    assert xs == xs[..|xs| - 1] + [xs[|xs| - 1]] && ys == ys[..|ys| - 1] + [ys[|ys| - 1]];
  }

  lemma SortedPrefix<T>(xs: seq<T>, le: (T, T) -> bool)
    requires SortedBy(xs, le) && |xs| > 0
    ensures SortedBy(xs[..|xs| - 1], le)
  {
  }

  /** Sorting by an antisymmetric order is canonical: only the multiset of elements matters. */
  lemma {:induction false} SortedUnique<T(!new)>(xs: seq<T>, ys: seq<T>, le: (T, T) -> bool)
    requires SortedBy(xs, le) && SortedBy(ys, le)
    requires multiset(xs) == multiset(ys)
    requires Antisymmetric(le)
    ensures xs == ys
    decreases |xs|
  {
    if |xs| == 0 {
      SameEmpty(xs, ys);
    } else {
      SortedSameLast(xs, ys, le);
      SameWithoutLast(xs, ys);
      SortedPrefix(xs, le);
      SortedPrefix(ys, le);
      SortedUnique(xs[..|xs| - 1], ys[..|ys| - 1], le);
      SameEnds(xs, ys);
    }
  }

  // ---- Splitting ----

  lemma {:induction false} FilterSplits<T>(xs: seq<T>, p: T -> bool, q: T -> bool)
    requires forall x :: x in xs ==> q(x) == !p(x)
    ensures multiset(Filter(xs, p)) + multiset(Filter(xs, q)) == multiset(xs)
  {
    if |xs| > 0 {
      var n := |xs| - 1;
      assert xs == xs[..n] + [xs[n]];
      FilterSplits(xs[..n], p, q);
    }
  }

  lemma MovedPast<T>(ys: seq<T>, x: seq<T>, y: seq<T>)
    requires x == [] || y == []
    ensures ys + x + y == ys + y + x
  {
  }

  lemma {:induction false} InsertFilter<T>(xs: seq<T>, x: T, le: (T, T) -> bool, p: T -> bool)
    requires p(x) ==> forall i :: 0 <= i < |xs| && p(xs[i]) ==> le(xs[i], x)
    ensures Filter(Insert(xs, x, le), p) == Filter(xs, p) + if p(x) then [x] else []
  {
    if |xs| == 0 || le(xs[|xs| - 1], x) {
      FilterAppend(xs, x, p);
    } else {
      var n := |xs| - 1;
      var y := xs[n];
      InsertFilter(xs[..n], x, le, p);
      FilterAppend(Insert(xs[..n], x, le), y, p);
      MovedPast(Filter(xs[..n], p), if p(x) then [x] else [], if p(y) then [y] else []);
    }
  }

  /** The sort is stable: elements that compare as equal stay in their order. */
  lemma {:induction false} SortIsStable<T(!new)>(xs: seq<T>, le: (T, T) -> bool, p: T -> bool)
    requires forall x, y :: p(x) && p(y) ==> le(x, y)
    ensures Filter(Sort(xs, le), p) == Filter(xs, p)
  {
    if |xs| > 0 {
      var n := |xs| - 1;
      SortIsStable(xs[..n], le, p);
      InsertFilter(Sort(xs[..n], le), xs[n], le, p);
    }
  }

  lemma MapAppend<T, U>(xs: seq<T>, x: T, f: T -> U)
    ensures Map(xs + [x], f) == Map(xs, f) + [f(x)]
  {
  }

  /** What one more element of a loop adds to a filter, and to a filter then mapped. */
  lemma FilterPrefix<T>(xs: seq<T>, i: nat, p: T -> bool)
    requires i < |xs|
    ensures Filter(xs[..i + 1], p) == Filter(xs[..i], p) + if p(xs[i]) then [xs[i]] else []
  {
    assert xs[..i + 1] == xs[..i] + [xs[i]];
    FilterAppend(xs[..i], xs[i], p);
  }

  lemma MapFilterPrefix<T, U>(xs: seq<T>, i: nat, p: T -> bool, f: T -> U)
    requires i < |xs|
    ensures Map(Filter(xs[..i + 1], p), f) == Map(Filter(xs[..i], p), f) + if p(xs[i]) then [f(xs[i])] else []
  {
    FilterPrefix(xs, i, p);
    MapAppend(Filter(xs[..i], p), xs[i], f);
  }

  /** The last cap elements. */
  function Latest<T>(log: seq<T>, cap: nat): seq<T> {
    if |log| <= cap then log else log[|log| - cap..]
  }

  lemma LatestAppend<T>(log: seq<T>, u: T, cap: nat)
    requires cap > 0
    ensures Latest(log + [u], cap) == Latest(Latest(log, cap) + [u], cap)
  {
  }
}
