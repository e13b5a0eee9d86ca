/** The farthest-pair seeds of a split (core/account_clustering.py, _split_cluster). */
module Splitting {
  import opened Sequences
  import opened Vectors

  type Pair = (nat, nat)

  function PairDist(s: seq<Point>, p: Pair): real
    requires p.0 < |s| && p.1 < |s|
  {
    SqDist(s[p.0], s[p.1])
  }

  predicate Within(s: seq<Point>, best: Option<Pair>) {
    best.Some? ==> best.value.0 < best.value.1 < |s|
  }

  /** Keeps the running best unless the pair (i, j) is strictly farther apart. */
  function Better(s: seq<Point>, best: Option<Pair>, i: nat, j: nat): (r: Option<Pair>)
    requires i < j < |s| && Within(s, best)
    ensures r.Some? && Within(s, r)
  {
    if best.None? || PairDist(s, (i, j)) > PairDist(s, best.value) then Some((i, j)) else best
  }

  /** The running best after row i has been scanned up to, not including, column j. */
  function Row(s: seq<Point>, best: Option<Pair>, i: nat, j: nat): (r: Option<Pair>)
    requires i < j <= |s| && Within(s, best)
    ensures Within(s, r)
  {
    if j == i + 1 then best else Better(s, Row(s, best, i, j - 1), i, j - 1)
  }

  /** The running best after the first i rows. */
  function Scan(s: seq<Point>, i: nat): (r: Option<Pair>)
    requires i <= |s|
    ensures Within(s, r)
  {
    if i == 0 then None else Row(s, Scan(s, i - 1), i - 1, |s|)
  }

  lemma {:induction false} RowKeepsBest(s: seq<Point>, best: Option<Pair>, i: nat, j: nat)
    requires i < j <= |s| && Within(s, best) && best.Some?
    ensures Row(s, best, i, j).Some? && PairDist(s, best.value) <= PairDist(s, Row(s, best, i, j).value)
  {
    if j > i + 1 {
      RowKeepsBest(s, best, i, j - 1);
    }
  }

  lemma {:induction false} RowDominates(s: seq<Point>, best: Option<Pair>, i: nat, j: nat, c: nat)
    requires i < c < j <= |s| && Within(s, best)
    ensures Row(s, best, i, j).Some? && PairDist(s, (i, c)) <= PairDist(s, Row(s, best, i, j).value)
  {
    if c < j - 1 {
      RowDominates(s, best, i, j - 1, c);
    }
  }

  lemma {:induction false} ScanDominates(s: seq<Point>, i: nat, r: nat, c: nat)
    requires i <= |s| && r < i && r < c < |s|
    ensures Scan(s, i).Some? && PairDist(s, (r, c)) <= PairDist(s, Scan(s, i).value)
  {
    if r < i - 1 {
      ScanDominates(s, i - 1, r, c);
      RowKeepsBest(s, Scan(s, i - 1), i - 1, |s|);
    } else {
      RowDominates(s, Scan(s, i - 1), i - 1, |s|, c);
    }
  }

  /** Every pair that comes before the running best is strictly nearer. */
  ghost predicate Leads(s: seq<Point>, best: Option<Pair>)
    requires Within(s, best)
  {
    best.Some? ==> forall r: nat, c: nat :: r < c < |s| && Before(r, c, best.value) ==> PairDist(s, (r, c)) < PairDist(s, best.value)
  }

  ghost predicate Before(r: nat, c: nat, p: Pair) { r < p.0 || (r == p.0 && c < p.1) }

  lemma BeforeDominated(s: seq<Point>, i: nat, j: nat, r: nat, c: nat)
    requires i < j < |s| && r < c < |s| && Before(r, c, (i, j))
    ensures var best := Row(s, Scan(s, i), i, j); best.Some? && PairDist(s, (r, c)) <= PairDist(s, best.value)
  {
    if r < i {
      ScanDominates(s, i, r, c);
      RowKeepsBest(s, Scan(s, i), i, j);
    } else {
      RowDominates(s, Scan(s, i), i, j, c);
    }
  }

  /** No pair before (i, j) is farther apart than the running best. */
  ghost predicate Covers(s: seq<Point>, best: Option<Pair>, i: nat, j: nat)
    requires Within(s, best)
  {
    forall r: nat, c: nat :: r < c < |s| && Before(r, c, (i, j)) ==> best.Some? && PairDist(s, (r, c)) <= PairDist(s, best.value)
  }

  lemma RowCovers(s: seq<Point>, i: nat, j: nat)
    requires i < j < |s|
    ensures Covers(s, Row(s, Scan(s, i), i, j), i, j)
  {
    forall r: nat, c: nat | r < c < |s| && Before(r, c, (i, j))
      ensures var best := Row(s, Scan(s, i), i, j); best.Some? && PairDist(s, (r, c)) <= PairDist(s, best.value)
    {
      BeforeDominated(s, i, j, r, c);
    }
  }

  lemma BetterLeads(s: seq<Point>, best: Option<Pair>, i: nat, j: nat)
    requires i < j < |s| && Within(s, best) && Leads(s, best) && Covers(s, best, i, j)
    ensures Leads(s, Better(s, best, i, j))
  {
  }

  lemma {:induction false} RowLeads(s: seq<Point>, i: nat, j: nat)
    requires i < j <= |s|
    ensures Leads(s, Row(s, Scan(s, i), i, j))
    decreases i, j
  {
    if j == i + 1 {
      ScanLeads(s, i);
    } else {
      RowLeads(s, i, j - 1);
      RowCovers(s, i, j - 1);
      BetterLeads(s, Row(s, Scan(s, i), i, j - 1), i, j - 1);
    }
  }

  lemma {:induction false} ScanLeads(s: seq<Point>, i: nat)
    requires i <= |s|
    ensures Leads(s, Scan(s, i))
    decreases i, 0
  {
    if i > 0 {
      RowLeads(s, i - 1, |s|);
    }
  }

  /** The two seeds: the first farthest pair of the sorted members, or the only member twice. */
  function Seeds(members: seq<Point>): (r: (Point, Point))
    requires |members| > 0
  {
    if |members| < 2 then (members[0], members[0])
    else
      SortPermutes(members, LexLe());
      var s := Sort(members, LexLe());
      ScanDominates(s, |s|, 0, 1);
      var best := Scan(s, |s|).value;
      (s[best.0], s[best.1])
  }

  lemma ScanDominatesAll(s: seq<Point>, i: nat, j: nat)
    requires |s| >= 2 && i < |s| && j < |s|
    ensures Scan(s, |s|).Some? && SqDist(s[i], s[j]) <= PairDist(s, Scan(s, |s|).value)
  {
    ScanDominates(s, |s|, 0, 1);
    var best := Scan(s, |s|).value;
    SqDistBasics(s[i], s[j]);
    SqDistBasics(s[best.0], s[best.1]);
    if i < j {
      ScanDominates(s, |s|, i, j);
    } else if j < i {
      ScanDominates(s, |s|, j, i);
    }
  }

  /** No two members are farther apart than the two seeds, and both seeds are members. */
  lemma SeedsAreFarthest(members: seq<Point>, x: Point, y: Point)
    requires |members| >= 2 && x in members && y in members
    ensures Seeds(members).0 in members && Seeds(members).1 in members
    ensures SqDist(x, y) <= SqDist(Seeds(members).0, Seeds(members).1)
  {
    var s := Sort(members, LexLe());
    SortPermutes(members, LexLe());
    SortMember(members, LexLe(), x);
    SortMember(members, LexLe(), y);
    var i :| 0 <= i < |s| && s[i] == x;
    var j :| 0 <= j < |s| && s[j] == y;
    ScanDominatesAll(s, i, j);
    SortMember(members, LexLe(), Seeds(members).0);
    SortMember(members, LexLe(), Seeds(members).1);
  }

  /** The seeds depend on which members there are, not on the order they are listed in. */
  lemma SeedsIgnoreOrder(members: seq<Point>, others: seq<Point>)
    requires |members| > 0 && multiset(members) == multiset(others)
    ensures |others| > 0 && Seeds(others) == Seeds(members)
  {
    assert |multiset(members)| == |members| && |multiset(others)| == |others|;
    if |members| == 1 {
      assert members[0] in multiset(others);
    } else {
      LexOrder();
      SortPermutes(members, LexLe());
      SortPermutes(others, LexLe());
      SortSorts(members, LexLe());
      SortSorts(others, LexLe());
      SortedUnique(Sort(members, LexLe()), Sort(others, LexLe()), LexLe());
    }
  }

  /** Of several farthest pairs the first in the order of the sorted members is taken. */
  lemma SeedsAreFirst(members: seq<Point>) returns (i: nat, j: nat)
    requires |members| >= 2
    ensures var s := Sort(members, LexLe());
            && i < j < |s| && Seeds(members) == (s[i], s[j])
            && forall r: nat, c: nat :: r < c < |s| && Before(r, c, (i, j)) ==> SqDist(s[r], s[c]) < SqDist(s[i], s[j])
  {
    var s := Sort(members, LexLe());
    SortPermutes(members, LexLe());
    ScanDominates(s, |s|, 0, 1);
    ScanLeads(s, |s|);
    i, j := Scan(s, |s|).value.0, Scan(s, |s|).value.1;
    forall r: nat, c: nat | r < c < |s| && Before(r, c, (i, j)) ensures SqDist(s[r], s[c]) < SqDist(s[i], s[j]) {
      assert PairDist(s, (r, c)) < PairDist(s, (i, j));
    }
  }

  lemma RowNext(s: seq<Point>, best: Option<Pair>, i: nat, j: nat)
    requires i < j < |s| && Within(s, best)
    ensures Row(s, best, i, j + 1) == Better(s, Row(s, best, i, j), i, j)
  {
  }

  lemma ScanNext(s: seq<Point>, i: nat)
    requires i < |s|
    ensures Scan(s, i + 1) == Row(s, Scan(s, i), i, |s|)
  {
  }

  /** The inner loop, over one row of pairs. */
  method ScanRow(s: seq<Point>, from: Option<Pair>, i: nat) returns (best: Option<Pair>)
    requires i < |s| && Within(s, from)
    ensures best == Row(s, from, i, |s|)
  {
    best := from;
    for j := i + 1 to |s|
      invariant best == Row(s, from, i, j)
    {
      RowNext(s, from, i, j);
      if best.None? || SqDist(s[i], s[j]) > SqDist(s[best.value.0], s[best.value.1]) {
        best := Some((i, j));
      }
    }
  }

  method SplitCluster(members: seq<Point>) returns (seedA: Point, seedB: Point)
    requires |members| > 0
    ensures (seedA, seedB) == Seeds(members)
  {
    if |members| < 2 {
      return members[0], members[0];
    }
    var s := Sort(members, LexLe());
    SortPermutes(members, LexLe());
    var best: Option<Pair> := None;
    for i := 0 to |s|
      invariant best == Scan(s, i)
    {
      ScanNext(s, i);
      best := ScanRow(s, best, i);
    }
    ScanDominates(s, |s|, 0, 1);
    seedA, seedB := s[best.value.0], s[best.value.1];
  }
}
