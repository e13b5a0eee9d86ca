/** What the queries over the attribution tables answer, column by column and touch by touch. */
module AttributionQueries {
  import opened Sequences
  import opened AttributionTables

  // ---- The sums over all niches ----

  /** A column of the rows of one content id; zero in all other rows. */
  function Column(contentId: string, column: Row -> real): Row -> real {
    (r: Row) => if r.contentId == contentId then column(r) else 0.0
  }

  function Total(rows: seq<Row>, contentId: string, column: Row -> real): real { SumBy(rows, Column(contentId, column)) }

  ghost predicate HasRow(rows: seq<Row>, contentId: string) { exists i :: 0 <= i < |rows| && rows[i].contentId == contentId }

  ghost predicate LatestUpdate(rows: seq<Row>, contentId: string, at: real) {
    && (exists i :: 0 <= i < |rows| && rows[i].contentId == contentId && rows[i].updatedAt == at)
    && forall i :: 0 <= i < |rows| && rows[i].contentId == contentId ==> rows[i].updatedAt <= at
  }

  lemma {:induction false} NothingStored(rows: seq<Row>, contentId: string, column: Row -> real)
    requires !HasRow(rows, contentId)
    ensures Total(rows, contentId, column) == 0.0
  {
    if |rows| > 0 {
      var n := |rows| - 1;
      assert forall i :: 0 <= i < n ==> rows[..n][i] == rows[i];
      NothingStored(rows[..n], contentId, column);
    }
  }

  lemma {:induction false} AggregateStoredIff(rows: seq<Row>, contentId: string)
    ensures Aggregate(rows, contentId).Some? <==> HasRow(rows, contentId)
  {
    if Aggregate(rows, contentId).Some? {
      var i := AggregateStored(rows, contentId);
    } else if i :| 0 <= i < |rows| && rows[i].contentId == contentId {
      AggregateFound(rows, contentId, i);
    }
  }

  /** The numbers of the aggregate, as it grows by one row. */
  lemma AggregateNext(rows: seq<Row>, r: Row, contentId: string)
    ensures var a, b := Aggregate(rows, contentId), Aggregate(rows + [r], contentId);
            && (r.contentId != contentId ==> b == a)
            && (r.contentId == contentId ==>
                  && b.Some? && b.value.contentId == contentId && b.value.niche == "" && b.value.pageId == "" && b.value.accountId == ""
                  && b.value.clicks == r.clicks + (if a.Some? then a.value.clicks else 0)
                  && b.value.conversions == r.conversions + (if a.Some? then a.value.conversions else 0)
                  && b.value.attributedRev == r.attributedRev + (if a.Some? then a.value.attributedRev else 0.0)
                  && b.value.assistRev == r.assistRev + (if a.Some? then a.value.assistRev else 0.0)
                  && b.value.totalRev == r.totalRev + (if a.Some? then a.value.totalRev else 0.0))
  {
    assert (rows + [r])[..|rows|] == rows;
  }

  /** Clicks, conversions and the three revenues of the answer over all niches are the sums of these columns
      over the rows of the content id; without such a row there is no answer. */
  lemma {:induction false} AggregateIsSum(rows: seq<Row>, contentId: string)
    ensures Aggregate(rows, contentId).Some? <==> HasRow(rows, contentId)
    ensures Aggregate(rows, contentId).Some? ==>
              var a := Aggregate(rows, contentId).value;
              && a.contentId == contentId && a.niche == "" && a.pageId == "" && a.accountId == ""
              && a.clicks as real == Total(rows, contentId, (r: Row) => r.clicks as real)
              && a.conversions as real == Total(rows, contentId, (r: Row) => r.conversions as real)
              && a.attributedRev == Total(rows, contentId, (r: Row) => r.attributedRev)
              && a.assistRev == Total(rows, contentId, (r: Row) => r.assistRev)
              && a.totalRev == Total(rows, contentId, (r: Row) => r.totalRev)
  {
    AggregateStoredIff(rows, contentId);
    if |rows| > 0 {
      var n := |rows| - 1;
      assert rows == rows[..n] + [rows[n]];
      AggregateIsSum(rows[..n], contentId);
      AggregateNext(rows[..n], rows[n], contentId);
      if Aggregate(rows[..n], contentId).None? {
        NothingStored(rows[..n], contentId, (r: Row) => r.clicks as real);
        NothingStored(rows[..n], contentId, (r: Row) => r.conversions as real);
        NothingStored(rows[..n], contentId, (r: Row) => r.attributedRev);
        NothingStored(rows[..n], contentId, (r: Row) => r.assistRev);
        NothingStored(rows[..n], contentId, (r: Row) => r.totalRev);
      }
    }
  }

  lemma LatestNext(rows: seq<Row>, r: Row, contentId: string, at: real)
    requires r.contentId == contentId && (LatestUpdate(rows, contentId, at) || !HasRow(rows, contentId))
    ensures LatestUpdate(rows + [r], contentId, if HasRow(rows, contentId) && at >= r.updatedAt then at else r.updatedAt)
  {
    var all := rows + [r];
    assert all[|rows|] == r;
    if HasRow(rows, contentId) && at >= r.updatedAt {
      var i :| 0 <= i < |rows| && rows[i].contentId == contentId && rows[i].updatedAt == at;
      assert all[i] == rows[i];
    }
  }

  lemma LatestSame(rows: seq<Row>, r: Row, contentId: string, at: real)
    requires r.contentId != contentId && LatestUpdate(rows, contentId, at)
    ensures LatestUpdate(rows + [r], contentId, at)
  {
    var i :| 0 <= i < |rows| && rows[i].contentId == contentId && rows[i].updatedAt == at;
    assert (rows + [r])[i] == rows[i];
  }

  /** The answer over all niches is as of the latest update of any of them. */
  lemma {:induction false} AggregateIsLatest(rows: seq<Row>, contentId: string)
    requires Aggregate(rows, contentId).Some?
    ensures LatestUpdate(rows, contentId, Aggregate(rows, contentId).value.updatedAt)
  {
    var n := |rows| - 1;
    var r, a := rows[n], Aggregate(rows[..n], contentId);
    assert rows == rows[..n] + [r];
    AggregateStoredIff(rows[..n], contentId);
    if a.Some? {
      AggregateIsLatest(rows[..n], contentId);
    }
    if r.contentId != contentId {
      LatestSame(rows[..n], r, contentId, a.value.updatedAt);
    } else {
      LatestNext(rows[..n], r, contentId, if a.Some? then a.value.updatedAt else 0.0);
    }
  }

  // ---- Touch lists and pending conversions ----

  lemma {:induction false} FilterCounts<T>(xs: seq<T>, p: T -> bool, x: T)
    ensures multiset(Filter(xs, p))[x] == if p(x) then multiset(xs)[x] else 0
  {
    if |xs| > 0 {
      var n := |xs| - 1;
      assert xs == xs[..n] + [xs[n]];
      FilterCounts(xs[..n], p, x);
    }
  }

  lemma SortedCounts<T>(xs: seq<T>, p: T -> bool, le: (T, T) -> bool, x: T)
    ensures multiset(Sort(Filter(xs, p), le))[x] == if p(x) then multiset(xs)[x] else 0
  {
    FilterCounts(xs, p, x);
    SortPermutes(Filter(xs, p), le);
  }

  lemma SortedPair<T(!new)>(xs: seq<T>, le: (T, T) -> bool, i: nat, j: nat)
    requires TotalPreorder(le) && i < j < |Sort(xs, le)|
    ensures le(Sort(xs, le)[i], Sort(xs, le)[j])
  {
    SortSorts(xs, le);
  }

  lemma ClickPair(touches: seq<Touch>, i: nat, j: nat)
    requires i <= j < |Sort(touches, ClickOrder())|
    ensures Sort(touches, ClickOrder())[i].clickTs <= Sort(touches, ClickOrder())[j].clickTs
  {
    if i < j {
      SortedPair(touches, ClickOrder(), i, j);
    }
  }

  lemma TimePair(conversions: seq<Conversion>, i: nat, j: nat)
    requires i <= j < |Sort(conversions, TimeOrder())|
    ensures Sort(conversions, TimeOrder())[i].conversionTs <= Sort(conversions, TimeOrder())[j].conversionTs
  {
    if i < j {
      SortedPair(conversions, TimeOrder(), i, j);
    }
  }

  /** Each touch of a content id is in its list as often as it is stored, and no other touch is. */
  lemma TouchesOfContentComplete(touches: seq<Touch>, contentId: string, t: Touch)
    ensures multiset(TouchesOfContent(touches, contentId))[t] == if t.contentId == contentId then multiset(touches)[t] else 0
  {
    SortedCounts(touches, WithContent(contentId), ClickOrder(), t);
  }

  lemma TouchesOfCodeComplete(touches: seq<Touch>, code: string, t: Touch)
    ensures multiset(TouchesOfCode(touches, code))[t] == if t.trackingCode == code then multiset(touches)[t] else 0
  {
    SortedCounts(touches, WithCode(code), ClickOrder(), t);
  }

  /** The pending conversions are those not yet attributed, each as often as it is stored. */
  lemma PendingComplete(conversions: seq<Conversion>, c: Conversion)
    ensures multiset(Pending(conversions))[c] == if !c.attributed then multiset(conversions)[c] else 0
  {
    SortedCounts(conversions, IsPending(), TimeOrder(), c);
  }

  /** Touch lists run from the oldest click to the newest. */
  lemma TouchesInOrder(touches: seq<Touch>, contentId: string, code: string, i: nat, j: nat)
    ensures var list := TouchesOfContent(touches, contentId); i <= j < |list| ==> list[i].clickTs <= list[j].clickTs
    ensures var list := TouchesOfCode(touches, code); i <= j < |list| ==> list[i].clickTs <= list[j].clickTs
  {
    if i <= j < |TouchesOfContent(touches, contentId)| {
      ClickPair(Filter(touches, WithContent(contentId)), i, j);
    }
    if i <= j < |TouchesOfCode(touches, code)| {
      ClickPair(Filter(touches, WithCode(code)), i, j);
    }
  }

  ghost predicate OldestFirst(list: seq<Touch>) { forall i, j :: 0 <= i <= j < |list| ==> list[i].clickTs <= list[j].clickTs }

  lemma ListsOldestFirst(touches: seq<Touch>, contentId: string, code: string)
    ensures OldestFirst(TouchesOfContent(touches, contentId)) && OldestFirst(TouchesOfCode(touches, code))
    ensures forall t :: t in TouchesOfCode(touches, code) ==> t in touches && t.trackingCode == code
  {
    var list, codes := TouchesOfContent(touches, contentId), TouchesOfCode(touches, code);
    forall i, j | 0 <= i <= j < |list| ensures list[i].clickTs <= list[j].clickTs {
      TouchesInOrder(touches, contentId, code, i, j);
    }
    forall i, j | 0 <= i <= j < |codes| ensures codes[i].clickTs <= codes[j].clickTs {
      TouchesInOrder(touches, contentId, code, i, j);
    }
    forall t | t in codes ensures t in touches && t.trackingCode == code {
      SortMember(Filter(touches, WithCode(code)), ClickOrder(), t);
      FilterMembers(touches, WithCode(code), t);
    }
  }

  /** The pending conversions run from the oldest to the newest. */
  lemma PendingInOrder(conversions: seq<Conversion>, i: nat, j: nat)
    requires i <= j < |Pending(conversions)|
    ensures Pending(conversions)[i].conversionTs <= Pending(conversions)[j].conversionTs
  {
    TimePair(Filter(conversions, IsPending()), i, j);
  }

  /** The last of the touches of a content id has the greatest click time of all that are stored. */
  lemma LastIsLatest(touches: seq<Touch>, contentId: string, u: Touch)
    requires u in touches && u.contentId == contentId
    ensures var list := TouchesOfContent(touches, contentId);
            && |list| > 0 && list[|list| - 1] in touches && list[|list| - 1].contentId == contentId
            && u.clickTs <= list[|list| - 1].clickTs
  {
    var list := TouchesOfContent(touches, contentId);
    TouchesOfContentComplete(touches, contentId, u);
    assert u in multiset(touches) && u in multiset(list);
    var i :| 0 <= i < |list| && list[i] == u;
    TouchesInOrder(touches, contentId, "", i, |list| - 1);
    TouchesBelong(touches, contentId);
  }

  // ---- Writing one row ----

  /** The row of the written key: new, or the old one with the deltas added; its page and account are those of
      its first write. */
  lemma UpsertRow(rows: seq<Row>, d: Delta, now: real)
    ensures var prior, row := RowOf(rows, d.contentId, d.niche), RowOf(Upsert(rows, d, now), d.contentId, d.niche);
            && row.Some? && row.value.updatedAt == now
            && row.value.clicks == (if prior.Some? then prior.value.clicks else 0) + d.clicks
            && row.value.conversions == (if prior.Some? then prior.value.conversions else 0) + d.conversions
            && row.value.attributedRev == (if prior.Some? then prior.value.attributedRev else 0.0) + d.attrRev
            && row.value.assistRev == (if prior.Some? then prior.value.assistRev else 0.0) + d.asstRev
            && row.value.totalRev == (if prior.Some? then prior.value.totalRev else 0.0) + d.attrRev + d.asstRev
            && row.value.pageId == (if prior.Some? then prior.value.pageId else d.pageId)
            && row.value.accountId == (if prior.Some? then prior.value.accountId else d.accountId)
  {
    var i, r := RowIndex(rows, d.contentId, d.niche), Upsert(rows, d, now);
    RowIndexIsFirst(r, d.contentId, d.niche, i);
    var j := RowIndex(r, d.contentId, d.niche);
    if j < i {
      RowIndexIsFirst(rows, d.contentId, d.niche, j);
    }
  }
}
