/** The three tables of core/attribution_store.py and the queries over them. */
module AttributionTables {
  import opened Sequences

  datatype Touch = Touch(trackingCode: string, contentId: string, pageId: string, niche: string,
                         accountId: string, ts: real, clickTs: real)

  datatype Conversion = Conversion(id: nat, trackingCode: string, contentId: string, pageId: string, niche: string,
                                   accountId: string, revenue: real, ts: real, conversionTs: real, attributed: bool)

  datatype Row = Row(contentId: string, niche: string, pageId: string, accountId: string, clicks: nat,
                     conversions: nat, attributedRev: real, assistRev: real, totalRev: real, updatedAt: real)

  datatype Tables = Tables(touches: seq<Touch>, conversions: seq<Conversion>, rows: seq<Row>)

  // ---- Queries ----

  function ClickOrder(): (Touch, Touch) -> bool { (a: Touch, b: Touch) => a.clickTs <= b.clickTs }

  function TimeOrder(): (Conversion, Conversion) -> bool { (a: Conversion, b: Conversion) => a.conversionTs <= b.conversionTs }

  function WithCode(code: string): Touch -> bool { (t: Touch) => t.trackingCode == code }

  function WithContent(contentId: string): Touch -> bool { (t: Touch) => t.contentId == contentId }

  function IsPending(): Conversion -> bool { (c: Conversion) => !c.attributed }

  function TouchesOfCode(touches: seq<Touch>, code: string): seq<Touch> {
    Sort(Filter(touches, WithCode(code)), ClickOrder())
  }

  function TouchesOfContent(touches: seq<Touch>, contentId: string): seq<Touch> {
    Sort(Filter(touches, WithContent(contentId)), ClickOrder())
  }

  /** Unattributed conversions, oldest first. */
  function Pending(conversions: seq<Conversion>): seq<Conversion> {
    Sort(Filter(conversions, IsPending()), TimeOrder())
  }

  /** Position of the row with this primary key, or the number of rows. */
  function RowIndex(rows: seq<Row>, contentId: string, niche: string): (i: nat)
    ensures i <= |rows|
    ensures i < |rows| ==> rows[i].contentId == contentId && rows[i].niche == niche
  {
    if |rows| == 0 then 0
    else if rows[0].contentId == contentId && rows[0].niche == niche then 0
    else 1 + RowIndex(rows[1..], contentId, niche)
  }

  function RowOf(rows: seq<Row>, contentId: string, niche: string): Option<Row> {
    var i := RowIndex(rows, contentId, niche);
    if i < |rows| then Some(rows[i]) else None
  }

  /** The sums over every niche of one content id; None when it has no row. */
  function Aggregate(rows: seq<Row>, contentId: string): Option<Row> {
    if |rows| == 0 then None
    else
      var r := rows[|rows| - 1];
      match Aggregate(rows[..|rows| - 1], contentId)
      case None =>
        if r.contentId == contentId then Some(r.(niche := "", pageId := "", accountId := "")) else None
      case Some(a) =>
        if r.contentId != contentId then Some(a)
        else Some(Row(contentId, "", "", "", a.clicks + r.clicks, a.conversions + r.conversions,
                      a.attributedRev + r.attributedRev, a.assistRev + r.assistRev, a.totalRev + r.totalRev,
                      if a.updatedAt >= r.updatedAt then a.updatedAt else r.updatedAt))
  }

  // ---- Updates ----

  datatype Delta = Delta(contentId: string, niche: string, pageId: string, accountId: string,
                         clicks: nat, conversions: nat, attrRev: real, asstRev: real)

  /** INSERT ... ON CONFLICT DO UPDATE: a new row, or the deltas added to the existing one. */
  function Upsert(rows: seq<Row>, d: Delta, now: real): (r: seq<Row>) {
    var i := RowIndex(rows, d.contentId, d.niche);
    if i == |rows| then
      rows + [Row(d.contentId, d.niche, d.pageId, d.accountId, d.clicks, d.conversions, d.attrRev, d.asstRev,
                  d.attrRev + d.asstRev, now)]
    else
      var prior := rows[i];
      rows[i := prior.(clicks := prior.clicks + d.clicks, conversions := prior.conversions + d.conversions,
                      attributedRev := prior.attributedRev + d.attrRev, assistRev := prior.assistRev + d.asstRev,
                      totalRev := prior.totalRev + d.attrRev + d.asstRev, updatedAt := now)]
  }

  function MarkOne(ids: seq<nat>): Conversion -> Conversion {
    (c: Conversion) => if c.id in ids then c.(attributed := true) else c
  }

  function Mark(conversions: seq<Conversion>, ids: seq<nat>): seq<Conversion> { Map(conversions, MarkOne(ids)) }

  ghost predicate DistinctKeys(rows: seq<Row>) {
    forall i, j :: 0 <= i < j < |rows| ==> (rows[i].contentId, rows[i].niche) != (rows[j].contentId, rows[j].niche)
  }

  /** Columns that hold in every row ever written: the total is the sum of its parts, and
      there is a click for every conversion. */
  ghost predicate RowSound(r: Row) {
    r.totalRev == r.attributedRev + r.assistRev && r.conversions <= r.clicks && r.attributedRev >= 0.0 && r.assistRev >= 0.0
  }

  ghost predicate DeltaSound(d: Delta) {
    d.conversions <= d.clicks && d.attrRev >= 0.0 && d.asstRev >= 0.0
  }

  ghost predicate RowsSound(rows: seq<Row>) {
    DistinctKeys(rows) && forall r :: r in rows ==> RowSound(r)
  }

  lemma {:induction false} RowIndexIsFirst(rows: seq<Row>, contentId: string, niche: string, j: nat)
    requires j < |rows| && rows[j].contentId == contentId && rows[j].niche == niche
    ensures RowIndex(rows, contentId, niche) <= j
  {
    if j > 0 {
      RowIndexIsFirst(rows[1..], contentId, niche, j - 1);
    }
  }

  /** An upsert keeps the primary key unique and every row sound. */
  lemma UpsertKeepsSound(rows: seq<Row>, d: Delta, now: real)
    requires RowsSound(rows) && DeltaSound(d)
    ensures RowsSound(Upsert(rows, d, now))
  {
    var r := Upsert(rows, d, now);
    var i := RowIndex(rows, d.contentId, d.niche);
    forall x, y | 0 <= x < y < |r| ensures (r[x].contentId, r[x].niche) != (r[y].contentId, r[y].niche) {
      if i == |rows| && y == |rows| && r[x].contentId == d.contentId && r[x].niche == d.niche {
        RowIndexIsFirst(rows, d.contentId, d.niche, x);
      }
    }
    forall row | row in r ensures RowSound(row) {
      if row !in rows {
        assert i < |rows| ==> rows[i] in rows;
      }
    }
  }

  /** Only the row with the written key changes. */
  lemma UpsertFrames(rows: seq<Row>, d: Delta, now: real, contentId: string, niche: string)
    requires (contentId, niche) != (d.contentId, d.niche)
    ensures RowOf(Upsert(rows, d, now), contentId, niche) == RowOf(rows, contentId, niche)
  {
    var r := Upsert(rows, d, now);
    var i := RowIndex(rows, d.contentId, d.niche);
    if i == |rows| {
      IndexAppend(rows, r[|rows|], contentId, niche);
    } else {
      IndexUpdate(rows, i, r[i], contentId, niche);
    }
  }

  /** Rows never go away: a request for one niche or for all that had a row keeps having one. */
  lemma UpsertKeepsRows(rows: seq<Row>, d: Delta, now: real, contentId: string, niche: string)
    requires RowOf(rows, contentId, niche).Some?
    ensures RowOf(Upsert(rows, d, now), contentId, niche).Some?
  {
    var i, r := RowIndex(rows, contentId, niche), Upsert(rows, d, now);
    RowIndexIsFirst(r, contentId, niche, i);
  }

  lemma {:induction false} AggregateFound(rows: seq<Row>, contentId: string, i: nat)
    requires i < |rows| && rows[i].contentId == contentId
    ensures Aggregate(rows, contentId).Some?
  {
    if i < |rows| - 1 {
      AggregateFound(rows[..|rows| - 1], contentId, i);
    }
  }

  lemma {:induction false} AggregateStored(rows: seq<Row>, contentId: string) returns (i: nat)
    requires Aggregate(rows, contentId).Some?
    ensures i < |rows| && rows[i].contentId == contentId
    ensures Aggregate(rows, contentId).value.contentId == contentId && Aggregate(rows, contentId).value.niche == ""
  {
    var n := |rows| - 1;
    if Aggregate(rows[..n], contentId).Some? {
      i := AggregateStored(rows[..n], contentId);
    } else {
      i := n;
    }
  }

  lemma UpsertKeepsAggregate(rows: seq<Row>, d: Delta, now: real, contentId: string)
    requires Aggregate(rows, contentId).Some?
    ensures Aggregate(Upsert(rows, d, now), contentId).Some?
  {
    var i := AggregateStored(rows, contentId);
    AggregateFound(Upsert(rows, d, now), contentId, i);
  }

  /** The sums over all niches are as sound as the rows they are taken over. */
  lemma {:induction false} AggregateSound(rows: seq<Row>, contentId: string)
    requires forall r :: r in rows ==> RowSound(r)
    ensures Aggregate(rows, contentId).Some? ==> RowSound(Aggregate(rows, contentId).value)
  {
    if |rows| > 0 {
      AggregateSound(rows[..|rows| - 1], contentId);
      assert rows[|rows| - 1] in rows;
    }
  }

  // ---- Content ids without a separator ----

  predicate ColonFree(s: string) { ':' !in s }

  predicate ParsedId(s: string) { s != "" && ColonFree(s) }

  /** Without a separator, or with one at its very start: no nonempty part precedes a separator. */
  predicate Uncut(s: string) { ColonFree(s) || s[0] == ':' }

  /** Every content id in the tables is nonempty and free of the separator of codes and cache keys. */
  ghost predicate ParsedIds(t: Tables) {
    && (forall i :: 0 <= i < |t.touches| ==> ParsedId(t.touches[i].contentId))
    && (forall i :: 0 <= i < |t.conversions| ==> ParsedId(t.conversions[i].contentId))
    && (forall i :: 0 <= i < |t.rows| ==> ParsedId(t.rows[i].contentId))
  }

  lemma {:induction false} IndexAppend(rows: seq<Row>, row: Row, contentId: string, niche: string)
    requires (row.contentId, row.niche) != (contentId, niche)
    ensures RowOf(rows + [row], contentId, niche) == RowOf(rows, contentId, niche)
  {
    if |rows| > 0 {
      assert (rows + [row])[1..] == rows[1..] + [row];
      IndexAppend(rows[1..], row, contentId, niche);
    }
  }

  lemma {:induction false} IndexUpdate(rows: seq<Row>, i: nat, row: Row, contentId: string, niche: string)
    requires i < |rows|
    requires (row.contentId, row.niche) != (contentId, niche) && (rows[i].contentId, rows[i].niche) != (contentId, niche)
    ensures RowOf(rows[i := row], contentId, niche) == RowOf(rows, contentId, niche)
  {
    if i == 0 {
      assert rows[i := row][1..] == rows[1..];
    } else {
      assert rows[i := row][1..] == rows[1..][i - 1 := row];
      IndexUpdate(rows[1..], i - 1, row, contentId, niche);
    }
  }

  /** Every touch list of a content id holds touches of that content id only, in click order. */
  lemma TouchesBelong(touches: seq<Touch>, contentId: string)
    ensures forall t :: t in TouchesOfContent(touches, contentId) ==> t in touches && t.contentId == contentId
    ensures SortedBy(TouchesOfContent(touches, contentId), ClickOrder())
  {
    var own := Filter(touches, WithContent(contentId));
    forall t | t in TouchesOfContent(touches, contentId) ensures t in touches && t.contentId == contentId {
      SortMember(own, ClickOrder(), t);
      FilterMembers(touches, WithContent(contentId), t);
    }
    SortSorts(own, ClickOrder());
  }
}
