/** What a flush writes, row by row and column by column. */
module LedgerRows {
  import opened Sequences
  import opened Reals
  import opened AttributionTables
  import opened AttributionQueries
  import opened Ledgers

  // ---- Who gets what of one conversion ----

  /** The credit names the touch's content, page and account, and the touch's niche if the conversion has none. */
  ghost predicate Names(credit: Credit, c: Conversion, t: Touch) {
    && credit.contentId == t.contentId && credit.pageId == t.pageId && credit.accountId == t.accountId
    && credit.niche == (if c.niche == "" then t.niche else c.niche)
  }

  /** Of several touches of a content id the one with the latest click takes seventy percent, the only share
      that counts as last click. */
  lemma LatestTakesSeventy(c: Conversion, touches: seq<Touch>, cid: string, u: Touch)
    requires |TouchesOfContent(touches, cid)| >= 2 && u in touches && u.contentId == cid
    ensures var list, credits := TouchesOfContent(touches, cid), Attribute(c, TouchesOfContent(touches, cid));
            && |credits| == |list| && list[|list| - 1] in touches && u.clickTs <= list[|list| - 1].clickTs
            && Names(credits[0], c, list[|list| - 1]) && credits[0].role == LastClick && credits[0].share == c.revenue * 0.7
  {
    LastIsLatest(touches, cid, u);
    LastClickTakesSeventy(c, TouchesOfContent(touches, cid), 0);
  }

  /** Every other touch assists, with an equal part of thirty percent. */
  lemma OthersShareThirty(c: Conversion, touches: seq<Touch>, i: nat)
    requires |touches| >= 2 && i < |touches| - 1
    ensures |Attribute(c, touches)| == |touches|
    ensures var credit := Attribute(c, touches)[i + 1];
            Names(credit, c, touches[i]) && credit.role == Assist && credit.share == c.revenue * 0.3 / (|touches| - 1) as real
  {
    LastClickTakesSeventy(c, touches, i);
  }

  /** A single touch takes all; without any the conversion is credited to itself. */
  lemma OneOrNoTouch(c: Conversion, touches: seq<Touch>)
    requires |touches| <= 1
    ensures |Attribute(c, touches)| == 1
    ensures var credit := Attribute(c, touches)[0];
            && credit.role == LastClick && credit.share == c.revenue
            && (|touches| == 1 ==> Names(credit, c, touches[0]))
            && (|touches| == 0 ==> credit.contentId == c.contentId && credit.niche == c.niche
                                   && credit.pageId == c.pageId && credit.accountId == c.accountId)
  {
  }

  // ---- Sums over the credits of one content id and niche ----

  /** All credits of a batch, in the order in which they are given. */
  function Credits(batch: seq<Conversion>, seen: seq<seq<Touch>>): seq<Credit>
    requires |batch| == |seen|
  {
    if |batch| == 0 then []
    else
      var n := |batch| - 1;
      Credits(batch[..n], seen[..n]) + Attribute(batch[n], seen[n])
  }

  datatype Measure = Clicks | Conversions | LastRevenue | AssistRevenue | Revenue

  /** What a credit adds: a click, a conversion if it is a last click, and its share to the one or the other. */
  function OfCredit(m: Measure, cid: string, niche: string): Credit -> real {
    (c: Credit) =>
      if c.contentId != cid || c.niche != niche then 0.0
      else match m
           case Clicks => 1.0
           case Conversions => if c.role == LastClick then 1.0 else 0.0
           case LastRevenue => if c.role == LastClick then c.share else 0.0
           case AssistRevenue => if c.role == LastClick then 0.0 else c.share
           case Revenue => c.share
  }

  function OfDelta(m: Measure, cid: string, niche: string): Delta -> real {
    (d: Delta) =>
      if d.contentId != cid || d.niche != niche then 0.0
      else match m
           case Clicks => d.clicks as real
           case Conversions => d.conversions as real
           case LastRevenue => d.attrRev
           case AssistRevenue => d.asstRev
           case Revenue => d.attrRev + d.asstRev
  }

  function OfRow(m: Measure, cid: string, niche: string): Row -> real {
    (r: Row) =>
      if r.contentId != cid || r.niche != niche then 0.0
      else match m
           case Clicks => r.clicks as real
           case Conversions => r.conversions as real
           case LastRevenue => r.attributedRev
           case AssistRevenue => r.assistRev
           case Revenue => r.totalRev
  }

  lemma BumpedAdds(d: Delta, c: Credit, m: Measure, cid: string, niche: string)
    requires d.contentId == c.contentId && d.niche == c.niche
    ensures OfDelta(m, cid, niche)(Bumped(d, c)) == OfDelta(m, cid, niche)(d) + OfCredit(m, cid, niche)(c)
  {
  }

  lemma AddCreditAdds(acc: seq<Delta>, c: Credit, m: Measure, cid: string, niche: string)
    ensures SumBy(AddCredit(acc, c), OfDelta(m, cid, niche)) == SumBy(acc, OfDelta(m, cid, niche)) + OfCredit(m, cid, niche)(c)
  {
    var i := DeltaIndex(acc, c.contentId, c.niche);
    if i == |acc| {
      var empty := Delta(c.contentId, c.niche, c.pageId, c.accountId, 0, 0, 0.0, 0.0);
      BumpedAdds(empty, c, m, cid, niche);
      SumAppend(acc, Bumped(empty, c), OfDelta(m, cid, niche));
    } else {
      BumpedAdds(acc[i], c, m, cid, niche);
      SumUpdate(acc, i, Bumped(acc[i], c), OfDelta(m, cid, niche));
    }
  }

  lemma {:induction false} AddCreditsAdds(acc: seq<Delta>, cs: seq<Credit>, m: Measure, cid: string, niche: string)
    ensures SumBy(AddCredits(acc, cs), OfDelta(m, cid, niche)) == SumBy(acc, OfDelta(m, cid, niche)) + SumBy(cs, OfCredit(m, cid, niche))
  {
    if |cs| > 0 {
      var n := |cs| - 1;
      AddCreditsAdds(acc, cs[..n], m, cid, niche);
      AddCreditAdds(AddCredits(acc, cs[..n]), cs[n], m, cid, niche);
    }
  }

  /** The measure of some deltas is that of some credits. */
  ghost predicate Matches(ds: seq<Delta>, cs: seq<Credit>, m: Measure, cid: string, niche: string) {
    SumBy(ds, OfDelta(m, cid, niche)) == SumBy(cs, OfCredit(m, cid, niche))
  }

  lemma ConversionAdds(acc: seq<Delta>, prior: seq<Credit>, credits: seq<Credit>, m: Measure, cid: string, niche: string)
    requires Matches(acc, prior, m, cid, niche)
    ensures Matches(AddCredits(acc, credits), prior + credits, m, cid, niche)
  {
    AddCreditsAdds(acc, credits, m, cid, niche);
    SumConcat(prior, credits, OfCredit(m, cid, niche));
  }

  /** The credits of the last conversion of a batch. */
  lemma LastCredits(batch: seq<Conversion>, seen: seq<seq<Touch>>) returns (credits: seq<Credit>)
    requires |batch| == |seen| > 0
    ensures var n := |batch| - 1;
            && Accumulated(batch, seen) == AddCredits(Accumulated(batch[..n], seen[..n]), credits)
            && Credits(batch, seen) == Credits(batch[..n], seen[..n]) + credits
  {
    credits := Attribute(batch[|batch| - 1], seen[|batch| - 1]);
  }

  lemma {:induction false} AccumulatedAdds(batch: seq<Conversion>, seen: seq<seq<Touch>>, m: Measure, cid: string, niche: string)
    requires |batch| == |seen|
    ensures Matches(Accumulated(batch, seen), Credits(batch, seen), m, cid, niche)
  {
    if |batch| > 0 {
      var credits := LastCredits(batch, seen);
      var batch', seen' := batch[..|batch| - 1], seen[..|batch| - 1];
      AccumulatedAdds(batch', seen', m, cid, niche);
      ConversionAdds(Accumulated(batch', seen'), Credits(batch', seen'), credits, m, cid, niche);
    }
  }

  lemma UpsertAdds(rows: seq<Row>, d: Delta, now: real, m: Measure, cid: string, niche: string)
    ensures SumBy(Upsert(rows, d, now), OfRow(m, cid, niche)) == SumBy(rows, OfRow(m, cid, niche)) + OfDelta(m, cid, niche)(d)
  {
    var i, r := RowIndex(rows, d.contentId, d.niche), Upsert(rows, d, now);
    if i == |rows| {
      SumAppend(rows, r[i], OfRow(m, cid, niche));
    } else {
      SumUpdate(rows, i, r[i], OfRow(m, cid, niche));
    }
  }

  lemma {:induction false} UpsertAllAdds(rows: seq<Row>, ds: seq<Delta>, now: real, m: Measure, cid: string, niche: string)
    ensures SumBy(UpsertAll(rows, ds, now), OfRow(m, cid, niche)) == SumBy(rows, OfRow(m, cid, niche)) + SumBy(ds, OfDelta(m, cid, niche))
  {
    if |ds| > 0 {
      var n := |ds| - 1;
      UpsertAllAdds(rows, ds[..n], now, m, cid, niche);
      UpsertAdds(UpsertAll(rows, ds[..n], now), ds[n], now, m, cid, niche);
    }
  }

  /** A flush adds to the row of every content id and niche exactly the clicks, conversions and shares of the
      credits with that id and niche, column by column. */
  lemma FlushAdds(l: Ledger, seen: seq<seq<Touch>>, now: real, m: Measure, cid: string, niche: string)
    requires |seen| == |Pending(l.conversions)|
    ensures SumBy(Flushed(l, seen, now).rows, OfRow(m, cid, niche))
            == SumBy(l.rows, OfRow(m, cid, niche)) + SumBy(Credits(Pending(l.conversions), seen), OfCredit(m, cid, niche))
  {
    AccumulatedAdds(Pending(l.conversions), seen, m, cid, niche);
    UpsertAllAdds(l.rows, Accumulated(Pending(l.conversions), seen), now, m, cid, niche);
  }

  lemma {:induction false} NoSuchRow(rows: seq<Row>, m: Measure, cid: string, niche: string)
    requires forall i :: 0 <= i < |rows| ==> rows[i].contentId != cid || rows[i].niche != niche
    ensures SumBy(rows, OfRow(m, cid, niche)) == 0.0
  {
    if |rows| > 0 {
      NoSuchRow(rows[..|rows| - 1], m, cid, niche);
    }
  }

  /** With unique keys such a sum is the column of the one row of that key. */
  lemma {:induction false} SumIsRow(rows: seq<Row>, m: Measure, i: nat)
    requires DistinctKeys(rows) && i < |rows|
    ensures SumBy(rows, OfRow(m, rows[i].contentId, rows[i].niche)) == OfRow(m, rows[i].contentId, rows[i].niche)(rows[i])
  {
    var n := |rows| - 1;
    if i == n {
      NoSuchRow(rows[..n], m, rows[n].contentId, rows[n].niche);
    } else {
      SumIsRow(rows[..n], m, i);
      assert (rows[i].contentId, rows[i].niche) != (rows[n].contentId, rows[n].niche);
    }
  }

  // ---- The answer over all niches ----

  lemma {:induction false} SameColumn(rows: seq<Row>, cid: string)
    ensures SumBy(rows, CreditedRevenue(cid)) == Total(rows, cid, (r: Row) => r.totalRev)
  {
    if |rows| > 0 {
      SameColumn(rows[..|rows| - 1], cid);
    }
  }

  lemma {:induction false} NonePending(cs: seq<Conversion>, cid: string)
    requires forall c :: c in cs ==> c.attributed
    ensures SumBy(cs, PendingRevenue(cid)) == 0.0
  {
    if |cs| > 0 {
      assert cs[|cs| - 1] in cs;
      NonePending(cs[..|cs| - 1], cid);
    }
  }

  /** Once nothing is pending, the answer over all niches is all revenue ever recorded for the content id. */
  lemma AnswerIsRecorded(es: seq<Event>, l: Ledger, cid: string)
    requires Reaches(es, l) && forall c :: c in l.conversions ==> c.attributed
    ensures (match Aggregate(l.rows, cid) case None => 0.0 case Some(a) => a.totalRev) == SumBy(es, Recorded(cid))
  {
    RunConserves(es, l, cid);
    NonePending(l.conversions, cid);
    SameColumn(l.rows, cid);
    AggregateIsSum(l.rows, cid);
    if Aggregate(l.rows, cid).None? {
      NothingStored(l.rows, cid, (r: Row) => r.totalRev);
    }
  }
}
