/** Multi-touch attribution and the accumulating flush of core/attribution_engine.py, as functions. */
module Ledgers {
  import opened Sequences
  import opened Reals
  import opened AttributionTables

  const LAST_CLICK_SHARE := 0.70
  const ASSIST_SHARE := 0.30

  // ---- One conversion ----

  datatype Role = LastClick | Assist

  datatype Credit = Credit(contentId: string, niche: string, pageId: string, accountId: string, share: real, role: Role)

  /** The credit a touch earns; the conversion's own niche wins over the touch's when it has one. */
  function CreditTouch(c: Conversion, t: Touch, share: real, role: Role): Credit {
    Credit(t.contentId, if c.niche != "" then c.niche else t.niche, t.pageId, t.accountId, share, role)
  }

  function AssistCredits(c: Conversion, assists: seq<Touch>, share: real): (r: seq<Credit>)
    ensures |r| == |assists|
  {
    if |assists| == 0 then []
    else AssistCredits(c, assists[..|assists| - 1], share) + [CreditTouch(c, assists[|assists| - 1], share, Assist)]
  }

  function Attribute(c: Conversion, touches: seq<Touch>): seq<Credit> {
    var n := |touches|;
    if n == 0 then [Credit(c.contentId, c.niche, c.pageId, c.accountId, c.revenue, LastClick)]
    else if n == 1 then [CreditTouch(c, touches[0], c.revenue, LastClick)]
    else [CreditTouch(c, touches[n - 1], c.revenue * LAST_CLICK_SHARE, LastClick)]
         + AssistCredits(c, touches[..n - 1], c.revenue * ASSIST_SHARE / (n - 1) as real)
  }

  // ---- Accumulation per (content id, niche), in order of first credit ----

  function DeltaIndex(acc: seq<Delta>, contentId: string, niche: string): (i: nat)
    ensures i <= |acc|
    ensures i < |acc| ==> acc[i].contentId == contentId && acc[i].niche == niche
  {
    if |acc| == 0 || (acc[0].contentId == contentId && acc[0].niche == niche) then 0
    else 1 + DeltaIndex(acc[1..], contentId, niche)
  }

  function Bumped(d: Delta, c: Credit): Delta {
    match c.role
    case LastClick => d.(conversions := d.conversions + 1, attrRev := d.attrRev + c.share, clicks := d.clicks + 1)
    case Assist => d.(asstRev := d.asstRev + c.share, clicks := d.clicks + 1)
  }

  function AddCredit(acc: seq<Delta>, c: Credit): (r: seq<Delta>) {
    var i := DeltaIndex(acc, c.contentId, c.niche);
    if i == |acc| then acc + [Bumped(Delta(c.contentId, c.niche, c.pageId, c.accountId, 0, 0, 0.0, 0.0), c)]
    else acc[i := Bumped(acc[i], c)]
  }

  function AddCredits(acc: seq<Delta>, cs: seq<Credit>): seq<Delta> {
    if |cs| == 0 then acc else AddCredit(AddCredits(acc, cs[..|cs| - 1]), cs[|cs| - 1])
  }

  /** The deltas of a batch; seen[i] is the touch list read for batch[i], fresh or stale. */
  function Accumulated(batch: seq<Conversion>, seen: seq<seq<Touch>>): seq<Delta>
    requires |batch| == |seen|
  {
    if |batch| == 0 then []
    else
      var n := |batch| - 1;
      AddCredits(Accumulated(batch[..n], seen[..n]), Attribute(batch[n], seen[n]))
  }

  function UpsertAll(rows: seq<Row>, ds: seq<Delta>, now: real): seq<Row> {
    if |ds| == 0 then rows else Upsert(UpsertAll(rows, ds[..|ds| - 1], now), ds[|ds| - 1], now)
  }

  function IdOf(): Conversion -> nat { (c: Conversion) => c.id }

  // ---- Measures: what is credited, pending and recorded for one content id ----

  function ShareOf(cid: string): Credit -> real { (c: Credit) => if c.contentId == cid then c.share else 0.0 }
  function LastOf(cid: string): Credit -> real { (c: Credit) => if c.contentId == cid && c.role == LastClick then 1.0 else 0.0 }

  function DeltaRevenue(cid: string): Delta -> real { (d: Delta) => if d.contentId == cid then d.attrRev + d.asstRev else 0.0 }
  function DeltaCount(cid: string): Delta -> real { (d: Delta) => if d.contentId == cid then d.conversions as real else 0.0 }

  function CreditedRevenue(cid: string): Row -> real { (r: Row) => if r.contentId == cid then r.totalRev else 0.0 }
  function CreditedCount(cid: string): Row -> real { (r: Row) => if r.contentId == cid then r.conversions as real else 0.0 }

  function PendingRevenue(cid: string): Conversion -> real { (c: Conversion) => if c.contentId == cid && !c.attributed then c.revenue else 0.0 }
  function Revenue(cid: string): Conversion -> real { (c: Conversion) => if c.contentId == cid then c.revenue else 0.0 }
  function PendingCount(cid: string): Conversion -> real { (c: Conversion) => if c.contentId == cid && !c.attributed then 1.0 else 0.0 }
  function Count(cid: string): Conversion -> real { (c: Conversion) => if c.contentId == cid then 1.0 else 0.0 }

  ghost predicate Belong(touches: seq<Touch>, cid: string) {
    forall t :: t in touches ==> t.contentId == cid
  }

  // ---- One conversion is split without loss, with exactly one last click ----

  function Repeated(share: real, n: nat): real {
    if n == 0 then 0.0 else Repeated(share, n - 1) + share
  }

  lemma OneMoreShare(share: real, n: real)
    ensures share * (n + 1.0) == share * n + share
  {
  }

  lemma {:induction false} RepeatedIsProduct(share: real, n: nat)
    ensures Repeated(share, n) == share * n as real
  {
    if n > 0 {
      RepeatedIsProduct(share, n - 1);
      OneMoreShare(share, (n - 1) as real);
    }
  }

  lemma {:induction false} AssistShares(c: Conversion, assists: seq<Touch>, share: real, cid: string)
    requires Belong(assists, c.contentId)
    ensures SumBy(AssistCredits(c, assists, share), ShareOf(cid)) == if c.contentId == cid then Repeated(share, |assists|) else 0.0
  {
    if |assists| > 0 {
      var n := |assists| - 1;
      AssistShares(c, assists[..n], share, cid);
      assert assists[n].contentId == c.contentId;
      SumAppend(AssistCredits(c, assists[..n], share), CreditTouch(c, assists[n], share, Assist), ShareOf(cid));
    }
  }

  lemma {:induction false} AssistsAreNotLast(c: Conversion, assists: seq<Touch>, share: real, cid: string)
    ensures SumBy(AssistCredits(c, assists, share), LastOf(cid)) == 0.0
  {
    if |assists| > 0 {
      var n := |assists| - 1;
      AssistsAreNotLast(c, assists[..n], share, cid);
      SumAppend(AssistCredits(c, assists[..n], share), CreditTouch(c, assists[n], share, Assist), LastOf(cid));
    }
  }

  /** Seventy percent and n equal parts of thirty percent make the whole. */
  lemma SplitIsWhole(revenue: real, n: nat)
    requires n > 0
    ensures revenue * LAST_CLICK_SHARE + Repeated(revenue * ASSIST_SHARE / n as real, n) == revenue
  {
    var rest := revenue * ASSIST_SHARE;
    RepeatedIsProduct(rest / n as real, n);
    DivideBack(rest, n as real);
  }

  lemma SumOne<T>(x: T, f: T -> real)
    ensures SumBy([x], f) == f(x)
  {
    assert [x][..0] == [];
  }

  lemma SplitShares(c: Conversion, touches: seq<Touch>, last: real, per: real, cid: string)
    requires Belong(touches, c.contentId) && |touches| >= 2
    ensures var n := |touches| - 1;
            SumBy([CreditTouch(c, touches[n], last, LastClick)] + AssistCredits(c, touches[..n], per), ShareOf(cid))
            == if c.contentId == cid then last + Repeated(per, n) else 0.0
  {
    var n := |touches| - 1;
    var first := CreditTouch(c, touches[n], last, LastClick);
    assert touches[n].contentId == c.contentId && Belong(touches[..n], c.contentId);
    AssistShares(c, touches[..n], per, cid);
    SumConcat([first], AssistCredits(c, touches[..n], per), ShareOf(cid));
    SumOne(first, ShareOf(cid));
  }

  lemma SplitLast(c: Conversion, touches: seq<Touch>, last: real, per: real, cid: string)
    requires Belong(touches, c.contentId) && |touches| >= 2
    ensures var n := |touches| - 1;
            SumBy([CreditTouch(c, touches[n], last, LastClick)] + AssistCredits(c, touches[..n], per), LastOf(cid))
            == if c.contentId == cid then 1.0 else 0.0
  {
    var n := |touches| - 1;
    var first := CreditTouch(c, touches[n], last, LastClick);
    assert touches[n].contentId == c.contentId;
    AssistsAreNotLast(c, touches[..n], per, cid);
    SumConcat([first], AssistCredits(c, touches[..n], per), LastOf(cid));
    SumOne(first, LastOf(cid));
  }

  /** The credits of several touches, as one last share and equal assist shares that make up the revenue. */
  lemma AttributeParts(c: Conversion, touches: seq<Touch>) returns (last: real, per: real)
    requires |touches| >= 2
    ensures var n := |touches| - 1;
            && Attribute(c, touches) == [CreditTouch(c, touches[n], last, LastClick)] + AssistCredits(c, touches[..n], per)
            && last + Repeated(per, n) == c.revenue
  {
    var n := |touches| - 1;
    last, per := c.revenue * LAST_CLICK_SHARE, c.revenue * ASSIST_SHARE / n as real;
    SplitIsWhole(c.revenue, n);
  }

  lemma ManyTouchesConserve(c: Conversion, touches: seq<Touch>, cid: string)
    requires Belong(touches, c.contentId) && |touches| >= 2
    ensures SumBy(Attribute(c, touches), ShareOf(cid)) == if c.contentId == cid then c.revenue else 0.0
    ensures SumBy(Attribute(c, touches), LastOf(cid)) == if c.contentId == cid then 1.0 else 0.0
  {
    var last, per := AttributeParts(c, touches);
    SplitShares(c, touches, last, per, cid);
    SplitLast(c, touches, last, per, cid);
  }

  /** Whatever touches are known, a conversion's revenue is credited in full to its own content id,
      and exactly one credit is a last click. */
  lemma AttributeConserves(c: Conversion, touches: seq<Touch>, cid: string)
    requires Belong(touches, c.contentId)
    ensures SumBy(Attribute(c, touches), ShareOf(cid)) == Revenue(cid)(c)
    ensures SumBy(Attribute(c, touches), LastOf(cid)) == Count(cid)(c)
  {
    if |touches| <= 1 {
      assert |touches| == 1 ==> touches[0].contentId == c.contentId;
      SumOne(Attribute(c, touches)[0], ShareOf(cid));
      SumOne(Attribute(c, touches)[0], LastOf(cid));
    } else {
      ManyTouchesConserve(c, touches, cid);
    }
  }

  /** With several touches the latest click takes seventy percent and the others share the rest evenly. */
  lemma LastClickTakesSeventy(c: Conversion, touches: seq<Touch>, i: nat)
    requires |touches| >= 2 && i < |touches| - 1
    ensures Attribute(c, touches)[0] == CreditTouch(c, touches[|touches| - 1], c.revenue * 0.7, LastClick)
    ensures |Attribute(c, touches)| == |touches|
    ensures Attribute(c, touches)[i + 1] == CreditTouch(c, touches[i], c.revenue * 0.3 / (|touches| - 1) as real, Assist)
  {
    AssistAt(c, touches[..|touches| - 1], c.revenue * ASSIST_SHARE / (|touches| - 1) as real, i);
  }

  lemma {:induction false} AssistAt(c: Conversion, assists: seq<Touch>, share: real, i: nat)
    requires i < |assists|
    ensures AssistCredits(c, assists, share)[i] == CreditTouch(c, assists[i], share, Assist)
  {
    if i < |assists| - 1 {
      AssistAt(c, assists[..|assists| - 1], share, i);
    }
  }

  // ---- Accumulating and upserting lose nothing either ----

  lemma AddCreditConserves(acc: seq<Delta>, c: Credit, cid: string)
    ensures SumBy(AddCredit(acc, c), DeltaRevenue(cid)) == SumBy(acc, DeltaRevenue(cid)) + ShareOf(cid)(c)
    ensures SumBy(AddCredit(acc, c), DeltaCount(cid)) == SumBy(acc, DeltaCount(cid)) + LastOf(cid)(c)
  {
    var i := DeltaIndex(acc, c.contentId, c.niche);
    if i == |acc| {
      var d := Bumped(Delta(c.contentId, c.niche, c.pageId, c.accountId, 0, 0, 0.0, 0.0), c);
      SumAppend(acc, d, DeltaRevenue(cid));
      SumAppend(acc, d, DeltaCount(cid));
    } else {
      SumUpdate(acc, i, Bumped(acc[i], c), DeltaRevenue(cid));
      SumUpdate(acc, i, Bumped(acc[i], c), DeltaCount(cid));
    }
  }

  lemma {:induction false} AddCreditsConserves(acc: seq<Delta>, cs: seq<Credit>, cid: string)
    ensures SumBy(AddCredits(acc, cs), DeltaRevenue(cid)) == SumBy(acc, DeltaRevenue(cid)) + SumBy(cs, ShareOf(cid))
    ensures SumBy(AddCredits(acc, cs), DeltaCount(cid)) == SumBy(acc, DeltaCount(cid)) + SumBy(cs, LastOf(cid))
  {
    if |cs| > 0 {
      AddCreditsConserves(acc, cs[..|cs| - 1], cid);
      AddCreditConserves(AddCredits(acc, cs[..|cs| - 1]), cs[|cs| - 1], cid);
    }
  }

  ghost predicate Fits(batch: seq<Conversion>, seen: seq<seq<Touch>>) {
    |batch| == |seen| && forall i :: 0 <= i < |batch| ==> Belong(seen[i], batch[i].contentId)
  }

  lemma {:induction false} AccumulatedConserves(batch: seq<Conversion>, seen: seq<seq<Touch>>, cid: string)
    requires Fits(batch, seen)
    ensures SumBy(Accumulated(batch, seen), DeltaRevenue(cid)) == SumBy(batch, Revenue(cid))
    ensures SumBy(Accumulated(batch, seen), DeltaCount(cid)) == SumBy(batch, Count(cid))
  {
    if |batch| > 0 {
      var n := |batch| - 1;
      AccumulatedConserves(batch[..n], seen[..n], cid);
      assert Belong(seen[n], batch[n].contentId);
      var acc, credits := Accumulated(batch[..n], seen[..n]), Attribute(batch[n], seen[n]);
      AttributeConserves(batch[n], seen[n], cid);
      AddCreditsConserves(acc, credits, cid);
      assert Accumulated(batch, seen) == AddCredits(acc, credits);
    }
  }

  lemma UpsertConserves(rows: seq<Row>, d: Delta, now: real, cid: string)
    ensures SumBy(Upsert(rows, d, now), CreditedRevenue(cid)) == SumBy(rows, CreditedRevenue(cid)) + DeltaRevenue(cid)(d)
    ensures SumBy(Upsert(rows, d, now), CreditedCount(cid)) == SumBy(rows, CreditedCount(cid)) + DeltaCount(cid)(d)
  {
    var i := RowIndex(rows, d.contentId, d.niche);
    var r := Upsert(rows, d, now);
    if i == |rows| {
      SumAppend(rows, r[i], CreditedRevenue(cid));
      SumAppend(rows, r[i], CreditedCount(cid));
    } else {
      SumUpdate(rows, i, r[i], CreditedRevenue(cid));
      SumUpdate(rows, i, r[i], CreditedCount(cid));
    }
  }

  lemma {:induction false} UpsertAllConserves(rows: seq<Row>, ds: seq<Delta>, now: real, cid: string)
    ensures SumBy(UpsertAll(rows, ds, now), CreditedRevenue(cid)) == SumBy(rows, CreditedRevenue(cid)) + SumBy(ds, DeltaRevenue(cid))
    ensures SumBy(UpsertAll(rows, ds, now), CreditedCount(cid)) == SumBy(rows, CreditedCount(cid)) + SumBy(ds, DeltaCount(cid))
  {
    if |ds| > 0 {
      UpsertAllConserves(rows, ds[..|ds| - 1], now, cid);
      UpsertConserves(UpsertAll(rows, ds[..|ds| - 1], now), ds[|ds| - 1], now, cid);
    }
  }

  // ---- Soundness of deltas and rows ----

  lemma {:induction false} AssistsNonNegative(c: Conversion, assists: seq<Touch>, share: real)
    requires share >= 0.0
    ensures forall x :: x in AssistCredits(c, assists, share) ==> x.share >= 0.0
  {
    if |assists| > 0 {
      AssistsNonNegative(c, assists[..|assists| - 1], share);
    }
  }

  lemma AttributeNonNegative(c: Conversion, touches: seq<Touch>)
    requires c.revenue >= 0.0
    ensures forall x :: x in Attribute(c, touches) ==> x.share >= 0.0
  {
    var n := |touches|;
    if n > 1 {
      AssistsNonNegative(c, touches[..n - 1], c.revenue * ASSIST_SHARE / (n - 1) as real);
    }
  }

  ghost predicate DeltasSound(acc: seq<Delta>) {
    forall d :: d in acc ==> DeltaSound(d)
  }

  lemma {:induction false} AddCreditsSound(acc: seq<Delta>, cs: seq<Credit>)
    requires DeltasSound(acc) && forall c :: c in cs ==> c.share >= 0.0
    ensures DeltasSound(AddCredits(acc, cs))
  {
    if |cs| > 0 {
      var n := |cs| - 1;
      AddCreditsSound(acc, cs[..n]);
      var prev := AddCredits(acc, cs[..n]);
      var i := DeltaIndex(prev, cs[n].contentId, cs[n].niche);
      assert i < |prev| ==> prev[i] in prev;
      assert cs[n] in cs;
    }
  }

  lemma {:induction false} AccumulatedSound(batch: seq<Conversion>, seen: seq<seq<Touch>>)
    requires |batch| == |seen| && forall c :: c in batch ==> c.revenue >= 0.0
    ensures DeltasSound(Accumulated(batch, seen))
  {
    if |batch| > 0 {
      var n := |batch| - 1;
      AccumulatedSound(batch[..n], seen[..n]);
      AttributeNonNegative(batch[n], seen[n]);
      AddCreditsSound(Accumulated(batch[..n], seen[..n]), Attribute(batch[n], seen[n]));
    }
  }

  lemma {:induction false} UpsertAllSound(rows: seq<Row>, ds: seq<Delta>, now: real)
    requires RowsSound(rows) && DeltasSound(ds)
    ensures RowsSound(UpsertAll(rows, ds, now))
  {
    if |ds| > 0 {
      UpsertAllSound(rows, ds[..|ds| - 1], now);
      UpsertKeepsSound(UpsertAll(rows, ds[..|ds| - 1], now), ds[|ds| - 1], now);
    }
  }

  // ---- Marking a batch ----

  lemma {:induction false} MarkConserves(cs: seq<Conversion>, ids: seq<nat>, cid: string)
    requires forall c :: c in cs && !c.attributed ==> c.id in ids
    ensures SumBy(Mark(cs, ids), Revenue(cid)) == SumBy(cs, Revenue(cid))
    ensures SumBy(Mark(cs, ids), Count(cid)) == SumBy(cs, Count(cid))
    ensures SumBy(Mark(cs, ids), PendingRevenue(cid)) == 0.0
    ensures SumBy(Mark(cs, ids), PendingCount(cid)) == 0.0
  {
    if |cs| > 0 {
      var n := |cs| - 1;
      assert cs[n] in cs;
      MarkConserves(cs[..n], ids, cid);
      assert Mark(cs, ids)[..n] == Mark(cs[..n], ids);
    }
  }

  lemma {:induction false} PendingPart(cs: seq<Conversion>, cid: string)
    ensures SumBy(Pending(cs), Revenue(cid)) == SumBy(cs, PendingRevenue(cid))
    ensures SumBy(Pending(cs), Count(cid)) == SumBy(cs, PendingCount(cid))
  {
    SumSort(Filter(cs, IsPending()), TimeOrder(), Revenue(cid));
    SumSort(Filter(cs, IsPending()), TimeOrder(), Count(cid));
    FilteredPart(cs, cid);
  }

  lemma {:induction false} FilteredPart(cs: seq<Conversion>, cid: string)
    ensures SumBy(Filter(cs, IsPending()), Revenue(cid)) == SumBy(cs, PendingRevenue(cid))
    ensures SumBy(Filter(cs, IsPending()), Count(cid)) == SumBy(cs, PendingCount(cid))
  {
    if |cs| > 0 {
      var n := |cs| - 1;
      FilteredPart(cs[..n], cid);
      if IsPending()(cs[n]) {
        SumAppend(Filter(cs[..n], IsPending()), cs[n], Revenue(cid));
        SumAppend(Filter(cs[..n], IsPending()), cs[n], Count(cid));
      } else {
        assert Filter(cs, IsPending()) == Filter(cs[..n], IsPending());
      }
    }
  }

  lemma PendingMember(cs: seq<Conversion>, c: Conversion)
    ensures c in Pending(cs) <==> c in cs && !c.attributed
  {
    SortMember(Filter(cs, IsPending()), TimeOrder(), c);
    FilterMembers(cs, IsPending(), c);
  }

  // ---- The ledger and its runs ----

  datatype Ledger = Ledger(conversions: seq<Conversion>, rows: seq<Row>)

  /** A flush whose conversions were attributed against the touch lists in seen. */
  function Flushed(l: Ledger, seen: seq<seq<Touch>>, now: real): Ledger
    requires |seen| == |Pending(l.conversions)|
  {
    var batch := Pending(l.conversions);
    Ledger(Mark(l.conversions, Map(batch, IdOf())), UpsertAll(l.rows, Accumulated(batch, seen), now))
  }

  /** Everything credited plus everything pending is everything recorded, in revenue and in number. */
  ghost predicate Balanced(l: Ledger) {
    forall cid: string ::
      && SumBy(l.rows, CreditedRevenue(cid)) + SumBy(l.conversions, PendingRevenue(cid)) == SumBy(l.conversions, Revenue(cid))
      && SumBy(l.rows, CreditedCount(cid)) + SumBy(l.conversions, PendingCount(cid)) == SumBy(l.conversions, Count(cid))
  }

  ghost predicate Sound(l: Ledger) {
    Balanced(l) && RowsSound(l.rows) && forall c :: c in l.conversions ==> c.revenue >= 0.0
  }

  lemma AllPendingMarked(cs: seq<Conversion>, c: Conversion)
    requires c in cs && !c.attributed
    ensures c.id in Map(Pending(cs), IdOf())
  {
    PendingMember(cs, c);
    var i :| 0 <= i < |Pending(cs)| && Pending(cs)[i] == c;
    assert Map(Pending(cs), IdOf())[i] == c.id;
  }

  lemma FlushBalances(l: Ledger, seen: seq<seq<Touch>>, now: real, cid: string)
    requires Fits(Pending(l.conversions), seen) && Balanced(l)
    ensures var l' := Flushed(l, seen, now);
            && SumBy(l'.rows, CreditedRevenue(cid)) == SumBy(l.conversions, Revenue(cid)) == SumBy(l'.conversions, Revenue(cid))
            && SumBy(l'.rows, CreditedCount(cid)) == SumBy(l.conversions, Count(cid)) == SumBy(l'.conversions, Count(cid))
            && SumBy(l'.conversions, PendingRevenue(cid)) == 0.0 && SumBy(l'.conversions, PendingCount(cid)) == 0.0
  {
    var batch := Pending(l.conversions);
    forall c | c in l.conversions && !c.attributed ensures c.id in Map(batch, IdOf()) {
      AllPendingMarked(l.conversions, c);
    }
    MarkConserves(l.conversions, Map(batch, IdOf()), cid);
    PendingPart(l.conversions, cid);
    AccumulatedConserves(batch, seen, cid);
    UpsertAllConserves(l.rows, Accumulated(batch, seen), now, cid);
  }

  /** A flush keeps the ledger sound, stale touch lists or not, and leaves nothing pending. */
  lemma FlushKeepsSound(l: Ledger, seen: seq<seq<Touch>>, now: real)
    requires Fits(Pending(l.conversions), seen) && Sound(l)
    ensures Sound(Flushed(l, seen, now))
    ensures Pending(Flushed(l, seen, now).conversions) == []
  {
    var l' := Flushed(l, seen, now);
    var batch := Pending(l.conversions);
    assert Balanced(l') by {
      forall cid: string
        ensures SumBy(l'.rows, CreditedRevenue(cid)) + SumBy(l'.conversions, PendingRevenue(cid)) == SumBy(l'.conversions, Revenue(cid))
        ensures SumBy(l'.rows, CreditedCount(cid)) + SumBy(l'.conversions, PendingCount(cid)) == SumBy(l'.conversions, Count(cid))
      {
        FlushBalances(l, seen, now, cid);
      }
    }
    forall c | c in batch ensures c.revenue >= 0.0 {
      PendingMember(l.conversions, c);
    }
    AccumulatedSound(batch, seen);
    UpsertAllSound(l.rows, Accumulated(batch, seen), now);
    MarkedAreDone(l.conversions);
  }

  lemma MarkedAreDone(cs: seq<Conversion>)
    ensures Pending(Mark(cs, Map(Pending(cs), IdOf()))) == []
    ensures forall c :: c in Mark(cs, Map(Pending(cs), IdOf())) ==> exists o :: o in cs && c.revenue == o.revenue
  {
    var ids := Map(Pending(cs), IdOf());
    var marked := Mark(cs, ids);
    forall c | c in marked ensures c.attributed && exists o :: o in cs && c.revenue == o.revenue {
      var i :| 0 <= i < |marked| && marked[i] == c;
      assert cs[i] in cs && c == MarkOne(ids)(cs[i]);
      if !cs[i].attributed {
        AllPendingMarked(cs, cs[i]);
      }
    }
    if |Pending(marked)| > 0 {
      PendingMember(marked, Pending(marked)[0]);
    }
  }

  datatype Event = Convert(conversion: Conversion) | Flush(seen: seq<seq<Touch>>, now: real)

  ghost predicate Legal(l: Ledger, e: Event) {
    match e
    case Convert(c) => c.revenue >= 0.0 && !c.attributed
    case Flush(seen, now) => Fits(Pending(l.conversions), seen)
  }

  function Next(l: Ledger, e: Event): Ledger
    requires e.Flush? ==> |e.seen| == |Pending(l.conversions)|
  {
    match e
    case Convert(c) => l.(conversions := l.conversions + [c])
    case Flush(seen, now) => Flushed(l, seen, now)
  }

  /** The events, in this order and each legal when it happens, take ledger l to ledger l'. */
  ghost predicate Run(l: Ledger, es: seq<Event>, l': Ledger)
    decreases |es|
  {
    if |es| == 0 then l' == l else Legal(l, es[0]) && Run(Next(l, es[0]), es[1..], l')
  }

  /** The ledger l is what the events leave behind when they start from nothing. */
  ghost predicate Reaches(es: seq<Event>, l: Ledger) { Run(Ledger([], []), es, l) }

  function Recorded(cid: string): Event -> real {
    (e: Event) => if e.Convert? && e.conversion.contentId == cid then e.conversion.revenue else 0.0
  }

  lemma ConvertKeepsSound(l: Ledger, c: Conversion)
    requires Sound(l) && c.revenue >= 0.0 && !c.attributed
    ensures Sound(l.(conversions := l.conversions + [c]))
  {
    forall cid: string
      ensures SumBy(l.rows, CreditedRevenue(cid)) + SumBy(l.conversions + [c], PendingRevenue(cid)) == SumBy(l.conversions + [c], Revenue(cid))
      ensures SumBy(l.rows, CreditedCount(cid)) + SumBy(l.conversions + [c], PendingCount(cid)) == SumBy(l.conversions + [c], Count(cid))
    {
      SumAppend(l.conversions, c, PendingRevenue(cid));
      SumAppend(l.conversions, c, Revenue(cid));
      SumAppend(l.conversions, c, PendingCount(cid));
      SumAppend(l.conversions, c, Count(cid));
    }
  }

  function Open(l: Ledger, cid: string): real {
    SumBy(l.rows, CreditedRevenue(cid)) + SumBy(l.conversions, PendingRevenue(cid))
  }

  /** One legal event keeps the ledger sound and adds to what it accounts for exactly what it records. */
  lemma StepConserves(l: Ledger, e: Event, cid: string)
    requires Sound(l) && Legal(l, e)
    ensures Sound(Next(l, e))
    ensures Open(Next(l, e), cid) == Open(l, cid) + Recorded(cid)(e)
  {
    match e {
      case Convert(c) =>
        ConvertKeepsSound(l, c);
        SumAppend(l.conversions, c, PendingRevenue(cid));
      case Flush(seen, now) =>
        FlushKeepsSound(l, seen, now);
        FlushBalances(l, seen, now, cid);
    }
  }

  lemma {:induction false} RunFromConserves(l: Ledger, es: seq<Event>, l': Ledger, cid: string)
    requires Sound(l) && Run(l, es, l')
    ensures Sound(l')
    ensures Open(l', cid) == Open(l, cid) + SumBy(es, Recorded(cid))
    decreases |es|
  {
    if |es| > 0 {
      StepConserves(l, es[0], cid);
      RunFromConserves(Next(l, es[0]), es[1..], l', cid);
      assert es == [es[0]] + es[1..];
      SumConcat([es[0]], es[1..], Recorded(cid));
      SumOne(es[0], Recorded(cid));
    }
  }

  /** Conservation over every run: for each content id, revenue credited over all niches plus
      revenue still pending is all revenue ever recorded; every row adds up and has a click per
      conversion; each conversion is pending or credited with exactly one last click. */
  lemma RunConserves(es: seq<Event>, l: Ledger, cid: string)
    requires Reaches(es, l)
    ensures Sound(l)
    ensures SumBy(l.rows, CreditedRevenue(cid)) + SumBy(l.conversions, PendingRevenue(cid)) == SumBy(es, Recorded(cid))
  {
    RunFromConserves(Ledger([], []), es, l, cid);
  }

  // ---- The conversion rate ----

  function ConversionRate(r: Row): real {
    if r.clicks == 0 then 0.0 else Unit(r.conversions as real / r.clicks as real)
  }

  lemma QuotientBelowOne(a: real, b: real)
    requires 0.0 <= a <= b && b > 0.0
    ensures 0.0 <= a / b <= 1.0
  {
    var inv := Reciprocal(b);
    NonNegativeProduct(a, inv);
    RealMono(a, b, inv);
  }

  /** In a row of a reachable ledger, and in the sums over the niches of a content id, the clamp never
      bites: the rate is the plain quotient. */
  lemma RateNeedsNoClamp(es: seq<Event>, l: Ledger, r: Row)
    requires Reaches(es, l) && r.clicks > 0
    requires r in l.rows || Aggregate(l.rows, r.contentId) == Some(r)
    ensures ConversionRate(r) == r.conversions as real / r.clicks as real
  {
    RunConserves(es, l, "");
    AggregateSound(l.rows, r.contentId);
    assert RowSound(r);
    QuotientBelowOne(r.conversions as real, r.clicks as real);
  }

  // ---- Which content ids a flush writes ----

  ghost predicate DeltasParsed(ds: seq<Delta>) { forall i :: 0 <= i < |ds| ==> ParsedId(ds[i].contentId) }

  lemma {:induction false} AddCreditsParsed(acc: seq<Delta>, cs: seq<Credit>)
    requires DeltasParsed(acc) && forall i :: 0 <= i < |cs| ==> ParsedId(cs[i].contentId)
    ensures DeltasParsed(AddCredits(acc, cs))
  {
    if |cs| > 0 {
      AddCreditsParsed(acc, cs[..|cs| - 1]);
    }
  }

  lemma AttributeParsed(c: Conversion, touches: seq<Touch>)
    requires Belong(touches, c.contentId) && ParsedId(c.contentId)
    ensures forall i :: 0 <= i < |Attribute(c, touches)| ==> Attribute(c, touches)[i].contentId == c.contentId
  {
    var n := |touches|;
    forall i | 0 <= i < |Attribute(c, touches)| ensures Attribute(c, touches)[i].contentId == c.contentId {
      if n >= 2 && i > 0 {
        LastClickTakesSeventy(c, touches, i - 1);
        assert touches[i - 1].contentId == c.contentId;
      } else if n >= 1 {
        assert touches[n - 1].contentId == c.contentId;
      }
    }
  }

  lemma {:induction false} AccumulatedParsed(batch: seq<Conversion>, seen: seq<seq<Touch>>)
    requires Fits(batch, seen) && forall i :: 0 <= i < |batch| ==> ParsedId(batch[i].contentId)
    ensures DeltasParsed(Accumulated(batch, seen))
  {
    if |batch| > 0 {
      var n := |batch| - 1;
      AccumulatedParsed(batch[..n], seen[..n]);
      assert Belong(seen[n], batch[n].contentId);
      AttributeParsed(batch[n], seen[n]);
      AddCreditsParsed(Accumulated(batch[..n], seen[..n]), Attribute(batch[n], seen[n]));
    }
  }

  lemma {:induction false} UpsertAllParsed(rows: seq<Row>, ds: seq<Delta>, now: real)
    requires (forall i :: 0 <= i < |rows| ==> ParsedId(rows[i].contentId)) && DeltasParsed(ds)
    ensures forall i :: 0 <= i < |UpsertAll(rows, ds, now)| ==> ParsedId(UpsertAll(rows, ds, now)[i].contentId)
  {
    if |ds| > 0 {
      UpsertAllParsed(rows, ds[..|ds| - 1], now);
    }
  }

  /** A flush only writes rows of content ids that were recorded, so it keeps every id nonempty and colon-free. */
  lemma FlushKeepsIds(l: Ledger, seen: seq<seq<Touch>>, now: real, touches: seq<Touch>)
    requires Fits(Pending(l.conversions), seen) && ParsedIds(Tables(touches, l.conversions, l.rows))
    ensures var l' := Flushed(l, seen, now); ParsedIds(Tables(touches, l'.conversions, l'.rows))
  {
    var batch, l' := Pending(l.conversions), Flushed(l, seen, now);
    forall i | 0 <= i < |batch| ensures ParsedId(batch[i].contentId) {
      PendingMember(l.conversions, batch[i]);
      var j :| 0 <= j < |l.conversions| && l.conversions[j] == batch[i];
    }
    AccumulatedParsed(batch, seen);
    UpsertAllParsed(l.rows, Accumulated(batch, seen), now);
    forall i | 0 <= i < |l'.conversions| ensures ParsedId(l'.conversions[i].contentId) {
      assert l'.conversions[i].contentId == l.conversions[i].contentId;
    }
  }
}
