/** The entry points of core/attribution_engine.py, working on a store whose touch lists may be cached. */
module AttributionEngines {
  import opened Sequences
  import opened Reals
  import opened AttributionTables
  import opened AttributionQueries
  import opened AttributionStores
  import opened Ledgers
  import opened TrackingCode

  function LedgerOf(t: Tables): Ledger { Ledger(t.conversions, t.rows) }

  function TouchFor(code: string, parts: Parts, niche: string, accountId: string, clickTs: Option<real>, now: real): Touch {
    Touch(code, parts.contentId, parts.pageId, niche, accountId, parts.timestamp as real, ChosenTime(clickTs, now))
  }

  /** A click is stored exactly when its code parses; nothing else in the tables moves. */
  method RecordClick(store: AttributionStore, code: string, niche: string, accountId: string, clickTs: Option<real>, now: real)
    returns (ok: bool)
    requires store.Valid() && store.NotBefore(now)
    modifies store`touches, store`cache, store`history
    ensures store.Valid() && store.NotBefore(now)
    ensures ok == ParseTrackingCode(code).Some?
    ensures store.touches == if ok then old(store.touches) + [TouchFor(code, ParseTrackingCode(code).value, niche, accountId, clickTs, now)]
                             else old(store.touches)
    ensures old(ParsedIds(store.Contents())) ==> ParsedIds(store.Contents())
  {
    var parsed := ParseTrackingCode(code);
    if parsed.None? {
      return false;
    }
    ParsedIdsAreColonFree(code);
    store.InsertTouch(TouchFor(code, parsed.value, niche, accountId, clickTs, now), now);
    return true;
  }

  function ConversionFor(id: nat, code: string, parts: Parts, revenue: real, niche: string, accountId: string,
                         conversionTs: Option<real>, now: real): Conversion {
    Conversion(id, code, parts.contentId, parts.pageId, niche, accountId, if revenue > 0.0 then revenue else 0.0,
               parts.timestamp as real, ChosenTime(conversionTs, now), false)
  }

  /** What a click and a conversion on a generated code are stored with: the sanitized ids, the time of the code, the
      time of the event or else the clock, and no revenue below zero. */
  lemma GeneratedCodeIsStored(contentId: string, pageId: string, madeAt: Option<real>, made: real, id: nat, revenue: real,
                              niche: string, accountId: string, ts: Option<real>, now: real)
    requires contentId != "" && pageId != "" && Truncate(ChosenTime(madeAt, made)) >= 0
    ensures var code := GenerateTrackingCode(contentId, pageId, madeAt, made);
            && ParseTrackingCode(code).Some?
            && var t := TouchFor(code, ParseTrackingCode(code).value, niche, accountId, ts, now);
               var c := ConversionFor(id, code, ParseTrackingCode(code).value, revenue, niche, accountId, ts, now);
               && t.trackingCode == code == c.trackingCode
               && t.contentId == Sanitize(contentId) == c.contentId && t.pageId == Sanitize(pageId) == c.pageId
               && t.niche == niche == c.niche && t.accountId == accountId == c.accountId
               && t.clickTs == c.conversionTs == (if ts.Some? && ts.value != 0.0 then ts.value else now)
               && c.id == id && !c.attributed && c.revenue >= 0.0 && (c.revenue == revenue || (revenue < 0.0 && c.revenue == 0.0))
  {
    RoundTrip(contentId, pageId, madeAt, made);
  }

  /** A conversion with a code that parses is one legal Convert step of the ledger; a bad code changes nothing. */
  method RecordConversion(store: AttributionStore, code: string, revenue: real, niche: string, accountId: string,
                          conversionTs: Option<real>, now: real)
    returns (ok: bool)
    requires store.Valid() && store.NotBefore(now)
    modifies store`conversions, store`nextId, store`cache, store`history
    ensures store.Valid() && store.NotBefore(now)
    ensures ok == ParseTrackingCode(code).Some?
    ensures !ok ==> store.Contents() == old(store.Contents())
    ensures ok ==>
              var c := ConversionFor(old(store.nextId), code, ParseTrackingCode(code).value, revenue, niche, accountId, conversionTs, now);
              && store.conversions == old(store.conversions) + [c]
              && Legal(old(LedgerOf(store.Contents())), Convert(c))
              && LedgerOf(store.Contents()) == Next(old(LedgerOf(store.Contents())), Convert(c))
    ensures old(Sound(LedgerOf(store.Contents()))) ==> Sound(LedgerOf(store.Contents()))
    ensures old(ParsedIds(store.Contents())) ==> ParsedIds(store.Contents())
  {
    var parsed := ParseTrackingCode(code);
    if parsed.None? {
      return false;
    }
    ParsedIdsAreColonFree(code);
    var c := ConversionFor(0, code, parsed.value, revenue, niche, accountId, conversionTs, now);
    ghost var l := LedgerOf(store.Contents());
    var id := store.InsertConversion(c, now);
    if Sound(l) {
      ConvertKeepsSound(l, c.(id := id));
    }
    return true;
  }

  /** The credits one conversion gives to the touches found for it. */
  method SplitRevenue(c: Conversion, found: seq<Touch>) returns (credits: seq<Credit>)
    ensures credits == Attribute(c, found)
  {
    if |found| == 0 {
      credits := [Credit(c.contentId, c.niche, c.pageId, c.accountId, c.revenue, LastClick)];
    } else if |found| == 1 {
      credits := [CreditTouch(c, found[0], c.revenue, LastClick)];
    } else {
      var last := found[|found| - 1];
      var assists := found[..|found| - 1];
      var assistPer := c.revenue * ASSIST_SHARE / |assists| as real;
      var shared := CreditAssists(c, assists, assistPer);
      credits := [CreditTouch(c, last, c.revenue * LAST_CLICK_SHARE, LastClick)] + shared;
    }
  }

  method CreditAssists(c: Conversion, assists: seq<Touch>, share: real) returns (credits: seq<Credit>)
    ensures credits == AssistCredits(c, assists, share)
  {
    credits := [];
    for i := 0 to |assists|
      invariant credits == AssistCredits(c, assists[..i], share)
    {
      assert assists[..i + 1][..i] == assists[..i];
      credits := credits + [CreditTouch(c, assists[i], share, Assist)];
    }
    assert assists[..|assists|] == assists;
  }

  /** Adds the credits of one conversion to the running totals, one key after the other. */
  method Accumulate(start: seq<Delta>, credits: seq<Credit>) returns (acc: seq<Delta>)
    ensures acc == AddCredits(start, credits)
  {
    acc := start;
    for i := 0 to |credits|
      invariant acc == AddCredits(start, credits[..i])
    {
      assert credits[..i + 1][..i] == credits[..i];
      var k := DeltaIndex(acc, credits[i].contentId, credits[i].niche);
      if k == |acc| {
        acc := acc + [Delta(credits[i].contentId, credits[i].niche, credits[i].pageId, credits[i].accountId, 0, 0, 0.0, 0.0)];
      }
      acc := acc[k := Bumped(acc[k], credits[i])];
    }
    assert credits[..|credits|] == credits;
  }

  /** The totals and ids of the first n conversions, whose touch lists were the ones in seen. */
  ghost predicate Collected(batch: seq<Conversion>, n: nat, seen: seq<seq<Touch>>, acc: seq<Delta>, ids: seq<nat>) {
    && n <= |batch|
    && Fits(batch[..n], seen)
    && acc == Accumulated(batch[..n], seen)
    && ids == Map(batch[..n], IdOf())
  }

  lemma FitsOneMore(batch: seq<Conversion>, n: nat, seen: seq<seq<Touch>>, touches: seq<Touch>)
    requires n < |batch| && Fits(batch[..n], seen) && Belong(touches, batch[n].contentId)
    ensures Fits(batch[..n + 1], seen + [touches])
  {
    forall i | 0 <= i < n + 1 ensures Belong((seen + [touches])[i], batch[..n + 1][i].contentId) {
      assert i < n ==> batch[..n + 1][i] == batch[..n][i] && (seen + [touches])[i] == seen[i];
    }
  }

  lemma AccumulatedOneMore(batch: seq<Conversion>, n: nat, seen: seq<seq<Touch>>, touches: seq<Touch>)
    requires n < |batch| && |seen| == n
    ensures Accumulated(batch[..n + 1], seen + [touches]) == AddCredits(Accumulated(batch[..n], seen), Attribute(batch[n], touches))
  {
    assert batch[..n + 1][..n] == batch[..n] && (seen + [touches])[..n] == seen;
  }

  lemma IdsOneMore(batch: seq<Conversion>, n: nat)
    requires n < |batch|
    ensures Map(batch[..n + 1], IdOf()) == Map(batch[..n], IdOf()) + [batch[n].id]
  {
    assert batch[..n + 1] == batch[..n] + [batch[n]];
    MapAppend(batch[..n], batch[n], IdOf());
  }

  lemma CollectedOneMore(batch: seq<Conversion>, n: nat, seen: seq<seq<Touch>>, acc: seq<Delta>, ids: seq<nat>, touches: seq<Touch>)
    requires n < |batch| && Collected(batch, n, seen, acc, ids) && Belong(touches, batch[n].contentId)
    ensures Collected(batch, n + 1, seen + [touches], AddCredits(acc, Attribute(batch[n], touches)), ids + [batch[n].id])
  {
    FitsOneMore(batch, n, seen, touches);
    AccumulatedOneMore(batch, n, seen, touches);
    IdsOneMore(batch, n);
  }

  lemma CollectedAll(batch: seq<Conversion>, seen: seq<seq<Touch>>, acc: seq<Delta>, ids: seq<nat>)
    requires Collected(batch, |batch|, seen, acc, ids)
    ensures Fits(batch, seen) && acc == Accumulated(batch, seen) && ids == Map(batch, IdOf())
  {
    assert batch[..|batch|] == batch;
  }

  /** Reads the touches of one conversion, from whatever the store's cache hands out, and adds its credits. */
  method CollectOne(store: AttributionStore, c: Conversion, start: seq<Delta>, now: real)
    returns (acc: seq<Delta>, ghost touches: seq<Touch>)
    requires store.Valid() && store.NotBefore(now)
    modifies store`cache, store`history
    ensures store.Valid() && store.NotBefore(now)
    ensures RecentAnswer(ByContent(c.contentId), Touches(touches), store.history, now)
    ensures Belong(touches, c.contentId) && acc == AddCredits(start, Attribute(c, touches))
  {
    var found := store.GetTouchesByContent(c.contentId, now);
    touches := found;
    var credits := SplitRevenue(c, found);
    acc := Accumulate(start, credits);
  }

  method CollectDeltas(store: AttributionStore, batch: seq<Conversion>, now: real)
    returns (acc: seq<Delta>, ids: seq<nat>, ghost seen: seq<seq<Touch>>)
    requires store.Valid() && store.NotBefore(now)
    modifies store`cache, store`history
    ensures store.Valid() && store.NotBefore(now)
    ensures Collected(batch, |batch|, seen, acc, ids)
  {
    acc, ids, seen := [], [], [];
    for i := 0 to |batch|
      invariant store.Valid() && store.NotBefore(now)
      invariant Collected(batch, i, seen, acc, ids)
    {
      ghost var before := acc;
      ghost var touches;
      acc, touches := CollectOne(store, batch[i], acc, now);
      CollectedOneMore(batch, i, seen, before, ids, touches);
      ids := ids + [batch[i].id];
      seen := seen + [touches];
    }
  }

  method WriteDeltas(store: AttributionStore, acc: seq<Delta>, now: real)
    requires store.Valid() && store.NotBefore(now)
    modifies store`rows, store`cache, store`history
    ensures store.Valid() && store.NotBefore(now)
    ensures store.rows == UpsertAll(old(store.rows), acc, now)
  {
    for i := 0 to |acc|
      invariant store.Valid() && store.NotBefore(now)
      invariant store.rows == UpsertAll(old(store.rows), acc[..i], now)
    {
      assert acc[..i + 1][..i] == acc[..i];
      store.UpsertAttrResult(acc[i], now);
    }
    assert acc[..|acc|] == acc;
  }

  /** A flush is one legal Flush step of the ledger, whatever stale touch lists were read: nothing is
      left pending, and for every content id all recorded revenue is credited. */
  method FlushToProfitEngine(store: AttributionStore, now: real) returns (count: nat, ghost seen: seq<seq<Touch>>)
    requires store.Valid() && store.NotBefore(now)
    modifies store`conversions, store`rows, store`cache, store`history
    ensures store.Valid() && store.NotBefore(now)
    ensures Legal(old(LedgerOf(store.Contents())), Flush(seen, now))
    ensures LedgerOf(store.Contents()) == Next(old(LedgerOf(store.Contents())), Flush(seen, now))
    ensures count == |Pending(old(store.conversions))|
    ensures old(Sound(LedgerOf(store.Contents()))) ==> Sound(LedgerOf(store.Contents())) && Pending(store.conversions) == []
    ensures old(ParsedIds(store.Contents())) ==> ParsedIds(store.Contents())
  {
    ghost var l := LedgerOf(store.Contents());
    var pending := Pending(store.conversions);
    if |pending| == 0 {
      seen := [];
      NothingToFlush(l, now);
      if Sound(l) {
        FlushKeepsSound(l, seen, now);
      }
      return 0, seen;
    }
    var acc, ids;
    acc, ids, seen := CollectDeltas(store, pending, now);
    CollectedAll(pending, seen, acc, ids);
    WriteDeltas(store, acc, now);
    store.MarkAttributed(ids, now);
    if Sound(l) {
      FlushKeepsSound(l, seen, now);
    }
    if ParsedIds(Tables(store.touches, l.conversions, l.rows)) {
      FlushKeepsIds(l, seen, now, store.touches);
    }
    count := |ids|;
  }

  /** With nothing pending a flush changes nothing. */
  lemma NothingToFlush(l: Ledger, now: real)
    requires Pending(l.conversions) == []
    ensures Flushed(l, [], now) == l
  {
    assert Mark(l.conversions, []) == l.conversions;
    assert Map(Pending(l.conversions), IdOf()) == [];
  }

  // ---- Queries ----

  /** The sums over all niches that a request could have been told at some instant of the last thirty seconds. */
  ghost predicate RecentTotals(contentId: string, row: Row, h: seq<Snapshot>, now: real) {
    exists i :: 0 <= i < |h| && now - CACHE_TTL <= h[i].at <= now && Aggregate(h[i].tables.rows, contentId) == Some(row)
  }

  lemma RecentAnswerIsTotals(contentId: string, row: Row, h: seq<Snapshot>, now: real)
    requires RecentAnswer(Summary(contentId, ""), Result(row), h, now)
    ensures RecentTotals(contentId, row, h, now)
  {
    var i :| 0 <= i < |h| && now - CACHE_TTL <= h[i].at <= now && Answer(Summary(contentId, ""), h[i].tables) == Some(Result(row));
    assert Aggregate(h[i].tables.rows, contentId) == Some(row);
  }

  /** For an uncut content id on tables written through this engine: the current row of one niche, or sums
      over all niches that are at most thirty seconds old. */
  method FindRow(store: AttributionStore, contentId: string, niche: string, now: real) returns (row: Option<Row>)
    requires store.Valid() && store.NotBefore(now)
    modifies store`cache, store`history
    ensures store.Valid() && store.NotBefore(now) && store.history == old(store.history) + [Snapshot(now, store.Contents())]
    ensures Uncut(contentId) && ParsedIds(store.Contents()) ==>
              && (niche != "" ==> row == RowOf(store.rows, contentId, niche))
              && (niche == "" ==> if row.None? then Aggregate(store.rows, contentId) == None
                                  else RecentTotals(contentId, row.value, store.history, now))
  {
    if Uncut(contentId) && ParsedIds(store.Contents()) {
      UncutIsExclusive(Summary(contentId, niche), store.Contents());
    }
    row := store.GetAttrResult(contentId, niche, now);
    if Uncut(contentId) && ParsedIds(store.Contents()) && niche == "" && row.Some? {
      RecentAnswerIsTotals(contentId, row.value, store.history, now);
    }
  }

  /** The sum of a column over the rows of the content id, as they were at some instant of the last thirty seconds. */
  ghost predicate RecentSums(contentId: string, revenue: real, clicks: real, conversions: real, h: seq<Snapshot>, now: real) {
    exists i :: 0 <= i < |h| && now - 30.0 <= h[i].at <= now && SumsAt(contentId, revenue, clicks, conversions, h[i].tables.rows)
  }

  ghost predicate SumsAt(contentId: string, revenue: real, clicks: real, conversions: real, rows: seq<Row>) {
    && revenue == Total(rows, contentId, (r: Row) => r.totalRev)
    && clicks == Total(rows, contentId, (r: Row) => r.clicks as real)
    && conversions == Total(rows, contentId, (r: Row) => r.conversions as real)
  }

  lemma TotalsAreSums(contentId: string, row: Row, h: seq<Snapshot>, now: real)
    requires RecentTotals(contentId, row, h, now)
    ensures RecentSums(contentId, row.totalRev, row.clicks as real, row.conversions as real, h, now)
  {
    var i :| 0 <= i < |h| && now - CACHE_TTL <= h[i].at <= now && Aggregate(h[i].tables.rows, contentId) == Some(row);
    AggregateIsSum(h[i].tables.rows, contentId);
  }

  lemma NothingSums(contentId: string, h: seq<Snapshot>, i: nat, now: real)
    requires i < |h| && h[i].at == now && Aggregate(h[i].tables.rows, contentId) == None
    ensures RecentSums(contentId, 0.0, 0.0, 0.0, h, now)
  {
    var rows := h[i].tables.rows;
    AggregateIsSum(rows, contentId);
    NothingStored(rows, contentId, (r: Row) => r.totalRev);
    NothingStored(rows, contentId, (r: Row) => r.clicks as real);
    NothingStored(rows, contentId, (r: Row) => r.conversions as real);
    assert SumsAt(contentId, 0.0, 0.0, 0.0, rows);
  }

  /** The row of one niche, or sums over all that are at most thirty seconds old; with neither, zeros. */
  method FindNumbers(store: AttributionStore, contentId: string, niche: string, now: real) returns (row: Option<Row>)
    requires store.Valid() && store.NotBefore(now)
    modifies store`cache, store`history
    ensures store.Valid() && store.NotBefore(now)
    ensures niche != "" && Uncut(contentId) && ParsedIds(store.Contents()) ==> row == RowOf(store.rows, contentId, niche)
    ensures niche == "" && Uncut(contentId) && ParsedIds(store.Contents()) ==>
              match row
              case None => RecentSums(contentId, 0.0, 0.0, 0.0, store.history, now)
              case Some(r) => RecentSums(contentId, r.totalRev, r.clicks as real, r.conversions as real, store.history, now)
  {
    row := FindRow(store, contentId, niche, now);
    if niche == "" && Uncut(contentId) && ParsedIds(store.Contents()) {
      if row.Some? {
        TotalsAreSums(contentId, row.value, store.history, now);
      } else {
        NothingSums(contentId, store.history, |store.history| - 1, now);
      }
    }
  }

  /** The revenue of the current row of one niche; over all niches, the sum of their revenues as they were at
      most thirty seconds ago. */
  method GetRevenue(store: AttributionStore, contentId: string, niche: string, now: real) returns (revenue: real)
    requires store.Valid() && store.NotBefore(now)
    modifies store`cache, store`history
    ensures store.Valid() && store.NotBefore(now)
    ensures niche != "" && Uncut(contentId) && ParsedIds(store.Contents()) ==>
              revenue == match RowOf(store.rows, contentId, niche) case None => 0.0 case Some(r) => r.totalRev
    ensures niche == "" && Uncut(contentId) && ParsedIds(store.Contents()) ==>
              exists clicks, conversions :: RecentSums(contentId, revenue, clicks, conversions, store.history, now)
  {
    var row := FindNumbers(store, contentId, niche, now);
    revenue := if row.Some? then row.value.totalRev else 0.0;
  }

  /** Conversions per click, at most one, and zero without clicks: of the current row of one niche, or of the
      sums over all niches as they were at most thirty seconds ago. */
  method GetConversionRate(store: AttributionStore, contentId: string, niche: string, now: real) returns (rate: real)
    requires store.Valid() && store.NotBefore(now)
    modifies store`cache, store`history
    ensures store.Valid() && store.NotBefore(now)
    ensures 0.0 <= rate <= 1.0
    ensures niche != "" && Uncut(contentId) && ParsedIds(store.Contents()) ==>
              match RowOf(store.rows, contentId, niche)
              case None => rate == 0.0
              case Some(r) => IsRate(rate, r.clicks as real, r.conversions as real)
    ensures niche == "" && Uncut(contentId) && ParsedIds(store.Contents()) ==>
              exists revenue, clicks, conversions ::
                RecentSums(contentId, revenue, clicks, conversions, store.history, now) && IsRate(rate, clicks, conversions)
  {
    var row := FindNumbers(store, contentId, niche, now);
    rate := if row.Some? then ConversionRate(row.value) else 0.0;
    if row.Some? {
      RateOfRow(row.value);
    } else {
      assert IsRate(0.0, 0.0, 0.0);
    }
  }

  ghost predicate IsRate(rate: real, clicks: real, conversions: real) {
    if clicks == 0.0 then rate == 0.0
    else if conversions <= clicks then rate * clicks == conversions
    else rate == 1.0
  }

  lemma RateOfRow(r: Row)
    ensures IsRate(ConversionRate(r), r.clicks as real, r.conversions as real)
  {
    if r.clicks > 0 {
      var clicks, conversions := r.clicks as real, r.conversions as real;
      DivideBack(conversions, clicks);
      RateCases(conversions / clicks, clicks, conversions);
    }
  }

  lemma RateCases(q: real, clicks: real, conversions: real)
    requires clicks > 0.0 && conversions >= 0.0 && clicks * q == conversions
    ensures IsRate(Unit(q), clicks, conversions)
  {
    if conversions > clicks {
      NonNegativeProduct(clicks, if q < 1.0 then 1.0 - q else 0.0);
      assert clicks * (1.0 - q) == clicks - clicks * q;
    } else {
      PositiveProduct(clicks, if q > 1.0 then q - 1.0 else 1.0);
      assert clicks * (q - 1.0) == clicks * q - clicks;
      if q < 0.0 {
        PositiveProduct(clicks, -q);
        assert clicks * -q == -(clicks * q);
      }
    }
  }

  // ---- A run in which another row is served ----

  lemma {:induction false} OneKey(cs: seq<Credit>, contentId: string, niche: string)
    requires |cs| > 0 && forall i :: 0 <= i < |cs| ==> cs[i].contentId == contentId && cs[i].niche == niche
    ensures var acc := AddCredits([], cs); |acc| == 1 && acc[0].contentId == contentId && acc[0].niche == niche
  {
    var n := |cs| - 1;
    if n > 0 {
      OneKey(cs[..n], contentId, niche);
    } else {
      assert cs[..0] == [];
      assert AddCredits([], cs[..0]) == [];
    }
  }

  lemma AttributeNiche(c: Conversion, touches: seq<Touch>)
    requires Belong(touches, c.contentId) && ParsedId(c.contentId) && c.niche != ""
    ensures forall i :: 0 <= i < |Attribute(c, touches)| ==> Attribute(c, touches)[i].niche == c.niche
  {
    forall i | 0 <= i < |Attribute(c, touches)| ensures Attribute(c, touches)[i].niche == c.niche {
      if |touches| >= 2 && i > 0 {
        LastClickTakesSeventy(c, touches, i - 1);
      }
    }
  }

  /** A flush of a single conversion with a niche leaves a single row, under its content id and niche. */
  lemma OneConversionOneRow(c: Conversion, seen: seq<seq<Touch>>, now: real)
    requires !c.attributed && c.niche != "" && ParsedId(c.contentId) && Fits(Pending([c]), seen)
    ensures var rows := Flushed(Ledger([c], []), seen, now).rows;
            |rows| == 1 && rows[0].contentId == c.contentId && rows[0].niche == c.niche
  {
    PendingOne(c);
    assert Belong(seen[0], [c][0].contentId);
    AttributeParsed(c, seen[0]);
    AttributeNiche(c, seen[0]);
    OneKey(Attribute(c, seen[0]), c.contentId, c.niche);
    assert [c][..0] == [] && seen[..0] == [];
    var ds := Accumulated([c], seen);
    assert Accumulated([c][..0], seen[..0]) == [];
    assert ds == AddCredits([], Attribute(c, seen[0]));
    assert ds[..0] == [] && UpsertAll([], ds[..0], now) == [];
  }

  lemma PendingOne(c: Conversion)
    requires !c.attributed
    ensures Pending([c]) == [c]
  {
    assert [c][..0] == [];
    assert Filter([c], IsPending()) == [c];
    assert Sort([c][..0], TimeOrder()) == [];
  }

  lemma CodeOfC()
    ensures ParseTrackingCode(GenerateTrackingCode("c", "p", Some(1.0), 0.0)).Some?
    ensures ParseTrackingCode(GenerateTrackingCode("c", "p", Some(1.0), 0.0)).value.contentId == "c"
  {
    RoundTrip("c", "p", Some(1.0), 0.0);
    SanitizeIdempotent("c");
  }

  /** One conversion of "c" under the niche "n:m". */
  method RecordOne() returns (store: AttributionStore, ghost c: Conversion)
    ensures fresh(store) && store.Valid() && store.NotBefore(1.0) && ParsedIds(store.Contents())
    ensures LedgerOf(store.Contents()) == Ledger([c], []) && c.contentId == "c" && c.niche == "n:m" && !c.attributed
  {
    store := new AttributionStore();
    CodeOfC();
    var code := GenerateTrackingCode("c", "p", Some(1.0), 0.0);
    var ok := RecordConversion(store, code, 1.0, "n:m", "a", None, 1.0);
    c := ConversionFor(1, code, ParseTrackingCode(code).value, 1.0, "n:m", "a", None, 1.0);
    assert store.conversions == [c];
  }

  method FlushOne() returns (store: AttributionStore)
    ensures fresh(store) && store.Valid() && store.NotBefore(1.0) && ParsedIds(store.Contents())
    ensures |store.rows| == 1 && store.rows[0].contentId == "c" && store.rows[0].niche == "n:m"
  {
    ghost var c;
    store, c := RecordOne();
    var count;
    ghost var seen;
    count, seen := FlushToProfitEngine(store, 1.0);
    OneConversionOneRow(c, seen, 1.0);
  }

  /** The row of "c" under "n:m" is read, and then the row of "c:n" under "m" asked for: there is none,
      but the row of "c" is returned. */
  method ColonServesOtherRow() returns (store: AttributionStore, own: Option<Row>, served: Option<Row>)
    ensures ParsedIds(store.Contents()) && own == RowOf(store.rows, "c", "n:m") && own.Some?
    ensures served == own && RowOf(store.rows, "c:n", "m") == None
  {
    store := FlushOne();
    ghost var t := store.Contents();
    UncutIsExclusive(Summary("c", "n:m"), t);
    SameKey();
    OnlyRow(store.rows);
    ghost var cache := store.cache;
    own := store.GetAttrResult("c", "n:m", 1.0);
    ReadIsCached(cache, Summary("c", "n:m"), Summary("c:n", "m"), t, 1.0);
    served := store.GetAttrResult("c:n", "m", 1.0);
  }

  lemma OnlyRow(rows: seq<Row>)
    requires |rows| == 1 && rows[0].contentId == "c" && rows[0].niche == "n:m"
    ensures RowOf(rows, "c", "n:m").Some? && RowOf(rows, "c:n", "m") == None
  {
    RowIndexIsFirst(rows, "c", "n:m", 0);
  }

  lemma SameKey()
    ensures KeyOf(Summary("c", "n:m")) == KeyOf(Summary("c:n", "m"))
  {
    assert "ar:" + "c" + ":" + "n:m" == "ar:" + "c:n" + ":" + "m";
  }
}
