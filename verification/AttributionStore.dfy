/** The LRU and TTL read cache of core/attribution_store.py, held against the tables it speeds up. */
module AttributionStores {
  import opened Sequences
  import opened AttributionTables
  import opened AttributionQueries

  const CACHE_MAX_KEYS := 1024
  const CACHE_TTL := 30.0
  const EVICT := 204  // max(1, 1024 // 5)

  // ---- Requests, keys and answers ----

  datatype Request = ByCode(code: string) | ByContent(contentId: string) | Summary(contentId: string, niche: string)

  datatype Payload = Touches(touches: seq<Touch>) | Result(row: Row)

  function ArKey(contentId: string, niche: string): string { "ar:" + contentId + ":" + niche }

  function KeyOf(r: Request): string {
    match r
    case ByCode(code) => "t:" + code
    case ByContent(contentId) => "tc:" + contentId
    case Summary(contentId, niche) => ArKey(contentId, niche)
  }

  /** What the query behind a request returns on the given tables. */
  function Answer(r: Request, t: Tables): Option<Payload> {
    match r
    case ByCode(code) => Some(Touches(TouchesOfCode(t.touches, code)))
    case ByContent(contentId) => Some(Touches(TouchesOfContent(t.touches, contentId)))
    case Summary(contentId, niche) => Wrap(if niche != "" then RowOf(t.rows, contentId, niche) else Aggregate(t.rows, contentId))
  }

  function Wrap(row: Option<Row>): Option<Payload> {
    match row case None => None case Some(r) => Some(Result(r))
  }

  /** No other request is stored under the same key. */
  ghost predicate Unambiguous(r: Request) {
    forall q: Request :: KeyOf(q) == KeyOf(r) ==> q == r
  }

  lemma ArKeyCut(contentId: string, niche: string, contentId': string, niche': string)
    requires ArKey(contentId, niche) == ArKey(contentId', niche')
    ensures contentId + ":" + niche == contentId' + ":" + niche'
  {
    assert ArKey(contentId, niche)[3..] == contentId + ":" + niche;
    assert ArKey(contentId', niche')[3..] == contentId' + ":" + niche';
  }

  /** The only separator in a line made of two colon-free fields is the one between them. */
  lemma OnlyCut(c: string, n: string, k: nat)
    requires ':' !in c && ':' !in n
    requires k < |c + ":" + n| && (c + ":" + n)[k] == ':'
    ensures k == |c|
  {
    var s := c + ":" + n;
    assert forall i :: 0 <= i < |c| ==> s[i] == c[i];
    assert forall i :: |c| < i < |s| ==> s[i] == n[i - |c| - 1];
  }

  lemma SameCut(c: string, n: string, c': string, n': string)
    requires ':' !in c && ':' !in n && c + ":" + n == c' + ":" + n'
    ensures c == c' && n == n'
  {
    var s := c + ":" + n;
    assert s == c' + ":" + n';
    assert s[|c'|] == ':';
    OnlyCut(c, n, |c'|);
    assert s[..|c|] == c && s[..|c|] == c';
    assert s[|c| + 1..] == n && s[|c| + 1..] == n';
  }

  lemma SameIdSameNiche(c: string, n: string, n': string)
    requires c + ":" + n == c + ":" + n'
    ensures n == n'
  {
    var s := c + ":" + n;
    assert s == c + ":" + n';
    assert s[|c| + 1..] == n && s[|c| + 1..] == n';
  }

  lemma OtherKindOtherKey(r: Request, q: Request)
    requires KeyOf(q) == KeyOf(r)
    ensures (r.ByCode? <==> q.ByCode?) && (r.ByContent? <==> q.ByContent?)
    ensures !r.Summary? ==> q == r
  {
    var k := KeyOf(r);
    assert k == KeyOf(q);
    assert r.ByCode? ==> k[1] == ':' && k[2..] == r.code;
    assert q.ByCode? ==> k[1] == ':' && k[2..] == q.code;
    assert r.ByContent? ==> k[1] == 'c' && k[3..] == r.contentId;
    assert q.ByContent? ==> k[1] == 'c' && k[3..] == q.contentId;
    assert r.Summary? ==> k[1] == 'r';
    assert q.Summary? ==> k[1] == 'r';
  }

  lemma ColonFreeIsUnambiguous(r: Request)
    requires r.Summary? ==> ':' !in r.contentId && ':' !in r.niche
    ensures Unambiguous(r)
  {
    forall q: Request | KeyOf(q) == KeyOf(r) ensures q == r {
      OtherKindOtherKey(r, q);
      if r.Summary? {
        ArKeyCut(r.contentId, r.niche, q.contentId, q.niche);
        SameCut(r.contentId, r.niche, q.contentId, q.niche);
      }
    }
  }

  lemma Regroup(p: string, a: string, b: string, n: string)
    ensures p + (a + ":" + b) + ":" + n == p + a + ":" + (b + ":" + n)
  {
  }

  lemma CutAt(s: string, i: nat)
    requires i < |s| && s[i] == ':'
    ensures s == s[..i] + ":" + s[i + 1..]
  {
  }

  /** A request that shares the key of a result request with a separator in its id or niche. */
  lemma SharedKey(contentId: string, niche: string) returns (q: Request)
    requires ':' in contentId || ':' in niche
    ensures KeyOf(q) == ArKey(contentId, niche) && q != Summary(contentId, niche)
  {
    if ':' in contentId {
      var i :| 0 <= i < |contentId| && contentId[i] == ':';
      q := Summary(contentId[..i], contentId[i + 1..] + ":" + niche);
      CutAt(contentId, i);
      Regroup("ar:", contentId[..i], contentId[i + 1..], niche);
    } else {
      var i :| 0 <= i < |niche| && niche[i] == ':';
      q := Summary(contentId + ":" + niche[..i], niche[i + 1..]);
      CutAt(niche, i);
      Regroup("ar:", contentId, niche[..i], niche[i + 1..]);
    }
  }

  /** Touch keys are never shared; a result key is shared exactly when the content id or the
      niche contains the separator. */
  lemma UnambiguousIff(r: Request)
    ensures Unambiguous(r) <==> (r.Summary? ==> ':' !in r.contentId && ':' !in r.niche)
  {
    if r.Summary? && (':' in r.contentId || ':' in r.niche) {
      var q := SharedKey(r.contentId, r.niche);
    } else {
      ColonFreeIsUnambiguous(r);
    }
  }

  /** On these tables no other request with the same key has an answer. */
  ghost predicate Exclusive(r: Request, t: Tables) {
    forall q: Request :: KeyOf(q) == KeyOf(r) && Answer(q, t).Some? ==> q == r
  }

  /** Whatever had an answer before has one now. */
  ghost predicate AnswersStay(t: Tables, t': Tables) {
    forall q: Request :: Answer(q, t).Some? ==> Answer(q, t').Some?
  }

  lemma ExclusiveBefore(r: Request, t: Tables, t': Tables)
    requires AnswersStay(t, t') && Exclusive(r, t')
    ensures Exclusive(r, t)
  {
  }

  lemma UpsertStays(t: Tables, d: Delta, now: real)
    ensures AnswersStay(t, t.(rows := Upsert(t.rows, d, now)))
  {
    forall q: Request | Answer(q, t).Some? ensures Answer(q, t.(rows := Upsert(t.rows, d, now))).Some? {
      if q.Summary? {
        if q.niche != "" {
          UpsertKeepsRows(t.rows, d, now, q.contentId, q.niche);
        } else {
          UpsertKeepsAggregate(t.rows, d, now, q.contentId);
        }
      }
    }
  }

  lemma TouchesExclusive(r: Request, t: Tables)
    requires !r.Summary?
    ensures Exclusive(r, t)
  {
    forall q: Request | KeyOf(q) == KeyOf(r) ensures q == r {
      OtherKindOtherKey(r, q);
    }
  }

  /** A request with an answer names a content id of the tables. */
  lemma AnsweredIdStored(q: Request, t: Tables) returns (i: nat)
    requires q.Summary? && Answer(q, t).Some?
    ensures i < |t.rows| && t.rows[i].contentId == q.contentId
  {
    if q.niche != "" {
      i := RowIndex(t.rows, q.contentId, q.niche);
    } else {
      i := AggregateStored(t.rows, q.contentId);
    }
  }

  /** No separator of the joined line lies inside a colon-free first field. */
  lemma CutNotBefore(c: string, n: string, k: nat)
    requires ColonFree(c) && k < |c + ":" + n| && (c + ":" + n)[k] == ':'
    ensures k >= |c|
  {
    assert forall i :: 0 <= i < |c| ==> (c + ":" + n)[i] == c[i];
  }

  lemma FirstCut(c: string, n: string, c': string, n': string)
    requires ColonFree(c) && ColonFree(c') && c + ":" + n == c' + ":" + n'
    ensures c == c' && n == n'
  {
    var s := c + ":" + n;
    assert s == c' + ":" + n';
    assert s[|c|] == ':' && s[|c'|] == ':';
    CutNotBefore(c, n, |c'|);
    CutNotBefore(c', n', |c|);
    assert s[..|c|] == c && s[..|c'|] == c';
    SameIdSameNiche(c, n, n');
  }

  lemma UncutFirst(c: string, n: string, c': string, n': string)
    requires Uncut(c) && ParsedId(c') && c + ":" + n == c' + ":" + n'
    ensures c == c' && n == n'
  {
    assert (c + ":" + n)[0] == (c' + ":" + n')[0] == c'[0];
    assert ColonFree(c);
    FirstCut(c, n, c', n');
  }

  /** On tables whose content ids are nonempty and colon-free, as all that come from parsed codes, a
      result request for an uncut content id shares its key with nothing stored, whatever its niche. */
  lemma UncutIsExclusive(r: Request, t: Tables)
    requires r.Summary? && Uncut(r.contentId) && ParsedIds(t)
    ensures Exclusive(r, t)
  {
    forall q: Request | KeyOf(q) == KeyOf(r) && Answer(q, t).Some? ensures q == r {
      OtherKindOtherKey(r, q);
      var i := AnsweredIdStored(q, t);
      ArKeyCut(r.contentId, r.niche, q.contentId, q.niche);
      UncutFirst(r.contentId, r.niche, q.contentId, q.niche);
    }
  }

  lemma FirstColon(s: string) returns (i: nat)
    requires ':' in s
    ensures i < |s| && s[i] == ':' && ColonFree(s[..i])
  {
    i := 0;
    while s[i] != ':'
      invariant i < |s| && ColonFree(s[..i]) && ':' in s[i..]
      decreases |s| - i
    {
      i := i + 1;
    }
  }

  lemma OneRow(q: Request) returns (t: Tables)
    requires q.Summary? && ParsedId(q.contentId)
    ensures ParsedIds(t) && Answer(q, t).Some?
    ensures forall r: Request :: r.Summary? && r != q && r.contentId != q.contentId ==> Answer(r, t) == None
  {
    var row := Row(q.contentId, q.niche, "", "", 1, 1, 1.0, 0.0, 1.0, 0.0);
    t := Tables([], [], [row]);
    assert RowIndex([row], q.contentId, q.niche) == 0;
    forall r: Request | r.Summary? && r.contentId != q.contentId ensures Answer(r, t) == None {
      assert Aggregate([row][..0], r.contentId) == None;
    }
    assert Aggregate([row][..0], q.contentId) == None;
  }

  /** A table the engine can write, and a request for it, that a cut content id shares its key with. */
  lemma CutSharesKey(r: Request) returns (q: Request, t: Tables)
    requires r.Summary? && !Uncut(r.contentId)
    ensures ParsedIds(t) && KeyOf(q) == KeyOf(r) && q != r && Answer(q, t).Some? && Answer(r, t) == None
  {
    var i := FirstColon(r.contentId);
    q := Summary(r.contentId[..i], r.contentId[i + 1..] + ":" + r.niche);
    CutAt(r.contentId, i);
    Regroup("ar:", r.contentId[..i], r.contentId[i + 1..], r.niche);
    t := OneRow(q);
  }

  /** On every table the engine can write the request keeps its key to itself exactly if its content id is
      free of separators or starts with one; its niche does not matter. */
  lemma AlwaysExclusiveIff(r: Request)
    requires r.Summary?
    ensures (forall t: Tables :: ParsedIds(t) ==> Exclusive(r, t)) <==> Uncut(r.contentId)
  {
    if Uncut(r.contentId) {
      forall t: Tables | ParsedIds(t) ensures Exclusive(r, t) {
        UncutIsExclusive(r, t);
      }
    } else {
      var q, t := CutSharesKey(r);
      assert !Exclusive(r, t);
    }
  }

  /** What the request for r is told on an empty cache right after the request for q. */
  function ReadAfter(q: Request, r: Request, t: Tables, now: real): Option<Payload> {
    ReadThrough(ReadThrough([], q, t, now).0, r, t, now).1
  }

  lemma AnswerNamesRequest(q: Request, t: Tables)
    requires q.Summary? && Answer(q, t).Some?
    ensures Answer(q, t).value.Result? && Answer(q, t).value.row.contentId == q.contentId && Answer(q, t).value.row.niche == q.niche
  {
    if q.niche == "" {
      var i := AggregateStored(t.rows, q.contentId);
    }
  }

  lemma EmptyThenOne(q: Request, r: Request, t: Tables, now: real)
    ensures ReadAfter(q, r, t, now) == if KeyOf(q) == KeyOf(r) && Answer(q, t).Some? then Answer(q, t) else Answer(r, t)
  {
    var none: Cache := [];
    assert Position(none, KeyOf(q)) == 0;
    assert ReadThrough(none, q, t, now).0 == if Answer(q, t).Some? then [Entry(KeyOf(q), Answer(q, t).value, now)] else none;
    var one := ReadThrough(none, q, t, now).0;
    if |one| == 1 && KeyOf(q) != KeyOf(r) {
      assert one[1..] == [];
    }
  }

  /** A result request is always told its own answer, whatever was read just before it, exactly if no
      other request with its key has an answer. */
  lemma ServedRightIff(r: Request, t: Tables, now: real)
    requires r.Summary?
    ensures (forall q: Request :: ReadAfter(q, r, t, now) == Answer(r, t)) <==> Exclusive(r, t)
  {
    forall q: Request ensures ReadAfter(q, r, t, now) == Answer(r, t) <==> (KeyOf(q) == KeyOf(r) && Answer(q, t).Some? ==> q == r) {
      EmptyThenOne(q, r, t, now);
      if KeyOf(q) == KeyOf(r) && Answer(q, t).Some? && q != r {
        OtherKindOtherKey(r, q);
        AnswerNamesRequest(q, t);
        if Answer(r, t).Some? {
          AnswerNamesRequest(r, t);
        }
      }
    }
  }

  // ---- The cache: entries in insertion order, oldest first ----

  datatype Entry = Entry(key: string, data: Payload, ts: real)

  type Cache = seq<Entry>

  function Position(c: Cache, key: string): (i: nat)
    ensures i <= |c|
    ensures i < |c| ==> c[i].key == key
  {
    if |c| == 0 || c[0].key == key then 0 else 1 + Position(c[1..], key)
  }

  function Dropped(c: Cache, key: string): (r: Cache) {
    var i := Position(c, key);
    if i == |c| then c else c[..i] + c[i + 1..]
  }

  function Stale(e: Entry, now: real): bool { now - e.ts > CACHE_TTL }

  /** The cache after a lookup: a stale entry is dropped, a live one moves to the back unchanged. */
  function Looked(c: Cache, key: string, now: real): (r: (Cache, Option<Payload>)) {
    var i := Position(c, key);
    if i == |c| || Stale(c[i], now) then (Dropped(c, key), None)
    else (Dropped(c, key) + [c[i]], Some(c[i].data))
  }

  /** The cache after a store: the key's old entry goes, and a full cache loses its oldest fifth. */
  function Stored(c: Cache, key: string, data: Payload, now: real): (r: Cache) {
    var next := Dropped(c, key) + [Entry(key, data, now)];
    if |next| > CACHE_MAX_KEYS then next[EVICT..] else next
  }

  // ---- Invariants ----

  datatype Snapshot = Snapshot(at: real, tables: Tables)

  /** The entry is what the query of some request with this key returned at the entry's own time. */
  ghost predicate Backed(e: Entry, h: seq<Snapshot>) {
    exists r: Request, i :: 0 <= i < |h| && h[i].at == e.ts && KeyOf(r) == e.key && Answer(r, h[i].tables) == Some(e.data)
  }

  ghost predicate Bounded(c: Cache) {
    && |c| <= CACHE_MAX_KEYS
    && (forall i, j :: 0 <= i < j < |c| ==> c[i].key != c[j].key)
  }

  ghost predicate AllBacked(c: Cache, h: seq<Snapshot>) {
    forall e :: e in c ==> Backed(e, h)
  }

  /** An entry under an exclusive one-niche result key is the current row. */
  ghost predicate RowCurrent(e: Entry, t: Tables) {
    forall r: Request :: KeyOf(r) == e.key && r.Summary? && r.niche != "" && Exclusive(r, t) ==> Answer(r, t) == Some(e.data)
  }

  /** Whatever had an answer at any instant of the history has one on the given tables. */
  ghost predicate Grown(h: seq<Snapshot>, t: Tables) {
    forall i :: 0 <= i < |h| ==> AnswersStay(h[i].tables, t)
  }

  lemma GrowsOn(h: seq<Snapshot>, t: Tables, t': Tables, now: real)
    requires Grown(h, t) && AnswersStay(t, t')
    ensures Grown(h, t') && Grown(h + [Snapshot(now, t')], t')
  {
  }

  ghost predicate RowsCurrent(c: Cache, t: Tables) {
    forall e :: e in c ==> RowCurrent(e, t)
  }

  lemma {:induction false} PositionMisses(c: Cache, key: string, j: nat)
    requires j < Position(c, key)
    ensures c[j].key != key
  {
    if j > 0 {
      PositionMisses(c[1..], key, j - 1);
    }
  }

  lemma DroppedKeeps(c: Cache, key: string, e: Entry)
    requires e in c && e.key != key
    ensures e in Dropped(c, key)
  {
    var i, r := Position(c, key), Dropped(c, key);
    var j :| 0 <= j < |c| && c[j] == e;
    if i < |c| {
      assert r[if j < i then j else j - 1] == e;
    }
  }

  lemma DroppedOnly(c: Cache, key: string, e: Entry)
    requires Bounded(c) && e in Dropped(c, key)
    ensures e in c && e.key != key
  {
    var i, r := Position(c, key), Dropped(c, key);
    var j :| 0 <= j < |r| && r[j] == e;
    if i == |c| {
      PositionMisses(c, key, j);
    } else {
      assert e == c[if j < i then j else j + 1];
    }
  }

  lemma DroppedBounded(c: Cache, key: string)
    requires Bounded(c)
    ensures Bounded(Dropped(c, key)) && |Dropped(c, key)| <= |c|
  {
    var i, r := Position(c, key), Dropped(c, key);
    if i < |c| {
      forall x, y | 0 <= x < y < |r| ensures r[x].key != r[y].key {
        assert r[x] == c[if x < i then x else x + 1] && r[y] == c[if y < i then y else y + 1];
      }
    }
  }

  lemma DroppedFacts(c: Cache, key: string)
    requires Bounded(c)
    ensures Bounded(Dropped(c, key)) && |Dropped(c, key)| <= |c|
    ensures forall e :: e in Dropped(c, key) ==> e in c && e.key != key
  {
    DroppedBounded(c, key);
    forall e | e in Dropped(c, key) ensures e in c && e.key != key {
      DroppedOnly(c, key, e);
    }
  }

  /** A lookup keeps the bound and changes no entry, its age included. */
  lemma LookedFacts(c: Cache, key: string, now: real)
    requires Bounded(c)
    ensures Bounded(Looked(c, key, now).0)
    ensures forall e :: e in Looked(c, key, now).0 ==> e in c
  {
    DroppedFacts(c, key);
    var i, r, d := Position(c, key), Looked(c, key, now).0, Dropped(c, key);
    if i < |c| && !Stale(c[i], now) {
      assert r == d + [c[i]] && |d| == |c| - 1;
      forall x, y | 0 <= x < y < |r| ensures r[x].key != r[y].key {
        assert d[x] in d;
      }
    }
  }

  /** A hit comes from an entry that is at most thirty seconds old. */
  lemma HitIsLive(c: Cache, key: string, now: real) returns (e: Entry)
    requires Looked(c, key, now).1.Some?
    ensures e in c && e.key == key && e.data == Looked(c, key, now).1.value && now - e.ts <= 30.0
  {
    e := c[Position(c, key)];
  }

  lemma FoundAt(c: Cache, key: string, i: nat)
    requires Bounded(c) && i < |c| && c[i].key == key
    ensures Position(c, key) == i
  {
    if i < Position(c, key) {
      PositionMisses(c, key, i);
    }
  }

  ghost predicate LiveAt(c: Cache, key: string, now: real, i: nat) {
    i < |c| && c[i].key == key && now - c[i].ts <= 30.0
  }

  /** A lookup hits exactly if the cache holds an entry of the key that is at most thirty seconds old. */
  lemma HitIff(c: Cache, key: string, now: real)
    requires Bounded(c)
    ensures Looked(c, key, now).1.Some? <==> exists i: nat :: LiveAt(c, key, now, i)
  {
    var p := Position(c, key);
    if i: nat :| LiveAt(c, key, now, i) {
      FoundAt(c, key, i);
    } else {
      assert !LiveAt(c, key, now, p);
    }
  }

  /** The entry of a hit is then the last one to be evicted. */
  lemma HitMovesBack(c: Cache, key: string, now: real)
    requires Looked(c, key, now).1.Some?
    ensures var (r, hit) := Looked(c, key, now); |r| == |c| && r[|r| - 1].key == key && r[|r| - 1].data == hit.value
  {
  }

  lemma NotThere(c: Cache, key: string)
    requires forall i :: 0 <= i < |c| ==> c[i].key != key
    ensures Dropped(c, key) == c
  {
  }

  /** With 1024 entries a store under a new key evicts the 204 that were used or stored longest ago. */
  lemma FullStoreEvicts(c: Cache, key: string, data: Payload, now: real)
    requires |c| == 1024 && forall i :: 0 <= i < |c| ==> c[i].key != key
    ensures Stored(c, key, data, now) == c[204..] + [Entry(key, data, now)]
  {
    NotThere(c, key);
  }

  lemma AppendedBounded(d: Cache, e: Entry)
    requires forall x, y :: 0 <= x < y < |d| ==> d[x].key != d[y].key
    requires forall f :: f in d ==> f.key != e.key
    ensures forall x, y :: 0 <= x < y <= |d| ==> (d + [e])[x].key != (d + [e])[y].key
  {
    assert forall x :: 0 <= x < |d| ==> d[x] in d;
  }

  lemma SuffixBounded(c: Cache, n: nat)
    requires n <= |c| <= CACHE_MAX_KEYS + n && forall x, y :: 0 <= x < y < |c| ==> c[x].key != c[y].key
    ensures Bounded(c[n..]) && forall e :: e in c[n..] ==> e in c
  {
  }

  /** A store keeps the bound; whatever is not the new entry was there before. */
  lemma StoredFacts(c: Cache, key: string, data: Payload, now: real)
    requires Bounded(c)
    ensures Bounded(Stored(c, key, data, now)) && |Stored(c, key, data, now)| <= 1024
    ensures forall e :: e in Stored(c, key, data, now) ==> e == Entry(key, data, now) || (e in c && e.key != key)
  {
    var d, e := Dropped(c, key), Entry(key, data, now);
    DroppedFacts(c, key);
    AppendedBounded(d, e);
    SuffixBounded(d + [e], if |d| + 1 > CACHE_MAX_KEYS then EVICT else 0);
  }

  lemma BackedLater(e: Entry, h: seq<Snapshot>, s: Snapshot)
    requires Backed(e, h)
    ensures Backed(e, h + [s])
  {
    var r: Request, i :| 0 <= i < |h| && h[i].at == e.ts && KeyOf(r) == e.key && Answer(r, h[i].tables) == Some(e.data);
    assert (h + [s])[i] == h[i];
  }

  /** The data is what the query would have returned at some instant of the last thirty seconds. */
  ghost predicate RecentAnswer(r: Request, data: Payload, h: seq<Snapshot>, now: real) {
    exists i :: 0 <= i < |h| && now - 30.0 <= h[i].at <= now && Answer(r, h[i].tables) == Some(data)
  }

  /** With a content id that is cut, the row of another one is served where there is none, from tables
      the engine can write. */
  lemma AmbiguousKeyServesOtherRow(r: Request, now: real) returns (q: Request, t: Tables)
    requires r.Summary? && !Uncut(r.contentId)
    ensures ParsedIds(t) && q.Summary? && q.contentId != r.contentId && Answer(q, t).Some? && Answer(r, t) == None
    ensures ReadAfter(q, r, t, now) == Answer(q, t)
  {
    q, t := CutSharesKey(r);
    OtherKindOtherKey(r, q);
    EmptyThenOne(q, r, t, now);
    if q.contentId == r.contentId {
      ArKeyCut(r.contentId, r.niche, q.contentId, q.niche);
      SameIdSameNiche(r.contentId, r.niche, q.niche);
    }
  }

  /** Below the limit a store evicts nothing but the key's own old entry. */
  lemma StoredKeeps(c: Cache, key: string, data: Payload, now: real, e: Entry)
    requires Bounded(c) && |c| < 1024 && e in c && e.key != key
    ensures e in Stored(c, key, data, now)
  {
    DroppedBounded(c, key);
    DroppedKeeps(c, key, e);
  }

  lemma AllBackedLater(c: Cache, h: seq<Snapshot>, s: Snapshot)
    requires AllBacked(c, h)
    ensures AllBacked(c, h + [s])
  {
    forall e | e in c ensures Backed(e, h + [s]) {
      BackedLater(e, h, s);
    }
  }

  /** Filling the cache with a fresh answer keeps all three invariants. */
  lemma FillKeeps(c: Cache, h: seq<Snapshot>, t: Tables, r: Request, now: real)
    requires Bounded(c) && AllBacked(c, h) && RowsCurrent(c, t) && Answer(r, t).Some?
    ensures var c', h' := Stored(c, KeyOf(r), Answer(r, t).value, now), h + [Snapshot(now, t)];
            Bounded(c') && AllBacked(c', h') && RowsCurrent(c', t)
  {
    var data := Answer(r, t).value;
    var c', h' := Stored(c, KeyOf(r), data, now), h + [Snapshot(now, t)];
    StoredFacts(c, KeyOf(r), data, now);
    AllBackedLater(c, h, Snapshot(now, t));
    var added := Entry(KeyOf(r), data, now);
    assert Backed(added, h') by {
      assert h'[|h|] == Snapshot(now, t);
    }
    assert RowCurrent(added, t);
    forall e | e in c' ensures Backed(e, h') && RowCurrent(e, t) {
      if e != added {
        assert e in c;
      }
    }
  }

  /** Dropping a key keeps the invariants even if the rows under other keys alone are unchanged. */
  lemma DropKeeps(c: Cache, h: seq<Snapshot>, t: Tables, t': Tables, key: string)
    requires Bounded(c) && AllBacked(c, h) && RowsCurrent(c, t)
    requires forall r: Request :: r.Summary? && r.niche != "" && KeyOf(r) != key ==> Answer(r, t') == Answer(r, t)
    requires AnswersStay(t, t')
    ensures Bounded(Dropped(c, key)) && AllBacked(Dropped(c, key), h) && RowsCurrent(Dropped(c, key), t')
  {
    DroppedFacts(c, key);
    forall e | e in Dropped(c, key) ensures Backed(e, h) && RowCurrent(e, t') {
      assert e in c && RowCurrent(e, t);
      forall r: Request | KeyOf(r) == e.key && r.Summary? && r.niche != "" && Exclusive(r, t') ensures Answer(r, t') == Some(e.data) {
        ExclusiveBefore(r, t, t');
      }
    }
  }

  /** A read: the cache's live answer, or else the query's answer, which is then stored. */
  function ReadThrough(c: Cache, r: Request, t: Tables, now: real): (Cache, Option<Payload>) {
    var (looked, hit) := Looked(c, KeyOf(r), now);
    if hit.Some? then (looked, hit)
    else
      match Answer(r, t)
      case None => (looked, None)
      case Some(data) => (Stored(looked, KeyOf(r), data, now), Some(data))
  }

  lemma {:induction false} LastFound(c: Cache, key: string)
    requires |c| > 0 && c[|c| - 1].key == key && forall i :: 0 <= i < |c| - 1 ==> c[i].key != key
    ensures Position(c, key) == |c| - 1
  {
    if |c| > 1 {
      LastFound(c[1..], key);
    }
  }

  /** The entry that answers key stands last, is live and holds the data. */
  ghost predicate Answers(c: Cache, key: string, data: Payload, now: real) {
    && |c| > 0 && c[|c| - 1].key == key && c[|c| - 1].data == data && !Stale(c[|c| - 1], now)
    && forall i :: 0 <= i < |c| - 1 ==> c[i].key != key
  }

  lemma HitAnswers(c: Cache, key: string, now: real)
    requires Bounded(c) && Looked(c, key, now).1.Some?
    ensures Answers(Looked(c, key, now).0, key, Looked(c, key, now).1.value, now)
  {
    DroppedFacts(c, key);
    var d := Dropped(c, key);
    forall i | 0 <= i < |d| ensures d[i].key != key {
      assert d[i] in d;
    }
  }

  lemma ReadAnswers(c: Cache, q: Request, t: Tables, now: real)
    requires Bounded(c) && ReadThrough(c, q, t, now).1.Some?
    ensures Answers(ReadThrough(c, q, t, now).0, KeyOf(q), ReadThrough(c, q, t, now).1.value, now)
  {
    LookedFacts(c, KeyOf(q), now);
    if Looked(c, KeyOf(q), now).1.Some? {
      HitAnswers(c, KeyOf(q), now);
    } else {
      StoredLast(Looked(c, KeyOf(q), now).0, KeyOf(q), Answer(q, t).value, now);
    }
  }

  /** Whatever a read returns is what the next request under the same key is told, whoever it is for. */
  lemma ReadIsCached(c: Cache, q: Request, r: Request, t: Tables, now: real)
    requires Bounded(c) && KeyOf(q) == KeyOf(r) && ReadThrough(c, q, t, now).1.Some?
    ensures ReadThrough(ReadThrough(c, q, t, now).0, r, t, now).1 == ReadThrough(c, q, t, now).1
  {
    ReadAnswers(c, q, t, now);
    LastFound(ReadThrough(c, q, t, now).0, KeyOf(q));
  }

  lemma StoredLast(c: Cache, key: string, data: Payload, now: real)
    requires Bounded(c)
    ensures var c' := Stored(c, key, data, now);
            && |c'| > 0 && c'[|c'| - 1] == Entry(key, data, now)
            && forall i :: 0 <= i < |c'| - 1 ==> c'[i].key != key
  {
    StoredFacts(c, key, data, now);
  }

  /** A hit is a recent answer to a request with this key, and if the request is exclusive, to itself. */
  lemma HitIsRecent(e: Entry, r: Request, h: seq<Snapshot>, t: Tables, now: real)
    requires Backed(e, h) && e.key == KeyOf(r) && now - e.ts <= CACHE_TTL && Grown(h, t)
    requires forall i :: 0 <= i < |h| ==> h[i].at <= now
    ensures exists q: Request :: KeyOf(q) == KeyOf(r) && RecentAnswer(q, e.data, h + [Snapshot(now, t)], now)
    ensures Exclusive(r, t) ==> RecentAnswer(r, e.data, h + [Snapshot(now, t)], now)
  {
    var q: Request, i :| 0 <= i < |h| && h[i].at == e.ts && KeyOf(q) == e.key && Answer(q, h[i].tables) == Some(e.data);
    assert (h + [Snapshot(now, t)])[i] == h[i];
    assert RecentAnswer(q, e.data, h + [Snapshot(now, t)], now);
    assert AnswersStay(h[i].tables, t);
  }

  /** The three cache invariants after a read. */
  lemma ReadKeeps(c: Cache, h: seq<Snapshot>, t: Tables, r: Request, now: real)
    requires Bounded(c) && AllBacked(c, h) && RowsCurrent(c, t)
    ensures var c' := ReadThrough(c, r, t, now).0;
            Bounded(c') && AllBacked(c', h + [Snapshot(now, t)]) && RowsCurrent(c', t)
  {
    var looked := Looked(c, KeyOf(r), now).0;
    LookedFacts(c, KeyOf(r), now);
    AllBackedLater(looked, h, Snapshot(now, t));
    if Looked(c, KeyOf(r), now).1.None? && Answer(r, t).Some? {
      FillKeeps(looked, h, t, r, now);
    }
  }

  /** What a read returns is a recent answer to a request with this key; an exclusive request gets a
      recent answer to itself, and a one-niche result of one is the current row. */
  lemma ReadIsRecent(c: Cache, h: seq<Snapshot>, t: Tables, r: Request, now: real)
    requires Bounded(c) && AllBacked(c, h) && RowsCurrent(c, t) && Grown(h, t)
    requires forall i :: 0 <= i < |h| ==> h[i].at <= now
    ensures var data, h' := ReadThrough(c, r, t, now).1, h + [Snapshot(now, t)];
            && (data.None? ==> Answer(r, t) == None)
            && (data.Some? ==> exists q: Request :: KeyOf(q) == KeyOf(r) && RecentAnswer(q, data.value, h', now))
            && (data.Some? && Exclusive(r, t) ==> RecentAnswer(r, data.value, h', now))
            && (Exclusive(r, t) && r.Summary? && r.niche != "" ==> data == Answer(r, t))
  {
    LookedFacts(c, KeyOf(r), now);
    var hit := Looked(c, KeyOf(r), now).1;
    if hit.Some? {
      var e := HitIsLive(c, KeyOf(r), now);
      HitIsRecent(e, r, h, t, now);
      assert RowCurrent(e, t);
    } else if Answer(r, t).Some? {
      assert (h + [Snapshot(now, t)])[|h|] == Snapshot(now, t);
      assert RecentAnswer(r, Answer(r, t).value, h + [Snapshot(now, t)], now);
    }
  }

  class AttributionStore {
    var touches: seq<Touch>
    var conversions: seq<Conversion>
    var rows: seq<Row>
    var nextId: nat
    var cache: Cache
    // every instant at which a method ran, with the tables it left behind
    ghost var history: seq<Snapshot>

    function Contents(): Tables
      reads this
    {
      Tables(touches, conversions, rows)
    }

    ghost predicate Valid()
      reads this
    {
      Bounded(cache) && AllBacked(cache, history) && RowsCurrent(cache, Contents()) && Grown(history, Contents())
    }

    /** The clock never runs backwards: nothing happened after now. */
    ghost predicate NotBefore(now: real)
      reads this
    {
      forall i :: 0 <= i < |history| ==> history[i].at <= now
    }

    constructor ()
      ensures Valid() && Contents() == Tables([], [], []) && cache == [] && history == [] && nextId == 1
    {
      touches, conversions, rows, nextId, cache, history := [], [], [], 1, [], [];
    }

    method Get(key: string, now: real) returns (hit: Option<Payload>)
      modifies `cache
      ensures (cache, hit) == Looked(old(cache), key, now)
    {
      var looked := Looked(cache, key, now);
      cache := looked.0;
      hit := looked.1;
    }

    /** Cache, then query, then cache the answer: the shape of all three readers. */
    method Read(r: Request, now: real) returns (data: Option<Payload>)
      requires Valid() && NotBefore(now)
      modifies `cache, `history
      ensures Valid() && NotBefore(now) && history == old(history) + [Snapshot(now, Contents())]
      ensures (cache, data) == ReadThrough(old(cache), r, Contents(), now)
      ensures data.None? ==> Answer(r, Contents()) == None
      ensures data.Some? ==> exists q: Request :: KeyOf(q) == KeyOf(r) && RecentAnswer(q, data.value, history, now)
      ensures data.Some? && Exclusive(r, Contents()) ==> RecentAnswer(r, data.value, history, now)
      ensures Exclusive(r, Contents()) && r.Summary? && r.niche != "" ==> data == Answer(r, Contents())
    {
      ReadKeeps(cache, history, Contents(), r, now);
      ReadIsRecent(cache, history, Contents(), r, now);
      GrowsOn(history, Contents(), Contents(), now);
      data := Fetch(r, now);
      history := history + [Snapshot(now, Contents())];
    }

    method Fetch(r: Request, now: real) returns (data: Option<Payload>)
      modifies `cache
      ensures (cache, data) == ReadThrough(old(cache), r, Contents(), now)
    {
      data := Get(KeyOf(r), now);
      if data.None? {
        data := Answer(r, Contents());
        if data.Some? {
          cache := Stored(cache, KeyOf(r), data.value, now);
        }
      }
    }

    /** Every touch of a content id across tracking codes, oldest click first, at most 30 s out of date. */
    method GetTouchesByContent(contentId: string, now: real) returns (found: seq<Touch>)
      requires Valid() && NotBefore(now)
      modifies `cache, `history
      ensures Valid() && NotBefore(now) && history == old(history) + [Snapshot(now, Contents())]
      ensures (cache, Some(Touches(found))) == ReadThrough(old(cache), ByContent(contentId), Contents(), now)
      ensures RecentAnswer(ByContent(contentId), Touches(found), history, now)
      ensures OldestFirst(found) && forall t :: t in found ==> t.contentId == contentId
    {
      TouchesExclusive(ByContent(contentId), Contents());
      var data := Read(ByContent(contentId), now);
      ghost var i :| 0 <= i < |history| && now - CACHE_TTL <= history[i].at <= now
                     && Answer(ByContent(contentId), history[i].tables) == Some(data.value);
      found := data.value.touches;
      TouchesBelong(history[i].tables.touches, contentId);
      ListsOldestFirst(history[i].tables.touches, contentId, "");
    }

    method GetTouches(code: string, now: real) returns (found: seq<Touch>)
      requires Valid() && NotBefore(now)
      modifies `cache, `history
      ensures Valid() && NotBefore(now) && history == old(history) + [Snapshot(now, Contents())]
      ensures (cache, Some(Touches(found))) == ReadThrough(old(cache), ByCode(code), Contents(), now)
      ensures RecentAnswer(ByCode(code), Touches(found), history, now)
      ensures OldestFirst(found) && forall t :: t in found ==> t.trackingCode == code
    {
      TouchesExclusive(ByCode(code), Contents());
      var data := Read(ByCode(code), now);
      ghost var i :| 0 <= i < |history| && now - CACHE_TTL <= history[i].at <= now
                     && Answer(ByCode(code), history[i].tables) == Some(data.value);
      found := data.value.touches;
      ListsOldestFirst(history[i].tables.touches, "", code);
    }

    /** One niche: exactly the current row. All niches: an aggregate at most 30 s old. Both whenever no
        other request with the same key has an answer. */
    method GetAttrResult(contentId: string, niche: string, now: real) returns (row: Option<Row>)
      requires Valid() && NotBefore(now)
      modifies `cache, `history
      ensures Valid() && NotBefore(now) && history == old(history) + [Snapshot(now, Contents())]
      ensures (cache, Wrap(row)) == ReadThrough(old(cache), Summary(contentId, niche), Contents(), now)
      ensures niche != "" && Exclusive(Summary(contentId, niche), Contents()) ==> row == RowOf(rows, contentId, niche)
      ensures niche == "" && row.None? ==> Aggregate(rows, contentId) == None
      ensures niche == "" && row.Some? && Exclusive(Summary(contentId, niche), Contents()) ==>
                RecentAnswer(Summary(contentId, niche), Result(row.value), history, now)
    {
      var r := Summary(contentId, niche);
      var data := Read(r, now);
      SummaryAnswers(r, data, history, now);
      row := if data.Some? then Some(data.value.row) else None;
    }

    method InsertTouch(t: Touch, now: real)
      requires Valid() && NotBefore(now)
      modifies `touches, `cache, `history
      ensures Valid() && NotBefore(now) && history == old(history) + [Snapshot(now, Contents())]
      ensures touches == old(touches) + [t] && cache == Dropped(old(cache), ArKey(t.contentId, t.niche))
    {
      DropKeeps(cache, history, Contents(), Contents().(touches := touches + [t]), ArKey(t.contentId, t.niche));
      GrowsOn(history, Contents(), Contents().(touches := touches + [t]), now);
      touches := touches + [t];
      cache := Dropped(cache, ArKey(t.contentId, t.niche));
      AllBackedLater(cache, history, Snapshot(now, Contents()));
      history := history + [Snapshot(now, Contents())];
    }

    method InsertConversion(c: Conversion, now: real) returns (id: nat)
      requires Valid() && NotBefore(now)
      modifies `conversions, `nextId, `cache, `history
      ensures Valid() && NotBefore(now) && history == old(history) + [Snapshot(now, Contents())]
      ensures id == old(nextId) && nextId == id + 1
      ensures conversions == old(conversions) + [c.(id := id, attributed := false)]
      ensures cache == Dropped(old(cache), ArKey(c.contentId, c.niche))
    {
      id := nextId;
      nextId := nextId + 1;
      var added := conversions + [c.(id := id, attributed := false)];
      DropKeeps(cache, history, Contents(), Contents().(conversions := added), ArKey(c.contentId, c.niche));
      GrowsOn(history, Contents(), Contents().(conversions := added), now);
      conversions := added;
      cache := Dropped(cache, ArKey(c.contentId, c.niche));
      AllBackedLater(cache, history, Snapshot(now, Contents()));
      history := history + [Snapshot(now, Contents())];
    }

    method UpsertAttrResult(d: Delta, now: real)
      requires Valid() && NotBefore(now)
      modifies `rows, `cache, `history
      ensures Valid() && NotBefore(now) && history == old(history) + [Snapshot(now, Contents())]
      ensures rows == Upsert(old(rows), d, now) && cache == Dropped(old(cache), ArKey(d.contentId, d.niche))
      ensures old(RowsSound(rows)) && DeltaSound(d) ==> RowsSound(rows)
    {
      var updated := Upsert(rows, d, now);
      if RowsSound(rows) && DeltaSound(d) {
        UpsertKeepsSound(rows, d, now);
      }
      OtherRowsUnchanged(Contents(), d, now);
      UpsertStays(Contents(), d, now);
      GrowsOn(history, Contents(), Contents().(rows := updated), now);
      DropKeeps(cache, history, Contents(), Contents().(rows := updated), ArKey(d.contentId, d.niche));
      rows := updated;
      cache := Dropped(cache, ArKey(d.contentId, d.niche));
      AllBackedLater(cache, history, Snapshot(now, Contents()));
      history := history + [Snapshot(now, Contents())];
    }

    method MarkAttributed(ids: seq<nat>, now: real)
      requires Valid() && NotBefore(now)
      modifies `conversions, `history
      ensures Valid() && NotBefore(now) && history == old(history) + [Snapshot(now, Contents())]
      ensures conversions == Mark(old(conversions), ids)
    {
      SameRowsSameCache(cache, Contents(), Contents().(conversions := Mark(conversions, ids)));
      GrowsOn(history, Contents(), Contents().(conversions := Mark(conversions, ids)), now);
      conversions := Mark(conversions, ids);
      AllBackedLater(cache, history, Snapshot(now, Contents()));
      history := history + [Snapshot(now, Contents())];
    }
  }

  lemma SameRowsSameCache(c: Cache, t: Tables, t': Tables)
    requires RowsCurrent(c, t) && t'.rows == t.rows
    ensures RowsCurrent(c, t')
  {
    forall e | e in c ensures RowCurrent(e, t') {
      assert RowCurrent(e, t);
      forall r: Request | KeyOf(r) == e.key && r.Summary? && r.niche != "" && Exclusive(r, t') ensures Answer(r, t') == Some(e.data) {
        ExclusiveBefore(r, t, t');
      }
    }
  }

  lemma OtherRowsUnchanged(t: Tables, d: Delta, now: real)
    ensures forall r: Request :: r.Summary? && r.niche != "" && KeyOf(r) != ArKey(d.contentId, d.niche) ==>
              Answer(r, t.(rows := Upsert(t.rows, d, now))) == Answer(r, t)
  {
    forall r: Request | r.Summary? && r.niche != "" && KeyOf(r) != ArKey(d.contentId, d.niche)
      ensures Answer(r, t.(rows := Upsert(t.rows, d, now))) == Answer(r, t)
    {
      UpsertFrames(t.rows, d, now, r.contentId, r.niche);
    }
  }

  /** A result read only ever yields rows. */
  lemma SummaryAnswers(r: Request, data: Option<Payload>, h: seq<Snapshot>, now: real)
    requires r.Summary?
    requires data.Some? ==> exists q: Request :: KeyOf(q) == KeyOf(r) && RecentAnswer(q, data.value, h, now)
    ensures data.Some? ==> data.value.Result?
  {
    if data.Some? {
      var q: Request :| KeyOf(q) == KeyOf(r) && RecentAnswer(q, data.value, h, now);
      OtherKindOtherKey(r, q);
    }
  }
}
