/** The paged research-conclusion feed: two batched keyset scans, merged by
    (time, kind, id) and cut into pages that are chained by opaque cursors. */
module UnionFeed {
  import opened Common
  import opened CursorCodec
  import opened Sorting

  const SCAN_BATCH_SIZE := 50

  datatype Report = Report(evidenceComplete: bool, searchable: string)

  /** A database row with the parts of its payload the feed looks at. Texts that the
      source compares case-insensitively are already case-folded. `retryable` says that the
      research run behind the row has a retryable reason. */
  datatype Row =
    | AssetRow(id: Uuid, time: int, retryable: bool, market: string, rating: string,
               evidenceComplete: bool, searchable: string)
    | EventRow(id: Uuid, time: int, retryable: bool, status: string, report: Option<Report>, refresh: bool)
  {
    function KeyOf(): Key { Key(time, if AssetRow? then Asset else Event, id) }
  }

  datatype KindFilter = AllKinds | OnlyEvents | OnlyAssets

  datatype Query = Query(kind: KindFilter, text: string, market: string, rating: string, evidence: string)

  /** One visible entry of the feed. */
  datatype Item = Item(key: Key, row: Row)

  const VISIBLE_EVENT_STATUSES := {"completed", "insufficient_evidence"}
  const EVENT_FEED_STATUSES := VISIBLE_EVENT_STATUSES + {"queued", "running", "verifying", "failed"}

  // ------------------------------------------------------------ filters

  predicate Contains(text: string, part: string) {
    exists i | 0 <= i <= |text| :: part <= text[i..]
  }

  predicate MatchesEvidence(complete: bool, wanted: string) {
    if wanted == "complete" then complete else if wanted == "incomplete" then !complete else true
  }

  /** The item a row shows as, or None when the filters drop it. */
  function ItemOf(row: Row, q: Query): Option<Item> {
    var shown :=
      match row
      case AssetRow(_, _, retryable, market, rating, complete, searchable) =>
        && !retryable
        && (q.market == "" || market == q.market)
        && (q.rating == "" || rating == q.rating)
        && MatchesEvidence(complete, q.evidence)
        && (q.text == "" || Contains(searchable, q.text))
      case EventRow(_, _, retryable, status, report, refresh) =>
        && !retryable && report.Some?
        && (status in VISIBLE_EVENT_STATUSES || refresh)
        && MatchesEvidence(report.value.evidenceComplete, q.evidence)
        && (q.text == "" || Contains(report.value.searchable, q.text));
    if shown then Some(Item(row.KeyOf(), row)) else None
  }

  /** The status condition of the event statement; the recommendation statement has none. */
  predicate InStatement(row: Row) {
    row.EventRow? ==> row.status in EVENT_FEED_STATUSES
  }

  // ------------------------------------------------------------ order

  predicate KeyLess(a: Key, b: Key) {
    || a.time < b.time
    || (a.time == b.time && a.kind.Order() < b.kind.Order())
    || (a.time == b.time && a.kind == b.kind && a.id < b.id)
  }

  /** Tables are read in `ORDER BY time DESC, id DESC` order; ids are unique in a table. */
  ghost predicate TableOrder(table: seq<Row>) {
    && (forall i, j :: 0 <= i < j < |table| ==> KeyLess(table[j].KeyOf(), table[i].KeyOf()))
    && (forall i, j :: 0 <= i < j < |table| ==> table[i].AssetRow? == table[j].AssetRow?)
  }

  ghost predicate Descending(items: seq<Item>) {
    forall i, j :: 0 <= i < j < |items| ==> KeyLess(items[j].key, items[i].key)
  }

  predicate IsBefore(key: Key, cursor: Option<Key>) {
    cursor.None? || KeyLess(key, cursor.value)
  }

  // ------------------------------------------------------------ one scan

  /** The WHERE clause of a statement: the status condition, the time prefilter
      `time <= bound`, and the keyset restart strictly after (time, id). */
  predicate Selected(row: Row, bound: Option<int>, restart: Option<(int, Uuid)>) {
    && InStatement(row)
    && (bound.None? || row.time <= bound.value)
    && (restart.None? || row.time < restart.value.0 || (row.time == restart.value.0 && row.id < restart.value.1))
  }

  /** The rows a statement returns, without its LIMIT. */
  function Select(table: seq<Row>, bound: Option<int>, restart: Option<(int, Uuid)>): seq<Row> {
    if table == [] then []
    else if Selected(table[0], bound, restart) then [table[0]] + Select(table[1..], bound, restart)
    else Select(table[1..], bound, restart)
  }

  /** The simple meaning of a scan: filter every row, keep what lies before the cursor. */
  function Qualifying(rows: seq<Row>, q: Query, cursor: Option<Key>): seq<Item> {
    if rows == [] then []
    else if Qualifies(rows[0], q, cursor) then [ItemOf(rows[0], q).value] + Qualifying(rows[1..], q, cursor)
    else Qualifying(rows[1..], q, cursor)
  }

  predicate Qualifies(row: Row, q: Query, cursor: Option<Key>) {
    InStatement(row) && ItemOf(row, q).Some? && IsBefore(ItemOf(row, q).value.key, cursor)
  }

  lemma QualifyingOne(rows: seq<Row>, i: nat, q: Query, cursor: Option<Key>)
    requires i < |rows|
    ensures Qualifying(rows[..i + 1], q, cursor) ==
            Qualifying(rows[..i], q, cursor) + if Qualifies(rows[i], q, cursor) then [ItemOf(rows[i], q).value] else []
  {
    assert rows[..i + 1] == rows[..i] + [rows[i]];
    QualifyingConcat(rows[..i], [rows[i]], q, cursor);
  }

  lemma QualifyingPrefix(rows: seq<Row>, i: nat, q: Query, cursor: Option<Key>)
    requires i <= |rows|
    ensures Qualifying(rows[..i], q, cursor) <= Qualifying(rows, q, cursor)
  {
    assert rows == rows[..i] + rows[i..];
    QualifyingConcat(rows[..i], rows[i..], q, cursor);
  }

  lemma {:induction false} QualifyingConcat(a: seq<Row>, b: seq<Row>, q: Query, cursor: Option<Key>)
    ensures Qualifying(a + b, q, cursor) == Qualifying(a, q, cursor) + Qualifying(b, q, cursor)
  {
    if a == [] {
      assert a + b == b;
    } else {
      assert (a + b)[1..] == a[1..] + b;
      QualifyingConcat(a[1..], b, q, cursor);
    }
  }

  function BoundOf(cursor: Option<Key>): Option<int> {
    match cursor case None => None case Some(k) => Some(k.time)
  }

  /** The non-strict time prefilter never loses a row that lies before the cursor. */
  lemma {:induction false} PrefilterLosesNothing(table: seq<Row>, q: Query, cursor: Option<Key>)
    ensures Qualifying(Select(table, BoundOf(cursor), None), q, cursor) == Qualifying(table, q, cursor)
  {
    if table != [] {
      PrefilterLosesNothing(table[1..], q, cursor);
    }
  }

  lemma {:induction false} SelectedRows(table: seq<Row>, bound: Option<int>, restart: Option<(int, Uuid)>)
    ensures forall r :: r in Select(table, bound, restart) <==> r in table && Selected(r, bound, restart)
    ensures TableOrder(table) ==> TableOrder(Select(table, bound, restart))
  {
    if table != [] {
      SelectedRows(table[1..], bound, restart);
      assert table == [table[0]] + table[1..];
      if TableOrder(table) {
        var rest := Select(table[1..], bound, restart);
        forall i | 0 <= i < |rest|
          ensures KeyLess(rest[i].KeyOf(), table[0].KeyOf()) && rest[i].AssetRow? == table[0].AssetRow?
        {
          assert rest[i] in table[1..];
        }
      }
    }
  }

  lemma {:induction false} SelectTwice(table: seq<Row>, bound: Option<int>, restart: Option<(int, Uuid)>)
    ensures Select(table, bound, restart) == Select(Select(table, bound, None), None, restart)
  {
    if table != [] {
      SelectTwice(table[1..], bound, restart);
    }
  }

  lemma {:induction false} SelectSuffix(rows: seq<Row>, restart: Option<(int, Uuid)>, n: nat)
    requires n <= |rows|
    requires forall i :: 0 <= i < |rows| ==> (Selected(rows[i], None, restart) <==> n <= i)
    ensures Select(rows, None, restart) == rows[n..]
  {
    if rows != [] {
      SelectSuffix(rows[1..], restart, if n == 0 then 0 else n - 1);
    }
  }

  /** Restarting strictly after the p-th row read resumes exactly where the scan stopped. */
  lemma RestartResumes(table: seq<Row>, bound: Option<int>, p: nat)
    requires TableOrder(table)
    requires p < |Select(table, bound, None)|
    ensures var all := Select(table, bound, None);
            Select(table, bound, Some((all[p].time, all[p].id))) == all[p + 1..]
  {
    var all := Select(table, bound, None);
    var restart := Some((all[p].time, all[p].id));
    SelectedRows(table, bound, None);
    SelectTwice(table, bound, restart);
    forall i | 0 <= i < |all|
      ensures Selected(all[i], None, restart) <==> p + 1 <= i
    {
      assert all[i] in all;
      if i < p {
        assert KeyLess(all[p].KeyOf(), all[i].KeyOf());
      } else if p < i {
        assert KeyLess(all[i].KeyOf(), all[p].KeyOf());
      }
    }
    SelectSuffix(all, restart, p + 1);
  }

  lemma TakeAfterTake(a: seq<Item>, b: seq<Item>, n: nat)
    ensures Take(Take(a, n) + b, n) == Take(a + b, n)
  {
  }

  /** What one more batch adds. */
  lemma BatchAdds(all: seq<Row>, p: nat, rows: seq<Row>, q: Query, cursor: Option<Key>, wanted: nat)
    requires p + |rows| <= |all| && rows == all[p..p + |rows|]
    ensures Take(Take(Qualifying(all[..p], q, cursor), wanted) + Qualifying(rows, q, cursor), wanted)
         == Take(Qualifying(all[..p + |rows|], q, cursor), wanted)
  {
    assert all[..p + |rows|] == all[..p] + rows;
    QualifyingConcat(all[..p], rows, q, cursor);
    TakeAfterTake(Qualifying(all[..p], q, cursor), Qualifying(rows, q, cursor), wanted);
  }

  /** The inner loop over one batch: append matching items before the cursor, stop at `wanted`. */
  method ScanBatch(rows: seq<Row>, wanted: nat, q: Query, cursor: Option<Key>, before: seq<Item>)
    returns (output: seq<Item>)
    requires |before| < wanted
    requires forall r :: r in rows ==> InStatement(r)
    ensures output == Take(before + Qualifying(rows, q, cursor), wanted)
  {
    output := before;
    for i := 0 to |rows|
      invariant |output| < wanted && output == before + Qualifying(rows[..i], q, cursor)
    {
      var item := ItemOf(rows[i], q);
      QualifyingOne(rows, i, q, cursor);
      if item.Some? && IsBefore(item.value.key, cursor) {
        output := output + [item.value];
        if |output| >= wanted {
          QualifyingPrefix(rows, i + 1, q, cursor);
          return;
        }
      }
    }
    assert rows[..|rows|] == rows;
  }

  /** Where a scan stands after reading one non-empty batch from position p. */
  lemma Advance(table: seq<Row>, bound: Option<int>, p: nat, rows: seq<Row>)
    requires TableOrder(table)
    requires p <= |Select(table, bound, None)| && rows != [] && rows <= Select(table, bound, None)[p..]
    ensures var all, last := Select(table, bound, None), rows[|rows| - 1];
            rows == all[p..p + |rows|] && Select(table, bound, Some((last.time, last.id))) == all[p + |rows|..]
    ensures forall r :: r in rows ==> InStatement(r)
  {
    var all := Select(table, bound, None);
    assert rows[|rows| - 1] == all[p + |rows| - 1];
    RestartResumes(table, bound, p + |rows| - 1);
    SelectedRows(table, bound, None);
    forall r | r in rows
      ensures InStatement(r)
    {
      var i :| 0 <= i < |rows| && rows[i] == r;
      assert all[p + i] == r;
      assert r in all;
    }
  }

  /** Both scans (recommendations and event runs differ only in the rows they read): fetch a
      batch, keep matching items before the cursor, stop at `wanted`, restart after the last
      row. It returns the first `wanted` items of the simple meaning, for every table. */
  method ScanConclusions(table: seq<Row>, wanted: nat, q: Query, cursor: Option<Key>) returns (output: seq<Item>)
    requires TableOrder(table)
    ensures output == Take(Qualifying(table, q, cursor), wanted)
  {
    output := [];
    var bound := BoundOf(cursor);
    var restart: Option<(int, Uuid)> := None;
    var batchSize := Max(SCAN_BATCH_SIZE, wanted * 2);
    ghost var all := Select(table, bound, None);
    ghost var p := 0;
    while |output| < wanted
      invariant 0 <= p <= |all|
      invariant Select(table, bound, restart) == all[p..]
      invariant output == Take(Qualifying(all[..p], q, cursor), wanted)
      decreases |all| - p
    {
      var rows := Take(Select(table, bound, restart), batchSize);
      if rows == [] {
        break;
      }
      Advance(table, bound, p, rows);
      output := ScanBatch(rows, wanted, q, cursor, output);
      BatchAdds(all, p, rows, q, cursor, wanted);
      var last := rows[|rows| - 1];
      restart := Some((last.time, last.id));
      p := p + |rows|;
      if |rows| < batchSize {
        break;
      }
    }
    ScanFinished(table, p, q, cursor, wanted);
  }

  lemma ScanFinished(table: seq<Row>, p: nat, q: Query, cursor: Option<Key>, wanted: nat)
    requires p <= |Select(table, BoundOf(cursor), None)|
    requires var all := Select(table, BoundOf(cursor), None);
             p == |all| || |Take(Qualifying(all[..p], q, cursor), wanted)| >= wanted
    ensures Take(Qualifying(Select(table, BoundOf(cursor), None)[..p], q, cursor), wanted)
         == Take(Qualifying(table, q, cursor), wanted)
  {
    var all := Select(table, BoundOf(cursor), None);
    PrefilterLosesNothing(table, q, cursor);
    BatchAdds(all, p, all[p..], q, cursor, wanted);
    assert all[..|all|] == all;
  }

  // ------------------------------------------------------------ merging

  const NEWEST_FIRST: (Item, Item) -> bool := (x: Item, y: Item) => KeyLess(y.key, x.key)

  /** `feed.sort(key=..., reverse=True)` */
  function SortDescending(items: seq<Item>): seq<Item> {
    Sort(NEWEST_FIRST, items)
  }

  /** Merging two descending lists. */
  function Merge(a: seq<Item>, b: seq<Item>): (r: seq<Item>)
    ensures |r| == |a| + |b|
  {
    if a == [] then b
    else if b == [] then a
    else if KeyLess(a[0].key, b[0].key) then [b[0]] + Merge(a, b[1..])
    else [a[0]] + Merge(a[1..], b)
  }

  lemma {:induction false} InsertIntoMerge(x: Item, a: seq<Item>, b: seq<Item>)
    requires Descending([x] + a) && Descending(b)
    ensures Insert(NEWEST_FIRST, x, Merge(a, b)) == Merge([x] + a, b)
  {
    var xs := [x] + a;
    assert xs[1..] == a;
    if a != [] {
      assert KeyLess(xs[1].key, xs[0].key);
    }
    if b != [] && KeyLess(x.key, b[0].key) {
      assert Descending(b[1..]);
      InsertIntoMerge(x, a, b[1..]);
      if a != [] {
        assert KeyLess(a[0].key, b[0].key);
      }
      assert Merge(a, b) == [b[0]] + Merge(a, b[1..]);
    }
  }

  lemma SortOfDescending(items: seq<Item>)
    requires Descending(items)
    ensures SortDescending(items) == items
  {
    SortOfOrdered(NEWEST_FIRST, items);
  }

  lemma SortCons(a: seq<Item>, b: seq<Item>)
    requires a != []
    ensures SortDescending(a + b) == Insert(NEWEST_FIRST, a[0], SortDescending(a[1..] + b))
  {
    assert (a + b)[0] == a[0] && (a + b)[1..] == a[1..] + b;
  }

  /** Sorting the concatenation of two scans is merging them. */
  lemma {:induction false} SortIsMerge(a: seq<Item>, b: seq<Item>)
    requires Descending(a) && Descending(b)
    ensures SortDescending(a + b) == Merge(a, b)
  {
    if a == [] {
      assert a + b == b;
      SortOfDescending(b);
    } else {
      SortCons(a, b);
      assert Descending(a[1..]);
      SortIsMerge(a[1..], b);
      assert [a[0]] + a[1..] == a;
      InsertIntoMerge(a[0], a[1..], b);
    }
  }

  /** The first n of a merge need only the first n of each side. */
  lemma {:induction false} TopOfMerge(a: seq<Item>, b: seq<Item>, i: nat, j: nat, n: nat)
    requires n <= i && n <= j
    ensures Take(Merge(Take(a, i), Take(b, j)), n) == Take(Merge(a, b), n)
    decreases n
  {
    if n > 0 && a != [] && b != [] {
      if KeyLess(a[0].key, b[0].key) {
        TopOfMerge(a, b[1..], i, j - 1, n - 1);
        assert Take(b, j)[1..] == Take(b[1..], j - 1);
        TakeCons(b[0], Merge(Take(a, i), Take(b[1..], j - 1)), Merge(a, b[1..]), n);
      } else {
        TopOfMerge(a[1..], b, i - 1, j, n - 1);
        assert Take(a, i)[1..] == Take(a[1..], i - 1);
        TakeCons(a[0], Merge(Take(a[1..], i - 1), Take(b, j)), Merge(a[1..], b), n);
      }
    }
  }

  lemma TakeCons(x: Item, s: seq<Item>, t: seq<Item>, n: nat)
    requires n > 0 && Take(s, n - 1) == Take(t, n - 1)
    ensures Take([x] + s, n) == Take([x] + t, n)
  {
    assert Take([x] + s, n) == [x] + Take(s, n - 1);
    assert Take([x] + t, n) == [x] + Take(t, n - 1);
  }

  // ------------------------------------------------------------ one page

  /** Both tables, as one fixed snapshot. */
  datatype Database = Database(recommendations: seq<Row>, eventRuns: seq<Row>)

  ghost predicate ValidDatabase(db: Database) {
    && TableOrder(db.recommendations) && (forall r :: r in db.recommendations ==> r.AssetRow?)
    && TableOrder(db.eventRuns) && (forall r :: r in db.eventRuns ==> r.EventRow?)
  }

  predicate ScansAssets(q: Query) { q.kind != OnlyEvents }

  predicate ScansEvents(q: Query) { q.kind != OnlyAssets && q.market == "" && q.rating == "" }

  /** The simple meaning of the whole feed: filter everything, sort it. */
  function FullFeed(db: Database, q: Query): seq<Item> {
    SortDescending(AssetItems(db, q, None) + EventItems(db, q, None))
  }

  function Before(items: seq<Item>, cursor: Option<Key>): seq<Item> {
    if items == [] then []
    else if IsBefore(items[0].key, cursor) then [items[0]] + Before(items[1..], cursor)
    else Before(items[1..], cursor)
  }

  datatype Page = Page(items: seq<Item>, next: Option<string>)

  /** The first `limit` entries, and a cursor at the last of them when there are more. */
  function Cut(codec: Codec, items: seq<Item>, limit: nat): Page
    requires limit >= 1
  {
    Page(Take(items, limit), if |items| > limit then Some(codec.encode(items[limit - 1].key)) else None)
  }

  /** Reading limit + 1 entries is enough to cut a page. */
  lemma CutNeedsOneMore(codec: Codec, a: seq<Item>, b: seq<Item>, limit: nat)
    requires limit >= 1 && Take(a, limit + 1) == Take(b, limit + 1)
    ensures Cut(codec, a, limit) == Cut(codec, b, limit)
  {
    assert Take(a, limit) == Take(Take(a, limit + 1), limit);
    assert Take(b, limit) == Take(Take(b, limit + 1), limit);
    assert |a| > limit <==> |Take(a, limit + 1)| == limit + 1;
    assert |b| > limit <==> |Take(b, limit + 1)| == limit + 1;
    if |a| > limit {
      assert a[limit - 1] == Take(a, limit)[limit - 1] && b[limit - 1] == Take(b, limit)[limit - 1];
    }
  }

  /** The simple meaning of one page: what lies before the cursor, cut at `limit`. */
  function PageOf(codec: Codec, full: seq<Item>, cursor: Option<Key>, limit: nat): Page
    requires limit >= 1
  {
    Cut(codec, Before(full, cursor), limit)
  }

  /** The endpoint reads an absent and an empty cursor alike. */
  function ParseCursor(codec: Codec, cursor: string): Result<Option<Key>, ApiError> {
    if cursor == "" then Ok(None)
    else
      match codec.decode(cursor)
      case Ok(key) => Ok(Some(key))
      case Err(e) => Err(e)
  }

  /** What the two scans together amount to before the cursor. */
  function AssetItems(db: Database, q: Query, cursor: Option<Key>): seq<Item> {
    if ScansAssets(q) then Qualifying(db.recommendations, q, cursor) else []
  }

  function EventItems(db: Database, q: Query, cursor: Option<Key>): seq<Item> {
    if ScansEvents(q) then Qualifying(db.eventRuns, q, cursor) else []
  }

  /** The two scans of one request, each stopping at limit + 1 items. */
  method GatherFeed(db: Database, q: Query, key: Option<Key>, wanted: nat) returns (feed: seq<Item>)
    requires ValidDatabase(db)
    ensures feed == Take(AssetItems(db, q, key), wanted) + Take(EventItems(db, q, key), wanted)
  {
    feed := [];
    if q.kind != OnlyEvents {
      feed := ScanConclusions(db.recommendations, wanted, q, key);
    }
    if q.kind != OnlyAssets && q.market == "" && q.rating == "" {
      var events := ScanConclusions(db.eventRuns, wanted, q, key);
      feed := feed + events;
    }
  }

  /** One request: gather, sort, cut, and encode the last visible key when there is more.
      The answer is the same as cutting the fully filtered and sorted feed. */
  method ListResearchConclusions(codec: Codec, db: Database, q: Query, cursor: string, limit: nat)
    returns (r: Result<Page, ApiError>)
    requires ValidDatabase(db) && limit >= 1
    ensures r == match ParseCursor(codec, cursor)
                 case Err(e) => Err(e)
                 case Ok(key) => Ok(PageOf(codec, FullFeed(db, q), key, limit))
  {
    var key: Option<Key> := None;
    if cursor != "" {
      match codec.decode(cursor) {
        case Err(e) => return Err(e);
        case Ok(k) => key := Some(k);
      }
    }
    assert ParseCursor(codec, cursor) == Ok(key);
    var feed := GatherFeed(db, q, key, limit + 1);
    PageOfScans(codec, db, q, key, limit, feed);
    feed := SortDescending(feed);
    var visible := Take(feed, limit);
    var next: Option<string> := None;
    if |feed| > limit && visible != [] {
      next := Some(codec.encode(visible[|visible| - 1].key));
    }
    return Ok(Page(visible, next));
  }

  /** Items come out of a table in descending order, and exactly the shown rows come out. */
  lemma {:induction false} QualifyingItems(table: seq<Row>, q: Query, cursor: Option<Key>)
    requires TableOrder(table)
    ensures Descending(Qualifying(table, q, cursor))
    ensures forall x :: x in Qualifying(table, q, cursor) <==>
              x.row in table && InStatement(x.row) && ItemOf(x.row, q) == Some(x) && IsBefore(x.key, cursor)
  {
    if table != [] {
      assert TableOrder(table[1..]);
      QualifyingItems(table[1..], q, cursor);
      assert table == [table[0]] + table[1..];
      var rest := Qualifying(table[1..], q, cursor);
      forall i | 0 <= i < |rest|
        ensures KeyLess(rest[i].key, table[0].KeyOf())
      {
        assert rest[i] in rest && rest[i].row in table[1..];
      }
    }
  }

  lemma {:induction false} QualifyingBefore(table: seq<Row>, q: Query, cursor: Option<Key>)
    ensures Qualifying(table, q, cursor) == Before(Qualifying(table, q, None), cursor)
  {
    if table != [] {
      QualifyingBefore(table[1..], q, cursor);
    }
  }

  /** Filtering by the cursor commutes with merging. */
  lemma {:induction false} BeforeMerge(a: seq<Item>, b: seq<Item>, cursor: Option<Key>)
    requires Descending(a) && Descending(b)
    ensures Merge(Before(a, cursor), Before(b, cursor)) == Before(Merge(a, b), cursor)
  {
    if a != [] && b != [] {
      if KeyLess(a[0].key, b[0].key) {
        BeforeMerge(a, b[1..], cursor);
        BeforeHead(a, cursor);
      } else {
        BeforeMerge(a[1..], b, cursor);
        BeforeHead(b, cursor);
      }
    }
  }

  /** Before keeps a suffix of a descending list. */
  lemma {:induction false} BeforeHead(items: seq<Item>, cursor: Option<Key>)
    requires Descending(items)
    ensures items != [] && IsBefore(items[0].key, cursor) ==> Before(items, cursor) == items
    ensures Before(items, cursor) != [] ==> Before(items, cursor)[0] in items && IsBefore(Before(items, cursor)[0].key, cursor)
  {
    if items != [] {
      BeforeHead(items[1..], cursor);
    }
  }

  lemma ScansDescend(db: Database, q: Query, cursor: Option<Key>)
    requires ValidDatabase(db)
    ensures Descending(AssetItems(db, q, cursor)) && Descending(EventItems(db, q, cursor))
    ensures AssetItems(db, q, cursor) == Before(AssetItems(db, q, None), cursor)
    ensures EventItems(db, q, cursor) == Before(EventItems(db, q, None), cursor)
  {
    QualifyingItems(db.recommendations, q, cursor);
    QualifyingItems(db.eventRuns, q, cursor);
    QualifyingBefore(db.recommendations, q, cursor);
    QualifyingBefore(db.eventRuns, q, cursor);
  }

  lemma FullFeedIsMerge(db: Database, q: Query)
    requires ValidDatabase(db)
    ensures FullFeed(db, q) == Merge(AssetItems(db, q, None), EventItems(db, q, None))
  {
    ScansDescend(db, q, None);
    SortIsMerge(AssetItems(db, q, None), EventItems(db, q, None));
  }

  /** What sorting the truncated scans yields. */
  lemma FeedOfScans(db: Database, q: Query, cursor: Option<Key>, n: nat)
    requires ValidDatabase(db)
    ensures Take(SortDescending(Take(AssetItems(db, q, cursor), n) + Take(EventItems(db, q, cursor), n)), n)
         == Take(Before(FullFeed(db, q), cursor), n)
  {
    ScansDescend(db, q, None);
    ScansDescend(db, q, cursor);
    var a, b := AssetItems(db, q, cursor), EventItems(db, q, cursor);
    BeforeMerge(AssetItems(db, q, None), EventItems(db, q, None), cursor);
    FullFeedIsMerge(db, q);
    SortIsMerge(Take(a, n), Take(b, n));
    TopOfMerge(a, b, n, n, n);
  }

  /** The page cut from the sorted scans is the page of the full feed. */
  lemma PageOfScans(codec: Codec, db: Database, q: Query, cursor: Option<Key>, limit: nat, scans: seq<Item>)
    requires ValidDatabase(db) && limit >= 1
    requires scans == Take(AssetItems(db, q, cursor), limit + 1) + Take(EventItems(db, q, cursor), limit + 1)
    ensures Cut(codec, SortDescending(scans), limit) == PageOf(codec, FullFeed(db, q), cursor, limit)
  {
    FeedOfScans(db, q, cursor, limit + 1);
    CutNeedsOneMore(codec, SortDescending(scans), Before(FullFeed(db, q), cursor), limit);
  }

  /** The item is what some row that a scan reads shows as. */
  ghost predicate Shown(db: Database, q: Query, x: Item) {
    && InStatement(x.row) && ItemOf(x.row, q) == Some(x)
    && ((ScansAssets(q) && x.row in db.recommendations) || (ScansEvents(q) && x.row in db.eventRuns))
  }

  lemma ScannedItems(db: Database, q: Query)
    requires ValidDatabase(db)
    ensures forall x :: x in AssetItems(db, q, None) || x in EventItems(db, q, None) <==> Shown(db, q, x)
    ensures forall x :: x in AssetItems(db, q, None) ==> x.key.kind == Asset
    ensures forall x :: x in EventItems(db, q, None) ==> x.key.kind == Event
  {
    QualifyingItems(db.recommendations, q, None);
    QualifyingItems(db.eventRuns, q, None);
  }

  /** The full feed is strictly descending, and holds exactly the rows the filters show. */
  lemma FullFeedIsComplete(db: Database, q: Query)
    requires ValidDatabase(db)
    ensures Descending(FullFeed(db, q))
    ensures forall x :: x in FullFeed(db, q) <==> Shown(db, q, x)
  {
    ScansDescend(db, q, None);
    FullFeedIsMerge(db, q);
    ScannedItems(db, q);
    MergeItems(AssetItems(db, q, None), EventItems(db, q, None));
    MergeMembers(AssetItems(db, q, None), EventItems(db, q, None));
  }

  lemma DescendingCons(x: Item, rest: seq<Item>)
    requires Descending(rest) && forall y :: y in rest ==> KeyLess(y.key, x.key)
    ensures Descending([x] + rest)
  {
    forall j | 0 <= j < |rest|
      ensures KeyLess(rest[j].key, x.key)
    {
      assert rest[j] in rest;
    }
  }

  lemma {:induction false} MergeMembers(a: seq<Item>, b: seq<Item>)
    ensures forall x :: x in Merge(a, b) <==> x in a || x in b
  {
    if a != [] && b != [] {
      if KeyLess(a[0].key, b[0].key) {
        MergeMembers(a, b[1..]);
        assert b == [b[0]] + b[1..];
      } else {
        MergeMembers(a[1..], b);
        assert a == [a[0]] + a[1..];
      }
    }
  }

  /** The head of a descending list is above every other entry. */
  lemma HeadIsTop(a: seq<Item>)
    requires Descending(a) && a != []
    ensures Descending(a[1..]) && forall x :: x in a[1..] ==> KeyLess(x.key, a[0].key)
  {
  }

  lemma {:induction false} MergeItems(a: seq<Item>, b: seq<Item>)
    requires Descending(a) && Descending(b)
    requires forall x :: x in a ==> x.key.kind == Asset
    requires forall x :: x in b ==> x.key.kind == Event
    ensures Descending(Merge(a, b))
  {
    if a != [] && b != [] {
      HeadIsTop(a);
      HeadIsTop(b);
      assert a == [a[0]] + a[1..] && b == [b[0]] + b[1..];
      if KeyLess(a[0].key, b[0].key) {
        MergeItems(a, b[1..]);
        MergeMembers(a, b[1..]);
        DescendingCons(b[0], Merge(a, b[1..]));
      } else {
        MergeItems(a[1..], b);
        MergeMembers(a[1..], b);
        assert a[0].key.kind != b[0].key.kind;
        DescendingCons(a[0], Merge(a[1..], b));
      }
    }
  }

  // ------------------------------------------------------------ what the feed shows

  const NoFilter := Query(AllKinds, "", "", "", "")

  /** The row is in the feed, under its own time, kind and id. */
  ghost predicate InFeed(feed: seq<Item>, row: Row) {
    Item(Key(row.time, if row.AssetRow? then Asset else Event, row.id), row) in feed
  }

  lemma ShownInFeed(db: Database, q: Query, row: Row)
    requires ValidDatabase(db)
    ensures InFeed(FullFeed(db, q), row) <==> Shown(db, q, Item(row.KeyOf(), row))
    ensures forall x :: x in FullFeed(db, q) ==> x == Item(x.row.KeyOf(), x.row)
  {
    FullFeedIsComplete(db, q);
  }

  /** Without filters an asset row is in the feed exactly when it is in its table and its run need not
      be retried; an event row exactly when, moreover, it has a report, one of the six statuses, and is
      finished or shown again by a refresh. Every entry of the feed is such a row. */
  lemma UnfilteredFeed(db: Database, row: Row)
    requires ValidDatabase(db)
    ensures row.AssetRow? ==> (InFeed(FullFeed(db, NoFilter), row) <==> row in db.recommendations && !row.retryable)
    ensures row.EventRow? ==>
              (InFeed(FullFeed(db, NoFilter), row) <==>
                && row in db.eventRuns && !row.retryable && row.report.Some?
                && row.status in {"completed", "insufficient_evidence", "queued", "running", "verifying", "failed"}
                && (row.status == "completed" || row.status == "insufficient_evidence" || row.refresh))
    ensures forall x :: x in FullFeed(db, NoFilter) ==> InFeed(FullFeed(db, NoFilter), x.row) && x == Item(x.row.KeyOf(), x.row)
  {
    ShownInFeed(db, NoFilter, row);
    FullFeedIsComplete(db, NoFilter);
  }

  /** The text occurs in the row's searchable text: the summary line of a recommendation, or the
      headline, summary, markets and sectors of a report. */
  ghost predicate Mentions(row: Row, text: string) {
    match row
    case AssetRow(_, _, _, _, _, _, searchable) => exists before, after :: searchable == before + text + after
    case EventRow(_, _, _, _, report, _) => report.Some? && exists before, after :: report.value.searchable == before + text + after
  }

  predicate HasAllEvidence(row: Row) {
    if row.AssetRow? then row.evidenceComplete else row.report.Some? && row.report.value.evidenceComplete
  }

  lemma ContainsMeansOccurs(text: string, part: string)
    ensures Contains(text, part) <==> exists before, after :: text == before + part + after
  {
    if Contains(text, part) {
      var i :| 0 <= i <= |text| && part <= text[i..];
      assert text == text[..i] + part + text[i + |part|..];
    }
    if exists before, after :: text == before + part + after {
      var before, after :| text == before + part + after;
      assert text[|before|..] == part + after;
    }
  }

  /** Each filter cuts the unfiltered feed to the rows with that kind, market, rating, evidence or text;
      all filters together cut it to the rows that have all of these. */
  lemma FiltersCut(db: Database, q: Query, row: Row)
    requires ValidDatabase(db)
    ensures InFeed(FullFeed(db, q), row) <==>
              && InFeed(FullFeed(db, NoFilter), row)
              && (q.kind == AllKinds || (q.kind == OnlyAssets && row.AssetRow?) || (q.kind == OnlyEvents && row.EventRow?))
              && (q.market != "" ==> row.AssetRow? && row.market == q.market)
              && (q.rating != "" ==> row.AssetRow? && row.rating == q.rating)
              && (q.evidence == "complete" ==> HasAllEvidence(row))
              && (q.evidence == "incomplete" ==> !HasAllEvidence(row))
              && (q.text != "" ==> Mentions(row, q.text))
  {
    ShownInFeed(db, q, row);
    ShownInFeed(db, NoFilter, row);
    if row.AssetRow? {
      ContainsMeansOccurs(row.searchable, q.text);
    } else if row.report.Some? {
      ContainsMeansOccurs(row.report.value.searchable, q.text);
    }
  }

  /** The feeds of complete and of incomplete evidence divide the feed between them. */
  lemma EvidenceDivides(db: Database, q: Query, row: Row)
    requires ValidDatabase(db) && q.evidence == ""
    ensures InFeed(FullFeed(db, q), row)
            <==> (InFeed(FullFeed(db, q.(evidence := "complete")), row) || InFeed(FullFeed(db, q.(evidence := "incomplete")), row))
    ensures !(InFeed(FullFeed(db, q.(evidence := "complete")), row) && InFeed(FullFeed(db, q.(evidence := "incomplete")), row))
  {
    FiltersCut(db, q, row);
    FiltersCut(db, q.(evidence := "complete"), row);
    FiltersCut(db, q.(evidence := "incomplete"), row);
  }

  /** Newest first; at the same time assets before events, and greater ids first. */
  lemma FeedOrder(db: Database, q: Query, i: nat, j: nat)
    requires ValidDatabase(db) && i < j < |FullFeed(db, q)|
    ensures var x, y := FullFeed(db, q)[i].row, FullFeed(db, q)[j].row;
            || y.time < x.time
            || (y.time == x.time && x.AssetRow? && y.EventRow?)
            || (y.time == x.time && x.AssetRow? == y.AssetRow? && y.id < x.id)
  {
    FullFeedIsComplete(db, q);
    assert FullFeed(db, q)[i] in FullFeed(db, q) && FullFeed(db, q)[j] in FullFeed(db, q);
  }

  // ------------------------------------------------------------ following the cursors

  /** Before keeps exactly the part of a descending list after the cursor's own entry. */
  lemma {:induction false} BeforeEntry(full: seq<Item>, p: nat)
    requires Descending(full) && p < |full|
    ensures Before(full, Some(full[p].key)) == full[p + 1..]
  {
    if p > 0 {
      assert KeyLess(full[p].key, full[0].key);
      BeforeEntry(full[1..], p - 1);
    } else if |full| > 1 {
      assert KeyLess(full[1].key, full[0].key);
      assert Descending(full[1..]);
      BeforeHead(full[1..], Some(full[0].key));
    }
  }

  /** The cursor stands at position p of the feed: the entries before it are full[p..]. */
  ghost predicate StandsAt(codec: Codec, full: seq<Item>, cursor: string, p: nat) {
    p <= |full| && ParseCursor(codec, cursor).Ok? && Before(full, ParseCursor(codec, cursor).value) == full[p..]
  }

  function PageAt(codec: Codec, full: seq<Item>, limit: nat, cursor: string): Page
    requires limit >= 1 && ParseCursor(codec, cursor).Ok?
  {
    PageOf(codec, full, ParseCursor(codec, cursor).value, limit)
  }

  /** One page advances the client by exactly the entries it shows. */
  lemma PageStep(codec: Codec, full: seq<Item>, limit: nat, cursor: string, p: nat)
    requires RoundTrips(codec) && Descending(full) && limit >= 1 && StandsAt(codec, full, cursor, p)
    ensures var page := PageAt(codec, full, limit, cursor);
            && page.items == full[p..Min(p + limit, |full|)]
            && (page.next.None? <==> |full| <= p + limit)
            && (page.next.Some? ==> StandsAt(codec, full, page.next.value, p + limit))
  {
    if p + limit < |full| {
      BeforeEntry(full, p + limit - 1);
    }
  }

  /** The pages a client sees when it follows `next_cursor` from position p of the feed. */
  ghost function Follow(codec: Codec, full: seq<Item>, limit: nat, cursor: string, p: nat): seq<Page>
    requires RoundTrips(codec) && Descending(full) && limit >= 1 && StandsAt(codec, full, cursor, p)
    decreases |full| - p
  {
    PageStep(codec, full, limit, cursor, p);
    var page := PageAt(codec, full, limit, cursor);
    [page] + if page.next.None? then [] else Follow(codec, full, limit, page.next.value, p + limit)
  }

  function Items(pages: seq<Page>): seq<Item> {
    if pages == [] then [] else pages[0].items + Items(pages[1..])
  }

  ghost predicate ChainOfPages(pages: seq<Page>, limit: nat) {
    && pages != []
    && (forall i :: 0 <= i < |pages| - 1 ==> |pages[i].items| == limit)
    && (forall i :: 0 <= i < |pages| ==> (pages[i].next.None? <==> i == |pages| - 1))
  }

  lemma ChainCons(page: Page, rest: seq<Page>, limit: nat)
    requires page.next.Some? && |page.items| == limit && ChainOfPages(rest, limit)
    ensures ChainOfPages([page] + rest, limit)
  {
  }

  lemma ItemsCons(page: Page, rest: seq<Page>)
    ensures Items([page] + rest) == page.items + Items(rest)
  {
    assert ([page] + rest)[1..] == rest;
  }

  lemma {:induction false} FollowIsChain(codec: Codec, full: seq<Item>, limit: nat, cursor: string, p: nat)
    requires RoundTrips(codec) && Descending(full) && limit >= 1 && StandsAt(codec, full, cursor, p)
    ensures ChainOfPages(Follow(codec, full, limit, cursor, p), limit)
    decreases |full| - p
  {
    PageStep(codec, full, limit, cursor, p);
    var page := PageAt(codec, full, limit, cursor);
    if page.next.Some? {
      FollowIsChain(codec, full, limit, page.next.value, p + limit);
      ChainCons(page, Follow(codec, full, limit, page.next.value, p + limit), limit);
    }
  }

  lemma SplitSuffix(full: seq<Item>, p: nat, q: nat)
    requires p <= q <= |full|
    ensures full[p..q] + full[q..] == full[p..]
  {
  }

  lemma {:induction false} FollowFrom(codec: Codec, full: seq<Item>, limit: nat, cursor: string, p: nat)
    requires RoundTrips(codec) && Descending(full) && limit >= 1 && StandsAt(codec, full, cursor, p)
    ensures Items(Follow(codec, full, limit, cursor, p)) == full[p..]
    decreases |full| - p
  {
    hide Before, PageOf, ParseCursor, Descending, RoundTrips;
    PageStep(codec, full, limit, cursor, p);
    var page := PageAt(codec, full, limit, cursor);
    if page.next.Some? {
      FollowFrom(codec, full, limit, page.next.value, p + limit);
      ItemsCons(page, Follow(codec, full, limit, page.next.value, p + limit));
      SplitSuffix(full, p, p + limit);
    } else {
      ItemsCons(page, []);
      assert page.items == full[p..];
    }
  }

  /** Following `next_cursor` from the start ends, misses nothing and repeats nothing: the
      pages concatenate to the full feed in descending order, every page but the last is
      full, and `next_cursor` is null exactly on the last page. */
  lemma PagesCoverTheFeed(codec: Codec, db: Database, q: Query, limit: nat)
    requires RoundTrips(codec) && ValidDatabase(db) && limit >= 1
    ensures Descending(FullFeed(db, q)) && StandsAt(codec, FullFeed(db, q), "", 0)
    ensures Items(Follow(codec, FullFeed(db, q), limit, "", 0)) == FullFeed(db, q)
    ensures ChainOfPages(Follow(codec, FullFeed(db, q), limit, "", 0), limit)
  {
    var full := FullFeed(db, q);
    FullFeedIsComplete(db, q);
    BeforeHead(full, None);
    FollowFrom(codec, full, limit, "", 0);
    FollowIsChain(codec, full, limit, "", 0);
  }
}
