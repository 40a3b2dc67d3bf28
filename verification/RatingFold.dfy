/** The one-pass fold that finds, for every asset, its latest rating change. */
module RatingFold {
  import opened Common
  import opened Sorting

  /** A stored recommendation. */
  datatype Recommendation = Recommendation(assetId: string, asOf: int, id: Uuid, rating: string)

  /** An emitted change: the two neighbours that differ, and the asset's latest recommendation. */
  datatype Change = Change(previous: Recommendation, changed: Recommendation, latest: Recommendation)

  // ------------------------------------------------------------ meaning

  /** The recommendations of one asset, in row order (time, then id). */
  function History(rows: seq<Recommendation>, asset: string): (h: seq<Recommendation>)
    ensures forall r :: r in h <==> r in rows && r.assetId == asset
  {
    if rows == [] then []
    else
      var n := |rows| - 1;
      assert rows == rows[..n] + [rows[n]];
      History(rows[..n], asset) + if rows[n].assetId == asset then [rows[n]] else []
  }

  /** Position k of a history is a change: it differs from its predecessor. */
  predicate ChangesAt(h: seq<Recommendation>, k: nat) {
    1 <= k < |h| && h[k - 1].rating != h[k].rating
  }

  /** The last position at which the rating changes, or 0 when it never does. */
  function LastChange(h: seq<Recommendation>): (k: nat)
    ensures k == 0 || ChangesAt(h, k)
    ensures forall i :: k < i < |h| ==> !ChangesAt(h, i)
    ensures k == 0 ==> forall i :: 0 <= i < |h| ==> !ChangesAt(h, i)
  {
    if |h| < 2 then 0
    else if ChangesAt(h, |h| - 1) then |h| - 1
    else
      var k := LastChange(h[..|h| - 1]);
      assert forall i :: 0 <= i < |h| - 1 ==> (ChangesAt(h, i) <==> ChangesAt(h[..|h| - 1], i));
      k
  }

  /** What the fold must emit for a history. */
  function ChangeOf(h: seq<Recommendation>): Option<Change> {
    var k := LastChange(h);
    if k == 0 then None else Some(Change(h[k - 1], h[k], h[|h| - 1]))
  }

  /** The change is what some asset's history calls for. */
  ghost predicate MustEmit(rows: seq<Recommendation>, c: Change) {
    exists a :: ChangeOf(History(rows, a)) == Some(c)
  }

  /** The rating changes at position k, and stays from then on. */
  predicate LastChangeAt(h: seq<Recommendation>, k: nat) {
    1 <= k < |h| && h[k - 1].rating != h[k].rating && forall l :: k <= l < |h| ==> h[l].rating == h[k].rating
  }

  /** An asset is emitted exactly when two neighbouring ratings of its history differ, and then
      the emitted new rating is the asset's latest rating. */
  lemma {:induction false} ChangeOfMeaning(h: seq<Recommendation>)
    ensures ChangeOf(h).None? <==> forall k :: 1 <= k < |h| ==> h[k - 1].rating == h[k].rating
    ensures ChangeOf(h).Some? ==>
              exists k: nat :: LastChangeAt(h, k) && ChangeOf(h).value == Change(h[k - 1], h[k], h[|h| - 1])
    ensures ChangeOf(h).Some? ==> ChangeOf(h).value.changed.rating == h[|h| - 1].rating
  {
    var k := LastChange(h);
    if k > 0 {
      forall l | k <= l < |h|
        ensures h[l].rating == h[k].rating
      {
        RatingStays(h, k, l);
      }
      assert LastChangeAt(h, k);
    } else {
      forall l | 1 <= l < |h|
        ensures h[l - 1].rating == h[l].rating
      {
        assert !ChangesAt(h, l);
      }
    }
  }

  lemma {:induction false} RatingStays(h: seq<Recommendation>, k: nat, n: nat)
    requires k <= n < |h| && forall i :: k < i < |h| ==> !ChangesAt(h, i)
    ensures h[n].rating == h[k].rating
  {
    if k < n {
      RatingStays(h, k, n - 1);
      assert !ChangesAt(h, n);
    }
  }

  // ------------------------------------------------------------ the fold

  predicate Later(a: Change, b: Change) {
    a.changed.asOf > b.changed.asOf || (a.changed.asOf == b.changed.asOf && a.changed.id > b.changed.id)
  }

  /** By the time of the change, and at the same time by its id, the greater first. */
  predicate NewestFirst(output: seq<Change>) {
    forall i, j :: 0 <= i < j < |output| ==>
      output[i].changed.asOf > output[j].changed.asOf
      || (output[i].changed.asOf == output[j].changed.asOf && output[i].changed.id >= output[j].changed.id)
  }

  const LATEST_FIRST: (Change, Change) -> bool := (a: Change, b: Change) => Later(a, b)

  type Ratings = map<string, Recommendation>
  type Changes = map<string, (Recommendation, Recommendation)>

  /** The dictionaries say about asset a what its history so far says. */
  ghost predicate FoldedAsset(h: seq<Recommendation>, a: string, previous: Ratings, latest: Ratings, change: Changes) {
    && (a in previous <==> h != []) && (a in latest <==> h != [])
    && (h != [] ==> previous[a] == h[|h| - 1] && latest[a] == h[|h| - 1])
    && (a in change <==> ChangeOf(h).Some?)
    && (a in change ==> change[a] == (ChangeOf(h).value.previous, ChangeOf(h).value.changed))
  }

  ghost predicate Folded(rows: seq<Recommendation>, previous: Ratings, latest: Ratings, change: Changes) {
    forall a :: FoldedAsset(History(rows, a), a, previous, latest, change)
  }

  lemma ChangeOfSnoc(h: seq<Recommendation>, r: Recommendation)
    ensures ChangeOf(h + [r]) ==
            if h != [] && h[|h| - 1].rating != r.rating then Some(Change(h[|h| - 1], r, r))
            else match ChangeOf(h) case None => None case Some(c) => Some(c.(latest := r))
  {
    assert (h + [r])[..|h|] == h;
  }

  /** One row updates the dictionaries as its asset's history grows. */
  lemma FoldStep(rows: seq<Recommendation>, i: nat, previous: Ratings, latest: Ratings, change: Changes)
    requires i < |rows| && Folded(rows[..i], previous, latest, change)
    ensures var r := rows[i];
            Folded(rows[..i + 1], previous[r.assetId := r], latest[r.assetId := r],
                   if r.assetId in previous && previous[r.assetId].rating != r.rating
                   then change[r.assetId := (previous[r.assetId], r)] else change)
  {
    var r := rows[i];
    var change' := if r.assetId in previous && previous[r.assetId].rating != r.rating
                   then change[r.assetId := (previous[r.assetId], r)] else change;
    assert rows[..i + 1][..i] == rows[..i];
    var rows', previous', latest' := rows[..i + 1], previous[r.assetId := r], latest[r.assetId := r];
    forall a
      ensures FoldedAsset(History(rows', a), a, previous', latest', change')
    {
      var h := History(rows[..i], a);
      assert FoldedAsset(h, a, previous, latest, change);
      if a == r.assetId {
        assert History(rows', a) == h + [r];
        ChangeOfSnoc(h, r);
      } else {
        assert History(rows', a) == h;
      }
    }
  }

  /** Emits every asset whose rating ever changed, once, with its last change and its latest
      recommendation, newest change first. */
  method LatestChangedTargets(rows: seq<Recommendation>) returns (output: seq<Change>)
    ensures forall c :: c in output <==> MustEmit(rows, c)
    ensures forall c :: multiset(output)[c] <= 1
    ensures Ordered(LATEST_FIRST, output) && NewestFirst(output)
  {
    var previous: Ratings := map[];
    var latest: Ratings := map[];
    var change: Changes := map[];
    for i := 0 to |rows|
      invariant Folded(rows[..i], previous, latest, change)
    {
      var current := rows[i];
      FoldStep(rows, i, previous, latest, change);
      if current.assetId in previous && previous[current.assetId].rating != current.rating {
        change := change[current.assetId := (previous[current.assetId], current)];
      }
      previous := previous[current.assetId := current];
      latest := latest[current.assetId := current];
    }
    assert rows[..|rows|] == rows;
    var collected := CollectChanges(rows, previous, latest, change);
    SortMembers(LATEST_FIRST, collected);
    SortPermutes(LATEST_FIRST, collected);
    SortOrders(LATEST_FIRST, collected);
    output := Sort(LATEST_FIRST, collected);
    assert forall c :: c in output <==> c in collected;
  }

  /** The list comprehension over the items of the change dictionary, in any order. */
  method CollectChanges(rows: seq<Recommendation>, ghost previous: Ratings, latest: Ratings, change: Changes)
    returns (output: seq<Change>)
    requires Folded(rows, previous, latest, change)
    ensures forall c :: c in output <==> MustEmit(rows, c)
    ensures forall c :: multiset(output)[c] <= 1
  {
    output := [];
    var pending := change.Keys;
    while pending != {}
      invariant pending <= change.Keys
      invariant forall c :: c in output <==> c.changed.assetId in change.Keys - pending && ChangeOf(History(rows, c.changed.assetId)) == Some(c)
      invariant forall c :: multiset(output)[c] <= 1
      decreases pending
    {
      var a :| a in pending;
      assert FoldedAsset(History(rows, a), a, previous, latest, change);
      ChangeIsOfAsset(rows, a);
      output := output + [Change(change[a].0, change[a].1, latest[a])];
      pending := pending - {a};
    }
    forall c
      ensures c in output <==> MustEmit(rows, c)
    {
      assert FoldedAsset(History(rows, c.changed.assetId), c.changed.assetId, previous, latest, change);
      forall a | ChangeOf(History(rows, a)) == Some(c)
        ensures a == c.changed.assetId
      {
        ChangeIsOfAsset(rows, a);
      }
    }
  }

  lemma ChangeIsOfAsset(rows: seq<Recommendation>, a: string)
    requires ChangeOf(History(rows, a)).Some?
    ensures ChangeOf(History(rows, a)).value.changed.assetId == a
  {
    var h := History(rows, a);
    assert h[LastChange(h)] in h;
  }
}
