/** Rating changes of macro and commodity targets: grouping the impacts of each report by target,
    the per-target fold, the weighted observation, and the merge with the asset changes. */
module TargetChanges {
  import opened Common
  import opened Sorting
  import opened RatingFold
  import opened RealArithmetic

  datatype Impact = Impact(
    key: string,
    rating: string,
    score: real,
    confidence: real,
    persistence: real,
    realization: real,
    evidence: nat,
    missing: nat,
    name: string,
    technicalFailure: bool)

  /** A visible event report with its impacts, in the order (changedAt, id) of the query. */
  datatype Run = Run(changedAt: int, id: Uuid, impacts: seq<Impact>)

  // ------------------------------------------------------------ grouping by target

  /** The impacts of one report on one target. */
  function Group(impacts: seq<Impact>, key: string): (g: seq<Impact>)
    ensures g != [] <==> exists x :: x in impacts && x.key == key
    ensures forall x :: x in g ==> x in impacts && x.key == key
  {
    if impacts == [] then []
    else
      var last := impacts[|impacts| - 1];
      assert impacts == impacts[..|impacts| - 1] + [last];
      Group(impacts[..|impacts| - 1], key) + if last.key == key then [last] else []
  }

  /** Ranks by confidence, then evidence, then completeness, then name. */
  predicate Outranks(a: Impact, b: Impact) {
    || a.confidence > b.confidence
    || (a.confidence == b.confidence
        && (a.evidence > b.evidence
            || (a.evidence == b.evidence && (a.missing < b.missing || (a.missing == b.missing && TextLess(b.name, a.name))))))
  }

  /** `max(impacts, key=...)`: the first impact that no other one outranks. */
  function Representative(impacts: seq<Impact>): (r: Impact)
    requires impacts != []
    ensures r in impacts
  {
    if |impacts| == 1 then impacts[0]
    else
      var best, last := Representative(impacts[..|impacts| - 1]), impacts[|impacts| - 1];
      if Outranks(last, best) then last else best
  }

  /** No impact has more confidence than the representative; among equally confident ones none has more
      evidence, then none fewer gaps, then none a later name. Of those that tie it is the first. */
  ghost predicate Represents(impacts: seq<Impact>, r: Impact) {
    && (forall x :: x in impacts ==>
          && x.confidence <= r.confidence
          && (x.confidence == r.confidence ==> x.evidence <= r.evidence)
          && (x.confidence == r.confidence && x.evidence == r.evidence ==> x.missing >= r.missing)
          && (x.confidence == r.confidence && x.evidence == r.evidence && x.missing == r.missing ==> !TextLess(r.name, x.name)))
    && exists i :: 0 <= i < |impacts| && impacts[i] == r
                   && forall j :: 0 <= j < i ==>
                        !(impacts[j].confidence == r.confidence && impacts[j].evidence == r.evidence
                          && impacts[j].missing == r.missing && impacts[j].name == r.name)
  }

  lemma RankTransitive(a: Impact, b: Impact, c: Impact)
    ensures Outranks(a, b) && !Outranks(c, b) ==> Outranks(a, c)
    ensures Outranks(a, b) ==> !Outranks(b, a)
    ensures !Outranks(a, b) && !Outranks(b, a) ==> a.confidence == b.confidence && a.evidence == b.evidence && a.missing == b.missing && a.name == b.name
  {
    TextLessTotal(a.name, b.name);
    TextLessTotal(b.name, c.name);
    TextLessTransitive(b.name, a.name, c.name);
    TextLessTransitive(c.name, b.name, a.name);
    hide TextLess;
  }

  lemma {:induction false} RepresentativeRanks(impacts: seq<Impact>) returns (i: nat)
    requires impacts != []
    ensures i < |impacts| && impacts[i] == Representative(impacts)
    ensures forall j :: 0 <= j < |impacts| ==> !Outranks(impacts[j], impacts[i])
    ensures forall j :: 0 <= j < i ==> Outranks(impacts[i], impacts[j])
  {
    hide Outranks;
    var n := |impacts| - 1;
    if n == 0 {
      i := 0;
      RankTransitive(impacts[0], impacts[0], impacts[0]);
    } else {
      i := RepresentativeRanks(impacts[..n]);
      var best, last := impacts[i], impacts[n];
      assert best == Representative(impacts[..n]);
      RankTransitive(last, last, last);
      if Outranks(last, best) {
        forall j | 0 <= j < n
          ensures Outranks(last, impacts[j]) && !Outranks(impacts[j], last)
        {
          assert impacts[..n][j] == impacts[j];
          RankTransitive(last, best, impacts[j]);
          RankTransitive(last, impacts[j], last);
        }
        i := n;
      } else {
        assert forall j :: 0 <= j < n ==> impacts[..n][j] == impacts[j];
      }
    }
  }

  lemma RepresentativeMeans(impacts: seq<Impact>)
    requires impacts != []
    ensures Represents(impacts, Representative(impacts))
  {
    var i := RepresentativeRanks(impacts);
    var r := impacts[i];
    forall x | x in impacts
      ensures !Outranks(x, r)
    {
      var j :| 0 <= j < |impacts| && impacts[j] == x;
    }
    forall j | 0 <= j < i
      ensures !(impacts[j].confidence == r.confidence && impacts[j].evidence == r.evidence
                && impacts[j].missing == r.missing && impacts[j].name == r.name)
    {
      assert Outranks(r, impacts[j]);
      TextLessTotal(r.name, impacts[j].name);
    }
    hide Representative, TextLess;
  }

  function SnapshotOf(run: Run, key: string): Recommendation
    requires Group(run.impacts, key) != []
  {
    Recommendation(key, run.changedAt, run.id, Representative(Group(run.impacts, key)).rating)
  }

  /** The history of one target: a snapshot for every report that mentions it, in report order. */
  function Snapshots(runs: seq<Run>, key: string): seq<Recommendation> {
    if runs == [] then []
    else
      var last := runs[|runs| - 1];
      Snapshots(runs[..|runs| - 1], key) + if Group(last.impacts, key) != [] then [SnapshotOf(last, key)] else []
  }

  type Groups = map<string, seq<Impact>>
  type Histories = map<string, seq<Recommendation>>

  ghost predicate GroupsOf(groups: Groups, impacts: seq<Impact>) {
    forall key :: (key in groups <==> Group(impacts, key) != []) && (key in groups ==> groups[key] == Group(impacts, key))
  }

  ghost predicate HistoriesOf(histories: Histories, runs: seq<Run>) {
    forall key :: (key in histories <==> Snapshots(runs, key) != []) && (key in histories ==> histories[key] == Snapshots(runs, key))
  }

  lemma GroupStep(groups: Groups, impacts: seq<Impact>, x: Impact)
    requires GroupsOf(groups, impacts)
    ensures GroupsOf(groups[x.key := (if x.key in groups then groups[x.key] else []) + [x]], impacts + [x])
  {
    hide Group;
    var after := groups[x.key := (if x.key in groups then groups[x.key] else []) + [x]];
    forall key
      ensures (key in after <==> Group(impacts + [x], key) != []) && (key in after ==> after[key] == Group(impacts + [x], key))
    {
      GroupSnoc(impacts, x, key);
    }
  }

  /** A target's impacts stand in report order, each once. */
  lemma GroupSnoc(impacts: seq<Impact>, x: Impact, key: string)
    ensures Group(impacts + [x], key) == Group(impacts, key) + if x.key == key then [x] else []
    ensures Group([], key) == []
  {
    assert (impacts + [x])[..|impacts|] == impacts;
  }

  method GroupImpacts(impacts: seq<Impact>) returns (groups: Groups)
    ensures GroupsOf(groups, impacts)
  {
    hide GroupsOf;
    groups := map[];
    assert GroupsOf(groups, impacts[..0]) by {
      hide *;
      NoGroups();
      assert impacts[..0] == [];
    }
    for i := 0 to |impacts|
      invariant GroupsOf(groups, impacts[..i])
    {
      var x := impacts[i];
      assert impacts[..i + 1] == impacts[..i] + [x];
      GroupStep(groups, impacts[..i], x);
      groups := groups[x.key := (if x.key in groups then groups[x.key] else []) + [x]];
    }
    assert impacts[..|impacts|] == impacts;
  }

  /** What one report's groups add to the histories; `pending` are the keys still to do. */
  ghost predicate Halfway(histories: Histories, runs: seq<Run>, run: Run, pending: set<string>) {
    forall key ::
      var h := if key in pending then Snapshots(runs, key) else Snapshots(runs + [run], key);
      (key in histories <==> h != []) && (key in histories ==> histories[key] == h)
  }

  lemma SnapshotsSnoc(runs: seq<Run>, run: Run, key: string)
    ensures Snapshots(runs + [run], key)
            == Snapshots(runs, key) + if Group(run.impacts, key) != [] then [SnapshotOf(run, key)] else []
  {
    assert (runs + [run])[..|runs|] == runs;
  }

  lemma NoGroups()
    ensures GroupsOf(map[], [])
  {
  }

  lemma HalfwayStep(histories: Histories, runs: seq<Run>, run: Run, pending: set<string>, key: string)
    requires key in pending && Group(run.impacts, key) != [] && Halfway(histories, runs, run, pending)
    ensures Halfway(histories[key := (if key in histories then histories[key] else []) + [SnapshotOf(run, key)]],
                    runs, run, pending - {key})
  {
    hide Snapshots, Group, SnapshotOf;
    var after := histories[key := (if key in histories then histories[key] else []) + [SnapshotOf(run, key)]];
    SnapshotsSnoc(runs, run, key);
  }

  lemma HalfwayStart(histories: Histories, runs: seq<Run>, run: Run, keys: set<string>)
    requires HistoriesOf(histories, runs) && forall key :: key in keys <==> Group(run.impacts, key) != []
    ensures Halfway(histories, runs, run, keys)
  {
    hide Snapshots, Group;
    forall key
      ensures var h := if key in keys then Snapshots(runs, key) else Snapshots(runs + [run], key);
              (key in histories <==> h != []) && (key in histories ==> histories[key] == h)
    {
      SnapshotsSnoc(runs, run, key);
    }
  }

  lemma HalfwayEnd(histories: Histories, runs: seq<Run>, run: Run)
    requires Halfway(histories, runs, run, {})
    ensures HistoriesOf(histories, runs + [run])
  {
  }

  method AddReport(before: Histories, ghost runs: seq<Run>, run: Run) returns (histories: Histories)
    requires HistoriesOf(before, runs)
    ensures HistoriesOf(histories, runs + [run])
  {
    hide HistoriesOf, Halfway, Group, Representative;
    var groups := GroupImpacts(run.impacts);
    histories := before;
    var pending := groups.Keys;
    HalfwayStart(histories, runs, run, pending);
    while pending != {}
      invariant pending <= groups.Keys && Halfway(histories, runs, run, pending)
      decreases pending
    {
      var key :| key in pending;
      HalfwayStep(histories, runs, run, pending, key);
      var snapshot := Recommendation(key, run.changedAt, run.id, Representative(groups[key]).rating);
      histories := histories[key := (if key in histories then histories[key] else []) + [snapshot]];
      pending := pending - {key};
    }
    HalfwayEnd(histories, runs, run);
  }

  // ------------------------------------------------------------ the changes of every target

  predicate Earlier(a: Recommendation, b: Recommendation) {
    a.asOf < b.asOf || (a.asOf == b.asOf && a.id < b.id)
  }

  const OLDEST_FIRST: (Recommendation, Recommendation) -> bool := (a: Recommendation, b: Recommendation) => Earlier(a, b)

  /** The query's order; report ids are unique. */
  ghost predicate InRowOrder(runs: seq<Run>) {
    forall i, j :: 0 <= i < j < |runs| ==>
      runs[i].changedAt < runs[j].changedAt || (runs[i].changedAt == runs[j].changedAt && runs[i].id < runs[j].id)
  }

  lemma {:induction false} SnapshotsOfReports(runs: seq<Run>, key: string)
    ensures forall s :: s in Snapshots(runs, key) ==>
              s.assetId == key && exists i :: 0 <= i < |runs| && s.asOf == runs[i].changedAt && s.id == runs[i].id
  {
    hide Group, Representative;
    if runs != [] {
      SnapshotsOfReports(runs[..|runs| - 1], key);
    }
  }

  /** A report that mentions the target adds one snapshot to its history, with the report's time and id and
      the rating of the impact that represents the target in it; any other report adds nothing. */
  lemma SnapshotsMean(runs: seq<Run>, run: Run, key: string) returns (r: Option<Impact>)
    ensures r.None? <==> forall x :: x in run.impacts ==> x.key != key
    ensures r.None? ==> Snapshots(runs + [run], key) == Snapshots(runs, key)
    ensures r.Some? ==> Represents(Group(run.impacts, key), r.value)
    ensures r.Some? ==>
              Snapshots(runs + [run], key) == Snapshots(runs, key) + [Recommendation(key, run.changedAt, run.id, r.value.rating)]
  {
    SnapshotsSnoc(runs, run, key);
    var g := Group(run.impacts, key);
    r := None;
    if g != [] {
      RepresentativeMeans(g);
      r := Some(Representative(g));
    }
    hide Represents, Group;
  }

  /** A history follows its reports, so sorting it again changes nothing. */
  lemma {:induction false} SnapshotsInOrder(runs: seq<Run>, key: string)
    requires InRowOrder(runs)
    ensures Ordered(OLDEST_FIRST, Snapshots(runs, key))
    ensures forall i, j :: 0 <= i < j < |Snapshots(runs, key)| ==>
              var a, b := Snapshots(runs, key)[i], Snapshots(runs, key)[j];
              a.asOf < b.asOf || (a.asOf == b.asOf && a.id < b.id)
  {
    hide Group, Representative;
    if runs != [] {
      var n := |runs| - 1;
      SnapshotsInOrder(runs[..n], key);
      SnapshotsOfReports(runs[..n], key);
      OrderedSnoc(Snapshots(runs[..n], key), Recommendation(key, runs[n].changedAt, runs[n].id,
                                                             if Group(runs[n].impacts, key) != [] then SnapshotOf(runs[n], key).rating else ""));
    }
  }

  lemma OrderedSnoc(h: seq<Recommendation>, r: Recommendation)
    requires Ordered(OLDEST_FIRST, h) && forall s :: s in h ==> !Earlier(r, s)
    ensures Ordered(OLDEST_FIRST, h + [r])
  {
  }

  /** The pass over one history: the last two neighbours that differ, and the latest snapshot. */
  method FoldHistory(h: seq<Recommendation>) returns (change: Option<Change>)
    ensures change == ChangeOf(h)
  {
    var latest: Option<(Recommendation, Recommendation)> := None;
    var previous: Option<Recommendation> := None;
    for i := 0 to |h|
      invariant previous == if i == 0 then None else Some(h[i - 1])
      invariant match ChangeOf(h[..i])
                case None => latest.None?
                case Some(c) => latest == Some((c.previous, c.changed)) && i > 0 && c.latest == h[i - 1]
    {
      assert h[..i + 1] == h[..i] + [h[i]];
      ChangeOfSnoc(h[..i], h[i]);
      if previous.Some? && previous.value.rating != h[i].rating {
        latest := Some((previous.value, h[i]));
      }
      previous := Some(h[i]);
    }
    assert h[..|h|] == h;
    if latest.None? {
      return None;
    }
    return Some(Change(latest.value.0, latest.value.1, h[|h| - 1]));
  }

  /** The change is what some target's history calls for. */
  ghost predicate CalledFor(runs: seq<Run>, c: Change) {
    exists key :: ChangeOf(Snapshots(runs, key)) == Some(c)
  }

  /** Every target whose rating ever changed is emitted once, with its last change and its latest
      snapshot, newest change first: the same meaning as for assets, over the targets' histories. */
  method EventTargetChanges(runs: seq<Run>) returns (output: seq<Change>)
    requires InRowOrder(runs)
    ensures forall c :: c in output <==> CalledFor(runs, c)
    ensures forall c :: multiset(output)[c] <= 1
    ensures Ordered(LATEST_FIRST, output) && NewestFirst(output)
  {
    hide Snapshots, ChangeOf;
    var histories: Histories := map[];
    assert HistoriesOf(histories, runs[..0]) by {
      hide *;
      NoHistories();
      assert runs[..0] == [];
    }
    for i := 0 to |runs|
      invariant HistoriesOf(histories, runs[..i])
    {
      assert runs[..i + 1] == runs[..i] + [runs[i]];
      histories := AddReport(histories, runs[..i], runs[i]);
    }
    assert runs[..|runs|] == runs;
    var collected := CollectTargets(runs, histories);
    SortMembers(LATEST_FIRST, collected);
    SortPermutes(LATEST_FIRST, collected);
    SortOrders(LATEST_FIRST, collected);
    output := Sort(LATEST_FIRST, collected);
    assert forall c :: c in output <==> c in collected;
  }

  lemma NoHistories()
    ensures HistoriesOf(map[], [])
  {
  }

  method CollectTargets(runs: seq<Run>, histories: Histories) returns (output: seq<Change>)
    requires InRowOrder(runs) && HistoriesOf(histories, runs)
    ensures forall c :: c in output <==> CalledFor(runs, c)
    ensures forall c :: multiset(output)[c] <= 1
  {
    hide Snapshots, ChangeOf;
    output := [];
    var pending := histories.Keys;
    while pending != {}
      invariant pending <= histories.Keys
      invariant forall c :: c in output <==>
                  c.changed.assetId in histories.Keys - pending && ChangeOf(Snapshots(runs, c.changed.assetId)) == Some(c)
      invariant forall c :: multiset(output)[c] <= 1
      decreases pending
    {
      var key :| key in pending;
      SnapshotsInOrder(runs, key);
      SortOfOrdered(OLDEST_FIRST, histories[key]);
      var change := FoldHistory(Sort(OLDEST_FIRST, histories[key]));
      if change.Some? {
        ChangeIsOfTarget(runs, key);
        output := output + [change.value];
      }
      pending := pending - {key};
    }
    forall c
      ensures c in output <==> CalledFor(runs, c)
    {
      forall key | ChangeOf(Snapshots(runs, key)) == Some(c)
        ensures key == c.changed.assetId && key in histories
      {
        ChangeIsOfTarget(runs, key);
      }
    }
  }

  lemma ChangeIsOfTarget(runs: seq<Run>, key: string)
    requires ChangeOf(Snapshots(runs, key)).Some?
    ensures ChangeOf(Snapshots(runs, key)).value.changed.assetId == key
    ensures Snapshots(runs, key) != []
  {
    var h := Snapshots(runs, key);
    SnapshotsOfReports(runs, key);
    assert h[LastChange(h)] in h;
  }

  // ------------------------------------------------------------ assets and commodities together

  /** An entry of the listing: its target, and the change it shows. */
  datatype Entry = Entry(key: string, changedAt: int, detail: Uuid, body: string)

  predicate Newer(a: Entry, b: Entry) {
    a.changedAt > b.changedAt || (a.changedAt == b.changedAt && a.detail > b.detail)
  }

  const NEWEST_ENTRY_FIRST: (Entry, Entry) -> bool := (a: Entry, b: Entry) => Newer(a, b)

  /** Entry i is the one to show for its key: none is newer, and none as new comes before it. */
  ghost predicate Shown(items: seq<Entry>, i: nat)
    requires i < |items|
  {
    && (forall j :: 0 <= j < |items| && items[j].key == items[i].key ==> !Newer(items[j], items[i]))
    && (forall j :: 0 <= j < i && items[j].key == items[i].key ==> Newer(items[i], items[j]))
  }

  ghost predicate Kept(items: seq<Entry>, e: Entry) {
    exists i :: 0 <= i < |items| && items[i] == e && Shown(items, i)
  }

  type ByKey = map<string, Entry>

  ghost predicate KeptByKey(byKey: ByKey, items: seq<Entry>) {
    && (forall e :: e in items ==> e.key in byKey)
    && (forall key :: key in byKey ==> byKey[key].key == key && Kept(items, byKey[key]))
  }

  lemma KeepStep(byKey: ByKey, items: seq<Entry>, e: Entry)
    requires KeptByKey(byKey, items)
    ensures KeptByKey(if e.key !in byKey || Newer(e, byKey[e.key]) then byKey[e.key := e] else byKey, items + [e])
  {
    var more, n := items + [e], |items|;
    var after := if e.key !in byKey || Newer(e, byKey[e.key]) then byKey[e.key := e] else byKey;
    forall key | key in after
      ensures after[key].key == key && Kept(more, after[key])
    {
      if key == e.key && after[key] == e && (key !in byKey || Newer(e, byKey[key])) {
        if key in byKey {
          var k :| 0 <= k < n && items[k] == byKey[key] && Shown(items, k);
          assert forall j :: 0 <= j < n && items[j].key == key ==> !Newer(items[j], items[k]);
        } else {
          assert forall j :: 0 <= j < n ==> items[j] in items && items[j].key != key;
        }
        assert more[n] == e && Shown(more, n);
      } else {
        var k :| 0 <= k < n && items[k] == byKey[key] && Shown(items, k);
        assert more[k] == byKey[key] && Shown(more, k);
      }
    }
  }

  /** One entry per key: the newest, and the first of equally new ones; newest first. */
  method ConcreteTargetChanges(items: seq<Entry>) returns (output: seq<Entry>)
    ensures forall e :: e in output <==> Kept(items, e)
    ensures forall e :: multiset(output)[e] <= 1
    ensures forall e :: e in items ==> exists d :: d in output && d.key == e.key
    ensures Ordered(NEWEST_ENTRY_FIRST, output)
    ensures forall i, j :: 0 <= i < j < |output| ==>
              output[i].changedAt > output[j].changedAt
              || (output[i].changedAt == output[j].changedAt && output[i].detail >= output[j].detail)
  {
    hide Kept;
    var byKey: ByKey := map[];
    for i := 0 to |items|
      invariant KeptByKey(byKey, items[..i])
    {
      assert items[..i + 1] == items[..i] + [items[i]];
      var item := items[i];
      KeepStep(byKey, items[..i], item);
      if item.key !in byKey || Newer(item, byKey[item.key]) {
        byKey := byKey[item.key := item];
      }
    }
    assert items[..|items|] == items;
    var collected := CollectEntries(items, byKey);
    SortMembers(NEWEST_ENTRY_FIRST, collected);
    SortPermutes(NEWEST_ENTRY_FIRST, collected);
    SortOrders(NEWEST_ENTRY_FIRST, collected);
    output := Sort(NEWEST_ENTRY_FIRST, collected);
    assert forall e :: e in output <==> e in collected;
    forall e | e in items
      ensures exists d :: d in output && d.key == e.key
    {
      assert byKey[e.key] in output;
    }
  }

  method CollectEntries(items: seq<Entry>, byKey: ByKey) returns (output: seq<Entry>)
    requires KeptByKey(byKey, items)
    ensures forall e :: e in output <==> Kept(items, e)
    ensures forall e :: e in output <==> e.key in byKey && byKey[e.key] == e
    ensures forall e :: multiset(output)[e] <= 1
  {
    hide Kept, Shown;
    output := [];
    var pending := byKey.Keys;
    while pending != {}
      invariant pending <= byKey.Keys
      invariant forall e :: e in output <==> e.key in byKey.Keys - pending && byKey[e.key] == e
      invariant forall e :: multiset(output)[e] <= 1
      decreases pending
    {
      var key :| key in pending;
      output := output + [byKey[key]];
      pending := pending - {key};
    }
    forall e
      ensures e in output <==> Kept(items, e)
    {
      if Kept(items, e) {
        KeptIsListed(items, e);
        KeptIsUnique(items, e, byKey[e.key]);
      }
    }
  }

  lemma KeptIsListed(items: seq<Entry>, e: Entry)
    requires Kept(items, e)
    ensures e in items
  {
  }

  lemma KeptIsUnique(items: seq<Entry>, a: Entry, b: Entry)
    requires Kept(items, a) && Kept(items, b) && a.key == b.key
    ensures a == b
  {
    var i :| 0 <= i < |items| && items[i] == a && Shown(items, i);
    var j :| 0 <= j < |items| && items[j] == b && Shown(items, j);
    assert items[i].key == items[j].key;
    assert i >= j && j >= i;
  }

  // ------------------------------------------------------------ the weighted observation

  /** The impacts of one report on one target, as a single observation. */
  datatype Observation = Observation(score: real, confidence: real, persistence: real, realization: real, insufficient: bool)

  /** Even an unrated impact counts a little. */
  function Weight(x: Impact): real { if x.confidence > 0.05 then x.confidence else 0.05 }

  function WeightSum(impacts: seq<Impact>): real {
    if impacts == [] then 0.0 else WeightSum(impacts[..|impacts| - 1]) + Weight(impacts[|impacts| - 1])
  }

  function WeightedSum(impacts: seq<Impact>, value: Impact -> real): real {
    if impacts == [] then 0.0
    else
      var last := impacts[|impacts| - 1];
      WeightedSum(impacts[..|impacts| - 1], value) + Mul(value(last), Weight(last))
  }

  /** An impact with the greatest score. */
  function Highest(impacts: seq<Impact>): (r: Impact)
    requires impacts != []
    ensures r in impacts && forall i :: 0 <= i < |impacts| ==> impacts[i].score <= r.score
  {
    var n := |impacts| - 1;
    if n == 0 then impacts[0]
    else
      var r := Highest(impacts[..n]);
      if r.score < impacts[n].score then impacts[n] else r
  }

  function Lowest(impacts: seq<Impact>): (r: Impact)
    requires impacts != []
    ensures r in impacts && forall i :: 0 <= i < |impacts| ==> r.score <= impacts[i].score
  {
    var n := |impacts| - 1;
    if n == 0 then impacts[0]
    else
      var r := Lowest(impacts[..n]);
      if impacts[n].score < r.score then impacts[n] else r
  }

  lemma {:induction false} WeightsArePositive(impacts: seq<Impact>)
    requires impacts != []
    ensures WeightSum(impacts) > 0.0
  {
    var n := |impacts| - 1;
    if n > 0 {
      WeightsArePositive(impacts[..n]);
    } else {
      assert impacts[..n] == [];
    }
  }

  function Mean(impacts: seq<Impact>, value: Impact -> real): real
    requires impacts != []
  {
    WeightsArePositive(impacts);
    WeightedSum(impacts, value) / WeightSum(impacts)
  }

  function CanonicalObservation(impacts: seq<Impact>, provisional: bool): Observation
    requires impacts != []
  {
    var conflicting := Highest(impacts).score - Lowest(impacts).score >= 30.0;
    Observation(Mean(impacts, (x: Impact) => x.score), Mean(impacts, (x: Impact) => x.confidence),
                Mean(impacts, (x: Impact) => x.persistence), Mean(impacts, (x: Impact) => x.realization),
                provisional || conflicting || forall x :: x in impacts ==> x.technicalFailure)
  }

  lemma MulBounds(v: real, w: real, a: real, b: real)
    requires a <= v <= b && w > 0.0
    ensures Mul(a, w) <= Mul(v, w) <= Mul(b, w)
  {
    assert (v - a) * w >= 0.0 && (b - v) * w >= 0.0;
    assert v * w - a * w == (v - a) * w && b * w - v * w == (b - v) * w;
  }

  lemma MulSum(a: real, x: real, y: real)
    ensures Mul(a, x + y) == Mul(a, x) + Mul(a, y)
  {
  }

  lemma {:induction false} WeightedSumBounds(impacts: seq<Impact>, value: Impact -> real, a: real, b: real)
    requires forall x :: x in impacts ==> a <= value(x) <= b
    ensures Mul(a, WeightSum(impacts)) <= WeightedSum(impacts, value) <= Mul(b, WeightSum(impacts))
  {
    hide Mul, Weight;
    if impacts == [] {
      assert Mul(a, 0.0) == 0.0 && Mul(b, 0.0) == 0.0 by { MulZero(a); MulZero(b); }
    } else {
      var n, last := |impacts| - 1, impacts[|impacts| - 1];
      WeightedSumBounds(impacts[..n], value, a, b);
      assert Weight(last) > 0.0 by { WeightPositive(last); }
      MulBounds(value(last), Weight(last), a, b);
      MulSum(a, WeightSum(impacts[..n]), Weight(last));
      MulSum(b, WeightSum(impacts[..n]), Weight(last));
    }
  }

  lemma MulZero(a: real)
    ensures Mul(a, 0.0) == 0.0
  {
  }

  lemma WeightPositive(x: Impact)
    ensures Weight(x) > 0.0
  {
  }

  lemma QuotientBounds(s: real, w: real, a: real, b: real)
    requires w > 0.0 && Mul(a, w) <= s <= Mul(b, w)
    ensures a <= s / w <= b
  {
    var q := s / w;
    assert Mul(q, w) == s;
    if q < a {
      MulIncreases(q, a, w);
    }
    if q > b {
      MulIncreases(b, q, w);
    }
  }

  lemma MulIncreases(x: real, y: real, w: real)
    requires x < y && w > 0.0
    ensures Mul(x, w) < Mul(y, w)
  {
    assert (y - x) * w > 0.0;
    assert y * w - x * w == (y - x) * w;
  }

  /** Each of the four weighted figures stays within what the impacts say, and equals it when they
      agree. */
  lemma ObservationIsBetween(impacts: seq<Impact>, provisional: bool, a: real, b: real)
    requires impacts != []
    ensures var o := CanonicalObservation(impacts, provisional);
            && Lowest(impacts).score <= o.score <= Highest(impacts).score
            && ((forall x :: x in impacts ==> a <= x.confidence <= b) ==> a <= o.confidence <= b)
            && ((forall x :: x in impacts ==> a <= x.persistence <= b) ==> a <= o.persistence <= b)
            && ((forall x :: x in impacts ==> a <= x.realization <= b) ==> a <= o.realization <= b)
  {
    hide Mean;
    MeanBounds(impacts, (x: Impact) => x.score, Lowest(impacts).score, Highest(impacts).score);
    if forall x :: x in impacts ==> a <= x.confidence <= b {
      MeanBounds(impacts, (x: Impact) => x.confidence, a, b);
    }
    if forall x :: x in impacts ==> a <= x.persistence <= b {
      MeanBounds(impacts, (x: Impact) => x.persistence, a, b);
    }
    if forall x :: x in impacts ==> a <= x.realization <= b {
      MeanBounds(impacts, (x: Impact) => x.realization, a, b);
    }
  }

  /** Each figure is the mean of the impacts' values, weighted by confidence, but at least by 0.05. */
  lemma ObservationIsWeighted(impacts: seq<Impact>, provisional: bool)
    requires impacts != []
    ensures var o, w := CanonicalObservation(impacts, provisional), WeightSum(impacts);
            && w > 0.0
            && Mul(o.score, w) == WeightedSum(impacts, (x: Impact) => x.score)
            && Mul(o.confidence, w) == WeightedSum(impacts, (x: Impact) => x.confidence)
            && Mul(o.persistence, w) == WeightedSum(impacts, (x: Impact) => x.persistence)
            && Mul(o.realization, w) == WeightedSum(impacts, (x: Impact) => x.realization)
  {
    WeightsArePositive(impacts);
    MeanTimesWeight(impacts, (x: Impact) => x.score);
    MeanTimesWeight(impacts, (x: Impact) => x.confidence);
    MeanTimesWeight(impacts, (x: Impact) => x.persistence);
    MeanTimesWeight(impacts, (x: Impact) => x.realization);
    hide Mean;
  }

  /** What one more impact adds to the sums. */
  lemma WeightsSnoc(impacts: seq<Impact>, x: Impact, value: Impact -> real)
    ensures var w := if x.confidence > 0.05 then x.confidence else 0.05;
            && WeightSum(impacts + [x]) == WeightSum(impacts) + w && WeightSum([]) == 0.0
            && WeightedSum(impacts + [x], value) == WeightedSum(impacts, value) + value(x) * w && WeightedSum([], value) == 0.0
  {
    assert (impacts + [x])[..|impacts|] == impacts;
  }

  lemma MeanTimesWeight(impacts: seq<Impact>, value: Impact -> real)
    requires impacts != []
    ensures Mul(Mean(impacts, value), WeightSum(impacts)) == WeightedSum(impacts, value)
  {
    WeightsArePositive(impacts);
    hide WeightSum, WeightedSum;
  }

  /** It is insufficient exactly for a provisional report, for two impacts 30 or more apart, and when
      every impact is a technical failure. */
  lemma ObservationIsInsufficient(impacts: seq<Impact>, provisional: bool)
    requires impacts != []
    ensures CanonicalObservation(impacts, provisional).insufficient
            <==> provisional || (exists x, y :: x in impacts && y in impacts && x.score - y.score >= 30.0)
                 || forall x :: x in impacts ==> x.technicalFailure
  {
    hide Mean;
    assert Highest(impacts) in impacts && Lowest(impacts) in impacts;
  }

  lemma MeanBounds(impacts: seq<Impact>, value: Impact -> real, a: real, b: real)
    requires impacts != [] && forall x :: x in impacts ==> a <= value(x) <= b
    ensures a <= Mean(impacts, value) <= b
  {
    hide Mul, WeightSum, WeightedSum;
    WeightsArePositive(impacts);
    WeightedSumBounds(impacts, value, a, b);
    QuotientBounds(WeightedSum(impacts, value), WeightSum(impacts), a, b);
  }
}
