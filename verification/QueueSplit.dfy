/** Splitting the legacy model queue by task lane, in one transaction. Lists are written left to
    right; producers push on the left and workers take from the right. */
module QueueSplit {
  import opened Common

  datatype Headers = Headers(task: string, id: string)

  /** A stored message; no headers when they cannot be read. */
  datatype Raw = Raw(headers: Option<Headers>, body: string)

  datatype Lane = Mapping | Research

  datatype Error = UnsupportedMessage | UnsupportedTask | DuplicateId | AlreadyPresent | SourceChanged | WatchFailed | CountMismatch

  function LaneOf(task: string): Option<Lane> {
    if task == "market_loop.resolve_event_assets" then Some(Mapping)
    else if task == "market_loop.research_asset" || task == "market_loop.research_event" then Some(Research)
    else None
  }

  predicate BelongsTo(raw: Raw, lane: Lane) { raw.headers.Some? && LaneOf(raw.headers.value.task) == Some(lane) }

  /** A lane's share of a list, in list order. */
  function Share(raws: seq<Raw>, lane: Lane): seq<Raw> {
    if raws == [] then []
    else
      var last := raws[|raws| - 1];
      Share(raws[..|raws| - 1], lane) + if BelongsTo(last, lane) then [last] else []
  }

  predicate Supported(raw: Raw) { raw.headers.Some? && LaneOf(raw.headers.value.task).Some? }

  /** The problem of the first message that has one. */
  function FirstProblem(raws: seq<Raw>): (r: Option<Error>)
    ensures r.None? <==> forall raw :: raw in raws ==> Supported(raw)
    ensures r.Some? ==> r.value in {UnsupportedMessage, UnsupportedTask}
  {
    if raws == [] then None
    else
      var before, last := FirstProblem(raws[..|raws| - 1]), raws[|raws| - 1];
      assert raws == raws[..|raws| - 1] + [last] && last in raws;
      if before.Some? then before
      else if last.headers.None? then Some(UnsupportedMessage)
      else if LaneOf(last.headers.value.task).None? then Some(UnsupportedTask)
      else None
  }

  lemma {:induction false} FirstProblemStays(raws: seq<Raw>, i: nat)
    requires i <= |raws| && FirstProblem(raws[..i]).Some?
    ensures FirstProblem(raws) == FirstProblem(raws[..i])
  {
    if i < |raws| {
      assert raws[..|raws| - 1][..i] == raws[..i];
      FirstProblemStays(raws[..|raws| - 1], i);
    } else {
      assert raws[..i] == raws;
    }
  }

  function Id(raw: Raw): string { if raw.headers.Some? then raw.headers.value.id else "" }

  function Ids(raws: seq<Raw>): set<string> {
    set raw | raw in raws :: Id(raw)
  }

  predicate DistinctIds(raws: seq<Raw>) {
    forall i, j :: 0 <= i < j < |raws| ==> Id(raws[i]) != Id(raws[j])
  }

  predicate Readable(raws: seq<Raw>) {
    forall raw :: raw in raws ==> raw.headers.Some?
  }

  datatype Plan = Plan(messages: seq<Raw>, mapping: seq<Raw>, research: seq<Raw>)

  /** The destinations are the lanes' shares of supported messages. */
  predicate DividesSource(plan: Plan) {
    && (forall raw :: raw in plan.messages ==> Supported(raw))
    && plan.mapping == Share(plan.messages, Mapping) && plan.research == Share(plan.messages, Research)
  }

  /** What planning promises: the destinations are the lanes' shares, and no id occurs twice, within
      the source or with what the destinations already hold. */
  predicate Planned(plan: Plan, mapping: seq<Raw>, research: seq<Raw>) {
    && DividesSource(plan)
    && DistinctIds(plan.messages)
    && Ids(plan.messages) !! Ids(mapping) && Ids(plan.messages) !! Ids(research)
  }

  // What planning decides, in terms of task names and ids.

  const MappingTask := "market_loop.resolve_event_assets"
  const ResearchTasks := {"market_loop.research_asset", "market_loop.research_event"}

  /** A readable message with one of the three tasks. */
  predicate Known(raw: Raw) {
    raw.headers.Some? && (raw.headers.value.task == MappingTask || raw.headers.value.task in ResearchTasks)
  }

  lemma KnownMeans(raw: Raw)
    ensures Supported(raw) <==> Known(raw)
  {
  }

  /** Asset resolution goes to the mapping lane, both kinds of research to the research lane, each message
      once and in list order. */
  lemma ShareMeans(raws: seq<Raw>, raw: Raw)
    ensures Share(raws + [raw], Mapping)
            == Share(raws, Mapping) + if raw.headers.Some? && raw.headers.value.task == MappingTask then [raw] else []
    ensures Share(raws + [raw], Research)
            == Share(raws, Research) + if raw.headers.Some? && raw.headers.value.task in ResearchTasks then [raw] else []
    ensures Share([], Mapping) == [] && Share([], Research) == []
  {
    assert (raws + [raw])[..|raws|] == raws;
  }

  lemma ProblemSnoc(raws: seq<Raw>, raw: Raw)
    requires FirstProblem(raws).None?
    ensures FirstProblem(raws + [raw])
            == if raw.headers.None? then Some(UnsupportedMessage) else if !Supported(raw) then Some(UnsupportedTask) else None
  {
    hide LaneOf;
    assert (raws + [raw])[..|raws|] == raws;
  }

  lemma KnownHasNoProblem(raws: seq<Raw>)
    requires forall raw :: raw in raws ==> Known(raw)
    ensures FirstProblem(raws).None?
  {
    hide Known, Supported;
    forall raw | raw in raws
      ensures Supported(raw)
    {
      KnownMeans(raw);
    }
  }

  /** The first message that is not known decides the error. */
  lemma FirstUnknown(raws: seq<Raw>, i: nat)
    requires i < |raws| && !Known(raws[i]) && forall j :: 0 <= j < i ==> Known(raws[j])
    ensures FirstProblem(raws) == Some(if raws[i].headers.None? then UnsupportedMessage else UnsupportedTask)
  {
    hide Known, Supported, FirstProblem;
    KnownMeans(raws[i]);
    KnownHasNoProblem(raws[..i]);
    ProblemSnoc(raws[..i], raws[i]);
    assert raws[..i + 1] == raws[..i] + [raws[i]];
    FirstProblemStays(raws, i + 1);
  }

  /** No id occurs twice, within the messages or with what the destinations hold. */
  predicate NoIdTwice(messages: seq<Raw>, present: seq<Raw>) {
    && (forall i, j :: 0 <= i < j < |messages| ==> messages[i].headers.None? || messages[j].headers.None?
                                                   || messages[i].headers.value.id != messages[j].headers.value.id)
    && (forall m, d :: m in messages && d in present && m.headers.Some? && d.headers.Some? ==> m.headers.value.id != d.headers.value.id)
  }

  /** Planning succeeds exactly for known messages and readable destinations without an id twice. */
  lemma PlannedMeans(messages: seq<Raw>, mapping: seq<Raw>, research: seq<Raw>)
    requires Readable(mapping) && Readable(research) && forall raw :: raw in messages ==> Known(raw)
    ensures DistinctIds(messages) && Ids(messages) !! Ids(mapping) && Ids(messages) !! Ids(research)
            <==> NoIdTwice(messages, mapping + research)
  {
    if DistinctIds(messages) && Ids(messages) !! Ids(mapping) && Ids(messages) !! Ids(research) {
      forall m, d | m in messages && d in mapping + research && m.headers.Some? && d.headers.Some?
        ensures m.headers.value.id != d.headers.value.id
      {
        assert Id(m) in Ids(messages) && (d in mapping ==> Id(d) in Ids(mapping)) && (d in research ==> Id(d) in Ids(research));
      }
    }
    if NoIdTwice(messages, mapping + research) {
      forall m, d | m in messages && d in mapping + research
        ensures Id(m) != Id(d)
      {
        assert Known(m) && d.headers.Some?;
      }
      forall i, j | 0 <= i < j < |messages|
        ensures Id(messages[i]) != Id(messages[j])
      {
        assert Known(messages[i]) && Known(messages[j]);
      }
    }
  }

  /** The lanes' shares and the ids, or the error of the first message that cannot be moved. */
  method SortIntoLanes(messages: seq<Raw>) returns (r: Result<(Plan, seq<string>), Error>)
    ensures match FirstProblem(messages)
            case Some(e) => r == Err(e)
            case None =>
              && r.Ok? && r.value.0 == Plan(messages, Share(messages, Mapping), Share(messages, Research))
              && |r.value.1| == |messages| && forall k :: 0 <= k < |messages| ==> r.value.1[k] == Id(messages[k])
  {
    var toMapping, toResearch: seq<Raw>, ids: seq<string> := [], [], [];
    for i := 0 to |messages|
      invariant FirstProblem(messages[..i]).None?
      invariant toMapping == Share(messages[..i], Mapping) && toResearch == Share(messages[..i], Research)
      invariant |ids| == i && forall k :: 0 <= k < i ==> ids[k] == Id(messages[k])
    {
      var raw := messages[i];
      assert messages[..i + 1][..i] == messages[..i];
      if raw.headers.None? {
        FirstProblemStays(messages, i + 1);
        return Err(UnsupportedMessage);
      }
      match LaneOf(raw.headers.value.task) {
        case None =>
          FirstProblemStays(messages, i + 1);
          return Err(UnsupportedTask);
        case Some(Mapping) =>
          toMapping := toMapping + [raw];
        case Some(Research) =>
          toResearch := toResearch + [raw];
      }
      ids := ids + [raw.headers.value.id];
    }
    assert messages[..|messages|] == messages;
    return Ok((Plan(messages, toMapping, toResearch), ids));
  }

  /** The ids a destination already holds. */
  method CollectIds(raws: seq<Raw>) returns (r: Result<set<string>, Error>)
    ensures r == if Readable(raws) then Ok(Ids(raws)) else Err(UnsupportedMessage)
  {
    var present: set<string> := {};
    for i := 0 to |raws|
      invariant Readable(raws[..i]) && present == Ids(raws[..i])
    {
      IdsSnoc(raws, i);
      if raws[i].headers.None? {
        assert raws[i] in raws;
        return Err(UnsupportedMessage);
      }
      present := present + {raws[i].headers.value.id};
    }
    assert raws[..|raws|] == raws;
    return Ok(present);
  }

  method PlanMessages(messages: seq<Raw>, mapping: seq<Raw>, research: seq<Raw>) returns (r: Result<Plan, Error>)
    ensures r.Ok? ==> r.value.messages == messages && Planned(r.value, mapping, research)
    ensures r.Ok? <==>
              && (forall raw :: raw in messages ==> Supported(raw)) && DistinctIds(messages)
              && Readable(mapping) && Readable(research)
              && Ids(messages) !! Ids(mapping) && Ids(messages) !! Ids(research)
    ensures FirstProblem(messages).Some? ==> r == Err(FirstProblem(messages).value)
    ensures r.Ok? <==>
              && (forall raw :: raw in messages ==> Known(raw))
              && (forall raw :: raw in mapping + research ==> raw.headers.Some?)
              && NoIdTwice(messages, mapping + research)
  {
    hide Supported, Share, Ids, Readable, FirstProblem, Known, NoIdTwice, DistinctIds;
    PlanningMeans(messages, mapping, research);
    var sorted := SortIntoLanes(messages);
    if sorted.Err? {
      return Err(sorted.error);
    }
    var (plan, ids) := sorted.value;
    SameIds(messages, ids);
    if exists i, j :: 0 <= i < j < |ids| && ids[i] == ids[j] {
      return Err(DuplicateId);
    }
    var first := CollectIds(mapping);
    if first.Err? {
      return Err(first.error);
    }
    var second := CollectIds(research);
    if second.Err? {
      return Err(second.error);
    }
    IdsListed(messages, ids);
    if exists id :: id in ids && id in first.value + second.value {
      return Err(AlreadyPresent);
    }
    return Ok(plan);
  }

  lemma SameIds(messages: seq<Raw>, ids: seq<string>)
    requires |ids| == |messages| && forall k :: 0 <= k < |messages| ==> ids[k] == Id(messages[k])
    ensures DistinctIds(messages) <==> !exists i, j :: 0 <= i < j < |ids| && ids[i] == ids[j]
  {
  }

  lemma PlanningMeans(messages: seq<Raw>, mapping: seq<Raw>, research: seq<Raw>)
    ensures && (forall raw :: raw in messages ==> Supported(raw)) && DistinctIds(messages)
            && Readable(mapping) && Readable(research)
            && Ids(messages) !! Ids(mapping) && Ids(messages) !! Ids(research)
            <==>
            && (forall raw :: raw in messages ==> Known(raw))
            && (forall raw :: raw in mapping + research ==> raw.headers.Some?)
            && NoIdTwice(messages, mapping + research)
  {
    forall raw | raw in messages
      ensures Supported(raw) <==> Known(raw)
    {
      KnownMeans(raw);
    }
    assert Readable(mapping) && Readable(research) <==> forall raw :: raw in mapping + research ==> raw.headers.Some?;
    hide Supported, Known, NoIdTwice, DistinctIds, Ids, Readable;
    if (forall raw :: raw in messages ==> Known(raw)) && Readable(mapping) && Readable(research) {
      PlannedMeans(messages, mapping, research);
    }
  }

  lemma IdsListed(messages: seq<Raw>, ids: seq<string>)
    requires |ids| == |messages| && forall k :: 0 <= k < |messages| ==> ids[k] == Id(messages[k])
    ensures forall id :: id in ids <==> id in Ids(messages)
  {
    forall id | id in ids
      ensures id in Ids(messages)
    {
      var k :| 0 <= k < |ids| && ids[k] == id;
      assert messages[k] in messages;
    }
    forall id | id in Ids(messages)
      ensures id in ids
    {
      var raw :| raw in messages && Id(raw) == id;
      var k :| 0 <= k < |messages| && messages[k] == raw;
      assert ids[k] in ids;
    }
  }

  lemma IdsSnoc(raws: seq<Raw>, i: nat)
    requires i < |raws|
    ensures Ids(raws[..i + 1]) == Ids(raws[..i]) + {Id(raws[i])}
    ensures Readable(raws[..i + 1]) <==> Readable(raws[..i]) && raws[i].headers.Some?
  {
    assert raws[..i + 1] == raws[..i] + [raws[i]];
  }

  // ------------------------------------------------------------ order and conservation

  function Reversed<T>(s: seq<T>): (r: seq<T>)
    ensures |r| == |s|
  {
    if s == [] then [] else [s[|s| - 1]] + Reversed(s[..|s| - 1])
  }

  /** LPUSH key items...: each item in turn goes to the left end. */
  function PushedLeft<T>(list: seq<T>, items: seq<T>): seq<T>
    decreases |items|
  {
    if items == [] then list else PushedLeft([items[0]] + list, items[1..])
  }

  lemma {:induction false} PushedReversed<T>(list: seq<T>, items: seq<T>)
    ensures PushedLeft(list, Reversed(items)) == items + list
    decreases |items|
  {
    if items == [] {
      assert items + list == list;
    } else {
      var n := |items| - 1;
      PushedOne(list, items[n], Reversed(items[..n]));
      PushedReversed([items[n]] + list, items[..n]);
      MoveOne(items, list);
    }
  }

  lemma PushedOne<T>(list: seq<T>, x: T, rest: seq<T>)
    ensures PushedLeft(list, [x] + rest) == PushedLeft([x] + list, rest)
  {
    assert ([x] + rest)[1..] == rest;
  }

  lemma MoveOne<T>(items: seq<T>, list: seq<T>)
    requires items != []
    ensures items[..|items| - 1] + ([items[|items| - 1]] + list) == items + list
  {
  }

  lemma {:induction false} ReversedAppend<T>(a: seq<T>, b: seq<T>)
    ensures Reversed(a + b) == Reversed(b) + Reversed(a)
  {
    if b == [] {
      assert a + b == a;
    } else {
      var n := |b| - 1;
      assert (a + b)[..|a| + n] == a + b[..n];
      ReversedAppend(a, b[..n]);
    }
  }

  lemma {:induction false} ShareAppend(a: seq<Raw>, b: seq<Raw>, lane: Lane)
    ensures Share(a + b, lane) == Share(a, lane) + Share(b, lane)
  {
    if b == [] {
      assert a + b == a;
    } else {
      var n := |b| - 1;
      assert (a + b)[..|a| + n] == a + b[..n];
      ShareAppend(a, b[..n], lane);
    }
  }

  /** Taking a lane's share and reading a list from the right commute. */
  lemma {:induction false} ShareReversed(raws: seq<Raw>, lane: Lane)
    ensures Share(Reversed(raws), lane) == Reversed(Share(raws, lane))
  {
    if raws != [] {
      var n := |raws| - 1;
      ShareReversed(raws[..n], lane);
      ShareAppend([raws[n]], Reversed(raws[..n]), lane);
      assert [raws[n]][..0] == [];
      var own := if BelongsTo(raws[n], lane) then [raws[n]] else [];
      assert Share([raws[n]], lane) == own;
      ReversedAppend(Share(raws[..n], lane), own);
      assert own != [] ==> own[..0] == [] && Reversed(own) == own;
    }
  }

  /** What workers take from a destination after the split: first its old messages, then its share
      of the source in the order the source would have been consumed. */
  lemma ConsumptionOrder(source: seq<Raw>, present: seq<Raw>, lane: Lane)
    ensures Reversed(Share(source, lane) + present) == Reversed(present) + Share(Reversed(source), lane)
  {
    ReversedAppend(Share(source, lane), present);
    ShareReversed(source, lane);
  }

  /** The shares divide the supported messages without loss. */
  lemma {:induction false} SharesConserve(raws: seq<Raw>)
    requires forall raw :: raw in raws ==> Supported(raw)
    ensures multiset(Share(raws, Mapping)) + multiset(Share(raws, Research)) == multiset(raws)
  {
    if raws != [] {
      var n := |raws| - 1;
      assert raws == raws[..n] + [raws[n]];
      SharesConserve(raws[..n]);
      assert Supported(raws[n]);
    }
  }

  // ------------------------------------------------------------ the transaction

  datatype Lists = Lists(source: seq<Raw>, mapping: seq<Raw>, research: seq<Raw>, backups: map<string, seq<Raw>>)

  /** The effect of the transaction. */
  function Split(s: Lists, plan: Plan, backup: string): Lists {
    Lists([], plan.mapping + s.mapping, plan.research + s.research,
          if plan.messages == [] then s.backups
          else s.backups[backup := (if backup in s.backups then s.backups[backup] else []) + plan.messages])
  }

  class Broker {
    var source: seq<Raw>
    var mapping: seq<Raw>
    var research: seq<Raw>
    var backups: map<string, seq<Raw>>

    constructor (source: seq<Raw>, mapping: seq<Raw>, research: seq<Raw>)
      ensures State() == Lists(source, mapping, research, map[])
    {
      this.source, this.mapping, this.research, this.backups := source, mapping, research, map[];
    }

    function State(): Lists
      reads this
    {
      Lists(source, mapping, research, backups)
    }

    /** `touched`: another client wrote to a watched list between the watch and the execution, so
        the transaction is discarded. */
    method ApplyPlan(plan: Plan, stamp: string, touched: bool) returns (r: Result<nat, Error>)
      modifies this
      ensures State() == old(State()) || State() == Split(old(State()), plan, "market-loop:backup:queue:llm:" + stamp)
      ensures State() == Split(old(State()), plan, "market-loop:backup:queue:llm:" + stamp)
              <== plan.messages == old(source) && !touched
      ensures plan.messages != old(source) ==> r == Err(SourceChanged)
      ensures plan.messages == old(source) && touched ==> r == Err(WatchFailed)
      ensures r in {Err(SourceChanged), Err(WatchFailed)} ==> State() == old(State())
      ensures r.Ok? ==> r.value == |plan.messages| && plan.messages == old(source) && !touched
      ensures r == Err(CountMismatch) <==>
                plan.messages == old(source) && !touched && |plan.mapping| + |plan.research| != |plan.messages|
    {
      if source != plan.messages {
        return Err(SourceChanged);
      }
      if touched {
        return Err(WatchFailed);
      }
      var backup := "market-loop:backup:queue:llm:" + stamp;
      if plan.messages != [] {
        backups := backups[backup := (if backup in backups then backups[backup] else []) + plan.messages];
      }
      source := [];
      if plan.mapping != [] {
        mapping := PushedLeft(mapping, Reversed(plan.mapping));
      }
      if plan.research != [] {
        research := PushedLeft(research, Reversed(plan.research));
      }
      PushedReversed(old(mapping), plan.mapping);
      PushedReversed(old(research), plan.research);
      assert [] + old(mapping) == old(mapping) && [] + old(research) == old(research);
      var migrated := |plan.mapping| + |plan.research|;
      if migrated != |plan.messages| {
        return Err(CountMismatch);
      }
      return Ok(migrated);
    }
  }

  /** Applying such a plan, whatever the destinations hold by then, empties the source, appends it to
      the backup, loses and duplicates nothing, and keeps the consumption order of every lane. */
  lemma SplitIsSound(s: Lists, plan: Plan, backup: string)
    requires DividesSource(plan) && plan.messages == s.source
    ensures var t := Split(s, plan, backup);
            && t.source == []
            && (s.source != [] && backup !in s.backups ==> backup in t.backups && t.backups[backup] == s.source)
            && multiset(t.mapping) + multiset(t.research) == multiset(s.source) + multiset(s.mapping) + multiset(s.research)
            && Reversed(t.mapping) == Reversed(s.mapping) + Share(Reversed(s.source), Mapping)
            && Reversed(t.research) == Reversed(s.research) + Share(Reversed(s.source), Research)
  {
    hide Ids, DistinctIds, Supported, Reversed, Share;
    SharesConserve(plan.messages);
    ConsumptionOrder(s.source, s.mapping, Mapping);
    ConsumptionOrder(s.source, s.research, Research);
  }

  /** The final count check never fails on such a plan. */
  lemma CountsMatch(plan: Plan)
    requires DividesSource(plan)
    ensures |plan.mapping| + |plan.research| == |plan.messages|
  {
    SharesConserve(plan.messages);
    assert |multiset(plan.mapping) + multiset(plan.research)| == |plan.mapping| + |plan.research|;
  }
}
