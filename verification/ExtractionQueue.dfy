/** The per-news extraction work list of a scan: item statuses, batch state and time accounting. */
module ExtractionQueue {
  import opened Common

  /** Microseconds; a timestamp that cannot be parsed is absent. */
  type Time = int

  datatype ItemStatus = Queued | Running | Retrying | Completed | Failed | Cancelled

  datatype BatchState =
    | Idle
    | BatchQueued
    | BatchRunning
    | BatchRetrying
    | BatchCompleted
    | BatchCompletedWithErrors
    | BatchFailed
    | BatchCancelled
    | BatchInterrupted

  datatype Item = Item(
    taskId: Option<string>,
    instance: Option<string>,
    newsId: string,
    status: ItemStatus,
    attempt: nat,
    queuedAt: Option<Time>,
    startedAt: Option<Time>,
    attemptStartedAt: Option<Time>,
    completedAt: Option<Time>,
    updatedAt: Time,
    queueDuration: Option<nat>,
    execution: nat,
    error: Option<string>)

  datatype Payload = Payload(
    scanTask: Option<string>,
    state: BatchState,
    total: nat,
    items: seq<Item>,
    error: Option<string>)

  /** Neither missing nor the empty string. */
  predicate Truthy(o: Option<string>) { o.Some? && o.value != "" }

  predicate Active(s: ItemStatus) { s == Queued || s == Running || s == Retrying }

  predicate Clearable(s: ItemStatus) { Active(s) || s == Failed }

  /** Whole milliseconds from start to end, never negative. */
  function ElapsedMs(start: Option<Time>, end: Time): Option<nat> {
    if start.None? then None
    else if end <= start.value then Some(0)
    else Some((end - start.value) / 1000)
  }

  /** Execution time once the running attempt, if any, is closed at `now`. */
  function ExecutionAt(item: Item, now: Time): nat {
    item.execution + match ElapsedMs(item.attemptStartedAt, now) case None => 0 case Some(ms) => ms
  }

  // ------------------------------------------------------------ one item

  /** What one event does to one item. */
  datatype Move = Stay | Report(status: ItemStatus, attempt: Option<nat>, error: Option<string>) | Cancel

  function Reported(item: Item, move: Move, now: Time): Item
    requires move.Report?
  {
    var a :=
      if move.status == Running then
        item.(startedAt := if item.startedAt.None? then Some(now) else item.startedAt,
              queueDuration := if item.startedAt.None? then ElapsedMs(item.queuedAt, now) else item.queueDuration,
              attemptStartedAt := if item.status != Running || item.attemptStartedAt.None? then Some(now)
                                  else item.attemptStartedAt,
              completedAt := None)
      else if move.status in {Retrying, Completed, Failed} then
        item.(execution := ExecutionAt(item, now),
              attemptStartedAt := None,
              completedAt := if move.status == Retrying then item.completedAt else Some(now))
      else item;
    a.(status := move.status, updatedAt := now, error := move.error,
       attempt := if move.attempt.Some? then move.attempt.value else item.attempt)
  }

  function CancelledItem(item: Item, now: Time): Item {
    item.(execution := ExecutionAt(item, now), status := Cancelled, updatedAt := now, completedAt := Some(now),
          attemptStartedAt := None, error := None)
  }

  function Moved(item: Item, move: Move, now: Time): Item {
    match move
    case Stay => item
    case Report(_, _, _) => Reported(item, move, now)
    case Cancel => CancelledItem(item, now)
  }

  // ------------------------------------------------------------ the batch

  function CountOf(items: seq<Item>, s: ItemStatus): (n: nat)
    ensures n <= |items|
    ensures n > 0 <==> exists i :: 0 <= i < |items| && items[i].status == s
  {
    if items == [] then 0
    else
      var n := CountOf(items[..|items| - 1], s);
      if items[|items| - 1].status == s then n + 1 else n
  }

  predicate Has(items: seq<Item>, s: ItemStatus) {
    exists i :: 0 <= i < |items| && items[i].status == s
  }

  /** The batch state the items stand for: the first of running, retrying, queued, failed that
      some item is in, and completed otherwise. */
  function Summary(items: seq<Item>): BatchState {
    if Has(items, Running) then BatchRunning
    else if Has(items, Retrying) then BatchRetrying
    else if Has(items, Queued) then BatchQueued
    else if Has(items, Failed) then BatchCompletedWithErrors
    else BatchCompleted
  }

  lemma {:induction false} CountsAddUp(items: seq<Item>)
    ensures CountOf(items, Queued) + CountOf(items, Running) + CountOf(items, Retrying) + CountOf(items, Completed)
            + CountOf(items, Failed) + CountOf(items, Cancelled) == |items|
  {
    if items != [] {
      CountsAddUp(items[..|items| - 1]);
    }
  }

  /** The changes a batch can meet. `ownsGate`: the scan gate names this batch's scan. */
  datatype Event =
    | Update(scanTask: string, newsId: string, status: ItemStatus, attempt: Option<nat>, error: Option<string>)
    | CancelTask(taskId: string, newsIdOrNone: Option<string>)
    | Clear(instance: Option<string>, ownsGate: bool)
    | Finish(finished: string, failure: Option<string>)
    | Interrupt(interrupted: string)

  predicate Cancels(item: Item, taskId: string, newsId: Option<string>) {
    (item.taskId == Some(taskId) || newsId == Some(item.newsId)) && Active(item.status)
  }

  predicate InScope(item: Item, instance: Option<string>) {
    (instance.None? || item.instance == instance) && Clearable(item.status)
  }

  /** The items an update or an item cancel looks for. */
  predicate Addressed(e: Event, item: Item) {
    match e
    case Update(_, newsId, _, _, _) => item.newsId == newsId
    case CancelTask(taskId, newsId) => Cancels(item, taskId, newsId)
    case _ => false
  }

  /** Only the first such item counts. */
  predicate FirstAddressed(items: seq<Item>, e: Event, i: nat)
    requires i < |items|
  {
    Addressed(e, items[i]) && forall j :: 0 <= j < i ==> !Addressed(e, items[j])
  }

  function MoveOf(p: Payload, e: Event, i: nat): Move
    requires i < |p.items|
  {
    match e
    case Update(scanTask, newsId, status, attempt, error) =>
      if p.scanTask == Some(scanTask) && FirstAddressed(p.items, e, i) && p.items[i].status != Cancelled
      then Report(status, attempt, error) else Stay
    case CancelTask(taskId, newsId) =>
      if FirstAddressed(p.items, e, i) && Truthy(p.items[i].taskId) then Cancel else Stay
    case Clear(instance, _) => if InScope(p.items[i], instance) then Cancel else Stay
    case Finish(_, _) => Stay
    case Interrupt(_) => Stay
  }

  predicate Touches(p: Payload, e: Event) {
    exists i :: 0 <= i < |p.items| && MoveOf(p, e, i) != Stay
  }

  function ItemsAfter(p: Payload, e: Event, now: Time): (items: seq<Item>)
    ensures |items| == |p.items|
  {
    seq(|p.items|, i requires 0 <= i < |p.items| => Moved(p.items[i], MoveOf(p, e, i), now))
  }

  /** A clear gives up the whole batch when it is not scoped to an instance, or when it revokes a
      task of the scan that holds the gate. */
  predicate Aborts(p: Payload, instance: Option<string>, ownsGate: bool) {
    instance.None?
    || (ownsGate && exists i :: 0 <= i < |p.items| && InScope(p.items[i], instance)
                      && Active(p.items[i].status) && Truthy(p.items[i].taskId))
  }

  function Step(p: Payload, e: Event, now: Time): Payload {
    var items := ItemsAfter(p, e, now);
    match e
    case Update(_, _, _, _, _) => if Touches(p, e) then p.(items := items, state := Summary(items)) else p
    case CancelTask(_, _) => if Touches(p, e) then p.(items := items, state := Summary(items)) else p
    case Clear(instance, ownsGate) =>
      p.(items := items, error := None,
         state := if Aborts(p, instance, ownsGate) then BatchCancelled else Summary(items))
    case Finish(scanTask, failure) =>
      if p.scanTask != Some(scanTask) || p.state == BatchCancelled then p
      else p.(error := failure,
              state := if Truthy(failure) then BatchFailed
                       else if Has(p.items, Failed) then BatchCompletedWithErrors else BatchCompleted)
    case Interrupt(scanTask) =>
      if p.scanTask == Some(scanTask) then p.(state := BatchInterrupted, error := Some("scan heartbeat expired")) else p
  }

  // ------------------------------------------------------------ changes, field by field

  /** The item is the same one, and now has this status, error and update time, the new attempt number if
      one was given, and an end time exactly if it has ended or is waiting for a retry with one. */
  predicate HasReport(before: Item, after: Item, status: ItemStatus, attempt: Option<nat>, error: Option<string>, now: Time) {
    && after.newsId == before.newsId && after.taskId == before.taskId && after.instance == before.instance
    && after.queuedAt == before.queuedAt
    && after.status == status && after.error == error && after.updatedAt == now
    && after.attempt == (match attempt case None => before.attempt case Some(n) => n)
    && after.completedAt == (if status == Running then None
                             else if status == Completed || status == Failed then Some(now) else before.completedAt)
    && after.startedAt == (if status == Running && before.startedAt == None then Some(now) else before.startedAt)
  }

  /** The item is the same one, cancelled now, without an error and without an open attempt. */
  predicate IsCancelledAt(before: Item, after: Item, now: Time) {
    && after.newsId == before.newsId && after.taskId == before.taskId && after.instance == before.instance
    && after.queuedAt == before.queuedAt && after.startedAt == before.startedAt && after.attempt == before.attempt
    && after.status == Cancelled && after.error == None && after.updatedAt == now && after.completedAt == Some(now)
    && after.attemptStartedAt == None
  }

  lemma ReportedMeans(item: Item, move: Move, now: Time)
    requires move.Report?
    ensures HasReport(item, Moved(item, move, now), move.status, move.attempt, move.error, now)
  {
  }

  lemma CancelledMeans(item: Item, now: Time)
    ensures IsCancelledAt(item, Moved(item, Cancel, now), now)
  {
  }

  /** The item is reached by the event: by an update of its scan as the first with the news id, unless it
      is cancelled; by a cancel as the first queued, running or retrying one with the task or news id, if
      it has a task id; by a clear if it is in the instance's scope and queued, running, retrying or
      failed. */
  predicate Reached(p: Payload, e: Event, i: nat)
    requires i < |p.items|
  {
    var item := p.items[i];
    match e
    case Update(scanTask, newsId, _, _, _) =>
      && p.scanTask == Some(scanTask) && item.newsId == newsId && item.status != Cancelled
      && forall j :: 0 <= j < i ==> p.items[j].newsId != newsId
    case CancelTask(taskId, newsId) =>
      && IsTarget(item, taskId, newsId) && item.taskId != None && item.taskId != Some("")
      && forall j :: 0 <= j < i ==> !IsTarget(p.items[j], taskId, newsId)
    case Clear(instance, _) => IsInScope(item, instance)
    case _ => false
  }

  predicate IsTarget(item: Item, taskId: string, newsId: Option<string>) {
    && (item.taskId == Some(taskId) || newsId == Some(item.newsId))
    && (item.status == Queued || item.status == Running || item.status == Retrying)
  }

  predicate IsInScope(item: Item, instance: Option<string>) {
    && (instance == None || item.instance == instance)
    && item.status != Completed && item.status != Cancelled
  }

  /** An event moves exactly the items it reaches. */
  lemma MoveMeans(p: Payload, e: Event, i: nat)
    requires i < |p.items|
    ensures MoveOf(p, e, i) != Stay <==> Reached(p, e, i)
    ensures Reached(p, e, i) ==>
              MoveOf(p, e, i) == if e.Update? then Report(e.status, e.attempt, e.error) else Cancel
  {
    if e.CancelTask? {
      forall j | 0 <= j <= i
        ensures Addressed(e, p.items[j]) <==> IsTarget(p.items[j], e.taskId, e.newsIdOrNone)
      {
      }
    }
  }

  /** The state the items stand for. */
  lemma SummaryMeans(items: seq<Item>)
    ensures Summary(items) == BatchRunning <==> exists x :: x in items && x.status == Running
    ensures Summary(items) == BatchCompleted <==> forall x :: x in items ==> x.status == Completed || x.status == Cancelled
    ensures Summary(items) == BatchRetrying <==>
              (exists x :: x in items && x.status == Retrying) && forall x :: x in items ==> x.status != Running
    ensures Summary(items) == BatchQueued <==>
              (exists x :: x in items && x.status == Queued) && forall x :: x in items ==> x.status != Running && x.status != Retrying
    ensures Summary(items) == BatchCompletedWithErrors <==>
              (exists x :: x in items && x.status == Failed)
              && forall x :: x in items ==> x.status == Failed || x.status == Completed || x.status == Cancelled
  {
    assert forall s :: Has(items, s) <==> exists x :: x in items && x.status == s;
  }

  // ------------------------------------------------------------ the stored work list

  datatype Entry = Entry(taskId: Option<string>, instance: Option<string>, newsId: string, queuedAt: Option<Time>)

  function FreshItem(e: Entry, now: Time): Item {
    Item(e.taskId, e.instance, e.newsId, Queued, 0, e.queuedAt, None, None, None, now, None, 0, None)
  }

  predicate IsFresh(p: Payload) {
    p.total == |p.items| && forall i :: 0 <= i < |p.items| ==>
      var it := p.items[i];
      it.status == Queued && it.startedAt.None? && it.attemptStartedAt.None? && it.queueDuration.None?
      && it.completedAt.None? && it.execution == 0
  }

  datatype Counts = Counts(queued: nat, running: nat, retrying: nat, completed: nat, failed: nat)

  predicate Counted(c: Counts, items: seq<Item>) {
    && c.queued == CountOf(items, Queued)
    && c.running == CountOf(items, Running)
    && c.retrying == CountOf(items, Retrying)
    && c.completed == CountOf(items, Completed)
    && c.failed == CountOf(items, Failed)
  }

  method NewsExtractionCounts(items: seq<Item>) returns (c: Counts)
    ensures Counted(c, items)
  {
    c := Counts(0, 0, 0, 0, 0);
    for i := 0 to |items|
      invariant Counted(c, items[..i])
    {
      assert items[..i + 1][..i] == items[..i];
      match items[i].status
      case Queued => c := c.(queued := c.queued + 1);
      case Running => c := c.(running := c.running + 1);
      case Retrying => c := c.(retrying := c.retrying + 1);
      case Completed => c := c.(completed := c.completed + 1);
      case Failed => c := c.(failed := c.failed + 1);
      case Cancelled =>
    }
    assert items[..|items|] == items;
  }

  /** The state the counters stand for. */
  function StateFromCounts(c: Counts): BatchState {
    if c.running > 0 then BatchRunning
    else if c.retrying > 0 then BatchRetrying
    else if c.queued > 0 then BatchQueued
    else if c.failed > 0 then BatchCompletedWithErrors
    else BatchCompleted
  }

  lemma CountsGiveSummary(c: Counts, items: seq<Item>)
    requires Counted(c, items)
    ensures StateFromCounts(c) == Summary(items)
  {
  }

  class WorkList {
    var payload: Payload

    constructor ()
      ensures payload == Payload(None, Idle, 0, [], None)
    {
      payload := Payload(None, Idle, 0, [], None);
    }

    method Initialize(scanTask: string, entries: seq<Entry>, now: Time)
      modifies this
      ensures IsFresh(payload) && payload.scanTask == Some(scanTask)
      ensures |payload.items| == |entries|
      ensures forall i :: 0 <= i < |entries| ==>
                && payload.items[i] == FreshItem(entries[i], now)
                && payload.items[i] == Item(entries[i].taskId, entries[i].instance, entries[i].newsId, Queued, 0, entries[i].queuedAt,
                                            None, None, None, now, None, 0, None)
      ensures payload.error == None && payload.state == if entries == [] then BatchCompleted else BatchQueued
      ensures payload.state == Summary(payload.items)
    {
      var items: seq<Item> := [];
      for i := 0 to |entries|
        invariant |items| == i
        invariant forall j :: 0 <= j < i ==> items[j] == FreshItem(entries[j], now)
      {
        items := items + [FreshItem(entries[i], now)];
      }
      payload := Payload(Some(scanTask), if entries == [] then BatchCompleted else BatchQueued, |items|, items, None);
      assert entries != [] ==> items[0].status == Queued;
    }

    method Update(scanTask: string, newsId: string, status: ItemStatus, attempt: Option<nat>, error: Option<string>,
                  now: Time) returns (result: Option<Payload>)
      modifies this
      ensures payload == Step(old(payload), Event.Update(scanTask, newsId, status, attempt, error), now)
      ensures result == if payload.scanTask == Some(scanTask) && NewsListed(payload.items, newsId) then Some(payload) else None
      ensures |payload.items| == |old(payload).items|
      ensures forall i :: 0 <= i < |payload.items| ==>
                if Reached(old(payload), Event.Update(scanTask, newsId, status, attempt, error), i)
                then HasReport(old(payload).items[i], payload.items[i], status, attempt, error, now)
                else payload.items[i] == old(payload).items[i]
    {
      hide Moved, Summary, Counted, Has, StateFromCounts;
      ghost var e := Event.Update(scanTask, newsId, status, attempt, error);
      if payload.scanTask != Some(scanTask) {
        return None;
      }
      for i := 0 to |payload.items|
        invariant payload == old(payload)
        invariant forall j :: 0 <= j < i ==> !Addressed(e, payload.items[j])
      {
        var item := payload.items[i];
        if item.newsId == newsId {
          if item.status == Cancelled {
            return Some(payload);
          }
          var move := Report(status, attempt, error);
          var items := payload.items[i := Moved(item, move, now)];
          SingleMove(payload, e, i, now);
          MovesKeepIdentity(item, move, now);
          ReportedMeans(item, move, now);
          assert items[i].newsId == newsId;
          var counts := NewsExtractionCounts(items);
          CountsGiveSummary(counts, items);
          payload := payload.(items := items, state := StateFromCounts(counts));
          return Some(payload);
        }
      }
      return None;
    }

    method CancelTask(taskId: string, newsId: Option<string>, now: Time) returns (revoked: seq<string>)
      modifies this
      ensures payload == Step(old(payload), Event.CancelTask(taskId, newsId), now)
      ensures payload == old(payload) <==> revoked == []
      ensures |payload.items| == |old(payload).items|
      ensures forall i :: 0 <= i < |payload.items| ==>
                if Reached(old(payload), Event.CancelTask(taskId, newsId), i)
                then IsCancelledAt(old(payload).items[i], payload.items[i], now) && revoked == [old(payload).items[i].taskId.value]
                else payload.items[i] == old(payload).items[i]
    {
      hide Moved, Summary, Counted, Has, StateFromCounts;
      ghost var e := Event.CancelTask(taskId, newsId);
      for i := 0 to |payload.items|
        invariant payload == old(payload)
        invariant forall j :: 0 <= j < i ==> !Addressed(e, payload.items[j])
      {
        var item := payload.items[i];
        if Cancels(item, taskId, newsId) {
          var items := payload.items[i := Moved(item, Cancel, now)];
          SingleMove(payload, e, i, now);
          if !Truthy(item.taskId) {
            return [];
          }
          CancelChanges(item, now);
          CancelledMeans(item, now);
          assert items[i] != old(payload).items[i];
          var counts := NewsExtractionCounts(items);
          CountsGiveSummary(counts, items);
          payload := payload.(items := items, state := StateFromCounts(counts));
          return [item.taskId.value];
        }
      }
      return [];
    }

    /** Cancels everything in scope; only tasks that were still active are to be revoked. */
    method Clear(instance: Option<string>, gate: Option<string>, now: Time)
      returns (cancelled: nat, taskIds: seq<string>, abort: bool)
      modifies this
      ensures var owns := Truthy(old(payload).scanTask) && gate == old(payload).scanTask;
              && payload == Step(old(payload), Event.Clear(instance, owns), now)
              && abort == Aborts(old(payload), instance, owns)
      ensures cancelled == |ScopeOf(old(payload).items, instance)|
      ensures taskIds == TasksOf(ScopeOf(old(payload).items, instance))
      ensures |payload.items| == |old(payload).items|
      ensures forall i :: 0 <= i < |payload.items| ==>
                if IsInScope(old(payload).items[i], instance) then IsCancelledAt(old(payload).items[i], payload.items[i], now)
                else payload.items[i] == old(payload).items[i]
      ensures forall task :: task in taskIds <==>
                exists i :: 0 <= i < |old(payload).items| && IsInScope(old(payload).items[i], instance)
                            && old(payload).items[i].status != Failed && old(payload).items[i].taskId == Some(task) && task != ""
    {
      hide Moved, Summary, Counted, Has, StateFromCounts, InScope, Active, ClearedUpTo, ScopeOf, TasksOf, ItemsAfter,
           IsInScope, IsCancelledAt;
      ghost var was := payload.items;
      cancelled, taskIds := 0, [];
      var items := payload.items;
      assert ClearedUpTo(was, items, 0, instance, now) && ScopeOf(was[..0], instance) == [] && TasksOf([]) == [] by {
        NothingCleared(was, instance, now);
      }
      for i := 0 to |items|
        invariant payload == old(payload) && |items| == |was| && items[i..] == was[i..]
        invariant ClearedUpTo(was, items, i, instance, now)
        invariant cancelled == |ScopeOf(was[..i], instance)|
        invariant taskIds == TasksOf(ScopeOf(was[..i], instance))
      {
        assert was[..i + 1] == was[..i] + [was[i]] && items[i..][0] == was[i..][0];
        ScopeSnoc(was[..i], was[i], instance);
        var item := items[i];
        ClearStep(was, items, i, instance, now);
        if InScope(item, instance) {
          cancelled := cancelled + 1;
          if Truthy(item.taskId) && Active(item.status) {
            taskIds := taskIds + [item.taskId.value];
          }
          items := items[i := Moved(item, Cancel, now)];
        }
      }
      assert was[..|was|] == was;
      ScopeTasks(was, instance);
      TasksMean(was, instance);
      ClearedMeans(was, items, instance, now);
      var ownsGate := Truthy(payload.scanTask) && gate == payload.scanTask;
      abort := instance.None? || (taskIds != [] && ownsGate);
      var remaining := NewsExtractionCounts(items);
      CountsGiveSummary(remaining, items);
      ClearedItems(payload, items, instance, ownsGate, now);
      payload := payload.(items := items, error := None,
                          state := if abort then BatchCancelled else StateFromCounts(remaining));
    }

    method Finish(scanTask: string, failure: Option<string>) returns (result: Option<Payload>)
      modifies this
      ensures forall now: Time {:trigger Step(old(payload), Event.Finish(scanTask, failure), now)} ::
                payload == Step(old(payload), Event.Finish(scanTask, failure), now)
      ensures result == if payload.scanTask == Some(scanTask) then Some(payload) else None
      ensures payload.items == old(payload).items && payload.scanTask == old(payload).scanTask
      ensures if old(payload).scanTask != Some(scanTask) || old(payload).state == BatchCancelled then payload == old(payload)
              else payload.error == failure
                   && payload.state == if failure != None && failure != Some("") then BatchFailed
                                       else if exists x :: x in payload.items && x.status == Failed then BatchCompletedWithErrors
                                       else BatchCompleted
    {
      hide ItemsAfter;
      if payload.scanTask != Some(scanTask) {
        return None;
      }
      if payload.state == BatchCancelled {
        return Some(payload);
      }
      var counts := NewsExtractionCounts(payload.items);
      payload := payload.(error := failure,
                          state := if Truthy(failure) then BatchFailed
                                   else if counts.failed > 0 then BatchCompletedWithErrors else BatchCompleted);
      return Some(payload);
    }
  }

  lemma ClearKeepsScan(p: Payload, instance: Option<string>, now: Time)
    ensures forall owns: bool {:trigger Event.Clear(instance, owns)} ::
              Step(p, Event.Clear(instance, owns), now).scanTask == p.scanTask
  {
  }

  predicate NewsListed(items: seq<Item>, newsId: string) {
    exists i :: 0 <= i < |items| && items[i].newsId == newsId
  }

  function ScopeOf(items: seq<Item>, instance: Option<string>): seq<Item> {
    if items == [] then []
    else ScopeOf(items[..|items| - 1], instance)
         + if InScope(items[|items| - 1], instance) then [items[|items| - 1]] else []
  }

  function TasksOf(items: seq<Item>): seq<string> {
    if items == [] then []
    else
      var last := items[|items| - 1];
      TasksOf(items[..|items| - 1]) + if Truthy(last.taskId) && Active(last.status) then [last.taskId.value] else []
  }

  lemma ScopeSnoc(items: seq<Item>, item: Item, instance: Option<string>)
    ensures ScopeOf(items + [item], instance) == ScopeOf(items, instance) + if InScope(item, instance) then [item] else []
    ensures InScope(item, instance) ==>
              TasksOf(ScopeOf(items + [item], instance))
              == TasksOf(ScopeOf(items, instance)) + if Truthy(item.taskId) && Active(item.status) then [item.taskId.value] else []
    ensures !InScope(item, instance) ==> TasksOf(ScopeOf(items + [item], instance)) == TasksOf(ScopeOf(items, instance))
  {
    hide InScope, Truthy, Active;
    assert (items + [item])[..|items|] == items;
    var scope := ScopeOf(items, instance);
    assert (scope + [item])[..|scope|] == scope;
    assert scope + [] == scope;
  }

  /** There is a task to revoke exactly when an active item in scope has a task id. */
  lemma {:induction false} ScopeTasks(items: seq<Item>, instance: Option<string>)
    ensures TasksOf(ScopeOf(items, instance)) != []
            <==> exists i :: 0 <= i < |items| && InScope(items[i], instance) && Active(items[i].status) && Truthy(items[i].taskId)
  {
    hide InScope, Truthy, Active;
    if items != [] {
      var n := |items| - 1;
      assert items == items[..n] + [items[n]];
      ScopeTasks(items[..n], instance);
      ScopeSnoc(items[..n], items[n], instance);
      assert forall i :: 0 <= i < n ==> items[..n][i] == items[i];
    }
  }

  /** The tasks to revoke are those of the queued, running and retrying items in scope. */
  lemma {:induction false} TasksMean(items: seq<Item>, instance: Option<string>)
    ensures forall task :: task in TasksOf(ScopeOf(items, instance)) <==>
              exists i :: 0 <= i < |items| && IsInScope(items[i], instance) && items[i].status != Failed
                          && items[i].taskId == Some(task) && task != ""
  {
    if items != [] {
      var n := |items| - 1;
      assert items == items[..n] + [items[n]];
      TasksMean(items[..n], instance);
      ScopeSnoc(items[..n], items[n], instance);
      ScopeMeans(items[n], instance);
      hide InScope, Truthy, Active, IsInScope;
      assert forall i :: 0 <= i < n ==> items[..n][i] == items[i];
    }
  }

  lemma ScopeMeans(item: Item, instance: Option<string>)
    ensures InScope(item, instance) <==> IsInScope(item, instance)
    ensures InScope(item, instance) && Truthy(item.taskId) && Active(item.status)
            <==> IsInScope(item, instance) && item.status != Failed && item.taskId != None && item.taskId != Some("")
    ensures Truthy(item.taskId) <==> item.taskId != None && item.taskId != Some("")
  {
  }

  lemma ClearedMeans(was: seq<Item>, items: seq<Item>, instance: Option<string>, now: Time)
    requires ClearedUpTo(was, items, |was|, instance, now)
    ensures forall i :: 0 <= i < |items| ==>
              if IsInScope(was[i], instance) then IsCancelledAt(was[i], items[i], now) else items[i] == was[i]
  {
    hide InScope, IsInScope, IsCancelledAt, Moved;
    forall i | 0 <= i < |items|
      ensures if IsInScope(was[i], instance) then IsCancelledAt(was[i], items[i], now) else items[i] == was[i]
    {
      ScopeMeans(was[i], instance);
      CancelledMeans(was[i], now);
    }
  }

  lemma StayMoves(now: Time)
    ensures forall item: Item {:trigger Moved(item, Stay, now)} :: Moved(item, Stay, now) == item
  {
  }

  predicate ClearedUpTo(was: seq<Item>, items: seq<Item>, n: nat, instance: Option<string>, now: Time) {
    && |items| == |was|
    && (forall j :: n <= j < |items| ==> items[j] == was[j])
    && (forall j :: 0 <= j < n && j < |items| ==> items[j] == if InScope(was[j], instance) then Moved(was[j], Cancel, now) else was[j])
  }

  lemma ClearedItems(p: Payload, items: seq<Item>, instance: Option<string>, ownsGate: bool, now: Time)
    requires ClearedUpTo(p.items, items, |p.items|, instance, now)
    ensures items == ItemsAfter(p, Event.Clear(instance, ownsGate), now)
  {
    hide InScope;
  }

  lemma NothingCleared(was: seq<Item>, instance: Option<string>, now: Time)
    ensures ClearedUpTo(was, was, 0, instance, now) && ScopeOf(was[..0], instance) == [] && TasksOf([]) == []
  {
  }

  lemma ClearStep(was: seq<Item>, items: seq<Item>, i: nat, instance: Option<string>, now: Time)
    requires i < |was| && ClearedUpTo(was, items, i, instance, now)
    ensures ClearedUpTo(was, if InScope(was[i], instance) then items[i := Moved(was[i], Cancel, now)] else items,
                        i + 1, instance, now)
  {
    hide InScope, Moved;
  }

  lemma CancelChanges(item: Item, now: Time)
    requires Active(item.status)
    ensures Moved(item, Cancel, now) != item
  {
  }

  lemma MovesKeepIdentity(item: Item, move: Move, now: Time)
    ensures var b := Moved(item, move, now);
            b.newsId == item.newsId && b.taskId == item.taskId && b.instance == item.instance && b.queuedAt == item.queuedAt
  {
  }

  /** An update or an item cancel that finds its item moves that item and no other. */
  lemma SingleMove(p: Payload, e: Event, i: nat, now: Time)
    requires i < |p.items| && FirstAddressed(p.items, e, i) && !e.Clear?
    ensures forall j :: 0 <= j < |p.items| && j != i ==> MoveOf(p, e, j) == Stay
    ensures ItemsAfter(p, e, now) == p.items[i := Moved(p.items[i], MoveOf(p, e, i), now)]
    ensures Touches(p, e) <==> MoveOf(p, e, i) != Stay
  {
    hide Moved, Addressed, Truthy;
    StayMoves(now);
    forall j | 0 <= j < |p.items| && j != i
      ensures MoveOf(p, e, j) == Stay
    {
      if MoveOf(p, e, j) != Stay {
        OnlyFirstMoves(p, e, j);
      }
    }
  }

  lemma OnlyFirstMoves(p: Payload, e: Event, j: nat)
    requires j < |p.items| && MoveOf(p, e, j) != Stay && !e.Clear?
    ensures FirstAddressed(p.items, e, j)
  {
  }
}
