/** What the extraction work list keeps over every run of updates, cancels, clears and finishes. */
module ExtractionHistory {
  import opened Common
  import opened ExtractionQueue

  datatype Stamped = Stamped(event: Event, at: Time)

  type Run = seq<Stamped>

  function After(p: Payload, run: Run): Payload {
    if run == [] then p
    else
      var last := run[|run| - 1];
      Step(After(p, run[..|run| - 1]), last.event, last.at)
  }

  /** The callers of the update only ever report these statuses. */
  predicate Reportable(e: Event) {
    e.Update? ==> e.status in {Running, Retrying, Completed, Failed}
  }

  predicate ReportableRun(run: Run) {
    forall k :: 0 <= k < |run| ==> Reportable(run[k].event)
  }

  function LastTime(start: Time, run: Run): Time {
    if run == [] then start else run[|run| - 1].at
  }

  /** The clock never goes backwards. */
  predicate Monotone(start: Time, run: Run) {
    run == []
    || (Monotone(start, run[..|run| - 1]) && LastTime(start, run[..|run| - 1]) <= run[|run| - 1].at)
  }

  lemma StepMoves(p: Payload, e: Event, now: Time, i: nat)
    requires i < |p.items|
    ensures |Step(p, e, now).items| == |p.items|
    ensures Step(p, e, now).items[i] == Moved(p.items[i], MoveOf(p, e, i), now)
    ensures Step(p, e, now).total == p.total && Step(p, e, now).scanTask == p.scanTask
  {
    hide Moved, MoveOf, Aborts, Summary, Has, Truthy;
    StayMoves(now);
    if (e.Update? || e.CancelTask?) && !Touches(p, e) {
      assert MoveOf(p, e, i) == Stay;
    } else if e.Finish? || e.Interrupt? {
      NoMove(p, e, i);
    }
  }

  lemma NoMove(p: Payload, e: Event, i: nat)
    requires i < |p.items| && (e.Finish? || e.Interrupt?)
    ensures MoveOf(p, e, i) == Stay
  {
  }

  lemma {:induction false} RunKeepsLength(p: Payload, run: Run)
    ensures |After(p, run).items| == |p.items| && After(p, run).total == p.total && After(p, run).scanTask == p.scanTask
  {
    hide Step;
    if run != [] {
      RunKeepsLength(p, run[..|run| - 1]);
      StepKeepsLength(After(p, run[..|run| - 1]), run[|run| - 1].event, run[|run| - 1].at);
    }
  }

  lemma StepKeepsLength(p: Payload, e: Event, now: Time)
    ensures |Step(p, e, now).items| == |p.items| && Step(p, e, now).total == p.total && Step(p, e, now).scanTask == p.scanTask
  {
  }

  // ------------------------------------------------------------ identity and totals

  predicate SameIdentity(a: Item, b: Item) {
    a.newsId == b.newsId && a.taskId == b.taskId && a.instance == b.instance && a.queuedAt == b.queuedAt
  }

  /** Which items there are, and in which order, never changes. */
  lemma {:induction false} IdentitiesNeverChange(p: Payload, run: Run, i: nat)
    requires i < |p.items|
    ensures |After(p, run).items| == |p.items|
    ensures SameIdentity(After(p, run).items[i], p.items[i])
  {
    hide Step, Moved, MoveOf;
    RunKeepsLength(p, run);
    if run != [] {
      var before, last := After(p, run[..|run| - 1]), run[|run| - 1];
      IdentitiesNeverChange(p, run[..|run| - 1], i);
      StepMoves(before, last.event, last.at, i);
      MovesKeepIdentity(before.items[i], MoveOf(before, last.event, i), last.at);
    }
  }

  /** The five counters and the cancelled items always add up to the batch's total. */
  lemma TotalsAddUp(p: Payload, run: Run, c: Counts)
    requires IsFresh(p) && Counted(c, After(p, run).items)
    ensures c.queued + c.running + c.retrying + c.completed + c.failed + CountOf(After(p, run).items, Cancelled)
            == After(p, run).total
  {
    hide CountOf;
    RunKeepsLength(p, run);
    CountsAddUp(After(p, run).items);
  }

  // ------------------------------------------------------------ attempts and cancellation

  predicate AttemptRule(item: Item) {
    item.status == Running <==> item.attemptStartedAt.Some?
  }

  /** Reporting a status keeps the rule exactly for the statuses the callers use, or when no
      attempt is open. */
  lemma ReportKeepsAttemptRule(item: Item, move: Move, now: Time)
    requires move.Report? && AttemptRule(item)
    ensures AttemptRule(Moved(item, move, now))
            <==> (move.status in {Running, Retrying, Completed, Failed} || item.attemptStartedAt.None?)
  {
  }

  /** An item is running exactly when its attempt has a start time. */
  lemma {:induction false} RunningIffAttemptOpen(p: Payload, run: Run, i: nat)
    requires IsFresh(p) && ReportableRun(run) && i < |p.items|
    ensures |After(p, run).items| == |p.items| && AttemptRule(After(p, run).items[i])
  {
    hide Step, Moved, MoveOf;
    RunKeepsLength(p, run);
    if run != [] {
      var before, last := After(p, run[..|run| - 1]), run[|run| - 1];
      RunningIffAttemptOpen(p, run[..|run| - 1], i);
      StepMoves(before, last.event, last.at, i);
      MoveKeepsAttemptRule(before, last.event, last.at, i);
    }
  }

  lemma MoveKeepsAttemptRule(p: Payload, e: Event, now: Time, i: nat)
    requires i < |p.items| && AttemptRule(p.items[i]) && Reportable(e)
    ensures AttemptRule(Moved(p.items[i], MoveOf(p, e, i), now))
  {
    var move := MoveOf(p, e, i);
    if move.Report? {
      ReportKeepsAttemptRule(p.items[i], move, now);
    }
  }

  /** A terminal item has an end time, none in the future; a running one has none. */
  predicate EndRule(item: Item, last: Time) {
    && (item.status in {Completed, Failed, Cancelled} ==> item.completedAt.Some? && item.completedAt.value <= last)
    && (item.status == Running ==> item.completedAt.None?)
  }

  lemma {:induction false} EndTimesMatchStatus(p: Payload, start: Time, run: Run, i: nat)
    requires IsFresh(p) && ReportableRun(run) && Monotone(start, run) && i < |p.items|
    ensures |After(p, run).items| == |p.items| && EndRule(After(p, run).items[i], LastTime(start, run))
  {
    hide Step, Moved, MoveOf, EndRule;
    RunKeepsLength(p, run);
    if run == [] {
      FreshEndRule(p, start, i);
    } else {
      var rest, last := run[..|run| - 1], run[|run| - 1];
      var before := After(p, rest);
      EndTimesMatchStatus(p, start, rest, i);
      RunKeepsLength(p, rest);
      StepMoves(before, last.event, last.at, i);
      MoveIsReportable(before, last.event, i);
      MoveKeepsEndRule(before.items[i], MoveOf(before, last.event, i), LastTime(start, rest), last.at);
    }
  }

  lemma FreshEndRule(p: Payload, start: Time, i: nat)
    requires IsFresh(p) && i < |p.items|
    ensures EndRule(p.items[i], start)
  {
  }

  lemma MoveKeepsEndRule(item: Item, move: Move, last: Time, now: Time)
    requires EndRule(item, last) && last <= now
    requires move.Report? ==> move.status in {Running, Retrying, Completed, Failed}
    ensures EndRule(Moved(item, move, now), now)
  {
  }

  /** A cancelled item never changes again. */
  lemma {:induction false} CancelledIsFinal(p: Payload, run: Run, i: nat)
    requires i < |p.items| && p.items[i].status == Cancelled
    ensures |After(p, run).items| == |p.items| && After(p, run).items[i] == p.items[i]
  {
    hide Step, Moved, MoveOf;
    RunKeepsLength(p, run);
    if run != [] {
      var before, last := After(p, run[..|run| - 1]), run[|run| - 1];
      CancelledIsFinal(p, run[..|run| - 1], i);
      StepMoves(before, last.event, last.at, i);
      CancelledStays(before, last.event, i);
      StayMoves(last.at);
    }
  }

  lemma CancelledStays(p: Payload, e: Event, i: nat)
    requires i < |p.items| && p.items[i].status == Cancelled
    ensures MoveOf(p, e, i) == Stay
  {
  }

  /** A clear scoped to one instance leaves every other instance's items as they were. */
  lemma ScopedClear(p: Payload, instance: string, ownsGate: bool, now: Time, i: nat)
    requires i < |p.items|
    ensures var q := Step(p, Event.Clear(Some(instance), ownsGate), now);
            && |q.items| == |p.items|
            && (p.items[i].instance != Some(instance) || p.items[i].status in {Completed, Cancelled}
                <==> q.items[i] == p.items[i])
  {
    var e := Event.Clear(Some(instance), ownsGate);
    StepMoves(p, e, now, i);
  }

  // ------------------------------------------------------------ who has the last word on an item

  /** What the last event that reached item i said: an update's status and error, or cancelled. */
  function LastWord(p: Payload, run: Run, i: nat): (ItemStatus, Option<string>)
    requires i < |p.items|
  {
    if run == [] then (p.items[i].status, p.items[i].error)
    else
      RunKeepsLength(p, run[..|run| - 1]);
      var before, e := After(p, run[..|run| - 1]), run[|run| - 1].event;
      if !Reached(before, e, i) then LastWord(p, run[..|run| - 1], i)
      else if e.Update? then (e.status, e.error)
      else (Cancelled, None)
  }

  /** Over every run, an item's status and error are those of the last update that reached it, or it is
      cancelled when a cancel or a clear reached it last. */
  lemma {:induction false} StatusIsLastWord(p: Payload, run: Run, i: nat)
    requires i < |p.items|
    ensures |After(p, run).items| == |p.items|
    ensures (After(p, run).items[i].status, After(p, run).items[i].error) == LastWord(p, run, i)
  {
    hide Step, Moved, MoveOf, Reached;
    RunKeepsLength(p, run);
    if run != [] {
      var before, last := After(p, run[..|run| - 1]), run[|run| - 1];
      StatusIsLastWord(p, run[..|run| - 1], i);
      StepMoves(before, last.event, last.at, i);
      MoveMeans(before, last.event, i);
      StayMoves(last.at);
      var move := MoveOf(before, last.event, i);
      if Reached(before, last.event, i) {
        if last.event.Update? {
          ReportedMeans(before.items[i], move, last.at);
        } else {
          CancelledMeans(before.items[i], last.at);
        }
      }
    }
  }

  // ------------------------------------------------------------ the batch state

  /** The last event that wrote the batch state set it to something other than the summary. */
  predicate Overruled(p: Payload, run: Run) {
    run != []
    && var before, e := After(p, run[..|run| - 1]), run[|run| - 1].event;
       match e
       case Update(_, _, _, _, _) => !Touches(before, e) && Overruled(p, run[..|run| - 1])
       case CancelTask(_, _) => !Touches(before, e) && Overruled(p, run[..|run| - 1])
       case Clear(instance, ownsGate) => Aborts(before, instance, ownsGate)
       case Finish(scanTask, _) =>
         (before.scanTask == Some(scanTask) && before.state != BatchCancelled) || Overruled(p, run[..|run| - 1])
       case Interrupt(scanTask) => before.scanTask == Some(scanTask) || Overruled(p, run[..|run| - 1])
  }

  /** Unless a finish, an interruption or an aborting clear has spoken since, the batch state is
      the running > retrying > queued > failed > completed summary of the items. */
  lemma {:induction false} StateIsSummary(p: Payload, run: Run)
    requires p.state == Summary(p.items)
    ensures Overruled(p, run) || After(p, run).state == Summary(After(p, run).items)
  {
    hide Summary, ItemsAfter, Aborts, Touches, Has;
    if run != [] {
      StateIsSummary(p, run[..|run| - 1]);
    }
  }

  /** After a clear of the whole batch nothing is left to work on, and from then on only an
      update that names a completed item can change an item. */
  lemma FullClearEndsTheBatch(p: Payload, ownsGate: bool, now: Time, e: Event, i: nat)
    requires i < |p.items|
    ensures var q := Step(p, Event.Clear(None, ownsGate), now);
            && |q.items| == |p.items|
            && q.items[i].status in {Completed, Cancelled}
            && q.state == BatchCancelled
            && (MoveOf(q, e, i) != Stay ==> e.Update? && q.items[i].status == Completed)
  {
    StepMoves(p, Event.Clear(None, ownsGate), now, i);
  }

  // ------------------------------------------------------------ time

  /** How long item i was running, up to the last event. */
  function RunningTime(p: Payload, start: Time, run: Run, i: nat): int
    requires i < |p.items|
  {
    if run == [] then 0
    else
      var rest := run[..|run| - 1];
      RunningTime(p, start, rest, i) + RunningSince(p, start, rest, i, run[|run| - 1].at)
  }

  /** How long item i has been running since the last event. */
  function RunningSince(p: Payload, start: Time, run: Run, i: nat, now: Time): int
    requires i < |p.items|
  {
    RunKeepsLength(p, run);
    if After(p, run).items[i].status == Running then now - LastTime(start, run) else 0
  }

  /** How often item i entered the running status. */
  function Attempts(p: Payload, run: Run, i: nat): nat
    requires i < |p.items|
  {
    if run == [] then 0
    else
      RunKeepsLength(p, run);
      RunKeepsLength(p, run[..|run| - 1]);
      Attempts(p, run[..|run| - 1], i)
      + if After(p, run[..|run| - 1]).items[i].status != Running && After(p, run).items[i].status == Running then 1 else 0
  }

  /** The reported durations of an item: in the queue, and executing. */
  function Durations(item: Item, now: Time): (Option<nat>, Option<nat>) {
    var queueEnd := if item.startedAt.Some? then item.startedAt
                    else if item.status == Queued then Some(now) else None;
    var queue := if item.queueDuration.Some? then item.queueDuration
                 else if queueEnd.Some? then ElapsedMs(item.queuedAt, queueEnd.value) else None;
    var execution := ExecutionAt(item, now);
    (queue, if item.startedAt.None? && execution == 0 then None else Some(execution))
  }

  /** The books of an item at the time of the last event. */
  predicate Balanced(item: Item, running: int, attempts: nat, last: Time) {
    && AttemptRule(item)
    && (item.attemptStartedAt.Some? ==>
          var open := last - item.attemptStartedAt.value;
          && open >= 0 && attempts > 0
          && 0 <= running - open - 1000 * item.execution <= 999 * (attempts - 1))
    && (item.attemptStartedAt.None? ==> 0 <= running - 1000 * item.execution <= 999 * attempts)
    && (item.startedAt.None? <==> attempts == 0)
    && (item.startedAt.None? ==> item.queueDuration.None? && item.execution == 0)
    && (item.startedAt.Some? ==> item.queueDuration == ElapsedMs(item.queuedAt, item.startedAt.value))
  }

  lemma BalancedStep(item: Item, move: Move, running: int, attempts: nat, last: Time, now: Time)
    requires Balanced(item, running, attempts, last) && last <= now
    requires move.Report? ==> move.status in {Running, Retrying, Completed, Failed}
    ensures var after := Moved(item, move, now);
            Balanced(after, running + if item.status == Running then now - last else 0,
                     attempts + if item.status != Running && after.status == Running then 1 else 0, now)
  {
    if item.attemptStartedAt.Some? {
      var open := now - item.attemptStartedAt.value;
      assert 0 <= open - 1000 * (open / 1000) <= 999;
    }
  }

  lemma MoveIsReportable(p: Payload, e: Event, i: nat)
    requires i < |p.items| && Reportable(e)
    ensures MoveOf(p, e, i).Report? ==> MoveOf(p, e, i).status in {Running, Retrying, Completed, Failed}
  {
  }

  lemma {:induction false} BooksBalance(p: Payload, start: Time, run: Run, i: nat)
    requires IsFresh(p) && ReportableRun(run) && Monotone(start, run) && i < |p.items|
    ensures |After(p, run).items| == |p.items|
    ensures Balanced(After(p, run).items[i], RunningTime(p, start, run, i), Attempts(p, run, i), LastTime(start, run))
  {
    RunKeepsLength(p, run);
    if run != [] {
      hide Balanced, Step, Moved, MoveOf, IsFresh;
      var rest, last := run[..|run| - 1], run[|run| - 1];
      var before := After(p, rest);
      BooksBalance(p, start, rest, i);
      RunKeepsLength(p, rest);
      StepMoves(before, last.event, last.at, i);
      MoveIsReportable(before, last.event, i);
      BalancedStep(before.items[i], MoveOf(before, last.event, i), RunningTime(p, start, rest, i), Attempts(p, rest, i),
                   LastTime(start, rest), last.at);
    }
  }

  /** Time conservation: at any moment the reported execution time is the total time the item has
      been running, short by less than one millisecond for each attempt, and it is missing exactly
      when the item never ran. */
  lemma ExecutionTimeIsRunningTime(p: Payload, start: Time, run: Run, i: nat, now: Time)
    requires IsFresh(p) && ReportableRun(run) && Monotone(start, run) && i < |p.items| && LastTime(start, run) <= now
    ensures |After(p, run).items| == |p.items|
    ensures var reported := Durations(After(p, run).items[i], now).1;
            var running := RunningTime(p, start, run, i) + RunningSince(p, start, run, i, now);
            && (reported.None? <==> Attempts(p, run, i) == 0)
            && (reported.None? ==> running == 0)
            && (reported.Some? ==> 0 <= running - 1000 * reported.value <= 999 * Attempts(p, run, i))
  {
    BooksBalance(p, start, run, i);
    ReportIsBalanced(After(p, run).items[i], RunningTime(p, start, run, i), Attempts(p, run, i), LastTime(start, run), now);
  }

  lemma ReportIsBalanced(item: Item, running: int, attempts: nat, last: Time, now: Time)
    requires Balanced(item, running, attempts, last) && last <= now
    ensures var reported := Durations(item, now).1;
            var total := running + if item.status == Running then now - last else 0;
            && (reported.None? <==> attempts == 0)
            && (reported.None? ==> total == 0)
            && (reported.Some? ==> 0 <= total - 1000 * reported.value <= 999 * attempts)
  {
    if item.attemptStartedAt.Some? {
      var open := now - item.attemptStartedAt.value;
      assert 0 <= open - 1000 * (open / 1000) <= 999;
    }
  }

  /** Once an item has started, its start and its reported time in the queue never change again:
      they are fixed at the first start. */
  lemma {:induction false} QueueTimeIsFixed(p: Payload, start: Time, run: Run, later: Run, i: nat, now: Time)
    requires IsFresh(p) && ReportableRun(run + later) && Monotone(start, run + later) && i < |p.items|
    requires |After(p, run).items| == |p.items| && After(p, run).items[i].startedAt.Some?
    ensures |After(p, run + later).items| == |p.items|
    ensures var started := After(p, run).items[i].startedAt;
            var item := After(p, run + later).items[i];
            && item.startedAt == started
            && Durations(item, now).0 == ElapsedMs(p.items[i].queuedAt, started.value)
  {
    hide Step, Moved, MoveOf, IsFresh, Durations;
    var all := run + later;
    BooksBalance(p, start, all, i);
    IdentitiesNeverChange(p, all, i);
    if later == [] {
      assert all == run;
    } else {
      var n := |later| - 1;
      assert all[..|all| - 1] == run + later[..n];
      QueueTimeIsFixed(p, start, run, later[..n], i, now);
      var before, last := After(p, run + later[..n]), all[|all| - 1];
      StepMoves(before, last.event, last.at, i);
      StartStays(before.items[i], MoveOf(before, last.event, i), last.at);
    }
    QueueReport(After(p, all).items[i], RunningTime(p, start, all, i), Attempts(p, all, i), LastTime(start, all), now);
  }

  lemma StartStays(item: Item, move: Move, now: Time)
    requires item.startedAt.Some?
    ensures Moved(item, move, now).startedAt == item.startedAt
  {
  }

  lemma QueueReport(item: Item, running: int, attempts: nat, last: Time, now: Time)
    requires Balanced(item, running, attempts, last) && item.startedAt.Some?
    ensures Durations(item, now).0 == ElapsedMs(item.queuedAt, item.startedAt.value)
  {
  }
}
