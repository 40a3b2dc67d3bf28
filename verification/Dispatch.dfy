/** Research operations at the granularity at which processes interleave. A process reads a row,
    works on its own copy, and marks, saves, publishes and undoes in separate steps; anything other
    processes do may fall in between. */
module Dispatch {
  import opened Common
  import opened Research

  type ProcId = nat

  datatype Purpose = Joining(q: Request) | Requeueing | Sending(task: TaskId, instance: string)

  datatype Phase = HasRead | HasSaved | HasFailed

  /** Whether the dispatch marker must be written before the row is saved, and whether a failure to
      write it is undone like a failed publication. */
  datatype Marking = Free | MustMark | MustMarkOrUndo

  /** A process between reading a row and its last write to it: the copy it saves, the copy it saves
      when it fails, the revision of the row when it last read or saved it, and the asset whose
      admission lock it holds. */
  datatype Proc = Proc(id: RunId, purpose: Purpose, copy: Run, undo: Run, seen: nat, phase: Phase,
                       marking: Marking, locked: Option<string>)

  /** The stored state, how often each row was written (its `updated_at`), and the open processes. */
  datatype World = World(s: State, revisions: map<RunId, nat>, procs: map<ProcId, Proc>)

  function Revision(w: World, id: RunId): nat { if id in w.revisions then w.revisions[id] else 0 }

  /** A cancelled row only accepts a cancelled run. */
  predicate Blocked(s: State, id: RunId, run: Run) {
    id in s.runs && s.runs[id].status == Cancelled && run.status != Cancelled
  }

  function Write(w: World, id: RunId, run: Run): World {
    if Blocked(w.s, id, run) then w
    else w.(s := Saved(w.s, id, run), revisions := w.revisions[id := Revision(w, id) + 1])
  }

  // ------------------------------------------------------------ opening a process

  datatype Opening =
    | Joins(q: Request, id: RunId)
    | Creates(q: Request, id: RunId, task: TaskId, instance: string)
    | Reports(event: EventId, created: Time, id: RunId, task: TaskId, instance: string)
    | Retries(id: RunId, task: TaskId, instance: string)
    | Refreshes(id: RunId, task: TaskId, instance: string)
    | Recovers(id: RunId, task: TaskId, instance: string)
    | Migrates(id: RunId, task: TaskId, instance: string)
    | Requeues(id: RunId)

  predicate Draws(o: Opening) { !o.Joins? && !o.Requeues? }

  predicate Inserts(o: Opening) { o.Creates? || o.Reports? }

  function PurposeOf(o: Opening): Purpose {
    if o.Joins? then Joining(o.q) else if o.Requeues? then Requeueing else Sending(o.task, o.instance)
  }

  /** The attempt as the run records see it. */
  function AttemptOf(o: Opening): Attempt
    requires Draws(o)
  {
    Attempt(o.task, o.instance, true, Sent)
  }

  function CopyOf(o: Opening, s: State): Run
    requires !Inserts(o) ==> o.id in s.runs
    requires o.Joins? ==> Ordinary(o.q)
  {
    match o
    case Joins(q, id) => WithTrigger(s.runs[id], q.event.value)
    case Creates(q, _, task, instance) => NewRun(q, Some(task), Some(instance), "research_queue")
    case Reports(event, created, _, _, _) => NewReport(event, AttemptOf(o), created)
    case Retries(id, _, _) => RetriedRun(s.runs[id], AttemptOf(o))
    case Refreshes(id, _, _) => RefreshedRun(s.runs[id], AttemptOf(o))
    case Recovers(id, _, _) => RedispatchedRun(s.runs[id], AttemptOf(o), "research_dispatch_recovery")
    case Migrates(id, _, _) => RedispatchedRun(s.runs[id], AttemptOf(o), "event_priority_migration")
    case Requeues(id) =>
      s.runs[id].(status := Queued, error := false, steps := s.runs[id].steps + ["research_lease_recovery"])
  }

  /** What is saved when publishing raises: the failed run, or the row as it was read. */
  function UndoOf(o: Opening, s: State): Run
    requires !Inserts(o) ==> o.id in s.runs
    requires o.Joins? ==> Ordinary(o.q)
  {
    match o
    case Joins(_, _) => CopyOf(o, s)
    case Creates(_, _, _, _) => FailedRun(CopyOf(o, s), "research_queue")
    case Reports(_, _, _, _, _) => FailedRun(CopyOf(o, s), "event_research_queue")
    case Retries(_, _, _) => FailedRun(CopyOf(o, s), "event_research_retry_queue")
    case Refreshes(id, _, _) => UnrefreshedRun(s.runs[id], AttemptOf(o))
    case Recovers(id, _, _) => s.runs[id]
    case Migrates(id, _, _) => s.runs[id]
    case Requeues(_) => CopyOf(o, s)
  }

  /** An admission takes the lock of its asset before its first read; nothing else does. */
  function LockOf(o: Opening): Option<string> {
    if o.Joins? || o.Creates? then Some(o.q.asset) else None
  }

  /** Some process holds the admission lock of the asset. */
  predicate Locked(w: World, asset: string) {
    exists pid :: pid in w.procs && w.procs[pid].locked == Some(asset)
  }

  function MarkingOf(o: Opening): Marking {
    if o.Recovers? then MustMark else if o.Migrates? then MustMarkOrUndo else Free
  }

  /** Whether the decision is taken that opens such a process. */
  ghost predicate Opens(s: State, o: Opening) {
    && (Draws(o) ==> o.task !in s.issued)
    && (if Inserts(o) then o.id !in s.runs else o.id in s.runs)
    && match o
       case Joins(q, id) => Ordinary(q) && ActiveFor(s, q.asset, id)
       case Creates(q, _, _, _) => Answers(s, q.asset, None)
       case Reports(_, _, _, _, _) => true
       case Retries(id, _, _) => s.runs[id].kind.EventRun?
       case Refreshes(id, _, _) => s.runs[id].kind.EventRun?
       case Recovers(id, _, _) => s.runs[id].status == Queued
       case Migrates(id, _, _) => s.runs[id].kind.EventRun? && s.runs[id].status == Queued && !Migrated(s.runs[id])
       case Requeues(id) => s.runs[id].status in {Running, Verifying}
  }

  function Opened(w: World, pid: ProcId, o: Opening): World
    requires !Inserts(o) ==> o.id in w.s.runs
    requires o.Joins? ==> Ordinary(o.q)
  {
    var copy := CopyOf(o, w.s);
    var v := if Inserts(o) then Write(w, o.id, copy) else w;
    var saved := Inserts(o) || (o.Joins? && o.q.event.value in w.s.runs[o.id].triggers);
    v.(s := if Draws(o) then v.s.(issued := v.s.issued + {o.task}) else v.s,
       procs := v.procs[pid := Proc(o.id, PurposeOf(o), copy, UndoOf(o, w.s), Revision(v, o.id),
                                     if saved then HasSaved else HasRead, MarkingOf(o), LockOf(o))])
  }

  // ------------------------------------------------------------ actions

  datatype Action =
    | Act(step: Step)
    | Open(pid: ProcId, o: Opening)
    | Mark(pid: ProcId)
    | GiveUp(pid: ProcId)
    | Save(pid: ProcId)
    | Release(pid: ProcId)
    | AddMerged(pid: ProcId, id: RunId)
    | Publish(pid: ProcId, outcome: Outcome)
    | Unmark(pid: ProcId)
    | Undo(pid: ProcId)
    | Stop(pid: ProcId)

  /** Single reads and writes of a row: reservations, deliveries, status reports, cancellation, and
      the loss of a marker. */
  predicate Quiet(step: Step) {
    step.Reserve? || step.Deliver? || step.Progress? || step.CancelRun? || step.LoseMarker?
  }

  /** The row such a step writes, if it writes one. */
  function Touches(s: State, step: Step): Option<RunId>
    requires Quiet(step) && (step.Deliver? ==> step.m.run in s.runs)
  {
    match step
    case Reserve(_, active, cooling, id) => if active.Some? || cooling then None else Some(id)
    case Deliver(m) => if Superseded(s, m) || Answered(s.runs[m.run]) then None else Some(m.run)
    case Progress(id, _) => Some(id)
    case CancelRun(id) => Some(id)
    case LoseMarker(_) => None
  }

  /** The process lock of SQLite is held to the end of an admission; the transaction lock of PostgreSQL
      is released by the commit of the admission's first save. */
  ghost predicate Can(w: World, a: Action) {
    match a
    case Act(step) => Quiet(step) && Enabled(w.s, step) && (step.Reserve? ==> !Locked(w, step.q.asset))
    case Open(pid, o) => pid !in w.procs && Opens(w.s, o) && (LockOf(o).Some? ==> !Locked(w, LockOf(o).value))
    case Mark(pid) => pid in w.procs && w.procs[pid].purpose.Sending? && w.procs[pid].phase != HasFailed
    case GiveUp(pid) => pid in w.procs && w.procs[pid].phase == HasRead && w.procs[pid].marking == MustMarkOrUndo
    case Save(pid) => pid in w.procs && w.procs[pid].phase == HasRead && w.procs[pid].marking == Free
    case Release(pid) => pid in w.procs && w.procs[pid].locked.Some? && w.procs[pid].phase != HasRead
    case AddMerged(pid, id) =>
      pid in w.procs && w.procs[pid].purpose.Joining? && w.procs[pid].phase == HasSaved && id !in w.s.runs
      && w.procs[pid].purpose.q.event.Some?
    case Publish(pid, outcome) =>
      pid in w.procs && w.procs[pid].purpose.Sending? && w.procs[pid].phase == HasSaved && outcome != Crashed
    case Unmark(pid) => pid in w.procs && w.procs[pid].purpose.Sending? && w.procs[pid].phase == HasFailed
    case Undo(pid) => pid in w.procs && w.procs[pid].purpose.Sending? && w.procs[pid].phase == HasFailed
    case Stop(pid) => pid in w.procs
  }

  function Closed(w: World, pid: ProcId): World { w.(procs := w.procs - {pid}) }

  ghost function Do(w: World, a: Action): World
    requires Can(w, a)
  {
    match a
    case Act(step) =>
      var id := Touches(w.s, step);
      w.(s := Apply(w.s, step), revisions := if id.Some? then w.revisions[id.value := Revision(w, id.value) + 1] else w.revisions)
    case Open(pid, o) => Opened(w, pid, o)
    case Mark(pid) =>
      var p := w.procs[pid];
      w.(s := Marked(w.s, p.id, p.purpose.task), procs := w.procs[pid := p.(marking := Free)])
    case GiveUp(pid) => w.(procs := w.procs[pid := w.procs[pid].(phase := HasFailed)])
    case Save(pid) =>
      var p := w.procs[pid];
      var v := Write(w, p.id, p.copy);
      if p.purpose.Requeueing? then Closed(v, pid)
      else v.(procs := v.procs[pid := p.(phase := HasSaved, seen := Revision(v, p.id))])
    case Release(pid) => w.(procs := w.procs[pid := w.procs[pid].(locked := None)])
    case AddMerged(pid, id) =>
      var p := w.procs[pid];
      Closed(Write(w, id, Merged(p.purpose.q, p.id, p.copy.task)), pid)
    case Publish(pid, outcome) =>
      var p := w.procs[pid];
      var v := if Reached(outcome) then w.(s := w.s.(sent := w.s.sent + [Message(p.id, p.purpose.task, p.purpose.instance)])) else w;
      if Raised(outcome) then v.(procs := v.procs[pid := p.(phase := HasFailed)]) else Closed(v, pid)
    case Unmark(pid) => w.(s := Unmarked(w.s, w.procs[pid].id, w.procs[pid].purpose.task))
    case Undo(pid) => Closed(Write(w, w.procs[pid].id, w.procs[pid].undo), pid)
    case Stop(pid) => Closed(w, pid)
  }

  /** The worlds of an execution, one more than its actions. */
  ghost predicate Execution(ws: seq<World>, actions: seq<Action>) {
    |ws| == |actions| + 1
    && forall i :: 0 <= i < |actions| ==> Can(ws[i], actions[i]) && ws[i + 1] == Do(ws[i], actions[i])
  }

  const Start := World(Initial, map[], map[])

  // ------------------------------------------------------------ what every execution keeps

  /** How a row may develop, whoever writes it. */
  predicate Steady(a: Run, b: Run) {
    && a.kind == b.kind && a.event == b.event && a.mergedInto == b.mergedInto
    && (a.status == Coalesced <==> b.status == Coalesced)
    && (a.status == Coalesced ==> a == b)
    && (a.status == Cancelled ==> b.status == Cancelled)
    && (a.kind.EventRun? ==> b.triggers == a.triggers)
  }

  ghost predicate AllSteady(s: State, t: State) {
    s.issued <= t.issued && forall r :: r in s.runs ==> r in t.runs && Steady(s.runs[r], t.runs[r])
  }

  /** A copy that may be written over the row. */
  predicate Fits(s: State, row: Run, copy: Run) {
    && copy.kind == row.kind && copy.event == row.event && copy.mergedInto == row.mergedInto
    && row.status != Coalesced && copy.status != Coalesced
    && (copy.status == Cancelled ==> row.status == Cancelled)
    && OwnTrigger(copy)
    && (row.kind.EventRun? ==> copy.triggers == row.triggers)
    && (copy.task.Some? ==> copy.task.value in s.issued)
  }

  /** What a process can rely on while nobody has written its row since it read or saved it. */
  predicate UpToDate(w: World, p: Proc)
    requires p.id in w.s.runs
  {
    var row := w.s.runs[p.id];
    Revision(w, p.id) == p.seen ==>
      && (row.status != Cancelled ==>
            && row.triggers <= p.undo.triggers
            && (p.phase == HasRead ==> row.triggers <= p.copy.triggers)
            && (row.kind.AssetRun? ==> Active(row.status)))
      && (p.phase == HasRead && row.kind.AssetRun? ==> row.status != Cancelled)
  }

  predicate ProcSound(w: World, p: Proc) {
    && p.id in w.s.runs
    && var row := w.s.runs[p.id];
       && Fits(w.s, row, p.copy) && Fits(w.s, row, p.undo)
       && p.copy.triggers <= p.undo.triggers
       && (row.kind.AssetRun? ==> Active(p.copy.status) && p.undo.status != Cancelled)
       && p.seen <= Revision(w, p.id)
       && UpToDate(w, p)
       && (p.purpose.Joining? ==>
             Ordinary(p.purpose.q) && row.kind == AssetRun(p.purpose.q.asset) && p.purpose.q.event.value in p.copy.triggers
             && p.phase != HasFailed)
       && (p.purpose.Requeueing? ==> p.phase == HasRead)
       && (p.purpose.Sending? ==> p.purpose.task in w.s.issued)
       && (p.marking != Free ==> p.purpose.Sending?)
       && (p.locked.Some? ==> row.kind == AssetRun(p.locked.value))
  }

  ghost predicate Unsent(s: State, p: Proc) {
    p.purpose.Sending? && p.phase != HasFailed ==> forall m :: m in s.sent ==> m.task != p.purpose.task
  }

  predicate PointsToRun(runs: map<RunId, Run>, run: Run) {
    run.status == Coalesced ==>
      && run.kind.AssetRun? && run.event.Some? && run.mergedInto.Some? && run.mergedInto.value in runs
      && runs[run.mergedInto.value].kind == run.kind && runs[run.mergedInto.value].status != Coalesced
  }

  ghost predicate Sound(w: World) {
    && TriggersOnce(w.s) && TasksDrawn(w.s)
    && (forall r :: r in w.s.runs ==> PointsToRun(w.s.runs, w.s.runs[r]))
    && (forall pid :: pid in w.procs ==> ProcSound(w, w.procs[pid]) && Unsent(w.s, w.procs[pid]))
    && (forall p, q :: p in w.procs && q in w.procs && p != q && w.procs[p].purpose.Sending? && w.procs[q].purpose.Sending?
                       ==> w.procs[p].purpose.task != w.procs[q].purpose.task)
  }

  // One row at a time.

  /** Only the row `id` is written; what it becomes fits what it was. */
  ghost predicate RowStep(s: State, t: State, id: RunId) {
    && OthersSame(s, t, id) && s.issued <= t.issued
    && (id in s.runs ==> id in t.runs && Steady(s.runs[id], t.runs[id]))
    && (id in t.runs ==> OwnTrigger(t.runs[id]) && PointsToRun(t.runs, t.runs[id])
                         && (t.runs[id].task.Some? ==> t.runs[id].task.value in t.issued))
  }

  lemma RowStepKeeps(s: State, t: State, id: RunId)
    requires TriggersOnce(s) && TasksDrawn(s) && (forall r :: r in s.runs ==> PointsToRun(s.runs, s.runs[r]))
    requires RowStep(s, t, id) && t.sent == s.sent
    ensures TriggersOnce(t) && TasksDrawn(t) && forall r :: r in t.runs ==> PointsToRun(t.runs, t.runs[r])
    ensures AllSteady(s, t)
  {
    hide OwnTrigger;
    forall m | m in t.sent
      ensures Known(t, m)
    {
      assert Known(s, m);
    }
    forall r | r in t.runs
      ensures PointsToRun(t.runs, t.runs[r])
    {
      if r in s.runs {
        assert PointsToRun(s.runs, s.runs[r]);
      }
    }
  }

  /** Rows change only together with their revision. */
  ghost predicate WorldStep(w: World, v: World, id: RunId) {
    && RowStep(w.s, v.s, id)
    && (forall r :: r != id ==> Revision(v, r) == Revision(w, r))
    && (Revision(v, id) == Revision(w, id) + 1
        || (Revision(v, id) == Revision(w, id) && (id in w.s.runs <==> id in v.s.runs)
            && (id in w.s.runs ==> v.s.runs[id] == w.s.runs[id])))
  }

  lemma ProcStays(w: World, v: World, id: RunId, p: Proc)
    requires ProcSound(w, p) && WorldStep(w, v, id)
    ensures ProcSound(v, p)
  {
    hide OwnTrigger, Active, PointsToRun;
  }

  lemma WriteSteps(w: World, id: RunId, run: Run)
    requires id in w.s.runs && Fits(w.s, w.s.runs[id], run) && TriggersOnce(w.s) && TasksDrawn(w.s)
    requires PointsToRun(w.s.runs, w.s.runs[id])
    ensures WorldStep(w, Write(w, id, run), id) && Write(w, id, run).s.sent == w.s.sent
  {
    assert OwnTrigger(w.s.runs[id]);
    hide OwnTrigger, Active;
  }

  /** A new row, which no process knows yet. */
  lemma InsertSteps(w: World, id: RunId, run: Run)
    requires id !in w.s.runs && OwnTrigger(run) && PointsToRun(w.s.runs, run)
    requires run.task.Some? ==> run.task.value in w.s.issued
    ensures WorldStep(w, Write(w, id, run), id) && Write(w, id, run).s.sent == w.s.sent
  {
    hide OwnTrigger;
  }

  /** The stored state and the processes that do not act. */
  lemma OthersStaySound(w: World, v: World, id: RunId)
    requires Sound(w) && WorldStep(w, v, id) && v.s.sent == w.s.sent && v.procs == w.procs
    ensures Sound(v) && AllSteady(w.s, v.s)
  {
    hide ProcSound, OwnTrigger, PointsToRun, WorldStep;
    assert RowStep(w.s, v.s, id) by { hide *; StepHasRow(w, v, id); }
    RowStepKeeps(w.s, v.s, id);
    forall pid | pid in v.procs
      ensures ProcSound(v, v.procs[pid]) && Unsent(v.s, v.procs[pid])
    {
      assert ProcSound(w, w.procs[pid]) && Unsent(w.s, w.procs[pid]);
      ProcStays(w, v, id, w.procs[pid]);
    }
  }

  lemma StepHasRow(w: World, v: World, id: RunId)
    requires WorldStep(w, v, id)
    ensures RowStep(w.s, v.s, id)
  {
  }

  /** Ending a process, or replacing it by a sound later stage of itself. */
  lemma CloseKeepsSound(w: World, pid: ProcId)
    requires Sound(w)
    ensures Sound(Closed(w, pid))
  {
    hide OwnTrigger, PointsToRun, ProcSound, Unsent, TriggersOnce, TasksDrawn;
    var v := Closed(w, pid);
    forall q | q in v.procs
      ensures ProcSound(v, v.procs[q]) && Unsent(v.s, v.procs[q])
    {
      assert ProcSound(w, w.procs[q]) && Unsent(w.s, w.procs[q]);
      SameProc(w, v, w.procs[q]);
    }
  }

  lemma SameProc(w: World, v: World, p: Proc)
    requires ProcSound(w, p) && v.s.runs == w.s.runs && v.revisions == w.revisions && w.s.issued <= v.s.issued
    ensures ProcSound(v, p)
  {
    hide OwnTrigger;
  }

  /** The same process, at a later stage, perhaps without the lock it held. */
  predicate LaterStage(p: Proc, q: Proc) {
    p.id == q.id && p.purpose == q.purpose && p.copy == q.copy && p.undo == q.undo
    && (q.locked == p.locked || q.locked.None?)
  }

  lemma StageKeepsSound(w: World, pid: ProcId, p: Proc)
    requires Sound(w) && pid in w.procs && LaterStage(w.procs[pid], p)
    requires ProcSound(w, p) && Unsent(w.s, p)
    ensures Sound(w.(procs := w.procs[pid := p]))
  {
    hide OwnTrigger, PointsToRun, ProcSound, Unsent, Fits, TriggersOnce, TasksDrawn;
    var v := w.(procs := w.procs[pid := p]);
    forall q | q in v.procs
      ensures ProcSound(v, v.procs[q]) && Unsent(v.s, v.procs[q])
    {
      if q == pid {
        SameProc(w, v, p);
      } else {
        assert ProcSound(w, w.procs[q]) && Unsent(w.s, w.procs[q]);
        SameProc(w, v, w.procs[q]);
      }
    }
  }

  /** A copy of a row the process has just saved, or tried to save, is up to date. */
  lemma SavedIsSound(w: World, p: Proc)
    requires ProcSound(w, p) && p.phase == HasRead && !p.purpose.Requeueing?
    requires TriggersOnce(w.s) && TasksDrawn(w.s) && PointsToRun(w.s.runs, w.s.runs[p.id])
    ensures var v := Write(w, p.id, p.copy);
            ProcSound(v, p.(phase := HasSaved, seen := Revision(v, p.id)))
  {
    hide OwnTrigger, PointsToRun, Active;
  }

  // Each action.

  /** A status report, a delivery or a cancellation: the work of the row stays the same. */
  lemma StatusSteps(w: World, id: RunId, run: Run)
    requires id in w.s.runs && SameWork(w.s.runs[id], run) && TriggersOnce(w.s) && TasksDrawn(w.s)
    requires w.s.runs[id].status != Coalesced && run.status != Coalesced && w.s.runs[id].status != Cancelled
    ensures Saved(w.s, id, run) == w.s.(runs := w.s.runs[id := run])
    ensures WorldStep(w, Write(w, id, run), id)
  {
    assert OwnTrigger(w.s.runs[id]) && OwnTrigger(run);
    hide OwnTrigger;
  }

  lemma ActKeepsSound(w: World, step: Step)
    requires Sound(w) && Can(w, Act(step))
    ensures var v := Do(w, Act(step)); Sound(v) && AllSteady(w.s, v.s) && v.procs == w.procs
  {
    hide ProcSound, Unsent, TriggersOnce, TasksDrawn, OwnTrigger, WorldStep, AllSteady, NewRun, Answers;
    var v := Do(w, Act(step));
    match step
    case Reserve(q, active, cooling, id) =>
      if Touches(w.s, step).Some? {
        var run := NewRun(q, None, None, "research_queue");
        assert OwnTrigger(run) && PointsToRun(w.s.runs, run) && run.task.None? by { hide *; ReservedRun(w.s.runs, q); }
        InsertSteps(w, id, run);
        OthersStaySound(w, v, id);
      } else {
        NothingMoves(w, v);
      }
    case Deliver(m) =>
      if Touches(w.s, step).Some? {
        var run := w.s.runs[m.run];
        assert PointsToRun(w.s.runs, run);
        StatusSteps(w, m.run, run.(instance := Some(m.instance), status := Running));
        OthersStaySound(w, v, m.run);
      } else {
        NothingMoves(w, v);
      }
    case Progress(id, status) =>
      StatusSteps(w, id, w.s.runs[id].(status := status));
      OthersStaySound(w, v, id);
    case CancelRun(id) =>
      StatusSteps(w, id, w.s.runs[id].(status := Cancelled, error := false, steps := w.s.runs[id].steps + ["research_cancelled"]));
      OthersStaySound(w, v, id);
    case LoseMarker(id) => NothingMoves(w, v);
    case _ =>
  }

  lemma ReservedRun(runs: map<RunId, Run>, q: Request)
    ensures var run := NewRun(q, None, None, "research_queue"); OwnTrigger(run) && PointsToRun(runs, run) && run.task.None?
  {
  }

  /** Markers, and task ids drawn, do not matter to anybody's soundness. */
  lemma NothingMoves(w: World, v: World)
    requires Sound(w) && v.s.runs == w.s.runs && v.s.sent == w.s.sent && w.s.issued <= v.s.issued
    requires v.revisions == w.revisions && v.procs == w.procs
    ensures Sound(v) && AllSteady(w.s, v.s)
  {
    hide OwnTrigger, PointsToRun, ProcSound, TriggersOnce, TasksDrawn;
    StillDrawn(w.s, v.s);
    forall pid | pid in v.procs
      ensures ProcSound(v, v.procs[pid]) && Unsent(v.s, v.procs[pid])
    {
      assert ProcSound(w, w.procs[pid]) && Unsent(w.s, w.procs[pid]);
      SameProc(w, v, w.procs[pid]);
    }
    AlwaysSteady(w.s, v.s);
  }

  lemma StillDrawn(s: State, t: State)
    requires TriggersOnce(s) && TasksDrawn(s) && t.runs == s.runs && t.sent == s.sent && s.issued <= t.issued
    ensures TriggersOnce(t) && TasksDrawn(t)
  {
    forall m | m in t.sent
      ensures Known(t, m)
    {
      assert Known(s, m);
    }
  }

  lemma AlwaysSteady(s: State, t: State)
    requires t.runs == s.runs && s.issued <= t.issued
    ensures AllSteady(s, t)
  {
  }

  lemma SaveKeepsSound(w: World, pid: ProcId)
    requires Sound(w) && Can(w, Save(pid))
    ensures Sound(Do(w, Save(pid))) && AllSteady(w.s, Do(w, Save(pid)).s)
  {
    hide Sound, ProcSound, Fits, Write, WorldStep, AllSteady, TriggersOnce, TasksDrawn, PointsToRun, Unsent;
    var p := w.procs[pid];
    SoundParts(w, pid);
    var v := Write(w, p.id, p.copy);
    WriteKeepsSound(w, p.id, p.copy);
    if p.purpose.Requeueing? {
      CloseKeepsSound(v, pid);
    } else {
      SavedIsSound(w, p);
      var q := p.(phase := HasSaved, seen := Revision(v, p.id));
      assert Unsent(v.s, q) by { hide *; StillUnsent(w.s, v.s, p, q); }
      StageKeepsSound(v, pid, q);
    }
  }

  lemma StillUnsent(s: State, t: State, p: Proc, q: Proc)
    requires Unsent(s, p) && p.phase != HasFailed && q.purpose == p.purpose && t.sent == s.sent
    ensures Unsent(t, q)
  {
  }

  /** What soundness says about one process and its row. */
  lemma SoundParts(w: World, pid: ProcId)
    requires Sound(w) && pid in w.procs
    ensures var p := w.procs[pid];
            && ProcSound(w, p) && Unsent(w.s, p) && p.id in w.s.runs
            && Fits(w.s, w.s.runs[p.id], p.copy) && Fits(w.s, w.s.runs[p.id], p.undo)
            && PointsToRun(w.s.runs, w.s.runs[p.id]) && TriggersOnce(w.s) && TasksDrawn(w.s)
  {
  }

  lemma WriteKeepsSound(w: World, id: RunId, run: Run)
    requires Sound(w) && id in w.s.runs && Fits(w.s, w.s.runs[id], run)
    ensures var v := Write(w, id, run); Sound(v) && AllSteady(w.s, v.s) && v.s.sent == w.s.sent && v.procs == w.procs
  {
    hide ProcSound, Fits, WorldStep, AllSteady, PointsToRun, Unsent;
    WriteSteps(w, id, run);
    OthersStaySound(w, Write(w, id, run), id);
  }

  lemma UndoKeepsSound(w: World, pid: ProcId)
    requires Sound(w) && Can(w, Undo(pid))
    ensures Sound(Do(w, Undo(pid))) && AllSteady(w.s, Do(w, Undo(pid)).s)
  {
    hide Sound, ProcSound, Fits, Write, AllSteady, TriggersOnce, TasksDrawn, PointsToRun, Unsent;
    var p := w.procs[pid];
    SoundParts(w, pid);
    WriteKeepsSound(w, p.id, p.undo);
    CloseKeepsSound(Write(w, p.id, p.undo), pid);
  }

  lemma AddMergedKeepsSound(w: World, pid: ProcId, id: RunId)
    requires Sound(w) && Can(w, AddMerged(pid, id))
    ensures var v := Do(w, AddMerged(pid, id)); Sound(v) && AllSteady(w.s, v.s)
  {
    hide AllSteady;
    var p := w.procs[pid];
    SoundParts(w, pid);
    var merged := Merged(p.purpose.q, p.id, p.copy.task);
    var v := Write(w, id, merged);
    InsertSteps(w, id, merged);
    OthersStaySound(w, v, id);
    CloseKeepsSound(v, pid);
  }

  lemma PublishKeepsSound(w: World, pid: ProcId, outcome: Outcome)
    requires Sound(w) && Can(w, Publish(pid, outcome))
    ensures var v := Do(w, Publish(pid, outcome)); Sound(v) && AllSteady(w.s, v.s)
  {
    hide ProcSound, Fits, PointsToRun, OwnTrigger, TriggersOnce, AllSteady;
    var p := w.procs[pid];
    SoundParts(w, pid);
    assert p.purpose.task in w.s.issued by { hide *; SenderDrew(w, p); }
    var v := Do(w, Publish(pid, outcome));
    var sent := w.s.(sent := v.s.sent);
    assert TriggersOnce(v.s) by { hide *; SameRuns(w.s, v.s); }
    SentOnce(w.s, v.s, p);
    forall q | q in v.procs
      ensures ProcSound(v, v.procs[q]) && Unsent(v.s, v.procs[q])
    {
      assert ProcSound(w, w.procs[q]) && Unsent(w.s, w.procs[q]);
      SameProc(w, v, w.procs[q]);
      if q == pid {
        FailedIsSound(v, p);
      }
    }
    AlwaysSteady(w.s, v.s);
  }

  lemma MarkKeepsSound(w: World, pid: ProcId)
    requires Sound(w) && Can(w, Mark(pid))
    ensures var v := Do(w, Mark(pid)); Sound(v) && AllSteady(w.s, v.s)
  {
    var p := w.procs[pid];
    SoundParts(w, pid);
    hide Sound, TriggersOnce, TasksDrawn, PointsToRun, OwnTrigger, Fits;
    var q := p.(marking := Free);
    assert ProcSound(w, q);
    StageKeepsSound(w, pid, q);
    var v := w.(procs := w.procs[pid := q]);
    NothingMoves(v, Do(w, Mark(pid)));
  }

  lemma GiveUpKeepsSound(w: World, pid: ProcId)
    requires Sound(w) && Can(w, GiveUp(pid))
    ensures var v := Do(w, GiveUp(pid)); Sound(v) && AllSteady(w.s, v.s)
  {
    var p := w.procs[pid];
    SoundParts(w, pid);
    hide Sound, TriggersOnce, TasksDrawn, PointsToRun, OwnTrigger, Fits;
    var q := p.(phase := HasFailed);
    assert ProcSound(w, q);
    StageKeepsSound(w, pid, q);
    AlwaysSteady(w.s, w.s);
  }

  lemma ReleaseKeepsSound(w: World, pid: ProcId)
    requires Sound(w) && Can(w, Release(pid))
    ensures var v := Do(w, Release(pid)); Sound(v) && AllSteady(w.s, v.s)
  {
    var p := w.procs[pid];
    SoundParts(w, pid);
    hide Sound, TriggersOnce, TasksDrawn, PointsToRun, OwnTrigger, Fits;
    var q := p.(locked := None);
    assert ProcSound(w, q);
    StageKeepsSound(w, pid, q);
    AlwaysSteady(w.s, w.s);
  }

  lemma SenderDrew(w: World, p: Proc)
    requires ProcSound(w, p) && p.purpose.Sending?
    ensures p.purpose.task in w.s.issued && p.id in w.s.runs
  {
  }

  lemma SameRuns(s: State, t: State)
    requires TriggersOnce(s) && t.runs == s.runs
    ensures TriggersOnce(t)
  {
  }

  lemma SentOnce(s: State, t: State, p: Proc)
    requires TasksDrawn(s) && p.purpose.Sending? && p.phase == HasSaved && Unsent(s, p) && p.purpose.task in s.issued && p.id in s.runs
    requires t.runs == s.runs && t.issued == s.issued
    requires t.sent == s.sent || t.sent == s.sent + [Message(p.id, p.purpose.task, p.purpose.instance)]
    ensures TasksDrawn(t)
  {
    forall m | m in t.sent
      ensures Known(t, m)
    {
      if m in s.sent {
        assert Known(s, m);
      }
    }
    forall i, j | 0 <= i < j < |t.sent|
      ensures t.sent[i].task != t.sent[j].task
    {
      if j == |s.sent| {
        assert s.sent[i] in s.sent;
      }
    }
  }

  lemma FailedIsSound(w: World, p: Proc)
    requires ProcSound(w, p) && p.phase == HasSaved && p.purpose.Sending?
    ensures ProcSound(w, p.(phase := HasFailed))
  {
    hide OwnTrigger;
  }

  // Opening.

  /** What a process reads and prepares fits its row. */
  lemma CopiesFit(w: World, o: Opening)
    requires Sound(w) && Opens(w.s, o) && !Inserts(o)
    ensures var row, copy, undo := w.s.runs[o.id], CopyOf(o, w.s), UndoOf(o, w.s);
            var t := w.s.(issued := if Draws(o) then w.s.issued + {o.task} else w.s.issued);
            && Fits(t, row, copy) && Fits(t, row, undo)
            && row.triggers <= copy.triggers <= undo.triggers
            && (row.kind.AssetRun? ==> Active(copy.status) && Active(row.status) && undo.status != Cancelled)
  {
    var row := w.s.runs[o.id];
    assert OwnTrigger(row) && PointsToRun(w.s.runs, row);
    if o.Joins? {
      JoinedOwnTrigger(row, o.q.event.value);
    }
    hide OwnTrigger;
    SameTriggers(row, CopyOf(o, w.s));
    SameTriggers(row, UndoOf(o, w.s));
    SameTriggers(CopyOf(o, w.s), UndoOf(o, w.s));
  }

  lemma SameTriggers(a: Run, b: Run)
    ensures a.triggers == b.triggers && a.event == b.event ==> OwnTrigger(a) == OwnTrigger(b)
  {
  }

  lemma JoinedOwnTrigger(run: Run, event: EventId)
    requires OwnTrigger(run)
    ensures OwnTrigger(WithTrigger(run, event)) && run.triggers <= WithTrigger(run, event).triggers
    ensures event in WithTrigger(run, event).triggers
  {
  }

  lemma InsertedRun(w: World, o: Opening)
    requires Opens(w.s, o) && Inserts(o)
    ensures var copy, undo := CopyOf(o, w.s), UndoOf(o, w.s);
            && OwnTrigger(copy) && OwnTrigger(undo) && copy.triggers == undo.triggers && copy.kind == undo.kind
            && copy.event == undo.event && copy.mergedInto == undo.mergedInto && copy.status == Queued && undo.status == Failed
            && copy.task == undo.task == Some(o.task)
            && (o.Creates? ==> copy.kind == AssetRun(o.q.asset))
  {
  }

  lemma OpenKeepsSound(w: World, pid: ProcId, o: Opening)
    requires Sound(w) && Can(w, Open(pid, o))
    ensures var v := Do(w, Open(pid, o)); Sound(v) && AllSteady(w.s, v.s)
  {
    hide OwnTrigger, CopyOf, UndoOf, PointsToRun, ProcSound, AllSteady, TriggersOnce, TasksDrawn, Unsent, Answers;
    var v := Do(w, Open(pid, o));
    var drawn := w.(s := if Draws(o) then w.s.(issued := w.s.issued + {o.task}) else w.s);
    NothingMoves(w, drawn);
    var written := if Inserts(o) then Write(drawn, o.id, CopyOf(o, w.s)) else drawn;
    if Inserts(o) {
      InsertedRun(w, o);
      assert PointsToRun(w.s.runs, CopyOf(o, w.s)) by { hide *; QueuedPoints(w.s.runs, CopyOf(o, w.s)); }
      InsertSteps(drawn, o.id, CopyOf(o, w.s));
      OthersStaySound(drawn, written, o.id);
      SteadyVia(w.s, drawn.s, written.s, v.s);
    } else {
      AlwaysSteady(w.s, v.s);
    }
    assert v == written.(procs := v.procs);
    NewProcSound(w, pid, o);
    forall q | q in v.procs
      ensures ProcSound(v, v.procs[q]) && Unsent(v.s, v.procs[q])
    {
      if q != pid {
        assert ProcSound(written, written.procs[q]) && Unsent(written.s, written.procs[q]);
        SameProc(written, v, written.procs[q]);
        assert Unsent(v.s, v.procs[q]) by { hide *; SameUnsent(written.s, v.s, v.procs[q]); }
      }
    }
    if Draws(o) {
      FreshTask(w, o);
    }
  }

  lemma SteadyVia(s: State, t: State, u: State, v: State)
    requires s.runs == t.runs && s.issued <= t.issued && AllSteady(t, u) && v.runs == u.runs && u.issued <= v.issued
    ensures AllSteady(s, v)
  {
  }

  lemma QueuedPoints(runs: map<RunId, Run>, run: Run)
    requires run.status == Queued
    ensures PointsToRun(runs, run)
  {
  }

  lemma SameUnsent(s: State, t: State, p: Proc)
    requires Unsent(s, p) && t.sent == s.sent
    ensures Unsent(t, p)
  {
  }

  lemma FreshTask(w: World, o: Opening)
    requires Sound(w) && Opens(w.s, o) && Draws(o)
    ensures forall q :: q in w.procs && w.procs[q].purpose.Sending? ==> w.procs[q].purpose.task != o.task
    ensures forall m :: m in w.s.sent ==> m.task != o.task
  {
    forall m | m in w.s.sent
      ensures m.task != o.task
    {
      assert Known(w.s, m);
    }
    forall q | q in w.procs && w.procs[q].purpose.Sending?
      ensures w.procs[q].purpose.task != o.task
    {
      assert ProcSound(w, w.procs[q]);
    }
  }

  lemma NewProcSound(w: World, pid: ProcId, o: Opening)
    requires Sound(w) && Can(w, Open(pid, o))
    ensures var v := Do(w, Open(pid, o)); ProcSound(v, v.procs[pid]) && Unsent(v.s, v.procs[pid])
  {
    if Draws(o) {
      FreshTask(w, o);
    }
    if Inserts(o) {
      InsertedProcSound(w, pid, o);
    } else {
      ReaderSound(w, pid, o);
    }
  }

  lemma InsertedProcSound(w: World, pid: ProcId, o: Opening)
    requires Can(w, Open(pid, o)) && Inserts(o)
    ensures var v := Do(w, Open(pid, o)); ProcSound(v, v.procs[pid])
  {
    hide OwnTrigger, CopyOf, UndoOf, Answers;
    InsertedRun(w, o);
  }

  lemma ReaderSound(w: World, pid: ProcId, o: Opening)
    requires Sound(w) && Can(w, Open(pid, o)) && !Inserts(o)
    ensures var v := Do(w, Open(pid, o)); ProcSound(v, v.procs[pid])
  {
    CopiesFit(w, o);
    if o.Joins? {
      JoinLists(w.s, o);
    }
    hide OwnTrigger, CopyOf, UndoOf, Sound;
  }

  lemma JoinLists(s: State, o: Opening)
    requires o.Joins? && Opens(s, o)
    ensures o.q.event.value in CopyOf(o, s).triggers
  {
  }

  /** Whatever the processes do, task ids are drawn once and sent at most once, trigger lists have no
      repetition, merged runs point at unmerged ones of their asset, merged and cancelled rows stay
      so, and no row changes what it is for. */
  lemma StepKeepsSound(w: World, a: Action)
    requires Sound(w) && Can(w, a)
    ensures Sound(Do(w, a)) && AllSteady(w.s, Do(w, a).s)
  {
    hide Sound, AllSteady, Opened, Opens, Write, Saved, Apply;
    match a
    case Act(step) => ActKeepsSound(w, step);
    case Open(pid, o) => OpenKeepsSound(w, pid, o);
    case Mark(pid) => MarkKeepsSound(w, pid);
    case GiveUp(pid) => GiveUpKeepsSound(w, pid);
    case Save(pid) => SaveKeepsSound(w, pid);
    case Release(pid) => ReleaseKeepsSound(w, pid);
    case AddMerged(pid, id) => AddMergedKeepsSound(w, pid, id);
    case Publish(pid, outcome) => PublishKeepsSound(w, pid, outcome);
    case Unmark(pid) => NothingMoves(w, Do(w, a));
    case Undo(pid) => UndoKeepsSound(w, pid);
    case Stop(pid) =>
      CloseKeepsSound(w, pid);
      AlwaysSteady(w.s, Do(w, a).s);
  }

  lemma SteadyTwice(s: State, t: State, u: State)
    requires AllSteady(s, t) && AllSteady(t, u)
    ensures AllSteady(s, u)
  {
  }

  lemma SteadySelf(s: State)
    ensures AllSteady(s, s)
  {
  }

  /** All of this holds throughout every execution, without any condition. */
  lemma {:induction false} AlwaysSound(ws: seq<World>, actions: seq<Action>, i: nat, j: nat)
    requires Execution(ws, actions) && Sound(ws[0]) && i <= j < |ws|
    ensures Sound(ws[i]) && Sound(ws[j]) && AllSteady(ws[i].s, ws[j].s)
    decreases j
  {
    hide Sound, AllSteady, Can, Do;
    if j > 0 {
      if i < j {
        AlwaysSound(ws, actions, i, j - 1);
        StepKeepsSound(ws[j - 1], actions[j - 1]);
        SteadyTwice(ws[i].s, ws[j - 1].s, ws[j].s);
      } else {
        AlwaysSound(ws, actions, j - 1, j - 1);
        StepKeepsSound(ws[j - 1], actions[j - 1]);
        SteadySelf(ws[j].s);
      }
    } else {
      SteadySelf(ws[0].s);
    }
  }

  lemma StartIsSound()
    ensures Sound(Start)
  {
  }

  // ------------------------------------------------------------ what depends on the copies

  /** The copy an action writes over its row. */
  function CopyWrite(w: World, a: Action): Option<(RunId, Run)> {
    match a
    case Save(pid) => if pid in w.procs then Some((w.procs[pid].id, w.procs[pid].copy)) else None
    case Undo(pid) => if pid in w.procs then Some((w.procs[pid].id, w.procs[pid].undo)) else None
    case _ => None
  }

  /** What a process can check before it writes its copy: the write is refused, or the copy lists
      every event that has joined by now and does not wake up a run whose asset has another active one. */
  ghost predicate Harmless(w: World, id: RunId, copy: Run)
    requires id in w.s.runs
  {
    var row := w.s.runs[id];
    || Blocked(w.s, id, copy)
    || (row.triggers <= copy.triggers
        && (copy.kind.EventRun? || !Active(copy.status) || Active(row.status) || Answers(w.s, copy.kind.asset, None)))
  }

  /** The same for an action. A merged record may be added while the run it points at lists its
      event, which it does unless the process's own save was refused or has been overwritten. */
  ghost predicate HarmlessAction(w: World, a: Action) {
    && (CopyWrite(w, a).Some? ==> CopyWrite(w, a).value.0 in w.s.runs && Harmless(w, CopyWrite(w, a).value.0, CopyWrite(w, a).value.1))
    && (a.AddMerged? && a.pid in w.procs ==> Listed(w, w.procs[a.pid]))
  }

  /** A half-finished admission has its event in the run it joins. */
  predicate Listed(w: World, p: Proc) {
    p.purpose.Joining? && p.phase == HasSaved ==>
      p.purpose.q.event.Some? && p.id in w.s.runs && p.purpose.q.event.value in w.s.runs[p.id].triggers
  }

  /** One active run per asset, and merged runs point at runs that list their event. */
  ghost predicate Good(s: State) { OneActive(s) && MergedPointWell(s) }

  /** No row loses an event. */
  ghost predicate Grows(s: State, t: State) {
    forall r :: r in s.runs ==> r in t.runs && s.runs[r].triggers <= t.runs[r].triggers
  }

  /** The one row written keeps its events and does not become a second active run. */
  ghost predicate GoodRowStep(s: State, t: State, id: RunId) {
    && OthersSame(s, t, id)
    && (id in s.runs ==> id in t.runs && s.runs[id].triggers <= t.runs[id].triggers)
    && (id in t.runs && t.runs[id].kind.AssetRun? && Active(t.runs[id].status) ==>
          ActiveFor(s, t.runs[id].kind.asset, id) || Answers(s, t.runs[id].kind.asset, None))
    && (id in t.runs ==> PointsWell(t.runs, t.runs[id]))
  }

  lemma GoodRowKeeps(w: World, v: World, id: RunId)
    requires Good(w.s) && AllSteady(w.s, v.s) && GoodRowStep(w.s, v.s, id)
    ensures Good(v.s) && Grows(w.s, v.s)
    ensures forall p: Proc :: Listed(w, p) ==> Listed(v, p)
  {
    hide OwnTrigger, NoDuplicates;
    forall r, u, asset | ActiveFor(v.s, asset, r) && ActiveFor(v.s, asset, u)
      ensures r == u
    {
      if r != id {
        assert ActiveFor(w.s, asset, r);
      }
      if u != id {
        assert ActiveFor(w.s, asset, u);
      }
    }
    forall r | r in v.s.runs
      ensures PointsWell(v.s.runs, v.s.runs[r])
    {
      if r != id {
        assert PointsWell(w.s.runs, w.s.runs[r]);
      }
    }
  }

  lemma SameRunsStayGood(s: State, t: State)
    requires t.runs == s.runs
    ensures Good(s) ==> Good(t)
    ensures Grows(s, t)
  {
    if Good(s) {
      forall r, u, asset | ActiveFor(t, asset, r) && ActiveFor(t, asset, u)
        ensures r == u
      {
        assert ActiveFor(s, asset, r) && ActiveFor(s, asset, u);
      }
    }
  }

  lemma StatusGood(w: World, id: RunId, run: Run)
    requires Good(w.s) && id in w.s.runs && SameWork(w.s.runs[id], run)
    requires w.s.runs[id].status != Coalesced && run.status != Coalesced && w.s.runs[id].status != Cancelled
    requires run.kind.AssetRun? && Active(run.status) ==> Active(w.s.runs[id].status)
    ensures GoodRowStep(w.s, Write(w, id, run).s, id)
  {
    if run.kind.AssetRun? && Active(w.s.runs[id].status) {
      assert ActiveFor(w.s, run.kind.asset, id);
    }
  }

  /** Such a step writes its one row as permitted. */
  lemma ActIsGoodRowStep(w: World, step: Step)
    requires Sound(w) && Good(w.s) && Can(w, Act(step)) && Touches(w.s, step).Some?
    ensures GoodRowStep(w.s, Do(w, Act(step)).s, Touches(w.s, step).value)
  {
    hide Sound, Good, GoodRowStep, OwnTrigger, Answers, NewRun, PointsToRun;
    match step
    case Reserve(q, active, cooling, id) =>
      var run := NewRun(q, None, None, "research_queue");
      assert run.kind == AssetRun(q.asset) && run.status == Queued by {
        hide *;
        NewRunIsQueued(q);
      }
      InsertedGood(w, q, id, run);
    case Deliver(m) =>
      CoalescedIsAsset(w, m.run);
      StatusGood(w, m.run, w.s.runs[m.run].(instance := Some(m.instance), status := Running));
    case Progress(id, status) => StatusGood(w, id, w.s.runs[id].(status := status));
    case CancelRun(id) =>
      StatusGood(w, id, w.s.runs[id].(status := Cancelled, error := false, steps := w.s.runs[id].steps + ["research_cancelled"]));
    case _ =>
  }

  lemma ActKeepsGood(w: World, step: Step)
    requires Sound(w) && Good(w.s) && Can(w, Act(step))
    ensures var v := Do(w, Act(step)); Good(v.s) && Grows(w.s, v.s)
  {
    var v := Do(w, Act(step));
    if Touches(w.s, step).Some? {
      StepKeepsSound(w, Act(step));
      ActIsGoodRowStep(w, step);
      hide *;
      GoodRowKeeps(w, v, Touches(w.s, step).value);
    } else {
      assert v.s.runs == w.s.runs by { hide Sound, Good, Answers; }
      hide *;
      SameRunsStayGood(w.s, v.s);
    }
  }

  lemma NewRunIsQueued(q: Request)
    ensures var run := NewRun(q, None, None, "research_queue"); run.kind == AssetRun(q.asset) && run.status == Queued
  {
  }

  lemma CoalescedIsAsset(w: World, id: RunId)
    requires Sound(w) && id in w.s.runs
    ensures w.s.runs[id].status == Coalesced ==> w.s.runs[id].kind.AssetRun?
  {
    assert PointsToRun(w.s.runs, w.s.runs[id]);
  }

  lemma InsertedGood(w: World, q: Request, id: RunId, run: Run)
    requires id !in w.s.runs && run.kind == AssetRun(q.asset) && Answers(w.s, q.asset, None) && run.status == Queued
    ensures GoodRowStep(w.s, Write(w, id, run).s, id)
  {
  }

  lemma OpenKeepsGood(w: World, pid: ProcId, o: Opening)
    requires Sound(w) && Good(w.s) && Can(w, Open(pid, o))
    ensures var v := Do(w, Open(pid, o)); Good(v.s) && Grows(w.s, v.s)
  {
    var v := Do(w, Open(pid, o));
    StepKeepsSound(w, Open(pid, o));
    hide Sound, Good, AllSteady, UndoOf, Grows, Answers, GoodRowStep;
    if o.Creates? {
      InsertedGood(w, o.q, o.id, CopyOf(o, w.s));
      assert GoodRowStep(w.s, v.s, o.id) by { SameGoodRowStep(w.s, Write(w, o.id, CopyOf(o, w.s)).s, v.s, o.id); }
      GoodRowKeeps(w, v, o.id);
    } else if o.Reports? {
      assert GoodRowStep(w.s, v.s, o.id) by { ReportedGood(w, o, v); }
      GoodRowKeeps(w, v, o.id);
    } else {
      SameRunsStayGood(w.s, v.s);
    }
  }

  lemma SameGoodRowStep(s: State, t: State, u: State, id: RunId)
    requires GoodRowStep(s, t, id) && u.runs == t.runs
    ensures GoodRowStep(s, u, id)
  {
  }

  lemma ReportedGood(w: World, o: Opening, v: World)
    requires o.Reports? && o.id !in w.s.runs && v.s.runs == w.s.runs[o.id := CopyOf(o, w.s)]
    ensures GoodRowStep(w.s, v.s, o.id)
  {
  }

  lemma HarmlessWriteIsGood(w: World, id: RunId, copy: Run)
    requires Sound(w) && Good(w.s) && id in w.s.runs && Fits(w.s, w.s.runs[id], copy) && Harmless(w, id, copy)
    ensures var v := Write(w, id, copy); Good(v.s) && Grows(w.s, v.s)
  {
    hide Sound, Good, TriggersOnce, TasksDrawn, OwnTrigger, Answers, Grows;
    var v := Write(w, id, copy);
    if Blocked(w.s, id, copy) {
      SameRunsStayGood(w.s, v.s);
    } else {
      WriteKeepsSound(w, id, copy);
      if copy.kind.AssetRun? && Active(w.s.runs[id].status) {
        ActiveForItself(w.s, id);
      }
      GoodRowKeeps(w, v, id);
    }
  }

  /** The other direction: a harmful write loses an event or makes a second run active. */
  lemma HarmfulWriteShows(w: World, id: RunId, copy: Run)
    requires Sound(w) && id in w.s.runs && Fits(w.s, w.s.runs[id], copy) && !Harmless(w, id, copy)
    ensures var v := Write(w, id, copy); !Good(v.s) || !Grows(w.s, v.s)
  {
    hide Sound, OwnTrigger;
    var v, row := Write(w, id, copy), w.s.runs[id];
    if row.triggers <= copy.triggers {
      var asset := copy.kind.asset;
      var other :| ActiveFor(w.s, asset, other);
      assert ActiveFor(v.s, asset, id) && ActiveFor(v.s, asset, other);
    }
  }

  lemma AddMergedGoodIff(w: World, pid: ProcId, id: RunId)
    requires Sound(w) && Good(w.s) && Can(w, AddMerged(pid, id))
    ensures var v := Do(w, AddMerged(pid, id));
            Grows(w.s, v.s) && (Good(v.s) <==> Listed(w, w.procs[pid]))
  {
    var v, p := Do(w, AddMerged(pid, id)), w.procs[pid];
    StepKeepsSound(w, AddMerged(pid, id));
    SoundParts(w, pid);
    SenderOrJoiner(w, p);
    hide Sound, OwnTrigger, Fits, ProcSound, AllSteady, TriggersOnce, TasksDrawn, PointsToRun, Unsent, Good, Grows, Merged;
    var merged := Merged(p.purpose.q, p.id, p.copy.task);
    assert v.s.runs == w.s.runs[id := merged];
    MergedRowIff(w.s, v.s, id, p, merged);
    if Listed(w, p) {
      GoodRowKeeps(w, v, id);
    }
  }

  lemma SenderOrJoiner(w: World, p: Proc)
    requires ProcSound(w, p) && p.purpose.Joining?
    ensures Ordinary(p.purpose.q) && p.id in w.s.runs && w.s.runs[p.id].kind == AssetRun(p.purpose.q.asset) && w.s.runs[p.id].status != Coalesced
  {
  }

  lemma MergedRowIff(s: State, t: State, id: RunId, p: Proc, merged: Run)
    requires p.purpose.Joining? && Ordinary(p.purpose.q) && p.phase == HasSaved && id !in s.runs && p.id in s.runs
    requires s.runs[p.id].kind == AssetRun(p.purpose.q.asset) && s.runs[p.id].status != Coalesced
    requires merged == Merged(p.purpose.q, p.id, p.copy.task) && t.runs == s.runs[id := merged]
    ensures p.purpose.q.event.value in s.runs[p.id].triggers ==> GoodRowStep(s, t, id)
    ensures p.purpose.q.event.value !in s.runs[p.id].triggers ==> !Good(t)
    ensures Grows(s, t)
  {
    hide OneActive;
    if p.purpose.q.event.value !in s.runs[p.id].triggers {
      assert !PointsWell(t.runs, t.runs[id]);
    }
  }

  /** One action keeps one active run per asset, well-pointing merged runs, and every event, exactly
      when it is harmless. */
  lemma GoodIffHarmless(w: World, a: Action)
    requires Sound(w) && Good(w.s) && Can(w, a)
    ensures Good(Do(w, a).s) && Grows(w.s, Do(w, a).s) <==> HarmlessAction(w, a)
  {
    hide Sound, Good, Grows, Opens, Opened, Fits, ProcSound, Unsent, Harmless, TriggersOnce, TasksDrawn, PointsToRun, Write, Apply;
    match a
    case Act(step) => ActKeepsGood(w, step);
    case Open(pid, o) => OpenKeepsGood(w, pid, o);
    case Save(pid) => CopyWriteIff(w, pid, w.procs[pid].copy, Do(w, a));
    case Undo(pid) => CopyWriteIff(w, pid, w.procs[pid].undo, Do(w, a));
    case AddMerged(pid, id) => AddMergedGoodIff(w, pid, id);
    case _ => SameRunsStayGood(w.s, Do(w, a).s);
  }

  lemma CopyWriteIff(w: World, pid: ProcId, copy: Run, v: World)
    requires Sound(w) && Good(w.s) && pid in w.procs && copy in {w.procs[pid].copy, w.procs[pid].undo}
    requires v.s == Write(w, w.procs[pid].id, copy).s
    ensures w.procs[pid].id in w.s.runs
    ensures Good(v.s) && Grows(w.s, v.s) <==> Harmless(w, w.procs[pid].id, copy)
  {
    hide Sound, Good, Grows, Fits, ProcSound, Unsent, Harmless, TriggersOnce, TasksDrawn, PointsToRun;
    SoundParts(w, pid);
    if Harmless(w, w.procs[pid].id, copy) {
      HarmlessWriteIsGood(w, w.procs[pid].id, copy);
    } else {
      HarmfulWriteShows(w, w.procs[pid].id, copy);
    }
  }
}
