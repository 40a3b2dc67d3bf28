/** Superseded task ids over every interleaving: when they can become current again, and when a task
    that has begun work is the last one drawn so far to do any. */
module Fencing {
  import opened Common
  import opened Research
  import opened Dispatch
  import opened DispatchRuns

  // ------------------------------------------------------------ who can bring an id back

  /** Writing this copy would let the message pass the worker's guard. */
  predicate Revives(w: World, copy: Run, m: Message) {
    !Blocked(w.s, m.run, copy) && (copy.task.None? || copy.task == Some(m.task))
  }

  /** The process still holds such a copy: the one it has read, or the one it keeps in case
      publishing raises. */
  predicate MayRevive(w: World, p: Proc, m: Message) {
    && p.id == m.run
    && ((p.phase == HasRead && Revives(w, p.copy, m)) || (p.purpose.Sending? && Revives(w, p.undo, m)))
  }

  predicate Settled(w: World, m: Message) {
    forall pid :: pid in w.procs ==> !MayRevive(w, w.procs[pid], m)
  }

  predicate Past(w: World, m: Message) {
    m.run in w.s.runs && m.task in w.s.issued && Superseded(w.s, m)
  }

  /** Status reports and deliveries keep the task id; cancelled rows stay closed. */
  lemma ProcStaysHarmless(w: World, v: World, p: Proc, m: Message)
    requires !MayRevive(w, p, m) && AllSteady(w.s, v.s) && m.run in w.s.runs
    ensures !MayRevive(v, p, m)
  {
  }

  /** What a process reads carries the row's task id, and what it prepares that one or a new one. */
  lemma OpenedTasks(s: State, o: Opening, task: Option<TaskId>)
    requires Opens(s, o) && task.Some? && task.value in s.issued
    requires !Inserts(o) ==> s.runs[o.id].task.Some? && s.runs[o.id].task != task
    ensures CopyOf(o, s).task.Some? && CopyOf(o, s).task != task
    ensures UndoOf(o, s).task.Some? && UndoOf(o, s).task != task
  {
    hide Answers;
  }

  lemma NewProcIsHarmless(w: World, pid: ProcId, o: Opening, m: Message)
    requires Can(w, Open(pid, o)) && Past(w, m)
    ensures var v := Do(w, Open(pid, o)); pid in v.procs && !MayRevive(v, v.procs[pid], m)
  {
    hide Answers, CopyOf, UndoOf, Blocked;
    if o.id == m.run {
      OpenedTasks(w.s, o, Some(m.task));
    }
  }

  lemma OpenStaysPast(w: World, pid: ProcId, o: Opening, m: Message)
    requires Can(w, Open(pid, o)) && Past(w, m)
    ensures Past(Do(w, Open(pid, o)), m)
  {
    hide Answers, CopyOf, UndoOf;
  }

  lemma OpenStaysSettled(w: World, pid: ProcId, o: Opening, m: Message)
    requires Sound(w) && Can(w, Open(pid, o)) && Past(w, m) && Settled(w, m)
    ensures var v := Do(w, Open(pid, o)); Past(v, m) && Settled(v, m)
  {
    StepKeepsSound(w, Open(pid, o));
    OpenStaysPast(w, pid, o, m);
    NewProcIsHarmless(w, pid, o, m);
    PastExists(w, m);
    hide Sound, AllSteady, Past, MayRevive, Opened, Opens;
    var v := Do(w, Open(pid, o));
    forall q | q in v.procs
      ensures !MayRevive(v, v.procs[q], m)
    {
      if q != pid {
        ProcUntouched(w, Open(pid, o), q);
        ProcStaysHarmless(w, v, w.procs[q], m);
      }
    }
  }

  lemma WriteStaysPast(w: World, id: RunId, copy: Run, m: Message)
    requires Past(w, m) && (id == m.run ==> !Revives(w, copy, m))
    ensures Past(Write(w, id, copy), m)
  {
  }

  lemma ActStaysPast(w: World, step: Step, m: Message)
    requires Can(w, Act(step)) && Past(w, m)
    ensures Past(Do(w, Act(step)), m)
  {
    hide Answers;
  }

  lemma SavedStaysHarmless(w: World, pid: ProcId, m: Message)
    requires Can(w, Save(pid)) && AllSteady(w.s, Do(w, Save(pid)).s) && m.run in w.s.runs && !MayRevive(w, w.procs[pid], m)
    ensures pid in Do(w, Save(pid)).procs ==> !MayRevive(Do(w, Save(pid)), Do(w, Save(pid)).procs[pid], m)
  {
    hide Write;
    if pid in Do(w, Save(pid)).procs {
      SaveClosesRequeue(w, pid);
      ProcStaysHarmless(w, Do(w, Save(pid)), w.procs[pid], m);
    }
  }

  lemma SaveClosesRequeue(w: World, pid: ProcId)
    requires Can(w, Save(pid)) && pid in Do(w, Save(pid)).procs
    ensures var q := Do(w, Save(pid)).procs[pid]; LaterStage(w.procs[pid], q) && q.phase == HasSaved
  {
  }

  lemma SaveStaysSettled(w: World, pid: ProcId, m: Message)
    requires Sound(w) && Can(w, Save(pid)) && Past(w, m) && Settled(w, m)
    ensures var v := Do(w, Save(pid)); Past(v, m) && Settled(v, m)
  {
    StepKeepsSound(w, Save(pid));
    SaveWrites(w, pid);
    var p, v := w.procs[pid], Do(w, Save(pid));
    assert !MayRevive(w, p, m);
    assert Past(v, m) by {
      hide Sound, Write, AllSteady, Revives, Past, Do, Can;
      WriteStaysPast(w, p.id, p.copy, m);
      SamePast(Write(w, p.id, p.copy), v, m);
    }
    PastExists(w, m);
    SavedStaysHarmless(w, pid, m);
    hide Sound, Write, AllSteady, Revives, Past, MayRevive, Do, Can;
    forall q | q in v.procs
      ensures !MayRevive(v, v.procs[q], m)
    {
      if q != pid {
        ProcUntouched(w, Save(pid), q);
        ProcStaysHarmless(w, v, w.procs[q], m);
      }
    }
  }

  lemma SaveWrites(w: World, pid: ProcId)
    requires Can(w, Save(pid))
    ensures Do(w, Save(pid)).s == Write(w, w.procs[pid].id, w.procs[pid].copy).s
  {
  }

  lemma SamePast(w: World, v: World, m: Message)
    requires Past(w, m) && v.s.runs == w.s.runs && w.s.issued <= v.s.issued
    ensures Past(v, m)
  {
  }

  lemma PastExists(w: World, m: Message)
    requires Past(w, m)
    ensures m.run in w.s.runs
  {
  }

  lemma UndoStaysSettled(w: World, pid: ProcId, m: Message)
    requires Sound(w) && Can(w, Undo(pid)) && Past(w, m) && Settled(w, m)
    ensures var v := Do(w, Undo(pid)); Past(v, m) && Settled(v, m)
  {
    StepKeepsSound(w, Undo(pid));
    FailedIsSending(w, pid);
    UndoWrites(w, pid);
    PastExists(w, m);
    var p, v := w.procs[pid], Do(w, Undo(pid));
    assert !MayRevive(w, p, m);
    assert p.id == m.run ==> !Revives(w, p.undo, m);
    hide Sound, Write, AllSteady, Revives, Past, MayRevive, Do, Can;
    WriteStaysPast(w, p.id, p.undo, m);
    SamePast(Write(w, p.id, p.undo), v, m);
    forall q | q in v.procs
      ensures !MayRevive(v, v.procs[q], m)
    {
      ProcStaysHarmless(w, v, w.procs[q], m);
    }
  }

  lemma UndoWrites(w: World, pid: ProcId)
    requires Can(w, Undo(pid))
    ensures Do(w, Undo(pid)).s == Write(w, w.procs[pid].id, w.procs[pid].undo).s
    ensures Do(w, Undo(pid)).procs == w.procs - {pid}
  {
  }

  lemma FailedIsSending(w: World, pid: ProcId)
    requires Sound(w) && pid in w.procs && w.procs[pid].phase == HasFailed
    ensures w.procs[pid].purpose.Sending?
  {
    assert ProcSound(w, w.procs[pid]);
  }

  /** No action opens a way back for a message that has none. */
  lemma StepStaysSettled(w: World, a: Action, m: Message)
    requires Sound(w) && Can(w, a) && Past(w, m) && Settled(w, m)
    ensures Past(Do(w, a), m) && Settled(Do(w, a), m)
  {
    match a
    case Open(pid, o) => OpenStaysSettled(w, pid, o, m);
    case Save(pid) => SaveStaysSettled(w, pid, m);
    case Undo(pid) => UndoStaysSettled(w, pid, m);
    case _ => OtherStaysSettled(w, a, m);
  }

  lemma OtherStaysSettled(w: World, a: Action, m: Message)
    requires Sound(w) && Can(w, a) && Past(w, m) && Settled(w, m) && !a.Open? && !a.Save? && !a.Undo?
    ensures Past(Do(w, a), m) && Settled(Do(w, a), m)
  {
    StepKeepsSound(w, a);
    PastStays(w, a, m);
    PastExists(w, m);
    hide Sound, AllSteady, MayRevive, Past, Can, Do;
    var v := Do(w, a);
    forall q | q in v.procs
      ensures !MayRevive(v, v.procs[q], m)
    {
      SameCopies(w, a, q);
      ProcStaysHarmless(w, v, w.procs[q], m);
      SameRevival(v, w.procs[q], v.procs[q], m);
    }
  }

  lemma SameCopies(w: World, a: Action, q: ProcId)
    requires Can(w, a) && !a.Open? && !a.Save? && !a.Undo? && q in Do(w, a).procs
    ensures q in w.procs && LaterStage(w.procs[q], Do(w, a).procs[q])
    ensures Do(w, a).procs[q].phase == HasRead ==> w.procs[q].phase == HasRead
  {
    hide Apply, Answers;
  }

  lemma SameRevival(v: World, p: Proc, q: Proc, m: Message)
    requires LaterStage(p, q) && !MayRevive(v, p, m) && (q.phase == HasRead ==> p.phase == HasRead)
    ensures !MayRevive(v, q, m)
  {
  }

  lemma PastStays(w: World, a: Action, m: Message)
    requires Can(w, a) && Past(w, m) && !a.Open? && !a.Save? && !a.Undo?
    ensures Past(Do(w, a), m)
  {
    if a.Act? {
      ActStaysPast(w, a.step, m);
    }
  }

  /** A superseded message for which no open process holds a copy stays superseded, and delivering it
      never changes anything again. */
  lemma {:induction false} SupersededForever(ws: seq<World>, actions: seq<Action>, i: nat, j: nat, m: Message)
    requires Execution(ws, actions) && Sound(ws[0]) && i <= j < |ws| && Past(ws[i], m) && Settled(ws[i], m)
    ensures Past(ws[j], m) && Settled(ws[j], m)
    ensures Enabled(ws[j].s, Deliver(m)) ==> Apply(ws[j].s, Deliver(m)) == ws[j].s
    decreases j
  {
    hide Sound, Can, Do, Settled;
    if i < j {
      SupersededForever(ws, actions, i, j - 1, m);
      AlwaysSound(ws, actions, j - 1, j - 1);
      StepStaysSettled(ws[j - 1], actions[j - 1], m);
    }
  }

  // ------------------------------------------------------------ the way back

  /** A process that holds a copy with the id can bring the message back: it saves it, or it fails and
      undoes. */
  lemma WayBack(w: World, pid: ProcId, m: Message)
    requires Sound(w) && Past(w, m) && pid in w.procs && MayRevive(w, w.procs[pid], m)
    ensures exists v :: Reaches(w, v) && m.run in v.s.runs && !Superseded(v.s, m)
  {
    hide Sound, Reaches;
    var p := w.procs[pid];
    if p.phase == HasRead && Revives(w, p.copy, m) {
      var v := CanBeSaved(w, pid);
    } else {
      var v := CanBeUndone(w, pid);
    }
  }

  /** A superseded message is superseded for good, whatever the processes do, if and only if no open
      process still holds a copy that would bring it back. */
  lemma SupersededForGoodIff(w: World, m: Message)
    requires Sound(w) && Past(w, m)
    ensures (forall v :: Reaches(w, v) ==> m.run in v.s.runs && Superseded(v.s, m)) <==> Settled(w, m)
  {
    hide Sound, Can, Do, MayRevive;
    if Settled(w, m) {
      forall v | Reaches(w, v)
        ensures m.run in v.s.runs && Superseded(v.s, m)
      {
        var ws, actions :| Execution(ws, actions) && ws[0] == w && ws[|ws| - 1] == v;
        SupersededForever(ws, actions, 0, |ws| - 1, m);
      }
    } else {
      var pid :| pid in w.procs && MayRevive(w, w.procs[pid], m);
      WayBack(w, pid, m);
    }
  }

  // ------------------------------------------------------------ one task at a time

  /** The message would start work if it were delivered. */
  predicate Works(s: State, m: Message) {
    m.run in s.runs && !Superseded(s, m) && !Answered(s.runs[m.run])
  }

  predicate CarriesOther(run: Run, m: Message) { run.task.Some? && run.task != Some(m.task) }

  /** The run is cancelled, or the message is superseded and whoever holds its id has missed a write. */
  predicate Outdated(w: World, m: Message) {
    m.run in w.s.runs
    && (w.s.runs[m.run].status == Cancelled
        || (Past(w, m)
            && forall pid :: pid in w.procs && w.procs[pid].id == m.run ==> ProcOutdated(w, w.procs[pid], m)))
  }

  predicate ProcOutdated(w: World, p: Proc, m: Message) {
    p.seen < Revision(w, m.run) || (CarriesOther(p.copy, m) && CarriesOther(p.undo, m))
  }

  lemma OutdatedStays(w: World, a: Action, pid: ProcId, m: Message)
    requires Can(w, a) && pid in Do(w, a).procs && pid in w.procs && ProcOutdated(w, w.procs[pid], m)
    requires LaterStage(w.procs[pid], Do(w, a).procs[pid]) && Do(w, a).procs[pid].seen == w.procs[pid].seen
    ensures ProcOutdated(Do(w, a), Do(w, a).procs[pid], m)
  {
    hide Can, Do, CarriesOther;
    RevisionsGrow(w, a, m.run);
  }

  /** A clean write of a copy that has missed nothing carries another id. */
  lemma CleanCopyCarriesOther(w: World, a: Action, m: Message)
    requires Can(w, a) && CleanAction(w, a) && (a.Save? || a.Undo?)
    requires Outdated(w, m) && w.s.runs[m.run].status != Cancelled
    ensures a.pid in w.procs
    ensures w.procs[a.pid].id == m.run ==>
              CarriesOther(w.procs[a.pid].copy, m) && CarriesOther(w.procs[a.pid].undo, m)
  {
    hide CarriesOther, Past;
    assert w.procs[a.pid].id == m.run ==> ProcOutdated(w, w.procs[a.pid], m);
  }

  lemma CleanCopyWrite(w: World, a: Action, m: Message)
    requires Can(w, a) && CleanAction(w, a) && (a.Save? || a.Undo?)
    requires Outdated(w, m) && w.s.runs[m.run].status != Cancelled
    ensures Past(Do(w, a), m)
  {
    CleanCopyCarriesOther(w, a, m);
    var p := w.procs[a.pid];
    var copy := if a.Save? then p.copy else p.undo;
    hide CleanAction, ProcOutdated, Past, Write;
    WriteStaysPast(w, p.id, copy, m);
    SamePast(Write(w, p.id, copy), Do(w, a), m);
  }

  lemma StepStaysOutdated(w: World, a: Action, m: Message)
    requires Sound(w) && Can(w, a) && CleanAction(w, a) && Outdated(w, m)
    ensures Outdated(Do(w, a), m)
  {
    StepKeepsSound(w, a);
    var v := Do(w, a);
    if v.s.runs[m.run].status != Cancelled {
      assert w.s.runs[m.run].status != Cancelled && Past(w, m);
      OutdatedPast(w, a, m);
      forall q | q in v.procs && v.procs[q].id == m.run
        ensures ProcOutdated(v, v.procs[q], m)
      {
        OutdatedProc(w, a, q, m);
      }
    }
  }

  lemma OutdatedPast(w: World, a: Action, m: Message)
    requires Sound(w) && Can(w, a) && CleanAction(w, a) && Outdated(w, m) && w.s.runs[m.run].status != Cancelled
    ensures Past(Do(w, a), m)
  {
    hide Sound, Do, Can, Past, CleanAction;
    if a.Save? || a.Undo? {
      CleanCopyWrite(w, a, m);
    } else if a.Open? {
      OpenStaysPast(w, a.pid, a.o, m);
    } else {
      PastStays(w, a, m);
    }
  }

  lemma OutdatedProc(w: World, a: Action, q: ProcId, m: Message)
    requires Sound(w) && Can(w, a) && CleanAction(w, a) && Outdated(w, m) && w.s.runs[m.run].status != Cancelled
    requires q in Do(w, a).procs && Do(w, a).procs[q].id == m.run
    ensures ProcOutdated(Do(w, a), Do(w, a).procs[q], m)
  {
    hide Sound, Can, Past, CleanAction, ProcOutdated, CarriesOther, Opens, Opened, Apply, Write;
    if a.Open? && a.pid == q {
      NewProcCarriesOther(w, q, a.o, m);
    } else if a == Save(q) {
      CleanCopyCarriesOther(w, a, m);
      SaveClosesRequeue(w, q);
      CarriesIsOutdated(Do(w, a), w.procs[q], Do(w, a).procs[q], m);
    } else {
      SameStage(w, a, q);
      OutdatedStays(w, a, q, m);
    }
  }

  lemma CarriesIsOutdated(v: World, p: Proc, q: Proc, m: Message)
    requires LaterStage(p, q) && CarriesOther(p.copy, m) && CarriesOther(p.undo, m)
    ensures ProcOutdated(v, q, m)
  {
  }

  lemma NewProcCarriesOther(w: World, pid: ProcId, o: Opening, m: Message)
    requires Can(w, Open(pid, o)) && Past(w, m) && Do(w, Open(pid, o)).procs[pid].id == m.run
    ensures ProcOutdated(Do(w, Open(pid, o)), Do(w, Open(pid, o)).procs[pid], m)
  {
    hide Answers, CopyOf, UndoOf;
    OpenedTasks(w.s, o, Some(m.task));
  }

  lemma OutdatedDoesNotWork(w: World, m: Message)
    requires Outdated(w, m)
    ensures !Works(w.s, m)
  {
  }

  /** The delivery that starts work writes the row, so every copy made before has missed it. */
  lemma DeliveryOutdates(w: World, n: Message, m: Message)
    requires Sound(w) && Can(w, Act(Deliver(n))) && Works(w.s, n) && w.s.runs[n.run].task.Some?
    requires m.run == n.run && m.task != n.task && m.task in w.s.issued
    ensures Outdated(Do(w, Act(Deliver(n))), m)
  {
    hide OwnTrigger, TriggersOnce, TasksDrawn, PointsToRun, Fits;
    var v := Do(w, Act(Deliver(n)));
    forall pid | pid in v.procs && v.procs[pid].id == m.run
      ensures ProcOutdated(v, v.procs[pid], m)
    {
      assert ProcSound(w, w.procs[pid]);
    }
  }

  lemma {:induction false} OutdatedForever(ws: seq<World>, actions: seq<Action>, i: nat, j: nat, m: Message)
    requires Execution(ws, actions) && Sound(ws[0]) && i <= j < |ws| && Outdated(ws[i], m)
    requires forall k :: i <= k < |actions| ==> CleanAction(ws[k], actions[k])
    ensures Outdated(ws[j], m)
    decreases j
  {
    hide Sound, Can, Do, Outdated, CleanAction;
    if i < j {
      OutdatedForever(ws, actions, i, j - 1, m);
      AlwaysSound(ws, actions, j - 1, j - 1);
      StepStaysOutdated(ws[j - 1], actions[j - 1], m);
    }
  }

  /** Once a message has begun work on a run that has a task id, no other id drawn by then ever begins
      work on it, as long as from then on copies are only written over rows unchanged since they were
      made. */
  lemma OnlyOneWorks(ws: seq<World>, actions: seq<Action>, i: nat, j: nat, n: Message, m: Message)
    requires Execution(ws, actions) && Sound(ws[0]) && i < j < |ws|
    requires actions[i] == Act(Deliver(n)) && Works(ws[i].s, n) && ws[i].s.runs[n.run].task.Some?
    requires forall k :: i < k < |actions| ==> CleanAction(ws[k], actions[k])
    requires m.run == n.run && m.task != n.task && m.task in ws[i].s.issued
    ensures !Works(ws[j].s, m)
  {
    hide Sound, Can, Do, Outdated, CleanAction, Works;
    AlwaysSound(ws, actions, i, i);
    DeliveryOutdates(ws[i], n, m);
    OutdatedForever(ws, actions, i + 1, j, m);
    OutdatedDoesNotWork(ws[j], m);
  }

  /** The k-th action writes the row. */
  predicate Wrote(ws: seq<World>, k: nat, id: RunId)
    requires k + 1 < |ws|
  {
    Revision(ws[k + 1], id) != Revision(ws[k], id)
  }

  lemma {:induction false} UnwrittenIff(ws: seq<World>, actions: seq<Action>, i: nat, j: nat, id: RunId)
    requires Execution(ws, actions) && i <= j < |ws|
    ensures Revision(ws[i], id) <= Revision(ws[j], id)
    ensures Revision(ws[i], id) == Revision(ws[j], id) <==> forall k :: i <= k < j ==> !Wrote(ws, k, id)
    decreases j
  {
    hide Can, Do;
    if i < j {
      UnwrittenIff(ws, actions, i, j - 1, id);
      var k := j - 1;
      StepOf(ws, actions, k);
      RevisionsGrow(ws[k], actions[k], id);
      assert (forall m :: i <= m < j ==> !Wrote(ws, m, id))
             <==> (forall m :: i <= m < k ==> !Wrote(ws, m, id)) && !Wrote(ws, k, id);
    }
  }

  /** Nothing but deliveries of the process's own message touches its row between save and undo. */
  predicate OnlyOwnDeliveries(ws: seq<World>, actions: seq<Action>, i: nat, j: nat, n: Message)
    requires |ws| == |actions| + 1 && i < j <= |actions|
  {
    forall k :: i < k < j && Wrote(ws, k, n.run) ==> actions[k] == Act(Deliver(n))
  }

  predicate BeginsWork(ws: seq<World>, actions: seq<Action>, k: nat, n: Message)
    requires k < |actions| && |ws| == |actions| + 1
  {
    actions[k] == Act(Deliver(n)) && Works(ws[k].s, n)
  }

  lemma DeliveryWritesIffWorks(w: World, n: Message)
    requires Can(w, Act(Deliver(n)))
    ensures Revision(Do(w, Act(Deliver(n))), n.run) != Revision(w, n.run) <==> Works(w.s, n)
  {
  }

  /** The undo finds the row as it was saved if and only if nobody has written it since; when only the
      process's own message could, if and only if that message has not begun work before the undo. */
  lemma UndoIsCleanIff(ws: seq<World>, actions: seq<Action>, i: nat, j: nat, pid: ProcId, n: Message)
    requires Execution(ws, actions) && i < j < |actions| && actions[i] == Save(pid) && actions[j] == Undo(pid)
    requires forall k :: i < k < j ==> !(actions[k].Open? && actions[k].pid == pid) && actions[k] != Save(pid)
    requires pid in ws[j].procs && ws[j].procs[pid].id == n.run && !Blocked(ws[j].s, n.run, ws[j].procs[pid].undo)
    ensures CleanAction(ws[j], actions[j]) <==> forall k :: i < k < j ==> !Wrote(ws, k, n.run)
    ensures OnlyOwnDeliveries(ws, actions, i, j, n) ==>
              (CleanAction(ws[j], actions[j]) <==> forall k :: i < k < j ==> !BeginsWork(ws, actions, k, n))
  {
    SeenIsSaved(ws, actions, i, j, pid);
    UnwrittenIff(ws, actions, i + 1, j, n.run);
    hide Can, Do, Works;
    forall k | i < k < j && actions[k] == Act(Deliver(n))
      ensures Wrote(ws, k, n.run) <==> BeginsWork(ws, actions, k, n)
    {
      DeliveryWritesIffWorks(ws[k], n);
    }
  }

  /** What an undo carries as seen is the revision its save left, as no other step changes it. */
  lemma {:induction false} SeenIsSaved(ws: seq<World>, actions: seq<Action>, i: nat, j: nat, pid: ProcId)
    requires Execution(ws, actions) && i < j < |ws| && actions[i] == Save(pid)
    requires forall k :: i < k < j ==> !(actions[k].Open? && actions[k].pid == pid) && actions[k] != Save(pid)
    requires pid in ws[j].procs
    ensures pid in ws[i].procs && ws[j].procs[pid].id == ws[i].procs[pid].id
    ensures ws[j].procs[pid].seen == Revision(ws[i + 1], ws[i].procs[pid].id)
    decreases j
  {
    StepOf(ws, actions, j - 1);
    if i + 1 < j {
      hide Can, Do, Execution;
      SameStage(ws[j - 1], actions[j - 1], pid);
      SeenIsSaved(ws, actions, i, j - 1, pid);
    } else {
      hide Execution;
      SavedSeen(ws[i], pid);
    }
  }

  lemma SavedSeen(w: World, pid: ProcId)
    requires Can(w, Save(pid)) && pid in Do(w, Save(pid)).procs
    ensures pid in w.procs && Do(w, Save(pid)).procs[pid].id == w.procs[pid].id
    ensures Do(w, Save(pid)).procs[pid].seen == Revision(Do(w, Save(pid)), w.procs[pid].id)
  {
  }

  /** At the moment a message begins work on a run that has a task id: no other id drawn so far is
      ever current again if and only if no open process holds a copy that would bring one back. */
  lemma OnlyOneWorksIff(w: World, n: Message)
    requires Sound(w) && Can(w, Act(Deliver(n))) && Works(w.s, n) && w.s.runs[n.run].task.Some?
    ensures var v := Do(w, Act(Deliver(n)));
            (forall u, m :: Reaches(v, u) && OtherDrawn(v.s, n, m) ==> m.run in u.s.runs && Superseded(u.s, m))
            <==> (forall pid, m :: pid in v.procs && OtherDrawn(v.s, n, m) ==> !MayRevive(v, v.procs[pid], m))
  {
    var v := Do(w, Act(Deliver(n)));
    StepKeepsSound(w, Act(Deliver(n)));
    forall m | OtherDrawn(v.s, n, m)
      ensures Past(v, m)
    {
      OthersArePast(w, n, m);
    }
    hide Sound, Can, Do, MayRevive, Past, Reaches, Superseded, Works;
    forall m | OtherDrawn(v.s, n, m)
      ensures (forall u :: Reaches(v, u) ==> m.run in u.s.runs && Superseded(u.s, m)) <==> Settled(v, m)
    {
      SupersededForGoodIff(v, m);
    }
  }

  lemma OthersArePast(w: World, n: Message, m: Message)
    requires Can(w, Act(Deliver(n))) && Works(w.s, n) && w.s.runs[n.run].task.Some? && OtherDrawn(Do(w, Act(Deliver(n))).s, n, m)
    ensures Past(Do(w, Act(Deliver(n))), m)
  {
  }

  /** A message of the same run under another id drawn so far. */
  predicate OtherDrawn(s: State, n: Message, m: Message) {
    m.run == n.run && m.task != n.task && m.task in s.issued
  }

  // ------------------------------------------------------------ failed redispatches

  /** A process that gives its redispatch up writes the row back exactly as it read it, task id,
      instance and steps included, whatever happened in between; only a cancellation stands. */
  lemma FailedRecoveryRestores(ws: seq<World>, actions: seq<Action>, i: nat, j: nat, pid: ProcId, o: Opening)
    requires Execution(ws, actions) && i < j < |actions|
    requires actions[i] == Open(pid, o) && (o.Recovers? || o.Migrates?) && actions[j] == Undo(pid)
    requires forall k :: i < k < j ==> !(actions[k].Open? && actions[k].pid == pid)
    ensures o.id in ws[i].s.runs
    ensures var n := j + 1;
            && OthersSame(ws[j].s, ws[n].s, o.id)
            && (!Blocked(ws[j].s, o.id, ws[i].s.runs[o.id]) ==>
                  o.id in ws[n].s.runs && ws[n].s.runs[o.id] == ws[i].s.runs[o.id])
  {
    KeepsWhatItRead(ws, actions, i, j, pid, o);
    assert Can(ws[j], actions[j]) && ws[j + 1] == Do(ws[j], actions[j]);
    hide Execution;
  }

  lemma {:induction false} KeepsWhatItRead(ws: seq<World>, actions: seq<Action>, i: nat, j: nat, pid: ProcId, o: Opening)
    requires Execution(ws, actions) && |ws| == |actions| + 1 && i < j < |ws|
    requires actions[i] == Open(pid, o) && (o.Recovers? || o.Migrates?)
    requires forall k :: i < k < j ==> !(actions[k].Open? && actions[k].pid == pid)
    ensures o.id in ws[i].s.runs
    ensures pid in ws[j].procs ==> ws[j].procs[pid].id == o.id && ws[j].procs[pid].undo == ws[i].s.runs[o.id]
    decreases j
  {
    hide Can, Do, Execution;
    StepOf(ws, actions, i);
    OpenedReads(ws[i], pid, o);
    if i + 1 < j {
      KeepsWhatItRead(ws, actions, i, j - 1, pid, o);
      var w, a := ws[j - 1], actions[j - 1];
      StepOf(ws, actions, j - 1);
      if pid in ws[j].procs {
        SameUndo(w, a, pid);
      }
    }
  }

  lemma OpenedReads(w: World, pid: ProcId, o: Opening)
    requires Can(w, Open(pid, o)) && (o.Recovers? || o.Migrates?)
    ensures o.id in w.s.runs
    ensures var v := Do(w, Open(pid, o)); pid in v.procs && v.procs[pid].id == o.id && v.procs[pid].undo == w.s.runs[o.id]
  {
  }

  lemma SameUndo(w: World, a: Action, q: ProcId)
    requires Can(w, a) && q in Do(w, a).procs && !(a.Open? && a.pid == q)
    ensures q in w.procs && LaterStage(w.procs[q], Do(w, a).procs[q])
  {
    if a == Save(q) {
      SaveClosesRequeue(w, q);
    } else {
      SameStage(w, a, q);
    }
  }
}
