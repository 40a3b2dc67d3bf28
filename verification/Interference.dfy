/** Research operations without and with interference: an operation nobody interrupts is the one step
    the store's own description gives, and executions in which interference does harm. */
module Interference {
  import opened Common
  import opened Research
  import opened Dispatch
  import opened DispatchRuns
  import opened Fencing

  // ------------------------------------------------------------ without interference

  function Attempted(o: Opening, outcome: Outcome): Attempt
    requires Draws(o)
  {
    Attempt(o.task, o.instance, true, outcome)
  }

  /** The operation in one step, as the store's own description gives it. */
  ghost function OneStep(s: State, o: Opening, outcome: Outcome): State
    requires Opens(s, o) && Draws(o)
  {
    var a := Attempted(o, outcome);
    match o
    case Creates(q, id, _, _) => Apply(s, Enqueue(q, None, false, id, a))
    case Reports(event, created, id, _, _) => Apply(s, Report(event, None, created, id, a))
    case Retries(id, _, _) => Apply(s, Retry(id, a))
    case Refreshes(id, _, _) => Apply(s, Refresh(id, a))
    case Recovers(id, _, _) => Recovered(s, id, a)
    case Migrates(id, _, _) => Apply(s, Migrate(id, a, false))
  }

  lemma SameCopies(s: State, o: Opening, outcome: Outcome)
    requires Opens(s, o) && Draws(o)
    ensures Dispatched(s, o.id, CopyOf(o, s), UndoOf(o, s), Attempted(o, outcome)) == OneStep(s, o, outcome)
  {
    hide Dispatched, Answers;
  }

  /** A dispatch that nobody interrupts, whatever becomes of the publication, leaves the store as the
      description in one step says, and no trace of the process. */
  lemma UninterruptedDispatch(w: World, pid: ProcId, o: Opening, outcome: Outcome)
    requires Can(w, Open(pid, o)) && Draws(o) && outcome != Crashed
    ensures exists v :: Reaches(w, v) && v.procs == w.procs && v.s == OneStep(w.s, o, outcome)
  {
    SameCopies(w.s, o, outcome);
    hide OneStep;
    var copy, undo := CopyOf(o, w.s), UndoOf(o, w.s);
    var v := MarkedAndPublished(w, pid, o, outcome);
    hide CopyOf, UndoOf, Opens, Opened, Reaches, Can;
    if Raised(outcome) {
      UndoneState(w, v, pid);
      v := Do(Do(v, Unmark(pid)), Undo(pid));
    }
  }

  lemma UndoneState(w: World, v: World, pid: ProcId)
    requires Reaches(w, v) && pid in v.procs && v.procs[pid].phase == HasFailed && v.procs[pid].purpose.Sending?
    ensures Can(v, Unmark(pid)) && Can(Do(v, Unmark(pid)), Undo(pid))
    ensures var p, u := v.procs[pid], Do(Do(v, Unmark(pid)), Undo(pid));
            Reaches(w, u) && u.procs == v.procs - {pid} && u.s == Saved(Unmarked(v.s, p.id, p.purpose.task), p.id, p.undo)
  {
    hide Reaches;
    ReachesUndone(w, v, pid);
  }

  lemma ReachesUndone(w: World, v: World, pid: ProcId)
    requires Reaches(w, v) && Can(v, Unmark(pid))
    ensures Can(Do(v, Unmark(pid)), Undo(pid)) && Reaches(w, Do(Do(v, Unmark(pid)), Undo(pid)))
  {
    hide Reaches;
    ReachesNext(w, v, Unmark(pid));
    ReachesNext(w, Do(v, Unmark(pid)), Undo(pid));
  }

  /** The process after it has published. */
  lemma MarkedAndPublished(w: World, pid: ProcId, o: Opening, outcome: Outcome) returns (v: World)
    requires Can(w, Open(pid, o)) && Draws(o) && outcome != Crashed
    ensures Reaches(w, v)
    ensures var marked := Marked(Saved(w.s, o.id, CopyOf(o, w.s)).(issued := w.s.issued + {o.task}), o.id, o.task);
            v.s == if Reached(outcome) then Published(marked, o.id, Attempted(o, outcome)) else marked
    ensures v.procs - {pid} == w.procs && (pid in v.procs <==> Raised(outcome))
    ensures Raised(outcome) ==>
              var p := v.procs[pid];
              p.id == o.id && p.purpose == Sending(o.task, o.instance) && p.phase == HasFailed && p.undo == UndoOf(o, w.s)
  {
    hide CopyOf, UndoOf, Opens, Opened, Reaches, Saved;
    v := MarkedAndSaved(w, pid, o);
    ReachesNext(w, v, Publish(pid, outcome));
    v := Do(v, Publish(pid, outcome));
  }

  /** The process after its marker and its first save. */
  lemma MarkedAndSaved(w: World, pid: ProcId, o: Opening) returns (v: World)
    requires Can(w, Open(pid, o)) && Draws(o)
    ensures Reaches(w, v)
    ensures v.s == Marked(Saved(w.s, o.id, CopyOf(o, w.s)).(issued := w.s.issued + {o.task}), o.id, o.task)
    ensures pid in v.procs && v.procs - {pid} == w.procs
    ensures var p := v.procs[pid];
            p.id == o.id && p.purpose == Sending(o.task, o.instance) && p.phase == HasSaved && p.undo == UndoOf(o, w.s)
  {
    hide CopyOf, UndoOf, Reaches;
    ReachesItself(w);
    ReachesNext(w, w, Open(pid, o));
    v := Do(w, Open(pid, o));
    hide Opens, Opened;
    ReachesNext(w, v, Mark(pid));
    v := Do(v, Mark(pid));
    if !Inserts(o) {
      ReachesNext(w, v, Save(pid));
      v := Do(v, Save(pid));
    }
  }

  /** So does requeueing a run whose worker has lost its lease, whenever the description allows it. */
  lemma UninterruptedRequeue(w: World, pid: ProcId, id: RunId)
    requires Enabled(w.s, Requeue(id)) && pid !in w.procs
    ensures exists v :: Reaches(w, v) && v.procs == w.procs && v.s == Apply(w.s, Requeue(id))
  {
    hide Reaches;
    ReachesItself(w);
    ReachesNext(w, w, Open(pid, Requeues(id)));
    var v := Do(w, Open(pid, Requeues(id)));
    ReachesNext(w, v, Save(pid));
    v := Do(v, Save(pid));
    assert v.procs == w.procs;
  }

  /** An operation can begin whenever the description in one step allows it, an admission while nobody
      holds the lock of its asset. */
  lemma AdmissionCanBegin(w: World, pid: ProcId, id: RunId, q: Request, task: TaskId, instance: string)
    requires pid !in w.procs
    ensures Enabled(w.s, Enqueue(q, None, false, id, Attempt(task, instance, true, Sent))) && !Locked(w, q.asset)
            <==> Can(w, Open(pid, Creates(q, id, task, instance)))
    ensures Ordinary(q) && ActiveFor(w.s, q.asset, id) && !Locked(w, q.asset) <==> Can(w, Open(pid, Joins(q, id)))
  {
    hide Locked;
  }

  lemma ReportCanBegin(w: World, pid: ProcId, id: RunId, task: TaskId, instance: string, event: EventId, created: Time)
    requires pid !in w.procs
    ensures var a := Attempt(task, instance, true, Sent);
            && (Enabled(w.s, Report(event, None, created, id, a)) <==> Can(w, Open(pid, Reports(event, created, id, task, instance))))
            && (Enabled(w.s, Retry(id, a)) <==> Can(w, Open(pid, Retries(id, task, instance))))
            && (Enabled(w.s, Refresh(id, a)) <==> Can(w, Open(pid, Refreshes(id, task, instance))))
            && (Enabled(w.s, Migrate(id, a, false)) <==> Can(w, Open(pid, Migrates(id, task, instance))))
  {
    hide Migrated;
  }

  /** A recovery decides by the copy it has read, so its row need not look lost any more. */
  lemma RecoveryCanBegin(w: World, pid: ProcId, id: RunId, task: TaskId, instance: string)
    requires pid !in w.procs
    ensures Can(w, Open(pid, Recovers(id, task, instance))) <==> id in w.s.runs && w.s.runs[id].status == Queued && task !in w.s.issued
    ensures Enabled(w.s, Requeue(id)) <==> Can(w, Open(pid, Requeues(id)))
  {
  }

  /** So does an admission that joins the active run. */
  lemma UninterruptedJoin(w: World, pid: ProcId, q: Request, active: RunId, id: RunId, a: Attempt)
    requires Can(w, Open(pid, Joins(q, active))) && id !in w.s.runs
    ensures exists v :: Reaches(w, v) && v.procs == w.procs && v.s == Enqueued(w.s, q, Some(active), false, id, a)
  {
    hide Reaches;
    ReachesItself(w);
    ReachesNext(w, w, Open(pid, Joins(q, active)));
    var v := Do(w, Open(pid, Joins(q, active)));
    if v.procs[pid].phase == HasRead {
      ReachesNext(w, v, Save(pid));
      v := Do(v, Save(pid));
    }
    ReachesNext(w, v, AddMerged(pid, id));
    v := Do(v, AddMerged(pid, id));
    assert v.procs == w.procs;
  }

  // ------------------------------------------------------------ with interference

  // What single actions do, one by one.

  lemma OpeningDoes(w: World, pid: ProcId, o: Opening)
    requires Can(w, Open(pid, o))
    ensures Do(w, Open(pid, o)) == Opened(w, pid, o)
  {
  }

  lemma Delivery(w: World, m: Message)
    requires m in w.s.sent && Works(w.s, m) && w.s.runs[m.run].status == Queued
    ensures Can(w, Act(Deliver(m)))
    ensures var v := Do(w, Act(Deliver(m)));
            && v.s == w.s.(runs := w.s.runs[m.run := w.s.runs[m.run].(instance := Some(m.instance), status := Running)])
            && v.procs == w.procs
  {
  }

  lemma Reporting(w: World, id: RunId, status: RunStatus)
    requires id in w.s.runs && Active(w.s.runs[id].status) && status !in {Coalesced, Cancelled}
    ensures Can(w, Act(Progress(id, status)))
    ensures var v := Do(w, Act(Progress(id, status)));
            v.s == w.s.(runs := w.s.runs[id := w.s.runs[id].(status := status)]) && v.procs == w.procs
  {
  }

  lemma MarkingDoes(w: World, pid: ProcId)
    requires pid in w.procs && w.procs[pid].phase == HasRead && w.procs[pid].purpose.Sending?
    ensures Can(w, Mark(pid))
    ensures var p, v := w.procs[pid], Do(w, Mark(pid));
            && v.s == Marked(w.s, p.id, p.purpose.task)
            && v.procs == w.procs[pid := p.(marking := Free)]
  {
  }

  lemma Saving(w: World, pid: ProcId)
    requires pid in w.procs && w.procs[pid].phase == HasRead && w.procs[pid].purpose.Sending? && w.procs[pid].marking == Free
    requires w.procs[pid].id in w.s.runs && w.s.runs[w.procs[pid].id].status != Cancelled
    ensures Can(w, Save(pid))
    ensures var p, v := w.procs[pid], Do(w, Save(pid));
            && v.s == w.s.(runs := w.s.runs[p.id := p.copy])
            && v.procs == w.procs[pid := p.(phase := HasSaved, seen := Revision(v, p.id))]
  {
  }

  lemma Raising(w: World, pid: ProcId)
    requires pid in w.procs && w.procs[pid].phase == HasSaved && w.procs[pid].purpose.Sending?
    ensures Can(w, Publish(pid, ErrorAfterSend))
    ensures var p, v := w.procs[pid], Do(w, Publish(pid, ErrorAfterSend));
            && v.s == w.s.(sent := w.s.sent + [Message(p.id, p.purpose.task, p.purpose.instance)])
            && v.procs == w.procs[pid := p.(phase := HasFailed)]
  {
  }

  lemma Refusing(w: World, pid: ProcId)
    requires pid in w.procs && w.procs[pid].phase == HasSaved && w.procs[pid].purpose.Sending?
    ensures Can(w, Publish(pid, Refused))
    ensures var v := Do(w, Publish(pid, Refused));
            v.s == w.s && v.procs == w.procs[pid := w.procs[pid].(phase := HasFailed)]
  {
  }

  lemma Undoing(w: World, pid: ProcId)
    requires pid in w.procs && w.procs[pid].phase == HasFailed && w.procs[pid].purpose.Sending?
    requires w.procs[pid].id in w.s.runs && w.s.runs[w.procs[pid].id].status != Cancelled
    ensures Can(w, Undo(pid))
    ensures var p, v := w.procs[pid], Do(w, Undo(pid));
            v.s == w.s.(runs := w.s.runs[p.id := p.undo]) && v.procs == w.procs - {pid}
  {
  }

  const First := Request("A", Some(1), false, None, None, false, 0)
  const FirstRow := NewRun(First, Some(7), Some(""), "research_queue")
  const Second := Request("A", Some(2), false, None, None, false, 0)

  /** The first run of an asset, queued under task 7 and published. */
  lemma FirstRun() returns (w: World)
    ensures Reaches(Start, w) && Sound(w)
    ensures w.s.runs == map[1 := FirstRow] && w.s.sent == [Message(1, 7, "")] && w.s.issued == {7} && w.procs == map[]
  {
    hide Sound, Reaches, NewRun;
    w := FirstCreated();
    ReachesNext(Start, w, Publish(1, Sent));
    StepKeepsSound(w, Publish(1, Sent));
    w := Do(w, Publish(1, Sent));
  }

  lemma FirstCreated() returns (w: World)
    ensures Reaches(Start, w) && Sound(w)
    ensures w.s.runs == map[1 := FirstRow] && w.s.sent == [] && w.s.issued == {7} && w.procs.Keys == {1}
    ensures var p := w.procs[1]; p.id == 1 && p.purpose == Sending(7, "") && p.phase == HasSaved
  {
    hide Sound, Reaches, NewRun;
    ReachesItself(Start);
    StartIsSound();
    var create := Open(1, Creates(First, 1, 7, ""));
    assert Answers(Initial, "A", None) && Can(Start, create);
    ReachesNext(Start, Start, create);
    StepKeepsSound(Start, create);
    w := Do(Start, create);
  }

  /** The first run, with a recovery that has read it under the fresh task 8. */
  lemma BeingRecovered() returns (v: World)
    ensures Reaches(Start, v)
    ensures v.s.runs == map[1 := FirstRow] && v.s.sent == [Message(1, 7, "")] && v.s.issued == {7, 8} && v.procs.Keys == {2}
    ensures var p := v.procs[2];
            && p.marking == Free && p.locked.None? && p.id == 1 && p.purpose == Sending(8, "") && p.phase == HasRead && p.undo == FirstRow
            && p.copy == RedispatchedRun(FirstRow, Attempt(8, "", true, Sent), "research_dispatch_recovery")
  {
    hide Reaches, Sound, RedispatchedRun, NewRun;
    FirstIsQueued();
    v := FirstRun();
    ReachesNext(Start, v, Open(2, Recovers(1, 8, "")));
    v := Do(v, Open(2, Recovers(1, 8, "")));
    MarkingDoes(v, 2);
    ReachesNext(Start, v, Mark(2));
    v := Do(v, Mark(2));
  }

  lemma FirstIsQueued()
    ensures FirstRow.status == Queued && FirstRow.kind == AssetRun("A") && FirstRow.triggers == [1] && FirstRow.task == Some(7)
    ensures FirstRow.event == Some(1)
  {
  }

  /** The second event has joined meanwhile. */
  lemma JoinedMeanwhile(w: World) returns (v: World)
    requires Reaches(Start, w) && 3 !in w.procs && w.s.runs.Keys == {1} && !Locked(w, "A")
    requires var run := w.s.runs[1]; run.kind == AssetRun("A") && run.triggers == [1] && run.status == Queued
    ensures Reaches(Start, v) && v.procs == w.procs && v.s.runs.Keys == {1, 2}
    ensures v.s.runs[1] == WithTrigger(w.s.runs[1], 2) && v.s.runs[2] == Merged(Second, 1, w.s.runs[1].task)
  {
    hide Reaches;
    assert ActiveFor(w.s, "A", 1);
    var join, save, merge := Open(3, Joins(Second, 1)), Save(3), AddMerged(3, 2);
    ReachesNext(Start, w, join);
    var v1 := Do(w, join);
    ReachesNext(Start, v1, save);
    var v2 := Do(v1, save);
    ReachesNext(Start, v2, merge);
    v := Do(v2, merge);
  }

  /** A recovery saves the copy it read before an event joined: the event is gone, and the merged
      record points at a run that does not list it. */
  lemma JoinIsOverwritten()
    ensures exists v :: Reaches(Start, v) && 1 in v.s.runs && 2 in v.s.runs
                        && v.s.runs[2].status == Coalesced && v.s.runs[2].mergedInto == Some(1)
                        && v.s.runs[2].event == Some(2) && 2 !in v.s.runs[1].triggers
  {
    hide Reaches, Sound;
    FirstIsQueued();
    var w := BeingRecovered();
    var v := JoinedMeanwhile(w);
    ReachesNext(Start, v, Save(2));
    v := Do(v, Save(2));
  }

  /** The first run as its admission created it, with the lock already released. */
  lemma CreatedWithoutLock() returns (v: World)
    ensures Reaches(Start, v) && v.s.runs == map[1 := FirstRow] && v.procs.Keys == {1}
    ensures var p := v.procs[1];
            p.id == 1 && p.purpose.Sending? && p.phase == HasSaved && p.locked.None? && p.undo.triggers == [1] && p.undo.status == Failed
  {
    hide Reaches, Sound, NewRun;
    FirstIsQueued();
    ReachesItself(Start);
    var create := Open(1, Creates(First, 1, 7, ""));
    assert Answers(Initial, "A", None) && Can(Start, create);
    ReachesNext(Start, Start, create);
    v := Do(Start, create);
    ReachesNext(Start, v, Release(1));
    v := Do(v, Release(1));
  }

  /** An admission that lost its lock with its first commit cannot publish and marks its run failed
      after an event has joined it: the event is gone. */
  lemma JoinIsUndone()
    ensures exists v :: Reaches(Start, v) && 1 in v.s.runs && 2 in v.s.runs
                        && v.s.runs[1].status == Failed && 2 !in v.s.runs[1].triggers
                        && v.s.runs[2].status == Coalesced && v.s.runs[2].mergedInto == Some(1) && v.s.runs[2].event == Some(2)
  {
    hide Reaches, Sound, Can, Do;
    FirstIsQueued();
    var w := CreatedWithoutLock();
    var v := JoinedMeanwhile(w);
    Refusing(v, 1);
    ReachesNext(Start, v, Publish(1, Refused));
    v := Do(v, Publish(1, Refused));
    Undoing(v, 1);
    ReachesNext(Start, v, Undo(1));
    v := Do(v, Undo(1));
  }

  /** The first run, cancelled while an admission was about to join it. */
  lemma CancelledMeanwhile() returns (v: World)
    ensures Reaches(Start, v) && v.s.runs.Keys == {1} && v.s.runs[1].status == Cancelled && v.s.runs[1].triggers == [1]
    ensures v.procs.Keys == {3}
    ensures var p := v.procs[3];
            p.id == 1 && p.purpose == Joining(Second) && p.phase == HasRead && p.marking == Free && p.copy.status == Queued
  {
    hide Reaches, Sound, NewRun;
    FirstIsQueued();
    var w := FirstRun();
    assert ActiveFor(w.s, "A", 1);
    ReachesNext(Start, w, Open(3, Joins(Second, 1)));
    v := Do(w, Open(3, Joins(Second, 1)));
    ReachesNext(Start, v, Act(CancelRun(1)));
    v := Do(v, Act(CancelRun(1)));
  }

  /** The run an admission is about to join is cancelled: the join is refused, but the merged record
      is added all the same. */
  lemma JoinIsRefused()
    ensures exists v :: Reaches(Start, v) && 1 in v.s.runs && 2 in v.s.runs
                        && v.s.runs[2].status == Coalesced && v.s.runs[2].mergedInto == Some(1)
                        && v.s.runs[2].event == Some(2) && v.s.runs[1].status == Cancelled && 2 !in v.s.runs[1].triggers
  {
    hide Reaches, Sound;
    var v := CancelledMeanwhile();
    ReachesNext(Start, v, Save(3));
    v := Do(v, Save(3));
    ReachesNext(Start, v, AddMerged(3, 2));
    v := Do(v, AddMerged(3, 2));
  }

  /** The recovery has saved its copy and its message was sent, although publishing raised. */
  lemma SentButRaised() returns (v: World)
    ensures Reaches(Start, v) && v.s.runs.Keys == {1}
    ensures var run := v.s.runs[1]; run.kind == AssetRun("A") && run.status == Queued && run.task == Some(8)
    ensures v.s.sent == [Message(1, 7, ""), Message(1, 8, "")] && v.procs.Keys == {2}
    ensures var p := v.procs[2];
            p.id == 1 && p.phase == HasFailed && p.undo == FirstRow && p.purpose.Sending?
  {
    hide Reaches, Sound, NewRun, Can, Do;
    FirstIsQueued();
    var w := BeingRecovered();
    Saving(w, 2);
    Raising(Do(w, Save(2)), 2);
    ReachesNext(Start, w, Save(2));
    v := Do(w, Save(2));
    ReachesNext(Start, v, Publish(2, ErrorAfterSend));
    v := Do(v, Publish(2, ErrorAfterSend));
  }

  /** A recovery's message is sent although publishing raised, and begins work before the recovery
      undoes: the first message, superseded in between, is current again and begins work as well. */
  lemma UndoAfterDelivery()
    ensures exists w, v ::
              && Reaches(Start, w) && Can(w, Act(Deliver(Message(1, 8, "")))) && Works(w.s, Message(1, 8, ""))
              && !Works(w.s, Message(1, 7, ""))
              && Reaches(Do(w, Act(Deliver(Message(1, 8, "")))), v)
              && Can(v, Act(Deliver(Message(1, 7, "")))) && Works(v.s, Message(1, 7, ""))
  {
    hide Reaches, Sound, NewRun, Can, Do;
    FirstIsQueued();
    var w := SentButRaised();
    var m, n := Message(1, 7, ""), Message(1, 8, "");
    assert w.s.sent[0] == m && w.s.sent[1] == n;
    assert Works(w.s, n) && !Works(w.s, m);
    Delivery(w, n);
    var started := Do(w, Act(Deliver(n)));
    Undoing(started, 2);
    ReachesItself(started);
    ReachesNext(started, started, Undo(2));
    var v := Do(started, Undo(2));
    assert v.s.sent[0] == m && Works(v.s, m);
    Delivery(v, m);
  }

  /** A run reserved for a synchronous request has no task id. Two recoveries whose messages are sent
      although publishing raised leave two messages that both pass the guard. */
  lemma TwoMessagesWithoutTaskId()
    ensures exists v :: Reaches(Start, v) && Message(1, 7, "") in v.s.sent && Message(1, 8, "") in v.s.sent
                        && Works(v.s, Message(1, 7, "")) && Works(v.s, Message(1, 8, ""))
  {
    hide Reaches;
    ReachesItself(Start);
    var reserve := Act(Reserve(First, None, false, 1));
    assert Can(Start, reserve);
    ReachesNext(Start, Start, reserve);
    var v := Do(Start, reserve);
    v := FailedRecovery(v, 7);
    var w := v;
    v := FailedRecovery(v, 8);
    assert v.s.sent == w.s.sent + [Message(1, 8, "")];
    assert v.s.sent[0] == Message(1, 7, "") && v.s.sent[1] == Message(1, 8, "");
  }

  /** One such recovery of run 1. */
  lemma FailedRecovery(w: World, task: TaskId) returns (v: World)
    requires Reaches(Start, w) && 1 in w.s.runs && w.s.runs[1].status == Queued && task !in w.s.issued && w.procs == map[]
    ensures Reaches(Start, v) && v.s.runs == w.s.runs && v.procs == map[]
    ensures v.s.sent == w.s.sent + [Message(1, task, "")] && v.s.issued == w.s.issued + {task}
  {
    hide Reaches, RedispatchedRun;
    var o := Recovers(1, task, "");
    assert Can(w, Open(task, o));
    OpeningDoes(w, task, o);
    assert RedispatchedRun(w.s.runs[1], AttemptOf(o), "research_dispatch_recovery").status == Queued by { RedispatchedIsQueued(w.s.runs[1], AttemptOf(o)); }
    ReachesNext(Start, w, Open(task, o));
    var w0 := Do(w, Open(task, o));
    hide Can, Do, Opens;
    MarkingDoes(w0, task);
    ReachesNext(Start, w0, Mark(task));
    var w1 := Do(w0, Mark(task));
    Saving(w1, task);
    ReachesNext(Start, w1, Save(task));
    var w2 := Do(w1, Save(task));
    Raising(w2, task);
    ReachesNext(Start, w2, Publish(task, ErrorAfterSend));
    var w3 := Do(w2, Publish(task, ErrorAfterSend));
    Undoing(w3, task);
    ReachesNext(Start, w3, Undo(task));
    v := Do(w3, Undo(task));
    assert v.s.runs == w.s.runs;
  }

  lemma RedispatchedIsQueued(run: Run, a: Attempt)
    ensures RedispatchedRun(run, a, "research_dispatch_recovery").status == run.status
  {
  }

  /** The first run, delivered and completed. */
  lemma CompletedRun() returns (v: World)
    ensures Reaches(Start, v) && v.s.runs.Keys == {1} && v.procs == map[]
    ensures var run := v.s.runs[1]; run.kind == AssetRun("A") && run.status == Completed && run.task == Some(7) && run.event == Some(1)
    ensures v.s.sent == [Message(1, 7, "")] && v.s.issued == {7}
  {
    hide Reaches, Sound, NewRun;
    FirstIsQueued();
    var w := FirstRun();
    hide Can, Do;
    assert w.s.sent[0] == Message(1, 7, "");
    Delivery(w, Message(1, 7, ""));
    ReachesNext(Start, w, Act(Deliver(Message(1, 7, ""))));
    v := Do(w, Act(Deliver(Message(1, 7, ""))));
    Reporting(v, 1, Completed);
    ReachesNext(Start, v, Act(Progress(1, Completed)));
    v := Do(v, Act(Progress(1, Completed)));
  }

  /** A newer run of the asset is queued after that. */
  lemma NewerQueued() returns (v: World)
    ensures Reaches(Start, v) && v.s.runs.Keys == {1, 2} && v.s.sent == [Message(1, 7, "")]
    ensures var run := v.s.runs[1]; run.kind == AssetRun("A") && run.status == Completed && run.task == Some(7)
    ensures var run := v.s.runs[2]; run.kind == AssetRun("A") && run.status == Queued
  {
    hide Reaches;
    var next := Open(2, Creates(Second, 2, 8, ""));
    var w := CompletedRun();
    assert Answers(w.s, "A", None) && Can(w, next);
    ReachesNext(Start, w, next);
    OpeningDoes(w, 2, Creates(Second, 2, 8, ""));
    hide Can, Do, Answers;
    v := Do(w, next);
  }

  lemma OneOfTwo(s: State)
    requires s.runs.Keys == {1, 2} && !Active(s.runs[1].status)
    ensures OneActive(s)
  {
  }

  lemma TwoOfTwo(s: State)
    requires s.runs.Keys == {1, 2} && s.runs[1].kind == s.runs[2].kind == AssetRun("A")
    requires Active(s.runs[1].status) && Active(s.runs[2].status)
    ensures !OneActive(s)
  {
    assert ActiveFor(s, "A", 1) && ActiveFor(s, "A", 2);
  }

  /** A message delivered again after its run has completed passes the guard; if a newer run of the
      asset is queued by then, starting makes two runs active. */
  lemma RedeliveryAfterCompletion()
    ensures exists v :: Reaches(Start, v) && OneActive(v.s) && Message(1, 7, "") in v.s.sent && Works(v.s, Message(1, 7, ""))
                        && !OneActive(Started(v.s, Message(1, 7, "")))
  {
    hide Reaches, OneActive;
    var m := Message(1, 7, "");
    var v := NewerQueued();
    assert m == v.s.sent[0];
    OneOfTwo(v.s);
    TwoOfTwo(Started(v.s, m));
  }
}
