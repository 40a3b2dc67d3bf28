/** What the research processes can still do in the executions that follow, and what one action does to
    the events a run lists. */
module DispatchRuns {
  import opened Common
  import opened Research
  import opened Dispatch

  // ------------------------------------------------------------ what an open process can still do

  /** A world reached from w in some execution. */
  ghost predicate Reaches(w: World, v: World) {
    exists ws, actions :: Execution(ws, actions) && ws[0] == w && ws[|ws| - 1] == v
  }

  lemma ReachesItself(w: World)
    ensures Reaches(w, w)
  {
    assert Execution([w], []);
  }

  lemma ReachesNext(w: World, v: World, a: Action)
    requires Reaches(w, v) && Can(v, a)
    ensures Reaches(w, Do(v, a))
  {
    hide Can, Do;
    var ws, actions :| Execution(ws, actions) && ws[0] == w && ws[|ws| - 1] == v;
    var more, done := ws + [Do(v, a)], actions + [a];
    forall i | 0 <= i < |done|
      ensures Can(more[i], done[i]) && more[i + 1] == Do(more[i], done[i])
    {
      if i < |actions| {
        assert more[i] == ws[i] && more[i + 1] == ws[i + 1] && done[i] == actions[i];
      } else {
        assert more[i] == v && done[i] == a;
      }
    }
    assert Execution(more, done) && more[0] == w && more[|more| - 1] == Do(v, a);
  }

  /** A process that has read its row and may have to mark it first. */
  lemma ReadyToSave(w: World, pid: ProcId) returns (v: World)
    requires Sound(w) && pid in w.procs && w.procs[pid].phase == HasRead
    ensures Reaches(w, v) && Sound(v) && v.s.runs == w.s.runs && pid in v.procs && Can(v, Save(pid))
    ensures LaterStage(w.procs[pid], v.procs[pid]) && v.procs[pid].phase == HasRead
  {
    MarkersSend(w, pid);
    hide Reaches, Sound;
    ReachesItself(w);
    v := w;
    if w.procs[pid].marking != Free {
      MarkedReady(w, pid);
      StepKeepsSound(w, Mark(pid));
      hide Can, Do;
      ReachesNext(w, w, Mark(pid));
      v := Do(w, Mark(pid));
    }
  }

  lemma MarkersSend(w: World, pid: ProcId)
    requires Sound(w) && pid in w.procs
    ensures w.procs[pid].marking != Free ==> w.procs[pid].purpose.Sending?
  {
    assert ProcSound(w, w.procs[pid]);
  }

  lemma MarkedReady(w: World, pid: ProcId)
    requires pid in w.procs && w.procs[pid].phase == HasRead && w.procs[pid].purpose.Sending?
    ensures Can(w, Mark(pid))
    ensures var v := Do(w, Mark(pid));
            && v.s.runs == w.s.runs && pid in v.procs && Can(v, Save(pid))
            && LaterStage(w.procs[pid], v.procs[pid]) && v.procs[pid].phase == HasRead
  {
  }

  lemma SaveDoes(w: World, pid: ProcId)
    requires Can(w, Save(pid))
    ensures var p, v := w.procs[pid], Do(w, Save(pid));
            && v.s == Write(w, p.id, p.copy).s
            && (p.purpose.Sending? ==> pid in v.procs && v.procs[pid].phase == HasSaved && LaterStage(p, v.procs[pid]))
  {
  }

  /** It can write its copy, unless the write is refused. */
  lemma CanBeSaved(w: World, pid: ProcId) returns (v: World)
    requires Sound(w) && pid in w.procs && w.procs[pid].phase == HasRead
    requires !Blocked(w.s, w.procs[pid].id, w.procs[pid].copy)
    ensures Reaches(w, v) && w.procs[pid].id in v.s.runs && v.s.runs[w.procs[pid].id] == w.procs[pid].copy
  {
    var u := ReadyToSave(w, pid);
    SaveDoes(u, pid);
    hide Reaches, Sound, Can, Do;
    ReachesNext(w, u, Save(pid));
    v := Do(u, Save(pid));
  }

  /** A dispatching process can have saved its copy. */
  lemma CanHaveSaved(w: World, pid: ProcId) returns (v: World)
    requires Sound(w) && pid in w.procs && w.procs[pid].purpose.Sending? && w.procs[pid].phase == HasRead
    requires !Blocked(w.s, w.procs[pid].id, w.procs[pid].undo)
    ensures Reaches(w, v) && pid in v.procs && v.procs[pid].phase == HasSaved && v.procs[pid].purpose.Sending?
    ensures v.procs[pid].id == w.procs[pid].id && v.procs[pid].undo == w.procs[pid].undo
    ensures !Blocked(v.s, w.procs[pid].id, w.procs[pid].undo)
  {
    var u := ReadyToSave(w, pid);
    SoundParts(w, pid);
    SaveDoes(u, pid);
    hide Reaches, Sound, Can, Do;
    ReachesNext(w, u, Save(pid));
    v := Do(u, Save(pid));
    hide OwnTrigger, TriggersOnce, TasksDrawn, ProcSound;
  }

  /** And it can write back the copy it keeps for that: its publication is refused. */
  lemma CanBeUndone(w: World, pid: ProcId) returns (v: World)
    requires Sound(w) && pid in w.procs && w.procs[pid].purpose.Sending?
    requires !Blocked(w.s, w.procs[pid].id, w.procs[pid].undo)
    ensures Reaches(w, v) && w.procs[pid].id in v.s.runs && v.s.runs[w.procs[pid].id] == w.procs[pid].undo
  {
    hide Reaches, Sound;
    v := w;
    ReachesItself(w);
    if v.procs[pid].phase == HasRead {
      v := CanHaveSaved(w, pid);
    }
    if v.procs[pid].phase == HasSaved {
      ReachesNext(w, v, Publish(pid, Refused));
      v := Do(v, Publish(pid, Refused));
    }
    ReachesNext(w, v, Undo(pid));
    v := Do(v, Undo(pid));
  }

  // ------------------------------------------------------------ rows unchanged since they were read

  /** A copy is only written while its row is as the process last read or saved it; refused writes do
      not matter, except that an admission must not go on after one. */
  predicate CleanAction(w: World, a: Action) {
    match a
    case Save(pid) =>
      pid in w.procs ==>
        var p := w.procs[pid];
        Revision(w, p.id) == p.seen || (Blocked(w.s, p.id, p.copy) && !p.purpose.Joining?)
    case Undo(pid) =>
      pid in w.procs ==>
        var p := w.procs[pid];
        Revision(w, p.id) == p.seen || Blocked(w.s, p.id, p.undo)
    case _ => true
  }

  /** Other processes are not touched by an action. */
  lemma ProcUntouched(w: World, a: Action, pid: ProcId)
    requires Can(w, a) && pid in Do(w, a).procs
    requires (a.Save? || a.Open? || a.Publish? || a.Mark? || a.GiveUp? || a.Release?) ==> a.pid != pid
    ensures pid in w.procs && Do(w, a).procs[pid] == w.procs[pid]
  {
    hide Answers, CopyOf, UndoOf, Apply;
  }

  lemma ListedStays(w: World, v: World, p: Proc)
    requires Listed(w, p) && Grows(w.s, v.s)
    ensures Listed(v, p)
  {
  }

  lemma OpenLists(w: World, pid: ProcId, o: Opening)
    requires Can(w, Open(pid, o))
    ensures Listed(Do(w, Open(pid, o)), Do(w, Open(pid, o)).procs[pid])
  {
    hide Answers, UndoOf;
  }

  // ------------------------------------------------------------ accepted events

  /** If the action writes a copy over row r, the copy lists e. */
  predicate WritesWith(w: World, a: Action, r: RunId, e: EventId) {
    CopyWrite(w, a).Some? && CopyWrite(w, a).value.0 == r && !Blocked(w.s, r, CopyWrite(w, a).value.1)
    ==> e in CopyWrite(w, a).value.1.triggers
  }

  predicate Lists(s: State, r: RunId, e: EventId) { r in s.runs && e in s.runs[r].triggers }

  /** A listed event stays listed at the next step exactly when no copy without it is written. */
  lemma StaysListedIff(w: World, a: Action, r: RunId, e: EventId)
    requires Sound(w) && Can(w, a) && Lists(w.s, r, e)
    ensures Lists(Do(w, a).s, r, e) <==> WritesWith(w, a, r, e)
  {
    hide Sound, Opens, Opened, Answers, OwnTrigger, Apply, WritesWith, Lists, Write;
    match a
    case Act(step) => ActLists(w, step, r, e);
    case Open(pid, o) => OpenKeepsLists(w, pid, o, r, e);
    case Save(pid) =>
      SoundParts(w, pid);
      WriteLists(w, a, Do(w, a), w.procs[pid].copy, r, e);
    case Undo(pid) =>
      SoundParts(w, pid);
      WriteLists(w, a, Do(w, a), w.procs[pid].undo, r, e);
    case AddMerged(pid, id) => MergeLists(w, a, r, e);
    case _ => SameRunsList(w, a, Do(w, a), r, e);
  }

  lemma SameRunsList(w: World, a: Action, v: World, r: RunId, e: EventId)
    requires Lists(w.s, r, e) && v.s.runs == w.s.runs && CopyWrite(w, a).None?
    ensures Lists(v.s, r, e) && WritesWith(w, a, r, e)
  {
  }

  lemma ActLists(w: World, step: Step, r: RunId, e: EventId)
    requires Can(w, Act(step)) && Lists(w.s, r, e)
    ensures Lists(Do(w, Act(step)).s, r, e) && WritesWith(w, Act(step), r, e)
  {
    hide Answers;
  }

  lemma OpenKeepsLists(w: World, pid: ProcId, o: Opening, r: RunId, e: EventId)
    requires Can(w, Open(pid, o)) && Lists(w.s, r, e)
    ensures Lists(Do(w, Open(pid, o)).s, r, e) && WritesWith(w, Open(pid, o), r, e)
  {
    hide Answers, CopyOf, UndoOf;
  }

  lemma MergeLists(w: World, a: Action, r: RunId, e: EventId)
    requires a.AddMerged? && Can(w, a) && Lists(w.s, r, e)
    ensures Lists(Do(w, a).s, r, e) && WritesWith(w, a, r, e)
  {
  }

  lemma WriteLists(w: World, a: Action, v: World, copy: Run, r: RunId, e: EventId)
    requires CopyWrite(w, a).Some? && CopyWrite(w, a).value.1 == copy && v.s == Write(w, CopyWrite(w, a).value.0, copy).s
    requires Lists(w.s, r, e)
    ensures Lists(v.s, r, e) <==> WritesWith(w, a, r, e)
  {
  }

  /** The run that has accepted the request, once the action is done: the run joined, when the merged
      record is added, or the run created. */
  function AcceptedBy(w: World, a: Action): Option<(RunId, EventId)> {
    match a
    case AddMerged(pid, _) =>
      if pid in w.procs && w.procs[pid].purpose.Joining? && w.procs[pid].purpose.q.event.Some?
      then Some((w.procs[pid].id, w.procs[pid].purpose.q.event.value)) else None
    case Open(_, o) => if o.Creates? && o.q.event.Some? then Some((o.id, o.q.event.value)) else None
    case _ => None
  }

  lemma AcceptedIsListed(w: World, a: Action)
    requires Sound(w) && Can(w, a) && AcceptedBy(w, a).Some? && (a.AddMerged? ==> Listed(w, w.procs[a.pid]))
    ensures var (r, e) := AcceptedBy(w, a).value;
            && Lists(Do(w, a).s, r, e)
            && (a.AddMerged? ==>
                  && a.id in Do(w, a).s.runs && Do(w, a).s.runs[a.id].status == Coalesced
                  && Do(w, a).s.runs[a.id].mergedInto == Some(r))
  {
    hide Sound, Answers, UndoOf, OwnTrigger;
  }

  lemma ListedIsOnce(w: World, r: RunId, e: EventId)
    requires Sound(w)
    ensures Lists(w.s, r, e) <==> r in w.s.runs && OccursOnce(w.s.runs[r].triggers, e)
  {
    if r in w.s.runs {
      assert OwnTrigger(w.s.runs[r]);
      hide Sound;
      if e in w.s.runs[r].triggers {
        ListedOnce(w.s.runs[r].triggers, e);
      }
    }
  }

  lemma MergedStays(s: State, t: State, id: RunId)
    requires AllSteady(s, t) && id in s.runs && s.runs[id].status == Coalesced
    ensures id in t.runs && t.runs[id] == s.runs[id]
  {
  }

  // ------------------------------------------------------------ cancellation

  /** A cancelled row stays cancelled, whoever writes it. */
  lemma CancelledForever(ws: seq<World>, actions: seq<Action>, i: nat, j: nat, id: RunId)
    requires Execution(ws, actions) && Sound(ws[0]) && i <= j < |ws|
    requires id in ws[i].s.runs && ws[i].s.runs[id].status == Cancelled
    ensures id in ws[j].s.runs && ws[j].s.runs[id].status == Cancelled
  {
    hide Sound, Can, Do;
    AlwaysSound(ws, actions, i, j);
  }

  lemma RevisionsGrow(w: World, a: Action, id: RunId)
    requires Can(w, a)
    ensures Revision(w, id) <= Revision(Do(w, a), id)
  {
    hide Apply, Opens, CopyOf, UndoOf, Answers;
  }

  /** Whatever an action does, other processes stay and its own moves on. */
  lemma ProcMovesOn(w: World, a: Action, q: ProcId)
    requires Can(w, a) && q in Do(w, a).procs && !(a.Open? && a.pid == q)
    ensures q in w.procs && LaterStage(w.procs[q], Do(w, a).procs[q])
    ensures Do(w, a).procs[q].phase == HasRead ==> w.procs[q].phase == HasRead
  {
    hide Apply, Answers, CopyOf, UndoOf, Opens;
  }

  lemma SameStage(w: World, a: Action, q: ProcId)
    requires Can(w, a) && q in Do(w, a).procs && a != Save(q) && !(a.Open? && a.pid == q)
    ensures q in w.procs && LaterStage(w.procs[q], Do(w, a).procs[q]) && Do(w, a).procs[q].seen == w.procs[q].seen
  {
    hide Apply, Answers, CopyOf, UndoOf, Opens;
  }

  lemma StepOf(ws: seq<World>, actions: seq<Action>, k: nat)
    requires Execution(ws, actions) && k < |actions|
    ensures |ws| == |actions| + 1 && Can(ws[k], actions[k]) && ws[k + 1] == Do(ws[k], actions[k])
  {
  }
}
