/** What becomes of an accepted event over every interleaving. */
module Acceptance {
  import opened Common
  import opened Research
  import opened Dispatch
  import opened DispatchRuns

  /** Writing this copy would take the event off its run. */
  predicate Drops(w: World, r: RunId, copy: Run, e: EventId) {
    !Blocked(w.s, r, copy) && e !in copy.triggers
  }

  /** The process still holds such a copy: the one it has read, or the one it keeps in case it fails. */
  predicate MayDrop(w: World, p: Proc, r: RunId, e: EventId) {
    && p.id == r
    && ((p.phase == HasRead && Drops(w, r, p.copy, e)) || (p.purpose.Sending? && Drops(w, r, p.undo, e)))
  }

  predicate Kept(w: World, r: RunId, e: EventId) {
    Lists(w.s, r, e) && forall pid :: pid in w.procs ==> !MayDrop(w, w.procs[pid], r, e)
  }

  /** A process that holds no such copy does not get one: refused writes stay refused. */
  lemma ProcStaysHarmless(w: World, v: World, p: Proc, q: Proc, r: RunId, e: EventId)
    requires !MayDrop(w, p, r, e) && AllSteady(w.s, v.s) && r in w.s.runs
    requires LaterStage(p, q) && (q.phase == HasRead ==> p.phase == HasRead)
    ensures !MayDrop(v, q, r, e)
  {
  }

  /** What is read now lists the event. */
  lemma NewProcKeeps(w: World, pid: ProcId, o: Opening, r: RunId, e: EventId)
    requires Can(w, Open(pid, o)) && Lists(w.s, r, e)
    ensures var v := Do(w, Open(pid, o)); pid in v.procs && !MayDrop(v, v.procs[pid], r, e)
  {
    hide Answers, Blocked;
  }

  lemma CopyKeeps(w: World, a: Action, r: RunId, e: EventId)
    requires Sound(w) && Can(w, a) && Kept(w, r, e)
    ensures WritesWith(w, a, r, e)
  {
    if a.Save? || a.Undo? {
      assert !MayDrop(w, w.procs[a.pid], r, e);
    }
  }

  lemma StepStaysKept(w: World, a: Action, r: RunId, e: EventId)
    requires Sound(w) && Can(w, a) && Kept(w, r, e)
    ensures Kept(Do(w, a), r, e)
  {
    StepKeepsSound(w, a);
    CopyKeeps(w, a, r, e);
    StaysListedIff(w, a, r, e);
    var v := Do(w, a);
    assert r in w.s.runs;
    hide Sound, AllSteady, MayDrop, Can, Do, Lists, WritesWith;
    forall q | q in v.procs
      ensures !MayDrop(v, v.procs[q], r, e)
    {
      if a.Open? && a.pid == q {
        NewProcKeeps(w, q, a.o, r, e);
      } else {
        ProcMovesOn(w, a, q);
        ProcStaysHarmless(w, v, w.procs[q], v.procs[q], r, e);
      }
    }
  }

  lemma {:induction false} StaysKept(ws: seq<World>, actions: seq<Action>, j: nat, r: RunId, e: EventId)
    requires Execution(ws, actions) && Sound(ws[0]) && j < |ws| && Kept(ws[0], r, e)
    ensures Kept(ws[j], r, e)
  {
    hide Sound, Can, Do, Kept;
    if j > 0 {
      StaysKept(ws, actions, j - 1, r, e);
      AlwaysSound(ws, actions, j - 1, j - 1);
      StepStaysKept(ws[j - 1], actions[j - 1], r, e);
    }
  }

  lemma WayOff(w: World, pid: ProcId, r: RunId, e: EventId)
    requires Sound(w) && pid in w.procs && MayDrop(w, w.procs[pid], r, e)
    ensures exists v :: Reaches(w, v) && !Lists(v.s, r, e)
  {
    hide Sound, Reaches;
    var p := w.procs[pid];
    if p.phase == HasRead && Drops(w, r, p.copy, e) {
      var v := CanBeSaved(w, pid);
    } else {
      var v := CanBeUndone(w, pid);
    }
  }

  /** An event a run lists now is listed for good, whatever the processes do, if and only if no open
      process holds a copy of the run without it that could still be written. */
  lemma ListedForGoodIff(w: World, r: RunId, e: EventId)
    requires Sound(w) && Lists(w.s, r, e)
    ensures (forall v :: Reaches(w, v) ==> Lists(v.s, r, e))
            <==> (forall pid :: pid in w.procs ==> !MayDrop(w, w.procs[pid], r, e))
  {
    hide Sound, Can, Do, MayDrop, Lists;
    if forall pid :: pid in w.procs ==> !MayDrop(w, w.procs[pid], r, e) {
      forall v | Reaches(w, v)
        ensures Lists(v.s, r, e)
      {
        var ws, actions :| Execution(ws, actions) && ws[0] == w && ws[|ws| - 1] == v;
        StaysKept(ws, actions, |ws| - 1, r, e);
      }
    } else {
      var pid :| pid in w.procs && MayDrop(w, w.procs[pid], r, e);
      WayOff(w, pid, r, e);
    }
  }

  lemma ReachedIsSound(w: World, v: World)
    requires Sound(w) && Reaches(w, v)
    ensures Sound(v) && AllSteady(w.s, v.s)
  {
    hide Sound, Can, Do, AllSteady;
    var ws, actions :| Execution(ws, actions) && ws[0] == w && ws[|ws| - 1] == v;
    AlwaysSound(ws, actions, 0, |ws| - 1);
  }

  /** The accepting run lists the event exactly once. */
  ghost predicate ListedExactlyOnce(s: State, r: RunId, e: EventId) {
    r in s.runs && OccursOnce(s.runs[r].triggers, e)
  }

  /** When a request is accepted into a run, the run lists its event exactly once in every state that
      can follow if and only if no process open at that moment holds a copy of the run without the
      event that could still be written. A merged record added with it never changes. */
  lemma AcceptedExactlyOnce(w: World, a: Action)
    requires Sound(w) && Can(w, a) && AcceptedBy(w, a).Some? && (a.AddMerged? ==> Listed(w, w.procs[a.pid]))
    ensures var (r, e) := AcceptedBy(w, a).value;
            var v := Do(w, a);
            (forall u :: Reaches(v, u) ==> ListedExactlyOnce(u.s, r, e))
            <==> (forall pid :: pid in v.procs ==> !MayDrop(v, v.procs[pid], r, e))
    ensures a.AddMerged? ==>
              forall u :: Reaches(Do(w, a), u) ==>
                a.id in u.s.runs && u.s.runs[a.id].status == Coalesced
                && u.s.runs[a.id].mergedInto == Some(AcceptedBy(w, a).value.0)
  {
    var (r, e) := AcceptedBy(w, a).value;
    var v := Do(w, a);
    StepKeepsSound(w, a);
    AcceptedIsListed(w, a);
    hide Sound, Can, Do, AcceptedBy, MayDrop, Reaches, AllSteady, OccursOnce;
    ListedForGoodIff(v, r, e);
    forall u | Reaches(v, u)
      ensures Lists(u.s, r, e) <==> ListedExactlyOnce(u.s, r, e)
      ensures a.AddMerged? ==>
                a.id in u.s.runs && u.s.runs[a.id].status == Coalesced && u.s.runs[a.id].mergedInto == Some(r)
    {
      ReachedIsSound(v, u);
      ListedIsOnce(u, r, e);
      if a.AddMerged? {
        MergedStays(v.s, u.s, a.id);
      }
    }
  }
}
