/** Research admission under the asset's lock, over every interleaving with workers, cancellations,
    crashes and publication failures. */
module Admission {
  import opened Common
  import opened Research
  import opened Dispatch
  import opened DispatchRuns

  // ------------------------------------------------------------ what an admission relies on

  /** No other run of the asset is active. */
  ghost predicate OnlyActive(s: State, asset: string, id: RunId) {
    forall r :: ActiveFor(s, asset, r) ==> r == id
  }

  /** An open admission: nobody else has made a run of its asset active, or changed the triggers of
      the run it joins or has created. */
  ghost predicate HoldsLock(w: World, p: Proc) {
    p.locked.Some? && p.id in w.s.runs ==>
      && OnlyActive(w.s, p.locked.value, p.id)
      && (p.phase == HasRead ==> p.purpose.Joining? && p.purpose.q.event.Some?
                                 && p.copy.triggers == w.s.runs[p.id].triggers + [p.purpose.q.event.value]
                                 && p.purpose.q.event.value !in w.s.runs[p.id].triggers)
      && (p.purpose.Sending? ==> p.undo.triggers == w.s.runs[p.id].triggers && p.undo.status == Failed)
  }

  /** A process without the lock is no admission about to save the run it joins; and if it has missed
      no write, it mirrors the triggers of its asset run. */
  predicate Mirrors(w: World, p: Proc) {
    p.locked.None? && p.id in w.s.runs && w.s.runs[p.id].kind.AssetRun? ==>
      && (p.phase == HasRead ==> !p.purpose.Joining? && p.copy.triggers == p.undo.triggers)
      && (Revision(w, p.id) == p.seen && w.s.runs[p.id].status != Cancelled && !p.purpose.Joining?
          ==> p.undo.triggers == w.s.runs[p.id].triggers)
  }

  ghost predicate LocksApart(w: World) {
    forall p, q :: p in w.procs && q in w.procs && p != q && w.procs[p].locked.Some?
                   ==> w.procs[p].locked != w.procs[q].locked
  }

  ghost predicate Orderly(w: World) {
    && OneActive(w.s) && LocksApart(w)
    && forall pid :: pid in w.procs ==> HoldsLock(w, w.procs[pid]) && Mirrors(w, w.procs[pid])
  }

  /** An asset run written without the lock is as the process last read or saved it, or it is marked
      failed while it still lists the same events, or the write is refused. */
  predicate CleanWrite(w: World, p: Proc, copy: Run) {
    p.locked.None? && p.id in w.s.runs && w.s.runs[p.id].kind.AssetRun? ==>
      || Revision(w, p.id) == p.seen
      || (copy.status == Failed && copy.triggers == w.s.runs[p.id].triggers)
      || Blocked(w.s, p.id, copy)
  }

  /** A copy the process may write as it stands. */
  predicate WritesCopy(p: Proc, copy: Run) {
    (p.phase == HasRead && copy == p.copy) || (p.purpose.Sending? && copy == p.undo)
  }

  /** So are the asset runs that recoveries and requeueings write, and those that an admission which
      has lost its lock marks failed. Nothing is asked of admissions under the lock, of workers,
      cancellations, or event reports. */
  predicate CleanRewrite(w: World, a: Action) {
    match a
    case Save(pid) => pid in w.procs ==> CleanWrite(w, w.procs[pid], w.procs[pid].copy)
    case Undo(pid) => pid in w.procs ==> CleanWrite(w, w.procs[pid], w.procs[pid].undo)
    case _ => true
  }

  // ------------------------------------------------------------ what others do to an asset

  /** No run of the asset becomes active, and none changes its triggers. */
  ghost predicate Gentle(s: State, t: State, asset: string) {
    && (forall r :: ActiveFor(t, asset, r) ==> ActiveFor(s, asset, r))
    && TriggersSame(s, t, asset)
  }

  ghost predicate TriggersSame(s: State, t: State, asset: string) {
    forall r :: r in s.runs && s.runs[r].kind == AssetRun(asset) ==> r in t.runs && t.runs[r].triggers == s.runs[r].triggers
  }

  lemma SameRunsGentle(s: State, t: State, asset: string)
    requires t.runs == s.runs
    ensures Gentle(s, t, asset)
  {
  }

  /** A row of an asset written by a process that has missed nothing, or a row of something else. */
  lemma WriteGentle(w: World, id: RunId, copy: Run, asset: string)
    requires id in w.s.runs && copy.kind == w.s.runs[id].kind
    requires copy.kind == AssetRun(asset) && !Blocked(w.s, id, copy) ==>
               copy.triggers == w.s.runs[id].triggers && (Active(copy.status) ==> Active(w.s.runs[id].status))
    ensures Gentle(w.s, Write(w, id, copy).s, asset)
  {
  }

  lemma UnlockedWriteGentle(w: World, pid: ProcId, copy: Run, asset: string)
    requires Sound(w) && pid in w.procs && w.procs[pid].locked.None? && Mirrors(w, w.procs[pid])
    requires WritesCopy(w.procs[pid], copy) && CleanWrite(w, w.procs[pid], copy)
    ensures Gentle(w.s, Write(w, w.procs[pid].id, copy).s, asset)
  {
    var p := w.procs[pid];
    SoundParts(w, pid);
    hide Sound, OwnTrigger, TriggersOnce, TasksDrawn, Write, Gentle;
    assert ProcSound(w, p);
    WriteGentle(w, p.id, copy, asset);
  }

  lemma OtherAssetGentle(w: World, pid: ProcId, copy: Run, asset: string)
    requires Sound(w) && pid in w.procs && w.procs[pid].locked.Some? && w.procs[pid].locked != Some(asset)
    requires copy in {w.procs[pid].copy, w.procs[pid].undo}
    ensures Gentle(w.s, Write(w, w.procs[pid].id, copy).s, asset)
  {
    var p := w.procs[pid];
    SoundParts(w, pid);
    assert ProcSound(w, p);
    hide Sound, OwnTrigger, TriggersOnce, TasksDrawn, Write, Gentle;
    WriteGentle(w, p.id, copy, asset);
  }

  /** Neither the asset's admission at work, nor a new run of it. */
  predicate ByOthers(w: World, a: Action, asset: string) {
    match a
    case Act(step) => !(step.Reserve? && step.q.asset == asset)
    case Open(_, o) => LockOf(o) != Some(asset)
    case _ => a.pid in w.procs ==> w.procs[a.pid].locked != Some(asset)
  }

  lemma ActGentle(w: World, step: Step, asset: string)
    requires Can(w, Act(step)) && ByOthers(w, Act(step), asset)
    ensures Gentle(w.s, Do(w, Act(step)).s, asset)
  {
    hide Answers, OneActive;
  }

  lemma OpenGentle(w: World, pid: ProcId, o: Opening, asset: string)
    requires Can(w, Open(pid, o)) && ByOthers(w, Open(pid, o), asset)
    ensures Gentle(w.s, Do(w, Open(pid, o)).s, asset)
  {
    hide Answers, UndoOf;
    if Inserts(o) {
      InsertedRun(w, o);
      InsertGentle(w.s, Do(w, Open(pid, o)).s, o.id, CopyOf(o, w.s), asset);
    }
  }

  lemma InsertGentle(s: State, t: State, id: RunId, run: Run, asset: string)
    requires id !in s.runs && t.runs == s.runs[id := run] && (run.kind != AssetRun(asset) || !Active(run.status))
    ensures Gentle(s, t, asset)
  {
  }

  lemma StepGentle(w: World, a: Action, asset: string)
    requires Sound(w) && Orderly(w) && Can(w, a) && CleanRewrite(w, a) && ByOthers(w, a, asset)
    ensures Gentle(w.s, Do(w, a).s, asset)
  {
    hide Sound, Gentle, Write, Opened, Opens, Apply, HoldsLock, Mirrors, Merged, OneActive, LocksApart;
    match a
    case Act(step) => ActGentle(w, step, asset);
    case Open(pid, o) => OpenGentle(w, pid, o, asset);
    case Save(pid) => CopyWriteGentle(w, pid, w.procs[pid].copy, asset);
    case Undo(pid) => CopyWriteGentle(w, pid, w.procs[pid].undo, asset);
    case AddMerged(pid, id) => MergeGentle(w, pid, id, asset);
    case _ => SameRunsGentle(w.s, Do(w, a).s, asset);
  }

  lemma MergeGentle(w: World, pid: ProcId, id: RunId, asset: string)
    requires Can(w, AddMerged(pid, id))
    ensures Gentle(w.s, Do(w, AddMerged(pid, id)).s, asset)
  {
    var p := w.procs[pid];
    InsertGentle(w.s, Do(w, AddMerged(pid, id)).s, id, Merged(p.purpose.q, p.id, p.copy.task), asset);
  }

  lemma CopyWriteGentle(w: World, pid: ProcId, copy: Run, asset: string)
    requires Sound(w) && Orderly(w) && pid in w.procs && w.procs[pid].locked != Some(asset)
    requires WritesCopy(w.procs[pid], copy) && CleanWrite(w, w.procs[pid], copy)
    ensures Gentle(w.s, Write(w, w.procs[pid].id, copy).s, asset)
  {
    hide Sound, Gentle, Write, HoldsLock, Mirrors, OneActive, LocksApart;
    if w.procs[pid].locked.None? {
      UnlockedWriteGentle(w, pid, copy, asset);
    } else {
      OtherAssetGentle(w, pid, copy, asset);
    }
  }

  // ------------------------------------------------------------ the admission itself

  /** The asset's runs keep their events, and at most `id` is active among them. */
  ghost predicate Settles(s: State, t: State, asset: string, id: RunId) {
    && OnlyActive(t, asset, id)
    && forall r :: r in s.runs && s.runs[r].kind == AssetRun(asset) ==>
         r in t.runs && s.runs[r].triggers <= t.runs[r].triggers
  }

  /** Only the row `id` is written, and perhaps an inactive one added. */
  lemma SettlesBy(s: State, t: State, asset: string, id: RunId)
    requires OnlyActive(s, asset, id)
    requires forall r :: r in s.runs ==> r in t.runs && (r != id ==> t.runs[r] == s.runs[r])
    requires forall r :: r in t.runs && r !in s.runs && r != id ==> !Active(t.runs[r].status)
    requires id in s.runs ==> s.runs[id].triggers <= t.runs[id].triggers
    ensures Settles(s, t, asset, id)
  {
    forall r | ActiveFor(t, asset, r)
      ensures r == id
    {
      if r != id {
        assert ActiveFor(s, asset, r);
      }
    }
  }

  /** The one row is written, or an inactive one is added. */
  lemma SettlesUpdate(s: State, t: State, asset: string, id: RunId, k: RunId, run: Run)
    requires OnlyActive(s, asset, id) && t.runs == s.runs[k := run]
    requires if k == id then id in s.runs ==> s.runs[id].triggers <= run.triggers else k !in s.runs && !Active(run.status)
    ensures Settles(s, t, asset, id)
  {
    SettlesBy(s, t, asset, id);
  }

  lemma SettlesSame(s: State, t: State, asset: string, id: RunId)
    requires OnlyActive(s, asset, id) && t.runs == s.runs
    ensures Settles(s, t, asset, id)
  {
    SettlesBy(s, t, asset, id);
  }

  /** What the holder of the lock knows. */
  lemma HolderKnows(w: World, pid: ProcId, asset: string)
    requires Sound(w) && Orderly(w) && pid in w.procs && w.procs[pid].locked == Some(asset)
    ensures var p := w.procs[pid];
            && OnlyActive(w.s, asset, p.id) && p.id in w.s.runs && ProcSound(w, p) && HoldsLock(w, p)
            && (p.phase == HasRead ==> p.purpose.Joining? && w.s.runs[p.id].triggers <= p.copy.triggers)
            && (p.purpose.Sending? ==> w.s.runs[p.id].triggers <= p.undo.triggers)
  {
    var p := w.procs[pid];
    assert HoldsLock(w, p) && ProcSound(w, p);
    hide Sound, Orderly, OwnTrigger, TriggersOnce, TasksDrawn, Fits;
  }

  /** Its copies are written, or refused. */
  lemma WriteSettles(w: World, id: RunId, copy: Run, asset: string)
    requires OnlyActive(w.s, asset, id) && id in w.s.runs && w.s.runs[id].triggers <= copy.triggers
    ensures Settles(w.s, Write(w, id, copy).s, asset, id)
  {
    if Blocked(w.s, id, copy) {
      SettlesSame(w.s, Write(w, id, copy).s, asset, id);
    } else {
      SettlesUpdate(w.s, Write(w, id, copy).s, asset, id, id, copy);
    }
  }

  lemma JoinDoes(w: World, pid: ProcId)
    requires Can(w, Save(pid)) && w.procs[pid].purpose.Joining?
    ensures var p, v := w.procs[pid], Do(w, Save(pid));
            && v.s == Write(w, p.id, p.copy).s && pid in v.procs
            && LaterStage(p, v.procs[pid]) && v.procs[pid].phase == HasSaved
  {
  }

  lemma UndoDoes(w: World, pid: ProcId)
    requires Can(w, Undo(pid))
    ensures Do(w, Undo(pid)).s == Write(w, w.procs[pid].id, w.procs[pid].undo).s && w.procs[pid].purpose.Sending?
  {
  }

  lemma MergeDoes(w: World, pid: ProcId, id: RunId)
    requires Can(w, AddMerged(pid, id))
    ensures var p := w.procs[pid];
            Do(w, AddMerged(pid, id)).s.runs == w.s.runs[id := Merged(p.purpose.q, p.id, p.copy.task)]
            && id !in w.s.runs && !Active(Merged(p.purpose.q, p.id, p.copy.task).status)
  {
  }

  lemma HolderSaves(w: World, pid: ProcId, asset: string)
    requires Sound(w) && Orderly(w) && Can(w, Save(pid)) && w.procs[pid].locked == Some(asset)
    ensures var v := Do(w, Save(pid));
            Settles(w.s, v.s, asset, w.procs[pid].id) && pid in v.procs && HoldsLock(v, v.procs[pid])
  {
    CanSave(w, pid);
    hide *;
    HolderKnows(w, pid, asset);
    JoinDoes(w, pid);
    WriteSettles(w, w.procs[pid].id, w.procs[pid].copy, asset);
    SavedHolds(w.s, Do(w, Save(pid)), Do(w, Save(pid)).procs[pid], asset);
  }

  lemma CanSave(w: World, pid: ProcId)
    requires Can(w, Save(pid))
    ensures pid in w.procs && w.procs[pid].phase == HasRead
  {
  }

  lemma SavedHolds(s: State, v: World, p: Proc, asset: string)
    requires Settles(s, v.s, asset, p.id) && p.locked == Some(asset) && p.purpose.Joining? && p.phase == HasSaved
    ensures HoldsLock(v, p)
  {
  }

  lemma HolderUndoes(w: World, pid: ProcId, asset: string)
    requires Sound(w) && Orderly(w) && Can(w, Undo(pid)) && w.procs[pid].locked == Some(asset)
    ensures Settles(w.s, Do(w, Undo(pid)).s, asset, w.procs[pid].id)
  {
    assert pid in w.procs;
    hide *;
    HolderKnows(w, pid, asset);
    UndoDoes(w, pid);
    WriteSettles(w, w.procs[pid].id, w.procs[pid].undo, asset);
  }

  lemma HolderMerges(w: World, pid: ProcId, id: RunId, asset: string)
    requires Sound(w) && Orderly(w) && Can(w, AddMerged(pid, id)) && w.procs[pid].locked == Some(asset)
    ensures Settles(w.s, Do(w, AddMerged(pid, id)).s, asset, w.procs[pid].id)
  {
    assert pid in w.procs;
    hide *;
    HolderKnows(w, pid, asset);
    MergeDoes(w, pid, id);
    var p := w.procs[pid];
    SettlesUpdate(w.s, Do(w, AddMerged(pid, id)).s, asset, p.id, id, Merged(p.purpose.q, p.id, p.copy.task));
  }

  /** The other steps of a process leave the rows alone. */
  lemma HolderMovesOn(w: World, a: Action, asset: string)
    requires Sound(w) && Orderly(w) && Can(w, a) && (a.Mark? || a.GiveUp? || a.Release? || a.Publish? || a.Unmark? || a.Stop?)
    requires w.procs[a.pid].locked == Some(asset)
    ensures var v := Do(w, a);
            && Settles(w.s, v.s, asset, w.procs[a.pid].id)
            && (a.pid in v.procs ==> HoldsLock(v, v.procs[a.pid]))
  {
    assert HoldsLock(w, w.procs[a.pid]);
    StageOnly(w, a);
    hide Sound, Orderly, Can, Do, HoldsLock;
    LockRow(w, a.pid, asset);
    SettlesBy(w.s, Do(w, a).s, asset, w.procs[a.pid].id);
    if a.pid in Do(w, a).procs {
      SameLockHolds(w, Do(w, a), w.procs[a.pid], Do(w, a).procs[a.pid]);
    }
  }

  lemma StageOnly(w: World, a: Action)
    requires Can(w, a) && (a.Mark? || a.GiveUp? || a.Release? || a.Publish? || a.Unmark? || a.Stop?)
    ensures Do(w, a).s.runs == w.s.runs
    ensures a.pid in Do(w, a).procs ==>
              LaterStage(w.procs[a.pid], Do(w, a).procs[a.pid])
              && (Do(w, a).procs[a.pid].phase == HasRead ==> w.procs[a.pid].phase == HasRead)
  {
  }

  lemma LockRow(w: World, pid: ProcId, asset: string)
    requires Sound(w) && pid in w.procs && w.procs[pid].locked == Some(asset) && HoldsLock(w, w.procs[pid])
    ensures OnlyActive(w.s, asset, w.procs[pid].id)
  {
    assert ProcSound(w, w.procs[pid]);
  }

  lemma SameLockHolds(w: World, v: World, p: Proc, q: Proc)
    requires HoldsLock(w, p) && LaterStage(p, q) && (q.phase == HasRead ==> p.phase == HasRead) && v.s.runs == w.s.runs
    ensures HoldsLock(v, q)
  {
    if p.locked.Some? && p.id in w.s.runs {
      var asset := p.locked.value;
      forall r | ActiveFor(v.s, asset, r)
        ensures r == p.id
      {
        assert ActiveFor(w.s, asset, r);
      }
    }
  }

  lemma HolderActs(w: World, a: Action, asset: string)
    requires Sound(w) && Orderly(w) && Can(w, a) && !a.Act? && !a.Open? && w.procs[a.pid].locked == Some(asset)
    ensures var v := Do(w, a);
            && Settles(w.s, v.s, asset, w.procs[a.pid].id)
            && (a.pid in v.procs ==> HoldsLock(v, v.procs[a.pid]))
  {
    match a
    case Save(pid) => HolderSaves(w, pid, asset);
    case Undo(pid) => HolderUndoes(w, pid, asset);
    case AddMerged(pid, id) => HolderMerges(w, pid, id, asset);
    case _ => HolderMovesOn(w, a, asset);
  }

  /** Taking the lock: nobody else's run of the asset is active. */
  lemma LockTaken(w: World, pid: ProcId, o: Opening, asset: string)
    requires Sound(w) && OneActive(w.s) && Can(w, Open(pid, o)) && LockOf(o) == Some(asset)
    ensures var v := Do(w, Open(pid, o));
            Settles(w.s, v.s, asset, o.id) && HoldsLock(v, v.procs[pid])
  {
    hide Sound, OwnTrigger, OneActive;
    if o.Joins? {
      OneActiveMeans(w.s, asset, o.id);
    } else {
      InsertedRun(w, o);
      CreatedUndo(w, o);
      hide CopyOf, UndoOf;
    }
    SettlesBy(w.s, Do(w, Open(pid, o)).s, asset, o.id);
  }

  lemma OneActiveMeans(s: State, asset: string, id: RunId)
    requires OneActive(s) && ActiveFor(s, asset, id)
    ensures OnlyActive(s, asset, id)
  {
  }

  lemma CreatedUndo(w: World, o: Opening)
    requires o.Creates?
    ensures UndoOf(o, w.s).status == Failed && UndoOf(o, w.s).triggers == CopyOf(o, w.s).triggers
  {
  }

  lemma ReserveSettles(w: World, step: Step, asset: string)
    requires OneActive(w.s) && Can(w, Act(step)) && step.Reserve? && step.q.asset == asset
    ensures var v := Do(w, Act(step));
            Settles(w.s, v.s, asset, if Touches(w.s, step).Some? || step.active.None? then step.id else step.active.value)
  {
    hide OneActive;
    if step.active.Some? {
      OneActiveMeans(w.s, asset, step.active.value);
    }
    SettlesBy(w.s, Do(w, Act(step)).s, asset, if Touches(w.s, step).Some? || step.active.None? then step.id else step.active.value);
  }

  // ------------------------------------------------------------ every step

  /** Whoever acts, each asset's runs keep their events and at most one of them is active. */
  ghost predicate Tame(s: State, t: State, asset: string) {
    Gentle(s, t, asset) || exists id :: Settles(s, t, asset, id)
  }

  lemma StepTame(w: World, a: Action, asset: string)
    requires Sound(w) && Orderly(w) && Can(w, a) && CleanRewrite(w, a)
    ensures Tame(w.s, Do(w, a).s, asset)
  {
    hide Sound, Gentle, Settles, Can, Do, CleanRewrite;
    if ByOthers(w, a, asset) {
      StepGentle(w, a, asset);
    } else if a.Act? {
      ReserveSettles(w, a.step, asset);
    } else if a.Open? {
      LockTaken(w, a.pid, a.o, asset);
    } else {
      HolderActs(w, a, asset);
    }
  }

  lemma TameKeepsOne(s: State, t: State)
    requires OneActive(s) && forall asset :: Tame(s, t, asset)
    ensures OneActive(t)
  {
    hide TriggersSame;
    forall r, u, asset | ActiveFor(t, asset, r) && ActiveFor(t, asset, u)
      ensures r == u
    {
      assert Tame(s, t, asset);
      if Gentle(s, t, asset) {
        assert ActiveFor(s, asset, r) && ActiveFor(s, asset, u);
      } else {
        var id :| Settles(s, t, asset, id);
      }
    }
  }

  lemma TameGrows(s: State, t: State)
    requires AllSteady(s, t) && forall asset :: Tame(s, t, asset)
    ensures Grows(s, t)
  {
    forall r | r in s.runs
      ensures r in t.runs && s.runs[r].triggers <= t.runs[r].triggers
    {
      if s.runs[r].kind.AssetRun? {
        var asset := s.runs[r].kind.asset;
        assert Tame(s, t, asset);
        if !Gentle(s, t, asset) {
          var id :| Settles(s, t, asset, id);
        }
      }
    }
  }

  /** An admission not at work stays as it was: its asset is only treated gently. */
  lemma LockKept(w: World, a: Action, pid: ProcId)
    requires Sound(w) && Orderly(w) && Can(w, a) && CleanRewrite(w, a) && pid in w.procs && w.procs[pid].locked.Some?
    requires (a.Act? || a.pid != pid) && pid in Do(w, a).procs && Do(w, a).procs[pid] == w.procs[pid]
    ensures HoldsLock(Do(w, a), w.procs[pid])
  {
    var p := w.procs[pid];
    var asset := p.locked.value;
    assert ByOthers(w, a, asset) by { hide Sound, OneActive, HoldsLock, Mirrors, CleanRewrite; LockExcludes(w, a, pid); }
    StepGentle(w, a, asset);
    assert ProcSound(w, p);
    GentleKeepsLock(w, Do(w, a), p);
  }

  lemma LockExcludes(w: World, a: Action, pid: ProcId)
    requires LocksApart(w) && Can(w, a) && pid in w.procs && w.procs[pid].locked.Some? && (a.Act? || a.pid != pid)
    ensures ByOthers(w, a, w.procs[pid].locked.value)
  {
    hide Answers, Opens;
  }

  lemma GentleKeepsLock(w: World, v: World, p: Proc)
    requires HoldsLock(w, p) && p.locked.Some? && p.id in w.s.runs && w.s.runs[p.id].kind == AssetRun(p.locked.value)
    requires Gentle(w.s, v.s, p.locked.value)
    ensures HoldsLock(v, p)
  {
  }

  /** Rows change only together with their revision. */
  lemma SameRevisionSameRow(w: World, a: Action, id: RunId)
    requires Can(w, a) && id in w.s.runs && Revision(Do(w, a), id) == Revision(w, id)
    ensures id in Do(w, a).s.runs && Do(w, a).s.runs[id] == w.s.runs[id]
  {
    hide Answers, CopyOf, UndoOf;
  }

  lemma MirrorKept(w: World, a: Action, q: ProcId)
    requires Sound(w) && Orderly(w) && Can(w, a) && q in Do(w, a).procs && a != Save(q) && !(a.Open? && a.pid == q)
    ensures Mirrors(Do(w, a), Do(w, a).procs[q])
  {
    StepKeepsSound(w, a);
    SameStage(w, a, q);
    ProcMovesOn(w, a, q);
    RevisionsGrow(w, a, w.procs[q].id);
    RowAndSeen(w, q);
    var v := Do(w, a);
    if Revision(v, w.procs[q].id) == w.procs[q].seen {
      SameRevisionSameRow(w, a, w.procs[q].id);
    }
    hide Sound, Orderly, Can, Do, Mirrors, AllSteady;
    KindKept(w.s, v.s, w.procs[q].id);
    if a == Release(q) {
      MirrorReleased(w, q);
    } else {
      SameLock(w, a, q);
      MirrorCarried(w, v, w.procs[q], v.procs[q]);
    }
  }

  lemma RowAndSeen(w: World, q: ProcId)
    requires Sound(w) && Orderly(w) && q in w.procs
    ensures w.procs[q].id in w.s.runs && w.procs[q].seen <= Revision(w, w.procs[q].id) && Mirrors(w, w.procs[q])
  {
    assert ProcSound(w, w.procs[q]);
    hide Orderly, Mirrors, OwnTrigger, Fits;
    assert Mirrors(w, w.procs[q]) by { assert Orderly(w); }
  }

  lemma MirrorCarried(w: World, v: World, p: Proc, q: Proc)
    requires Mirrors(w, p) && LaterStage(p, q) && q.locked == p.locked && q.seen == p.seen
    requires q.phase == HasRead ==> p.phase == HasRead
    requires p.id in w.s.runs && p.id in v.s.runs && v.s.runs[p.id].kind == w.s.runs[p.id].kind
    requires Revision(v, p.id) == p.seen ==> Revision(w, p.id) == p.seen && v.s.runs[p.id] == w.s.runs[p.id]
    ensures Mirrors(v, q)
  {
  }

  /** Under its lock an admission knows what its run lists. */
  lemma MirrorReleased(w: World, pid: ProcId)
    requires Sound(w) && Orderly(w) && Can(w, Release(pid))
    ensures pid in Do(w, Release(pid)).procs && Mirrors(Do(w, Release(pid)), Do(w, Release(pid)).procs[pid])
  {
    ReleaseDoes(w, pid);
    ReleaseIsLater(w, pid);
    assert HoldsLock(w, w.procs[pid]);
    hide Sound, Orderly, OnlyActive, Can, Do;
    SenderOrJoins(w, pid);
  }

  lemma ReleaseDoes(w: World, pid: ProcId)
    requires Can(w, Release(pid))
    ensures Do(w, Release(pid)) == w.(procs := w.procs[pid := w.procs[pid].(locked := None)])
  {
  }

  lemma SenderOrJoins(w: World, pid: ProcId)
    requires Sound(w) && pid in w.procs && w.procs[pid].phase != HasRead
    ensures !w.procs[pid].purpose.Requeueing?
  {
    assert ProcSound(w, w.procs[pid]);
  }

  lemma KindKept(s: State, t: State, id: RunId)
    requires AllSteady(s, t) && id in s.runs
    ensures id in t.runs && t.runs[id].kind == s.runs[id].kind
  {
  }

  lemma MirrorSaved(w: World, pid: ProcId)
    requires Sound(w) && Orderly(w) && Can(w, Save(pid)) && pid in Do(w, Save(pid)).procs
    ensures Mirrors(Do(w, Save(pid)), Do(w, Save(pid)).procs[pid])
  {
    SoundParts(w, pid);
    assert ProcSound(w, w.procs[pid]) && Mirrors(w, w.procs[pid]);
    hide Sound, Orderly, OwnTrigger, TriggersOnce, TasksDrawn;
  }

  lemma MirrorOpened(w: World, pid: ProcId, o: Opening)
    requires Can(w, Open(pid, o))
    ensures Mirrors(Do(w, Open(pid, o)), Do(w, Open(pid, o)).procs[pid])
  {
    hide Answers;
  }

  lemma StepKeepsLocksApart(w: World, a: Action)
    requires LocksApart(w) && Can(w, a)
    ensures LocksApart(Do(w, a))
  {
    hide Answers, Opens, CopyOf, UndoOf, Apply, Write;
    var v := Do(w, a);
    forall p, q | p in v.procs && q in v.procs && p != q && v.procs[p].locked.Some?
      ensures v.procs[p].locked != v.procs[q].locked
    {
      if !(a.Open? && a.pid == p) {
        SameLock(w, a, p);
      }
      if !(a.Open? && a.pid == q) {
        SameLock(w, a, q);
      }
    }
  }

  lemma SameLock(w: World, a: Action, p: ProcId)
    requires Can(w, a) && p in Do(w, a).procs && !(a.Open? && a.pid == p)
    ensures p in w.procs && (Do(w, a).procs[p].locked == w.procs[p].locked || (a == Release(p) && Do(w, a).procs[p].locked.None?))
  {
    hide Answers, Opens, CopyOf, UndoOf, Apply;
  }

  lemma StepKeepsProc(w: World, a: Action, q: ProcId)
    requires Sound(w) && Orderly(w) && Can(w, a) && CleanRewrite(w, a) && q in Do(w, a).procs
    ensures HoldsLock(Do(w, a), Do(w, a).procs[q]) && Mirrors(Do(w, a), Do(w, a).procs[q])
  {
    var v := Do(w, a);
    hide Sound, Can, Do, CleanRewrite, HoldsLock, Mirrors, OneActive, LocksApart;
    if a.Open? && a.pid == q {
      MirrorOpened(w, q, a.o);
      OpenedLock(w, q, a.o);
    } else {
      SameLock(w, a, q);
      if a == Save(q) {
        MirrorSaved(w, q);
      } else {
        MirrorKept(w, a, q);
      }
      if w.procs[q].locked.None? {
        UnlockedHolds(v, v.procs[q]);
      } else if !a.Act? && a.pid == q {
        HolderActs(w, a, w.procs[q].locked.value);
      } else {
        Untouched(w, a, q);
        LockKept(w, a, q);
      }
    }
  }

  lemma Untouched(w: World, a: Action, q: ProcId)
    requires Can(w, a) && q in Do(w, a).procs && (a.Act? || a.pid != q)
    ensures q in w.procs && Do(w, a).procs[q] == w.procs[q]
  {
    hide Answers, Opens, CopyOf, UndoOf, Apply;
  }

  lemma UnlockedHolds(v: World, p: Proc)
    requires p.locked.None?
    ensures HoldsLock(v, p)
  {
  }

  lemma OpenedLock(w: World, pid: ProcId, o: Opening)
    requires Sound(w) && Orderly(w) && Can(w, Open(pid, o))
    ensures HoldsLock(Do(w, Open(pid, o)), Do(w, Open(pid, o)).procs[pid])
  {
    if LockOf(o).Some? {
      LockTaken(w, pid, o, LockOf(o).value);
    } else {
      assert Do(w, Open(pid, o)).procs[pid].locked.None? by { hide Answers, CopyOf, UndoOf, Sound, Orderly; }
      UnlockedHolds(Do(w, Open(pid, o)), Do(w, Open(pid, o)).procs[pid]);
    }
  }

  /** Under the lock, one active run per asset is kept and no event is lost, whatever workers,
      operators, crashes and the broker do. */
  lemma StepKeepsOrderly(w: World, a: Action)
    requires Sound(w) && Orderly(w) && Can(w, a) && CleanRewrite(w, a)
    ensures Orderly(Do(w, a)) && Grows(w.s, Do(w, a).s)
  {
    var v := Do(w, a);
    StepKeepsSound(w, a);
    StepKeepsLocksApart(w, a);
    hide Sound, Can, Do, CleanRewrite, HoldsLock, Mirrors, LocksApart, Tame, AllSteady;
    forall asset
      ensures Tame(w.s, v.s, asset)
    {
      StepTame(w, a, asset);
    }
    TameKeepsOne(w.s, v.s);
    TameGrows(w.s, v.s);
    forall q | q in v.procs
      ensures HoldsLock(v, v.procs[q]) && Mirrors(v, v.procs[q])
    {
      StepKeepsProc(w, a, q);
    }
  }

  // ------------------------------------------------------------ every run

  ghost predicate CleanRewrites(ws: seq<World>, actions: seq<Action>)
    requires |ws| == |actions| + 1
  {
    forall k :: 0 <= k < |actions| ==> CleanRewrite(ws[k], actions[k])
  }

  lemma StartIsOrderly()
    ensures Orderly(Start)
  {
  }

  /** In every execution from the empty store: each asset has at most one active run, and no run ever
      loses an event. */
  lemma {:induction false} OneActiveAndNothingLost(ws: seq<World>, actions: seq<Action>, i: nat)
    requires Execution(ws, actions) && ws[0] == Start && CleanRewrites(ws, actions) && i < |ws|
    ensures Orderly(ws[i]) && Sound(ws[i]) && OneActive(ws[i].s)
    ensures forall k :: 0 <= k < i ==> NothingLost(ws, k)
  {
    hide *;
    Lengths(ws, actions);
    if i == 0 {
      StartIsOrderly();
      StartIsSound();
      OrderlyMeansOne(Start);
    } else {
      OneActiveAndNothingLost(ws, actions, i - 1);
      StepOf(ws, actions, i - 1);
      CleanAt(ws, actions, i - 1);
      StepKeepsSound(ws[i - 1], actions[i - 1]);
      StepKeepsOrderly(ws[i - 1], actions[i - 1]);
      OrderlyMeansOne(ws[i]);
      GrowsIsNothingLost(ws, i - 1);
    }
  }

  lemma Lengths(ws: seq<World>, actions: seq<Action>)
    requires Execution(ws, actions)
    ensures |ws| == |actions| + 1
  {
  }

  lemma CleanAt(ws: seq<World>, actions: seq<Action>, k: nat)
    requires |ws| == |actions| + 1 && k < |actions| && CleanRewrites(ws, actions)
    ensures CleanRewrite(ws[k], actions[k])
  {
  }

  lemma OrderlyMeansOne(w: World)
    requires Orderly(w)
    ensures OneActive(w.s)
  {
  }

  lemma GrowsIsNothingLost(ws: seq<World>, k: nat)
    requires k + 1 < |ws|
    ensures Grows(ws[k].s, ws[k + 1].s) <==> NothingLost(ws, k)
  {
  }

  predicate NothingLost(ws: seq<World>, k: nat)
    requires k + 1 < |ws|
  {
    forall r :: r in ws[k].s.runs ==> r in ws[k + 1].s.runs && ws[k].s.runs[r].triggers <= ws[k + 1].s.runs[r].triggers
  }

  // Executions in which asset runs are neither recovered nor requeued.

  ghost predicate NoRewriteOpened(ws: seq<World>, actions: seq<Action>)
    requires |ws| == |actions| + 1
  {
    forall k :: 0 <= k < |actions| && actions[k].Open? && (actions[k].o.Recovers? || actions[k].o.Requeues?) ==>
      actions[k].o.id in ws[k].s.runs && ws[k].s.runs[actions[k].o.id].kind.EventRun?
  }

  /** As with the process lock of SQLite. */
  predicate LocksKept(actions: seq<Action>) { forall k :: 0 <= k < |actions| ==> !actions[k].Release? }

  /** A process on an asset run joins it, under the lock until that is saved, or has created it. */
  predicate Admitting(w: World, p: Proc) {
    p.id in w.s.runs
    && (|| w.s.runs[p.id].kind.EventRun?
        || (p.purpose.Joining? && (p.phase == HasRead ==> p.locked.Some?))
        || (p.purpose.Sending? && p.phase != HasRead && p.undo.status == Failed))
  }

  predicate HasLock(w: World, p: Proc) {
    p.id in w.s.runs && (w.s.runs[p.id].kind.EventRun? || p.locked.Some?)
  }

  predicate OnlyAdmissions(w: World, kept: bool) {
    forall pid :: pid in w.procs ==> Admitting(w, w.procs[pid]) && (kept ==> HasLock(w, w.procs[pid]))
  }

  lemma OpenedAdmitting(w: World, pid: ProcId, o: Opening)
    requires Can(w, Open(pid, o)) && (o.Recovers? || o.Requeues? ==> w.s.runs[o.id].kind.EventRun?)
    ensures var v := Do(w, Open(pid, o)); pid in v.procs && Admitting(v, v.procs[pid]) && HasLock(v, v.procs[pid])
  {
    hide Answers;
  }

  lemma StillAdmitting(w: World, a: Action, pid: ProcId)
    requires Sound(w) && Can(w, a) && pid in Do(w, a).procs && !(a.Open? && a.pid == pid)
    requires pid in w.procs && Admitting(w, w.procs[pid])
    ensures Admitting(Do(w, a), Do(w, a).procs[pid])
    ensures HasLock(w, w.procs[pid]) && !a.Release? ==> HasLock(Do(w, a), Do(w, a).procs[pid])
  {
    StepKeepsSound(w, a);
    hide Sound, Can, Do, AllSteady;
    ProcMovesOn(w, a, pid);
    SameLock(w, a, pid);
    if a == Release(pid) {
      ReleaseIsLater(w, pid);
    }
    KindKept(w.s, Do(w, a).s, w.procs[pid].id);
  }

  /** A lock is not released before the first save. */
  lemma ReleaseIsLater(w: World, pid: ProcId)
    requires Can(w, Release(pid))
    ensures w.procs[pid].phase != HasRead
  {
  }

  lemma StepKeepsOnlyAdmissions(w: World, a: Action, kept: bool)
    requires Sound(w) && Can(w, a) && OnlyAdmissions(w, kept) && (kept ==> !a.Release?)
    requires a.Open? && (a.o.Recovers? || a.o.Requeues?) ==> a.o.id in w.s.runs && w.s.runs[a.o.id].kind.EventRun?
    ensures OnlyAdmissions(Do(w, a), kept)
  {
    var v := Do(w, a);
    hide Sound, Can, Do, Admitting, HasLock;
    forall pid | pid in v.procs
      ensures Admitting(v, v.procs[pid]) && (kept ==> HasLock(v, v.procs[pid]))
    {
      if a.Open? && a.pid == pid {
        OpenedAdmitting(w, pid, a.o);
      } else {
        ProcMovesOn(w, a, pid);
        StillAdmitting(w, a, pid);
      }
    }
  }

  lemma {:induction false} AlwaysAdmissions(ws: seq<World>, actions: seq<Action>, i: nat, kept: bool)
    requires Execution(ws, actions) && ws[0] == Start && NoRewriteOpened(ws, actions) && i < |ws|
    requires kept ==> LocksKept(actions)
    ensures OnlyAdmissions(ws[i], kept) && Sound(ws[i])
  {
    hide Sound, Can, Do;
    StartIsSound();
    AlwaysSound(ws, actions, 0, i);
    if i > 0 {
      AlwaysAdmissions(ws, actions, i - 1, kept);
      StepKeepsOnlyAdmissions(ws[i - 1], actions[i - 1], kept);
    }
  }

  /** An admission that has lost its lock marks the run it has created failed, after an event has
      joined that run. */
  predicate UndoneAfterJoin(w: World, a: Action) {
    a.Undo? && a.pid in w.procs && w.procs[a.pid].locked.None?
    && var p := w.procs[a.pid];
       && p.id in w.s.runs && w.s.runs[p.id].kind.AssetRun? && !Blocked(w.s, p.id, p.undo)
       && p.undo.triggers != w.s.runs[p.id].triggers
  }

  lemma NothingToClean(w: World, a: Action)
    requires Can(w, a) && OnlyAdmissions(w, false) && !UndoneAfterJoin(w, a)
    ensures CleanRewrite(w, a)
  {
    if CopyWrite(w, a).Some? {
      assert Admitting(w, w.procs[a.pid]);
    }
  }

  lemma NotUndone(w: World, a: Action)
    requires OnlyAdmissions(w, true)
    ensures !UndoneAfterJoin(w, a)
  {
  }

  lemma CleanUnlessUndone(ws: seq<World>, actions: seq<Action>)
    requires Execution(ws, actions) && ws[0] == Start && NoRewriteOpened(ws, actions)
    requires forall k :: 0 <= k < |actions| ==> !UndoneAfterJoin(ws[k], actions[k])
    ensures CleanRewrites(ws, actions)
  {
    hide Can, Do, CleanRewrite, NoRewriteOpened, OnlyAdmissions, UndoneAfterJoin, Sound;
    forall k | 0 <= k < |actions|
      ensures CleanRewrite(ws[k], actions[k])
    {
      AlwaysAdmissions(ws, actions, k, false);
      NothingToClean(ws[k], actions[k]);
    }
  }

  /** Enqueuing, reserving, working, cancelling, crashing, retrying and reporting, in any interleaving,
      with admission locks held to the end: at most one active run per asset, and no event is ever
      lost. */
  lemma AdmissionNeedsNoCondition(ws: seq<World>, actions: seq<Action>, i: nat)
    requires Execution(ws, actions) && ws[0] == Start && NoRewriteOpened(ws, actions) && LocksKept(actions) && i < |ws|
    ensures OneActive(ws[i].s) && forall k :: 0 <= k < i ==> NothingLost(ws, k)
  {
    hide Can, Do, NoRewriteOpened, OnlyAdmissions, UndoneAfterJoin;
    forall k | 0 <= k < |actions|
      ensures !UndoneAfterJoin(ws[k], actions[k])
    {
      AlwaysAdmissions(ws, actions, k, true);
      NotUndone(ws[k], actions[k]);
    }
    CleanUnlessUndone(ws, actions);
    OneActiveAndNothingLost(ws, actions, i);
  }

  // With locks that may be lost, the rows list what the copies kept for a failure list.

  predicate UndosBelow(w: World) {
    forall pid :: pid in w.procs && w.procs[pid].purpose.Sending? ==> UndoBelow(w, w.procs[pid])
  }

  predicate UndoBelow(w: World, p: Proc) {
    p.id in w.s.runs && (w.s.runs[p.id].kind.AssetRun? ==> p.undo.triggers <= w.s.runs[p.id].triggers)
  }

  lemma OpenedBelow(w: World, pid: ProcId, o: Opening)
    requires Can(w, Open(pid, o))
    ensures var v := Do(w, Open(pid, o)); pid in v.procs && (v.procs[pid].purpose.Sending? ==> UndoBelow(v, v.procs[pid]))
  {
    hide Answers;
  }

  lemma StepKeepsUndosBelow(w: World, a: Action)
    requires Sound(w) && Can(w, a) && UndosBelow(w) && Grows(w.s, Do(w, a).s)
    ensures UndosBelow(Do(w, a))
  {
    StepKeepsSound(w, a);
    var v := Do(w, a);
    hide Sound, Can, Do, AllSteady;
    forall pid | pid in v.procs && v.procs[pid].purpose.Sending?
      ensures UndoBelow(v, v.procs[pid])
    {
      if a.Open? && a.pid == pid {
        OpenedBelow(w, pid, a.o);
      } else {
        ProcMovesOn(w, a, pid);
        assert UndoBelow(w, w.procs[pid]);
        KindKept(w.s, v.s, w.procs[pid].id);
      }
    }
  }

  lemma {:induction false} AlwaysUndosBelow(ws: seq<World>, actions: seq<Action>, i: nat)
    requires Execution(ws, actions) && ws[0] == Start && i < |ws| && forall k :: 0 <= k < i ==> NothingLost(ws, k)
    ensures UndosBelow(ws[i])
  {
    hide Sound, Can, Do, NothingLost, Grows;
    StartIsSound();
    if i > 0 {
      AlwaysUndosBelow(ws, actions, i - 1);
      AlwaysSound(ws, actions, 0, i - 1);
      GrowsIsNothingLost(ws, i - 1);
      StepKeepsUndosBelow(ws[i - 1], actions[i - 1]);
    }
  }

  lemma UndoneLoses(w: World, a: Action)
    requires Sound(w) && Can(w, a) && UndosBelow(w) && UndoneAfterJoin(w, a)
    ensures !Grows(w.s, Do(w, a).s)
  {
    var p := w.procs[a.pid];
    assert UndoBelow(w, p) && Do(w, a).s == Write(w, p.id, p.undo).s;
    hide Sound;
  }

  /** With locks that end with the first commit, events are lost exactly where an admission that could
      not publish its run marks it failed after an event has joined it. */
  lemma AdmissionLosesNothingIff(ws: seq<World>, actions: seq<Action>)
    requires Execution(ws, actions) && ws[0] == Start && NoRewriteOpened(ws, actions)
    ensures (forall k :: 0 <= k < |actions| ==> NothingLost(ws, k))
            <==> (forall k :: 0 <= k < |actions| ==> !UndoneAfterJoin(ws[k], actions[k]))
  {
    hide Can, Do, NoRewriteOpened, UndoneAfterJoin, Sound, Grows, NothingLost, UndosBelow;
    if forall k :: 0 <= k < |actions| ==> !UndoneAfterJoin(ws[k], actions[k]) {
      CleanUnlessUndone(ws, actions);
      OneActiveAndNothingLost(ws, actions, |actions|);
    }
    if forall k :: 0 <= k < |actions| ==> NothingLost(ws, k) {
      forall k | 0 <= k < |actions|
        ensures !UndoneAfterJoin(ws[k], actions[k])
      {
        AlwaysUndosBelow(ws, actions, k);
        StartIsSound();
        AlwaysSound(ws, actions, 0, k);
        assert NothingLost(ws, k);
        GrowsIsNothingLost(ws, k);
        if UndoneAfterJoin(ws[k], actions[k]) {
          UndoneLoses(ws[k], actions[k]);
        }
      }
    }
  }

  // One active run per asset needs neither the lock beyond the first commit nor any condition.

  /** Whoever has the lock knows that no other run of the asset is active. */
  ghost predicate Guards(w: World, p: Proc) { p.locked.Some? ==> OnlyActive(w.s, p.locked.value, p.id) }

  ghost predicate Alone(w: World) {
    OneActive(w.s) && LocksApart(w) && forall pid :: pid in w.procs ==> Guards(w, w.procs[pid])
  }

  ghost predicate Calm(s: State, t: State, asset: string) {
    forall r :: ActiveFor(t, asset, r) ==> ActiveFor(s, asset, r)
  }

  lemma WriteCalm(w: World, id: RunId, copy: Run, asset: string)
    requires copy.kind != AssetRun(asset) || !Active(copy.status)
    requires id in w.s.runs && copy.kind == w.s.runs[id].kind
    ensures Calm(w.s, Write(w, id, copy).s, asset)
  {
  }

  lemma CopyCalm(w: World, pid: ProcId, copy: Run, asset: string)
    requires Sound(w) && OnlyAdmissions(w, false) && pid in w.procs && WritesCopy(w.procs[pid], copy)
    requires w.procs[pid].locked != Some(asset)
    ensures Calm(w.s, Write(w, w.procs[pid].id, copy).s, asset)
  {
    var p := w.procs[pid];
    assert ProcSound(w, p) && Admitting(w, p);
    hide Sound, OnlyAdmissions, OwnTrigger, Write, Calm;
    WriteCalm(w, p.id, copy, asset);
  }

  lemma StepCalm(w: World, a: Action, asset: string)
    requires Sound(w) && OnlyAdmissions(w, false) && Can(w, a) && ByOthers(w, a, asset)
    ensures Calm(w.s, Do(w, a).s, asset)
  {
    hide Sound, OnlyAdmissions, TriggersSame, Write, Opened, Opens, Apply, Merged;
    match a
    case Act(step) => ActGentle(w, step, asset);
    case Open(pid, o) => OpenGentle(w, pid, o, asset);
    case Save(pid) => CopyCalm(w, pid, w.procs[pid].copy, asset);
    case Undo(pid) => CopyCalm(w, pid, w.procs[pid].undo, asset);
    case AddMerged(pid, id) => MergeGentle(w, pid, id, asset);
    case _ => SameRunsGentle(w.s, Do(w, a).s, asset);
  }

  lemma WriteKeepsOnly(s: State, t: State, asset: string, id: RunId, k: RunId, run: Run)
    requires OnlyActive(s, asset, id) && (t.runs == s.runs || t.runs == s.runs[k := run])
    requires k == id || !Active(run.status)
    ensures OnlyActive(t, asset, id)
  {
    forall r | ActiveFor(t, asset, r)
      ensures r == id
    {
      if r != id {
        assert ActiveFor(s, asset, r);
      }
    }
  }

  lemma HolderStaysAlone(w: World, a: Action, asset: string)
    requires Alone(w) && Can(w, a) && !a.Act? && !a.Open? && w.procs[a.pid].locked == Some(asset)
    ensures OnlyActive(Do(w, a).s, asset, w.procs[a.pid].id)
  {
    var p, v := w.procs[a.pid], Do(w, a);
    assert Guards(w, p);
    hide Alone, OnlyActive;
    match a
    case Save(pid) => WriteKeepsOnly(w.s, v.s, asset, p.id, p.id, p.copy);
    case Undo(pid) => WriteKeepsOnly(w.s, v.s, asset, p.id, p.id, p.undo);
    case AddMerged(pid, id) => WriteKeepsOnly(w.s, v.s, asset, p.id, id, Merged(p.purpose.q, p.id, p.copy.task));
    case _ => WriteKeepsOnly(w.s, v.s, asset, p.id, p.id, p.copy);
  }

  /** Afterwards the asset has no run active that was not, or no more than one. */
  lemma StepTurn(w: World, a: Action, asset: string)
    requires Sound(w) && Alone(w) && OnlyAdmissions(w, false) && Can(w, a)
    ensures Calm(w.s, Do(w, a).s, asset) || exists id :: OnlyActive(Do(w, a).s, asset, id)
  {
    hide Sound, Can, Do, OnlyAdmissions, Calm;
    if ByOthers(w, a, asset) {
      StepCalm(w, a, asset);
    } else if a.Act? {
      ReserveSettles(w, a.step, asset);
    } else if a.Open? {
      LockTaken(w, a.pid, a.o, asset);
    } else {
      HolderStaysAlone(w, a, asset);
    }
  }

  lemma TurnsKeepOne(s: State, t: State)
    requires OneActive(s) && forall asset :: Calm(s, t, asset) || exists id :: OnlyActive(t, asset, id)
    ensures OneActive(t)
  {
    forall r, u, asset | ActiveFor(t, asset, r) && ActiveFor(t, asset, u)
      ensures r == u
    {
      if Calm(s, t, asset) {
        assert ActiveFor(s, asset, r) && ActiveFor(s, asset, u);
      } else {
        var id :| OnlyActive(t, asset, id);
      }
    }
  }

  lemma GuardKept(w: World, a: Action, q: ProcId)
    requires Sound(w) && Alone(w) && OnlyAdmissions(w, false) && Can(w, a) && q in Do(w, a).procs
    ensures Guards(Do(w, a), Do(w, a).procs[q])
  {
    var v := Do(w, a);
    hide Sound, Can, Do, OnlyAdmissions, OneActive, LocksApart;
    if v.procs[q].locked.Some? {
      var asset := v.procs[q].locked.value;
      if a.Open? && a.pid == q {
        TakesLock(w, q, a.o);
        LockTaken(w, q, a.o, asset);
      } else {
        SameLock(w, a, q);
        ProcMovesOn(w, a, q);
        assert Guards(w, w.procs[q]);
        if !a.Act? && a.pid == q {
          HolderStaysAlone(w, a, asset);
        } else {
          LockExcludes(w, a, q);
          StepCalm(w, a, asset);
        }
      }
    }
  }

  lemma TakesLock(w: World, pid: ProcId, o: Opening)
    requires Can(w, Open(pid, o))
    ensures var v := Do(w, Open(pid, o)); pid in v.procs && v.procs[pid].locked == LockOf(o) && v.procs[pid].id == o.id
  {
    hide Answers, CopyOf, UndoOf;
  }

  lemma StepKeepsAlone(w: World, a: Action)
    requires Sound(w) && Alone(w) && OnlyAdmissions(w, false) && Can(w, a)
    ensures Alone(Do(w, a))
  {
    var v := Do(w, a);
    StepKeepsLocksApart(w, a);
    hide Sound, Can, Do, OnlyAdmissions, Calm, OnlyActive, Guards, LocksApart;
    forall asset
      ensures Calm(w.s, v.s, asset) || exists id :: OnlyActive(v.s, asset, id)
    {
      StepTurn(w, a, asset);
    }
    TurnsKeepOne(w.s, v.s);
    forall q | q in v.procs
      ensures Guards(v, v.procs[q])
    {
      GuardKept(w, a, q);
    }
  }

  /** Enqueuing, reserving, working, cancelling, crashing, retrying and reporting, in any interleaving,
      whether admission locks are held to the end or only to the first commit: every asset has at most
      one active run. */
  lemma {:induction false} AlwaysOneActive(ws: seq<World>, actions: seq<Action>, i: nat)
    requires Execution(ws, actions) && ws[0] == Start && NoRewriteOpened(ws, actions) && i < |ws|
    ensures Alone(ws[i]) && OneActive(ws[i].s)
  {
    hide Sound, Can, Do, NoRewriteOpened, OnlyAdmissions;
    if i > 0 {
      AlwaysOneActive(ws, actions, i - 1);
      AlwaysAdmissions(ws, actions, i - 1, false);
      StepKeepsAlone(ws[i - 1], actions[i - 1]);
    }
  }

  // ------------------------------------------------------------ merged records

  /** The save of an admission's own event is refused, as the run it joins has been cancelled since it
      was read. */
  predicate Refused(w: World, a: Action, pid: ProcId) {
    a == Save(pid) && pid in w.procs && w.procs[pid].purpose.Joining? && Blocked(w.s, w.procs[pid].id, w.procs[pid].copy)
  }

  /** A process opened before i is still the same one at k. */
  predicate NotReopened(actions: seq<Action>, i: nat, k: nat, pid: ProcId)
    requires k <= |actions|
  {
    forall j :: i < j < k ==> !(actions[j].Open? && actions[j].pid == pid)
  }

  /** The admission that adds a merged record at k went on after its save had been refused. */
  ghost predicate MergedAfterRefusal(ws: seq<World>, actions: seq<Action>, k: nat)
    requires |ws| == |actions| + 1 && k < |actions|
  {
    actions[k].AddMerged?
    && exists i :: 0 <= i < k && Refused(ws[i], actions[i], actions[k].pid) && NotReopened(actions, i, k, actions[k].pid)
  }

  // If its save was refused, the event is not listed when the record is added.

  /** The admission is past its save, and the run it joins is cancelled without its event. */
  predicate Unlisted(w: World, pid: ProcId, r: RunId, e: EventId) {
    && Barred(w.s, r, e)
    && (pid in w.procs ==>
          var p := w.procs[pid];
          p.id == r && p.purpose.Joining? && p.purpose.q.event == Some(e) && p.phase == HasSaved)
  }

  predicate Barred(s: State, r: RunId, e: EventId) {
    r in s.runs && s.runs[r].kind.AssetRun? && s.runs[r].status == Cancelled && e !in s.runs[r].triggers
  }

  lemma RefusedIsUnlisted(w: World, pid: ProcId)
    requires Sound(w) && Orderly(w) && Can(w, Save(pid)) && Refused(w, Save(pid), pid)
    ensures w.procs[pid].purpose.q.event.Some?
    ensures Unlisted(Do(w, Save(pid)), pid, w.procs[pid].id, w.procs[pid].purpose.q.event.value)
  {
    assert ProcSound(w, w.procs[pid]) && HoldsLock(w, w.procs[pid]) && Mirrors(w, w.procs[pid]);
    hide Sound, Orderly, OwnTrigger, Fits;
  }

  /** Nothing is written over a cancelled asset run. */
  lemma StaysBarred(w: World, a: Action, r: RunId, e: EventId)
    requires Sound(w) && Can(w, a) && Barred(w.s, r, e)
    ensures Barred(Do(w, a).s, r, e)
  {
    hide Sound, Write, Opened, Opens, Apply, Barred;
    match a
    case Act(step) => ActBars(w, step, r, e);
    case Open(pid, o) => OpenBars(w, pid, o, r, e);
    case Save(pid) => WriteBars(w, pid, w.procs[pid].copy, r, e);
    case Undo(pid) => WriteBars(w, pid, w.procs[pid].undo, r, e);
    case AddMerged(pid, id) => MergeBars(w, pid, id, r, e);
    case _ => SameRunsBar(w.s, Do(w, a).s, r, e);
  }

  lemma SameRunsBar(s: State, t: State, r: RunId, e: EventId)
    requires Barred(s, r, e) && t.runs == s.runs
    ensures Barred(t, r, e)
  {
  }

  lemma ActBars(w: World, step: Step, r: RunId, e: EventId)
    requires Can(w, Act(step)) && Barred(w.s, r, e)
    ensures Barred(Do(w, Act(step)).s, r, e)
  {
    hide Answers;
  }

  lemma OpenBars(w: World, pid: ProcId, o: Opening, r: RunId, e: EventId)
    requires Can(w, Open(pid, o)) && Barred(w.s, r, e)
    ensures Barred(Do(w, Open(pid, o)).s, r, e)
  {
    hide Answers, CopyOf, UndoOf;
  }

  lemma WriteBars(w: World, pid: ProcId, copy: Run, r: RunId, e: EventId)
    requires Sound(w) && pid in w.procs && WritesCopy(w.procs[pid], copy) && Barred(w.s, r, e)
    ensures Barred(Write(w, w.procs[pid].id, copy).s, r, e)
  {
    assert ProcSound(w, w.procs[pid]);
    hide Sound, OwnTrigger, Fits;
  }

  lemma MergeBars(w: World, pid: ProcId, id: RunId, r: RunId, e: EventId)
    requires Can(w, AddMerged(pid, id)) && Barred(w.s, r, e)
    ensures Barred(Do(w, AddMerged(pid, id)).s, r, e)
  {
  }

  lemma StepKeepsUnlisted(w: World, a: Action, pid: ProcId, r: RunId, e: EventId)
    requires Sound(w) && Can(w, a) && Unlisted(w, pid, r, e) && !(a.Open? && a.pid == pid)
    ensures Unlisted(Do(w, a), pid, r, e)
  {
    StaysBarred(w, a, r, e);
    hide Sound, Barred;
    if pid in Do(w, a).procs {
      SavedStays(w, a, pid);
    }
  }

  lemma SavedStays(w: World, a: Action, pid: ProcId)
    requires Can(w, a) && pid in Do(w, a).procs && !(a.Open? && a.pid == pid)
    ensures pid in w.procs && LaterStage(w.procs[pid], Do(w, a).procs[pid])
    ensures w.procs[pid].purpose.Joining? && w.procs[pid].phase == HasSaved ==> Do(w, a).procs[pid].phase == HasSaved
  {
    hide Answers, CopyOf, UndoOf, Apply, Opens;
  }

  lemma {:induction false} StaysUnlisted(ws: seq<World>, actions: seq<Action>, i: nat, k: nat, pid: ProcId, r: RunId, e: EventId)
    requires Execution(ws, actions) && ws[0] == Start && i < k < |ws|
    requires Unlisted(ws[i + 1], pid, r, e) && NotReopened(actions, i, k, pid)
    ensures Unlisted(ws[k], pid, r, e)
    decreases k
  {
    hide *;
    Lengths(ws, actions);
    if i + 1 < k {
      StillOpen(actions, i, k, pid);
      StepOf(ws, actions, k - 1);
      StaysUnlisted(ws, actions, i, k - 1, pid, r, e);
      StartIsSound();
      AlwaysSound(ws, actions, k - 1, k - 1);
      StepKeepsUnlisted(ws[k - 1], actions[k - 1], pid, r, e);
    }
  }

  lemma StillOpen(actions: seq<Action>, i: nat, k: nat, pid: ProcId)
    requires i + 1 < k <= |actions|
    ensures NotReopened(actions, i, k, pid)
            <==> NotReopened(actions, i, k - 1, pid) && !(actions[k - 1].Open? && actions[k - 1].pid == pid)
  {
  }

  // If the event is not listed when the record is added, the save was refused.

  lemma {:induction false} RefusalFound(ws: seq<World>, actions: seq<Action>, k: nat, pid: ProcId) returns (i: nat)
    requires Execution(ws, actions) && ws[0] == Start && CleanRewrites(ws, actions) && k < |ws|
    requires pid in ws[k].procs && ws[k].procs[pid].purpose.Joining? && ws[k].procs[pid].phase == HasSaved
    requires !Listed(ws[k], ws[k].procs[pid])
    ensures i < k && Refused(ws[i], actions[i], pid) && NotReopened(actions, i, k, pid)
  {
    hide *;
    Lengths(ws, actions);
    if k == 0 {
      NoProcAtStart(pid);
    } else {
      var w, a := ws[k - 1], actions[k - 1];
      StepOf(ws, actions, k - 1);
      if a == Save(pid) {
        OneActiveAndNothingLost(ws, actions, k - 1);
        UnlistedSaveRefused(w, pid);
        NobodyReopens(actions, k, pid);
        i := k - 1;
      } else {
        NotJustOpened(ws, actions, k - 1, pid);
        EarlierUnlisted(ws, actions, k - 1, pid);
        i := RefusalFound(ws, actions, k - 1, pid);
        StillOpen(actions, i, k, pid);
      }
    }
  }

  lemma NoProcAtStart(pid: ProcId)
    ensures pid !in Start.procs
  {
  }

  lemma NobodyReopens(actions: seq<Action>, k: nat, pid: ProcId)
    requires 0 < k <= |actions|
    ensures NotReopened(actions, k - 1, k, pid)
  {
  }

  lemma NotJustOpened(ws: seq<World>, actions: seq<Action>, k: nat, pid: ProcId)
    requires Execution(ws, actions) && k < |actions| && pid in ws[k + 1].procs && !Listed(ws[k + 1], ws[k + 1].procs[pid])
    ensures !(actions[k].Open? && actions[k].pid == pid)
  {
    if actions[k].Open? && actions[k].pid == pid {
      OpenLists(ws[k], pid, actions[k].o);
    }
    hide Listed, Opened, Opens;
  }

  lemma UnlistedSaveRefused(w: World, pid: ProcId)
    requires Sound(w) && Can(w, Save(pid)) && pid in Do(w, Save(pid)).procs && Do(w, Save(pid)).procs[pid].purpose.Joining?
    requires !Listed(Do(w, Save(pid)), Do(w, Save(pid)).procs[pid])
    ensures Refused(w, Save(pid), pid)
  {
    assert ProcSound(w, w.procs[pid]);
    hide Sound, OwnTrigger, Fits;
  }

  lemma EarlierUnlisted(ws: seq<World>, actions: seq<Action>, k: nat, pid: ProcId)
    requires Execution(ws, actions) && ws[0] == Start && CleanRewrites(ws, actions) && k < |actions|
    requires pid in ws[k + 1].procs && ws[k + 1].procs[pid].purpose.Joining? && ws[k + 1].procs[pid].phase == HasSaved
    requires !Listed(ws[k + 1], ws[k + 1].procs[pid]) && actions[k] != Save(pid) && !(actions[k].Open? && actions[k].pid == pid)
    ensures pid in ws[k].procs && ws[k].procs[pid].purpose.Joining? && ws[k].procs[pid].phase == HasSaved
    ensures !Listed(ws[k], ws[k].procs[pid])
  {
    var w, a := ws[k], actions[k];
    StepOf(ws, actions, k);
    hide Execution, Sound, Orderly, Can, Do, CleanRewrites, OneActive, NothingLost, Listed, Grows;
    OneActiveAndNothingLost(ws, actions, k + 1);
    assert NothingLost(ws, k);
    GrowsIsNothingLost(ws, k);
    SameStage(w, a, pid);
    JoinerRests(w, a, pid);
    if Listed(w, w.procs[pid]) {
      ListedStays(w, ws[k + 1], w.procs[pid]);
    }
  }

  /** After its save an admission only adds its record, perhaps without the lock, or stops. */
  lemma JoinerRests(w: World, a: Action, pid: ProcId)
    requires Can(w, a) && pid in Do(w, a).procs && pid in w.procs && a != Save(pid) && !(a.Open? && a.pid == pid)
    requires w.procs[pid].purpose.Joining? && Do(w, a).procs[pid].phase == HasSaved
    ensures LaterStage(w.procs[pid], Do(w, a).procs[pid]) && w.procs[pid].phase == HasSaved
  {
    hide Answers, CopyOf, UndoOf, Apply, Opens;
  }

  /** A merged record is added to a run that lists its event exactly when its admission's save had not
      been refused. */
  lemma ListedIffNotRefused(ws: seq<World>, actions: seq<Action>, k: nat)
    requires Execution(ws, actions) && ws[0] == Start && CleanRewrites(ws, actions) && k < |actions| && actions[k].AddMerged?
    ensures actions[k].pid in ws[k].procs
    ensures Listed(ws[k], ws[k].procs[actions[k].pid]) <==> !MergedAfterRefusal(ws, actions, k)
  {
    var pid := actions[k].pid;
    StepOf(ws, actions, k);
    assert pid in ws[k].procs && ws[k].procs[pid].purpose.Joining? && ws[k].procs[pid].phase == HasSaved;
    if !Listed(ws[k], ws[k].procs[pid]) {
      var i := RefusalFound(ws, actions, k, pid);
    }
    if MergedAfterRefusal(ws, actions, k) {
      var i :| 0 <= i < k && Refused(ws[i], actions[i], pid) && NotReopened(actions, i, k, pid);
      OneActiveAndNothingLost(ws, actions, i);
      StepOf(ws, actions, i);
      RefusedIsUnlisted(ws[i], pid);
      StaysUnlisted(ws, actions, i, k, pid, ws[i].procs[pid].id, ws[i].procs[pid].purpose.q.event.value);
    }
  }

  /** New rows are queued, except merged records. */
  lemma PointersKept(w: World, a: Action)
    requires Sound(w) && Can(w, a) && !a.AddMerged? && MergedPointWell(w.s) && Grows(w.s, Do(w, a).s)
    ensures MergedPointWell(Do(w, a).s)
  {
    StepKeepsSound(w, a);
    var v := Do(w, a);
    hide Sound, OwnTrigger;
    forall r | r in v.s.runs
      ensures PointsWell(v.s.runs, v.s.runs[r])
    {
      if r in w.s.runs {
        assert PointsWell(w.s.runs, w.s.runs[r]);
        hide Can, Do;
      } else {
        NewRowsAreQueued(w, a, r);
      }
    }
  }

  lemma NewRowsAreQueued(w: World, a: Action, r: RunId)
    requires Sound(w) && Can(w, a) && !a.AddMerged? && r in Do(w, a).s.runs && r !in w.s.runs
    ensures Do(w, a).s.runs[r].status == Queued
  {
    hide Sound, Write, Opened, Opens, Apply;
    match a
    case Act(step) => ActAddsQueued(w, step, r);
    case Open(pid, o) => OpenAddsQueued(w, pid, o, r);
    case Save(pid) => CopyAddsNothing(w, pid, w.procs[pid].copy, r);
    case Undo(pid) => CopyAddsNothing(w, pid, w.procs[pid].undo, r);
    case _ =>
  }

  lemma ActAddsQueued(w: World, step: Step, r: RunId)
    requires Can(w, Act(step)) && r in Do(w, Act(step)).s.runs && r !in w.s.runs
    ensures Do(w, Act(step)).s.runs[r].status == Queued
  {
    hide Answers;
  }

  lemma OpenAddsQueued(w: World, pid: ProcId, o: Opening, r: RunId)
    requires Can(w, Open(pid, o)) && r in Do(w, Open(pid, o)).s.runs && r !in w.s.runs
    ensures Do(w, Open(pid, o)).s.runs[r].status == Queued
  {
    hide Answers, CopyOf, UndoOf;
    if Inserts(o) {
      InsertedRun(w, o);
    }
  }

  lemma CopyAddsNothing(w: World, pid: ProcId, copy: Run, r: RunId)
    requires Sound(w) && pid in w.procs
    ensures r in Write(w, w.procs[pid].id, copy).s.runs ==> r in w.s.runs
  {
    SoundParts(w, pid);
    hide Sound, Fits, ProcSound;
  }

  lemma MergedPointsIff(w: World, pid: ProcId, id: RunId)
    requires Sound(w) && Can(w, AddMerged(pid, id)) && MergedPointWell(w.s)
    ensures MergedPointWell(Do(w, AddMerged(pid, id)).s) <==> Listed(w, w.procs[pid])
  {
    var p, v := w.procs[pid], Do(w, AddMerged(pid, id));
    SoundParts(w, pid);
    SenderOrJoiner(w, p);
    MergeDoes(w, pid, id);
    var merged := Merged(p.purpose.q, p.id, p.copy.task);
    assert p.purpose.Joining? && p.phase == HasSaved;
    hide Sound, OwnTrigger, Can, Do, ProcSound, Fits, MergedPointWell, Unsent, TriggersOnce, TasksDrawn;
    PointsAfterInsert(w.s, v.s, id, merged);
    MergedPointsWell(w.s, v.s, id, p, merged);
  }

  lemma MergedPointsWell(s: State, t: State, id: RunId, p: Proc, merged: Run)
    requires p.purpose.Joining? && Ordinary(p.purpose.q) && p.phase == HasSaved && id !in s.runs && p.id in s.runs
    requires s.runs[p.id].kind == AssetRun(p.purpose.q.asset) && s.runs[p.id].status != Coalesced
    requires merged == Merged(p.purpose.q, p.id, p.copy.task) && t.runs == s.runs[id := merged]
    ensures PointsWell(t.runs, merged) <==> p.purpose.q.event.value in s.runs[p.id].triggers
  {
  }

  lemma PointsAfterInsert(s: State, t: State, id: RunId, run: Run)
    requires MergedPointWell(s) && id !in s.runs && t.runs == s.runs[id := run]
    ensures PointsWell(t.runs, run) <==> MergedPointWell(t)
  {
    hide OwnTrigger;
    assert id in t.runs && t.runs[id] == run;
    forall r | r in s.runs
      ensures PointsWell(t.runs, t.runs[r])
    {
      assert PointsWell(s.runs, s.runs[r]);
    }
  }

  /** Every merged record of every state points at a run that lists its event if and only if no
      admission adds its record after its save was refused, that is, after the run it joins was
      cancelled between being read and being saved. */
  lemma MergedPointWellIff(ws: seq<World>, actions: seq<Action>)
    requires Execution(ws, actions) && ws[0] == Start && CleanRewrites(ws, actions)
    ensures (forall i :: 0 <= i < |ws| ==> MergedPointWell(ws[i].s))
            <==> (forall k :: 0 <= k < |actions| ==> !MergedAfterRefusal(ws, actions, k))
  {
    hide Can, Do, MergedPointWell, CleanRewrite, Sound, Orderly;
    if forall i :: 0 <= i < |ws| ==> MergedPointWell(ws[i].s) {
      forall k | 0 <= k < |actions|
        ensures !MergedAfterRefusal(ws, actions, k)
      {
        if actions[k].AddMerged? {
          var n := k + 1;
          assert MergedPointWell(ws[n].s) && MergedPointWell(ws[k].s);
          PointsIffStep(ws, actions, k);
        }
      }
    }
    if forall k :: 0 <= k < |actions| ==> !MergedAfterRefusal(ws, actions, k) {
      forall i | 0 <= i < |ws|
        ensures MergedPointWell(ws[i].s)
      {
        PointsWellUpTo(ws, actions, i);
      }
    }
  }

  lemma PointsIffStep(ws: seq<World>, actions: seq<Action>, k: nat)
    requires Execution(ws, actions) && ws[0] == Start && CleanRewrites(ws, actions) && k < |actions| && MergedPointWell(ws[k].s)
    ensures MergedPointWell(ws[k + 1].s) <==> !MergedAfterRefusal(ws, actions, k)
  {
    hide MergedPointWell, CleanRewrite, Sound, Orderly, Can, Do, Grows;
    OneActiveAndNothingLost(ws, actions, k + 1);
    OneActiveAndNothingLost(ws, actions, k);
    assert NothingLost(ws, k);
    StepOf(ws, actions, k);
    if actions[k].AddMerged? {
      ListedIffNotRefused(ws, actions, k);
      MergedPointsIff(ws[k], actions[k].pid, actions[k].id);
    } else {
      GrowsIsNothingLost(ws, k);
      PointersKept(ws[k], actions[k]);
    }
  }

  lemma {:induction false} PointsWellUpTo(ws: seq<World>, actions: seq<Action>, i: nat)
    requires Execution(ws, actions) && ws[0] == Start && CleanRewrites(ws, actions) && i < |ws|
    requires forall k :: 0 <= k < |actions| ==> !MergedAfterRefusal(ws, actions, k)
    ensures MergedPointWell(ws[i].s)
  {
    hide CleanRewrite, Can, Do, MergedAfterRefusal;
    if i > 0 {
      hide MergedPointWell;
      PointsWellUpTo(ws, actions, i - 1);
      PointsIffStep(ws, actions, i - 1);
    }
  }

  /** All invariants of the store, in every such execution. */
  lemma AlwaysInv(ws: seq<World>, actions: seq<Action>, i: nat)
    requires Execution(ws, actions) && ws[0] == Start && CleanRewrites(ws, actions) && i < |ws|
    requires forall k :: 0 <= k < |actions| ==> !MergedAfterRefusal(ws, actions, k)
    ensures Inv(ws[i].s)
  {
    hide CleanRewrite, Can, Do, MergedAfterRefusal;
    PointsWellUpTo(ws, actions, i);
    OneActiveAndNothingLost(ws, actions, i);
  }

  /** An accepted event is listed exactly once in the run that accepted it, in every later state. */
  lemma AcceptedExactlyOnce(ws: seq<World>, actions: seq<Action>, i: nat, j: nat)
    requires Execution(ws, actions) && ws[0] == Start && CleanRewrites(ws, actions) && i < j < |ws|
    requires AcceptedBy(ws[i], actions[i]).Some? && !MergedAfterRefusal(ws, actions, i)
    ensures var (r, e) := AcceptedBy(ws[i], actions[i]).value;
            r in ws[j].s.runs && OccursOnce(ws[j].s.runs[r].triggers, e)
  {
    hide CleanRewrite, MergedAfterRefusal;
    var (r, e) := AcceptedBy(ws[i], actions[i]).value;
    OneActiveAndNothingLost(ws, actions, i);
    StepOf(ws, actions, i);
    if actions[i].AddMerged? {
      ListedIffNotRefused(ws, actions, i);
    }
    AcceptedIsListed(ws[i], actions[i]);
    hide Can, Do, AcceptedBy, Sound, Orderly, OccursOnce;
    OneActiveAndNothingLost(ws, actions, j);
    StaysListed(ws, i + 1, j, r, e);
    ListedIsOnce(ws[j], r, e);
  }

  lemma {:induction false} StaysListed(ws: seq<World>, i: nat, j: nat, r: RunId, e: EventId)
    requires i <= j < |ws| && Lists(ws[i].s, r, e) && forall k :: 0 <= k < j ==> NothingLost(ws, k)
    ensures Lists(ws[j].s, r, e)
    decreases j
  {
    if i < j {
      StaysListed(ws, i, j - 1, r, e);
      assert NothingLost(ws, j - 1);
    }
  }
}
