/** The research operations as they act on the stored rows, the dispatch markers and the broker,
    and the two loops that redispatch queued runs. */
module ResearchDesk {
  import opened Common
  import opened Research

  datatype Refusal = AlreadyActive(run: RunId) | CoolingDown | QueueFailed

  class Desk {
    var runs: map<RunId, Run>
    var markers: map<RunId, TaskId>
    var sent: seq<Message>
    var issued: set<TaskId>

    constructor ()
      ensures State() == Initial
    {
      runs, markers, sent, issued := map[], map[], [], {};
    }

    function State(): State
      reads this
    {
      Research.State(runs, markers, sent, issued)
    }

    method SaveRun(id: RunId, run: Run)
      modifies this`runs
      ensures State() == Saved(old(State()), id, run)
    {
      if id in runs && runs[id].status == Cancelled && run.status != Cancelled {
        return;
      }
      runs := runs[id := run];
    }

    method RecordDispatch(id: RunId, task: TaskId, works: bool) returns (recorded: bool)
      modifies this`markers
      ensures recorded == works
      ensures State() == if works then Marked(old(State()), id, task) else old(State())
    {
      if works {
        markers := markers[id := task];
      }
      return works;
    }

    method ClearDispatch(id: RunId, task: TaskId)
      modifies this`markers
      ensures State() == Unmarked(old(State()), id, task)
    {
      if id in markers && markers[id] == task {
        markers := markers - {id};
      }
    }

    /** Hands the message to the broker; `raised` tells whether the caller sees an error. */
    method Publish(id: RunId, a: Attempt) returns (raised: bool)
      modifies this`sent
      ensures raised == Raised(a.outcome)
      ensures State() == if Reached(a.outcome) then Published(old(State()), id, a) else old(State())
    {
      if Reached(a.outcome) {
        sent := sent + [Message(id, a.task, a.instance)];
      }
      return Raised(a.outcome);
    }

    /** Draws the task id, saves the run under it, records the marker and publishes. */
    method SaveAndPublish(id: RunId, run: Run, a: Attempt) returns (raised: bool)
      modifies this
      ensures raised == Raised(a.outcome)
      ensures forall failed: Run {:trigger Dispatched(old(State()), id, run, failed, a)} ::
                Dispatched(old(State()), id, run, failed, a)
                == if raised then Saved(if a.recorded then Unmarked(State(), id, a.task) else State(), id, failed) else State()
    {
      issued := issued + {a.task};
      SaveRun(id, run);
      var recorded := RecordDispatch(id, a.task, a.recorded);
      raised := Publish(id, a);
    }

    /** Admits a request: joins the asset's active run, refuses, or creates and queues a run. */
    method EnqueueResearch(q: Request, active: Option<RunId>, cooling: bool, id: RunId, a: Attempt)
      returns (result: Result<RunId, Refusal>)
      requires Enabled(State(), Enqueue(q, active, cooling, id, a))
      modifies this
      ensures State() == Apply(old(State()), Enqueue(q, active, cooling, id, a))
      ensures result == match AcceptedInto(Enqueue(q, active, cooling, id, a))
                        case None => Err(if active.Some? then AlreadyActive(active.value) else CoolingDown)
                        case Some(r) => if active.None? && Raised(a.outcome) then Err(QueueFailed) else Ok(id)
    {
      hide Dispatched;
      if active.Some? && Ordinary(q) {
        var run := runs[active.value];
        if q.event.value !in run.triggers {
          SaveRun(active.value, WithTrigger(run, q.event.value));
        }
        SaveRun(id, Merged(q, active.value, run.task));
        return Ok(id);
      }
      if active.Some? {
        return Err(AlreadyActive(active.value));
      }
      if cooling && q.retryOf.None? && !q.force {
        return Err(CoolingDown);
      }
      var run := NewRun(q, Some(a.task), Some(a.instance), "research_queue");
      ghost var failed := FailedRun(run, "research_queue");
      ghost var expected := Dispatched(State(), id, run, failed, a);
      var raised := SaveAndPublish(id, run, a);
      if raised {
        if a.recorded {
          ClearDispatch(id, a.task);
        }
        SaveRun(id, FailedRun(run, "research_queue"));
        assert State() == expected;
        return Err(QueueFailed);
      }
      return Ok(id);
    }

    method ReserveResearchRun(q: Request, active: Option<RunId>, cooling: bool, id: RunId) returns (result: Result<RunId, Refusal>)
      requires Enabled(State(), Reserve(q, active, cooling, id))
      modifies this
      ensures State() == Apply(old(State()), Reserve(q, active, cooling, id))
      ensures result == if active.Some? then Err(AlreadyActive(active.value)) else if cooling then Err(CoolingDown) else Ok(id)
    {
      if active.Some? {
        return Err(AlreadyActive(active.value));
      }
      if cooling {
        return Err(CoolingDown);
      }
      SaveRun(id, NewRun(q, None, None, "research_queue"));
      return Ok(id);
    }

    /** Queues a fresh attempt on an event report, keeping the published report and, when publishing
        fails, going back to the status and task id from before. */
    method EnqueueEventResearchRefresh(id: RunId, a: Attempt) returns (raised: bool)
      requires Enabled(State(), Refresh(id, a))
      modifies this
      ensures State() == Apply(old(State()), Refresh(id, a))
      ensures raised == Raised(a.outcome)
    {
      hide Dispatched;
      var before := runs[id];
      var run := RefreshedRun(before, a);
      ghost var expected := Dispatched(State(), id, run, UnrefreshedRun(before, a), a);
      raised := SaveAndPublish(id, run, a);
      if raised {
        if a.recorded {
          ClearDispatch(id, a.task);
        }
        run := run.(status := before.status, task := before.task, error := true);
        SaveRun(id, run.(steps := run.steps + ["forced_event_research_queue"]));
      }
      assert State() == expected;
    }

    method EnqueueEventResearchRetry(id: RunId, a: Attempt) returns (raised: bool)
      requires Enabled(State(), Retry(id, a))
      modifies this
      ensures State() == Apply(old(State()), Retry(id, a))
      ensures raised == Raised(a.outcome)
    {
      hide Dispatched;
      var run := RetriedRun(runs[id], a);
      ghost var expected := Dispatched(State(), id, run, FailedRun(run, "event_research_retry_queue"), a);
      raised := SaveAndPublish(id, run, a);
      if raised {
        if a.recorded {
          ClearDispatch(id, a.task);
        }
        SaveRun(id, FailedRun(run, "event_research_retry_queue"));
      }
      assert State() == expected;
    }

    method EnqueueEventReport(event: EventId, existing: Option<RunId>, created: Time, id: RunId, a: Attempt) returns (raised: bool)
      requires Enabled(State(), Report(event, existing, created, id, a))
      modifies this
      ensures State() == Apply(old(State()), Report(event, existing, created, id, a))
      ensures raised == (existing.None? && Raised(a.outcome))
    {
      hide Dispatched;
      if existing.Some? {
        return false;
      }
      var run := NewReport(event, a, created);
      ghost var expected := Dispatched(State(), id, run, FailedRun(run, "event_research_queue"), a);
      raised := SaveAndPublish(id, run, a);
      if raised {
        if a.recorded {
          ClearDispatch(id, a.task);
        }
        SaveRun(id, FailedRun(run, "event_research_queue"));
      }
      assert State() == expected;
    }

    /** What a worker does with a message before it starts to work. */
    method BeginResearch(m: Message) returns (works: bool)
      requires m.run in runs
      modifies this
      ensures works == !(Superseded(old(State()), m) || Answered(old(runs)[m.run]))
      ensures works <==> var run := old(runs)[m.run];
                         && (run.task.None? || run.task == Some(m.task))
                         && run.status != Cancelled
                         && (run.kind.AssetRun? ==> run.status != Coalesced)
                         && (run.kind.EventRun? ==> run.status != Completed && run.status != InsufficientEvidence)
      ensures old(runs)[m.run].status != Cancelled && works ==>
                && m.run in runs && runs == old(runs)[m.run := runs[m.run]]
                && runs[m.run].status == Running && runs[m.run].instance == Some(m.instance) && runs[m.run].task == old(runs)[m.run].task
      ensures State() == if works then Started(old(State()), m) else old(State())
    {
      var run := runs[m.run];
      if run.task.Some? && run.task != Some(m.task) {
        return false;
      }
      if Answered(run) {
        return false;
      }
      SaveRun(m.run, run.(instance := Some(m.instance), status := Running));
      return true;
    }

    // ---------------------------------------------------------- recovery of lost dispatches

    /** Republishes every candidate older than the cutoff whose dispatch looks lost. The candidates are
        copies read at the start; their rows may have moved on since. `handled` falls short of the
        candidates only when the process stopped in the middle of one. */
    method RecoverOrphans(candidates: seq<Candidate>, attempts: seq<Attempt>, cutoff: Time)
      returns (scanned: nat, recovered: nat, failed: nat, handled: nat)
      requires |attempts| == |candidates|
      modifies this
      ensures handled <= |candidates|
      ensures handled < |candidates| ==> handled > 0 && attempts[handled - 1].outcome == Crashed
      ensures State() == RecoveredAll(old(State()), candidates[..handled], attempts[..handled], cutoff)
      ensures handled == |candidates| ==> (scanned, recovered, failed) == Tally(old(State()), candidates, attempts, cutoff)
      ensures handled == |candidates| && DistinctRuns(candidates) ==>
                && Republished(old(State()), State(), candidates, attempts, cutoff)
                && scanned == |OldEnough(candidates, cutoff)|
                && recovered == |GoneWith(old(markers), candidates, attempts, cutoff, {Sent})|
                && failed == |GoneWith(old(markers), candidates, attempts, cutoff, {Refused, ErrorAfterSend})|
    {
      hide RecoveredFrom, LooksLost;
      ghost var s0 := State();
      scanned, recovered, failed := 0, 0, 0;
      for i := 0 to |candidates|
        invariant State() == RecoveredAll(s0, candidates[..i], attempts[..i], cutoff)
        invariant (scanned, recovered, failed) == Tally(s0, candidates[..i], attempts[..i], cutoff)
      {
        var c, a := candidates[i], attempts[i];
        assert candidates[..i + 1][..i] == candidates[..i] && attempts[..i + 1][..i] == attempts[..i];
        if c.copy.created > cutoff {
          continue;
        }
        scanned := scanned + 1;
        if !LooksLost(State(), c.id, c.copy) {
          continue;
        }
        var outcome := RecoverOne(c.id, c.copy, a);
        match outcome {
          case Sent =>
            recovered := recovered + 1;
          case Crashed =>
            if i + 1 == |candidates| {
              assert candidates[..i + 1] == candidates && attempts[..i + 1] == attempts;
              WholeLoop(s0, candidates, attempts, cutoff);
            }
            return scanned, recovered, failed, i + 1;
          case _ =>
            failed := failed + 1;
        }
      }
      handled := |candidates|;
      assert candidates[..|candidates|] == candidates && attempts[..|attempts|] == attempts;
      WholeLoop(s0, candidates, attempts, cutoff);
    }

    /** One candidate: record the marker first, then the copy under its new task id, then publish; save
        the copy as it was read on an error. */
    method RecoverOne(id: RunId, copy: Run, a: Attempt) returns (outcome: Outcome)
      modifies this
      ensures State() == RecoveredFrom(old(State()), id, copy, a)
      ensures outcome == RecoveryOutcome(a)
    {
      issued := issued + {a.task};
      var recorded := RecordDispatch(id, a.task, a.recorded);
      if !recorded {
        return Refused;
      }
      var run := RedispatchedRun(copy, a, "research_dispatch_recovery");
      SaveRun(id, run);
      var raised := Publish(id, a);
      if raised {
        ClearDispatch(id, a.task);
        run := run.(task := copy.task, instance := copy.instance, steps := run.steps[..|copy.steps|]);
        assert run == copy;
        SaveRun(id, run);
      }
      return a.outcome;
    }

    // ---------------------------------------------------------- priority migration

    /** Republishes queued event reports under the corrected priority. `rows` is the list read at the
        start, so a run may have moved on since. A failure restores the run as it was read again. There
        are fewer results than rows only when the process stopped in the middle of a redispatch. */
    method MigrateQueuedEventPriorities(rows: seq<Row>, events: set<EventId>, attempts: seq<MigrationAttempt>, apply: bool)
      returns (results: seq<Verdict>, handled: nat)
      requires |attempts| == |rows|
      modifies this
      ensures |results| <= handled <= |rows|
      ensures |results| < |rows| ==> handled == |results| + 1 && attempts[|results|].a.outcome == Crashed
      ensures State() == MigratedAll(old(State()), rows[..handled], events, attempts[..handled], apply)
      ensures results == Verdicts(old(State()), rows[..|results|], events, attempts[..|results|], apply)
      ensures |results| < |rows| ==> Verdicts(old(State()), rows[..handled], events, attempts[..handled], apply)[|results|] == Requeued
      ensures forall k :: 0 <= k < |results| && attempts[k].a.outcome == Crashed ==> results[k] != Requeued
      ensures |results| == |rows| && DistinctRows(rows) ==> MigratedExactly(old(State()), State(), rows, events, attempts, apply, results)
    {
      hide MigratedState, VerdictOf;
      ghost var s0 := State();
      results := [];
      for i := 0 to |rows|
        invariant State() == MigratedAll(s0, rows[..i], events, attempts[..i], apply)
        invariant |results| == i && results == Verdicts(s0, rows[..i], events, attempts[..i], apply)
        invariant forall k :: 0 <= k < i && attempts[k].a.outcome == Crashed ==> results[k] != Requeued
      {
        assert rows[..i + 1][..i] == rows[..i] && attempts[..i + 1][..i] == attempts[..i];
        var verdict := MigrateOne(rows[i], events, attempts[i], apply);
        if verdict == Requeued && attempts[i].a.outcome == Crashed {
          return results, i + 1;
        }
        results := results + [verdict];
      }
      assert rows[..|rows|] == rows && attempts[..|rows|] == attempts;
      WholeMigration(s0, rows, events, attempts, apply);
      return results, |rows|;
    }

    method MigrateOne(row: Row, events: set<EventId>, m: MigrationAttempt, apply: bool) returns (verdict: Verdict)
      modifies this
      ensures verdict == VerdictOf(old(State()), row, events, m, apply)
      ensures State() == if verdict in {Requeued, MigrationFailed} then MigratedState(old(State()), row.id, m.a, m.rerecorded)
                         else old(State())
    {
      hide MigratedState, Migrated, Raised;
      if Migrated(row.run) {
        return AlreadyMigrated;
      }
      if row.run.event.None? || row.run.event.value !in events {
        return NoEvent;
      }
      if !apply {
        return Pending;
      }
      if row.id !in runs || runs[row.id].status != Queued {
        return NoLongerQueued;
      }
      if Migrated(runs[row.id]) {
        return AlreadyMigrated;
      }
      var raised := RedispatchMigrated(row.id, m.a, m.rerecorded);
      return if raised then MigrationFailed else Requeued;
    }

    method RedispatchMigrated(id: RunId, a: Attempt, rerecorded: bool) returns (raised: bool)
      requires id in runs && runs[id].status == Queued
      modifies this
      ensures raised == (!a.recorded || Raised(a.outcome))
      ensures State() == MigratedState(old(State()), id, a, rerecorded)
    {
      hide RedispatchedRun;
      var original := runs[id];
      assert RedispatchedRun(original, a, "event_priority_migration").status == Queued by { RedispatchKeepsStatus(original, a); }
      issued := issued + {a.task};
      var recorded := RecordDispatch(id, a.task, a.recorded);
      raised := true;
      if recorded {
        SaveRun(id, RedispatchedRun(original, a, "event_priority_migration"));
        raised := Publish(id, a);
      }
      if raised {
        ClearDispatch(id, a.task);
        if original.task.Some? {
          var _ := RecordDispatch(id, original.task.value, rerecorded);
        }
        SaveRun(id, original);
        assert State().runs == old(State()).runs;
      }
    }
  }

  function RecoveryOutcome(a: Attempt): Outcome {
    if !a.recorded then Refused else a.outcome
  }

  // ------------------------------------------------------------ the recovery loop as a whole

  /** A queued run as the query returned it. */
  datatype Candidate = Candidate(id: RunId, copy: Run)

  predicate Lost(s: State, c: Candidate, cutoff: Time) {
    c.copy.created <= cutoff && LooksLost(s, c.id, c.copy)
  }

  function TurnOf(s: State, c: Candidate, a: Attempt, cutoff: Time): State {
    if Lost(s, c, cutoff) then RecoveredFrom(s, c.id, c.copy, a) else s
  }

  function RecoveredAll(s: State, candidates: seq<Candidate>, attempts: seq<Attempt>, cutoff: Time): State
    requires |attempts| == |candidates|
  {
    if candidates == [] then s
    else
      var n := |candidates| - 1;
      TurnOf(RecoveredAll(s, candidates[..n], attempts[..n], cutoff), candidates[n], attempts[n], cutoff)
  }

  /** Candidates old enough, candidates republished, and candidates that failed. */
  function Tally(s: State, candidates: seq<Candidate>, attempts: seq<Attempt>, cutoff: Time): (nat, nat, nat)
    requires |attempts| == |candidates|
  {
    if candidates == [] then (0, 0, 0)
    else
      var n := |candidates| - 1;
      var (scanned, recovered, failed) := Tally(s, candidates[..n], attempts[..n], cutoff);
      var c, outcome := candidates[n], RecoveryOutcome(attempts[n]);
      if c.copy.created > cutoff then (scanned, recovered, failed)
      else if !LooksLost(RecoveredAll(s, candidates[..n], attempts[..n], cutoff), c.id, c.copy) then (scanned + 1, recovered, failed)
      else (scanned + 1, if outcome == Sent then recovered + 1 else recovered,
            if outcome in {Refused, ErrorAfterSend} then failed + 1 else failed)
  }

  lemma RecoveredLocal(s: State, id: RunId, copy: Run, a: Attempt, r: RunId)
    requires r != id
    ensures SameRun(s, RecoveredFrom(s, id, copy, a), r)
  {
    hide Dispatched;
    if a.recorded {
      DispatchedLocal(s, id, RedispatchedRun(copy, a, "research_dispatch_recovery"), copy, a, r);
    }
  }

  lemma DispatchedLocal(s: State, id: RunId, run: Run, failed: Run, a: Attempt, r: RunId)
    requires r != id
    ensures SameRun(s, Dispatched(s, id, run, failed, a), r)
  {
  }

  lemma RedispatchKeepsStatus(run: Run, a: Attempt)
    ensures RedispatchedRun(run, a, "event_priority_migration").status == run.status
  {
  }

  predicate SameRun(s: State, t: State, r: RunId) {
    && (r in s.runs <==> r in t.runs) && (r in s.runs ==> s.runs[r] == t.runs[r])
    && (r in s.markers <==> r in t.markers) && (r in s.markers ==> s.markers[r] == t.markers[r])
  }

  lemma SameRunTwice(s: State, t: State, u: State, r: RunId)
    requires SameRun(s, t, r) && SameRun(t, u, r)
    ensures SameRun(s, u, r)
  {
  }

  predicate Among(candidates: seq<Candidate>, r: RunId) {
    exists k :: 0 <= k < |candidates| && candidates[k].id == r
  }

  predicate DistinctRuns(candidates: seq<Candidate>) {
    forall i, j :: 0 <= i < j < |candidates| ==> candidates[i].id != candidates[j].id
  }

  /** The loop touches no run outside its candidates. */
  lemma {:induction false} OnlyCandidates(s: State, candidates: seq<Candidate>, attempts: seq<Attempt>, cutoff: Time, r: RunId)
    requires |attempts| == |candidates| && !Among(candidates, r)
    ensures SameRun(s, RecoveredAll(s, candidates, attempts, cutoff), r)
  {
    hide RecoveredFrom, LooksLost;
    if candidates != [] {
      var n := |candidates| - 1;
      assert !Among(candidates[..n], r) && candidates[n].id != r;
      var t := RecoveredAll(s, candidates[..n], attempts[..n], cutoff);
      OnlyCandidates(s, candidates[..n], attempts[..n], cutoff, r);
      RecoveredLocal(t, candidates[n].id, candidates[n].copy, attempts[n], r);
    }
  }

  /** Each candidate's row and marker end as if it had been the only one. */
  lemma {:induction false} EachOnItsOwn(s: State, candidates: seq<Candidate>, attempts: seq<Attempt>, cutoff: Time, k: nat)
    requires |attempts| == |candidates| && DistinctRuns(candidates) && k < |candidates|
    ensures SameRun(TurnOf(s, candidates[k], attempts[k], cutoff), RecoveredAll(s, candidates, attempts, cutoff), candidates[k].id)
  {
    hide RecoveredFrom, LooksLost, SameRun;
    var n := |candidates| - 1;
    var t := RecoveredAll(s, candidates[..n], attempts[..n], cutoff);
    if k < n {
      EachOnItsOwn(s, candidates[..n], attempts[..n], cutoff, k);
      TurnIsLocal(t, candidates[n], attempts[n], cutoff, candidates[k].id);
      SameRunTwice(TurnOf(s, candidates[k], attempts[k], cutoff), t, RecoveredAll(s, candidates, attempts, cutoff), candidates[k].id);
    } else {
      OnlyCandidates(s, candidates[..n], attempts[..n], cutoff, candidates[n].id);
      SameTurn(s, t, candidates[n], attempts[n], cutoff);
    }
  }

  lemma TurnIsLocal(s: State, c: Candidate, a: Attempt, cutoff: Time, r: RunId)
    requires r != c.id
    ensures SameRun(s, TurnOf(s, c, a, cutoff), r)
  {
    hide RecoveredFrom;
    if Lost(s, c, cutoff) {
      RecoveredLocal(s, c.id, c.copy, a, r);
    }
  }

  lemma SameTurn(s: State, t: State, c: Candidate, a: Attempt, cutoff: Time)
    requires SameRun(s, t, c.id)
    ensures SameRun(TurnOf(s, c, a, cutoff), TurnOf(t, c, a, cutoff), c.id)
  {
    assert LooksLost(s, c.id, c.copy) == LooksLost(t, c.id, c.copy);
    hide LooksLost, Dispatched, SameRun, RedispatchedRun;
    if Lost(s, c, cutoff) && a.recorded {
      SameDispatch(s, t, c.id, RedispatchedRun(c.copy, a, "research_dispatch_recovery"), c.copy, a);
    } else if Lost(s, c, cutoff) {
      SameBooks(s, s.(issued := s.issued + {a.task}), t, t.(issued := t.issued + {a.task}), c.id);
    }
  }

  lemma SavedSame(s: State, t: State, id: RunId, run: Run)
    requires SameRun(s, t, id)
    ensures SameRun(Saved(s, id, run), Saved(t, id, run), id)
  {
  }

  lemma MarkersSame(s: State, t: State, id: RunId, task: TaskId)
    requires SameRun(s, t, id)
    ensures SameRun(Marked(s, id, task), Marked(t, id, task), id) && SameRun(Unmarked(s, id, task), Unmarked(t, id, task), id)
  {
  }

  lemma SameBooks(s: State, s': State, t: State, t': State, id: RunId)
    requires SameRun(s, t, id) && s'.runs == s.runs && s'.markers == s.markers && t'.runs == t.runs && t'.markers == t.markers
    ensures SameRun(s', t', id)
  {
  }

  lemma SameDispatch(s: State, t: State, id: RunId, run: Run, failed: Run, a: Attempt)
    requires SameRun(s, t, id)
    ensures SameRun(Dispatched(s, id, run, failed, a), Dispatched(t, id, run, failed, a), id)
  {
    hide SameRun, Saved, Marked, Unmarked;
    SavedSame(s, t, id, run);
    var s1, t1 := Saved(s, id, run).(issued := s.issued + {a.task}), Saved(t, id, run).(issued := t.issued + {a.task});
    SavedBooks(s, id, run);
    SavedBooks(t, id, run);
    SameBooks(Saved(s, id, run), s1, Saved(t, id, run), t1, id);
    var s2, t2 := if a.recorded then Marked(s1, id, a.task) else s1, if a.recorded then Marked(t1, id, a.task) else t1;
    MarkersSame(s1, t1, id, a.task);
    var s3, t3 := if Reached(a.outcome) then Published(s2, id, a) else s2, if Reached(a.outcome) then Published(t2, id, a) else t2;
    SameBooks(s2, s3, t2, t3, id);
    if Raised(a.outcome) {
      MarkersSame(s3, t3, id, a.task);
      SavedSame(if a.recorded then Unmarked(s3, id, a.task) else s3, if a.recorded then Unmarked(t3, id, a.task) else t3, id, failed);
    }
  }

  lemma SavedBooks(s: State, id: RunId, run: Run)
    ensures Saved(s, id, run).issued == s.issued
  {
  }

  /** Where a candidate's row stands after its turn: a cancelled row stays; otherwise a lost candidate
      whose marker could be written ends as its redispatched copy, or as the copy that was read. */
  lemma RowAfterTurn(s: State, c: Candidate, a: Attempt, cutoff: Time)
    requires c.id in s.runs && c.copy.status == Queued
    ensures c.id in TurnOf(s, c, a, cutoff).runs
    ensures TurnOf(s, c, a, cutoff).runs[c.id]
            == if !Lost(s, c, cutoff) || !a.recorded || s.runs[c.id].status == Cancelled then s.runs[c.id]
               else if a.outcome in {Sent, Crashed} then RedispatchedRun(c.copy, a, "research_dispatch_recovery")
               else c.copy
    ensures Lost(s, c, cutoff) && a.recorded ==>
              TurnOf(s, c, a, cutoff).markers == if a.outcome in {Sent, Crashed} then s.markers[c.id := a.task] else s.markers - {c.id}
  {
    hide LooksLost;
    RedispatchedStatus(c.copy, a);
    hide RedispatchedRun;
  }

  lemma RedispatchedStatus(run: Run, a: Attempt)
    ensures RedispatchedRun(run, a, "research_dispatch_recovery").status == run.status
    ensures RedispatchedRun(run, a, "research_dispatch_recovery").triggers == run.triggers
  {
  }

  /** The whole loop loses no event if and only if every row it writes had gained none since its copy
      was read. */
  lemma RecoveryKeepsEventsIff(s: State, candidates: seq<Candidate>, attempts: seq<Attempt>, cutoff: Time)
    requires |attempts| == |candidates| && DistinctRuns(candidates)
    requires forall k :: 0 <= k < |candidates| ==> candidates[k].id in s.runs && candidates[k].copy.status == Queued
    ensures (forall r :: r in s.runs ==>
               var t := RecoveredAll(s, candidates, attempts, cutoff); r in t.runs && s.runs[r].triggers <= t.runs[r].triggers)
            <==> (forall k :: 0 <= k < |candidates| ==> KeepsEvents(s, candidates[k], attempts[k], cutoff))
  {
    hide LooksLost, TurnOf, RecoveredAll;
    var t := RecoveredAll(s, candidates, attempts, cutoff);
    forall k | 0 <= k < |candidates|
      ensures candidates[k].id in t.runs
      ensures KeepsEvents(s, candidates[k], attempts[k], cutoff)
              <==> s.runs[candidates[k].id].triggers <= t.runs[candidates[k].id].triggers
    {
      EachOnItsOwn(s, candidates, attempts, cutoff, k);
      TurnKeepsEvents(s, candidates[k], attempts[k], cutoff);
    }
    forall r | r in s.runs && !Among(candidates, r)
      ensures r in t.runs && s.runs[r].triggers <= t.runs[r].triggers
    {
      OnlyCandidates(s, candidates, attempts, cutoff, r);
    }
  }

  /** The candidate is left alone or refused, or its copy lists every event its row lists. */
  predicate KeepsEvents(s: State, c: Candidate, a: Attempt, cutoff: Time)
    requires c.id in s.runs
  {
    !Lost(s, c, cutoff) || !a.recorded || s.runs[c.id].status == Cancelled || s.runs[c.id].triggers <= c.copy.triggers
  }

  lemma TurnKeepsEvents(s: State, c: Candidate, a: Attempt, cutoff: Time)
    requires c.id in s.runs && c.copy.status == Queued
    ensures c.id in TurnOf(s, c, a, cutoff).runs
    ensures KeepsEvents(s, c, a, cutoff) <==> s.runs[c.id].triggers <= TurnOf(s, c, a, cutoff).runs[c.id].triggers
  {
    hide LooksLost, TurnOf;
    RowAfterTurn(s, c, a, cutoff);
    RedispatchedStatus(c.copy, a);
  }

  /** Candidates whose rows nobody has written since they were read, with fresh task ids. */
  ghost predicate Current(s: State, candidates: seq<Candidate>, attempts: seq<Attempt>) {
    && |attempts| == |candidates| && DistinctRuns(candidates)
    && (forall i, j :: 0 <= i < j < |attempts| ==> attempts[i].task != attempts[j].task)
    && (forall i :: 0 <= i < |candidates| ==>
          && candidates[i].id in s.runs && s.runs[candidates[i].id] == candidates[i].copy
          && candidates[i].copy.status == Queued && attempts[i].task !in s.issued)
  }

  /** Over such rows the loop by itself keeps all invariants of the store. */
  lemma {:induction false} RecoveryKeepsInv(s: State, candidates: seq<Candidate>, attempts: seq<Attempt>, cutoff: Time)
    requires Inv(s) && Current(s, candidates, attempts)
    ensures var t := RecoveredAll(s, candidates, attempts, cutoff); Inv(t) && Evolves(s, t)
  {
    hide Inv, Evolves, RecoveredFrom, LooksLost;
    if candidates == [] {
      EvolvesSelf(s);
    } else {
      var n := |candidates| - 1;
      var t, c := RecoveredAll(s, candidates[..n], attempts[..n], cutoff), candidates[n];
      RecoveryKeepsInv(s, candidates[..n], attempts[..n], cutoff);
      OnlyCandidates(s, candidates[..n], attempts[..n], cutoff, c.id);
      DrawnIds(s, candidates[..n], attempts[..n], cutoff);
      assert forall k :: 0 <= k < n ==> attempts[..n][k] == attempts[k];
      if Lost(t, c, cutoff) {
        StepKeepsInv(t, Recover(c.id, attempts[n]));
        EvolvesTwice(s, t, Recovered(t, c.id, attempts[n]));
      }
    }
  }

  lemma {:induction false} DrawnIds(s: State, candidates: seq<Candidate>, attempts: seq<Attempt>, cutoff: Time)
    requires |attempts| == |candidates|
    ensures forall task :: task in RecoveredAll(s, candidates, attempts, cutoff).issued
                           ==> task in s.issued || exists k :: 0 <= k < |attempts| && attempts[k].task == task
  {
    hide RecoveredFrom, LooksLost;
    if candidates != [] {
      var n := |candidates| - 1;
      DrawnIds(s, candidates[..n], attempts[..n], cutoff);
      RecoveryDraws(RecoveredAll(s, candidates[..n], attempts[..n], cutoff), candidates[n].id, candidates[n].copy, attempts[n]);
      assert forall k :: 0 <= k < n ==> attempts[..n][k] == attempts[k];
    }
  }

  lemma RecoveryDraws(s: State, id: RunId, copy: Run, a: Attempt)
    ensures RecoveredFrom(s, id, copy, a).issued == s.issued + {a.task}
  {
  }

  /** Scanned candidates were recovered, failed, or intact. */
  lemma {:induction false} TallyAddsUp(s: State, candidates: seq<Candidate>, attempts: seq<Attempt>, cutoff: Time)
    requires |attempts| == |candidates| && forall k :: 0 <= k < |attempts| ==> attempts[k].outcome != Crashed
    ensures var (scanned, recovered, failed) := Tally(s, candidates, attempts, cutoff);
            scanned <= |candidates| && recovered + failed + Intact(s, candidates, attempts, cutoff) == scanned
  {
    hide LooksLost, RecoveredAll;
    if candidates != [] {
      TallyAddsUp(s, candidates[..|candidates| - 1], attempts[..|candidates| - 1], cutoff);
    }
  }

  /** Candidates old enough whose dispatch is intact when their turn comes. */
  function Intact(s: State, candidates: seq<Candidate>, attempts: seq<Attempt>, cutoff: Time): nat
    requires |attempts| == |candidates|
  {
    if candidates == [] then 0
    else
      var n := |candidates| - 1;
      var c, t := candidates[n], RecoveredAll(s, candidates[..n], attempts[..n], cutoff);
      Intact(s, candidates[..n], attempts[..n], cutoff)
      + if c.copy.created <= cutoff && !LooksLost(t, c.id, c.copy) then 1 else 0
  }

  // Which candidates are republished, in terms of markers, task ids and last steps.

  /** The marker is missing or names another task than the copy, or the copy's last step is the loss of
      a worker's lease. */
  predicate Gone(markers: map<RunId, TaskId>, c: Candidate) {
    || c.id !in markers
    || c.copy.task != Some(markers[c.id])
    || (|c.copy.steps| > 0 && c.copy.steps[|c.copy.steps| - 1] == "research_lease_recovery")
  }

  function OldEnough(candidates: seq<Candidate>, cutoff: Time): set<int> {
    set k | 0 <= k < |candidates| && candidates[k].copy.created <= cutoff
  }

  /** The candidates to be republished whose attempt ends in one of these ways; without a marker it is
      refused. */
  function GoneWith(markers: map<RunId, TaskId>, candidates: seq<Candidate>, attempts: seq<Attempt>, cutoff: Time, outcomes: set<Outcome>): set<int>
    requires |attempts| == |candidates|
  {
    set k | 0 <= k < |candidates| && candidates[k].copy.created <= cutoff && Gone(markers, candidates[k])
            && (if attempts[k].recorded then attempts[k].outcome in outcomes else Refused in outcomes)
  }

  /** Nothing has been sent for the run since. */
  predicate NothingSent(s: State, t: State, r: RunId) {
    s.sent <= t.sent && forall i :: |s.sent| <= i < |t.sent| ==> t.sent[i].run != r
  }

  /** A candidate that is old enough and whose dispatch is gone ends under the attempt's task id, with
      its message sent and its marker in place, if the marker could be written, the message was
      sent and the row is not cancelled. Any other candidate keeps its row and marker, and nothing is
      sent for it. */
  ghost predicate Republished(s: State, t: State, candidates: seq<Candidate>, attempts: seq<Attempt>, cutoff: Time)
    requires |attempts| == |candidates|
  {
    forall k :: 0 <= k < |candidates| ==>
      var c, a := candidates[k], attempts[k];
      if c.copy.created <= cutoff && Gone(s.markers, c) then
        a.recorded && a.outcome == Sent ==>
          && c.id in t.markers && t.markers[c.id] == a.task && Message(c.id, a.task, a.instance) in t.sent
          && (c.copy.status == Queued && !(c.id in s.runs && s.runs[c.id].status == Cancelled) ==>
                c.id in t.runs
                && t.runs[c.id] == c.copy.(task := Some(a.task), instance := Some(a.instance),
                                             steps := c.copy.steps + ["research_dispatch_recovery"]))
      else SameRun(s, t, c.id) && NothingSent(s, t, c.id)
  }

  lemma GoneMeansLost(s: State, c: Candidate)
    ensures Gone(s.markers, c) <==> LooksLost(s, c.id, c.copy)
  {
  }

  /** The turns before that of a candidate do not decide whether it is lost. */
  lemma LostAtItsTurn(s: State, candidates: seq<Candidate>, attempts: seq<Attempt>, cutoff: Time, k: nat)
    requires |attempts| == |candidates| && DistinctRuns(candidates) && k < |candidates|
    ensures LooksLost(RecoveredAll(s, candidates[..k], attempts[..k], cutoff), candidates[k].id, candidates[k].copy)
            <==> Gone(s.markers, candidates[k])
  {
    var c := candidates[k];
    assert !Among(candidates[..k], c.id);
    OnlyCandidates(s, candidates[..k], attempts[..k], cutoff, c.id);
    GoneMeansLost(s, c);
    hide RecoveredAll;
  }

  lemma {:induction false} TallyCounts(s: State, candidates: seq<Candidate>, attempts: seq<Attempt>, cutoff: Time, n: nat)
    requires |attempts| == |candidates| && DistinctRuns(candidates) && n <= |candidates|
    ensures Tally(s, candidates[..n], attempts[..n], cutoff)
            == (|OldEnough(candidates[..n], cutoff)|,
                |GoneWith(s.markers, candidates[..n], attempts[..n], cutoff, {Sent})|,
                |GoneWith(s.markers, candidates[..n], attempts[..n], cutoff, {Refused, ErrorAfterSend})|)
  {
    if n > 0 {
      var i := n - 1;
      TallyCounts(s, candidates, attempts, cutoff, i);
      LostAtItsTurn(s, candidates, attempts, cutoff, i);
      hide LooksLost, RecoveredAll, Gone;
      assert candidates[..n][..i] == candidates[..i] && attempts[..n][..i] == attempts[..i];
      OneMoreOld(candidates, cutoff, i);
      OneMoreGone(s.markers, candidates, attempts, cutoff, {Sent}, i);
      OneMoreGone(s.markers, candidates, attempts, cutoff, {Refused, ErrorAfterSend}, i);
    }
  }

  lemma OneMoreOld(candidates: seq<Candidate>, cutoff: Time, i: nat)
    requires i < |candidates|
    ensures |OldEnough(candidates[..i + 1], cutoff)|
            == |OldEnough(candidates[..i], cutoff)| + if candidates[i].copy.created <= cutoff then 1 else 0
  {
    assert OldEnough(candidates[..i + 1], cutoff)
           == OldEnough(candidates[..i], cutoff) + if candidates[i].copy.created <= cutoff then {i as int} else {};
  }

  lemma OneMoreGone(markers: map<RunId, TaskId>, candidates: seq<Candidate>, attempts: seq<Attempt>, cutoff: Time, outcomes: set<Outcome>, i: nat)
    requires |attempts| == |candidates| && i < |candidates|
    ensures var more := candidates[i].copy.created <= cutoff && Gone(markers, candidates[i])
                        && (if attempts[i].recorded then attempts[i].outcome in outcomes else Refused in outcomes);
            |GoneWith(markers, candidates[..i + 1], attempts[..i + 1], cutoff, outcomes)|
            == |GoneWith(markers, candidates[..i], attempts[..i], cutoff, outcomes)| + if more then 1 else 0
  {
    hide Gone;
    var more := candidates[i].copy.created <= cutoff && Gone(markers, candidates[i])
                && (if attempts[i].recorded then attempts[i].outcome in outcomes else Refused in outcomes);
    assert GoneWith(markers, candidates[..i + 1], attempts[..i + 1], cutoff, outcomes)
           == GoneWith(markers, candidates[..i], attempts[..i], cutoff, outcomes) + if more then {i as int} else {};
  }

  lemma TurnSends(s: State, c: Candidate, a: Attempt, cutoff: Time)
    ensures var t := TurnOf(s, c, a, cutoff);
            t.sent == if Lost(s, c, cutoff) && a.recorded && a.outcome in {Sent, ErrorAfterSend}
                      then s.sent + [Message(c.id, a.task, a.instance)] else s.sent
  {
    hide LooksLost, RedispatchedRun;
  }

  /** Messages stay, and those of other candidates are about their own runs. */
  lemma {:induction false} LoopSends(s: State, candidates: seq<Candidate>, attempts: seq<Attempt>, cutoff: Time, k: nat)
    requires |attempts| == |candidates| && DistinctRuns(candidates) && k < |candidates|
    ensures var t := RecoveredAll(s, candidates, attempts, cutoff);
            && s.sent <= t.sent
            && (candidates[k].copy.created <= cutoff && Gone(s.markers, candidates[k]) && attempts[k].recorded && attempts[k].outcome == Sent
                ==> Message(candidates[k].id, attempts[k].task, attempts[k].instance) in t.sent)
            && (!(candidates[k].copy.created <= cutoff && Gone(s.markers, candidates[k])) ==> NothingSent(s, t, candidates[k].id))
  {
    hide LooksLost, Gone, TurnOf;
    var n := |candidates| - 1;
    var t := RecoveredAll(s, candidates[..n], attempts[..n], cutoff);
    TurnSends(t, candidates[n], attempts[n], cutoff);
    if k < n {
      LoopSends(s, candidates[..n], attempts[..n], cutoff, k);
    } else {
      LostAtItsTurn(s, candidates, attempts, cutoff, k);
      assert !Among(candidates[..n], candidates[n].id);
      OthersSend(s, candidates[..n], attempts[..n], cutoff, candidates[n].id);
    }
  }

  lemma {:induction false} OthersSend(s: State, candidates: seq<Candidate>, attempts: seq<Attempt>, cutoff: Time, r: RunId)
    requires |attempts| == |candidates| && !Among(candidates, r)
    ensures NothingSent(s, RecoveredAll(s, candidates, attempts, cutoff), r)
  {
    hide LooksLost, TurnOf;
    if candidates != [] {
      var n := |candidates| - 1;
      assert !Among(candidates[..n], r) && candidates[n].id != r;
      OthersSend(s, candidates[..n], attempts[..n], cutoff, r);
      TurnSends(RecoveredAll(s, candidates[..n], attempts[..n], cutoff), candidates[n], attempts[n], cutoff);
    }
  }

  lemma TurnRepublishes(s: State, c: Candidate, a: Attempt, cutoff: Time)
    requires c.copy.created <= cutoff && Gone(s.markers, c) && a.recorded && a.outcome == Sent
    ensures var t := TurnOf(s, c, a, cutoff);
            && c.id in t.markers && t.markers[c.id] == a.task
            && (c.copy.status == Queued && !(c.id in s.runs && s.runs[c.id].status == Cancelled) ==>
                  c.id in t.runs
                  && t.runs[c.id] == c.copy.(task := Some(a.task), instance := Some(a.instance),
                                               steps := c.copy.steps + ["research_dispatch_recovery"]))
  {
    GoneMeansLost(s, c);
    hide LooksLost, Gone;
  }

  /** What the loop as a whole does to distinct candidates, and how it counts them. */
  lemma WholeLoop(s: State, candidates: seq<Candidate>, attempts: seq<Attempt>, cutoff: Time)
    requires |attempts| == |candidates|
    ensures DistinctRuns(candidates) ==>
              && Republished(s, RecoveredAll(s, candidates, attempts, cutoff), candidates, attempts, cutoff)
              && Tally(s, candidates, attempts, cutoff)
                 == (|OldEnough(candidates, cutoff)|,
                     |GoneWith(s.markers, candidates, attempts, cutoff, {Sent})|,
                     |GoneWith(s.markers, candidates, attempts, cutoff, {Refused, ErrorAfterSend})|)
  {
    if DistinctRuns(candidates) {
      var t := RecoveredAll(s, candidates, attempts, cutoff);
      TallyCounts(s, candidates, attempts, cutoff, |candidates|);
      assert candidates[..|candidates|] == candidates && attempts[..|attempts|] == attempts;
      hide RecoveredAll, Tally, GoneWith, OldEnough, Gone, LooksLost, TurnOf;
      forall k | 0 <= k < |candidates|
        ensures var c, a := candidates[k], attempts[k];
                if c.copy.created <= cutoff && Gone(s.markers, c) then
                  a.recorded && a.outcome == Sent ==>
                    && c.id in t.markers && t.markers[c.id] == a.task && Message(c.id, a.task, a.instance) in t.sent
                    && (c.copy.status == Queued && !(c.id in s.runs && s.runs[c.id].status == Cancelled) ==>
                          c.id in t.runs
                          && t.runs[c.id] == c.copy.(task := Some(a.task), instance := Some(a.instance),
                                                       steps := c.copy.steps + ["research_dispatch_recovery"]))
                else SameRun(s, t, c.id) && NothingSent(s, t, c.id)
      {
        EachOnItsOwn(s, candidates, attempts, cutoff, k);
        LoopSends(s, candidates, attempts, cutoff, k);
        GoneMeansLost(s, candidates[k]);
        if candidates[k].copy.created <= cutoff && Gone(s.markers, candidates[k]) {
          if attempts[k].recorded && attempts[k].outcome == Sent {
            TurnRepublishes(s, candidates[k], attempts[k], cutoff);
          }
        } else {
          TurnLeaves(s, candidates[k], attempts[k], cutoff);
        }
      }
    }
  }

  lemma TurnLeaves(s: State, c: Candidate, a: Attempt, cutoff: Time)
    requires !Lost(s, c, cutoff)
    ensures TurnOf(s, c, a, cutoff) == s
  {
  }

  // ------------------------------------------------------------ the migration loop as a whole

  datatype Row = Row(id: RunId, run: Run)

  datatype MigrationAttempt = MigrationAttempt(a: Attempt, rerecorded: bool)

  datatype Verdict = AlreadyMigrated | NoEvent | Pending | NoLongerQueued | Requeued | MigrationFailed

  predicate FreshAttempts(s: State, attempts: seq<MigrationAttempt>) {
    && (forall i, j :: 0 <= i < j < |attempts| ==> attempts[i].a.task != attempts[j].a.task)
    && (forall i :: 0 <= i < |attempts| ==> attempts[i].a.task !in s.issued)
  }

  function VerdictOf(s: State, row: Row, events: set<EventId>, m: MigrationAttempt, apply: bool): Verdict {
    if Migrated(row.run) then AlreadyMigrated
    else if row.run.event.None? || row.run.event.value !in events then NoEvent
    else if !apply then Pending
    else if row.id !in s.runs || s.runs[row.id].status != Queued then NoLongerQueued
    else if Migrated(s.runs[row.id]) then AlreadyMigrated
    else if !m.a.recorded || Raised(m.a.outcome) then MigrationFailed
    else Requeued
  }

  function MigratedAll(s: State, rows: seq<Row>, events: set<EventId>, attempts: seq<MigrationAttempt>, apply: bool): State
    requires |attempts| == |rows|
  {
    if rows == [] then s
    else
      var n := |rows| - 1;
      var t := MigratedAll(s, rows[..n], events, attempts[..n], apply);
      if VerdictOf(t, rows[n], events, attempts[n], apply) in {Requeued, MigrationFailed}
      then MigratedState(t, rows[n].id, attempts[n].a, attempts[n].rerecorded) else t
  }

  /** What is reported for each row. */
  function Verdicts(s: State, rows: seq<Row>, events: set<EventId>, attempts: seq<MigrationAttempt>, apply: bool): (r: seq<Verdict>)
    requires |attempts| == |rows|
    ensures |r| == |rows|
  {
    if rows == [] then []
    else
      var n := |rows| - 1;
      Verdicts(s, rows[..n], events, attempts[..n], apply)
      + [VerdictOf(MigratedAll(s, rows[..n], events, attempts[..n], apply), rows[n], events, attempts[n], apply)]
  }

  // Which rows are redispatched, in terms of statuses, steps and events.

  predicate DistinctRows(rows: seq<Row>) {
    forall i, j :: 0 <= i < j < |rows| ==> rows[i].id != rows[j].id
  }

  /** A listed report that is not marked as migrated and whose event still exists. */
  predicate Listed(row: Row, events: set<EventId>) {
    "event_priority_migration" !in row.run.steps && row.run.event.Some? && row.run.event.value in events
  }

  /** The row as it is when its turn comes. */
  predicate Waiting(s: State, id: RunId) {
    id in s.runs && s.runs[id].status == Queued && "event_priority_migration" !in s.runs[id].steps
  }

  /** Exactly the listed rows that still wait are redispatched: they keep everything but task id,
      instance and the additional step, or, when that fails, everything. Nothing is changed or sent
      for any other row, and the verdict says why. */
  ghost predicate MigratedExactly(s: State, t: State, rows: seq<Row>, events: set<EventId>, attempts: seq<MigrationAttempt>,
                                  apply: bool, results: seq<Verdict>)
    requires |attempts| == |rows| == |results|
  {
    forall k :: 0 <= k < |rows| ==> MigratedRow(s, t, rows[k], events, attempts[k].a, apply, results[k])
  }

  ghost predicate MigratedRow(s: State, t: State, row: Row, events: set<EventId>, a: Attempt, apply: bool, verdict: Verdict) {
    if apply && Listed(row, events) && Waiting(s, row.id) then
      && row.id in t.runs
      && (a.recorded && a.outcome == Sent ==>
            && verdict == Requeued
            && t.runs[row.id] == s.runs[row.id].(task := Some(a.task), instance := Some(a.instance),
                                                 steps := s.runs[row.id].steps + ["event_priority_migration"])
            && row.id in t.markers && t.markers[row.id] == a.task && Message(row.id, a.task, a.instance) in t.sent)
      && (!a.recorded || a.outcome == Refused || a.outcome == ErrorAfterSend ==>
            verdict == MigrationFailed && t.runs[row.id] == s.runs[row.id])
      && (a.outcome != Sent && a.outcome != ErrorAfterSend ==> NothingSent(s, t, row.id))
    else
      && SameRun(s, t, row.id) && NothingSent(s, t, row.id)
      && verdict == if "event_priority_migration" in row.run.steps then AlreadyMigrated
                    else if !Listed(row, events) then NoEvent
                    else if !apply then Pending
                    else if row.id in s.runs && s.runs[row.id].status == Queued then AlreadyMigrated
                    else NoLongerQueued
  }

  /** One row's turn, from a state in which its run is as at the start and nothing was sent for it. */
  lemma MigrationTurn(s: State, t: State, row: Row, events: set<EventId>, m: MigrationAttempt, apply: bool)
    requires SameRun(s, t, row.id) && NothingSent(s, t, row.id)
    ensures var verdict := VerdictOf(t, row, events, m, apply);
            var u := if verdict in {Requeued, MigrationFailed} then (assert row.id in t.runs; MigratedState(t, row.id, m.a, m.rerecorded)) else t;
            MigratedRow(s, u, row, events, m.a, apply, verdict)
  {
    if VerdictOf(t, row, events, m, apply) in {Requeued, MigrationFailed} {
      VerdictMeansQueued(t, row, events, m, apply);
      MigratedAs(t, row.id, m.a, m.rerecorded);
      hide MigratedState;
    }
  }

  lemma MigratedAs(t: State, id: RunId, a: Attempt, rerecorded: bool)
    requires id in t.runs && t.runs[id].status == Queued
    ensures var u := MigratedState(t, id, a, rerecorded);
            && u.sent == (if a.recorded && a.outcome in {Sent, ErrorAfterSend} then t.sent + [Message(id, a.task, a.instance)] else t.sent)
            && id in u.runs
            && (if a.recorded && a.outcome in {Sent, Crashed}
                then u.runs[id] == t.runs[id].(task := Some(a.task), instance := Some(a.instance),
                                               steps := t.runs[id].steps + ["event_priority_migration"])
                     && id in u.markers && u.markers[id] == a.task
                else u.runs[id] == t.runs[id])
  {
  }

  lemma MigrationLocal(t: State, id: RunId, a: Attempt, rerecorded: bool, r: RunId)
    requires id in t.runs && r != id
    ensures SameRun(t, MigratedState(t, id, a, rerecorded), r) && NothingSent(t, MigratedState(t, id, a, rerecorded), r)
  {
    var run := t.runs[id];
    if a.recorded {
      DispatchedLocal(t, id, RedispatchedRun(run, a, "event_priority_migration"), run, a, r);
      DispatchedParts(t, id, RedispatchedRun(run, a, "event_priority_migration"), run, a);
    }
    hide Dispatched;
  }

  lemma SentOn(s: State, t: State, u: State, r: RunId)
    requires NothingSent(s, t, r) && NothingSent(t, u, r)
    ensures NothingSent(s, u, r)
  {
  }

  lemma {:induction false} OtherRowsSame(s: State, rows: seq<Row>, events: set<EventId>, attempts: seq<MigrationAttempt>, apply: bool, r: RunId)
    requires |attempts| == |rows| && forall k :: 0 <= k < |rows| ==> rows[k].id != r
    ensures SameRun(s, MigratedAll(s, rows, events, attempts, apply), r)
    ensures NothingSent(s, MigratedAll(s, rows, events, attempts, apply), r)
  {
    hide MigratedState, VerdictOf, SameRun, NothingSent;
    if rows == [] {
      SameSelf(s, r);
    } else {
      var n := |rows| - 1;
      var t := MigratedAll(s, rows[..n], events, attempts[..n], apply);
      OtherRowsSame(s, rows[..n], events, attempts[..n], apply, r);
      if VerdictOf(t, rows[n], events, attempts[n], apply) in {Requeued, MigrationFailed} {
        VerdictMeansQueued(t, rows[n], events, attempts[n], apply);
        MigrationLocal(t, rows[n].id, attempts[n].a, attempts[n].rerecorded, r);
        SameRunTwice(s, t, MigratedState(t, rows[n].id, attempts[n].a, attempts[n].rerecorded), r);
        SentOn(s, t, MigratedState(t, rows[n].id, attempts[n].a, attempts[n].rerecorded), r);
      }
    }
  }

  lemma SameSelf(s: State, r: RunId)
    ensures SameRun(s, s, r) && NothingSent(s, s, r)
  {
  }

  /** A later turn of another row changes nothing about this one. */
  lemma RowKept(s: State, t: State, u: State, row: Row, events: set<EventId>, a: Attempt, apply: bool, verdict: Verdict)
    requires MigratedRow(s, t, row, events, a, apply, verdict) && SameRun(t, u, row.id) && NothingSent(t, u, row.id)
    ensures MigratedRow(s, u, row, events, a, apply, verdict)
  {
    hide Listed, Waiting;
  }

  lemma {:induction false} WholeMigration(s: State, rows: seq<Row>, events: set<EventId>, attempts: seq<MigrationAttempt>, apply: bool)
    requires |attempts| == |rows|
    ensures DistinctRows(rows) ==>
              MigratedExactly(s, MigratedAll(s, rows, events, attempts, apply), rows, events, attempts, apply,
                              Verdicts(s, rows, events, attempts, apply))
  {
    hide MigratedState, VerdictOf, SameRun, NothingSent, MigratedRow;
    if rows != [] && DistinctRows(rows) {
      var n := |rows| - 1;
      var row, m := rows[n], attempts[n];
      var t := MigratedAll(s, rows[..n], events, attempts[..n], apply);
      var u := MigratedAll(s, rows, events, attempts, apply);
      var results := Verdicts(s, rows, events, attempts, apply);
      WholeMigration(s, rows[..n], events, attempts[..n], apply);
      OtherRowsSame(s, rows[..n], events, attempts[..n], apply, row.id);
      MigrationTurn(s, t, row, events, m, apply);
      forall k | 0 <= k < n
        ensures MigratedRow(s, u, rows[k], events, attempts[k].a, apply, results[k])
      {
        assert rows[..n][k] == rows[k] && attempts[..n][k] == attempts[k];
        assert MigratedRow(s, t, rows[k], events, attempts[k].a, apply, results[k]);
        if VerdictOf(t, row, events, m, apply) in {Requeued, MigrationFailed} {
          VerdictMeansQueued(t, row, events, m, apply);
          MigrationLocal(t, row.id, m.a, m.rerecorded, rows[k].id);
          RowKept(s, t, u, rows[k], events, attempts[k].a, apply, results[k]);
        }
      }
    }
  }

  /** Without --apply nothing changes. */
  lemma {:induction false} DryRunChangesNothing(s: State, rows: seq<Row>, events: set<EventId>, attempts: seq<MigrationAttempt>)
    requires |attempts| == |rows|
    ensures MigratedAll(s, rows, events, attempts, false) == s
  {
    hide MigratedState;
    if rows != [] {
      DryRunChangesNothing(s, rows[..|rows| - 1], events, attempts[..|rows| - 1]);
    }
  }

  lemma {:induction false} DrawnByMigration(s: State, rows: seq<Row>, events: set<EventId>, attempts: seq<MigrationAttempt>, apply: bool)
    requires |attempts| == |rows|
    ensures forall task :: task in MigratedAll(s, rows, events, attempts, apply).issued
                           ==> task in s.issued || exists k :: 0 <= k < |rows| && attempts[k].a.task == task
  {
    hide MigratedState, VerdictOf;
    if rows != [] {
      var n := |rows| - 1;
      DrawnByMigration(s, rows[..n], events, attempts[..n], apply);
      assert forall k :: 0 <= k < n ==> attempts[..n][k] == attempts[k];
      var t := MigratedAll(s, rows[..n], events, attempts[..n], apply);
      if VerdictOf(t, rows[n], events, attempts[n], apply) in {Requeued, MigrationFailed} {
        VerdictMeansQueued(t, rows[n], events, attempts[n], apply);
        MigrationDraws(t, rows[n].id, attempts[n].a, attempts[n].rerecorded);
      }
    }
  }

  lemma VerdictMeansQueued(s: State, row: Row, events: set<EventId>, m: MigrationAttempt, apply: bool)
    requires VerdictOf(s, row, events, m, apply) in {Requeued, MigrationFailed}
    ensures row.id in s.runs && s.runs[row.id].status == Queued && !Migrated(s.runs[row.id])
  {
  }

  lemma MigrationDraws(s: State, id: RunId, a: Attempt, rerecorded: bool)
    requires id in s.runs
    ensures MigratedState(s, id, a, rerecorded).issued == s.issued + {a.task}
  {
  }

  /** Migrating is a sequence of permitted steps too: whatever the list of rows says, only queued
      event reports not yet migrated are republished, and all invariants survive. */
  lemma {:induction false} MigrationKeepsInv(s: State, rows: seq<Row>, events: set<EventId>, attempts: seq<MigrationAttempt>, apply: bool)
    requires Inv(s) && |attempts| == |rows| && FreshAttempts(s, attempts)
    requires forall k :: 0 <= k < |rows| && rows[k].id in s.runs ==> s.runs[rows[k].id].kind.EventRun?
    requires forall k :: 0 <= k < |rows| ==> rows[k].id in s.runs
    ensures var t := MigratedAll(s, rows, events, attempts, apply); Inv(t) && Evolves(s, t)
  {
    hide Inv, MigratedState, VerdictOf, Evolves, Migrated;
    if rows == [] {
      EvolvesSelf(s);
    } else {
      var n := |rows| - 1;
      var row, m := rows[n], attempts[n];
      var t := MigratedAll(s, rows[..n], events, attempts[..n], apply);
      MigrationKeepsInv(s, rows[..n], events, attempts[..n], apply);
      DrawnByMigration(s, rows[..n], events, attempts[..n], apply);
      assert forall k :: 0 <= k < n ==> attempts[..n][k] == attempts[k];
      assert m.a.task !in t.issued;
      if VerdictOf(t, row, events, m, apply) in {Requeued, MigrationFailed} {
        VerdictMeansQueued(t, row, events, m, apply);
        KindStays(s, t, row.id);
        StepKeepsInv(t, Migrate(row.id, m.a, m.rerecorded));
        EvolvesTwice(s, t, MigratedState(t, row.id, m.a, m.rerecorded));
      }
    }
  }

  lemma KindStays(s: State, t: State, id: RunId)
    requires Evolves(s, t) && id in s.runs
    ensures id in t.runs && t.runs[id].kind == s.runs[id].kind
  {
  }

  /** A migrated run leaves all its earlier messages superseded. */
  lemma MigrationSupersedes(s: State, row: Row, events: set<EventId>, m: MigrationAttempt, earlier: Message)
    requires Inv(s) && m.a.task !in s.issued && earlier in s.sent && earlier.run == row.id
    requires VerdictOf(s, row, events, m, true) == Requeued
    ensures var t := MigratedState(s, row.id, m.a, m.rerecorded);
            row.id in t.runs && Superseded(t, earlier) && Migrated(t.runs[row.id])
  {
    assert Known(s, earlier);
  }
}
