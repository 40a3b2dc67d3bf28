/** Research runs: admission with coalescing, dispatch markers, fencing of superseded tasks,
    recovery and redispatch. Here every operation is described as one step, as it is when nobody
    interrupts it; the modules after this one let other processes act in between. */
module Research {
  import opened Common

  type RunId = nat
  type TaskId = nat
  type EventId = nat
  type Time = int

  datatype RunStatus = Queued | Running | Verifying | Completed | InsufficientEvidence | Failed | Coalesced | Cancelled

  datatype Kind = AssetRun(asset: string) | EventRun

  datatype Run = Run(
    kind: Kind,
    event: Option<EventId>,
    triggers: seq<EventId>,
    status: RunStatus,
    task: Option<TaskId>,
    instance: Option<string>,
    mergedInto: Option<RunId>,
    steps: seq<string>,
    created: Time,
    error: bool,
    retries: nat,
    report: Option<string>,
    archive: seq<string>)

  datatype Message = Message(run: RunId, task: TaskId, instance: string)

  /** Database rows, dispatch markers, everything ever handed to the broker, and every task id ever
      drawn. */
  datatype State = State(runs: map<RunId, Run>, markers: map<RunId, TaskId>, sent: seq<Message>, issued: set<TaskId>)

  predicate Active(s: RunStatus) { s == Queued || s == Running || s == Verifying }

  // ------------------------------------------------------------ requests and attempts

  datatype Request = Request(
    asset: string,
    event: Option<EventId>,
    historical: bool,
    retryOf: Option<RunId>,
    refreshDays: Option<nat>,
    force: bool,
    created: Time)

  predicate Ordinary(q: Request) {
    q.event.Some? && !q.historical && q.retryOf.None? && q.refreshDays.None? && !q.force
  }

  /** How a publication ends; a process may also stop before it, or hear an error although the
      broker took the message. */
  datatype Outcome = Sent | Refused | ErrorAfterSend | Crashed

  /** A dispatch: a fresh task id, the chosen instance, whether the marker could be written, and how
      publishing ended. */
  datatype Attempt = Attempt(task: TaskId, instance: string, recorded: bool, outcome: Outcome)

  predicate Reached(o: Outcome) { o == Sent || o == ErrorAfterSend }

  predicate Raised(o: Outcome) { o == Refused || o == ErrorAfterSend }

  // ------------------------------------------------------------ storage helpers

  /** Saving a run; a cancelled row only accepts a cancelled run. */
  function Saved(s: State, id: RunId, run: Run): State {
    if id in s.runs && s.runs[id].status == Cancelled && run.status != Cancelled then s
    else s.(runs := s.runs[id := run])
  }

  function Marked(s: State, id: RunId, task: TaskId): State { s.(markers := s.markers[id := task]) }

  function Unmarked(s: State, id: RunId, task: TaskId): State {
    if id in s.markers && s.markers[id] == task then s.(markers := s.markers - {id}) else s
  }

  function Published(s: State, id: RunId, a: Attempt): State {
    s.(sent := s.sent + [Message(id, a.task, a.instance)])
  }

  /** Save the queued run under the new task id, record the marker, publish; `failed` is the run to
      save when publishing raises. */
  function Dispatched(s: State, id: RunId, run: Run, failed: Run, a: Attempt): State {
    var saved := Saved(s, id, run).(issued := s.issued + {a.task});
    var marked := if a.recorded then Marked(saved, id, a.task) else saved;
    var sent := if Reached(a.outcome) then Published(marked, id, a) else marked;
    if Raised(a.outcome) then Saved(if a.recorded then Unmarked(sent, id, a.task) else sent, id, failed) else sent
  }

  // ------------------------------------------------------------ run records

  function NewRun(q: Request, task: Option<TaskId>, instance: Option<string>, phase: string): Run {
    Run(AssetRun(q.asset), q.event, if q.event.Some? then [q.event.value] else [], Queued, task, instance, None,
        [phase], q.created, false, 0, None, [])
  }

  function WithTrigger(run: Run, event: EventId): Run {
    if event in run.triggers then run
    else run.(triggers := run.triggers + [event], steps := run.steps + ["research_coalescing"])
  }

  function Merged(q: Request, active: RunId, task: Option<TaskId>): Run
    requires q.event.Some?
  {
    NewRun(q, task, None, "research_coalescing").(status := Coalesced, mergedInto := Some(active))
  }

  function FailedRun(run: Run, phase: string): Run {
    run.(status := Failed, error := true, steps := run.steps + [phase])
  }

  function NewReport(event: EventId, a: Attempt, created: Time): Run {
    Run(EventRun, Some(event), [event], Queued, Some(a.task), Some(a.instance), None, ["event_research_queue"],
        created, false, 0, None, [])
  }

  function RetriedRun(run: Run, a: Attempt): Run {
    run.(status := Queued, retries := run.retries + 1, report := None, error := false, task := Some(a.task),
         instance := Some(a.instance), steps := run.steps + ["event_research_retry_queue"])
  }

  /** The published report goes to the archive, unless it is already the last one there. */
  function RefreshedRun(run: Run, a: Attempt): Run {
    var archive := if run.report.Some? && (run.archive == [] || run.archive[|run.archive| - 1] != run.report.value)
                   then run.archive + [run.report.value] else run.archive;
    run.(archive := archive, status := Queued, error := false, task := Some(a.task), instance := Some(a.instance),
         steps := run.steps + ["forced_event_research_queue"])
  }

  function UnrefreshedRun(before: Run, a: Attempt): Run {
    RefreshedRun(before, a).(status := before.status, task := before.task, error := true,
                             steps := RefreshedRun(before, a).steps + ["forced_event_research_queue"])
  }

  function RedispatchedRun(run: Run, a: Attempt, phase: string): Run {
    run.(task := Some(a.task), instance := Some(a.instance), steps := run.steps + [phase])
  }

  predicate LeaseExpired(run: Run) {
    run.steps != [] && run.steps[|run.steps| - 1] == "research_lease_recovery"
  }

  /** For the copy a process has read: the marker is missing or names another task, or the last thing
      that happened to the run was the loss of its worker's lease. */
  predicate LooksLost(s: State, id: RunId, copy: Run) {
    !(id in s.markers && copy.task == Some(s.markers[id])) || LeaseExpired(copy)
  }

  predicate NeedsRecovery(s: State, id: RunId)
    requires id in s.runs
  {
    LooksLost(s, id, s.runs[id])
  }

  predicate Migrated(run: Run) { "event_priority_migration" in run.steps }

  // ------------------------------------------------------------ steps

  datatype Step =
    | Enqueue(q: Request, active: Option<RunId>, cooling: bool, id: RunId, a: Attempt)
    | Reserve(q: Request, active: Option<RunId>, cooling: bool, id: RunId)
    | Report(event: EventId, existing: Option<RunId>, created: Time, id: RunId, a: Attempt)
    | Retry(id: RunId, a: Attempt)
    | Refresh(id: RunId, a: Attempt)
    | Deliver(m: Message)
    | Progress(id: RunId, status: RunStatus)
    | CancelRun(id: RunId)
    | Requeue(id: RunId)
    | Recover(id: RunId, a: Attempt)
    | Migrate(id: RunId, a: Attempt, rerecorded: bool)
    | LoseMarker(id: RunId)

  predicate ActiveFor(s: State, asset: string, id: RunId) {
    id in s.runs && s.runs[id].kind == AssetRun(asset) && Active(s.runs[id].status)
  }

  /** What the query for the asset's active run answers: some such run, or that there is none. */
  ghost predicate Answers(s: State, asset: string, active: Option<RunId>) {
    match active
    case Some(r) => ActiveFor(s, asset, r)
    case None => forall r :: !ActiveFor(s, asset, r)
  }

  predicate Superseded(s: State, m: Message)
    requires m.run in s.runs
  {
    s.runs[m.run].task.Some? && s.runs[m.run].task != Some(m.task)
  }

  /** A run whose status already answers a delivery. */
  predicate Answered(run: Run) {
    if run.kind.AssetRun? then run.status in {Coalesced, Cancelled}
    else run.status in {Completed, InsufficientEvidence, Cancelled}
  }

  function Started(s: State, m: Message): State
    requires m.run in s.runs
  {
    Saved(s, m.run, s.runs[m.run].(instance := Some(m.instance), status := Running))
  }

  /** When a step can happen. The last two cases state what is taken for granted: a current asset
      task that is delivered belongs to a run that has not ended, and a worker only reports on a run
      that is still active. */
  ghost predicate Enabled(s: State, step: Step) {
    match step
    case Enqueue(q, active, _, id, a) => id !in s.runs && a.task !in s.issued && Answers(s, q.asset, active)
    case Reserve(q, active, _, id) => id !in s.runs && Answers(s, q.asset, active)
    case Report(_, existing, _, id, a) => id !in s.runs && a.task !in s.issued && (existing.Some? ==> existing.value in s.runs)
    case Retry(id, a) => id in s.runs && s.runs[id].kind.EventRun? && a.task !in s.issued
    case Refresh(id, a) => id in s.runs && s.runs[id].kind.EventRun? && a.task !in s.issued
    case CancelRun(id) => id in s.runs && (Active(s.runs[id].status) || s.runs[id].status == Failed)
    case Requeue(id) => id in s.runs && s.runs[id].status in {Running, Verifying}
    case Recover(id, a) => id in s.runs && s.runs[id].status == Queued && NeedsRecovery(s, id) && a.task !in s.issued
    case Migrate(id, a, _) =>
      id in s.runs && s.runs[id].kind.EventRun? && s.runs[id].status == Queued && !Migrated(s.runs[id]) && a.task !in s.issued
    case LoseMarker(id) => id in s.markers
    case Deliver(m) =>
      m in s.sent && m.run in s.runs
      && (s.runs[m.run].kind.AssetRun? && !Superseded(s, m) ==> s.runs[m.run].status !in {Completed, InsufficientEvidence, Failed})
    case Progress(id, status) =>
      id in s.runs && Active(s.runs[id].status) && status !in {Coalesced, Cancelled}
  }

  function Enqueued(s: State, q: Request, active: Option<RunId>, cooling: bool, id: RunId, a: Attempt): State
    requires active.Some? ==> active.value in s.runs
  {
    if active.Some? && Ordinary(q) then
      var run := s.runs[active.value];
      var joined := if q.event.value in run.triggers then s else Saved(s, active.value, WithTrigger(run, q.event.value));
      Saved(joined, id, Merged(q, active.value, run.task))
    else if active.Some? || (cooling && q.retryOf.None? && !q.force) then s
    else
      var run := NewRun(q, Some(a.task), Some(a.instance), "research_queue");
      Dispatched(s, id, run, FailedRun(run, "research_queue"), a)
  }

  /** One recovery, from the copy of the row that the process has read. */
  function RecoveredFrom(s: State, id: RunId, copy: Run, a: Attempt): State {
    if !a.recorded then s.(issued := s.issued + {a.task})
    else Dispatched(s, id, RedispatchedRun(copy, a, "research_dispatch_recovery"), copy, a)
  }

  function Recovered(s: State, id: RunId, a: Attempt): State
    requires id in s.runs
  {
    RecoveredFrom(s, id, s.runs[id], a)
  }

  /** A migration that cannot record its marker counts as failed; a failure also tries to put the
      marker of the previous task back. */
  function MigratedState(s: State, id: RunId, a: Attempt, rerecorded: bool): State
    requires id in s.runs
  {
    var run := s.runs[id];
    var tried := if a.recorded then Dispatched(s, id, RedispatchedRun(run, a, "event_priority_migration"), run, a)
                 else Unmarked(s, id, a.task).(issued := s.issued + {a.task});
    if (!a.recorded || Raised(a.outcome)) && run.task.Some? && rerecorded then Marked(tried, id, run.task.value) else tried
  }

  function Apply(s: State, step: Step): State
    requires Enabled(s, step)
  {
    match step
    case Enqueue(q, active, cooling, id, a) => Enqueued(s, q, active, cooling, id, a)
    case Reserve(q, active, cooling, id) =>
      if active.Some? || cooling then s else Saved(s, id, NewRun(q, None, None, "research_queue"))
    case Report(event, existing, created, id, a) =>
      if existing.Some? then s
      else
        var run := NewReport(event, a, created);
        Dispatched(s, id, run, FailedRun(run, "event_research_queue"), a)
    case Retry(id, a) =>
      var run := RetriedRun(s.runs[id], a);
      Dispatched(s, id, run, FailedRun(run, "event_research_retry_queue"), a)
    case Refresh(id, a) => Dispatched(s, id, RefreshedRun(s.runs[id], a), UnrefreshedRun(s.runs[id], a), a)
    case Deliver(m) => if Superseded(s, m) || Answered(s.runs[m.run]) then s else Started(s, m)
    case Progress(id, status) => Saved(s, id, s.runs[id].(status := status))
    case CancelRun(id) =>
      Saved(s, id, s.runs[id].(status := Cancelled, error := false, steps := s.runs[id].steps + ["research_cancelled"]))
    case Requeue(id) =>
      Saved(s, id, s.runs[id].(status := Queued, error := false, steps := s.runs[id].steps + ["research_lease_recovery"]))
    case Recover(id, a) => Recovered(s, id, a)
    case Migrate(id, a, rerecorded) => MigratedState(s, id, a, rerecorded)
    case LoseMarker(id) => s.(markers := s.markers - {id})
  }

  const Initial := State(map[], map[], [], {})

  // ------------------------------------------------------------ invariants

  /** Each asset has at most one run that is queued, running or verifying. */
  ghost predicate OneActive(s: State) {
    forall r, t, asset {:trigger ActiveFor(s, asset, r), ActiveFor(s, asset, t)} ::
      ActiveFor(s, asset, r) && ActiveFor(s, asset, t) ==> r == t
  }

  predicate NoDuplicates(events: seq<EventId>) {
    forall i, j :: 0 <= i < j < |events| ==> events[i] != events[j]
  }

  predicate OwnTrigger(run: Run) {
    NoDuplicates(run.triggers) && (run.event.Some? ==> run.event.value in run.triggers)
  }

  /** Trigger lists have no repetition and contain the run's own event. */
  ghost predicate TriggersOnce(s: State) {
    forall r :: r in s.runs ==> OwnTrigger(s.runs[r])
  }

  /** A merged run points directly at a run of the same asset that is not merged itself and that
      lists the merged run's event. */
  predicate PointsWell(runs: map<RunId, Run>, run: Run) {
    run.status == Coalesced ==>
      && run.kind.AssetRun? && run.event.Some? && run.mergedInto.Some? && run.mergedInto.value in runs
      && var target := runs[run.mergedInto.value];
         target.kind == run.kind && target.status != Coalesced && run.event.value in target.triggers
  }

  ghost predicate MergedPointWell(s: State) {
    forall r :: r in s.runs ==> PointsWell(s.runs, s.runs[r])
  }

  predicate Known(s: State, m: Message) {
    m.run in s.runs && m.task in s.issued
  }

  /** Every id in use was drawn, every message belongs to a run, and no id was ever sent twice. */
  ghost predicate TasksDrawn(s: State) {
    && (forall r :: r in s.runs && s.runs[r].task.Some? ==> s.runs[r].task.value in s.issued)
    && (forall m :: m in s.sent ==> Known(s, m))
    && (forall i, j :: 0 <= i < j < |s.sent| ==> s.sent[i].task != s.sent[j].task)
  }

  ghost predicate Inv(s: State) {
    OneActive(s) && TriggersOnce(s) && MergedPointWell(s) && TasksDrawn(s)
  }

  /** How a record may develop. */
  ghost predicate Continues(a: Run, b: Run) {
    && a.kind == b.kind && a.event == b.event && a.mergedInto == b.mergedInto
    && (a.status == Coalesced <==> b.status == Coalesced)
    && (a.status == Cancelled ==> b.status == Cancelled)
    && a.triggers <= b.triggers
    && (NoDuplicates(a.triggers) ==> NoDuplicates(b.triggers))
  }

  predicate TaskOf(s: State, t: State, before: Option<TaskId>, after: Option<TaskId>) {
    after == before || (after.Some? && after.value !in s.issued && after.value in t.issued)
  }

  ghost predicate OthersSame(s: State, t: State, id: RunId) {
    forall r :: r != id ==> (r in s.runs <==> r in t.runs) && (r in s.runs ==> s.runs[r] == t.runs[r])
  }

  /** A permitted change of the one record `id`. */
  ghost predicate Change(s: State, t: State, id: RunId) {
    && OthersSame(s, t, id) && s.issued <= t.issued
    && (id in s.runs ==>
          id in t.runs && Continues(s.runs[id], t.runs[id]) && TaskOf(s, t, s.runs[id].task, t.runs[id].task))
    && (id in t.runs && id !in s.runs ==>
          && OwnTrigger(t.runs[id]) && PointsWell(s.runs, t.runs[id])
          && (t.runs[id].task.Some? ==> t.runs[id].task.value in t.issued))
    && (id in t.runs && t.runs[id].kind.AssetRun? && Active(t.runs[id].status) ==>
          ActiveFor(s, t.runs[id].kind.asset, id) || forall r :: !ActiveFor(s, t.runs[id].kind.asset, r))
  }

  /** At most one message is added, under an id never drawn before. */
  ghost predicate Sends(s: State, t: State, id: RunId) {
    || t.sent == s.sent
    || exists m: Message :: t.sent == s.sent + [m] && m.run == id && m.task !in s.issued && Known(t, m)
  }

  /** Every existing record develops as permitted. */
  ghost predicate Evolves(s: State, t: State) {
    && s.issued <= t.issued
    && forall r :: r in s.runs ==>
         r in t.runs && Continues(s.runs[r], t.runs[r]) && TaskOf(s, t, s.runs[r].task, t.runs[r].task)
  }

  lemma EvolvesTwice(s: State, t: State, u: State)
    requires Evolves(s, t) && Evolves(t, u)
    ensures Evolves(s, u)
  {
    hide NoDuplicates;
  }

  lemma ChangeKeepsOneActive(s: State, t: State, id: RunId)
    requires OneActive(s) && Change(s, t, id)
    ensures OneActive(t)
  {
    forall r, u, asset | ActiveFor(t, asset, r) && ActiveFor(t, asset, u)
      ensures r == u
    {
      if r != id {
        assert ActiveFor(s, asset, r);
      }
      if u != id {
        assert ActiveFor(s, asset, u);
      }
    }
  }

  lemma ChangeKeepsTriggers(s: State, t: State, id: RunId)
    requires TriggersOnce(s) && Change(s, t, id)
    ensures TriggersOnce(t)
  {
  }

  lemma ChangeKeepsPointers(s: State, t: State, id: RunId)
    requires MergedPointWell(s) && Change(s, t, id)
    ensures MergedPointWell(t)
  {
    hide NoDuplicates, ActiveFor, OwnTrigger;
    forall r | r in t.runs
      ensures PointsWell(t.runs, t.runs[r])
    {
      if r in s.runs {
        assert PointsWell(s.runs, s.runs[r]);
      }
    }
  }

  lemma ChangeKeepsTasks(s: State, t: State, id: RunId)
    requires TasksDrawn(s) && Change(s, t, id) && Sends(s, t, id)
    ensures TasksDrawn(t)
  {
    hide NoDuplicates, ActiveFor, OwnTrigger, PointsWell;
    forall m | m in s.sent
      ensures Known(t, m)
    {
      assert Known(s, m);
    }
    forall i, j | 0 <= i < j < |t.sent|
      ensures t.sent[i].task != t.sent[j].task
    {
      if j == |s.sent| {
        assert s.sent[i] in s.sent && Known(s, s.sent[i]);
      }
    }
  }

  lemma ChangeKeepsInv(s: State, t: State, id: RunId)
    requires Inv(s) && Change(s, t, id) && Sends(s, t, id)
    ensures Inv(t) && Evolves(s, t)
  {
    assert Evolves(s, t) by { hide NoDuplicates, Sends, PointsWell, OwnTrigger, ActiveFor, Inv; }
    hide Evolves, Change, Sends, OneActive, TriggersOnce, MergedPointWell, TasksDrawn;
    ChangeKeepsOneActive(s, t, id);
    ChangeKeepsTriggers(s, t, id);
    ChangeKeepsPointers(s, t, id);
    ChangeKeepsTasks(s, t, id);
  }

  // ------------------------------------------------------------ every step is a permitted change

  /** The state after a dispatch, whatever happened to it. */
  lemma DispatchedParts(s: State, id: RunId, run: Run, failed: Run, a: Attempt)
    ensures var t := Dispatched(s, id, run, failed, a);
            && t.issued == s.issued + {a.task}
            && t.sent == (if Reached(a.outcome) then s.sent + [Message(id, a.task, a.instance)] else s.sent)
            && t.runs == (if Raised(a.outcome) then Saved(Saved(s, id, run), id, failed) else Saved(s, id, run)).runs
  {
  }

  /** A dispatch that creates a record, or moves an existing one to its new task id. */
  lemma DispatchedChanges(s: State, id: RunId, run: Run, failed: Run, a: Attempt)
    requires a.task !in s.issued && run.status != Cancelled && failed.status != Cancelled
    requires run.status != Coalesced && failed.status != Coalesced
    requires run.task == Some(a.task)
    requires id in s.runs ==>
               && s.runs[id].status != Coalesced
               && Continues(s.runs[id].(status := Queued), run.(status := Queued))
               && Continues(s.runs[id].(status := Queued), failed.(status := Queued))
               && (failed.task == s.runs[id].task || failed.task == run.task)
    requires id !in s.runs ==> OwnTrigger(run) && OwnTrigger(failed) && failed.task == run.task
    requires run.kind == failed.kind
    requires run.kind.AssetRun? ==>
               ActiveFor(s, run.kind.asset, id) || forall r :: !ActiveFor(s, run.kind.asset, r)
    ensures var t := Dispatched(s, id, run, failed, a); Change(s, t, id) && Sends(s, t, id)
  {
    hide Dispatched, NoDuplicates, OwnTrigger;
    DispatchedParts(s, id, run, failed, a);
    var t := Dispatched(s, id, run, failed, a);
    if Reached(a.outcome) {
      assert Known(t, Message(id, a.task, a.instance));
    }
  }

  lemma NewRunChanges(s: State, q: Request, id: RunId, a: Attempt)
    requires Inv(s) && id !in s.runs && a.task !in s.issued && Answers(s, q.asset, None)
    ensures var run := NewRun(q, Some(a.task), Some(a.instance), "research_queue");
            var t := Dispatched(s, id, run, FailedRun(run, "research_queue"), a);
            Change(s, t, id) && Sends(s, t, id)
  {
    hide Dispatched, Change, Sends, Inv;
    var run := NewRun(q, Some(a.task), Some(a.instance), "research_queue");
    DispatchedChanges(s, id, run, FailedRun(run, "research_queue"), a);
  }

  lemma JoinChanges(s: State, asset: string, active: RunId, event: EventId)
    requires Inv(s) && ActiveFor(s, asset, active)
    ensures var joined := Saved(s, active, WithTrigger(s.runs[active], event));
            && Change(s, joined, active) && Sends(s, joined, active)
            && ActiveFor(joined, asset, active) && event in joined.runs[active].triggers
            && joined.runs[active].task == s.runs[active].task
  {
    assert OwnTrigger(s.runs[active]) && PointsWell(s.runs, s.runs[active]);
  }

  lemma MergedChanges(s: State, q: Request, active: RunId, id: RunId)
    requires Inv(s) && id !in s.runs && Ordinary(q) && ActiveFor(s, q.asset, active)
    requires q.event.value in s.runs[active].triggers
    ensures var t := Saved(s, id, Merged(q, active, s.runs[active].task)); Change(s, t, id) && Sends(s, t, id)
  {
    hide OneActive, TriggersOnce;
  }

  /** A request that joins the active run changes that run and adds a record pointing to it. */
  lemma MergeKeepsInv(s: State, q: Request, active: RunId, id: RunId)
    requires Inv(s) && id !in s.runs && Ordinary(q) && ActiveFor(s, q.asset, active)
    ensures var run := s.runs[active];
            var joined := Saved(s, active, WithTrigger(run, q.event.value));
            var t := Saved(joined, id, Merged(q, active, run.task));
            Inv(joined) && Inv(t) && Evolves(s, joined) && Evolves(joined, t)
  {
    hide Inv, Change, Sends, Evolves, WithTrigger, Merged;
    var run := s.runs[active];
    var joined := Saved(s, active, WithTrigger(run, q.event.value));
    JoinChanges(s, q.asset, active, q.event.value);
    ChangeKeepsInv(s, joined, active);
    MergedChanges(joined, q, active, id);
    ChangeKeepsInv(joined, Saved(joined, id, Merged(q, active, run.task)), id);
  }

  lemma EnqueueKeepsInv(s: State, q: Request, active: Option<RunId>, cooling: bool, id: RunId, a: Attempt)
    requires Inv(s) && id !in s.runs && a.task !in s.issued && Answers(s, q.asset, active)
    ensures var t := Enqueued(s, q, active, cooling, id, a); Inv(t) && Evolves(s, t)
  {
    hide Evolves, Inv, Dispatched, NewRun, FailedRun, Merged;
    if active.Some? && Ordinary(q) {
      MergeKeepsInv(s, q, active.value, id);
      var run := s.runs[active.value];
      var joined := Saved(s, active.value, WithTrigger(run, q.event.value));
      EvolvesTwice(s, joined, Saved(joined, id, Merged(q, active.value, run.task)));
      if q.event.value in run.triggers {
        assert s.runs[active.value := run] == s.runs;
        assert Saved(s, active.value, WithTrigger(run, q.event.value)) == s;
      }
    } else if active.Some? || (cooling && q.retryOf.None? && !q.force) {
      EvolvesSelf(s);
    } else {
      NewRunChanges(s, q, id, a);
      ChangeKeepsInv(s, Enqueued(s, q, active, cooling, id, a), id);
    }
  }

  /** The dispatches of event reports, and the redispatches of queued runs. */
  lemma RedispatchChanges(s: State, step: Step)
    requires Inv(s) && Enabled(s, step)
    requires step.Retry? || step.Refresh? || (step.Recover? && step.a.recorded) || (step.Migrate? && step.a.recorded)
    ensures var run := s.runs[step.id];
            var t := match step
                     case Retry(_, a) => Dispatched(s, step.id, RetriedRun(run, a), FailedRun(RetriedRun(run, a), "event_research_retry_queue"), a)
                     case Refresh(_, a) => Dispatched(s, step.id, RefreshedRun(run, a), UnrefreshedRun(run, a), a)
                     case Recover(_, a) => Dispatched(s, step.id, RedispatchedRun(run, a, "research_dispatch_recovery"), run, a)
                     case Migrate(_, a, _) => Dispatched(s, step.id, RedispatchedRun(run, a, "event_priority_migration"), run, a)
                     case _ => s;
            Change(s, t, step.id) && Sends(s, t, step.id)
  {
    hide Dispatched, Change, Sends, NeedsRecovery, Migrated, Answers;
    var run, a := s.runs[step.id], step.a;
    assert OwnTrigger(run) && PointsWell(s.runs, run);
    match step
    case Retry(_, _) => DispatchedChanges(s, step.id, RetriedRun(run, a), FailedRun(RetriedRun(run, a), "event_research_retry_queue"), a);
    case Refresh(_, _) =>
      if run.status == Cancelled {
        CancelledRefresh(s, step.id, run, a);
      } else {
        DispatchedChanges(s, step.id, RefreshedRun(run, a), UnrefreshedRun(run, a), a);
      }
    case Recover(_, _) => DispatchedChanges(s, step.id, RedispatchedRun(run, a, "research_dispatch_recovery"), run, a);
    case Migrate(_, _, _) => DispatchedChanges(s, step.id, RedispatchedRun(run, a, "event_priority_migration"), run, a);
  }

  lemma CancelledRefresh(s: State, id: RunId, run: Run, a: Attempt)
    requires id in s.runs && s.runs[id] == run && run.status == Cancelled && run.kind.EventRun? && a.task !in s.issued
    ensures var t := Dispatched(s, id, RefreshedRun(run, a), UnrefreshedRun(run, a), a); Change(s, t, id) && Sends(s, t, id)
  {
    hide Dispatched;
    DispatchedParts(s, id, RefreshedRun(run, a), UnrefreshedRun(run, a), a);
    var t := Dispatched(s, id, RefreshedRun(run, a), UnrefreshedRun(run, a), a);
    if Reached(a.outcome) {
      assert Known(t, Message(id, a.task, a.instance));
    }
  }

  predicate SameWork(a: Run, b: Run) {
    a.kind == b.kind && a.event == b.event && a.mergedInto == b.mergedInto && a.triggers == b.triggers && a.task == b.task
  }

  /** Saving a record whose status moves, unless it is merged. */
  lemma StatusChanges(s: State, id: RunId, run: Run)
    requires id in s.runs && s.runs[id].status != Coalesced && run.status != Coalesced
    requires SameWork(s.runs[id], run)
    requires Active(run.status) && run.kind.AssetRun? && s.runs[id].status != Cancelled ==>
               ActiveFor(s, run.kind.asset, id) || forall r :: !ActiveFor(s, run.kind.asset, r)
    ensures Change(s, Saved(s, id, run), id) && Sends(s, Saved(s, id, run), id)
  {
    hide NoDuplicates, OwnTrigger, PointsWell;
  }

  lemma ReserveChanges(s: State, q: Request, id: RunId)
    requires id !in s.runs && Answers(s, q.asset, None)
    ensures var t := Saved(s, id, NewRun(q, None, None, "research_queue")); Change(s, t, id) && Sends(s, t, id)
  {
    AtMostOneTrigger(q, None, None);
    hide NoDuplicates;
  }

  lemma NothingChanges(s: State, t: State, id: RunId)
    requires t.runs == s.runs && t.sent == s.sent && t.issued == s.issued
    ensures OneActive(s) ==> Change(s, t, id) && Sends(s, t, id)
  {
  }

  lemma ActiveForItself(s: State, id: RunId)
    requires id in s.runs && Active(s.runs[id].status) && s.runs[id].kind.AssetRun?
    ensures ActiveFor(s, s.runs[id].kind.asset, id)
  {
  }

  /** Steps that touch at most one record and send nothing. */
  lemma QuietStepChanges(s: State, step: Step)
    requires Inv(s) && Enabled(s, step)
    requires step.Reserve? || step.Deliver? || step.Progress? || step.CancelRun? || step.Requeue? || step.LoseMarker?
    ensures var id := if step.Deliver? then step.m.run else step.id;
            Change(s, Apply(s, step), id) && Sends(s, Apply(s, step), id)
  {
    hide Change, Sends, OneActive, TriggersOnce, TasksDrawn, ActiveFor, NewRun, NoDuplicates, OwnTrigger, Saved, Answers;
    var id := if step.Deliver? then step.m.run else step.id;
    if step.LoseMarker? || Apply(s, step) == s {
      NothingChanges(s, Apply(s, step), id);
    } else if id in s.runs && !step.LoseMarker? && !step.Reserve? {
      assert PointsWell(s.runs, s.runs[id]);
      if Active(s.runs[id].status) && s.runs[id].kind.AssetRun? {
        ActiveForItself(s, id);
      }
      var run := s.runs[id];
      match step
      case Deliver(m) => StatusChanges(s, id, run.(instance := Some(m.instance), status := Running));
      case Progress(_, status) => StatusChanges(s, id, run.(status := status));
      case CancelRun(_) => StatusChanges(s, id, run.(status := Cancelled, error := false, steps := run.steps + ["research_cancelled"]));
      case Requeue(_) => StatusChanges(s, id, run.(status := Queued, error := false, steps := run.steps + ["research_lease_recovery"]));
    } else if step.Reserve? {
      ReserveChanges(s, step.q, id);
    }
  }

  lemma AtMostOneTrigger(q: Request, task: Option<TaskId>, instance: Option<string>)
    ensures NoDuplicates(NewRun(q, task, instance, "research_queue").triggers)
  {
  }

  lemma EvolvesSelf(s: State)
    ensures Evolves(s, s)
  {
  }

  lemma MarkersDoNotMatter(s: State, t: State)
    requires Inv(s) && t.runs == s.runs && t.sent == s.sent && s.issued <= t.issued
    ensures Inv(t) && Evolves(s, t)
  {
    forall r, u, asset | ActiveFor(t, asset, r) && ActiveFor(t, asset, u)
      ensures r == u
    {
      assert ActiveFor(s, asset, r) && ActiveFor(s, asset, u);
    }
    forall m | m in s.sent
      ensures Known(t, m)
    {
      assert Known(s, m);
    }
  }

  /** Every step keeps all four invariants. */
  lemma StepKeepsInv(s: State, step: Step)
    requires Inv(s) && Enabled(s, step)
    ensures Inv(Apply(s, step)) && Evolves(s, Apply(s, step))
  {
    hide Evolves, Inv, Dispatched, NewRun, FailedRun, Merged, RetriedRun, RefreshedRun, UnrefreshedRun, RedispatchedRun,
         NewReport, Enqueued, Saved, Change, Sends, Superseded, Answered, Started, Answers;
    var t := Apply(s, step);
    match step
    case Enqueue(q, active, cooling, id, a) => EnqueueKeepsInv(s, q, active, cooling, id, a);
    case Report(event, existing, created, id, a) =>
      if existing.None? {
        ReportChanges(s, event, created, id, a);
        ChangeKeepsInv(s, t, id);
      } else {
        EvolvesSelf(s);
      }
    case Retry(id, a) =>
      RedispatchChanges(s, step);
      ChangeKeepsInv(s, t, id);
    case Refresh(id, a) =>
      RedispatchChanges(s, step);
      ChangeKeepsInv(s, t, id);
    case Recover(id, a) =>
      if a.recorded {
        RedispatchChanges(s, step);
        ChangeKeepsInv(s, t, id);
      } else {
        MarkersDoNotMatter(s, t);
      }
    case Migrate(id, a, rerecorded) => MigrateKeepsInv(s, id, a, rerecorded);
    case Deliver(m) =>
      QuietStepChanges(s, step);
      ChangeKeepsInv(s, t, m.run);
    case _ =>
      QuietStepChanges(s, step);
      ChangeKeepsInv(s, t, step.id);
  }

  lemma ReportChanges(s: State, event: EventId, created: Time, id: RunId, a: Attempt)
    requires Inv(s) && id !in s.runs && a.task !in s.issued
    ensures var run := NewReport(event, a, created);
            var t := Dispatched(s, id, run, FailedRun(run, "event_research_queue"), a);
            Change(s, t, id) && Sends(s, t, id)
  {
    hide Dispatched, Change, Sends, Inv;
    var run := NewReport(event, a, created);
    DispatchedChanges(s, id, run, FailedRun(run, "event_research_queue"), a);
  }

  lemma MigrateKeepsInv(s: State, id: RunId, a: Attempt, rerecorded: bool)
    requires Inv(s) && Enabled(s, Migrate(id, a, rerecorded))
    ensures var t := MigratedState(s, id, a, rerecorded); Inv(t) && Evolves(s, t)
  {
    hide Inv, Evolves, Dispatched, RedispatchedRun, Change, Sends;
    var run := s.runs[id];
    if a.recorded {
      RedispatchChanges(s, Migrate(id, a, rerecorded));
      var tried := Dispatched(s, id, RedispatchedRun(run, a, "event_priority_migration"), run, a);
      ChangeKeepsInv(s, tried, id);
      MarkersDoNotMatter(tried, MigratedState(s, id, a, rerecorded));
      EvolvesTwice(s, tried, MigratedState(s, id, a, rerecorded));
    } else {
      MarkersDoNotMatter(s, MigratedState(s, id, a, rerecorded));
    }
  }

  // ------------------------------------------------------------ single operations

  // Admission.

  /** The run a request was accepted into: its own new run, or the asset's active one. */
  function AcceptedInto(step: Step): Option<RunId>
    requires step.Enqueue?
  {
    if step.active.Some? && Ordinary(step.q) then step.active
    else if step.active.Some? || (step.cooling && step.q.retryOf.None? && !step.q.force) then None
    else Some(step.id)
  }

  /** An ordinary event is refused only for the cooldown; the run that accepts it is the asset's
      active run (unless the publication failed) and lists the event once. A merged record is kept. */
  lemma Accepted(s: State, step: Step)
    requires Inv(s) && step.Enqueue? && Enabled(s, step) && Ordinary(step.q)
    ensures AcceptedInto(step).None? ==> step.cooling && step.active.None? && Apply(s, step) == s
    ensures AcceptedInto(step).Some? ==>
              var t, r := Apply(s, step), AcceptedInto(step).value;
              && r in t.runs && OccursOnce(t.runs[r].triggers, step.q.event.value)
              && ((step.active.None? && Raised(step.a.outcome)) || ActiveFor(t, step.q.asset, r))
              && (step.active.Some? ==>
                    step.id in t.runs && t.runs[step.id].status == Coalesced && t.runs[step.id].mergedInto == Some(r))
  {
    StepKeepsInv(s, step);
    var t := Apply(s, step);
    if AcceptedInto(step).Some? {
      var r := AcceptedInto(step).value;
      AcceptedShape(s, step);
      assert OwnTrigger(t.runs[r]);
    }
  }

  lemma AcceptedShape(s: State, step: Step)
    requires step.Enqueue? && Enabled(s, step) && Ordinary(step.q) && AcceptedInto(step).Some?
    ensures var t, r := Apply(s, step), AcceptedInto(step).value;
            && r in t.runs && step.q.event.value in t.runs[r].triggers
            && ((step.active.None? && Raised(step.a.outcome)) || ActiveFor(t, step.q.asset, r))
            && (step.active.Some? ==>
                  step.id in t.runs && t.runs[step.id].status == Coalesced && t.runs[step.id].mergedInto == Some(r))
  {
    hide Dispatched;
    var q, id, a := step.q, step.id, step.a;
    if step.active.None? {
      var run := NewRun(q, Some(a.task), Some(a.instance), "research_queue");
      DispatchedParts(s, id, run, FailedRun(run, "research_queue"), a);
    }
  }

  /** e stands in the list at exactly one position. */
  ghost predicate OccursOnce(events: seq<EventId>, e: EventId) {
    exists i :: 0 <= i < |events| && events[i] == e && forall j :: 0 <= j < |events| && j != i ==> events[j] != e
  }

  lemma ListedOnce(events: seq<EventId>, e: EventId)
    requires NoDuplicates(events) && e in events
    ensures OccursOnce(events, e)
  {
    var i :| 0 <= i < |events| && events[i] == e;
    forall j | 0 <= j < |events| && j != i
      ensures events[j] != e
    {
    }
  }

  // What the operations write, field by field.

  /** A dispatch hands its message to the broker exactly if publishing gets that far; the row is the
      queued one, or the failed one after an error; the marker stands unless it could not be written or
      publishing raised. */
  lemma DispatchMeans(s: State, id: RunId, run: Run, failed: Run, a: Attempt)
    requires id !in s.runs || s.runs[id].status != Cancelled
    requires run.status != Cancelled
    ensures var t := Dispatched(s, id, run, failed, a);
            && t.sent == (if a.outcome == Sent || a.outcome == ErrorAfterSend then s.sent + [Message(id, a.task, a.instance)] else s.sent)
            && t.runs == s.runs[id := if a.outcome == Sent || a.outcome == Crashed then run else failed]
            && t.markers == (if !a.recorded then s.markers
                             else if a.outcome == Sent || a.outcome == Crashed then s.markers[id := a.task]
                             else s.markers - {id})
            && t.issued == s.issued + {a.task}
  {
    assert s.runs[id := run][id := failed] == s.runs[id := failed];
    assert s.markers[id := a.task] - {id} == s.markers - {id};
  }

  /** An ordinary event joins the asset's active run, and is recorded as merged into it; any other
      request is refused while a run is active, and any but a retry or a forced one during the
      cooldown; all others get a queued run of their own. */
  lemma EnqueueMeans(s: State, q: Request, active: Option<RunId>, cooling: bool, id: RunId, a: Attempt)
    requires Enabled(s, Enqueue(q, active, cooling, id, a))
    ensures var t := Apply(s, Enqueue(q, active, cooling, id, a));
            var ordinary := q.event.Some? && !q.historical && q.retryOf.None? && q.refreshDays.None? && !q.force;
            if active.Some? && ordinary then
              var run, event := s.runs[active.value], q.event.value;
              && t.sent == s.sent && t.markers == s.markers
              && t.runs == s.runs[active.value := if event in run.triggers then run
                                                  else run.(triggers := run.triggers + [event], steps := run.steps + ["research_coalescing"])]
                                 [id := Run(AssetRun(q.asset), Some(event), [event], Coalesced, run.task, None, active,
                                            ["research_coalescing"], q.created, false, 0, None, [])]
            else if active.Some? || (cooling && q.retryOf.None? && !q.force) then t == s
            else
              var run := Run(AssetRun(q.asset), q.event, if q.event.Some? then [q.event.value] else [], Queued, Some(a.task),
                             Some(a.instance), None, ["research_queue"], q.created, false, 0, None, []);
              && t.runs == s.runs[id := if a.outcome == Sent || a.outcome == Crashed then run
                                        else run.(status := Failed, error := true, steps := ["research_queue", "research_queue"])]
              && t.sent == (if a.outcome == Sent || a.outcome == ErrorAfterSend then s.sent + [Message(id, a.task, a.instance)] else s.sent)
              && (a.recorded && a.outcome == Sent ==> t.markers == s.markers[id := a.task])
  {
    if active.None? {
      var run := NewRun(q, Some(a.task), Some(a.instance), "research_queue");
      DispatchMeans(s, id, run, FailedRun(run, "research_queue"), a);
      hide Dispatched;
      assert ["research_queue"] + ["research_queue"] == ["research_queue", "research_queue"];
    } else if Ordinary(q) && q.event.value in s.runs[active.value].triggers {
      assert s.runs[active.value := s.runs[active.value]] == s.runs;
    }
  }

  /** A synchronous request gets a queued run without a task, unless a run is active or cooling down;
      nothing is sent. */
  lemma ReserveMeans(s: State, q: Request, active: Option<RunId>, cooling: bool, id: RunId)
    requires Enabled(s, Reserve(q, active, cooling, id))
    ensures var t := Apply(s, Reserve(q, active, cooling, id));
            if active.Some? || cooling then t == s
            else t == s.(runs := s.runs[id := Run(AssetRun(q.asset), q.event, if q.event.Some? then [q.event.value] else [], Queued,
                                                  None, None, None, ["research_queue"], q.created, false, 0, None, [])])
  {
  }

  /** A new report is queued under the task id of its message. */
  lemma ReportMeans(s: State, event: EventId, created: Time, id: RunId, a: Attempt)
    requires Enabled(s, Report(event, None, created, id, a)) && a.outcome == Sent
    ensures var t := Apply(s, Report(event, None, created, id, a));
            && t.sent == s.sent + [Message(id, a.task, a.instance)]
            && (a.recorded ==> t.markers == s.markers[id := a.task])
            && t.runs == s.runs[id := Run(EventRun, Some(event), [event], Queued, Some(a.task), Some(a.instance), None,
                                          ["event_research_queue"], created, false, 0, None, [])]
  {
    DispatchMeans(s, id, NewReport(event, a, created), FailedRun(NewReport(event, a, created), "event_research_queue"), a);
    hide Dispatched;
  }

  /** A retried report is queued under a new task id, without its old report. */
  lemma RetryMeans(s: State, id: RunId, a: Attempt)
    requires Enabled(s, Retry(id, a)) && s.runs[id].status != Cancelled && a.outcome == Sent
    ensures var t, run := Apply(s, Retry(id, a)), s.runs[id];
            && t.sent == s.sent + [Message(id, a.task, a.instance)]
            && (a.recorded ==> t.markers == s.markers[id := a.task])
            && t.runs == s.runs[id := run.(status := Queued, retries := run.retries + 1, report := None, error := false,
                                           task := Some(a.task), instance := Some(a.instance),
                                           steps := run.steps + ["event_research_retry_queue"])]
  {
    DispatchMeans(s, id, RetriedRun(s.runs[id], a), FailedRun(RetriedRun(s.runs[id], a), "event_research_retry_queue"), a);
    hide Dispatched;
  }

  /** A refreshed report is queued under a new task id with its report, which is archived once. */
  lemma RefreshMeans(s: State, id: RunId, a: Attempt)
    requires Enabled(s, Refresh(id, a)) && s.runs[id].status != Cancelled && a.outcome == Sent
    ensures var t, run := Apply(s, Refresh(id, a)), s.runs[id];
            && t.sent == s.sent + [Message(id, a.task, a.instance)]
            && (a.recorded ==> t.markers == s.markers[id := a.task])
            && id in t.runs
            && t.runs == s.runs[id := run.(status := Queued, error := false, task := Some(a.task), instance := Some(a.instance),
                                           steps := run.steps + ["forced_event_research_queue"], archive := t.runs[id].archive)]
            && (if run.report.None? || (run.archive != [] && run.archive[|run.archive| - 1] == run.report.value)
                then t.runs[id].archive == run.archive
                else t.runs[id].archive == run.archive + [run.report.value])
  {
    DispatchMeans(s, id, RefreshedRun(s.runs[id], a), UnrefreshedRun(s.runs[id], a), a);
    hide Dispatched;
  }

  /** A delivered message starts its run exactly when it carries the run's task id, or the run has
      none, and the run's status does not answer it. */
  lemma DeliverMeans(s: State, m: Message)
    requires Enabled(s, Deliver(m))
    ensures var t, run := Apply(s, Deliver(m)), s.runs[m.run];
            if && (run.task.None? || run.task.value == m.task)
               && run.status != Cancelled
               && (if run.kind.AssetRun? then run.status != Coalesced
                   else run.status != Completed && run.status != InsufficientEvidence)
            then t == s.(runs := s.runs[m.run := run.(status := Running, instance := Some(m.instance))])
            else t == s
  {
  }

  /** Cancelling, requeueing and reporting write the status and leave task, triggers and report. */
  lemma StatusMeans(s: State, step: Step)
    requires (step.CancelRun? || step.Requeue? || step.Progress?) && Enabled(s, step)
    ensures var t, run := Apply(s, step), s.runs[step.id];
            t == s.(runs := s.runs[step.id := match step
                                              case CancelRun(_) => run.(status := Cancelled, error := false, steps := run.steps + ["research_cancelled"])
                                              case Requeue(_) => run.(status := Queued, error := false, steps := run.steps + ["research_lease_recovery"])
                                              case _ => run.(status := step.status)])
  {
  }

  /** A queued run is lost exactly when its marker is missing or names another task, or its last step is
      the loss of its worker's lease. */
  lemma NeedsRecoveryMeans(s: State, id: RunId)
    requires id in s.runs
    ensures NeedsRecovery(s, id) <==>
              || id !in s.markers || s.runs[id].task != Some(s.markers[id])
              || (|s.runs[id].steps| > 0 && s.runs[id].steps[|s.runs[id].steps| - 1] == "research_lease_recovery")
  {
  }

  /** An asset's run is active while it is queued, running or verifying. */
  lemma ActiveForMeans(s: State, asset: string, id: RunId)
    ensures ActiveFor(s, asset, id) <==>
              id in s.runs && s.runs[id].kind == AssetRun(asset) && s.runs[id].status in {Queued, Running, Verifying}
  {
  }

  // Fencing.

  /** Two different messages of one run can both get past the guard exactly when the run has no
      task id, as runs reserved for a synchronous request do. */
  lemma OnlyOneTaskWorks(s: State, m: Message, n: Message)
    requires TasksDrawn(s) && m in s.sent && n in s.sent && m != n && m.run == n.run
    ensures m.run in s.runs
    ensures !Superseded(s, m) && !Superseded(s, n) <==> s.runs[m.run].task.None?
  {
    assert Known(s, m) && Known(s, n);
    var i :| 0 <= i < |s.sent| && s.sent[i] == m;
    var j :| 0 <= j < |s.sent| && s.sent[j] == n;
    assert m.task != n.task by {
      if i < j {
      } else {
        assert j < i;
      }
    }
  }

  // Cancellation.

  /** Saves of any runs whatever, in any order. */
  function SavedAll(s: State, saves: seq<(RunId, Run)>): State {
    if saves == [] then s
    else Saved(SavedAll(s, saves[..|saves| - 1]), saves[|saves| - 1].0, saves[|saves| - 1].1)
  }

  /** No sequence of saves takes a row out of the cancelled status. */
  lemma {:induction false} CancelledSurvivesSaves(s: State, saves: seq<(RunId, Run)>, id: RunId)
    requires id in s.runs && s.runs[id].status == Cancelled
    ensures id in SavedAll(s, saves).runs && SavedAll(s, saves).runs[id].status == Cancelled
  {
    if saves != [] {
      CancelledSurvivesSaves(s, saves[..|saves| - 1], id);
    }
  }

  // Failed redispatches.

  /** A migration that fails leaves every row as it was; when the old marker can be rewritten, the run
      does not look lost. */
  lemma FailedMigration(s: State, id: RunId, a: Attempt, rerecorded: bool)
    requires Enabled(s, Migrate(id, a, rerecorded)) && (!a.recorded || Raised(a.outcome))
    ensures var t := Apply(s, Migrate(id, a, rerecorded));
            && t.runs == s.runs
            && (rerecorded && s.runs[id].task.Some? && !LeaseExpired(s.runs[id]) ==> !NeedsRecovery(t, id))
  {
    assert s.runs[id := s.runs[id]] == s.runs;
  }

  /** A failed refresh keeps the published report, and the status and task id from before. */
  lemma FailedRefreshKeepsTheReport(s: State, id: RunId, a: Attempt)
    requires Enabled(s, Refresh(id, a)) && s.runs[id].status != Cancelled && Raised(a.outcome)
    ensures var before, after := s.runs[id], Apply(s, Refresh(id, a)).runs[id];
            && after.report == before.report && after.status == before.status && after.task == before.task
            && (before.report.Some? ==> before.report.value in after.archive)
            && before.archive <= after.archive
  {
  }

  /** A retry of a report that was not cancelled starts from scratch under its new task id, which
      supersedes every earlier message; if it cannot be published the run has failed. */
  lemma RetryStartsAfresh(s: State, id: RunId, a: Attempt, m: Message)
    requires Inv(s) && Enabled(s, Retry(id, a)) && s.runs[id].status != Cancelled && m in s.sent && m.run == id
    ensures var t := Apply(s, Retry(id, a));
            && id in t.runs && t.runs[id].report.None? && t.runs[id].retries == s.runs[id].retries + 1
            && t.runs[id].status == (if Raised(a.outcome) then Failed else Queued)
            && Superseded(t, m)
            && (a.outcome == Sent ==> Message(id, a.task, a.instance) in t.sent && !Superseded(t, Message(id, a.task, a.instance)))
  {
    assert Known(s, m);
  }

  /** A recovery that was recorded and published is not repeated until the marker is lost or the
      lease expires again, and only its message counts from then on. */
  lemma RecoveryIsNotRepeated(s: State, id: RunId, a: Attempt, m: Message)
    requires Inv(s) && Enabled(s, Recover(id, a)) && a.recorded && a.outcome == Sent && m in s.sent && m.run == id
    ensures var t := Apply(s, Recover(id, a));
            && id in t.runs && !NeedsRecovery(t, id) && Superseded(t, m)
            && Message(id, a.task, a.instance) in t.sent && !Superseded(t, Message(id, a.task, a.instance))
  {
    assert Known(s, m);
  }

  // What the assumption on delivered asset tasks is needed for.

  /** Starting a current asset message keeps one active run per asset exactly when the run is still
      active, or no other run of its asset is. */
  lemma DeliveryKeepsOneActive(s: State, m: Message, asset: string)
    requires OneActive(s) && m.run in s.runs && s.runs[m.run].kind == AssetRun(asset) && s.runs[m.run].status != Cancelled
    ensures OneActive(Started(s, m))
            <==> (Active(s.runs[m.run].status) || forall r :: r != m.run ==> !ActiveFor(s, asset, r))
  {
    var t := Started(s, m);
    forall r, a | r != m.run
      ensures ActiveFor(t, a, r) <==> ActiveFor(s, a, r)
    {
    }
    assert ActiveFor(t, asset, m.run);
    assert forall a :: ActiveFor(t, a, m.run) ==> a == asset;
    if Active(s.runs[m.run].status) {
      assert ActiveFor(s, asset, m.run);
    }
  }
}
