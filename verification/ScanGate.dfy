/** The scan lease with its pause key, heartbeat and stale recovery. */
module ScanGate {
  import opened Common
  import ExtractionQueue

  /** Microseconds. */
  type Time = int

  datatype Settings = Settings(leaseSeconds: nat, intervalMinutes: nat) {
    predicate Valid() { 60 <= leaseSeconds <= 900 }

    /** A heartbeat older than this is stale. */
    function Stale(): Time { 1_000_000 * Max(600, 2 * leaseSeconds) }

    /** The lifetime of the gate and pause keys. */
    function Ttl(): Time { 1_000_000 * Max(12 * 60 * 60, intervalMinutes * 60 * 3) }

    lemma TtlOutlastsStale()
      requires Valid()
      ensures 0 < Stale() < Ttl()
    {
    }
  }

  datatype ScanState = IdleScan | QueuedScan | RunningScan | RetryingScan | PausedScan | FailedScan | CancelledScan | InterruptedScan

  datatype Status = Status(
    state: ScanState,
    taskId: Option<string>,
    phase: Option<string>,
    pausedFrom: Option<string>,
    current: nat,
    total: nat,
    startedAt: Option<Time>,
    heartbeatAt: Option<Time>,
    lastCompletedAt: Option<Time>,
    nextScanAt: Option<Time>,
    lastError: Option<string>)

  predicate Live(s: ScanState) { s in {QueuedScan, RunningScan, RetryingScan, PausedScan} }

  /** A key with its value and the moment it expires. */
  datatype Lease = Lease(owner: string, expiry: Time)

  datatype Store = Store(clock: Time, gate: Option<Lease>, pause: Option<Lease>, status: Status)

  function Read(key: Option<Lease>, clock: Time): Option<string> {
    if key.Some? && clock < key.value.expiry then Some(key.value.owner) else None
  }

  function GateOwner(s: Store): Option<string> { Read(s.gate, s.clock) }

  function PauseOwner(s: Store): Option<string> { Read(s.pause, s.clock) }

  /** One helper call, or one Redis command of the longer operations; `Write` is any status
      update, by whoever performs it. */
  datatype Step =
    | Tick(elapsed: nat)
    | Write(status: Status)
    | SetGate(task: string)
    | Renew(task: string)
    | Touch(task: string)
    | DropGate(task: string)
    | SetPause(task: string)
    | ExtendPause
    | DeletePause
    | DropPause(task: string)
    | Complete(task: string, result: Status)
    | Recover

  function Written(s: Store, status: Status): Store {
    s.(status := status.(heartbeatAt := if Live(status.state) then Some(s.clock) else s.status.heartbeatAt))
  }

  function GateDropped(s: Store, task: string): Store {
    if GateOwner(s) == Some(task) then s.(gate := None) else s
  }

  function PauseDropped(s: Store, task: string): Store {
    if PauseOwner(s) == Some(task) then s.(pause := None) else s
  }

  predicate TouchSucceeds(s: Store, task: string) {
    GateOwner(s) == Some(task) && s.status.taskId == Some(task) && Live(s.status.state)
  }

  function LastSign(status: Status): Option<Time> {
    if status.heartbeatAt.Some? then status.heartbeatAt else status.startedAt
  }

  predicate IsStale(c: Settings, s: Store) {
    && s.status.state != PausedScan
    && LastSign(s.status).Some?
    && s.clock - LastSign(s.status).value > c.Stale()
  }

  function Interrupted(status: Status, task: string): Status {
    status.(state := InterruptedScan, taskId := Some(task), phase := Some("interrupted"), nextScanAt := None,
            lastError := Some("scan heartbeat expired"))
  }

  function Apply(c: Settings, s: Store, step: Step): Store {
    match step
    case Tick(elapsed) => s.(clock := s.clock + elapsed)
    case Write(status) => Written(s, status)
    case SetGate(task) => if GateOwner(s).None? then s.(gate := Some(Lease(task, s.clock + c.Ttl()))) else s
    case Renew(task) => if GateOwner(s) == Some(task) then s.(gate := Some(Lease(task, s.clock + c.Ttl()))) else s
    case Touch(task) =>
      if GateOwner(s) != Some(task) then s
      else
        var renewed := s.(gate := Some(Lease(task, s.clock + c.Ttl())));
        if TouchSucceeds(s, task) then renewed.(status := s.status.(heartbeatAt := Some(s.clock))) else renewed
    case DropGate(task) => GateDropped(s, task)
    case SetPause(task) => s.(pause := Some(Lease(task, s.clock + c.Ttl())))
    case ExtendPause =>
      if PauseOwner(s).Some? then s.(pause := Some(Lease(PauseOwner(s).value, s.clock + c.Ttl()))) else s
    case DeletePause => s.(pause := None)
    case DropPause(task) => PauseDropped(s, task)
    case Complete(task, result) =>
      if GateOwner(s) != Some(task) then s else PauseDropped(GateDropped(Written(s, result), task), task)
    case Recover =>
      if GateOwner(s).None? || !IsStale(c, s) then s
      else
        var task := GateOwner(s).value;
        PauseDropped(GateDropped(Written(s, Interrupted(s.status, task)), task), task)
  }

  function After(c: Settings, s: Store, run: seq<Step>): Store {
    if run == [] then s else Apply(c, After(c, s, run[..|run| - 1]), run[|run| - 1])
  }

  // ------------------------------------------------------------ keys and limits

  /** A key belongs to the task written in it until it expires. */
  lemma OwnerMeans(s: Store, task: string)
    ensures GateOwner(s) == Some(task) <==> s.gate != None && s.gate.value.owner == task && s.clock < s.gate.value.expiry
    ensures PauseOwner(s) == Some(task) <==> s.pause != None && s.pause.value.owner == task && s.clock < s.pause.value.expiry
  {
  }

  /** A heartbeat counts for ten minutes or two leases, whichever is longer; keys live for twelve hours or
      three intervals. */
  lemma LimitsMean(c: Settings)
    ensures c.Stale() >= 600_000_000 && c.Stale() >= 2_000_000 * c.leaseSeconds
    ensures c.Stale() == 600_000_000 || c.Stale() == 2_000_000 * c.leaseSeconds
    ensures c.Ttl() >= 43_200_000_000 && c.Ttl() >= 180_000_000 * c.intervalMinutes
    ensures c.Ttl() == 43_200_000_000 || c.Ttl() == 180_000_000 * c.intervalMinutes
  {
  }

  /** A scan is stale when it is not paused and neither a heartbeat nor, before the first one, its start
      lies within the limit; without either it never is. */
  lemma StaleMeans(c: Settings, s: Store)
    ensures IsStale(c, s) <==>
              && s.status.state != PausedScan
              && (if s.status.heartbeatAt.Some? then s.status.heartbeatAt.value + c.Stale() < s.clock
                  else s.status.startedAt.Some? && s.status.startedAt.value + c.Stale() < s.clock)
  {
  }

  // ------------------------------------------------------------ ownership

  /** No single step hands the gate from one task to another. */
  lemma NoHandOver(c: Settings, s: Store, step: Step)
    requires GateOwner(s).Some? && GateOwner(Apply(c, s, step)).Some?
    ensures GateOwner(Apply(c, s, step)) == GateOwner(s)
  {
  }

  /** In every run, between two owners there is a moment when nobody owns the gate. */
  lemma {:induction false} OwnersAreSeparated(c: Settings, s: Store, run: seq<Step>, i: nat, j: nat)
    requires i <= j <= |run|
    requires GateOwner(After(c, s, run[..i])).Some? && GateOwner(After(c, s, run[..j])).Some?
    requires GateOwner(After(c, s, run[..i])) != GateOwner(After(c, s, run[..j]))
    ensures exists k :: i < k < j && GateOwner(After(c, s, run[..k])).None?
  {
    hide Apply;
    if i < j {
      assert run[..j][..j - 1] == run[..j - 1] && run[..j][j - 1] == run[j - 1];
      var before := After(c, s, run[..j - 1]);
      if GateOwner(before).Some? {
        NoHandOver(c, before, run[j - 1]);
        OwnersAreSeparated(c, s, run, i, j - 1);
      } else {
        assert i < j - 1;
      }
    }
  }

  /** What a task that does not own the gate can change with its own operations: nothing, except
      that it may remove a pause key that names itself. */
  lemma LostTaskIsHarmless(c: Settings, s: Store, task: string, step: Step)
    requires GateOwner(s) != Some(task)
    requires step in {Renew(task), Touch(task), DropGate(task), DropPause(task)} || (step.Complete? && step.task == task)
    ensures var after := Apply(c, s, step);
            && after.gate == s.gate && after.status == s.status
            && (after.pause != s.pause <==> step == DropPause(task) && PauseOwner(s) == Some(task))
  {
  }

  // ------------------------------------------------------------ eviction

  /** Stale recovery takes the gate from its owner exactly when the scan is not paused and its last
      sign of life is older than the limit; it then also drops that scan's pause. */
  lemma RecoverEvictsExactlyTheStale(c: Settings, s: Store)
    requires GateOwner(s).Some?
    ensures var after := Apply(c, s, Recover);
            && (GateOwner(after).None? <==> IsStale(c, s))
            && (!IsStale(c, s) ==> after == s)
            && (IsStale(c, s) ==>
                  && after.status.state == InterruptedScan && after.status.taskId == GateOwner(s)
                  && PauseOwner(after) != GateOwner(s))
  {
  }

  /** The time of the last successful heartbeat of the task. */
  function LastTouch(c: Settings, s: Store, run: seq<Step>, task: string): Time {
    if run == [] then s.clock
    else
      var before := After(c, s, run[..|run| - 1]);
      if run[|run| - 1] == Touch(task) && TouchSucceeds(before, task) then before.clock
      else LastTouch(c, s, run[..|run| - 1], task)
  }

  /** Heartbeats were never further apart than the stale limit. */
  predicate InTime(c: Settings, s: Store, run: seq<Step>, task: string) {
    run == []
    || (InTime(c, s, run[..|run| - 1], task) && After(c, s, run).clock - LastTouch(c, s, run, task) <= c.Stale())
  }

  /** The task has not given the gate up itself, and nobody aborted it by name. */
  predicate NotReleased(run: seq<Step>, task: string) {
    forall k :: 0 <= k < |run| ==> run[k] != DropGate(task) && !(run[k].Complete? && run[k].task == task)
  }

  predicate Secure(c: Settings, s: Store, task: string, touched: Time) {
    && s.gate.Some? && s.gate.value.owner == task && touched + c.Ttl() <= s.gate.value.expiry
    && s.status.heartbeatAt.Some? && touched <= s.status.heartbeatAt.value
    && touched <= s.clock
  }

  lemma SecureStep(c: Settings, s: Store, step: Step, task: string, touched: Time)
    requires c.Valid() && Secure(c, s, task, touched) && s.clock - touched <= c.Stale()
    requires step != DropGate(task) && !(step.Complete? && step.task == task)
    ensures Secure(c, Apply(c, s, step), task, if step == Touch(task) && TouchSucceeds(s, task) then s.clock else touched)
  {
    c.TtlOutlastsStale();
  }

  lemma {:induction false} StaysSecure(c: Settings, s: Store, run: seq<Step>, task: string)
    requires c.Valid() && Secure(c, s, task, s.clock) && InTime(c, s, run, task) && NotReleased(run, task)
    ensures Secure(c, After(c, s, run), task, LastTouch(c, s, run, task))
    ensures After(c, s, run).clock - LastTouch(c, s, run, task) <= c.Stale()
  {
    hide Secure, Apply, TouchSucceeds;
    c.TtlOutlastsStale();
    if run != [] {
      var rest, step := run[..|run| - 1], run[|run| - 1];
      StaysSecure(c, s, rest, task);
      SecureStep(c, After(c, s, rest), step, task, LastTouch(c, s, rest, task));
    }
  }

  /** A scan whose heartbeats succeed often enough owns the gate throughout, whatever other tasks,
      operators, stale recovery and the clock do in between. */
  lemma HeartbeatsKeepTheGate(c: Settings, before: Store, run: seq<Step>, task: string)
    requires c.Valid() && TouchSucceeds(before, task)
    requires var s := Apply(c, before, Touch(task)); InTime(c, s, run, task) && NotReleased(run, task)
    ensures GateOwner(After(c, Apply(c, before, Touch(task)), run)) == Some(task)
  {
    var s := Apply(c, before, Touch(task));
    StaysSecure(c, s, run, task);
    c.TtlOutlastsStale();
  }

  // ------------------------------------------------------------ the stored keys

  datatype Outcome = AlreadyQueued | Enqueued | PublishFailed

  /** The scan keys. Every method runs the source's commands one by one; `steps` names them, so the
      lemmas over runs apply however other callers' steps fall in between. */
  class ScanRedis {
    const c: Settings
    var clock: Time
    var gate: Option<Lease>
    var pause: Option<Lease>
    var status: Status

    constructor (c: Settings, now: Time)
      ensures this.c == c && GateOwner(State()).None? && PauseOwner(State()).None? && status.state == IdleScan
    {
      this.c := c;
      clock, gate, pause := now, None, None;
      status := Status(IdleScan, None, None, None, 0, 0, None, None, None, None, None);
    }

    function State(): Store
      reads this
    {
      Store(clock, gate, pause, status)
    }

    method UpdateStatus(next: Status)
      modifies this`status
      ensures State() == Apply(c, old(State()), Write(next))
    {
      var heartbeat := status.heartbeatAt;
      if Live(next.state) {
        heartbeat := Some(clock);
      }
      status := next.(heartbeatAt := heartbeat);
    }

    /** SET key value NX EX ttl */
    method SetIfAbsent(task: string) returns (claimed: bool)
      modifies this`gate
      ensures State() == Apply(c, old(State()), SetGate(task))
      ensures claimed == GateOwner(old(State())).None?
    {
      claimed := Read(gate, clock).None?;
      if claimed {
        gate := Some(Lease(task, clock + c.Ttl()));
      }
    }

    method RenewScanGate(task: string) returns (owned: bool)
      modifies this`gate
      ensures State() == Apply(c, old(State()), Renew(task))
      ensures owned == (GateOwner(old(State())) == Some(task))
    {
      if Read(gate, clock) != Some(task) {
        return false;
      }
      gate := Some(Lease(gate.value.owner, clock + c.Ttl()));
      return true;
    }

    /** Claims an empty gate, or renews the task's own; others may act in `between` the first look and
        the attempt to take an empty gate. */
    method ClaimScanGate(task: string, between: seq<Step>) returns (owned: bool)
      requires c.Valid()
      modifies this
      ensures owned == (GateOwner(State()) == Some(task))
      ensures GateOwner(old(State())).Some? ==>
                owned == (GateOwner(old(State())) == Some(task)) && State() == Apply(c, old(State()), Renew(task))
      ensures GateOwner(old(State())).None? ==>
                var later := After(c, old(State()), between);
                && owned == (GateOwner(later) in {None, Some(task)})
                && State() == Apply(c, later, if GateOwner(later).None? then SetGate(task) else Renew(task))
    {
      c.TtlOutlastsStale();
      var current := Read(gate, clock);
      if current == Some(task) {
        owned := RenewScanGate(task);
      } else if current.Some? {
        return false;
      } else {
        Others(between);
        owned := SetIfAbsent(task);
        if !owned {
          owned := RenewScanGate(task);
        }
      }
    }

    method ClearScanGate(task: string)
      modifies this`gate
      ensures State() == Apply(c, old(State()), DropGate(task))
    {
      if Read(gate, clock) == Some(task) {
        gate := None;
      }
    }

    method ClearScanPause(task: string)
      modifies this`pause
      ensures State() == Apply(c, old(State()), DropPause(task))
    {
      if Read(pause, clock) == Some(task) {
        pause := None;
      }
    }

    method TouchScanHeartbeat(task: string) returns (alive: bool)
      modifies this`gate, this`status
      ensures State() == Apply(c, old(State()), Touch(task))
      ensures alive == TouchSucceeds(old(State()), task)
      ensures alive <==> GateOwner(old(State())) == Some(task) && old(status).taskId == Some(task)
                         && old(status).state in {QueuedScan, RunningScan, RetryingScan, PausedScan}
      ensures alive ==> status == old(status).(heartbeatAt := Some(clock)) && gate == Some(Lease(task, clock + c.Ttl()))
    {
      var owned := RenewScanGate(task);
      if !owned || status.taskId != Some(task) || !Live(status.state) {
        return false;
      }
      status := status.(heartbeatAt := Some(clock));
      return true;
    }

    /** Returns the task that is paused, or nothing when no scan is active. */
    method RequestScanPause() returns (paused: Option<string>)
      requires c.Valid()
      modifies this`pause, this`status
      ensures paused == GateOwner(old(State()))
      ensures paused.None? ==> State() == old(State())
      ensures paused.Some? ==>
                && State() == After(c, old(State()), [SetPause(paused.value), Write(status)])
                && GateOwner(State()) == PauseOwner(State()) == paused
                && status.state == PausedScan && status.taskId == paused
                && !IsStale(c, State())
                && status.pausedFrom.Some?
                && (old(status).state != PausedScan && old(status).phase.Some? ==> status.pausedFrom == old(status).phase)
                && (old(status).state == PausedScan && old(status).pausedFrom.Some? ==> status.pausedFrom == old(status).pausedFrom)
                && ((if old(status).state == PausedScan then old(status).pausedFrom else old(status).phase) == None
                    ==> status.pausedFrom == Some("discovering"))
                && status == old(status).(state := PausedScan, phase := Some("paused"), taskId := paused, nextScanAt := None,
                                          pausedFrom := status.pausedFrom, heartbeatAt := Some(clock))
    {
      paused := Read(gate, clock);
      if paused.None? {
        return;
      }
      var from := if status.state == PausedScan then status.pausedFrom else status.phase;
      pause := Some(Lease(paused.value, clock + c.Ttl()));
      c.TtlOutlastsStale();
      UpdateStatus(status.(state := PausedScan, phase := Some("paused"), taskId := paused, nextScanAt := None,
                           pausedFrom := if from.Some? then from else Some("discovering")));
      TwoSteps(c, old(State()), SetPause(paused.value), Write(status));
    }

    method ResumeScan() returns (resumed: Option<string>)
      modifies this`pause, this`status
      ensures resumed == GateOwner(old(State()))
      ensures resumed.None? ==> State() == old(State())
      ensures resumed.Some? ==>
                && State() == After(c, old(State()), [DropPause(resumed.value), Write(status)])
                && GateOwner(State()) == resumed && PauseOwner(State()) != resumed
                && status.state == RunningScan && status.taskId == resumed && status.pausedFrom.None?
                && status.phase == (if old(status).pausedFrom.Some? then old(status).pausedFrom else Some("discovering"))
                && status == old(status).(state := RunningScan, phase := status.phase, taskId := resumed, nextScanAt := None,
                                          pausedFrom := None, heartbeatAt := Some(clock))
    {
      resumed := Read(gate, clock);
      if resumed.None? {
        return;
      }
      var phase := if status.pausedFrom.Some? then status.pausedFrom else Some("discovering");
      ClearScanPause(resumed.value);
      UpdateStatus(status.(state := RunningScan, phase := phase, pausedFrom := None, taskId := resumed, nextScanAt := None));
      TwoSteps(c, old(State()), DropPause(resumed.value), Write(status));
    }

    /** What others do to the keys while an operation is under way. */
    method Others(steps: seq<Step>)
      modifies this
      ensures State() == After(c, old(State()), steps)
    {
      var s := After(c, State(), steps);
      clock, gate, pause, status := s.clock, s.gate, s.pause, s.status;
    }

    /** Queues a scan unless one owns the gate, at the first look or, after what others did in
        `between`, when the gate is to be taken; a failed publication gives the gate back. `next` is
        when to try again after such a failure. */
    method EnqueueScan(task: string, between: seq<Step>, published: bool, next: Time)
      returns (id: string, outcome: Outcome, ghost steps: seq<Step>)
      requires c.Valid()
      modifies this
      ensures State() == After(c, old(State()), steps)
      ensures GateOwner(old(State())).Some? ==> outcome == AlreadyQueued && State() == old(State()) && GateOwner(State()) == Some(id)
      ensures GateOwner(old(State())).None? ==>
                var taken := GateOwner(After(c, old(State()), [DeletePause] + between));
                && outcome == (if taken.Some? then AlreadyQueued else if published then Enqueued else PublishFailed)
                && (outcome.AlreadyQueued? ==> Some(id) == taken && State() == After(c, old(State()), [DeletePause] + between))
      ensures outcome.Enqueued? ==>
                && id == task && GateOwner(State()) == Some(task)
                && status.state == QueuedScan && status.taskId == Some(task) && !IsStale(c, State())
                && (between == [] ==> PauseOwner(State()).None?)
                && status.phase == Some("queued") && status.pausedFrom == None && status.current == status.total == 0
                && status.startedAt == None && status.nextScanAt == None && status.lastError == None && status.heartbeatAt == Some(clock)
      ensures outcome.PublishFailed? ==>
                && id == task && GateOwner(State()).None? && status.state == FailedScan && status.nextScanAt == Some(next)
                && status.taskId == Some(task) && status.phase == Some("queue_failed") && status.lastError == Some("publish failed")
    {
      hide After;
      c.TtlOutlastsStale();
      ghost var s0 := State();
      steps := [];
      assert After(c, s0, []) == s0 by { NoSteps(c, s0); }
      var existing := Read(gate, clock);
      if existing.Some? {
        return existing.value, AlreadyQueued, steps;
      }
      pause := None;
      steps := Extend(c, s0, steps, DeletePause);
      ghost var s1 := State();
      Others(between);
      assert between == [] ==> State() == s1 by { NoSteps(c, s1); }
      assert After(c, s0, [DeletePause] + between) == State() by {
        AfterAppend(c, s0, [DeletePause], between);
        OneStep(c, s0, DeletePause);
      }
      steps := [DeletePause] + between;
      var claimed := SetIfAbsent(task);
      if !claimed {
        existing := Read(gate, clock);
        return if existing.Some? then existing.value else task, AlreadyQueued, steps;
      }
      steps := Extend(c, s0, steps, SetGate(task));
      UpdateStatus(status.(state := QueuedScan, taskId := Some(task), phase := Some("queued"), pausedFrom := None,
                           current := 0, total := 0, startedAt := None, nextScanAt := None, lastError := None));
      steps := Extend(c, s0, steps, Write(status));
      if published {
        return task, Enqueued, steps;
      }
      UpdateStatus(status.(state := FailedScan, phase := Some("queue_failed"), nextScanAt := Some(next),
                           lastError := Some("publish failed")));
      steps := Extend(c, s0, steps, Write(status));
      ClearScanGate(task);
      steps := Extend(c, s0, steps, DropGate(task));
      return task, PublishFailed, steps;
    }

    /** Ends a scan in the slot grid of its start time; a task that lost the gate changes nothing. */
    method CompleteScan(task: string, discovered: nat, completedAt: Time) returns (ghost result: Status)
      requires c.intervalMinutes > 0
      modifies this
      ensures State() == Apply(c, old(State()), Complete(task, result))
      ensures GateOwner(old(State())) != Some(task) ==> State() == old(State())
      ensures GateOwner(old(State())) == Some(task) ==>
                && GateOwner(State()).None? && PauseOwner(State()) != Some(task)
                && status.state == IdleScan && status.lastCompletedAt == Some(completedAt)
                && status.nextScanAt.Some?
                && status == old(status).(state := IdleScan, taskId := Some(task), phase := Some("completed"), pausedFrom := None,
                                          current := discovered, total := discovered, lastCompletedAt := Some(completedAt),
                                          nextScanAt := status.nextScanAt, lastError := None)
                && var started := if old(status).startedAt.Some? then old(status).startedAt.value else completedAt;
                   OnNextSlot(started, c.intervalMinutes * 60_000_000, completedAt, status.nextScanAt.value)
    {
      result := status;
      if Read(gate, clock) != Some(task) {
        return;
      }
      var started := if status.startedAt.Some? then status.startedAt.value else completedAt;
      var interval := c.intervalMinutes * 60_000_000;
      var elapsed := Max(0, completedAt - started);
      var next := started + interval * (elapsed / interval + 1);
      NextSlot(started, interval, completedAt);
      UpdateStatus(status.(state := IdleScan, taskId := Some(task), phase := Some("completed"), pausedFrom := None,
                           current := discovered, total := discovered, lastCompletedAt := Some(completedAt),
                           nextScanAt := Some(next), lastError := None));
      result := status;
      ClearScanGate(task);
      ClearScanPause(task);
    }

    /** Frees the gate of a scan whose heartbeat has gone stale, and marks its work list. */
    method RecoverStaleScanGate(list: ExtractionQueue.WorkList) returns (recovered: bool)
      modifies this, list
      ensures recovered == (GateOwner(old(State())).Some? && IsStale(c, old(State())))
      ensures recovered <==>
                && old(gate) != None && clock < old(gate).value.expiry && old(status).state != PausedScan
                && (if old(status).heartbeatAt.Some? then old(status).heartbeatAt.value + c.Stale() < clock
                    else old(status).startedAt.Some? && old(status).startedAt.value + c.Stale() < clock)
      ensures recovered ==>
                && gate == None && status.state == InterruptedScan && status.taskId == Some(old(gate).value.owner)
                && status.phase == Some("interrupted") && status.nextScanAt == None && status.lastError == Some("scan heartbeat expired")
                && status.heartbeatAt == old(status).heartbeatAt
      ensures State() == Apply(c, old(State()), Recover)
      ensures recovered ==>
                list.payload == ExtractionQueue.Step(old(list.payload), ExtractionQueue.Interrupt(GateOwner(old(State())).value), clock)
      ensures !recovered ==> list.payload == old(list.payload)
    {
      var owner := Read(gate, clock);
      if owner.None? || status.state == PausedScan {
        return false;
      }
      var heartbeat := if status.heartbeatAt.Some? then status.heartbeatAt else status.startedAt;
      if heartbeat.None? || clock - heartbeat.value <= c.Stale() {
        return false;
      }
      if list.payload.scanTask == owner {
        list.payload := list.payload.(state := ExtractionQueue.BatchInterrupted, error := Some("scan heartbeat expired"));
      }
      UpdateStatus(Interrupted(status, owner.value));
      ClearScanGate(owner.value);
      ClearScanPause(owner.value);
      return true;
    }

    /** Clears the work list, wholly or for one instance. A clear that aborts the batch also marks
        the scan cancelled and releases the keys that name it; any other leaves them alone. */
    method ClearNewsExtractionQueue(list: ExtractionQueue.WorkList, instance: Option<string>)
      returns (cancelled: nat, taskIds: seq<string>)
      modifies this, list
      ensures var owns := ExtractionQueue.Truthy(old(list.payload.scanTask)) && GateOwner(old(State())) == old(list.payload.scanTask);
              && list.payload == ExtractionQueue.Step(old(list.payload), ExtractionQueue.Event.Clear(instance, owns), clock)
              && (if ExtractionQueue.Aborts(old(list.payload), instance, owns) && ExtractionQueue.Truthy(old(list.payload.scanTask))
                  then
                    && status.state == CancelledScan
                    && status.current == TerminalItems(list.payload.items) && status.total == list.payload.total
                    && GateOwner(State()) == (if owns then None else GateOwner(old(State())))
                    && PauseOwner(State()) != old(list.payload.scanTask)
                  else State() == old(State()))
      ensures taskIds == ExtractionQueue.TasksOf(ExtractionQueue.ScopeOf(old(list.payload.items), instance))
      ensures cancelled == |ExtractionQueue.ScopeOf(old(list.payload.items), instance)|
      ensures State() != old(State()) ==>
                && status == old(status).(state := CancelledScan, phase := Some("extracting"), current := status.current, total := status.total)
                && pause in {None, old(pause)}
    {
      hide ExtractionQueue.Step, ExtractionQueue.Aborts, ExtractionQueue.TasksOf, ExtractionQueue.ScopeOf, TerminalItems;
      var abort;
      cancelled, taskIds, abort := list.Clear(instance, Read(gate, clock), clock);
      assert list.payload.scanTask == old(list.payload.scanTask) by {
        ExtractionQueue.ClearKeepsScan(old(list.payload), instance, clock);
      }
      var scan := list.payload.scanTask;
      if ExtractionQueue.Truthy(scan) && abort {
        var terminal := CountTerminal(list.payload.items);
        UpdateStatus(status.(state := CancelledScan, phase := Some("extracting"), current := terminal, total := list.payload.total));
        ClearScanGate(scan.value);
        ClearScanPause(scan.value);
      }
    }
  }

  function TerminalItems(items: seq<ExtractionQueue.Item>): nat {
    ExtractionQueue.CountOf(items, ExtractionQueue.Completed) + ExtractionQueue.CountOf(items, ExtractionQueue.Failed)
    + ExtractionQueue.CountOf(items, ExtractionQueue.Cancelled)
  }

  method CountTerminal(items: seq<ExtractionQueue.Item>) returns (terminal: nat)
    ensures terminal == TerminalItems(items)
  {
    terminal := 0;
    for i := 0 to |items|
      invariant terminal == TerminalItems(items[..i])
    {
      assert items[..i + 1][..i] == items[..i];
      if items[i].status in {ExtractionQueue.Completed, ExtractionQueue.Failed, ExtractionQueue.Cancelled} {
        terminal := terminal + 1;
      }
    }
    assert items[..|items|] == items;
  }

  function Slot(started: Time, interval: Time, k: nat): Time { started + interval * k }

  /** next is the first slot after `completed` (or after `started`, if that is later). */
  ghost predicate OnNextSlot(started: Time, interval: Time, completed: Time, next: Time) {
    next - interval <= Max(started, completed) < next && exists k: nat :: next == Slot(started, interval, k)
  }

  lemma NextSlot(started: Time, interval: Time, completed: Time)
    requires interval > 0
    ensures OnNextSlot(started, interval, completed, started + interval * (Max(0, completed - started) / interval + 1))
  {
    var elapsed := Max(0, completed - started);
    var k: nat := elapsed / interval + 1;
    assert elapsed == elapsed / interval * interval + elapsed % interval;
    assert interval * k == elapsed / interval * interval + interval;
    assert Slot(started, interval, k) == started + interval * k;
  }

  lemma {:induction false} AfterAppend(c: Settings, s: Store, run: seq<Step>, later: seq<Step>)
    ensures After(c, s, run + later) == After(c, After(c, s, run), later)
  {
    hide Apply;
    if later == [] {
      assert run + later == run;
    } else {
      var n := |later| - 1;
      assert (run + later)[..|run + later| - 1] == run + later[..n];
      AfterAppend(c, s, run, later[..n]);
    }
  }

  lemma NoSteps(c: Settings, s: Store)
    ensures After(c, s, []) == s
  {
  }

  lemma OneStep(c: Settings, s: Store, step: Step)
    ensures After(c, s, [step]) == Apply(c, s, step)
  {
    assert [step][..0] == [];
  }

  lemma TwoSteps(c: Settings, s: Store, first: Step, second: Step)
    ensures After(c, s, [first, second]) == Apply(c, Apply(c, s, first), second)
  {
    assert [first, second][..1] == [first];
    OneStep(c, s, first);
  }

  ghost function Extend(c: Settings, s: Store, steps: seq<Step>, step: Step): (more: seq<Step>)
    ensures After(c, s, more) == Apply(c, After(c, s, steps), step)
  {
    assert (steps + [step])[..|steps|] == steps;
    steps + [step]
  }
}
