/** The cached model-queue snapshot and its refreshes. Each critical section of the lock is one
    step; callers, invalidations and background threads interleave freely. */
module SingleFlight {
  import opened Common

  type Time = int

  /** In the unit of the monotonic clock: five seconds. */
  const Ttl: Time := 5_000_000

  datatype Snapshot = Snapshot(at: Time, value: string)

  /** `building`: refreshes started whose snapshot is not stored yet; `ending`: refreshes that have
      stored theirs and only have to clear the flag. `waiting`: callers asleep on the condition. */
  datatype State = State(snapshot: Option<Snapshot>, refreshing: bool, building: nat, ending: nat, waiting: nat)

  /** What a caller gets: the cached value (perhaps after starting a background refresh), the
      refresh it runs itself, a place in the wait, or the answer that the cache is warming up. */
  datatype Answer = Cached(value: string) | RefreshesItself | Waits | WarmingUp

  datatype Step =
    | Request(now: Time)
    | Wake(now: Time)
    | Store(snapshot: Snapshot)
    | Finish
    | Fail
    | MarkStale
    | Start
    | LoadPersisted(value: string)

  function Flights(s: State): nat { s.building + s.ending }

  /** The rest of a caller's critical section, once it does not have to wait (any more). */
  function Decide(s: State, now: Time): (State, Answer) {
    var stale := s.snapshot.None? || now - s.snapshot.value.at >= Ttl;
    var start := stale && !s.refreshing;
    var t := if start then s.(refreshing := true, building := s.building + 1) else s;
    (t, if s.snapshot.Some? then Cached(s.snapshot.value.value) else if s.refreshing then WarmingUp else RefreshesItself)
  }

  function Requested(s: State, now: Time): (State, Answer) {
    if s.snapshot.None? && s.refreshing then (s.(waiting := s.waiting + 1), Waits) else Decide(s, now)
  }

  predicate Enabled(s: State, step: Step) {
    match step
    case Wake(_) => s.waiting > 0
    case Store(_) => s.building > 0
    case Finish => s.ending > 0
    case Fail => s.building > 0
    case _ => true
  }

  function Aged(s: State): State {
    if s.snapshot.Some? then s.(snapshot := Some(Snapshot(0, s.snapshot.value.value))) else s
  }

  function Started(s: State): State {
    if s.refreshing then s else s.(refreshing := true, building := s.building + 1)
  }

  function Apply(s: State, step: Step): State
    requires Enabled(s, step)
  {
    match step
    case Request(now) => Requested(s, now).0
    case Wake(now) => Decide(s.(waiting := s.waiting - 1), now).0
    case Store(snapshot) => s.(snapshot := Some(snapshot), building := s.building - 1, ending := s.ending + 1)
    case Finish => s.(refreshing := false, ending := s.ending - 1)
    case Fail => s.(refreshing := false, building := s.building - 1)
    case MarkStale => Started(Aged(s))
    case Start => Started(s)
    case LoadPersisted(value) => s.(snapshot := Some(Snapshot(0, value)))
  }

  const Initial := State(None, false, 0, 0, 0)

  predicate Possible(run: seq<Step>)
    decreases |run|, 0
  {
    run == [] || (Possible(run[..|run| - 1]) && Enabled(After(run[..|run| - 1]), run[|run| - 1]))
  }

  function After(run: seq<Step>): State
    requires Possible(run)
    decreases |run|, 1
  {
    if run == [] then Initial else Apply(After(run[..|run| - 1]), run[|run| - 1])
  }

  /** The flag is up exactly when one refresh is pending or running, and there is never a second. */
  predicate Single(s: State) {
    Flights(s) == if s.refreshing then 1 else 0
  }

  lemma {:induction false} AlwaysSingle(run: seq<Step>)
    requires Possible(run)
    ensures Single(After(run))
  {
    if run != [] {
      AlwaysSingle(run[..|run| - 1]);
    }
  }

  /** Once there is a snapshot there always is one. */
  lemma {:induction false} SnapshotStays(run: seq<Step>, k: nat)
    requires Possible(run) && k <= |run| && Possible(run[..k]) && After(run[..k]).snapshot.Some?
    ensures After(run).snapshot.Some?
  {
    if k < |run| {
      assert run[..|run| - 1][..k] == run[..k];
      SnapshotStays(run[..|run| - 1], k);
    } else {
      assert run[..k] == run;
    }
  }

  /** From then on no caller waits, refreshes on its own time, or is turned away. */
  lemma NeverBlocksAgain(run: seq<Step>, k: nat, now: Time)
    requires Possible(run) && k <= |run| && Possible(run[..k]) && After(run[..k]).snapshot.Some?
    ensures Requested(After(run), now).1.Cached?
  {
    SnapshotStays(run, k);
  }

  /** A caller waits exactly when there is no snapshot and a refresh is under way; a woken caller
      never goes back to waiting. It starts a refresh exactly when what it found is too old (or
      missing) and nobody else is refreshing, and an answer from the cache is at most `Ttl` old
      unless a refresh is under way when the answer is given. */
  lemma AnswersAreRight(s: State, now: Time)
    requires Single(s)
    ensures Requested(s, now).1.Waits? <==> s.snapshot.None? && Flights(s) == 1
    ensures !Decide(s, now).1.Waits?
    ensures Flights(Decide(s, now).0) == Flights(s) + 1
            <==> (s.snapshot.None? || now - s.snapshot.value.at >= Ttl) && Flights(s) == 0
    ensures Requested(s, now).1.Cached? ==>
              s.snapshot.Some? && Requested(s, now).1.value == s.snapshot.value.value
              && (now - s.snapshot.value.at < Ttl || Flights(Requested(s, now).0) == 1)
  {
  }

  /** Marking the snapshot stale leaves a refresh under way and makes the value count as old. */
  lemma StaleMeansRefreshing(s: State, now: Time)
    requires Single(s) && now >= Ttl
    ensures var t := Apply(s, MarkStale);
            Flights(t) == 1 && (s.snapshot.Some? ==> t.snapshot.Some? && now - t.snapshot.value.at >= Ttl
                                                     && t.snapshot.value.value == s.snapshot.value.value)
  {
  }

  /** A persisted snapshot is served like a cached one, but counts as old from the start. */
  lemma LoadedCountsAsOld(s: State, value: string, now: Time)
    requires now >= Ttl
    ensures var t := Apply(s, LoadPersisted(value));
            && Requested(t, now).1 == Cached(value)
            && t.snapshot == Some(Snapshot(0, value))
            && t.(snapshot := s.snapshot) == s
            && (!s.refreshing ==> Flights(Requested(t, now).0) == Flights(s) + 1)
  {
  }

  /** Resetting the cache keeps this exactly when no refresh is in flight. */
  lemma ResetKeepsSingle(s: State)
    requires Single(s)
    ensures Single(s.(snapshot := None, refreshing := false)) <==> Flights(s) == 0
  {
  }

  // ------------------------------------------------------------ the shared variables

  class SnapshotCache {
    var snapshot: Option<Snapshot>
    var refreshing: bool
    var building: nat
    var ending: nat
    var waiting: nat

    constructor ()
      ensures Current() == Initial
    {
      snapshot, refreshing, building, ending, waiting := None, false, 0, 0, 0;
    }

    function Current(): State
      reads this
    {
      State(snapshot, refreshing, building, ending, waiting)
    }

    /** The section a request runs first; `Waits` releases the lock until woken. */
    method CachedSnapshot(now: Time) returns (answer: Answer)
      modifies this
      ensures Current() == Apply(old(Current()), Request(now))
      ensures answer == Requested(old(Current()), now).1
    {
      if snapshot.None? && refreshing {
        waiting := waiting + 1;
        return Waits;
      }
      answer := Continue(now);
    }

    /** The section after the wait, whether notified or timed out. */
    method Woken(now: Time) returns (answer: Answer)
      requires waiting > 0
      modifies this
      ensures Current() == Apply(old(Current()), Wake(now))
      ensures answer == Decide(old(Current()), now).1 && !answer.Waits?
    {
      waiting := waiting - 1;
      answer := Continue(now);
    }

    method Continue(now: Time) returns (answer: Answer)
      modifies this`refreshing, this`building
      ensures (Current(), answer) == Decide(old(Current()), now)
    {
      var cached := snapshot;
      var warming := cached.None? && refreshing;
      var stale := cached.None? || now - cached.value.at >= Ttl;
      var shouldRefresh := stale && !refreshing;
      if shouldRefresh {
        refreshing := true;
        building := building + 1;
      }
      if cached.None? {
        return if warming then WarmingUp else RefreshesItself;
      }
      return Cached(cached.value.value);
    }

    method StoreSnapshot(now: Time, value: string)
      requires building > 0
      modifies this
      ensures Current() == Apply(old(Current()), Store(Snapshot(now, value)))
    {
      snapshot := Some(Snapshot(now, value));
      building, ending := building - 1, ending + 1;
    }

    /** The `finally` block of a refresh, after it stored its snapshot or failed to build one. */
    method EndRefresh(stored: bool)
      requires if stored then ending > 0 else building > 0
      modifies this
      ensures Current() == Apply(old(Current()), if stored then Finish else Fail)
    {
      if stored {
        ending := ending - 1;
      } else {
        building := building - 1;
      }
      refreshing := false;
    }

    method MarkStale()
      modifies this
      ensures Current() == Apply(old(Current()), Step.MarkStale)
    {
      if snapshot.Some? {
        snapshot := Some(Snapshot(0, snapshot.value.value));
      }
      StartRefresh();
    }

    method StartRefresh()
      modifies this`refreshing, this`building
      ensures Current() == Apply(old(Current()), Start)
    {
      if refreshing {
        return;
      }
      refreshing := true;
      building := building + 1;
    }
  }
}
