/** Moving drained legacy Celery messages into durable Go jobs, for the extract and mapping lanes.
    The process may stop at any point, and the Go side keeps working on its jobs meanwhile; nothing
    publishes to the legacy lists any more. */
module Cutover {
  import opened Common

  type Key = string

  /** Where a lane's messages come from and where its jobs go. */
  datatype Lane = Lane(task: string, queue: string, dedupePrefix: string)

  const ExtractLane := Lane("market_loop.retry_news_item", "extract", "news:")
  const MappingLane := Lane("market_loop.resolve_event_assets", "assist", "mapping:")

  /** A stored message after JSON and base64 decoding. */
  datatype Raw = Raw(task: string, id: string, args: seq<string>, kwargs: Option<string>, priority: Option<int>)

  datatype Message = Message(id: string, subject: string, kwargs: string, priority: int)

  datatype Error =
    | UnsupportedTask
    | InvalidId
    | NoSubject
    | InvalidKwargs
    | DuplicateIds
    | RowsMissing
    | NotPersisted
    | ArchiveExists
    | NoSuchKey

  datatype Job = Job(queue: string, dedupe: string, active: bool, subject: string, kwargs: string, priority: int)

  type Jobs = map<string, Job>

  function Decode(lane: Lane, isUuid: string -> bool, raw: Raw): Result<Message, Error> {
    if raw.task != lane.task then Err(UnsupportedTask)
    else if !isUuid(raw.id) then Err(InvalidId)
    else if raw.args == [] then Err(NoSubject)
    else if !isUuid(raw.args[0]) then Err(InvalidId)
    else if raw.kwargs.None? then Err(InvalidKwargs)
    else Ok(Message(raw.id, raw.args[0], raw.kwargs.value,
                    if raw.priority.None? || raw.priority.value == 0 then 5 else raw.priority.value))
  }

  /** All messages in order, or the error of the first bad one. */
  function DecodeAll(lane: Lane, isUuid: string -> bool, raws: seq<Raw>): (r: Result<seq<Message>, Error>)
    ensures r.Ok? ==> |r.value| == |raws|
    ensures r.Ok? <==> forall raw :: raw in raws ==> Decode(lane, isUuid, raw).Ok?
    ensures r.Ok? ==> forall raw :: raw in raws ==> Decode(lane, isUuid, raw).value in r.value
  {
    if raws == [] then Ok([])
    else
      match Decode(lane, isUuid, raws[0])
      case Err(e) => Err(e)
      case Ok(m) =>
        match DecodeAll(lane, isUuid, raws[1..])
        case Err(e) => Err(e)
        case Ok(rest) => Ok([m] + rest)
  }

  /** The contents of the listed queues, one after the other. */
  function Contents(lists: map<Key, seq<Raw>>, keys: seq<Key>): (raws: seq<Raw>)
    requires forall key :: key in keys ==> key in lists
    ensures forall key, raw :: key in keys && raw in lists[key] ==> raw in raws
  {
    if keys == [] then [] else lists[keys[0]] + Contents(lists, keys[1..])
  }

  // What a stored message asks for, in its own fields.

  /** A message that can be moved: the lane's task, a UUID as id, a UUID as first argument, and readable
      keyword arguments. */
  predicate Movable(lane: Lane, isUuid: string -> bool, raw: Raw) {
    raw.task == lane.task && isUuid(raw.id) && |raw.args| > 0 && isUuid(raw.args[0]) && raw.kwargs.Some?
  }

  /** The job works on the message's first argument, with its keyword arguments and its priority, which
      is 5 when it is absent or zero. */
  predicate WorksOn(job: Job, lane: Lane, raw: Raw)
    requires |raw.args| > 0
  {
    && job.queue == lane.queue && job.dedupe == lane.dedupePrefix + raw.args[0] && job.subject == raw.args[0]
    && Some(job.kwargs) == raw.kwargs
    && (if raw.priority == None || raw.priority == Some(0) then job.priority == 5 else Some(job.priority) == raw.priority)
  }

  predicate AllMovable(lane: Lane, isUuid: string -> bool, raws: seq<Raw>) {
    forall raw :: raw in raws ==> Movable(lane, isUuid, raw)
  }

  const BadMessage: set<Error> := {UnsupportedTask, InvalidId, NoSubject, InvalidKwargs}

  /** A message is decoded exactly if it can be moved; otherwise the error names what is wrong first. */
  lemma DecodeMeans(lane: Lane, isUuid: string -> bool, raw: Raw)
    ensures Decode(lane, isUuid, raw).Ok? <==> Movable(lane, isUuid, raw)
    ensures Decode(lane, isUuid, raw).Ok? ==>
              var m := Decode(lane, isUuid, raw).value; m.id == raw.id && WorksOn(JobFor(lane, m), lane, raw)
    ensures Decode(lane, isUuid, raw) == Err(UnsupportedTask) <==> raw.task != lane.task
    ensures Decode(lane, isUuid, raw) == Err(NoSubject) <==> raw.task == lane.task && isUuid(raw.id) && |raw.args| == 0
    ensures Decode(lane, isUuid, raw) == Err(InvalidKwargs)
            <==> raw.task == lane.task && isUuid(raw.id) && |raw.args| > 0 && isUuid(raw.args[0]) && raw.kwargs.None?
    ensures Decode(lane, isUuid, raw).Err? ==>
              Decode(lane, isUuid, raw).error in BadMessage
  {
  }

  lemma {:induction false} DecodedInOrder(lane: Lane, isUuid: string -> bool, raws: seq<Raw>)
    ensures var r := DecodeAll(lane, isUuid, raws);
            && (r.Ok? <==> AllMovable(lane, isUuid, raws))
            && (r.Err? ==> r.error in BadMessage)
            && (r.Ok? ==> forall i :: 0 <= i < |raws| ==> Decode(lane, isUuid, raws[i]) == Ok(r.value[i]))
  {
    forall raw | raw in raws
      ensures Decode(lane, isUuid, raw).Ok? <==> Movable(lane, isUuid, raw)
    {
      DecodeMeans(lane, isUuid, raw);
    }
    if raws != [] {
      DecodeMeans(lane, isUuid, raws[0]);
      DecodedInOrder(lane, isUuid, raws[1..]);
    }
  }

  /** The contents of all lists in the order of the keys, and nothing else. */
  lemma {:induction false} ContentsInOrder(lists: map<Key, seq<Raw>>, keys: seq<Key>, more: seq<Key>)
    requires forall key :: key in keys + more ==> key in lists
    ensures (forall key :: key in keys ==> key in keys + more) && (forall key :: key in more ==> key in keys + more)
    ensures Contents(lists, keys + more) == Contents(lists, keys) + Contents(lists, more)
    ensures |keys| == 1 ==> Contents(lists, keys) == lists[keys[0]]
  {
    if keys == [] {
      assert keys + more == more;
    } else {
      assert keys == [keys[0]] + keys[1..];
      assert (keys + more)[0] == keys[0] && (keys + more)[1..] == keys[1..] + more;
      ContentsInOrder(lists, keys[1..], more);
    }
  }

  /** Every message read is in one of the lists. */
  lemma {:induction false} ContentsFromLists(lists: map<Key, seq<Raw>>, keys: seq<Key>)
    requires forall key :: key in keys ==> key in lists
    ensures forall raw :: raw in Contents(lists, keys) ==> exists key :: key in keys && raw in lists[key]
  {
    if keys != [] {
      ContentsFromLists(lists, keys[1..]);
      assert keys == [keys[0]] + keys[1..];
    }
  }

  /** The message was given a job: its own, which works on what it asks for, or one that had its id or was
      active under its dedupe key. That job is there. */
  predicate Served(lane: Lane, jobs: Jobs, backings: Backings, raw: Raw) {
    exists m :: m in backings && m.id == raw.id && ServedBy(lane, jobs, raw, backings[m])
  }

  predicate ServedBy(lane: Lane, jobs: Jobs, raw: Raw, b: Backing) {
    && |raw.args| > 0 && b.job in jobs
    && if b.inserted then b.job == raw.id && WorksOn(b.seen, lane, raw) && WorksOn(jobs[b.job], lane, raw) && b.seen.active
       else b.job == raw.id
            || (b.seen.active && b.seen.queue == jobs[b.job].queue == lane.queue
                && b.seen.dedupe == jobs[b.job].dedupe == lane.dedupePrefix + raw.args[0])
  }

  lemma BackedIsServed(lane: Lane, isUuid: string -> bool, jobs: Jobs, backings: Backings, raw: Raw)
    requires AllBack(jobs, lane, backings) && Decode(lane, isUuid, raw).Ok? && Decode(lane, isUuid, raw).value in backings
    ensures Served(lane, jobs, backings, raw)
  {
    DecodeMeans(lane, isUuid, raw);
    var m := Decode(lane, isUuid, raw).value;
    assert Backs(jobs, lane, m, backings[m]);
    hide Decode, AllBack;
  }

  function JobFor(lane: Lane, m: Message): Job {
    Job(lane.queue, lane.dedupePrefix + m.subject, true, m.subject, m.kwargs, m.priority)
  }

  predicate Competes(jobs: Jobs, lane: Lane, m: Message, j: string) {
    j in jobs && jobs[j].active && jobs[j].queue == lane.queue && jobs[j].dedupe == lane.dedupePrefix + m.subject
  }

  /** The insertion collides with the primary key or with the active job of the same dedupe key. */
  predicate Conflict(jobs: Jobs, lane: Lane, m: Message) {
    m.id in jobs || exists j :: j in jobs && Competes(jobs, lane, m, j)
  }

  /** The job does the message's work: same lane and dedupe key, same payload, same priority. */
  predicate Carries(job: Job, lane: Lane, m: Message) {
    && job.queue == lane.queue && job.dedupe == lane.dedupePrefix + m.subject
    && job.subject == m.subject && job.kwargs == m.kwargs && job.priority == m.priority
  }

  /** How a message got its job: which one, whether it was inserted for it, and the job as it was at
      that moment. */
  datatype Backing = Backing(job: string, inserted: bool, seen: Job)

  /** A job inserted for the message is its own, carries its work, and was ready to run; otherwise it
      had the message's id, or it was active under the message's dedupe key. */
  predicate Justified(lane: Lane, m: Message, b: Backing) {
    if b.inserted then b.job == m.id && b.seen.active && Carries(b.seen, lane, m)
    else b.job == m.id
         || (b.seen.active && b.seen.queue == lane.queue && b.seen.dedupe == lane.dedupePrefix + m.subject)
  }

  /** What becomes of a job: it is for the same work ever after, and once ended it stays ended. */
  predicate SameJob(before: Job, after: Job) {
    && after.queue == before.queue && after.dedupe == before.dedupe
    && after.subject == before.subject && after.kwargs == before.kwargs && after.priority == before.priority
    && (after.active ==> before.active)
  }

  /** The backing still stands: its job is there. */
  predicate Backs(jobs: Jobs, lane: Lane, m: Message, b: Backing) {
    Justified(lane, m, b) && b.job in jobs && SameJob(b.seen, jobs[b.job])
  }

  type Backings = map<Message, Backing>

  predicate AllBack(jobs: Jobs, lane: Lane, got: Backings) {
    forall m :: m in got ==> Backs(jobs, lane, m, got[m])
  }

  /** The backing was found or made after `first`: what it saw had not ended by then. */
  predicate Since(first: Jobs, m: Message, b: Backing) {
    if b.inserted then m.id !in first else b.job in first ==> SameJob(first[b.job], b.seen)
  }

  predicate AllSince(first: Jobs, got: Backings) {
    forall m :: m in got ==> Since(first, m, got[m])
  }

  /** The unique index over active jobs. */
  predicate ActiveUnique(jobs: Jobs) {
    forall i, j ::
      i in jobs && j in jobs && jobs[i].active && jobs[j].active
      && jobs[i].queue == jobs[j].queue && jobs[i].dedupe == jobs[j].dedupe
      ==> i == j
  }

  /** Jobs are never removed. */
  predicate Keeps(before: Jobs, after: Jobs) {
    forall j :: j in before ==> j in after && SameJob(before[j], after[j])
  }

  lemma KeepsTwice(a: Jobs, b: Jobs, c: Jobs)
    requires Keeps(a, b) && Keeps(b, c)
    ensures Keeps(a, c)
  {
  }

  lemma BacksStay(before: Jobs, after: Jobs, lane: Lane, got: Backings)
    requires Keeps(before, after) && AllBack(before, lane, got)
    ensures AllBack(after, lane, got)
  {
    hide Justified;
    forall m | m in got
      ensures Backs(after, lane, m, got[m])
    {
      assert Backs(before, lane, m, got[m]);
    }
  }

  /** Inserting what does not conflict keeps the index unique. */
  lemma InsertKeepsUnique(jobs: Jobs, lane: Lane, m: Message)
    requires ActiveUnique(jobs) && !Conflict(jobs, lane, m)
    ensures ActiveUnique(jobs[m.id := JobFor(lane, m)]) && Keeps(jobs, jobs[m.id := JobFor(lane, m)])
  {
    forall j | j in jobs
      ensures !Competes(jobs, lane, m, j)
    {
    }
  }

  // ------------------------------------------------------------ what a run may do to the queues

  /** The queues, the committed jobs, and how every message processed so far got its job. */
  datatype Store = Store(lists: map<Key, seq<Raw>>, archives: map<Key, seq<Raw>>, jobs: Jobs, backings: Backings)

  /** The list is still there, or was renamed as a whole to an archive. */
  ghost predicate Kept(s: Store, t: Store, key: Key)
    requires key in s.lists
  {
    || (key in t.lists && t.lists[key] == s.lists[key])
    || exists a :: a in t.archives && a !in s.archives && t.archives[a] == s.lists[key]
  }

  /** The archive was there before, or is a list that was renamed. */
  ghost predicate Explained(s: Store, t: Store, a: Key)
    requires a in t.archives
  {
    if a in s.archives then t.archives[a] == s.archives[a]
    else exists key :: key in s.lists && key !in t.lists && s.lists[key] == t.archives[a]
  }

  /** Nothing is lost and nothing appears: lists stay or become archives, archives and jobs stay. */
  ghost predicate Conserves(s: Store, t: Store) {
    && (forall key :: key in s.lists ==> Kept(s, t, key))
    && (forall key :: key in t.lists ==> key in s.lists && t.lists[key] == s.lists[key])
    && (forall a :: a in s.archives ==> a in t.archives)
    && (forall a :: a in t.archives ==> Explained(s, t, a))
    && Keeps(s.jobs, t.jobs)
    && (forall m :: m in s.backings ==> m in t.backings && t.backings[m] == s.backings[m])
  }

  lemma KeptTwice(s: Store, t: Store, u: Store, key: Key)
    requires Conserves(s, t) && Conserves(t, u) && key in s.lists
    ensures Kept(s, u, key)
  {
    hide Keeps;
    assert Kept(s, t, key);
    if key in t.lists {
      assert Kept(t, u, key);
      if !(key in u.lists && u.lists[key] == t.lists[key]) {
        var a :| a in u.archives && a !in t.archives && u.archives[a] == t.lists[key];
        assert a !in s.archives;
      }
    } else {
      var a :| a in t.archives && a !in s.archives && t.archives[a] == s.lists[key];
      assert Explained(t, u, a);
    }
  }

  lemma ExplainedTwice(s: Store, t: Store, u: Store, a: Key)
    requires Conserves(s, t) && Conserves(t, u) && a in u.archives
    ensures Explained(s, u, a)
  {
    hide Keeps, Kept;
    assert Explained(t, u, a);
    if a in t.archives {
      assert Explained(s, t, a);
      if a !in s.archives {
        var key :| key in s.lists && key !in t.lists && s.lists[key] == t.archives[a];
        assert key !in u.lists;
      }
    } else {
      var key :| key in t.lists && key !in u.lists && t.lists[key] == u.archives[a];
      assert key in s.lists && s.lists[key] == t.lists[key];
    }
  }

  /** Runs may follow each other, crashed or not: what each conserves, all of them conserve. */
  lemma ConservesTwice(s: Store, t: Store, u: Store)
    requires Conserves(s, t) && Conserves(t, u)
    ensures Conserves(s, u)
  {
    hide Explained, Kept, Keeps;
    KeepsTwice(s.jobs, t.jobs, u.jobs);
    forall key | key in s.lists
      ensures Kept(s, u, key)
    {
      KeptTwice(s, t, u, key);
    }
    forall a | a in u.archives
      ensures Explained(s, u, a)
    {
      ExplainedTwice(s, t, u, a);
    }
  }

  /** Every message of the list has been given a job. */
  predicate AllBacked(lane: Lane, isUuid: string -> bool, backings: Backings, raws: seq<Raw>) {
    forall raw :: raw in raws ==> Decode(lane, isUuid, raw).Ok? && Decode(lane, isUuid, raw).value in backings
  }

  predicate Grown(before: Backings, after: Backings) {
    forall m :: m in before ==> m in after && after[m] == before[m]
  }

  datatype Report = Report(requested: nat, queued: nat, existing: nat, archived: seq<(Key, Key)>, applied: bool)

  datatype Outcome = Done(report: Report) | Failed(error: Error) | Stopped

  class Bridge {
    const lane: Lane
    const isUuid: string -> bool
    const digest: Key -> string
    var lists: map<Key, seq<Raw>>
    var archives: map<Key, seq<Raw>>
    var jobs: Jobs
    var rows: set<string>
    ghost var backings: Backings

    constructor (lane: Lane, isUuid: string -> bool, digest: Key -> string, lists: map<Key, seq<Raw>>, jobs: Jobs, rows: set<string>)
      requires ActiveUnique(jobs)
      ensures Safe() && State() == Store(lists, map[], jobs, map[])
    {
      this.lane, this.isUuid, this.digest := lane, isUuid, digest;
      this.lists, this.archives, this.jobs, this.rows, this.backings := lists, map[], jobs, rows, map[];
    }

    ghost function State(): Store
      reads this
    {
      Store(lists, archives, jobs, backings)
    }

    /** Every archived message has been given a job, and every job given is there and justified. */
    ghost predicate Safe()
      reads this
    {
      && ActiveUnique(jobs) && AllBack(jobs, lane, backings)
      && forall a :: a in archives ==> AllBacked(lane, isUuid, backings, archives[a])
    }

    /** Other processes: workers finish and retry jobs, the API adds jobs. Rows inserted in a
        transaction still open are invisible to them but keep their id and dedupe key taken. */
    method Others(pending: Jobs)
      requires ActiveUnique(jobs + pending) && jobs.Keys !! pending.Keys
      modifies this`jobs
      ensures ActiveUnique(jobs + pending) && jobs.Keys !! pending.Keys && Keeps(old(jobs), jobs)
    {
      assert Keeps(jobs, jobs);
      var next: Jobs := *;
      if Keeps(jobs, next) && next.Keys !! pending.Keys && ActiveUnique(next + pending) {
        jobs := next;
      }
    }

    /** One insertion. When it conflicts, a look-up must find the job it conflicted with, which may
        have ended in between. */
    method InsertOne(m: Message, pending: Jobs, ghost first: Jobs, ghost got: Backings)
      returns (more: Jobs, insertion: Insertion, ghost b: Backing)
      requires Open(first, jobs, pending) && AllBack(jobs + pending, lane, got)
      modifies this`jobs
      ensures Open(first, jobs, more)
      ensures insertion == Added ==> b.inserted && more == pending[m.id := b.seen] && more[m.id] == JobFor(lane, m)
      ensures insertion == Found ==> !b.inserted && more == pending
      ensures insertion != Lost ==>
                && b.job in jobs + more && (jobs + more)[b.job] == b.seen && Justified(lane, m, b) && Since(first, m, b)
                && AllBack(jobs + more, lane, got[m := b])
    {
      hide Conflict, Keeps, ActiveUnique, JobFor, AllBack, Justified, Since;
      ghost var start := jobs;
      Others(pending);
      OthersKeep(first, start, jobs, pending, lane, got);
      more := pending;
      if !Conflict(jobs + pending, lane, m) {
        b := Backing(m.id, true, JobFor(lane, m));
        Inserted(first, jobs, pending, lane, m, got);
        more := pending[m.id := JobFor(lane, m)];
        return more, Added, b;
      }
      start := jobs;
      Others(pending);
      OthersKeep(first, start, jobs, pending, lane, got);
      if !Conflict(jobs + pending, lane, m) {
        return more, Lost, Backing(m.id, false, JobFor(lane, m));
      }
      b := FoundBacking(first, jobs, pending, lane, m, got);
      return more, Found, b;
    }

    /** One database transaction: every message gets a job, or nothing is inserted and nothing given.
        A message that had been given its job before keeps that one on record. */
    method InsertJobs(messages: seq<Message>) returns (end: TransactionEnd, ghost got: Backings)
      requires ActiveUnique(jobs) && AllBack(jobs, lane, backings) && DistinctIds(messages)
      modifies this`jobs, this`backings
      ensures ActiveUnique(jobs) && Keeps(old(jobs), jobs) && AllBack(jobs, lane, backings)
      ensures !end.Committed? ==> backings == old(backings)
      ensures end.Committed? ==>
                && backings == got + old(backings) && AllSince(old(jobs), got)
                && (forall m :: m in messages ==> m in got)
                && end.queued == CountInserted(got, messages) && end.queued + end.existing == |messages|
      ensures end.Aborted? ==> end.error == NotPersisted
    {
      hide Keeps, ActiveUnique, AllBack, Open, AllSince, Since, Justified, Backs, CountInserted, DistinctIds;
      var pending: Jobs := map[];
      var queued, existing := 0, 0;
      got := map[];
      Begin(jobs, lane);
      NothingGiven(jobs);
      assert messages[..0] == [];
      for i := 0 to |messages|
        invariant Open(old(jobs), jobs, pending) && AllBack(jobs + pending, lane, got) && AllSince(old(jobs), got)
        invariant backings == old(backings)
        invariant GivenExactly(got, messages[..i])
        invariant queued + existing == i && queued == CountInserted(got, messages[..i])
      {
        if * {
          RolledBack(old(jobs), jobs, pending, lane, backings);
          return Interrupted, got;
        }
        var insertion;
        ghost var b;
        pending, insertion, b := InsertOne(messages[i], pending, old(jobs), got);
        if insertion == Lost {
          RolledBack(old(jobs), jobs, pending, lane, backings);
          return Aborted(NotPersisted), got;
        }
        GivenOneMore(old(jobs), got, messages, i, b);
        got := got[messages[i] := b];
        match insertion {
          case Added =>
            queued := queued + 1;
          case Found =>
            existing := existing + 1;
        }
      }
      assert messages[..|messages|] == messages;
      if * {
        RolledBack(old(jobs), jobs, pending, lane, backings);
        return Interrupted, got;
      }
      Committing(old(jobs), jobs, pending, lane, got, backings);
      jobs := jobs + pending;
      backings := got + backings;
      return Committed(queued, existing), got;
    }

    /** RENAMENX key archive */
    method Rename(key: Key, archive: Key)
      requires Safe() && key in lists && archive !in archives && AllBacked(lane, isUuid, backings, lists[key])
      modifies this`lists, this`archives
      ensures Safe() && Conserves(old(State()), State())
      ensures lists == old(lists) - {key} && archives == old(archives)[archive := old(lists)[key]]
    {
      hide AllBacked, ActiveUnique, Keeps, Conserves, AllBack;
      ghost var s := State();
      archives := archives[archive := lists[key]];
      lists := lists - {key};
      Renamed(s, key, archive);
    }

    /** Renames every list to its archive. */
    method ArchiveLists(keys: seq<Key>, stamp: string) returns (end: ArchiveEnd)
      requires Safe() && ToDo(lists, keys) && ListsAreBacked(lane, isUuid, backings, lists)
      modifies this`lists, this`archives, this`jobs
      ensures Safe() && Conserves(old(State()), State())
      ensures end.Archived? ==> lists == map[]
      ensures end.Archived? ==>
                ArchivedAs(old(lists), archives, keys, stamp, digest, end.names)
      ensures end.ArchivingFailed? ==> end.error in {ArchiveExists, NoSuchKey}
    {
      hide AllBacked, ActiveUnique, Keeps, Conserves, AllBack, ArchivedAs, ToDo;
      assert keys[0..] == keys;
      ghost var s0 := State();
      ConservesItself(s0);
      assert ArchivedAs(lists, archives, [], stamp, digest, []) by { NothingArchived(lists, archives, stamp, digest); }
      var archived: seq<(Key, Key)> := [];
      for i := 0 to |keys|
        invariant Safe() && Conserves(s0, State())
        invariant ToDo(lists, keys[i..]) && ListsAreBacked(lane, isUuid, backings, lists)
        invariant ArchivedAs(old(lists), archives, keys[..i], stamp, digest, archived)
      {
        if * {
          return ArchivingInterrupted;
        }
        ghost var s1 := State();
        Idle();
        JobsMove(lane, s1, jobs);
        ConservesTwice(s0, s1, State());
        var key := keys[i];
        var archive := stamp + ":" + digest(key);
        if archive in archives {
          return ArchivingFailed(ArchiveExists);
        }
        if key !in lists {
          return ArchivingFailed(NoSuchKey);
        }
        ghost var s2 := State();
        ListsShrink(s0, s2);
        Rename(key, archive);
        ConservesTwice(s0, s2, State());
        ArchivedOneMore(old(lists), s2.archives, keys[..i], stamp, digest, archived, key);
        archived := archived + [(key, archive)];
        assert keys[..i + 1] == keys[..i] + [key];
        assert keys[i..] == [key] + keys[i + 1..];
        OneLessToDo(s2.lists, key, keys[i + 1..]);
      }
      NothingToDo(lists, keys);
      assert keys[..|keys|] == keys;
      return Archived(archived);
    }

    /** Others at work while no transaction is open. */
    method Idle()
      requires ActiveUnique(jobs)
      modifies this`jobs
      ensures ActiveUnique(jobs) && Keeps(old(jobs), jobs)
    {
      assert jobs + map[] == jobs;
      Others(map[]);
      assert jobs + map[] == jobs;
    }

    method IdleSafely()
      requires Safe()
      modifies this`jobs
      ensures Safe() && Conserves(old(State()), State())
    {
      hide AllBacked, ActiveUnique, Keeps, Conserves, AllBack;
      ghost var s := State();
      Idle();
      JobsMove(lane, s, jobs);
    }

    /** Reads all messages; one bad message, or one id used twice, stops everything. */
    method DiscoverMessages(keys: seq<Key>) returns (r: Result<seq<Message>, Error>)
      requires forall key :: key in keys ==> key in lists
      ensures var raws := Contents(lists, keys);
              && (r.Err? && r.error in BadMessage <==> !AllMovable(lane, isUuid, raws))
              && (r == Err(DuplicateIds) <==> AllMovable(lane, isUuid, raws) && !DistinctRaws(raws))
              && (r.Err? ==> r.error in BadMessage || r.error == DuplicateIds)
              && (r.Ok? ==> DecodeAll(lane, isUuid, raws) == Ok(r.value) && DistinctIds(r.value)
                            && ((exists m :: m in r.value && m.subject !in rows) <==> !SubjectsIn(raws, rows)))
    {
      hide Decode, DecodeAll, Movable, AllMovable, DistinctIds, DistinctRaws, SubjectsIn;
      var raws := Contents(lists, keys);
      var decoded := DecodeAll(lane, isUuid, raws);
      DecodedInOrder(lane, isUuid, raws);
      if decoded.Err? {
        return decoded;
      }
      MessagesAsRaws(lane, isUuid, raws, decoded.value, rows);
      if !DistinctIds(decoded.value) {
        return Err(DuplicateIds);
      }
      return decoded;
    }

    /** The cutover. It may fail or stop anywhere and be run again. `got` tells how each message was
        given its job in this run. */
    method Migrate(keys: seq<Key>, stamp: string, apply: bool) returns (o: Outcome, ghost got: Backings)
      requires Safe() && forall key :: key in keys <==> key in lists
      modifies this
      ensures Safe() && Conserves(old(State()), State())
      ensures !apply ==> State() == old(State())
      ensures !DecodeAll(lane, isUuid, Contents(old(lists), keys)).Ok? ==> o.Failed? && State() == old(State())
      ensures o.Failed? && o.error in {DuplicateIds, RowsMissing} ==> State() == old(State())
      ensures o == Failed(NotPersisted) ==> lists == old(lists) && archives == old(archives) && backings == old(backings)
      ensures var raws := Contents(old(lists), keys);
              && (o.Failed? && o.error in BadMessage <==> !AllMovable(lane, isUuid, raws))
              && (o == Failed(DuplicateIds) <==> AllMovable(lane, isUuid, raws) && !DistinctRaws(raws))
              && (o == Failed(RowsMissing)
                  <==> apply && AllMovable(lane, isUuid, raws) && DistinctRaws(raws) && !SubjectsIn(raws, old(rows)))
      ensures o.Done? && apply ==>
                forall key, raw :: key in old(lists) && raw in old(lists)[key] ==> Served(lane, jobs, backings, raw)
      ensures o.Done? ==>
                && o.report.requested == |Contents(old(lists), keys)| && o.report.applied == apply
                && (apply ==>
                      && o.report.queued + o.report.existing == o.report.requested
                      && (forall key :: key in lists ==> lists[key] == [])
                      && (Contents(old(lists), keys) != [] ==>
                            ArchivedAs(old(lists), archives, keys, stamp, digest, o.report.archived))
                      && var messages := DecodeAll(lane, isUuid, Contents(old(lists), keys)).value;
                         && DistinctIds(messages) && (forall m :: m in messages ==> m in got && m in backings)
                         && AllSince(old(jobs), got) && backings == got + old(backings)
                         && o.report.queued == CountInserted(got, messages)
                         && ((forall m :: m in messages ==> m.id in old(jobs)) ==> o.report.queued == 0))
    {
      hide AllBacked, ActiveUnique, Keeps, Conserves, AllBack, Since, CountInserted, Decode, Justified, Served, AllMovable, DecodeAll, DistinctRaws, SubjectsIn, DistinctIds;
      got := map[];
      ghost var s0 := State();
      ConservesItself(s0);
      var discovered := DiscoverMessages(keys);
      if discovered.Err? {
        return Failed(discovered.error), got;
      }
      var messages := discovered.value;
      if !apply || messages == [] {
        NothingListed(lists, keys);
        assert got + backings == backings;
        return Done(Report(|messages|, 0, 0, [], apply)), got;
      }
      if exists m :: m in messages && m.subject !in rows {
        return Failed(RowsMissing), got;
      }
      o, got := InsertAndArchive(messages, keys, stamp);
      if o.Done? {
        NoneInserted(s0.jobs, got, messages);
        AllServed(lane, isUuid, jobs, backings, s0.lists, keys, messages);
      }
    }

    /** Commits the jobs, then archives the lists. */
    method InsertAndArchive(messages: seq<Message>, keys: seq<Key>, stamp: string) returns (o: Outcome, ghost got: Backings)
      requires Safe() && (forall key :: key in keys <==> key in lists) && DistinctIds(messages)
      requires DecodeAll(lane, isUuid, Contents(lists, keys)) == Ok(messages)
      modifies this`lists, this`archives, this`jobs, this`backings
      ensures Safe() && Conserves(old(State()), State())
      ensures o.Failed? ==> o.error in {NotPersisted, ArchiveExists, NoSuchKey}
      ensures o == Failed(NotPersisted) ==> lists == old(lists) && archives == old(archives) && backings == old(backings)
      ensures o.Done? ==>
                && o.report.requested == |messages| && o.report.applied && lists == map[]
                && o.report.queued + o.report.existing == |messages| && o.report.queued == CountInserted(got, messages)
                && ArchivedAs(old(lists), archives, keys, stamp, digest, o.report.archived)
                && (forall m :: m in messages ==> m in got && m in backings)
                && AllSince(old(jobs), got) && backings == got + old(backings)
    {
      hide AllBacked, ActiveUnique, Keeps, Conserves, AllBack, Since, Justified;
      ghost var s0 := State();
      ConservesItself(s0);
      var inserted;
      inserted, got := InsertJobs(messages);
      assert Conserves(s0, State()) && Safe() by {
        BackingsMove(lane, isUuid, s0, jobs, backings);
      }
      match inserted {
        case Aborted(e) =>
          return Failed(e), got;
        case Interrupted =>
          return Stopped, got;
        case Committed(queued, existing) =>
          ListsBacked(lane, isUuid, backings, lists, keys, messages);
          ghost var s1 := State();
          var archiving := ArchiveLists(keys, stamp);
          ConservesTwice(s0, s1, State());
          match archiving {
            case ArchivingFailed(e) =>
              return Failed(e), got;
            case ArchivingInterrupted =>
              return Stopped, got;
            case Archived(names) =>
              return Done(Report(|messages|, queued, existing, names, true)), got;
          }
      }
    }

    /** The keys of the legacy lists, as a scan reports them. */
    method ScanKeys() returns (keys: seq<Key>)
      ensures forall key :: key in keys <==> key in lists
    {
      keys := [];
      var pending := lists.Keys;
      while pending != {}
        invariant forall key :: key in keys <==> key in lists.Keys - pending
        invariant pending <= lists.Keys
        decreases pending
      {
        var key :| key in pending;
        keys := keys + [key];
        pending := pending - {key};
      }
    }

    /** Any number of runs, crashed and failed ones included, with other processes at work in between:
        whatever was in the lists at first is in a list or an archive now, every archived message was
        given a job that is still there, and no job given was ever replaced. After a run that is done
        no message is left in the lists. */
    method RepeatedCutover(stamps: seq<string>) returns (done: bool)
      requires Safe()
      modifies this
      ensures Safe() && Conserves(old(State()), State())
      ensures done ==> forall key :: key in lists ==> lists[key] == []
      ensures forall a, raw :: a in archives && raw in archives[a] ==> Served(lane, jobs, backings, raw)
    {
      hide Conserves, ActiveUnique, Keeps, Served, AllBacked, AllBack, Decode;
      ghost var s0 := State();
      ConservesItself(s0);
      done := false;
      for i := 0 to |stamps|
        invariant Safe() && Conserves(s0, State())
        invariant done ==> forall key :: key in lists ==> lists[key] == []
      {
        ghost var s1 := State();
        IdleSafely();
        ConservesTwice(s0, s1, State());
        ghost var s2 := State();
        var keys := ScanKeys();
        var outcome;
        ghost var got;
        outcome, got := Migrate(keys, stamps[i], true);
        ConservesTwice(s0, s2, State());
        ListsShrink(s2, State());
        done := done || outcome.Done?;
      }
      assert AllBack(jobs, lane, backings) && forall a :: a in archives ==> AllBacked(lane, isUuid, backings, archives[a]) by {
        assert Safe();
      }
      ArchivesServed(lane, isUuid, jobs, backings, archives);
    }
  }

  predicate DistinctRaws(raws: seq<Raw>) {
    forall i, j :: 0 <= i < j < |raws| ==> raws[i].id != raws[j].id
  }

  /** Every first argument is among the rows. */
  predicate SubjectsIn(raws: seq<Raw>, rows: set<string>) {
    forall raw :: raw in raws ==> |raw.args| > 0 && raw.args[0] in rows
  }

  lemma MessagesAsRaws(lane: Lane, isUuid: string -> bool, raws: seq<Raw>, messages: seq<Message>, rows: set<string>)
    requires DecodeAll(lane, isUuid, raws) == Ok(messages)
    ensures DistinctIds(messages) <==> DistinctRaws(raws)
    ensures (exists m :: m in messages && m.subject !in rows) <==> !SubjectsIn(raws, rows)
  {
    DecodedInOrder(lane, isUuid, raws);
    assert AsRaws(raws, messages) by {
      hide DecodeAll;
    }
    hide Decode, DecodeAll;
    SameIds(raws, messages);
    SameSubjects(raws, messages, rows);
  }

  predicate AsRaws(raws: seq<Raw>, messages: seq<Message>) {
    |messages| == |raws|
    && forall i :: 0 <= i < |raws| ==> messages[i].id == raws[i].id && |raws[i].args| > 0 && messages[i].subject == raws[i].args[0]
  }

  lemma SameIds(raws: seq<Raw>, messages: seq<Message>)
    requires AsRaws(raws, messages)
    ensures DistinctIds(messages) <==> DistinctRaws(raws)
  {
  }

  lemma SameSubjects(raws: seq<Raw>, messages: seq<Message>, rows: set<string>)
    requires AsRaws(raws, messages)
    ensures (exists m :: m in messages && m.subject !in rows) <==> !SubjectsIn(raws, rows)
  {
    if m :| m in messages && m.subject !in rows {
      var i :| 0 <= i < |messages| && messages[i] == m;
      assert raws[i] in raws && raws[i].args[0] !in rows;
    }
    if !SubjectsIn(raws, rows) {
      var raw :| raw in raws && !(|raw.args| > 0 && raw.args[0] in rows);
      var i :| 0 <= i < |raws| && raws[i] == raw;
      assert messages[i] in messages;
    }
  }

  lemma AllServed(lane: Lane, isUuid: string -> bool, jobs: Jobs, backings: Backings, lists: map<Key, seq<Raw>>, keys: seq<Key>, messages: seq<Message>)
    requires forall key :: key in keys <==> key in lists
    requires DecodeAll(lane, isUuid, Contents(lists, keys)) == Ok(messages) && AllBack(jobs, lane, backings)
    requires forall m :: m in messages ==> m in backings
    ensures forall key, raw :: key in lists && raw in lists[key] ==> Served(lane, jobs, backings, raw)
  {
    ListsBacked(lane, isUuid, backings, lists, keys, messages);
    hide Decode, DecodeAll, Served, AllBack;
    forall key, raw | key in lists && raw in lists[key]
      ensures Served(lane, jobs, backings, raw)
    {
      assert AllBacked(lane, isUuid, backings, lists[key]);
      BackedIsServed(lane, isUuid, jobs, backings, raw);
    }
  }

  datatype TransactionEnd = Committed(queued: nat, existing: nat) | Aborted(error: Error) | Interrupted

  datatype Insertion = Added | Found | Lost

  lemma ArchivesServed(lane: Lane, isUuid: string -> bool, jobs: Jobs, backings: Backings, archives: map<Key, seq<Raw>>)
    requires AllBack(jobs, lane, backings) && forall a :: a in archives ==> AllBacked(lane, isUuid, backings, archives[a])
    ensures forall a, raw :: a in archives && raw in archives[a] ==> Served(lane, jobs, backings, raw)
  {
    hide Decode, Served, AllBack;
    forall a, raw | a in archives && raw in archives[a]
      ensures Served(lane, jobs, backings, raw)
    {
      assert AllBacked(lane, isUuid, backings, archives[a]);
      BackedIsServed(lane, isUuid, jobs, backings, raw);
    }
  }

  /** Each list was renamed to the archive of its stamp and digest, and reported in the keys' order. */
  predicate ArchivedAs(lists: map<Key, seq<Raw>>, archives: map<Key, seq<Raw>>, keys: seq<Key>, stamp: string,
                       digest: Key -> string, names: seq<(Key, Key)>) {
    |names| == |keys|
    && forall i :: 0 <= i < |keys| ==>
         && names[i].0 == keys[i] && names[i].1 == stamp + ":" + digest(keys[i])
         && keys[i] in lists && names[i].1 in archives && archives[names[i].1] == lists[keys[i]]
  }

  lemma NothingArchived(lists: map<Key, seq<Raw>>, archives: map<Key, seq<Raw>>, stamp: string, digest: Key -> string)
    ensures ArchivedAs(lists, archives, [], stamp, digest, [])
  {
  }

  lemma ArchivedOneMore(lists: map<Key, seq<Raw>>, archives: map<Key, seq<Raw>>, keys: seq<Key>, stamp: string,
                        digest: Key -> string, names: seq<(Key, Key)>, key: Key)
    requires ArchivedAs(lists, archives, keys, stamp, digest, names) && key in lists && stamp + ":" + digest(key) !in archives
    ensures ArchivedAs(lists, archives[stamp + ":" + digest(key) := lists[key]], keys + [key], stamp, digest,
                       names + [(key, stamp + ":" + digest(key))])
  {
  }

  datatype ArchiveEnd = Archived(names: seq<(Key, Key)>) | ArchivingFailed(error: Error) | ArchivingInterrupted

  predicate DistinctIds(messages: seq<Message>) {
    forall i, j :: 0 <= i < j < |messages| ==> messages[i].id != messages[j].id
  }

  /** Messages that had a job inserted for them. */
  function CountInserted(got: Backings, messages: seq<Message>): (n: nat)
    ensures n <= |messages|
  {
    if messages == [] then 0
    else
      var last := messages[|messages| - 1];
      CountInserted(got, messages[..|messages| - 1]) + if last in got && got[last].inserted then 1 else 0
  }

  lemma {:induction false} CountUnchanged(got: Backings, messages: seq<Message>, m: Message, b: Backing)
    requires m !in messages
    ensures CountInserted(got[m := b], messages) == CountInserted(got, messages)
  {
    if messages != [] {
      CountUnchanged(got, messages[..|messages| - 1], m, b);
    }
  }

  lemma CountOneMore(got: Backings, messages: seq<Message>, m: Message, b: Backing)
    requires m !in messages
    ensures CountInserted(got[m := b], messages + [m]) == CountInserted(got, messages) + if b.inserted then 1 else 0
  {
    assert (messages + [m])[..|messages|] == messages;
    CountUnchanged(got, messages, m, b);
  }

  ghost predicate GivenExactly(got: Backings, messages: seq<Message>) {
    forall m :: m in got <==> m in messages
  }

  lemma GivenOneMore(first: Jobs, got: Backings, messages: seq<Message>, i: nat, b: Backing)
    requires DistinctIds(messages) && i < |messages| && GivenExactly(got, messages[..i])
    requires AllSince(first, got) && Since(first, messages[i], b)
    ensures var more := got[messages[i] := b];
            && GivenExactly(more, messages[..i + 1]) && AllSince(first, more)
            && CountInserted(more, messages[..i + 1]) == CountInserted(got, messages[..i]) + if b.inserted then 1 else 0
  {
    hide Since, CountInserted;
    assert messages[..i + 1] == messages[..i] + [messages[i]];
    NotYetGiven(messages, i);
    CountOneMore(got, messages[..i], messages[i], b);
  }

  lemma NothingGiven(first: Jobs)
    ensures GivenExactly(map[], []) && AllSince(first, map[]) && CountInserted(map[], []) == 0
  {
  }

  lemma NotYetGiven(messages: seq<Message>, i: nat)
    requires DistinctIds(messages) && i < |messages|
    ensures messages[i] !in messages[..i]
  {
  }

  /** Messages whose ids all had jobs have none inserted. */
  lemma {:induction false} NoneInserted(first: Jobs, got: Backings, messages: seq<Message>)
    requires AllSince(first, got)
    ensures (forall m :: m in messages ==> m.id in first) ==> CountInserted(got, messages) == 0
  {
    if messages != [] {
      var last := messages[|messages| - 1];
      assert messages == messages[..|messages| - 1] + [last];
      NoneInserted(first, got, messages[..|messages| - 1]);
      if last in got {
        assert Since(first, last, got[last]);
      }
    }
  }

  // ------------------------------------------------------------ inside the transaction

  /** A transaction with the pending insertions, begun when the jobs were `first`. */
  predicate Open(first: Jobs, jobs: Jobs, pending: Jobs) {
    Keeps(first, jobs) && jobs.Keys !! pending.Keys && ActiveUnique(jobs + pending)
  }

  lemma Begin(jobs: Jobs, lane: Lane)
    requires ActiveUnique(jobs)
    ensures Open(jobs, jobs, map[]) && AllBack(jobs + map[], lane, map[])
  {
    assert jobs + map[] == jobs;
  }

  lemma RolledBack(first: Jobs, jobs: Jobs, pending: Jobs, lane: Lane, backings: Backings)
    requires Open(first, jobs, pending) && AllBack(first, lane, backings)
    ensures ActiveUnique(jobs) && Keeps(first, jobs) && AllBack(jobs, lane, backings)
  {
    forall i, j | i in jobs && j in jobs && jobs[i].active && jobs[j].active
                  && jobs[i].queue == jobs[j].queue && jobs[i].dedupe == jobs[j].dedupe
      ensures i == j
    {
      assert (jobs + pending)[i] == jobs[i] && (jobs + pending)[j] == jobs[j];
    }
    BacksStay(first, jobs, lane, backings);
  }

  lemma Committing(first: Jobs, jobs: Jobs, pending: Jobs, lane: Lane, got: Backings, backings: Backings)
    requires Open(first, jobs, pending) && AllBack(jobs + pending, lane, got) && AllBack(first, lane, backings)
    ensures Keeps(first, jobs + pending) && ActiveUnique(jobs + pending)
    ensures AllBack(jobs + pending, lane, got + backings)
  {
    hide Justified, SameJob;
    assert Keeps(jobs, jobs + pending) by { NothingChanges(jobs, pending); }
    KeepsTwice(first, jobs, jobs + pending);
    BacksStay(first, jobs + pending, lane, backings);
  }

  lemma NothingChanges(jobs: Jobs, pending: Jobs)
    requires jobs.Keys !! pending.Keys
    ensures Keeps(jobs, jobs + pending)
  {
  }

  lemma OthersKeep(first: Jobs, before: Jobs, after: Jobs, pending: Jobs, lane: Lane, got: Backings)
    requires Keeps(first, before) && Keeps(before, after)
    requires before.Keys !! pending.Keys && after.Keys !! pending.Keys
    requires AllBack(before + pending, lane, got)
    ensures Keeps(first, after) && AllBack(after + pending, lane, got)
  {
    hide AllBack;
    KeepsTwice(first, before, after);
    assert Keeps(before + pending, after + pending);
    BacksStay(before + pending, after + pending, lane, got);
  }

  lemma Inserted(first: Jobs, jobs: Jobs, pending: Jobs, lane: Lane, m: Message, got: Backings)
    requires Open(first, jobs, pending) && !Conflict(jobs + pending, lane, m) && AllBack(jobs + pending, lane, got)
    ensures var b, more := Backing(m.id, true, JobFor(lane, m)), pending[m.id := JobFor(lane, m)];
            && Open(first, jobs, more) && (jobs + more)[m.id] == b.seen
            && Justified(lane, m, b) && Since(first, m, b) && AllBack(jobs + more, lane, got[m := b])
  {
    var b, more := Backing(m.id, true, JobFor(lane, m)), pending[m.id := JobFor(lane, m)];
    FreshId(jobs + pending, lane, m);
    KeptIds(first, jobs, m.id);
    InsertKeepsUnique(jobs + pending, lane, m);
    hide Keeps, ActiveUnique, Conflict, AllBack;
    assert jobs + more == (jobs + pending)[m.id := JobFor(lane, m)];
    BacksStay(jobs + pending, jobs + more, lane, got);
    OneMoreBacked(jobs + more, lane, got, m, b);
  }

  lemma OneMoreBacked(jobs: Jobs, lane: Lane, got: Backings, m: Message, b: Backing)
    requires AllBack(jobs, lane, got) && Justified(lane, m, b) && b.job in jobs && jobs[b.job] == b.seen
    ensures AllBack(jobs, lane, got[m := b])
  {
  }

  /** The job an insertion conflicts with is the message's backing. */
  lemma FoundBacking(first: Jobs, jobs: Jobs, pending: Jobs, lane: Lane, m: Message, got: Backings) returns (b: Backing)
    requires Open(first, jobs, pending) && Conflict(jobs + pending, lane, m) && AllBack(jobs + pending, lane, got)
    ensures !b.inserted && b.job in jobs + pending && (jobs + pending)[b.job] == b.seen
    ensures Justified(lane, m, b) && Since(first, m, b) && AllBack(jobs + pending, lane, got[m := b])
  {
    var visible := jobs + pending;
    if m.id in visible {
      b := Backing(m.id, false, visible[m.id]);
    } else {
      var j :| j in visible && Competes(visible, lane, m, j);
      b := Backing(j, false, visible[j]);
    }
    OneMoreBacked(visible, lane, got, m, b);
  }

  lemma FreshId(jobs: Jobs, lane: Lane, m: Message)
    requires !Conflict(jobs, lane, m)
    ensures m.id !in jobs
  {
  }

  lemma KeptIds(before: Jobs, after: Jobs, id: string)
    requires Keeps(before, after)
    ensures id in before ==> id in after
  {
  }

  // ------------------------------------------------------------ around the transaction

  lemma ConservesItself(s: Store)
    ensures Conserves(s, s)
  {
  }

  lemma JobsMove(lane: Lane, s: Store, jobs: Jobs)
    requires Keeps(s.jobs, jobs)
    ensures Conserves(s, s.(jobs := jobs))
    ensures AllBack(s.jobs, lane, s.backings) ==> AllBack(jobs, lane, s.backings)
  {
    if AllBack(s.jobs, lane, s.backings) {
      BacksStay(s.jobs, jobs, lane, s.backings);
    }
  }

  lemma BackingsMove(lane: Lane, isUuid: string -> bool, s: Store, jobs: Jobs, backings: Backings)
    requires Keeps(s.jobs, jobs) && Grown(s.backings, backings)
    ensures Conserves(s, s.(jobs := jobs, backings := backings))
    ensures forall raws :: AllBacked(lane, isUuid, s.backings, raws) ==> AllBacked(lane, isUuid, backings, raws)
  {
  }

  lemma Renamed(s: Store, key: Key, archive: Key)
    requires key in s.lists && archive !in s.archives
    ensures Conserves(s, Store(s.lists - {key}, s.archives[archive := s.lists[key]], s.jobs, s.backings))
  {
    var t := Store(s.lists - {key}, s.archives[archive := s.lists[key]], s.jobs, s.backings);
    forall k | k in s.lists
      ensures Kept(s, t, k)
    {
      if k == key {
        assert archive in t.archives && t.archives[archive] == s.lists[key];
      }
    }
  }

  lemma NothingListed(lists: map<Key, seq<Raw>>, keys: seq<Key>)
    requires forall key :: key in keys <==> key in lists
    ensures Contents(lists, keys) == [] ==> forall key :: key in lists ==> lists[key] == []
  {
    forall key | key in lists && lists[key] != []
      ensures Contents(lists, keys) != []
    {
      assert lists[key][0] in Contents(lists, keys);
    }
  }

  predicate ToDo(lists: map<Key, seq<Raw>>, keys: seq<Key>) {
    forall key :: key in lists ==> key in keys
  }

  lemma OneLessToDo(lists: map<Key, seq<Raw>>, key: Key, rest: seq<Key>)
    requires ToDo(lists, [key] + rest)
    ensures ToDo(lists - {key}, rest)
  {
  }

  lemma NothingToDo(lists: map<Key, seq<Raw>>, keys: seq<Key>)
    ensures ToDo(lists, keys[|keys|..]) ==> lists == map[]
  {
  }

  predicate ListsAreBacked(lane: Lane, isUuid: string -> bool, backings: Backings, lists: map<Key, seq<Raw>>) {
    forall key :: key in lists ==> AllBacked(lane, isUuid, backings, lists[key])
  }

  lemma ListsBacked(lane: Lane, isUuid: string -> bool, backings: Backings, lists: map<Key, seq<Raw>>, keys: seq<Key>, messages: seq<Message>)
    requires forall key :: key in keys <==> key in lists
    requires DecodeAll(lane, isUuid, Contents(lists, keys)) == Ok(messages)
    requires forall m :: m in messages ==> m in backings
    ensures ToDo(lists, keys) && ListsAreBacked(lane, isUuid, backings, lists)
  {
    forall key, raw | key in lists && raw in lists[key]
      ensures Decode(lane, isUuid, raw).Ok? && Decode(lane, isUuid, raw).value in backings
    {
      assert raw in Contents(lists, keys);
    }
  }

  /** Lists only ever go away. */
  lemma ListsShrink(s: Store, t: Store)
    requires Conserves(s, t)
    ensures forall key :: key in t.lists ==> key in s.lists && t.lists[key] == s.lists[key]
  {
  }
}
