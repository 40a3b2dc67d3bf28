/** Processes that use local slots: each asks, works in the guarded block, leaves it by returning or by
    raising, and gives its slot back; they interleave freely over the same pools. */
module SlotRuns {
  import opened Common
  import opened Slots

  /** Where a process is; a raised block leaves as a returned one does. */
  datatype Stage = InBlock | Leaving(raised: bool) | Left(raised: bool)

  /** The pools, the processes that were granted a slot, and what they were granted. */
  datatype World = World(pools: Pools, stages: map<Holder, Stage>, grants: map<Holder, Grant>)

  datatype Action =
    | Ask(h: Holder, lane: string, slots: seq<int>)
    | End(h: Holder, raised: bool)
    | GiveBack(h: Holder)

  /** A process asks again after a timeout, but not while it is in or after its block. The tuples come
      from sorting a set. */
  predicate Can(w: World, a: Action) {
    match a
    case Ask(h, _, slots) => h !in w.stages && h !in w.pools.held && Distinct(slots)
    case End(h, _) => h in w.stages && w.stages[h] == InBlock
    case GiveBack(h) =>
      h in w.stages && w.stages[h].Leaving? && h in w.pools.held && w.pools.held[h].key in w.pools.queues
  }

  function Do(w: World, a: Action): World
    requires Can(w, a)
  {
    match a
    case Ask(h, lane, slots) =>
      var p := Requested(w.pools, h, lane, slots);
      if h in p.held then World(p, w.stages[h := InBlock], w.grants[h := p.held[h]]) else w.(pools := p)
    case End(h, raised) => w.(stages := w.stages[h := Leaving(raised)])
    case GiveBack(h) => w.(pools := GivenBack(w.pools, h), stages := w.stages[h := Left(w.stages[h].raised)])
  }

  /** Any process that has not asked successfully before may ask, one in its block may end, and one that has
      ended may give back what it holds. */
  lemma CanMeans(w: World, h: Holder, lane: string, slots: seq<int>, raised: bool)
    ensures h !in w.stages && h !in w.pools.held && Distinct(slots) <==> Can(w, Ask(h, lane, slots))
    ensures h in w.stages && w.stages[h] == InBlock <==> Can(w, End(h, raised))
    ensures Can(w, GiveBack(h))
            <==> h in w.stages && (w.stages[h] == Leaving(true) || w.stages[h] == Leaving(false))
                 && h in w.pools.held && w.pools.held[h].key in w.pools.queues
  {
  }

  const Start := World(Pools(map[], map[]), map[], map[])

  predicate Possible(actions: seq<Action>)
    decreases |actions|, 0
  {
    actions == [] || (Possible(actions[..|actions| - 1]) && Can(After(actions[..|actions| - 1]), actions[|actions| - 1]))
  }

  function After(actions: seq<Action>): World
    requires Possible(actions)
    decreases |actions|, 1
  {
    if actions == [] then Start else Do(After(actions[..|actions| - 1]), actions[|actions| - 1])
  }

  /** Exactly the processes between asking and giving back hold something, namely what they were
      granted. */
  ghost predicate Sound(w: World) {
    && ValidPools(w.pools)
    && (forall h :: h in w.pools.held <==> h in w.stages && !w.stages[h].Left?)
    && (forall h :: h in w.stages ==> h in w.grants && w.grants[h].key in w.pools.queues && w.grants[h].slot in w.grants[h].key.slots)
    && (forall h :: h in w.pools.held ==> h in w.grants && w.pools.held[h] == w.grants[h])
  }

  lemma RequestIsValid(p: Pools, h: Holder, lane: string, slots: seq<int>)
    requires ValidPools(p) && h !in p.held && Distinct(slots)
    ensures ValidPools(Requested(p, h, lane, slots))
    ensures var q := Requested(p, h, lane, slots);
            && (forall k :: k in p.queues ==> k in q.queues)
            && (forall g :: g != h ==> (g in p.held <==> g in q.held) && (g in p.held ==> q.held[g] == p.held[g]))
            && (h in q.held ==> q.held[h].key in q.queues && q.held[h].slot in q.held[h].key.slots)
  {
    var key := Key(lane, slots);
    var free := FreeOf(p, key);
    assert slots != [] ==> Divided(free, p.held, key) by {
      if key !in p.queues {
        NewPool(p, key);
      }
    }
    hide Divided;
    var q := Requested(p, h, lane, slots);
    if slots != [] && free != [] {
      FreeIsOwn(free, p.held, key);
      Taken(free, p.held, key, h);
      OtherPools(p.held, q.held, h, key);
    }
    ReplacedPool(p, q, key);
  }

  /** Only the one pool has changed. */
  lemma ReplacedPool(p: Pools, q: Pools, key: Key)
    requires ValidPools(p)
    requires forall k :: k != key ==> (k in p.queues <==> k in q.queues) && (k in p.queues ==> p.queues[k] == q.queues[k])
    requires key in q.queues ==> Divided(q.queues[key], q.held, key)
    requires forall free, k :: k != key && Divided(free, p.held, k) ==> Divided(free, q.held, k)
    requires forall h :: h in q.held ==> q.held[h].key in q.queues
    ensures ValidPools(q)
  {
    hide Divided;
    forall k | k in q.queues
      ensures Divided(q.queues[k], q.held, k)
    {
      if k != key {
        assert Divided(p.queues[k], p.held, k);
      }
    }
  }

  lemma NewPool(p: Pools, key: Key)
    requires ValidPools(p) && key !in p.queues && Distinct(key.slots)
    ensures Divided(key.slots, p.held, key)
  {
  }

  lemma GiveBackIsValid(p: Pools, h: Holder)
    requires ValidPools(p) && h in p.held
    ensures p.held[h].key in p.queues && ValidPools(GivenBack(p, h))
  {
    var grant := p.held[h];
    hide Divided;
    Returned(p.queues[grant.key], p.held, grant.key, h);
    OtherPools(p.held, p.held - {h}, h, grant.key);
    ReplacedPool(p, GivenBack(p, h), grant.key);
  }

  lemma StepKeepsSound(w: World, a: Action)
    requires Sound(w) && Can(w, a)
    ensures Sound(Do(w, a))
  {
    hide ValidPools;
    match a
    case Ask(h, lane, slots) => RequestIsValid(w.pools, h, lane, slots);
    case End(h, raised) =>
    case GiveBack(h) => GiveBackIsValid(w.pools, h);
  }

  lemma {:induction false} AlwaysSound(actions: seq<Action>)
    requires Possible(actions)
    ensures Sound(After(actions))
  {
    hide Sound, Can, Do;
    if actions == [] {
      StartIsSound();
    } else {
      AlwaysSound(actions[..|actions| - 1]);
      StepKeepsSound(After(actions[..|actions| - 1]), actions[|actions| - 1]);
    }
  }

  lemma StartIsSound()
    ensures Sound(Start)
  {
  }

  /** Someone else holds exactly this slot of this pool. */
  predicate HeldByOther(p: Pools, grant: Grant, h: Holder) {
    exists g :: g in p.held && g != h && p.held[g] == grant
  }

  /** In every interleaving: a process that has left, by returning or by raising, holds nothing, and
      the slot it had is free again or somebody else's. */
  lemma LeftHoldsNothing(actions: seq<Action>, h: Holder)
    requires Possible(actions) && h in After(actions).stages && After(actions).stages[h].Left?
    ensures var w := After(actions);
            && h !in w.pools.held && h in w.grants && w.grants[h].key in w.pools.queues
            && (w.grants[h].slot in w.pools.queues[w.grants[h].key] || HeldByOther(w.pools, w.grants[h], h))
  {
    hide After, Possible;
    AlwaysSound(actions);
    var w := After(actions);
    assert Divided(w.pools.queues[w.grants[h].key], w.pools.held, w.grants[h].key);
    if w.grants[h].slot !in w.pools.queues[w.grants[h].key] {
      var g :| g in w.pools.held && w.pools.held[g] == Grant(w.grants[h].key, w.grants[h].slot);
      assert g != h;
    }
  }

  /** A process in its block, or on its way out, holds what it was granted, and nobody else does; the
      slot is not free meanwhile. */
  lemma BlockHoldsItsSlot(actions: seq<Action>, h: Holder)
    requires Possible(actions) && h in After(actions).stages && !After(actions).stages[h].Left?
    ensures var w := After(actions);
            && h in w.pools.held && h in w.grants && w.pools.held[h] == w.grants[h] && w.grants[h].key in w.pools.queues
            && w.grants[h].slot !in w.pools.queues[w.grants[h].key] && !HeldByOther(w.pools, w.grants[h], h)
  {
    hide After, Possible;
    AlwaysSound(actions);
    var w := After(actions);
    assert Divided(w.pools.queues[w.grants[h].key], w.pools.held, w.grants[h].key);
  }

  /** When everybody has left, every pool has all its slots again. */
  lemma AllSlotsComeBack(actions: seq<Action>, key: Key)
    requires Possible(actions) && key in After(actions).pools.queues
    requires forall h :: h in After(actions).stages ==> After(actions).stages[h].Left?
    ensures var free := After(actions).pools.queues[key];
            Distinct(free) && forall s :: s in free <==> s in key.slots
  {
    hide After, Possible;
    AlwaysSound(actions);
    var w := After(actions);
    assert Divided(w.pools.queues[key], w.pools.held, key);
  }

  // ------------------------------------------------------------ callers that ask for their instance's slots

  /** The tuple of `count` slots from `from` on. */
  function Tuple(from: nat, count: nat): (t: seq<int>)
    ensures |t| == count && forall i :: 0 <= i < count ==> t[i] == from + i
  {
    seq(count, i requires 0 <= i < count => from + i)
  }

  /** The sorted slots of the i-th instance. */
  function TupleAt(instances: seq<Instance>, i: nat): seq<int>
    requires i < |instances|
  {
    Tuple(Offset(instances[..i]), instances[i].capacity)
  }

  lemma TupleIsSlots(instances: seq<Instance>, i: nat)
    requires i < |instances|
    ensures Distinct(TupleAt(instances, i))
    ensures forall s :: s in TupleAt(instances, i) <==> s in SlotsAt(instances, i)
  {
    var t, from := TupleAt(instances, i), Offset(instances[..i]);
    forall s | s in SlotsAt(instances, i)
      ensures s in t
    {
      assert t[s - from] == s;
    }
  }

  type Lanes = map<string, seq<Instance>>

  predicate InstanceKey(lanes: Lanes, key: Key) {
    key.lane in lanes && exists i :: 0 <= i < |lanes[key.lane]| && key.slots == TupleAt(lanes[key.lane], i)
  }

  /** Every request is for the slots of one instance of its lane. */
  predicate AsksForInstances(lanes: Lanes, actions: seq<Action>) {
    forall k :: 0 <= k < |actions| && actions[k].Ask? ==> InstanceKey(lanes, Key(actions[k].lane, actions[k].slots))
  }

  lemma {:induction false} PoolsAreInstances(lanes: Lanes, actions: seq<Action>, key: Key)
    requires Possible(actions) && AsksForInstances(lanes, actions) && key in After(actions).pools.queues
    ensures InstanceKey(lanes, key)
  {
    hide InstanceKey;
    if actions != [] {
      var before, a := After(actions[..|actions| - 1]), actions[|actions| - 1];
      if key in before.pools.queues {
        PoolsAreInstances(lanes, actions[..|actions| - 1], key);
      } else {
        assert a.Ask? && key == Key(a.lane, a.slots);
      }
    }
  }

  /** Tuples of one lane are equal or share no slot. */
  lemma InstanceKeysApart(lanes: Lanes, k: Key, l: Key, s: int)
    requires InstanceKey(lanes, k) && InstanceKey(lanes, l) && k.lane == l.lane && k != l
    ensures s in k.slots ==> s !in l.slots
  {
    var instances := lanes[k.lane];
    var i :| 0 <= i < |instances| && k.slots == TupleAt(instances, i);
    var j :| 0 <= j < |instances| && l.slots == TupleAt(instances, j);
    TupleIsSlots(instances, i);
    TupleIsSlots(instances, j);
    SlotsAreDisjoint(instances, i, j);
  }

  /** As callers ask for the slots of their instance, no slot of a lane is ever held twice. */
  lemma NoSlotHeldTwice(lanes: Lanes, actions: seq<Action>, g: Holder, h: Holder)
    requires Possible(actions) && AsksForInstances(lanes, actions)
    requires var p := After(actions).pools; g in p.held && h in p.held && g != h && p.held[g].key.lane == p.held[h].key.lane
    ensures var p := After(actions).pools; p.held[g].slot != p.held[h].slot
  {
    AlwaysSound(actions);
    var p := After(actions).pools;
    var k, l := p.held[g].key, p.held[h].key;
    PoolsAreInstances(lanes, actions, k);
    PoolsAreInstances(lanes, actions, l);
    hide After, Possible, InstanceKey, Divided;
    if k != l {
      forall s | s in k.slots
        ensures s !in l.slots
      {
        InstanceKeysApart(lanes, k, l, s);
      }
    }
    NoDoubleHold(p, g, h);
  }
}
