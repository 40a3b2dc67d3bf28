/** Inference slots: dividing a lane among its instances, and handing slots out from a local pool. */
module Slots {
  import opened Common

  // ------------------------------------------------------------ dividing a lane

  datatype Instance = Instance(id: string, capacity: nat)

  function Offset(instances: seq<Instance>): nat {
    if instances == [] then 0 else Offset(instances[..|instances| - 1]) + instances[|instances| - 1].capacity
  }

  /** The `count` slots from `from` on. */
  function Range(from: int, count: nat): (r: set<int>)
    ensures forall i :: i in r <==> (from <= i < from + count)
  {
    if count == 0 then {} else Range(from, count - 1) + {from + count - 1}
  }

  /** The slots of the i-th instance. */
  function SlotsAt(instances: seq<Instance>, i: nat): set<int>
    requires i < |instances|
  {
    Range(Offset(instances[..i]), instances[i].capacity)
  }

  predicate DistinctIds(instances: seq<Instance>) {
    forall i, j :: 0 <= i < j < |instances| ==> instances[i].id != instances[j].id
  }

  method InstanceSlots(instances: seq<Instance>) returns (result: map<string, set<int>>)
    ensures forall id :: id in result <==> exists i :: 0 <= i < |instances| && instances[i].id == id
    ensures DistinctIds(instances) ==>
              forall i :: 0 <= i < |instances| ==> instances[i].id in result && result[instances[i].id] == SlotsAt(instances, i)
  {
    result := map[];
    var offset: nat := 0;
    for i := 0 to |instances|
      invariant offset == Offset(instances[..i])
      invariant forall id :: id in result <==> exists k :: 0 <= k < i && instances[k].id == id
      invariant DistinctIds(instances) ==>
                  forall k :: 0 <= k < i ==> instances[k].id in result && result[instances[k].id] == SlotsAt(instances, k)
    {
      assert instances[..i + 1][..i] == instances[..i];
      result := result[instances[i].id := Range(offset, instances[i].capacity)];
      offset := offset + instances[i].capacity;
    }
    assert instances[..|instances|] == instances;
  }

  lemma {:induction false} OffsetsGrow(instances: seq<Instance>, i: nat, j: nat)
    requires i <= j <= |instances|
    ensures Offset(instances[..i]) <= Offset(instances[..j])
  {
    if i < j {
      OffsetsGrow(instances, i, j - 1);
      assert instances[..j][..j - 1] == instances[..j - 1];
    }
  }

  /** Different instances never share a slot. */
  lemma SlotsAreDisjoint(instances: seq<Instance>, i: nat, j: nat)
    requires i < |instances| && j < |instances| && i != j
    ensures SlotsAt(instances, i) !! SlotsAt(instances, j)
  {
    assert instances[..i + 1][..i] == instances[..i] && instances[..j + 1][..j] == instances[..j];
    if i < j {
      OffsetsGrow(instances, i + 1, j);
    } else {
      OffsetsGrow(instances, j + 1, i);
    }
  }

  /** Together the instances have exactly the slots 0 to total - 1. */
  lemma {:induction false} SlotsCoverTheLane(instances: seq<Instance>, s: int)
    ensures 0 <= s < Offset(instances) <==> exists i :: 0 <= i < |instances| && s in SlotsAt(instances, i)
  {
    if instances != [] {
      var n := |instances| - 1;
      assert instances[..n + 1] == instances;
      SlotsCoverTheLane(instances[..n], s);
      forall i | 0 <= i < n
        ensures SlotsAt(instances[..n], i) == SlotsAt(instances, i)
      {
        assert instances[..n][..i] == instances[..i] && instances[..n][..i + 1] == instances[..i + 1];
      }
      if Offset(instances[..n]) <= s < Offset(instances) {
        assert s in SlotsAt(instances, n);
      }
    }
  }

  /** The configured capacity of the i-th of n endpoints. */
  function Capacity(total: nat, n: nat, i: nat): nat
    requires n > 0
  {
    total / n + if i < total % n then 1 else 0
  }

  function Configured(total: nat, n: nat, ids: nat -> string, count: nat): seq<Instance>
    requires n > 0
  {
    if count == 0 then [] else Configured(total, n, ids, count - 1) + [Instance(ids(count - 1), Capacity(total, n, count - 1))]
  }

  lemma {:induction false} ConfiguredOffset(total: nat, n: nat, ids: nat -> string, count: nat)
    requires n > 0
    ensures |Configured(total, n, ids, count)| == count
    ensures Offset(Configured(total, n, ids, count)) == Multiple(count, total / n) + Min(count, total % n)
  {
    if count > 0 {
      ConfiguredOffset(total, n, ids, count - 1);
      assert Configured(total, n, ids, count)[..count - 1] == Configured(total, n, ids, count - 1);
    }
  }

  function Multiple(count: nat, q: nat): nat {
    if count == 0 then 0 else Multiple(count - 1, q) + q
  }

  lemma {:induction false} MultipleIsProduct(count: nat, q: nat)
    ensures Multiple(count, q) == q * count
  {
    if count > 0 {
      MultipleIsProduct(count - 1, q);
      assert q * count == q * (count - 1) + q;
    }
  }

  /** The endpoints' capacities add up to the lane's capacity. */
  lemma CapacitiesAddUp(total: nat, n: nat, ids: nat -> string)
    requires n > 0
    ensures Offset(Configured(total, n, ids, n)) == total
  {
    ConfiguredOffset(total, n, ids, n);
    MultipleIsProduct(n, total / n);
    assert total == (total / n) * n + total % n;
  }

  // ------------------------------------------------------------ the local pools

  /** One pool per lane and tuple of slots asked for. */
  datatype Key = Key(lane: string, slots: seq<int>)

  datatype Grant = Grant(key: Key, slot: int)

  predicate Distinct(s: seq<int>) {
    forall i, j :: 0 <= i < j < |s| ==> s[i] != s[j]
  }

  type Holder = nat

  /** The slots of a pool are divided between its queue and its holders: each is in exactly one
      place. */
  ghost predicate Divided(free: seq<int>, held: map<Holder, Grant>, key: Key) {
    && Distinct(free)
    && (forall s :: s in key.slots <==> s in free || exists h :: h in held && held[h] == Grant(key, s))
    && (forall h :: h in held && held[h].key == key ==> held[h].slot !in free)
    && (forall g, h :: g in held && h in held && held[g] == held[h] && held[g].key == key ==> g == h)
  }

  /** The queues of free slots, and who holds what. */
  datatype Pools = Pools(queues: map<Key, seq<int>>, held: map<Holder, Grant>)

  ghost predicate ValidPools(p: Pools) {
    && (forall key :: key in p.queues ==> Divided(p.queues[key], p.held, key))
    && (forall h :: h in p.held ==> p.held[h].key in p.queues)
  }

  /** The free slots of the tuple; a pool not used before has them all. */
  function FreeOf(p: Pools, key: Key): seq<int> {
    if key in p.queues then p.queues[key] else key.slots
  }

  /** A request for one of the slots: the one that has been free longest, if there is one. */
  function Requested(p: Pools, holder: Holder, lane: string, slots: seq<int>): Pools {
    var key := Key(lane, slots);
    var free := FreeOf(p, key);
    if slots == [] then p
    else if free == [] then p.(queues := p.queues[key := []])
    else Pools(p.queues[key := free[1..]], p.held[holder := Grant(key, free[0])])
  }

  /** The holder's slot goes to the end of its queue. */
  function GivenBack(p: Pools, holder: Holder): Pools
    requires holder in p.held && p.held[holder].key in p.queues
  {
    var grant := p.held[holder];
    Pools(p.queues[grant.key := p.queues[grant.key] + [grant.slot]], p.held - {holder})
  }

  class LocalSlots {
    var pools: map<Key, seq<int>>
    var held: map<Holder, Grant>

    constructor ()
      ensures Valid() && pools == map[] && held == map[]
    {
      pools, held := map[], map[];
    }

    function State(): Pools
      reads this
    {
      Pools(pools, held)
    }

    ghost predicate Valid()
      reads this
    {
      ValidPools(State())
    }

    method SlotQueue(key: Key)
      requires Valid() && Distinct(key.slots)
      modifies this`pools
      ensures Valid() && key in pools
      ensures pools == if key in old(pools) then old(pools) else old(pools)[key := key.slots]
    {
      if key !in pools {
        var queue: seq<int> := [];
        for i := 0 to |key.slots|
          invariant queue == key.slots[..i] && pools == old(pools)
        {
          queue := queue + [key.slots[i]];
        }
        assert queue == key.slots;
        pools := pools[key := queue];
      }
    }

    /** Takes the slot that has been free longest; nothing when none becomes free in time. */
    method Acquire(holder: Holder, lane: string, slots: seq<int>) returns (slot: Option<int>)
      requires Valid() && Distinct(slots) && holder !in held
      modifies this
      ensures Valid()
      ensures State() == Requested(old(State()), holder, lane, slots)
      ensures slot.None? <==> slots == [] || FreeOf(old(State()), Key(lane, slots)) == []
      ensures slot.Some? ==> slot.value in slots && holder in held && held[holder] == Grant(Key(lane, slots), slot.value)
    {
      hide Divided;
      if slots == [] {
        return None;
      }
      var key := Key(lane, slots);
      SlotQueue(key);
      var free := pools[key];
      if free == [] {
        return None;
      }
      ghost var before := held;
      pools := pools[key := free[1..]];
      held := held[holder := Grant(key, free[0])];
      FreeIsOwn(free, before, key);
      Taken(free, before, key, holder);
      OtherPools(before, held, holder, key);
      return Some(free[0]);
    }

    /** Every way out of the guarded block comes here. */
    method Release(holder: Holder)
      requires Valid() && holder in held
      modifies this
      ensures Valid()
      ensures State() == GivenBack(old(State()), holder)
    {
      hide Divided;
      var grant := held[holder];
      ghost var before := held;
      ghost var free := pools[grant.key];
      pools := pools[grant.key := pools[grant.key] + [grant.slot]];
      held := held - {holder};
      Returned(free, before, grant.key, holder);
      OtherPools(before, held, holder, grant.key);
    }
  }

  /** A slot is held by at most one holder in the lane as long as callers ask for tuples of slots that
      are equal or do not overlap. */
  lemma NoDoubleHold(p: Pools, g: Holder, h: Holder)
    requires ValidPools(p) && g in p.held && h in p.held && g != h && p.held[g].key.lane == p.held[h].key.lane
    requires p.held[g].key != p.held[h].key ==> forall s :: s in p.held[g].key.slots ==> s !in p.held[h].key.slots
    ensures p.held[g].slot != p.held[h].slot
  {
    var k, l := p.held[g].key, p.held[h].key;
    assert p.held[g] == Grant(k, p.held[g].slot) && p.held[h] == Grant(l, p.held[h].slot);
    assert p.held[g].slot in k.slots && p.held[h].slot in l.slots;
  }

  /** With overlapping tuples a slot can be handed out twice. */
  method OverlapIsHandedOutTwice() returns (local: LocalSlots)
    ensures fresh(local) && local.Valid()
    ensures 1 in local.held && 2 in local.held
    ensures local.held[1].key.lane == local.held[2].key.lane && local.held[1].slot == local.held[2].slot
  {
    hide Divided;
    local := new LocalSlots();
    var first := local.Acquire(1, "extract", [0]);
    var second := local.Acquire(2, "extract", [0, 1]);
  }

  lemma FreeIsOwn(free: seq<int>, held: map<Holder, Grant>, key: Key)
    requires free != [] && Divided(free, held, key)
    ensures free[0] in key.slots
  {
    assert free[0] in free;
  }

  lemma Taken(free: seq<int>, held: map<Holder, Grant>, key: Key, holder: Holder)
    requires free != [] && Divided(free, held, key) && holder !in held
    ensures Divided(free[1..], held[holder := Grant(key, free[0])], key)
  {
    var after := held[holder := Grant(key, free[0])];
    assert after[holder] == Grant(key, free[0]);
    forall s | s in key.slots
      ensures s in free[1..] || exists h :: h in after && after[h] == Grant(key, s)
    {
      if s in free {
        assert s == free[0] || s in free[1..];
      } else {
        var h :| h in held && held[h] == Grant(key, s);
        assert after[h] == Grant(key, s);
      }
    }
  }

  lemma Returned(free: seq<int>, held: map<Holder, Grant>, key: Key, holder: Holder)
    requires Divided(free, held, key) && holder in held && held[holder].key == key
    ensures Divided(free + [held[holder].slot], held - {holder}, key)
  {
    var after, slot := held - {holder}, held[holder].slot;
    forall s | s in key.slots
      ensures s in free + [slot] || exists h :: h in after && after[h] == Grant(key, s)
    {
      if s !in free {
        var h :| h in held && held[h] == Grant(key, s);
        assert h != holder ==> after[h] == Grant(key, s);
      }
    }
  }

  /** What one holder does leaves the other pools as they were. */
  lemma OtherPools(before: map<Holder, Grant>, after: map<Holder, Grant>, holder: Holder, key: Key)
    requires forall h :: h != holder ==> (h in before <==> h in after) && (h in before ==> before[h] == after[h])
    requires (holder in before ==> before[holder].key == key) && (holder in after ==> after[holder].key == key)
    ensures forall free, other :: other != key && Divided(free, before, other) ==> Divided(free, after, other)
  {
    forall free, other | other != key && Divided(free, before, other)
      ensures Divided(free, after, other)
    {
      forall s
        ensures (exists h :: h in before && before[h] == Grant(other, s)) <==> (exists h :: h in after && after[h] == Grant(other, s))
      {
        if h :| h in before && before[h] == Grant(other, s) {
          assert h != holder && after[h] == Grant(other, s);
        }
        if h :| h in after && after[h] == Grant(other, s) {
          assert h != holder && before[h] == Grant(other, s);
        }
      }
    }
  }
}
