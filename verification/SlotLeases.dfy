/** Inference slots shared between processes: leased locks with heartbeats. */
module SlotLeases {
  import opened Common

  type Slot = nat

  /** A caller inside the guarded block, by the random token of its lock. */
  type Token = nat

  type Time = int

  const Lease: Time := 120

  datatype Lock = Lock(owner: Token, expiry: Time)

  /** A caller that was granted a slot, and when it last took or renewed the lock. */
  datatype Hold = Hold(slot: Slot, renewed: Time)

  datatype State = State(clock: Time, locks: map<Slot, Lock>, holds: map<Token, Hold>)

  /** The owner of a lock that has not expired. */
  function Owner(s: State, slot: Slot): Option<Token> {
    if slot in s.locks && s.clock < s.locks[slot].expiry then Some(s.locks[slot].owner) else None
  }

  datatype Step =
    | Tick(elapsed: nat)
    | Take(token: Token, slot: Slot)
    | Extend(token: Token)
    | Leave(token: Token)

  /** `Take` is the non-blocking attempt on a slot by a caller with a fresh token; extending fails
      once the lock has another owner, and leaving releases the lock only if it is still owned. */
  function Apply(s: State, step: Step): State {
    match step
    case Tick(elapsed) => s.(clock := s.clock + elapsed)
    case Take(token, slot) =>
      if Owner(s, slot).Some? || token in s.holds then s
      else s.(locks := s.locks[slot := Lock(token, s.clock + Lease)], holds := s.holds[token := Hold(slot, s.clock)])
    case Extend(token) =>
      if token in s.holds && Owner(s, s.holds[token].slot) == Some(token) then
        var slot := s.holds[token].slot;
        s.(locks := s.locks[slot := Lock(token, s.clock + Lease)], holds := s.holds[token := Hold(slot, s.clock)])
      else s
    case Leave(token) =>
      if token !in s.holds then s
      else
        var slot := s.holds[token].slot;
        s.(holds := s.holds - {token}, locks := if Owner(s, slot) == Some(token) then s.locks - {slot} else s.locks)
  }

  function After(s: State, run: seq<Step>): State {
    if run == [] then s else Apply(After(s, run[..|run| - 1]), run[|run| - 1])
  }

  /** Nobody in the guarded block let a whole lease pass without renewing. */
  predicate Renewed(s: State) {
    forall t :: t in s.holds ==> s.clock - s.holds[t].renewed < Lease
  }

  predicate AlwaysRenewed(s: State, run: seq<Step>) {
    Renewed(After(s, run)) && (run == [] || AlwaysRenewed(s, run[..|run| - 1]))
  }

  /** A slot is locked exactly when a caller holds it, and it names that caller. */
  ghost predicate Exact(s: State) {
    && (forall t :: t in s.holds ==> Owner(s, s.holds[t].slot) == Some(t))
    && (forall slot :: Owner(s, slot).Some? ==> Owner(s, slot).value in s.holds && s.holds[Owner(s, slot).value].slot == slot)
    && (forall t :: t in s.holds ==> s.locks[s.holds[t].slot].expiry == s.holds[t].renewed + Lease)
  }

  lemma TickKeepsExact(s: State, elapsed: nat)
    requires Exact(s) && Renewed(Apply(s, Tick(elapsed)))
    ensures Exact(Apply(s, Tick(elapsed)))
  {
    var t := Apply(s, Tick(elapsed));
    forall h | h in t.holds
      ensures Owner(t, t.holds[h].slot) == Some(h)
    {
      assert Owner(s, s.holds[h].slot) == Some(h);
    }
    forall slot | Owner(t, slot).Some?
      ensures Owner(s, slot) == Owner(t, slot)
    {
    }
  }

  /** Taking a free slot, or renewing one's own. */
  lemma LockKeepsExact(s: State, token: Token, slot: Slot)
    requires Exact(s)
    requires (Owner(s, slot).None? && token !in s.holds)
             || (Owner(s, slot) == Some(token) && token in s.holds && s.holds[token].slot == slot)
    ensures Exact(s.(locks := s.locks[slot := Lock(token, s.clock + Lease)], holds := s.holds[token := Hold(slot, s.clock)]))
  {
    var t := s.(locks := s.locks[slot := Lock(token, s.clock + Lease)], holds := s.holds[token := Hold(slot, s.clock)]);
    forall h | h in t.holds && h != token
      ensures Owner(t, t.holds[h].slot) == Some(h) && t.locks[t.holds[h].slot].expiry == t.holds[h].renewed + Lease
    {
      assert Owner(s, s.holds[h].slot) == Some(h);
    }
    forall other | other != slot
      ensures Owner(t, other) == Owner(s, other)
    {
    }
  }

  lemma LeaveKeepsExact(s: State, token: Token)
    requires Exact(s)
    ensures Exact(Apply(s, Leave(token)))
  {
    var t := Apply(s, Leave(token));
    forall h | h in t.holds
      ensures Owner(t, t.holds[h].slot) == Some(h) && t.locks[t.holds[h].slot].expiry == t.holds[h].renewed + Lease
    {
      assert Owner(s, s.holds[h].slot) == Some(h);
    }
    forall slot | Owner(t, slot).Some?
      ensures Owner(s, slot) == Owner(t, slot)
    {
    }
  }

  lemma StepKeepsExact(s: State, step: Step)
    requires Exact(s) && Renewed(Apply(s, step))
    ensures Exact(Apply(s, step))
  {
    match step
    case Tick(elapsed) => TickKeepsExact(s, elapsed);
    case Take(token, slot) =>
      if Apply(s, step) != s {
        hide Exact, Renewed;
        LockKeepsExact(s, token, slot);
      }
    case Extend(token) =>
      if Apply(s, step) != s {
        assert Owner(s, s.holds[token].slot) == Some(token);
        hide Exact, Renewed;
        LockKeepsExact(s, token, s.holds[token].slot);
      }
    case Leave(token) => LeaveKeepsExact(s, token);
  }

  /** As long as renewals come within the lease, in every run the locked slots are exactly the held
      ones: free and held slots always make up the whole set, and no slot is held twice. */
  lemma {:induction false} LeasesAreExact(clock: Time, run: seq<Step>)
    requires AlwaysRenewed(State(clock, map[], map[]), run)
    ensures Exact(After(State(clock, map[], map[]), run))
  {
    hide Exact, Renewed, Apply;
    if run == [] {
      NothingLocked(clock);
    } else {
      LeasesAreExact(clock, run[..|run| - 1]);
      StepKeepsExact(After(State(clock, map[], map[]), run[..|run| - 1]), run[|run| - 1]);
    }
  }

  lemma NothingLocked(clock: Time)
    ensures Exact(State(clock, map[], map[]))
  {
  }

  lemma NoDoubleHold(clock: Time, run: seq<Step>, g: Token, h: Token)
    requires AlwaysRenewed(State(clock, map[], map[]), run)
    requires var s := After(State(clock, map[], map[]), run); g in s.holds && h in s.holds && g != h
    ensures var s := After(State(clock, map[], map[]), run); s.holds[g].slot != s.holds[h].slot
  {
    LeasesAreExact(clock, run);
  }

  /** A renewal extends the lock from now on exactly when the caller still owns it; once another caller
      owns it, neither a renewal nor leaving touches it. */
  lemma OnlyOwnersRenew(s: State, token: Token)
    requires token in s.holds
    ensures var slot, t := s.holds[token].slot, Apply(s, Extend(token));
            var owned := slot in s.locks && s.locks[slot].owner == token && s.clock < s.locks[slot].expiry;
            && (owned ==> t == State(s.clock, s.locks[slot := Lock(token, s.clock + Lease)], s.holds[token := Hold(slot, s.clock)]))
            && (!owned ==> t == s)
            && Apply(s, Leave(token)) == State(s.clock, if owned then s.locks - {slot} else s.locks, s.holds - {token})
  {
  }

  /** Leaving gives the slot back and frees no other. */
  lemma LeaveReturnsTheSlot(s: State, token: Token, slot: Slot)
    requires Exact(s) && token in s.holds
    ensures var t := Apply(s, Leave(token));
            && token !in t.holds
            && Owner(t, slot) == if slot == s.holds[token].slot then None else Owner(s, slot)
  {
  }

  /** Without the renewals a slot can be held twice: another caller takes it when the lease is over. */
  lemma LateRenewal(g: Token, h: Token, slot: Slot, elapsed: nat)
    requires g != h
    ensures var s := After(State(0, map[], map[]), [Take(g, slot), Tick(elapsed), Take(h, slot)]);
            g in s.holds && (h in s.holds && s.holds[g].slot == s.holds[h].slot <==> elapsed >= Lease)
  {
    var run := [Take(g, slot), Tick(elapsed), Take(h, slot)];
    var s := State(0, map[], map[]);
    assert run[..2] == [Take(g, slot), Tick(elapsed)] && run[..2][..1] == [Take(g, slot)] && run[..2][..1][..0] == [];
    assert After(s, run[..2][..1]) == Apply(s, Take(g, slot));
    assert After(s, run[..2]) == Apply(Apply(s, Take(g, slot)), Tick(elapsed));
  }

  // ------------------------------------------------------------ taking a slot

  /** One sweep over the caller's slots: the first one whose lock is free is taken. */
  class Locks {
    var s: State

    constructor (clock: Time)
      ensures s == State(clock, map[], map[])
    {
      s := State(clock, map[], map[]);
    }

    method TryAcquire(token: Token, slots: seq<Slot>) returns (taken: Option<Slot>)
      requires token !in s.holds
      modifies this
      ensures taken.None? ==> s == old(s) && forall slot :: slot in slots ==> Owner(s, slot).Some?
      ensures taken.Some? ==>
                && s == Apply(old(s), Take(token, taken.value))
                && taken.value in slots && token in s.holds && s.holds[token].slot == taken.value
                && exists i :: 0 <= i < |slots| && slots[i] == taken.value
                               && forall k :: 0 <= k < i ==> Owner(old(s), slots[k]).Some?
    {
      for i := 0 to |slots|
        invariant s == old(s)
        invariant forall k :: 0 <= k < i ==> Owner(s, slots[k]).Some?
      {
        if Owner(s, slots[i]).None? {
          s := s.(locks := s.locks[slots[i] := Lock(token, s.clock + Lease)],
                  holds := s.holds[token := Hold(slots[i], s.clock)]);
          return Some(slots[i]);
        }
      }
      return None;
    }
  }
}
