/**
 The admission authority: a bounded table of registered gates under one epoch
 and one deadline. A first binding stays fixed, and mismatch, expiry, a clock
 that runs backwards or a revocation fails it for ever.

 What the authority does to a shared gate is returned as a command, because
 other threads move the gate between the authority's own accesses to it.
 */
module Authority {
  import opened Common
  import Lifecycle

  const MAXIMUM: nat := 64

  /** A gate object and the work it was reserved for. */
  datatype Ref = Ref(object_: nat, work: Identity)

  datatype Outcome = Accepted | NotReady | Revoked | Foreign | Stopped | WrongState | Capacity | Invalid

  /** An answer, or what to do to the gate before answering. */
  datatype Decision =
    | Answer(outcome: Outcome)
    | Bind(slot: nat, epoch: Epoch)
    | Prepare
    | Publish(now: nat, limit: nat)
    | StopGate

  datatype Auth = Auth(
    capacity: nat, slots: seq<Option<Ref>>, epoch: Option<Epoch>,
    deadline: nat, observed: nat, failed: bool)

  predicate ValidEpoch(e: Epoch) { e.platform != 0 && e.generation != 0 && e.user >= 0 }

  function Revoke(a: Auth): Auth { a.(failed := true, deadline := 0) }

  function Freshened(a: Auth, now: nat): Auth {
    var b := if a.capacity == 0 || a.capacity > MAXIMUM || now < a.observed then Revoke(a) else a;
    var c := b.(observed := now);
    if c.epoch.Some? && now >= c.deadline then Revoke(c) else c
  }

  predicate IsFresh(a: Auth, now: nat) {
    var c := Freshened(a, now);
    !c.failed && c.epoch.Some?
  }

  function Observed(a: Auth, epoch: Epoch, deadline: nat, now: nat): (Auth, Outcome) {
    var c := Freshened(a, now);
    if c.failed then (c, Revoked)
    else if !ValidEpoch(epoch) || deadline <= now || deadline - now > Lifecycle.LEASE ||
            (c.epoch.Some? && c.epoch.value != epoch)
    then (Revoke(c), Revoked)
    else (c.(epoch := Some(epoch), deadline := if deadline > c.deadline then deadline else c.deadline), Accepted)
  }

  predicate Registered(a: Auth, r: Ref) { Some(r) in a.slots }

  /** The first free place below the capacity. */
  function FreeSlot(a: Auth, from: nat): Option<nat>
    decreases |a.slots| - from
  {
    if from >= a.capacity || from >= |a.slots| then None
    else if a.slots[from].None? then Some(from)
    else FreeSlot(a, from + 1)
  }

  predicate Clashes(entry: Option<Ref>, r: Ref) { entry.Some? && entry.value.work == r.work }

  /** Admission of a gate: NotReady and Revoked first, then a clash with the first
      registered gate of the same work, then the first free place. */
  function Admitting(a: Auth, work: Option<Ref>, now: nat): (Auth, Decision) {
    var c := Freshened(a, now);
    if !IsFresh(a, now) then (c, Answer(if c.failed then Revoked else NotReady))
    else if work.None? then (c, Answer(Invalid))
    else if exists i :: 0 <= i < |c.slots| && Clashes(c.slots[i], work.value)
    then (c, Answer(if Registered(c, work.value) then WrongState else Foreign))
    else match FreeSlot(c, 0)
         case None => (c, Answer(Capacity))
         case Some(slot) => (c, Bind(slot, c.epoch.value))
  }

  function Preparing(a: Auth, work: Option<Ref>, bound: Option<Epoch>, now: nat): (Auth, Decision) {
    var c := Freshened(a, now);
    if !IsFresh(a, now) then (c, Answer(if c.failed then Revoked else NotReady))
    else if work.None? || !Registered(c, work.value) || bound != c.epoch then (c, Answer(Foreign))
    else (c, Prepare)
  }

  function Releasing(a: Auth, work: Option<Ref>, bound: Option<Epoch>, now: nat, ceiling: nat): (Auth, Decision) {
    var c := Freshened(a, now);
    if !IsFresh(a, now) then (c, Answer(if c.failed then Revoked else NotReady))
    else if work.None? || !Registered(c, work.value) || bound != c.epoch then (c, Answer(Foreign))
    else
      var limit := if ceiling < c.deadline then ceiling else c.deadline;
      if limit <= now then (c, StopGate) else (c, Publish(now, limit))
  }

  /** The table's gates are distinct objects of distinct works, and stand below the capacity. */
  ghost predicate WellFormed(a: Auth) {
    && |a.slots| == MAXIMUM
    && (forall i :: 0 <= i < |a.slots| && a.slots[i].Some? ==> i < a.capacity)
    && (forall i, j :: 0 <= i < |a.slots| && 0 <= j < |a.slots| && i != j && a.slots[i].Some? && a.slots[j].Some? ==>
                         a.slots[i].value.work != a.slots[j].value.work
                         && a.slots[i].value.object_ != a.slots[j].value.object_)
    && (a.failed ==> a.deadline == 0)
  }

  /** What retiring a gate is answered. */
  function RetireAnswer(registered: bool, stopped: bool): Outcome {
    if !registered then Foreign else if stopped then Accepted else WrongState
  }

  /** The gates to be stopped after a call: registered ones only, none unless the
      authority failed, and every one of them when it has just failed. */
  ghost predicate StopsDue(stops: seq<Ref>, failedBefore: bool, a: Auth) {
    && (forall r :: r in stops ==> Registered(a, r))
    && (stops != [] ==> a.failed)
    && (a.failed && !failedBefore ==> forall r :: Registered(a, r) ==> r in stops)
  }

  lemma FreeSlotIsFirst(a: Auth, from: nat)
    ensures FreeSlot(a, from).None? ==>
              forall i :: from <= i < a.capacity && i < |a.slots| ==> a.slots[i].Some?
    ensures FreeSlot(a, from).Some? ==>
              var k := FreeSlot(a, from).value;
              && from <= k < a.capacity && k < |a.slots| && a.slots[k].None?
              && forall i :: from <= i < k ==> a.slots[i].Some?
    decreases |a.slots| - from
  {
    if from < a.capacity && from < |a.slots| && a.slots[from].Some? {
      FreeSlotIsFirst(a, from + 1);
    }
  }

  /** The authority object. Its own mutex is held through each method. */
  class AdmissionAuthority {
    const capacity: nat
    const slots: array<Option<Ref>>
    var epoch: Option<Epoch>
    var deadline: nat
    var observed: nat
    var failed: bool

    ghost function View(): Auth
      reads this, slots
    {
      Auth(capacity, slots[..], epoch, deadline, observed, failed)
    }

    constructor (capacity: nat)
      ensures View() == Auth(capacity, seq(MAXIMUM, _ => None), None, 0, 0, false)
      ensures fresh(slots)
    {
      this.capacity := capacity;
      slots := new Option<Ref>[MAXIMUM](_ => None);
      epoch, deadline, observed, failed := None, 0, 0, false;
      new;
      assert slots[..] == seq(MAXIMUM, _ => None);
    }

    /** Returns every registered gate, in order, to be stopped. */
    method RevokeLocked() returns (stops: seq<Ref>)
      modifies this
      ensures View() == Revoke(old(View()))
      ensures forall r :: r in stops <==> Registered(View(), r)
    {
      failed := true;
      deadline := 0;
      stops := [];
      for i := 0 to slots.Length
        invariant View() == Revoke(old(View()))
        invariant forall r :: r in stops <==> Some(r) in slots[..i]
      {
        if slots[i].Some? {
          stops := stops + [slots[i].value];
        }
        assert slots[..i + 1] == slots[..i] + [slots[i]];
      }
      assert slots[..slots.Length] == slots[..];
    }

    method Fresh(now: nat) returns (ok: bool, stops: seq<Ref>)
      modifies this
      ensures View() == Freshened(old(View()), now) && ok == IsFresh(old(View()), now)
      ensures StopsDue(stops, old(failed), View())
    {
      stops := [];
      if capacity == 0 || capacity > MAXIMUM || now < observed {
        stops := RevokeLocked();
      }
      observed := now;
      if epoch.Some? && now >= deadline {
        stops := RevokeLocked();
      }
      ok := !failed && epoch.Some?;
    }

    method IsRegistered(r: Ref) returns (found: bool)
      ensures found == Registered(View(), r)
    {
      for i := 0 to slots.Length
        invariant Some(r) !in slots[..i]
      {
        if slots[i] == Some(r) { return true; }
        assert slots[..i + 1] == slots[..i] + [slots[i]];
      }
      assert slots[..slots.Length] == slots[..];
      return false;
    }

    method Observe(e: Epoch, until: nat, now: nat) returns (outcome: Outcome, stops: seq<Ref>)
      modifies this
      ensures (View(), outcome) == Observed(old(View()), e, until, now)
      ensures StopsDue(stops, old(failed), View())
    {
      var ok;
      ok, stops := Fresh(now);
      if failed { return Revoked, stops; }
      if !ValidEpoch(e) || until <= now || until - now > Lifecycle.LEASE || (epoch.Some? && epoch.value != e) {
        stops := RevokeLocked();
        return Revoked, stops;
      }
      if epoch.None? { epoch := Some(e); }
      if until > deadline { deadline := until; }
      return Accepted, stops;
    }

    method Admit(work: Option<Ref>, now: nat) returns (decision: Decision, stops: seq<Ref>)
      requires WellFormed(View())
      modifies this
      ensures (View(), decision) == Admitting(old(View()), work, now)
      ensures StopsDue(stops, old(failed), View())
    {
      var ok;
      ok, stops := Fresh(now);
      ghost var v := View();
      if !ok { return Answer(if failed then Revoked else NotReady), stops; }
      if work.None? { return Answer(Invalid), stops; }
      for i := 0 to slots.Length
        invariant View() == v
        invariant forall k :: 0 <= k < i ==> !Clashes(slots[k], work.value)
      {
        if slots[i] == work {
          assert Clashes(v.slots[i], work.value);
          return Answer(WrongState), stops;
        }
        if slots[i].Some? && slots[i].value.work == work.value.work {
          assert Clashes(v.slots[i], work.value);
          assert !Registered(v, work.value);
          return Answer(Foreign), stops;
        }
      }
      var slot := 0;
      while slot < capacity
        invariant slot <= capacity && capacity <= MAXIMUM
        invariant FreeSlot(v, 0) == FreeSlot(v, slot)
      {
        if slots[slot].None? {
          return Bind(slot, epoch.value), stops;
        }
        slot := slot + 1;
      }
      return Answer(Capacity), stops;
    }

    /** Records the gate after its Bind succeeded. */
    method Store(slot: nat, r: Ref)
      requires WellFormed(View()) && slot < capacity && slot < slots.Length
      modifies slots
      ensures View() == old(View()).(slots := old(View()).slots[slot := Some(r)])
    {
      slots[slot] := Some(r);
    }

    method Prepared(work: Option<Ref>, bound: Option<Epoch>, now: nat) returns (decision: Decision, stops: seq<Ref>)
      modifies this
      ensures (View(), decision) == Preparing(old(View()), work, bound, now)
      ensures StopsDue(stops, old(failed), View())
    {
      var ok;
      ok, stops := Fresh(now);
      if !ok { return Answer(if failed then Revoked else NotReady), stops; }
      if work.None? { return Answer(Foreign), stops; }
      var known := IsRegistered(work.value);
      if !known || bound != epoch { return Answer(Foreign), stops; }
      return Prepare, stops;
    }

    method Release(work: Option<Ref>, bound: Option<Epoch>, now: nat, ceiling: nat)
      returns (decision: Decision, stops: seq<Ref>)
      modifies this
      ensures (View(), decision) == Releasing(old(View()), work, bound, now, ceiling)
      ensures StopsDue(stops, old(failed), View())
    {
      var ok;
      ok, stops := Fresh(now);
      if !ok { return Answer(if failed then Revoked else NotReady), stops; }
      if work.None? { return Answer(Foreign), stops; }
      var known := IsRegistered(work.value);
      if !known || bound != epoch { return Answer(Foreign), stops; }
      var limit := if ceiling < deadline then ceiling else deadline;
      if limit <= now { return StopGate, stops; }
      return Publish(now, limit), stops;
    }

    /** Frees the gate's place, only when the gate is stopped. */
    method Retire(work: Option<Ref>, stopped: bool) returns (outcome: Outcome)
      requires WellFormed(View())
      modifies slots
      ensures outcome == if work.None? then Invalid else RetireAnswer(old(Registered(View(), work.value)), stopped)
      ensures WellFormed(View())
      ensures forall r :: Registered(View(), r) <==>
              old(Registered(View(), r)) && (outcome == Accepted ==> Some(r) != work)
      ensures epoch == old(epoch) && deadline == old(deadline) && failed == old(failed) && observed == old(observed)
    {
      if work.None? { return Invalid; }
      for i := 0 to slots.Length
        invariant slots[..] == old(slots[..])
        invariant work !in slots[..i]
      {
        if slots[i] == work {
          assert Registered(View(), work.value);
          if !stopped { return WrongState; }
          ghost var before := slots[..];
          slots[i] := None;
          assert slots[..] == before[i := None];
          forall r
            ensures Some(r) in slots[..] <==> Some(r) in before && Some(r) != work
          {
            if Some(r) in before && Some(r) != work {
              var k :| 0 <= k < |before| && before[k] == Some(r);
              assert slots[..][k] == Some(r);
            }
          }
          return Accepted;
        }
        assert slots[..i + 1] == slots[..i] + [slots[i]];
      }
      assert slots[..slots.Length] == slots[..];
      return Foreign;
    }
  }

  // What any sequence of calls keeps.

  lemma StoreKeepsWellFormed(a: Auth, work: Ref, now: nat)
    requires WellFormed(a) && Admitting(a, Some(work), now).1.Bind?
    requires forall i :: 0 <= i < |a.slots| && a.slots[i].Some? && a.slots[i].value.object_ == work.object_ ==>
                           a.slots[i].value == work
    ensures var (c, d) := Admitting(a, Some(work), now);
            && d.slot < |c.slots| && c.slots[d.slot].None? && d.slot < c.capacity <= MAXIMUM
            && (forall i :: 0 <= i < d.slot ==> c.slots[i].Some?)
            && !Registered(a, work)
            && WellFormed(c.(slots := c.slots[d.slot := Some(work)]))
  {
    var c := Freshened(a, now);
    FreeSlotIsFirst(c, 0);
    forall i | 0 <= i < |a.slots| && a.slots[i].Some?
      ensures a.slots[i].value != work
    {
      assert !Clashes(c.slots[i], work);
    }
  }

  /** Admission is refused for capacity exactly when a fresh authority is offered a
      gate that clashes with none, and every place below the capacity is taken. */
  lemma CapacityIsTruthful(a: Auth, work: Option<Ref>, now: nat)
    ensures Admitting(a, work, now).1 == Answer(Capacity) <==>
              && IsFresh(a, now) && work.Some?
              && (forall i :: 0 <= i < |a.slots| ==> !Clashes(a.slots[i], work.value))
              && (forall i :: 0 <= i < a.capacity && i < |a.slots| ==> a.slots[i].Some?)
  {
    FreeSlotIsFirst(Freshened(a, now), 0);
  }

  datatype Call =
    | CallObserve(epoch: Epoch, until: nat, now: nat)
    | CallCheck(now: nat)
    | CallRevoke

  function Apply(a: Auth, c: Call): Auth {
    match c
    case CallObserve(e, until, now) => Observed(a, e, until, now).0
    case CallCheck(now) => Freshened(a, now)
    case CallRevoke => Revoke(a)
  }

  function Exec(a: Auth, calls: seq<Call>): Auth
    decreases |calls|
  {
    if calls == [] then a else Exec(Apply(a, calls[0]), calls[1..])
  }

  /** Failure is permanent, the epoch never changes once it is set, and the
      deadline only rises while the authority lives. */
  lemma {:induction false} AuthorityOnlyAges(a: Auth, calls: seq<Call>)
    ensures var b := Exec(a, calls);
            && (a.failed ==> b.failed)
            && (a.epoch.Some? ==> b.epoch == a.epoch)
            && (!b.failed ==> a.deadline <= b.deadline)
            && b.slots == a.slots && b.capacity == a.capacity
    decreases |calls|
  {
    if calls != [] {
      AuthorityOnlyAges(Apply(a, calls[0]), calls[1..]);
    }
  }

  /** The deadline an authority holds came from evidence that was at most one
      lease ahead of the clock, and a release never publishes past it or past
      the ceiling it was given. */
  lemma ReleaseIsBounded(a: Auth, work: Option<Ref>, bound: Option<Epoch>, now: nat, ceiling: nat)
    ensures var (c, d) := Releasing(a, work, bound, now, ceiling);
            d.Publish? ==>
              && work.Some? && Registered(a, work.value) && bound == a.epoch && a.epoch.Some?
              && d.now == now && now < d.limit && d.limit <= a.deadline && d.limit <= ceiling
              && (d.limit == a.deadline || d.limit == ceiling)
              && !a.failed && now >= a.observed
  {
  }
}
