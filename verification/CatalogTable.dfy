/**
 The catalog's table of works over the registry's table of slots. A lookup in
 the registry pins only the record: its canonical catalog work may be forgotten
 and collected before the lookup reaches the catalog's own lock. The machine
 here interleaves reservations, lookups, captures, Forget (the registry first,
 the catalog's flag after it) and Collect, for any number of callers. A
 reference count is the number of callers and table entries that hold on.
 */
module CatalogTable {
  import opened Common

  datatype Slot = Free | Allocating(id: nat) | Failed(id: nat) | Recorded(id: nat)

  /** A catalog entry. Busy: an input preparation, release or start is pending. */
  datatype Work = Work(id: nat, forgotten: bool, busy: bool)

  datatype Core = Core(
    slots: seq<Slot>, serial: nat, forgotten: set<nat>,    // the registry
    works: seq<Option<Work>>,                              // the catalog
    published: seq<nat>)                                   // every publication, oldest first

  /** A caller, by what it holds: a registry control (Looked, Refused,
      Retiring) or a handle on the catalog work. */
  datatype Caller =
    | Gone
    | Looked(id: nat)
    | Refused(id: nat)
    | Retiring(id: nat)
    | Holding(id: nat)
    | Forgetting(id: nat)
    | Marking(id: nat)
    | Stale(id: nat)
    | NoPlace(id: nat)

  datatype State = State(core: Core, callers: seq<Caller>)

  function Initial(capacity: nat): State {
    State(Core(seq(capacity, i => Free), 0, {}, seq(capacity, i => None), []), [])
  }

  predicate Pins(c: Caller) { !c.Gone? && !c.Stale? && !c.NoPlace? }

  predicate Handles(c: Caller) { c.Holding? || c.Forgetting? || c.Marking? }

  /** The first entry for an identity, or the table's length. */
  function Place(works: seq<Option<Work>>, id: nat): (k: nat)
    ensures k <= |works|
    ensures k < |works| ==> works[k].Some? && works[k].value.id == id
    ensures forall i :: 0 <= i < k ==> !(works[i].Some? && works[i].value.id == id)
  {
    if works == [] || (works[0].Some? && works[0].value.id == id) then 0 else 1 + Place(works[1..], id)
  }

  /** The first empty entry, or the table's length. */
  function Room(works: seq<Option<Work>>): (k: nat)
    ensures k <= |works|
    ensures k < |works| ==> works[k].None?
    ensures forall i :: 0 <= i < k ==> works[i].Some?
  {
    if works == [] || works[0].None? then 0 else 1 + Room(works[1..])
  }

  /** Publishes a control in the catalog, or finds it there, or refuses it. */
  function Captured(c: Core, id: nat): (Core, Caller) {
    if Place(c.works, id) < |c.works| then (c, Holding(id))
    else if id in c.forgotten then (c, Refused(id))
    else if Room(c.works) < |c.works| then
      (c.(works := c.works[Room(c.works) := Some(Work(id, false, false))], published := c.published + [id]),
       Holding(id))
    else (c, Refused(id))
  }

  /** What a caller does next by itself. */
  function Act(c: Core, k: Caller, ok: bool): (Core, Caller) {
    match k
    case Looked(id) => Captured(c, id)
    case Refused(id) => (c, if id in c.forgotten then Stale(id) else NoPlace(id))
    case Retiring(id) => (c, Gone)
    case Holding(id) => (c, if ok then Forgetting(id) else Gone)
    case Forgetting(id) => if ok then (c.(forgotten := c.forgotten + {id}), Marking(id)) else (c, Holding(id))
    case Marking(id) =>
      var p := Place(c.works, id);
      (if p < |c.works| then c.(works := c.works[p := Some(c.works[p].value.(forgotten := true))]) else c, Holding(id))
    case _ => (c, k)
  }

  predicate Held(callers: seq<Caller>, id: nat) {
    exists i :: 0 <= i < |callers| && Pins(callers[i]) && callers[i].id == id
  }

  predicate Handled(callers: seq<Caller>, id: nat) {
    exists i :: 0 <= i < |callers| && Handles(callers[i]) && callers[i].id == id
  }

  predicate Cataloged(works: seq<Option<Work>>, id: nat) {
    exists k :: 0 <= k < |works| && works[k].Some? && works[k].value.id == id
  }

  /** A slot that Reserve may take: its record, if any, is forgotten and only
      the slot still refers to it. */
  predicate Reusable(s: State, slot: Slot, gateFree: bool) {
    match slot
    case Free => true
    case Failed(_) => true
    case Allocating(_) => false
    case Recorded(id) =>
      id in s.core.forgotten && !Held(s.callers, id) && !Cataloged(s.core.works, id) && gateFree
  }

  predicate Collectable(s: State, w: Option<Work>) {
    w.Some? && w.value.forgotten && !w.value.busy && !Handled(s.callers, w.value.id)
  }

  datatype Choice =
    | Reserve(slot: nat, gateFree: bool)
    | Finish(slot: nat, ok: bool)
    | Lookup(slot: nat)
    | Run(caller: nat, ok: bool)
    | Share(caller: nat)
    | Collect(place: nat)
    | SetBusy(place: nat, busy: bool)

  function Next(s: State, c: Choice): State {
    match c
    case Reserve(i, gateFree) =>
      if i < |s.core.slots| && Reusable(s, s.core.slots[i], gateFree) then
        s.(core := s.core.(slots := s.core.slots[i := Allocating(s.core.serial + 1)], serial := s.core.serial + 1))
      else s
    case Finish(i, ok) =>
      if i < |s.core.slots| && s.core.slots[i].Allocating? then
        var id := s.core.slots[i].id;
        if ok then State(s.core.(slots := s.core.slots[i := Recorded(id)]), s.callers + [Looked(id)])
        else s.(core := s.core.(slots := s.core.slots[i := Failed(id)]))
      else s
    case Lookup(i) =>
      if i < |s.core.slots| && s.core.slots[i].Recorded? && s.core.slots[i].id !in s.core.forgotten then
        s.(callers := s.callers + [Looked(s.core.slots[i].id)])
      else s
    case Run(i, ok) =>
      if i < |s.callers| then
        var (core, k) := Act(s.core, s.callers[i], ok);
        State(core, s.callers[i := k])
      else s
    case Share(i) =>
      if i < |s.callers| && Handles(s.callers[i]) then s.(callers := s.callers + [Holding(s.callers[i].id)]) else s
    case Collect(k) =>
      if k < |s.core.works| && Collectable(s, s.core.works[k]) then
        State(s.core.(works := s.core.works[k := None]), s.callers + [Retiring(s.core.works[k].value.id)])
      else s
    case SetBusy(k, busy) =>
      if k < |s.core.works| && s.core.works[k].Some? then
        s.(core := s.core.(works := s.core.works[k := Some(s.core.works[k].value.(busy := busy))]))
      else s
  }

  function Exec(s: State, schedule: seq<Choice>): State
    decreases |schedule|
  {
    if schedule == [] then s else Exec(Next(s, schedule[0]), schedule[1..])
  }

  // ---- invariant

  ghost predicate SlotsSound(c: Core) {
    && (forall i :: 0 <= i < |c.slots| && !c.slots[i].Free? ==> c.slots[i].id <= c.serial)
    && (forall i, j :: 0 <= i < j < |c.slots| && !c.slots[i].Free? && !c.slots[j].Free? ==>
          c.slots[i].id != c.slots[j].id)
  }

  ghost predicate WorksSound(c: Core) {
    && |c.works| == |c.slots|
    && (forall k :: 0 <= k < |c.works| && c.works[k].Some? ==>
          && Recorded(c.works[k].value.id) in c.slots
          && (c.works[k].value.forgotten ==> c.works[k].value.id in c.forgotten))
    && (forall j, k :: 0 <= j < k < |c.works| && c.works[j].Some? && c.works[k].Some? ==>
          c.works[j].value.id != c.works[k].value.id)
  }

  ghost predicate PublishedSound(c: Core) {
    && (forall i, j :: 0 <= i < j < |c.published| ==> c.published[i] != c.published[j])
    && (forall i :: 0 <= i < |c.published| ==>
          && c.published[i] <= c.serial
          && (Cataloged(c.works, c.published[i]) || c.published[i] in c.forgotten))
  }

  ghost predicate CoreSound(c: Core) { SlotsSound(c) && WorksSound(c) && PublishedSound(c) }

  ghost predicate CallerSound(c: Core, k: Caller) {
    && (Pins(k) ==> Recorded(k.id) in c.slots)
    && (Handles(k) ==> Cataloged(c.works, k.id))
    && (k.Refused? || k.Marking? ==> k.id in c.forgotten)
    && !k.NoPlace?
  }

  ghost predicate Sound(s: State) {
    && CoreSound(s.core)
    && forall i :: 0 <= i < |s.callers| ==> CallerSound(s.core, s.callers[i])
  }

  // ---- the pigeonhole

  lemma {:induction false} DistinctAreFew(a: seq<nat>, b: seq<nat>)
    requires forall i, j :: 0 <= i < j < |a| ==> a[i] != a[j]
    requires forall i :: 0 <= i < |a| ==> a[i] in b
    ensures |a| <= |b|
    decreases |a|
  {
    if a != [] {
      var k :| 0 <= k < |b| && b[k] == a[0];
      var rest := b[..k] + b[k + 1..];
      forall i | 0 <= i < |a[1..]|
        ensures a[1..][i] in rest
      {
        var m :| 0 <= m < |b| && b[m] == a[i + 1];
        assert m != k;
        assert rest[if m < k then m else m - 1] == b[m];
      }
      DistinctAreFew(a[1..], rest);
    }
  }

  /** A full catalog already holds every recorded work: there are as many
      entries as slots, and each entry pins a slot of its own. */
  lemma {:induction false} FullCatalogHoldsAll(c: Core, id: nat)
    requires WorksSound(c) && Recorded(id) in c.slots
    requires Room(c.works) == |c.works|
    ensures Cataloged(c.works, id)
  {
    if !Cataloged(c.works, id) {
      assert forall k :: 0 <= k < |c.works| ==> c.works[k].Some?;
      var ids := seq(|c.works|, k requires 0 <= k < |c.works| => c.works[k].value.id) + [id];
      var slots := seq(|c.slots|, i requires 0 <= i < |c.slots| => if c.slots[i].Free? then 0 else c.slots[i].id);
      forall i | 0 <= i < |ids|
        ensures ids[i] in slots
      {
        assert Recorded(ids[i]) in c.slots;
        var m :| 0 <= m < |c.slots| && c.slots[m] == Recorded(ids[i]);
        assert slots[m] == ids[i];
      }
      DistinctAreFew(ids, slots);
    }
  }

  // ---- every step keeps the invariant

  /** Nothing a caller relies on is lost from c to t. */
  ghost predicate Keeps(c: Core, t: Core) {
    && t.slots == c.slots && c.forgotten <= t.forgotten
    && forall id :: Cataloged(c.works, id) ==> Cataloged(t.works, id)
  }

  lemma PlaceIsFound(works: seq<Option<Work>>, id: nat)
    ensures Cataloged(works, id) <==> Place(works, id) < |works|
  {
  }

  /** Replacing one entry by another for the same work catalogs the same works. */
  lemma EntryChanged(works: seq<Option<Work>>, k: nat, w: Work, id: nat)
    requires k < |works| && (works[k].Some? ==> works[k].value.id == w.id)
    ensures Cataloged(works[k := Some(w)], id) <==> Cataloged(works, id) || id == w.id
  {
    var after := works[k := Some(w)];
    assert after[k].Some? && after[k].value.id == w.id;
    if Cataloged(works, id) {
      var j :| 0 <= j < |works| && works[j].Some? && works[j].value.id == id;
      assert after[j].Some? && after[j].value.id == id;
    }
  }

  lemma CaptureSound(c: Core, id: nat)
    requires CoreSound(c) && Recorded(id) in c.slots
    ensures var (t, d) := Captured(c, id); CoreSound(t) && Keeps(c, t) && CallerSound(t, d)
  {
    PlaceIsFound(c.works, id);
    if Place(c.works, id) == |c.works| && id !in c.forgotten {
      if Room(c.works) == |c.works| {
        FullCatalogHoldsAll(c, id);
      } else {
        Publishes(c, id);
      }
    }
  }

  lemma Publishes(c: Core, id: nat)
    requires CoreSound(c) && Recorded(id) in c.slots && id !in c.forgotten
    requires !Cataloged(c.works, id) && Room(c.works) < |c.works|
    ensures var (t, d) := Captured(c, id); CoreSound(t) && Keeps(c, t) && CallerSound(t, d)
  {
    PlaceIsFound(c.works, id);
    var k := Room(c.works);
    var w := Work(id, false, false);
    var t := Captured(c, id).0;
    assert t.works == c.works[k := Some(w)];
    forall other
      ensures Cataloged(t.works, other) <==> Cataloged(c.works, other) || other == id
    {
      EntryChanged(c.works, k, w, other);
    }
    assert id !in c.published;
  }

  lemma MarkSound(c: Core, id: nat)
    requires CoreSound(c) && CallerSound(c, Marking(id))
    ensures var (t, d) := Act(c, Marking(id), true); CoreSound(t) && Keeps(c, t) && CallerSound(t, d)
    ensures Act(c, Marking(id), false) == Act(c, Marking(id), true)
  {
    PlaceIsFound(c.works, id);
    var k := Place(c.works, id);
    EntrySound(c, k, c.works[k].value.(forgotten := true));
  }

  lemma EntrySound(c: Core, k: nat, w: Work)
    requires CoreSound(c) && k < |c.works| && c.works[k].Some? && c.works[k].value.id == w.id
    requires w.forgotten ==> w.id in c.forgotten
    ensures var t := c.(works := c.works[k := Some(w)]); CoreSound(t) && Keeps(c, t)
  {
    var t := c.(works := c.works[k := Some(w)]);
    forall other
      ensures Cataloged(t.works, other) <==> Cataloged(c.works, other)
    {
      EntryChanged(c.works, k, w, other);
    }
  }

  lemma ActSound(c: Core, k: Caller, ok: bool)
    requires CoreSound(c) && CallerSound(c, k)
    ensures var (t, d) := Act(c, k, ok); CoreSound(t) && Keeps(c, t) && CallerSound(t, d)
  {
    match k
    case Looked(id) => CaptureSound(c, id);
    case Marking(id) => MarkSound(c, id);
    case _ =>
  }

  lemma ReserveSound(s: State, i: nat, gateFree: bool)
    requires Sound(s)
    ensures Sound(Next(s, Reserve(i, gateFree)))
  {
    if i < |s.core.slots| && Reusable(s, s.core.slots[i], gateFree) {
      var t := Next(s, Reserve(i, gateFree)).core;
      var slot := s.core.slots[i];
      forall id | Recorded(id) in s.core.slots && !(slot == Recorded(id))
        ensures Recorded(id) in t.slots
      {
        var m :| 0 <= m < |s.core.slots| && s.core.slots[m] == Recorded(id);
        assert t.slots[m] == Recorded(id);
      }
      forall k | 0 <= k < |s.callers|
        ensures CallerSound(t, s.callers[k])
      {
        assert CallerSound(s.core, s.callers[k]);
      }
      assert WorksSound(t);
    }
  }

  lemma FinishSound(s: State, i: nat, ok: bool)
    requires Sound(s)
    ensures Sound(Next(s, Finish(i, ok)))
  {
    if i < |s.core.slots| && s.core.slots[i].Allocating? {
      var n := Next(s, Finish(i, ok));
      var t := n.core;
      forall id | Recorded(id) in s.core.slots
        ensures Recorded(id) in t.slots
      {
        var m :| 0 <= m < |s.core.slots| && s.core.slots[m] == Recorded(id);
        assert t.slots[m] == Recorded(id);
      }
      forall k | 0 <= k < |n.callers|
        ensures CallerSound(t, n.callers[k])
      {
        if k < |s.callers| {
          assert CallerSound(s.core, s.callers[k]);
        } else {
          assert t.slots[i] == Recorded(n.callers[k].id);
        }
      }
    }
  }

  lemma RunSound(s: State, i: nat, ok: bool)
    requires Sound(s)
    ensures Sound(Next(s, Run(i, ok)))
  {
    if i < |s.callers| { ActSound(s.core, s.callers[i], ok); }
  }

  lemma CollectSound(s: State, k: nat)
    requires Sound(s)
    ensures Sound(Next(s, Collect(k)))
  {
    if k < |s.core.works| && Collectable(s, s.core.works[k]) {
      var n := Next(s, Collect(k));
      var id := s.core.works[k].value.id;
      forall other | Cataloged(s.core.works, other) && other != id
        ensures Cataloged(n.core.works, other)
      {
        var j :| 0 <= j < |s.core.works| && s.core.works[j].Some? && s.core.works[j].value.id == other;
        assert n.core.works[j].Some?;
      }
      forall j | 0 <= j < |s.callers|
        ensures CallerSound(n.core, s.callers[j])
      {
        assert CallerSound(s.core, s.callers[j]);
      }
    }
  }

  lemma {:induction false} NextSound(s: State, c: Choice)
    requires Sound(s)
    ensures Sound(Next(s, c))
  {
    match c
    case Reserve(i, gateFree) => ReserveSound(s, i, gateFree);
    case Finish(i, ok) => FinishSound(s, i, ok);
    case Lookup(_) =>
    case Run(i, ok) => RunSound(s, i, ok);
    case Share(_) =>
    case Collect(k) => CollectSound(s, k);
    case SetBusy(k, busy) =>
      if k < |s.core.works| && s.core.works[k].Some? { EntrySound(s.core, k, s.core.works[k].value.(busy := busy)); }
  }

  lemma {:induction false} ExecSound(s: State, schedule: seq<Choice>)
    requires Sound(s)
    ensures Sound(Exec(s, schedule))
    decreases |schedule|
  {
    if schedule != [] {
      NextSound(s, schedule[0]);
      ExecSound(Next(s, schedule[0]), schedule[1..]);
    }
  }

  /** In every run, at most one catalog work is ever published per identity. */
  lemma OneWorkPerIdentity(capacity: nat, schedule: seq<Choice>, i: nat, j: nat)
    requires i < j < |Exec(Initial(capacity), schedule).core.published|
    ensures Exec(Initial(capacity), schedule).core.published[i] != Exec(Initial(capacity), schedule).core.published[j]
  {
    ExecSound(Initial(capacity), schedule);
  }

  /** In every run, a caller that looked up a work ends with its canonical
      handle or learns that it was forgotten: a place is never lacking. */
  lemma NeverOutOfPlaces(capacity: nat, schedule: seq<Choice>)
    ensures forall i :: 0 <= i < |Exec(Initial(capacity), schedule).callers| ==>
              !Exec(Initial(capacity), schedule).callers[i].NoPlace?
  {
    ExecSound(Initial(capacity), schedule);
  }

  /** And whenever it reaches the catalog it is refused only for being forgotten. */
  lemma CaptureRefusesOnlyForgotten(capacity: nat, schedule: seq<Choice>, i: nat)
    requires i < |Exec(Initial(capacity), schedule).callers| && Exec(Initial(capacity), schedule).callers[i].Looked?
    ensures var s := Exec(Initial(capacity), schedule);
            var id := s.callers[i].id;
            var (t, d) := Captured(s.core, id);
            && (d == Refused(id) <==> id in s.core.forgotten && !Cataloged(s.core.works, id))
            && (d == Holding(id) <==> Cataloged(t.works, id))
            && (d == Holding(id) || d == Refused(id))
  {
    ExecSound(Initial(capacity), schedule);
    var s := Exec(Initial(capacity), schedule);
    var id := s.callers[i].id;
    PlaceIsFound(s.core.works, id);
    CaptureSound(s.core, id);
  }

  /** A Forget that the registry agrees to marks the record and then the work,
      which Collect may then retire as soon as nobody holds it. */
  lemma ForgottenIsCollectable(s: State, i: nat)
    requires Sound(s) && i < |s.callers| && s.callers[i].Forgetting?
    requires var k := Place(s.core.works, s.callers[i].id); k < |s.core.works| && !s.core.works[k].value.busy
    ensures var id := s.callers[i].id;
            var n := Exec(s, [Run(i, true), Run(i, true), Run(i, false)]);
            var k := Place(s.core.works, id);
            && id in n.core.forgotten && |n.core.works| == |s.core.works|
            && n.core.works[k] == Some(Work(id, true, false)) && n.callers == s.callers[i := Gone]
            && (Collectable(n, n.core.works[k]) <==> !Handled(n.callers, id))
  {
    var id := s.callers[i].id;
    var a := Next(s, Run(i, true));
    var b := Next(a, Run(i, true));
    ThreeSteps(s, Run(i, true), Run(i, true), Run(i, false));
    assert a == State(s.core.(forgotten := s.core.forgotten + {id}), s.callers[i := Marking(id)]);
    assert b.callers == s.callers[i := Holding(id)];
  }

  lemma ThreeSteps(s: State, x: Choice, y: Choice, z: Choice)
    ensures Exec(s, [x, y, z]) == Next(Next(Next(s, x), y), z)
  {
    hide Next;
    assert [x, y, z][1..] == [y, z] && [y, z][1..] == [z] && [z][1..] == [];
    assert Exec(Next(Next(s, x), y), [z]) == Next(Next(Next(s, x), y), z);
  }

  // ---- the table's own loops

  /** Capture under the catalog's lock; c is the state it runs in. Answers the
      entry handed out. */
  method Capture(works: array<Option<Work>>, id: nat, forgotten: bool, ghost c: Core) returns (entry: Option<nat>)
    requires c.works == works[..] && (forgotten <==> id in c.forgotten)
    modifies works
    ensures works[..] == Captured(c, id).0.works
    ensures entry.Some? <==> Captured(c, id).1 == Holding(id)
    ensures entry.Some? ==> entry.value < works.Length && works[entry.value].Some? && works[entry.value].value.id == id
  {
    for i := 0 to works.Length
      invariant works[..] == c.works
      invariant forall k :: 0 <= k < i ==> !(works[k].Some? && works[k].value.id == id)
    {
      if works[i].Some? && works[i].value.id == id {
        return Some(i);
      }
    }
    assert Place(c.works, id) == |c.works|;
    if forgotten {
      return None;
    }
    for i := 0 to works.Length
      invariant works[..] == c.works
      invariant forall k :: 0 <= k < i ==> works[k].Some?
    {
      if works[i].None? {
        assert Room(c.works) == i;
        works[i] := Some(Work(id, false, false));
        return Some(i);
      }
    }
    return None;
  }

  predicate Retires(w: Option<Work>, shared: bool) {
    w.Some? && !shared && w.value.forgotten && !w.value.busy
  }

  /** What one pass of Collect leaves in the table, and what it takes out. */
  function Remaining(works: seq<Option<Work>>, shared: seq<bool>): (r: seq<Option<Work>>)
    requires |shared| == |works|
    ensures |r| == |works|
    ensures forall i :: 0 <= i < |r| ==> r[i] == if Retires(works[i], shared[i]) then None else works[i]
  {
    seq(|works|, i requires 0 <= i < |works| => if Retires(works[i], shared[i]) then None else works[i])
  }

  /** One pass of Collect; shared says which entries someone else refers to. */
  method CollectAll(works: array<Option<Work>>, shared: seq<bool>) returns (retired: seq<Work>)
    requires |shared| == works.Length
    modifies works
    ensures works[..] == Remaining(old(works[..]), shared)
    ensures forall w :: w in retired <==>
              exists i :: 0 <= i < works.Length && old(works[i]) == Some(w) && Retires(Some(w), shared[i])
  {
    retired := [];
    for i := 0 to works.Length
      invariant forall k :: 0 <= k < i ==> works[k] == if Retires(old(works[k]), shared[k]) then None else old(works[k])
      invariant forall k :: i <= k < works.Length ==> works[k] == old(works[k])
      invariant forall w :: w in retired <==>
                  exists k :: 0 <= k < i && old(works[k]) == Some(w) && Retires(Some(w), shared[k])
    {
      if works[i].Some? && !shared[i] && works[i].value.forgotten && !works[i].value.busy {
        retired := retired + [works[i].value];
        works[i] := None;
      }
    }
  }
}
