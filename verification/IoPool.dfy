/**
 The descriptor pool: slots that are reserved, captured outside the pool's
 mutex, leased, forgotten and recycled. Callers are interleaved step by step;
 each holds what its C++ counterpart's shared handles hold, so a reference
 count is a count of callers. Every duplicated descriptor carries a stamp of its
 own, and so does every close.
 */
module IoPool {
  import opened Common

  datatype Phase = Empty | Reserved | Capturing | Ready | Failed

  /** Held: the slot itself still refers to the descriptors. Descriptors: those
      of this identity, as long as anyone refers to them. */
  datatype Slot = Slot(
    phase: Phase, id: nat, cancelled: bool, forgotten: bool, held: bool, descriptors: Option<seq<nat>>)

  const BLANK := Slot(Empty, 0, false, false, false, None)

  datatype Core = Core(slots: seq<Slot>, sequence: nat, limit: nat, closed: bool)

  /** A caller, by what it holds and does next. */
  datatype Caller =
    | Gone
    | Token(id: nat)                                          // a binding, no descriptors
    | Lease(id: nat)                                          // a binding and its descriptors
    | Dropping(id: nat)                                       // about to let go of the descriptors
    | Closing(id: nat, fds: seq<nat>, failing: bool)          // inside the closes themselves
    | Duplicating(id: nat, fds: seq<nat>, left: nat)          // a capture at work, outside the mutex
    | Broken(id: nat, fds: seq<nat>)                          // a capture that failed
    | Loaded(id: nat)                                         // a capture with its descriptors complete
    | Failing(id: nat)                                        // a failed capture, everything closed

  datatype World = World(core: Core, made: nat, shut: multiset<nat>)

  datatype State = State(world: World, callers: seq<Caller>)

  function Initial(capacity: nat, limit: nat): State {
    State(World(Core(seq(capacity, i => BLANK), 0, limit, false), 0, multiset{}), [])
  }

  // ---- the regions under the pool's mutex

  /** The slot of an identity, or the table's length. */
  function Find(slots: seq<Slot>, id: nat): (k: nat)
    ensures k <= |slots|
    ensures k < |slots| ==> !slots[k].phase.Empty? && slots[k].id == id
    ensures forall i :: 0 <= i < k ==> slots[i].phase.Empty? || slots[i].id != id
  {
    if slots == [] || (!slots[0].phase.Empty? && slots[0].id == id) then 0 else 1 + Find(slots[1..], id)
  }

  predicate Usable(s: Slot, pinned: set<nat>) {
    s.phase.Empty? || s.phase.Failed? || (s.phase.Ready? && s.forgotten && !s.held && s.id !in pinned)
  }

  function FirstUsable(slots: seq<Slot>, pinned: set<nat>): (k: nat)
    ensures k <= |slots|
    ensures k < |slots| ==> Usable(slots[k], pinned)
    ensures forall i :: 0 <= i < k ==> !Usable(slots[i], pinned)
  {
    if slots == [] || Usable(slots[0], pinned) then 0 else 1 + FirstUsable(slots[1..], pinned)
  }

  function Reserving(c: Core, pinned: set<nat>): Core {
    var k := FirstUsable(c.slots, pinned);
    if c.closed || c.sequence >= c.limit || k == |c.slots| then c
    else c.(slots := c.slots[k := BLANK.(phase := Reserved, id := c.sequence + 1)], sequence := c.sequence + 1)
  }

  predicate MayCapture(c: Core, id: nat) {
    var k := Find(c.slots, id);
    k < |c.slots| && c.slots[k].phase.Reserved? && !c.closed && !c.slots[k].cancelled
  }

  predicate Bound(c: Core, id: nat) {
    var k := Find(c.slots, id); k < |c.slots| && c.slots[k].phase.Ready?
  }

  predicate Live(c: Core, id: nat) {
    Bound(c, id) && !c.slots[Find(c.slots, id)].forgotten
  }

  function WithSlot(c: Core, id: nat, s: Slot): Core
    requires Find(c.slots, id) < |c.slots|
  {
    c.(slots := c.slots[Find(c.slots, id) := s])
  }

  function Cancelling(c: Core, id: nat): Core {
    var k := Find(c.slots, id);
    if k < |c.slots| && c.slots[k].phase.Reserved? then WithSlot(c, id, c.slots[k].(cancelled := true, phase := Failed))
    else if k < |c.slots| && c.slots[k].phase.Capturing? then WithSlot(c, id, c.slots[k].(cancelled := true))
    else c
  }

  function Forgetting(c: Core, id: nat): Core {
    if Bound(c, id) then WithSlot(c, id, c.slots[Find(c.slots, id)].(forgotten := true, held := false)) else c
  }

  function ClosedSlot(s: Slot): Slot {
    match s.phase
    case Reserved => s.(phase := Failed)
    case Capturing => s.(cancelled := true)
    case Ready => s.(forgotten := true, held := false)
    case _ => s
  }

  function ClosedSlots(slots: seq<Slot>): (r: seq<Slot>)
    ensures |r| == |slots| && forall i :: 0 <= i < |r| ==> r[i] == ClosedSlot(slots[i])
  {
    seq(|slots|, i requires 0 <= i < |slots| => ClosedSlot(slots[i]))
  }

  function ClosedCore(c: Core): Core { c.(closed := true, slots := ClosedSlots(c.slots)) }

  /** The references that a pass of Close takes out of the slots. */
  function Evicted(slots: seq<Slot>): seq<Caller> {
    if slots == [] then []
    else
      var rest := Evicted(slots[..|slots| - 1]);
      var s := slots[|slots| - 1];
      if s.phase.Ready? && s.held then rest + [Dropping(s.id)] else rest
  }

  // ---- references

  predicate PinsBinding(a: Caller) { a.Token? || a.Lease? || a.Dropping? || (a.Closing? && !a.failing) }

  predicate HoldsObject(a: Caller) { a.Lease? || a.Dropping? || a.Loaded? }

  predicate Captures(a: Caller) { a.Duplicating? || a.Broken? || a.Loaded? || a.Failing? || (a.Closing? && a.failing) }

  function Pinned(callers: seq<Caller>): set<nat> {
    set i | 0 <= i < |callers| && PinsBinding(callers[i]) :: callers[i].id
  }

  predicate Referenced(callers: seq<Caller>, id: nat) {
    exists i :: 0 <= i < |callers| && HoldsObject(callers[i]) && callers[i].id == id
  }

  datatype Answer = Good | NoDuplicate | BadDuplicate

  /** Puts an end to the descriptors of an identity: from here on only their closes remain. */
  function Destroy(w: World, id: nat, failing: bool): (World, Caller) {
    var k := Find(w.core.slots, id);
    if k < |w.core.slots| && w.core.slots[k].descriptors.Some?
    then (w.(core := WithSlot(w.core, id, w.core.slots[k].(descriptors := None))),
          Closing(id, w.core.slots[k].descriptors.value, failing))
    else (w, Gone)
  }

  /** Duplicates one more descriptor, or completes the set. */
  function ActDuplicate(w: World, id: nat, fds: seq<nat>, left: nat, answer: Answer): (World, Caller) {
    var k := Find(w.core.slots, id);
    if left == 0 then
      if k < |w.core.slots|
      then (w.(core := WithSlot(w.core, id, w.core.slots[k].(descriptors := Some(fds)))), Loaded(id))
      else (w, Closing(id, fds, false))
    else if answer.NoDuplicate? then (w, Broken(id, fds))
    else
      var more := fds + [w.made];
      (w.(made := w.made + 1), if answer.BadDuplicate? then Broken(id, more) else Duplicating(id, more, left - 1))
  }

  /** One step of a capture outside the mutex, or of its two regions under it. */
  function ActCapture(w: World, a: Caller, answer: Answer): (World, Caller)
    requires Captures(a)
  {
    var k := Find(w.core.slots, a.id);
    match a
    case Duplicating(id, fds, left) => ActDuplicate(w, id, fds, left, answer)
    case Broken(id, fds) => (w, Closing(id, fds, k < |w.core.slots| && w.core.slots[k].phase.Capturing?))
    case Loaded(id) =>
      if !(k < |w.core.slots| && w.core.slots[k].phase.Capturing?) then Destroy(w, id, false)
      else if w.core.slots[k].cancelled || w.core.closed then Destroy(w, id, true)
      else
        var ready := w.core.slots[k].(phase := Ready, forgotten := false, held := true);
        (w.(core := WithSlot(w.core, id, ready)), Token(id))
    case Failing(id) =>
      (if k < |w.core.slots| && w.core.slots[k].phase.Capturing?
       then w.(core := WithSlot(w.core, id, w.core.slots[k].(phase := Failed))) else w, Gone)
    case Closing(id, fds, failing) => ActClose(w, a)
  }

  function ActClose(w: World, a: Caller): (World, Caller)
    requires a.Closing?
  {
    if a.fds != [] then (w.(shut := w.shut + multiset{a.fds[0]}), Closing(a.id, a.fds[1..], a.failing))
    else (w, if a.failing then Failing(a.id) else Gone)
  }

  /** One step of a caller; shared: someone else still refers to its descriptors. */
  function Act(w: World, a: Caller, answer: Answer, shared: bool): (World, Caller) {
    if Captures(a) then ActCapture(w, a, answer)
    else match a
      case Dropping(id) => if shared then (w, Gone) else Destroy(w, id, false)
      case Closing(_, _, _) => ActClose(w, a)
      case Token(id) => (w, Gone)
      case _ => (w, a)
  }

  datatype Choice =
    | Reserve
    | Capture(id: nat, sources: nat)
    | Cancel(id: nat)
    | Close
    | Look(id: nat, reference: bool)
    | Share(caller: nat)
    | TakeLease(caller: nat)
    | Forget(caller: nat)
    | Release(caller: nat)
    | Run(caller: nat, answer: Answer)

  function WithCore(s: State, c: Core): State { s.(world := s.world.(core := c)) }

  predicate IsToken(s: State, i: nat) { i < |s.callers| && s.callers[i].Token? }

  predicate IsLease(s: State, i: nat) { i < |s.callers| && s.callers[i].Lease? }

  function Next(s: State, c: Choice): State {
    var core := s.world.core;
    match c
    case Reserve => WithCore(s, Reserving(core, Pinned(s.callers)))
    case Capture(id, sources) =>
      if MayCapture(core, id) then
        State(s.world.(core := WithSlot(core, id, core.slots[Find(core.slots, id)].(phase := Capturing))),
              s.callers + [Duplicating(id, [], sources)])
      else if Live(core, id) then s.(callers := s.callers + [Token(id)])
      else s
    case Cancel(id) => WithCore(s, Cancelling(core, id))
    case Close => State(s.world.(core := ClosedCore(core)), s.callers + Evicted(core.slots))
    case Look(id, reference) =>
      if Live(core, id) || (reference && Bound(core, id)) then s.(callers := s.callers + [Token(id)]) else s
    case Share(i) => if IsToken(s, i) || IsLease(s, i) then s.(callers := s.callers + [s.callers[i]]) else s
    case TakeLease(i) =>
      if IsToken(s, i) && Bound(core, s.callers[i].id) then
        var id := s.callers[i].id;
        s.(callers := s.callers + [if core.closed || !Live(core, id) then Token(id) else Lease(id)])
      else s
    case Forget(i) =>
      if IsToken(s, i) && Bound(core, s.callers[i].id) then
        var id := s.callers[i].id;
        State(s.world.(core := Forgetting(core, id)),
              s.callers + if core.slots[Find(core.slots, id)].held then [Dropping(id)] else [])
      else s
    case Release(i) =>
      if i < |s.callers| && s.callers[i].Lease? then
        s.(callers := s.callers[i := Token(s.callers[i].id)] + [Dropping(s.callers[i].id)])
      else s
    case Run(i, answer) =>
      if i < |s.callers| then
        var a := s.callers[i];
        var others := s.callers[i := Gone];
        var k := if a.Gone? then |core.slots| else Find(core.slots, a.id);
        var shared := !a.Gone? && (Referenced(others, a.id) || (k < |core.slots| && core.slots[k].held));
        var (w, b) := Act(s.world, a, answer, shared);
        State(w, s.callers[i := b])
      else s
  }

  function Exec(s: State, schedule: seq<Choice>): State
    decreases |schedule|
  {
    if schedule == [] then s else Exec(Next(s, schedule[0]), schedule[1..])
  }

  // ---- descriptors: each stamp has one owner, or one close

  function Fds(a: Caller): seq<nat> {
    if a.Duplicating? || a.Broken? || a.Closing? then a.fds else []
  }

  function SlotFds(s: Slot): seq<nat> {
    if s.descriptors.Some? then s.descriptors.value else []
  }

  function Sum(ns: seq<nat>): nat {
    if ns == [] then 0 else Sum(ns[..|ns| - 1]) + ns[|ns| - 1]
  }

  function SlotCounts(slots: seq<Slot>, f: nat): seq<nat> {
    seq(|slots|, i requires 0 <= i < |slots| => multiset(SlotFds(slots[i]))[f])
  }

  function CallerCounts(callers: seq<Caller>, f: nat): seq<nat> {
    seq(|callers|, i requires 0 <= i < |callers| => multiset(Fds(callers[i]))[f])
  }

  function InSlots(slots: seq<Slot>, f: nat): nat { Sum(SlotCounts(slots, f)) }

  function InCallers(callers: seq<Caller>, f: nat): nat { Sum(CallerCounts(callers, f)) }

  /** How often a stamp is owned or was closed. */
  function Accounted(s: State, f: nat): nat {
    InSlots(s.world.core.slots, f) + InCallers(s.callers, f) + s.world.shut[f]
  }

  ghost predicate Balanced(s: State) {
    forall f: nat :: Accounted(s, f) == if f < s.world.made then 1 else 0
  }

  lemma {:induction false} SumUpdate(ns: seq<nat>, k: nat, n: nat)
    requires k < |ns|
    ensures Sum(ns[k := n]) == Sum(ns) - ns[k] + n
  {
    var m := |ns| - 1;
    if k < m {
      SumUpdate(ns[..m], k, n);
      assert ns[k := n][..m] == ns[..m][k := n];
    } else {
      assert ns[k := n][..m] == ns[..m];
    }
  }

  lemma InSlotsUpdate(slots: seq<Slot>, k: nat, t: Slot, f: nat)
    requires k < |slots|
    ensures InSlots(slots[k := t], f) == InSlots(slots, f) - multiset(SlotFds(slots[k]))[f] + multiset(SlotFds(t))[f]
  {
    SumUpdate(SlotCounts(slots, f), k, multiset(SlotFds(t))[f]);
    assert SlotCounts(slots[k := t], f) == SlotCounts(slots, f)[k := multiset(SlotFds(t))[f]];
  }

  lemma InCallersUpdate(callers: seq<Caller>, k: nat, t: Caller, f: nat)
    requires k < |callers|
    ensures InCallers(callers[k := t], f) == InCallers(callers, f) - multiset(Fds(callers[k]))[f] + multiset(Fds(t))[f]
  {
    SumUpdate(CallerCounts(callers, f), k, multiset(Fds(t))[f]);
    assert CallerCounts(callers[k := t], f) == CallerCounts(callers, f)[k := multiset(Fds(t))[f]];
  }

  lemma {:induction false} SumAppend(ns: seq<nat>, zeros: seq<nat>)
    requires forall i :: 0 <= i < |zeros| ==> zeros[i] == 0
    ensures Sum(ns + zeros) == Sum(ns)
    decreases |zeros|
  {
    if zeros == [] {
      assert ns + zeros == ns;
    } else {
      var n := |zeros| - 1;
      assert (ns + zeros)[..|ns + zeros| - 1] == ns + zeros[..n];
      SumAppend(ns, zeros[..n]);
    }
  }

  lemma InCallersAppend(callers: seq<Caller>, more: seq<Caller>, f: nat)
    requires forall i :: 0 <= i < |more| ==> Fds(more[i]) == []
    ensures InCallers(callers + more, f) == InCallers(callers, f)
  {
    SumAppend(CallerCounts(callers, f), CallerCounts(more, f));
    assert CallerCounts(callers + more, f) == CallerCounts(callers, f) + CallerCounts(more, f);
  }

  // ---- the invariant

  predicate SlotSound(s: Slot) {
    && (s.phase.Ready? ==> s.held == !s.forgotten)
    && (!s.phase.Ready? ==> !s.held)
    && (s.held ==> s.descriptors.Some?)
    && (s.descriptors.Some? ==> s.phase.Ready? || s.phase.Capturing?)
  }

  ghost predicate SlotsSound(c: Core) {
    && (forall i :: 0 <= i < |c.slots| ==>
          SlotSound(c.slots[i]) && (!c.slots[i].phase.Empty? ==> c.slots[i].id <= c.sequence))
    && (forall i, j :: 0 <= i < j < |c.slots| && !c.slots[i].phase.Empty? && !c.slots[j].phase.Empty? ==>
          c.slots[i].id != c.slots[j].id)
  }

  /** What a caller holds is still there for it. */
  predicate CallerSound(c: Core, a: Caller) {
    if a.Gone? then true else
    var k := Find(c.slots, a.id);
    && k < |c.slots|
    && (PinsBinding(a) ==> c.slots[k].phase.Ready?)
    && (Captures(a) ==> c.slots[k].phase.Capturing? && c.slots[k].descriptors.Some? == a.Loaded?)
    && (HoldsObject(a) ==> c.slots[k].descriptors.Some?)
  }

  ghost predicate CallersSound(s: State) {
    && (forall i :: 0 <= i < |s.callers| ==> CallerSound(s.world.core, s.callers[i]))
    && (forall i, j :: 0 <= i < j < |s.callers| && Captures(s.callers[i]) && Captures(s.callers[j]) ==>
                        s.callers[i].id != s.callers[j].id)
  }

  /** Descriptors live exactly as long as someone refers to them. */
  ghost predicate NoneLeaked(s: State) {
    forall k :: && 0 <= k < |s.world.core.slots|
                && s.world.core.slots[k].descriptors.Some? && !s.world.core.slots[k].held ==>
                  Referenced(s.callers, s.world.core.slots[k].id)
  }

  ghost predicate Shaped(s: State) { SlotsSound(s.world.core) && CallersSound(s) && NoneLeaked(s) }

  ghost predicate Sound(s: State) { Shaped(s) && Balanced(s) }

  // ---- small steps

  /** Changing the slot of an identity in place moves no other identity. */
  lemma FindUpdate(slots: seq<Slot>, k: nat, t: Slot, id: nat)
    requires k < |slots| && !slots[k].phase.Empty? && !t.phase.Empty? && t.id == slots[k].id
    ensures Find(slots[k := t], id) == Find(slots, id)
  {
    var after := slots[k := t];
    assert forall i :: 0 <= i < |slots| ==>
      after[i].id == slots[i].id && after[i].phase.Empty? == slots[i].phase.Empty?;
  }

  lemma FindIs(c: Core, k: nat)
    requires SlotsSound(c) && k < |c.slots| && !c.slots[k].phase.Empty?
    ensures Find(c.slots, c.slots[k].id) == k
  {
  }

  predicate SameIdentity(c: Core, k: nat, t: Slot) {
    k < |c.slots| && !c.slots[k].phase.Empty? && !t.phase.Empty? && t.id == c.slots[k].id
  }

  function Put(c: Core, k: nat, t: Slot): Core
    requires k < |c.slots|
  {
    c.(slots := c.slots[k := t])
  }

  lemma SlotsKept(c: Core, k: nat, t: Slot)
    requires SlotsSound(c) && SameIdentity(c, k, t) && SlotSound(t)
    ensures SlotsSound(Put(c, k, t))
  {
  }

  /** The slot of another identity is where and what it was. */
  lemma OtherCaller(c: Core, k: nat, t: Slot, a: Caller)
    requires SameIdentity(c, k, t) && CallerSound(c, a) && (a.Gone? || a.id != t.id)
    ensures CallerSound(Put(c, k, t), a)
  {
    if !a.Gone? { FindUpdate(c.slots, k, t, a.id); }
  }

  /** The slot of this identity, under a changed phase or flag. */
  lemma SameCaller(c: Core, k: nat, t: Slot, a: Caller)
    requires SlotsSound(c) && SameIdentity(c, k, t) && CallerSound(c, a)
    requires a.Gone? || (t.phase == c.slots[k].phase && t.descriptors == c.slots[k].descriptors)
    ensures CallerSound(Put(c, k, t), a)
  {
    if !a.Gone? { FindUpdate(c.slots, k, t, a.id); FindIs(c, k); }
  }

  /** A slot changed in place: every caller of its identity is content with the change. */
  lemma SlotStep(s: State, k: nat, t: Slot)
    requires Sound(s) && SameIdentity(s.world.core, k, t) && SlotSound(t)
    requires t.descriptors == s.world.core.slots[k].descriptors
    requires s.world.core.slots[k].held ==> t.held || Referenced(s.callers, t.id)
    requires forall i :: 0 <= i < |s.callers| && !s.callers[i].Gone? && s.callers[i].id == t.id ==>
                           CallerSound(Put(s.world.core, k, t), s.callers[i])
    ensures Sound(WithCore(s, Put(s.world.core, k, t)))
  {
    var c := s.world.core;
    SlotsKept(c, k, t);
    forall i | 0 <= i < |s.callers|
      ensures CallerSound(Put(c, k, t), s.callers[i])
    {
      if s.callers[i].Gone? || s.callers[i].id != t.id { OtherCaller(c, k, t, s.callers[i]); }
    }
    forall f: nat
      ensures Accounted(WithCore(s, Put(c, k, t)), f) == Accounted(s, f)
    {
      InSlotsUpdate(c.slots, k, t, f);
    }
  }

  /** New callers, without descriptors of their own. */
  lemma AppendStep(s: State, more: seq<Caller>)
    requires Sound(s)
    requires forall i :: 0 <= i < |more| ==> CallerSound(s.world.core, more[i]) && Fds(more[i]) == []
    requires forall i :: 0 <= i < |more| && Captures(more[i]) ==>
               && |more| == 1
               && forall j :: 0 <= j < |s.callers| && Captures(s.callers[j]) ==> s.callers[j].id != more[i].id
    ensures Sound(s.(callers := s.callers + more))
  {
    var n := s.(callers := s.callers + more);
    forall id | Referenced(s.callers, id)
      ensures Referenced(n.callers, id)
    {
      var i :| 0 <= i < |s.callers| && HoldsObject(s.callers[i]) && s.callers[i].id == id;
      assert n.callers[i] == s.callers[i];
    }
    forall f: nat
      ensures Accounted(n, f) == Accounted(s, f)
    {
      InCallersAppend(s.callers, more, f);
    }
  }

  /** A caller moves on, together with the slot of its identity. */
  lemma ShapeStep(s: State, i: nat, b: Caller, k: nat, t: Slot, w: World)
    requires Shaped(s) && i < |s.callers| && !s.callers[i].Gone?
    requires SameIdentity(s.world.core, k, t) && t.id == s.callers[i].id && SlotSound(t)
    requires w.core == Put(s.world.core, k, t) && CallerSound(w.core, b)
    requires b.Gone? || (b.id == t.id && (Captures(b) ==> Captures(s.callers[i])))
    requires forall j :: 0 <= j < |s.callers| && j != i && !s.callers[j].Gone? && s.callers[j].id == t.id ==>
                           CallerSound(w.core, s.callers[j])
    requires t.descriptors.Some? && !t.held ==> Referenced(s.callers[i := b], t.id)
    ensures Shaped(State(w, s.callers[i := b]))
  {
    var c := s.world.core;
    var after := s.callers[i := b];
    SlotsKept(c, k, t);
    forall j | 0 <= j < |s.callers| && j != i
      ensures CallerSound(w.core, s.callers[j])
    {
      if s.callers[j].Gone? || s.callers[j].id != t.id { OtherCaller(c, k, t, s.callers[j]); }
    }
    forall id | Referenced(s.callers, id) && id != t.id
      ensures Referenced(after, id)
    {
      var j :| 0 <= j < |s.callers| && HoldsObject(s.callers[j]) && s.callers[j].id == id;
      assert after[j] == s.callers[j];
    }
  }

  function Bit(b: bool): nat { if b then 1 else 0 }

  lemma BalanceStep(s: State, i: nat, b: Caller, k: nat, t: Slot, w: World)
    requires Balanced(s) && i < |s.callers| && k < |s.world.core.slots| && w.core == Put(s.world.core, k, t)
    requires forall f: nat ::
               multiset(SlotFds(t))[f] + multiset(Fds(b))[f] + w.shut[f] + Bit(f < s.world.made)
               == multiset(SlotFds(s.world.core.slots[k]))[f] + multiset(Fds(s.callers[i]))[f] + s.world.shut[f]
                 + Bit(f < w.made)
    ensures Balanced(State(w, s.callers[i := b]))
  {
    var n := State(w, s.callers[i := b]);
    forall f: nat
      ensures Accounted(n, f) == Bit(f < w.made)
    {
      assert Accounted(s, f) == Bit(f < s.world.made);
      InSlotsUpdate(s.world.core.slots, k, t, f);
      InCallersUpdate(s.callers, i, b, f);
    }
  }

  // ---- every step keeps the invariant

  lemma CloserStep(s: State, i: nat, w: World, b: Caller)
    requires Sound(s) && i < |s.callers| && s.callers[i].Closing? && (w, b) == ActClose(s.world, s.callers[i])
    ensures Sound(State(w, s.callers[i := b]))
  {
    var a := s.callers[i];
    var k := Find(s.world.core.slots, a.id);
    var t := s.world.core.slots[k];
    assert Put(s.world.core, k, t) == s.world.core;
    if t.descriptors.Some? && !t.held { StillReferenced(s, i, b); }
    ShapeStep(s, i, b, k, t, w);
    if a.fds != [] { assert a.fds == [a.fds[0]] + a.fds[1..]; }
    BalanceStep(s, i, b, k, t, w);
  }

  /** A caller that held no descriptors does not take a reference with it. */
  lemma StillReferenced(s: State, i: nat, b: Caller)
    requires NoneLeaked(s) && i < |s.callers| && !s.callers[i].Gone?
    requires !HoldsObject(s.callers[i]) || Referenced(s.callers[i := Gone], s.callers[i].id)
    ensures forall id :: Referenced(s.callers, id) ==> Referenced(s.callers[i := b], id)
  {
    var after := s.callers[i := b];
    forall id | Referenced(s.callers, id)
      ensures Referenced(after, id)
    {
      var j :| 0 <= j < |s.callers| && HoldsObject(s.callers[j]) && s.callers[j].id == id;
      if j == i {
        var m :| 0 <= m < |s.callers| && HoldsObject(s.callers[i := Gone][m]) && s.callers[i := Gone][m].id == id;
        assert after[m] == s.callers[m];
      } else {
        assert after[j] == s.callers[j];
      }
    }
  }

  lemma DestroyStep(s: State, i: nat, failing: bool, w: World, b: Caller)
    requires Sound(s) && i < |s.callers|
    requires (s.callers[i].Dropping? && !failing) || (s.callers[i].Loaded? && failing)
    requires !Referenced(s.callers[i := Gone], s.callers[i].id)
    requires !s.world.core.slots[Find(s.world.core.slots, s.callers[i].id)].held
    requires (w, b) == Destroy(s.world, s.callers[i].id, failing)
    ensures Sound(State(w, s.callers[i := b]))
  {
    var a := s.callers[i];
    var c := s.world.core;
    var k := Find(c.slots, a.id);
    var t := c.slots[k].(descriptors := None);
    assert CallerSound(c, a);
    assert w.core == Put(c, k, t) && b == Closing(a.id, c.slots[k].descriptors.value, failing);
    FindUpdate(c.slots, k, t, a.id);
    forall j | 0 <= j < |s.callers| && j != i && !s.callers[j].Gone? && s.callers[j].id == t.id
      ensures CallerSound(w.core, s.callers[j])
    {
      assert CallerSound(c, s.callers[j]);
      assert s.callers[i := Gone][j] == s.callers[j];
    }
    ShapeStep(s, i, b, k, t, w);
    BalanceStep(s, i, b, k, t, w);
  }

  /** A caller in a capture is alone with its identity. */
  lemma CaptureIsAlone(s: State, i: nat, j: nat)
    requires CallersSound(s) && i < |s.callers| && j < |s.callers| && i != j && Captures(s.callers[i])
             && !s.callers[j].Gone?
    ensures s.callers[j].id != s.callers[i].id
  {
    assert CallerSound(s.world.core, s.callers[i]) && CallerSound(s.world.core, s.callers[j]);
  }

  lemma AloneIsUnreferenced(s: State, i: nat)
    requires CallersSound(s) && i < |s.callers| && Captures(s.callers[i])
    ensures !Referenced(s.callers[i := Gone], s.callers[i].id)
  {
    forall j | 0 <= j < |s.callers| && j != i && !s.callers[j].Gone?
      ensures s.callers[j].id != s.callers[i].id
    {
      CaptureIsAlone(s, i, j);
    }
  }

  /** A capture and its slot move on together; no other caller has the identity. */
  lemma CaptureStep(s: State, i: nat, w: World, b: Caller, k: nat, t: Slot)
    requires Sound(s) && i < |s.callers| && Captures(s.callers[i]) && k == Find(s.world.core.slots, s.callers[i].id)
    requires SameIdentity(s.world.core, k, t) && SlotSound(t) && w.core == Put(s.world.core, k, t)
    requires CallerSound(w.core, b) && (b.Gone? || b.id == s.callers[i].id)
    requires t.descriptors.Some? && !t.held ==> HoldsObject(b)
    requires forall f: nat ::
               multiset(SlotFds(t))[f] + multiset(Fds(b))[f] + w.shut[f] + Bit(f < s.world.made)
               == multiset(SlotFds(s.world.core.slots[k]))[f] + multiset(Fds(s.callers[i]))[f] + s.world.shut[f]
                 + Bit(f < w.made)
    ensures Sound(State(w, s.callers[i := b]))
  {
    forall j | 0 <= j < |s.callers| && j != i && !s.callers[j].Gone?
      ensures s.callers[j].id != t.id
    {
      CaptureIsAlone(s, i, j);
    }
    if HoldsObject(b) { assert s.callers[i := b][i] == b; }
    ShapeStep(s, i, b, k, t, w);
    BalanceStep(s, i, b, k, t, w);
  }

  /** The set is complete: it becomes the descriptors of the identity. */
  lemma CompleteStep(s: State, i: nat, w: World, b: Caller)
    requires Sound(s) && i < |s.callers| && s.callers[i].Duplicating? && s.callers[i].left == 0
    requires (w, b) == ActDuplicate(s.world, s.callers[i].id, s.callers[i].fds, 0, Good)
    ensures Sound(State(w, s.callers[i := b]))
  {
    hide Sound;
    var a := s.callers[i];
    var c := s.world.core;
    var k := Find(c.slots, a.id);
    CallerIsSound(s, i);
    var t := c.slots[k].(descriptors := Some(a.fds));
    FindUpdate(c.slots, k, t, a.id);
    CaptureStep(s, i, w, b, k, t);
  }

  lemma CallerIsSound(s: State, i: nat)
    requires Sound(s) && i < |s.callers|
    ensures CallerSound(s.world.core, s.callers[i])
    ensures !s.callers[i].Gone? ==> SlotSound(s.world.core.slots[Find(s.world.core.slots, s.callers[i].id)])
  {
  }

  /** One more descriptor is duplicated, or its duplication fails. */
  lemma CopyStep(s: State, i: nat, answer: Answer, w: World, b: Caller)
    requires Sound(s) && i < |s.callers| && s.callers[i].Duplicating? && s.callers[i].left > 0
    requires (w, b) == ActDuplicate(s.world, s.callers[i].id, s.callers[i].fds, s.callers[i].left, answer)
    ensures Sound(State(w, s.callers[i := b]))
  {
    hide Sound, Find;
    var c := s.world.core;
    var k := Find(c.slots, s.callers[i].id);
    CallerIsSound(s, i);
    assert Put(c, k, c.slots[k]) == c;
    CaptureStep(s, i, w, b, k, c.slots[k]);
  }

  lemma DuplicateStep(s: State, i: nat, answer: Answer)
    requires Sound(s) && i < |s.callers| && s.callers[i].Duplicating?
    ensures var (w, b) := ActCapture(s.world, s.callers[i], answer); Sound(State(w, s.callers[i := b]))
  {
    hide Sound, ActDuplicate;
    var a := s.callers[i];
    var (w, b) := ActCapture(s.world, a, answer);
    if a.left == 0 {
      LastAnswerIgnored(s.world, a, answer);
      CompleteStep(s, i, w, b);
    } else {
      CopyStep(s, i, answer, w, b);
    }
  }

  lemma LastAnswerIgnored(w: World, a: Caller, answer: Answer)
    requires a.Duplicating? && a.left == 0
    ensures ActDuplicate(w, a.id, a.fds, a.left, answer) == ActDuplicate(w, a.id, a.fds, 0, Good)
  {
  }

  lemma LoadedStep(s: State, i: nat, answer: Answer)
    requires Sound(s) && i < |s.callers| && s.callers[i].Loaded?
    ensures var (w, b) := ActCapture(s.world, s.callers[i], answer); Sound(State(w, s.callers[i := b]))
  {
    var a := s.callers[i];
    var c := s.world.core;
    var k := Find(c.slots, a.id);
    var (w, b) := ActCapture(s.world, a, answer);
    assert CallerSound(c, a);
    if c.slots[k].cancelled || c.closed {
      AloneIsUnreferenced(s, i);
      DestroyStep(s, i, true, w, b);
    } else {
      var t := c.slots[k].(phase := Ready, forgotten := false, held := true);
      FindUpdate(c.slots, k, t, a.id);
      CaptureStep(s, i, w, b, k, t);
    }
  }

  lemma EndStep(s: State, i: nat, answer: Answer)
    requires Sound(s) && i < |s.callers| && (s.callers[i].Broken? || s.callers[i].Failing?)
    ensures var (w, b) := ActCapture(s.world, s.callers[i], answer); Sound(State(w, s.callers[i := b]))
  {
    var a := s.callers[i];
    var c := s.world.core;
    var k := Find(c.slots, a.id);
    var (w, b) := ActCapture(s.world, a, answer);
    assert CallerSound(c, a);
    if a.Broken? {
      assert Put(c, k, c.slots[k]) == c;
      CaptureStep(s, i, w, b, k, c.slots[k]);
    } else {
      CaptureStep(s, i, w, b, k, c.slots[k].(phase := Failed));
    }
  }

  lemma RunStep(s: State, i: nat, answer: Answer)
    requires Sound(s)
    ensures Sound(Next(s, Run(i, answer)))
  {
    if i < |s.callers| {
      var a := s.callers[i];
      var c := s.world.core;
      assert CallerSound(c, a);
      match a {
        case Duplicating(_, _, _) => DuplicateStep(s, i, answer);
        case Loaded(_) => LoadedStep(s, i, answer);
        case Broken(_, _) => EndStep(s, i, answer);
        case Failing(_) => EndStep(s, i, answer);
        case Closing(_, _, _) =>
          var (w, b) := ActClose(s.world, a);
          CloserStep(s, i, w, b);
        case Token(_) => LeaveStep(s, i);
        case Dropping(id) =>
          if Referenced(s.callers[i := Gone], id) || c.slots[Find(c.slots, id)].held {
            LeaveStep(s, i);
          } else {
            var (w, b) := Destroy(s.world, id, false);
            DestroyStep(s, i, false, w, b);
          }
        case Lease(_) => assert s.callers[i := a] == s.callers;
        case Gone => assert s.callers[i := a] == s.callers;
      }
    }
  }

  /** A caller lets go of a reference that is not the last one. */
  lemma LeaveStep(s: State, i: nat)
    requires Sound(s) && i < |s.callers| && (s.callers[i].Token? || s.callers[i].Dropping?)
    requires var c := s.world.core; var a := s.callers[i];
             a.Dropping? ==> Referenced(s.callers[i := Gone], a.id) || c.slots[Find(c.slots, a.id)].held
    ensures Sound(s.(callers := s.callers[i := Gone]))
  {
    var c := s.world.core;
    var a := s.callers[i];
    assert CallerSound(c, a);
    var k := Find(c.slots, a.id);
    assert Put(c, k, c.slots[k]) == c;
    if !c.slots[k].held { StillReferenced(s, i, Gone); }
    ShapeStep(s, i, Gone, k, c.slots[k], s.world);
    BalanceStep(s, i, Gone, k, c.slots[k], s.world);
  }

  lemma ReserveStep(s: State)
    requires Sound(s)
    ensures Sound(Next(s, Reserve))
  {
    var c := s.world.core;
    var pinned := Pinned(s.callers);
    var k := FirstUsable(c.slots, pinned);
    if !c.closed && c.sequence < c.limit && k < |c.slots| {
      var t := BLANK.(phase := Reserved, id := c.sequence + 1);
      var n := Next(s, Reserve);
      UsableIsUnreferenced(s, k);
      ReuseSlots(c, k, t);
      assert n.world.core.slots == c.slots[k := t];
      forall i | 0 <= i < |s.callers|
        ensures CallerSound(n.world.core, s.callers[i])
      {
        assert CallerSound(c, s.callers[i]);
        if !s.callers[i].Gone? { ReuseLeavesOthers(c, k, t, s.callers[i].id); }
      }
      forall f: nat
        ensures Accounted(n, f) == Accounted(s, f)
      {
        InSlotsUpdate(c.slots, k, t, f);
      }
    }
  }

  lemma ReuseSlots(c: Core, k: nat, t: Slot)
    requires SlotsSound(c) && k < |c.slots| && t == BLANK.(phase := Reserved, id := c.sequence + 1)
    ensures SlotsSound(c.(slots := c.slots[k := t], sequence := c.sequence + 1))
  {
  }

  /** Nobody refers to a slot that Reserve may take, and it keeps no descriptors. */
  lemma UsableIsUnreferenced(s: State, k: nat)
    requires Shaped(s) && k < |s.world.core.slots| && Usable(s.world.core.slots[k], Pinned(s.callers))
    ensures s.world.core.slots[k].descriptors.None?
    ensures forall i :: 0 <= i < |s.callers| && !s.callers[i].Gone? ==> Find(s.world.core.slots, s.callers[i].id) != k
  {
    var c := s.world.core;
    forall i | 0 <= i < |s.callers| && !s.callers[i].Gone?
      ensures Find(c.slots, s.callers[i].id) != k
    {
      assert CallerSound(c, s.callers[i]);
      if PinsBinding(s.callers[i]) { assert s.callers[i].id in Pinned(s.callers); }
    }
    if c.slots[k].descriptors.Some? {
      assert c.slots[k].phase.Ready?;
      assert Referenced(s.callers, c.slots[k].id);
      var i :| 0 <= i < |s.callers| && HoldsObject(s.callers[i]) && s.callers[i].id == c.slots[k].id;
      FindIs(c, k);
    }
  }

  lemma ReuseLeavesOthers(c: Core, k: nat, t: Slot, id: nat)
    requires SlotsSound(c) && k < |c.slots| && Find(c.slots, id) < |c.slots| && Find(c.slots, id) != k
             && t.id == c.sequence + 1
    ensures Find(c.slots[k := t], id) == Find(c.slots, id)
  {
    var m := Find(c.slots, id);
    var after := c.slots[k := t];
    assert after[m] == c.slots[m];
    assert forall i :: 0 <= i < m ==> after[i].phase.Empty? || after[i].id != id;
  }

  lemma CancelStep(s: State, id: nat)
    requires Sound(s)
    ensures Sound(Next(s, Cancel(id)))
  {
    var c := s.world.core;
    var k := Find(c.slots, id);
    if k < |c.slots| && (c.slots[k].phase.Reserved? || c.slots[k].phase.Capturing?) {
      var t := c.slots[k].(cancelled := true, phase := if c.slots[k].phase.Reserved? then Failed else Capturing);
      forall i | 0 <= i < |s.callers| && !s.callers[i].Gone? && s.callers[i].id == t.id
        ensures CallerSound(Put(c, k, t), s.callers[i])
      {
        assert CallerSound(c, s.callers[i]);
        SameCaller(c, k, t, s.callers[i]);
      }
      SlotStep(s, k, t);
    }
  }

  lemma BeginStep(s: State, id: nat, sources: nat)
    requires Sound(s) && MayCapture(s.world.core, id)
    ensures Sound(Next(s, Capture(id, sources)))
  {
    var c := s.world.core;
    var k := Find(c.slots, id);
    var t := c.slots[k].(phase := Capturing);
    forall i | 0 <= i < |s.callers| && !s.callers[i].Gone?
      ensures s.callers[i].id != id
    {
      assert CallerSound(c, s.callers[i]);
    }
    SlotStep(s, k, t);
    FindUpdate(c.slots, k, t, id);
    AppendStep(WithCore(s, Put(c, k, t)), [Duplicating(id, [], sources)]);
  }

  lemma ForgetStep(s: State, i: nat)
    requires Sound(s)
    ensures Sound(Next(s, Forget(i)))
  {
    var c := s.world.core;
    if IsToken(s, i) && Bound(c, s.callers[i].id) {
      var id := s.callers[i].id;
      var k := Find(c.slots, id);
      var t := c.slots[k].(forgotten := true, held := false);
      var more := if c.slots[k].held then [Dropping(id)] else [];
      AppendStep(s, more);
      var n := s.(callers := s.callers + more);
      if c.slots[k].held { assert n.callers[|s.callers|] == Dropping(id); }
      forall j | 0 <= j < |n.callers| && !n.callers[j].Gone? && n.callers[j].id == t.id
        ensures CallerSound(Put(c, k, t), n.callers[j])
      {
        SameCaller(c, k, t, n.callers[j]);
      }
      SlotStep(n, k, t);
    }
  }

  lemma {:induction false} EvictedFrom(slots: seq<Slot>, i: nat) returns (k: nat)
    requires i < |Evicted(slots)|
    ensures k < |slots| && slots[k].phase.Ready? && slots[k].held && Evicted(slots)[i] == Dropping(slots[k].id)
  {
    var n := |slots| - 1;
    if i < |Evicted(slots[..n])| { k := EvictedFrom(slots[..n], i); } else { k := n; }
  }

  lemma {:induction false} IsEvicted(slots: seq<Slot>, k: nat) returns (i: nat)
    requires k < |slots| && slots[k].phase.Ready? && slots[k].held
    ensures i < |Evicted(slots)| && Evicted(slots)[i] == Dropping(slots[k].id)
  {
    var n := |slots| - 1;
    if k < n { i := IsEvicted(slots[..n], k); } else { i := |Evicted(slots[..n])|; }
  }

  lemma ClosedFind(slots: seq<Slot>, id: nat)
    ensures Find(ClosedSlots(slots), id) == Find(slots, id)
  {
    var after := ClosedSlots(slots);
    assert forall i :: 0 <= i < |slots| ==>
      after[i].id == slots[i].id && after[i].phase.Empty? == slots[i].phase.Empty?;
  }

  lemma ClosedCaller(c: Core, a: Caller)
    requires CallerSound(c, a)
    ensures CallerSound(ClosedCore(c), a)
  {
    if !a.Gone? { ClosedFind(c.slots, a.id); }
  }

  lemma ClosedSlotsSound(c: Core)
    requires SlotsSound(c)
    ensures SlotsSound(ClosedCore(c))
  {
    forall i | 0 <= i < |c.slots|
      ensures SlotSound(ClosedSlot(c.slots[i])) && ClosedSlot(c.slots[i]).id == c.slots[i].id
    {
    }
  }

  /** The callers that take what Close evicts from the slots. */
  lemma EvictStep(s: State)
    requires Sound(s)
    ensures Sound(s.(callers := s.callers + Evicted(s.world.core.slots)))
    ensures forall k :: 0 <= k < |s.world.core.slots| && s.world.core.slots[k].held ==>
              Referenced(s.callers + Evicted(s.world.core.slots), s.world.core.slots[k].id)
  {
    var c := s.world.core;
    var more := Evicted(c.slots);
    forall i | 0 <= i < |more|
      ensures CallerSound(c, more[i]) && more[i].Dropping?
    {
      var k := EvictedFrom(c.slots, i);
      FindIs(c, k);
    }
    AppendStep(s, more);
    forall k | 0 <= k < |c.slots| && c.slots[k].held
      ensures Referenced(s.callers + more, c.slots[k].id)
    {
      assert SlotSound(c.slots[k]) && c.slots[k].phase.Ready?;
      var i := IsEvicted(c.slots, k);
      assert (s.callers + more)[|s.callers| + i] == more[i];
    }
  }

  lemma CloseStep(s: State)
    requires Sound(s)
    ensures Sound(Next(s, Close))
  {
    EvictStep(s);
    CloseEvicted(s.(callers := s.callers + Evicted(s.world.core.slots)));
  }

  lemma CloseEvicted(m: State)
    requires Sound(m)
    requires forall k :: 0 <= k < |m.world.core.slots| && m.world.core.slots[k].held ==>
             Referenced(m.callers, m.world.core.slots[k].id)
    ensures Sound(WithCore(m, ClosedCore(m.world.core)))
  {
    var n := WithCore(m, ClosedCore(m.world.core));
    ClosedSlotsSound(m.world.core);
    ClosedCallers(m, n);
    ClosedLeaksNone(m, n);
    ClosedAccounts(m, n);
  }

  lemma ClosedAccounts(m: State, n: State)
    requires n == WithCore(m, ClosedCore(m.world.core))
    ensures forall f: nat :: Accounted(n, f) == Accounted(m, f)
  {
    forall f: nat
      ensures Accounted(n, f) == Accounted(m, f)
    {
      assert SlotCounts(n.world.core.slots, f) == SlotCounts(m.world.core.slots, f);
    }
  }

  lemma ClosedCallers(m: State, n: State)
    requires CallersSound(m) && n.callers == m.callers && n.world.core == ClosedCore(m.world.core)
    ensures CallersSound(n)
  {
    forall i | 0 <= i < |m.callers|
      ensures CallerSound(n.world.core, m.callers[i])
    {
      ClosedCaller(m.world.core, m.callers[i]);
    }
  }

  lemma ClosedLeaksNone(m: State, n: State)
    requires NoneLeaked(m) && n.callers == m.callers && n.world.core.slots == ClosedSlots(m.world.core.slots)
    requires forall k :: 0 <= k < |m.world.core.slots| && m.world.core.slots[k].held ==>
             Referenced(m.callers, m.world.core.slots[k].id)
    ensures NoneLeaked(n)
  {
    forall k | 0 <= k < |n.world.core.slots| && n.world.core.slots[k].descriptors.Some? && !n.world.core.slots[k].held
      ensures Referenced(n.callers, n.world.core.slots[k].id)
    {
      var b := m.world.core.slots[k];
      assert n.world.core.slots[k].id == b.id && n.world.core.slots[k].descriptors == b.descriptors;
      assert b.descriptors.Some? && !b.held ==> Referenced(m.callers, b.id);
    }
  }

  lemma ReleaseStep(s: State, i: nat)
    requires Sound(s)
    ensures Sound(Next(s, Release(i)))
  {
    if i < |s.callers| && s.callers[i].Lease? {
      var c := s.world.core;
      var id := s.callers[i].id;
      assert CallerSound(c, s.callers[i]);
      AppendStep(s, [Dropping(id)]);
      var m := s.(callers := s.callers + [Dropping(id)]);
      var k := Find(c.slots, id);
      assert m.callers[i := Gone][|s.callers|] == Dropping(id);
      StillReferenced(m, i, Token(id));
      assert m.callers[i] == s.callers[i];
      assert Put(c, k, c.slots[k]) == c;
      assert m.callers[i := Token(id)] == s.callers[i := Token(id)] + [Dropping(id)];
      assert m.callers[i := Token(id)][|s.callers|] == Dropping(id);
      ShapeStep(m, i, Token(id), k, c.slots[k], s.world);
      BalanceStep(m, i, Token(id), k, c.slots[k], s.world);
    }
  }

  lemma {:induction false} NextSound(s: State, c: Choice)
    requires Sound(s)
    ensures Sound(Next(s, c))
  {
    var core := s.world.core;
    match c
    case Reserve => ReserveStep(s);
    case Capture(id, sources) =>
      if MayCapture(core, id) { BeginStep(s, id, sources); } else if Live(core, id) { AppendStep(s, [Token(id)]); }
    case Cancel(id) => CancelStep(s, id);
    case Close => CloseStep(s);
    case Look(id, _) => if Bound(core, id) { AppendStep(s, [Token(id)]); }
    case Share(i) =>
      if IsToken(s, i) || IsLease(s, i) {
        assert CallerSound(core, s.callers[i]);
        AppendStep(s, [s.callers[i]]);
      }
    case TakeLease(i) =>
      if IsToken(s, i) && Bound(core, s.callers[i].id) {
        var id := s.callers[i].id;
        AppendStep(s, [if core.closed || !Live(core, id) then Token(id) else Lease(id)]);
      }
    case Forget(i) => ForgetStep(s, i);
    case Release(i) => ReleaseStep(s, i);
    case Run(i, answer) => RunStep(s, i, answer);
  }

  lemma {:induction false} ExecSound(s: State, schedule: seq<Choice>)
    requires Sound(s)
    ensures Sound(Exec(s, schedule))
    decreases |schedule|
  {
    if schedule != [] {
      NextSound(s, schedule[0]);
      ExecSound(Next(s, schedule[0]), schedule[1..]);
    }
  }

  lemma {:induction false} ZeroSum(ns: seq<nat>)
    requires forall i :: 0 <= i < |ns| ==> ns[i] == 0
    ensures Sum(ns) == 0
  {
    if ns != [] { ZeroSum(ns[..|ns| - 1]); }
  }

  lemma {:induction false} InitialSound(capacity: nat, limit: nat)
    ensures Sound(Initial(capacity, limit))
  {
    var s := Initial(capacity, limit);
    forall f: nat
      ensures Accounted(s, f) == 0
    {
      ZeroSum(SlotCounts(s.world.core.slots, f));
    }
  }

  // ---- what every run keeps

  /** A slot is never recycled under a live token, lease or close, and a lease
      keeps its descriptors. */
  lemma HoldersPinTheirSlot(capacity: nat, limit: nat, schedule: seq<Choice>, i: nat)
    requires i < |Exec(Initial(capacity, limit), schedule).callers|
    ensures var s := Exec(Initial(capacity, limit), schedule);
            var a := s.callers[i];
            && (PinsBinding(a) ==> Bound(s.world.core, a.id))
            && (HoldsObject(a) ==> Find(s.world.core.slots, a.id) < |s.world.core.slots|
                                   && s.world.core.slots[Find(s.world.core.slots, a.id)].descriptors.Some?)
  {
    InitialSound(capacity, limit);
    ExecSound(Initial(capacity, limit), schedule);
    var s := Exec(Initial(capacity, limit), schedule);
    assert CallerSound(s.world.core, s.callers[i]);
  }

  /** A capture finds its slot still Capturing, whatever Cancel, Close and
      Reserve did meanwhile, and no other capture works on its identity. */
  lemma CapturingSlotSurvives(capacity: nat, limit: nat, schedule: seq<Choice>, i: nat)
    requires i < |Exec(Initial(capacity, limit), schedule).callers|
    requires Captures(Exec(Initial(capacity, limit), schedule).callers[i])
    ensures var s := Exec(Initial(capacity, limit), schedule);
            var k := Find(s.world.core.slots, s.callers[i].id);
            && k < |s.world.core.slots| && s.world.core.slots[k].phase.Capturing?
            && forall j :: 0 <= j < |s.callers| && j != i && !s.callers[j].Gone? ==> s.callers[j].id != s.callers[i].id
  {
    InitialSound(capacity, limit);
    ExecSound(Initial(capacity, limit), schedule);
    var s := Exec(Initial(capacity, limit), schedule);
    assert CallerSound(s.world.core, s.callers[i]);
    forall j | 0 <= j < |s.callers| && j != i && !s.callers[j].Gone?
      ensures s.callers[j].id != s.callers[i].id
    {
      CaptureIsAlone(s, i, j);
    }
  }

  /** No descriptor is closed twice or while it is owned, none is owned twice,
      and once every caller is gone and no slot holds any, all are closed. */
  lemma EachDescriptorClosedOnce(capacity: nat, limit: nat, schedule: seq<Choice>, f: nat)
    ensures var s := Exec(Initial(capacity, limit), schedule);
            && InSlots(s.world.core.slots, f) + InCallers(s.callers, f) + s.world.shut[f] == Bit(f < s.world.made)
            && ((forall i :: 0 <= i < |s.callers| ==> s.callers[i].Gone?)
                && (forall k :: 0 <= k < |s.world.core.slots| ==> !s.world.core.slots[k].held)
                ==> s.world.shut[f] == Bit(f < s.world.made))
  {
    InitialSound(capacity, limit);
    ExecSound(Initial(capacity, limit), schedule);
    var s := Exec(Initial(capacity, limit), schedule);
    assert Accounted(s, f) == Bit(f < s.world.made);
    if (forall i :: 0 <= i < |s.callers| ==> s.callers[i].Gone?)
       && forall k :: 0 <= k < |s.world.core.slots| ==> !s.world.core.slots[k].held {
      assert forall k :: 0 <= k < |s.world.core.slots| ==> s.world.core.slots[k].descriptors.None?;
      ZeroSum(CallerCounts(s.callers, f));
      ZeroSum(SlotCounts(s.world.core.slots, f));
    }
  }

  /** An identity whose binding was forgotten, or that has left the table. */
  predicate Spent(c: Core, id: nat) {
    var k := Find(c.slots, id);
    id <= c.sequence && (k < |c.slots| ==> c.slots[k].phase.Ready? && c.slots[k].forgotten)
  }

  ghost predicate NoLease(s: State, id: nat) {
    forall i :: 0 <= i < |s.callers| ==> s.callers[i] != Lease(id)
  }

  /** The pool grants this identity's descriptors in this step. */
  predicate Grants(s: State, c: Choice, id: nat) {
    c.TakeLease? && |s.callers| < |Next(s, c).callers| && Next(s, c).callers[|s.callers|] == Lease(id)
  }

  /** How often the pool grants this identity's descriptors in a run. Copies of a
      lease that someone holds are no grants. */
  function Granted(s: State, schedule: seq<Choice>, id: nat): nat
    decreases |schedule|
  {
    if schedule == [] then 0
    else (if Grants(s, schedule[0], id) then 1 else 0) + Granted(Next(s, schedule[0]), schedule[1..], id)
  }

  lemma SpentPut(c: Core, k: nat, t: Slot, id: nat)
    requires SlotsSound(c) && SameIdentity(c, k, t) && Spent(c, id)
    requires t.id == id ==> t.phase.Ready? && t.forgotten
    ensures Spent(Put(c, k, t), id)
  {
    FindUpdate(c.slots, k, t, id);
  }

  lemma SpentReserve(c: Core, pinned: set<nat>, id: nat)
    requires SlotsSound(c) && Spent(c, id)
    ensures Spent(Reserving(c, pinned), id)
  {
    var k := FirstUsable(c.slots, pinned);
    if !c.closed && c.sequence < c.limit && k < |c.slots| {
      var t := BLANK.(phase := Reserved, id := c.sequence + 1);
      var m := Find(c.slots, id);
      var after := c.slots[k := t];
      if m < |c.slots| && m != k {
        ReuseLeavesOthers(c, k, t, id);
      } else {
        assert forall i :: 0 <= i < |after| ==> after[i].phase.Empty? || after[i].id != id;
      }
    }
  }

  lemma SpentRun(s: State, i: nat, answer: Answer, shared: bool, id: nat)
    requires Sound(s) && i < |s.callers| && Spent(s.world.core, id)
    ensures var (w, b) := Act(s.world, s.callers[i], answer, shared);
            Spent(w.core, id) && (b == Lease(id) ==> s.callers[i] == Lease(id))
  {
    hide NoneLeaked, Balanced, Accounted, Referenced;
    var c := s.world.core;
    var a := s.callers[i];
    var (w, b) := Act(s.world, a, answer, shared);
    assert CallerSound(c, a);
    if w.core != c {
      var k := Find(c.slots, a.id);
      assert w.core == Put(c, k, w.core.slots[k]);
      SpentPut(c, k, w.core.slots[k], id);
    }
  }

  lemma SpentClose(c: Core, id: nat)
    requires Spent(c, id)
    ensures Spent(ClosedCore(c), id)
  {
    ClosedFind(c.slots, id);
  }

  lemma SpentCaptureOrCancel(c: Core, other: nat, id: nat)
    requires SlotsSound(c) && Spent(c, id)
    ensures Spent(Cancelling(c, other), id)
    ensures MayCapture(c, other) ==> Spent(WithSlot(c, other, c.slots[Find(c.slots, other)].(phase := Capturing)), id)
  {
    var k := Find(c.slots, other);
    if MayCapture(c, other) { SpentPut(c, k, c.slots[k].(phase := Capturing), id); }
    if Cancelling(c, other) != c { SpentPut(c, k, Cancelling(c, other).slots[k], id); }
  }

  lemma SpentForget(c: Core, other: nat, id: nat)
    requires SlotsSound(c) && Spent(c, id)
    ensures Spent(Forgetting(c, other), id)
  {
    if Bound(c, other) {
      var k := Find(c.slots, other);
      SpentPut(c, k, c.slots[k].(forgotten := true, held := false), id);
    }
  }

  lemma SpentStep(s: State, c: Choice, id: nat)
    requires Sound(s) && Spent(s.world.core, id)
    ensures Spent(Next(s, c).world.core, id)
  {
    var core := s.world.core;
    match c
    case Reserve => SpentReserve(core, Pinned(s.callers), id);
    case Capture(other, _) => SpentCaptureOrCancel(core, other, id);
    case Cancel(other) => SpentCaptureOrCancel(core, other, id);
    case Close => SpentClose(core, id);
    case Forget(i) => if IsToken(s, i) { SpentForget(core, s.callers[i].id, id); }
    case Run(i, answer) =>
      if i < |s.callers| {
        SpentRun(s, i, answer, true, id);
        SpentRun(s, i, answer, false, id);
      }
    case _ =>
  }

  lemma EvictedTakeNoLease(s: State, id: nat)
    requires NoLease(s, id)
    ensures NoLease(Next(s, Close), id)
  {
    forall i | 0 <= i < |Evicted(s.world.core.slots)|
      ensures Evicted(s.world.core.slots)[i] != Lease(id)
    {
      var k := EvictedFrom(s.world.core.slots, i);
    }
  }

  lemma LeaseStep(s: State, c: Choice, id: nat)
    requires Sound(s) && Spent(s.world.core, id) && NoLease(s, id)
    ensures NoLease(Next(s, c), id)
  {
    hide Sound;
    match c
    case Close => EvictedTakeNoLease(s, id);
    case Run(i, answer) =>
      if i < |s.callers| {
        SpentRun(s, i, answer, true, id);
        SpentRun(s, i, answer, false, id);
      }
    case _ =>
  }

  lemma SpentGrantsNothing(s: State, c: Choice, id: nat)
    requires Spent(s.world.core, id)
    ensures !Grants(s, c, id)
  {
  }

  /** Once a binding is forgotten the pool never grants its descriptors again, and
      its identity never comes back. If nobody holds a lease of it by then, nobody
      ever will. */
  lemma {:induction false} ForgottenIsNeverLeased(s: State, later: seq<Choice>, id: nat)
    requires Sound(s) && Spent(s.world.core, id)
    ensures Spent(Exec(s, later).world.core, id) && Granted(s, later, id) == 0
    ensures NoLease(s, id) ==> NoLease(Exec(s, later), id)
    decreases |later|
  {
    hide Sound, Spent, NoLease, Next, Grants;
    if later != [] {
      NextSound(s, later[0]);
      SpentStep(s, later[0], id);
      SpentGrantsNothing(s, later[0], id);
      if NoLease(s, id) { LeaseStep(s, later[0], id); }
      ForgottenIsNeverLeased(Next(s, later[0]), later[1..], id);
    }
  }

  /** Forget makes the identity of a bound token spent. */
  lemma ForgetSpends(s: State, i: nat)
    requires Sound(s) && IsToken(s, i)
    ensures Spent(Next(s, Forget(i)).world.core, s.callers[i].id)
  {
    var c := s.world.core;
    var id := s.callers[i].id;
    assert CallerSound(c, s.callers[i]);
    var k := Find(c.slots, id);
    FindUpdate(c.slots, k, c.slots[k].(forgotten := true, held := false), id);
  }

  // ---- a capture that nobody disturbs

  lemma {:induction false} CopiesAlone(w: World, id: nat, fds: seq<nat>, left: nat)
    ensures ActsAlone(w, Duplicating(id, fds, left), left) ==
            (w.(made := w.made + left), Duplicating(id, fds + Stamps(w.made, left), 0))
    decreases left
  {
    if left == 0 {
      assert fds + Stamps(w.made, 0) == fds;
    } else {
      CopiesAlone(w.(made := w.made + 1), id, fds + [w.made], left - 1);
      assert fds + [w.made] + Stamps(w.made + 1, left - 1) == fds + Stamps(w.made, left);
    }
  }

  function Stamps(from: nat, count: nat): seq<nat> { seq(count, i => from + i) }

  /** So many steps of one caller, every duplication good. */
  function ActsAlone(w: World, a: Caller, n: nat): (World, Caller)
    decreases n
  {
    if n == 0 then (w, a) else var (v, b) := Act(w, a, Good, false); ActsAlone(v, b, n - 1)
  }

  lemma TwoMore(w: World, a: Caller, n: nat)
    ensures var (v, b) := ActsAlone(w, a, n);
            var (u, c) := Act(v, b, Good, false);
            ActsAlone(w, a, n + 2) == Act(u, c, Good, false)
    decreases n
  {
    if n == 0 {
      var (v, b) := Act(w, a, Good, false);
      assert ActsAlone(v, b, 1) == ActsAlone(Act(v, b, Good, false).0, Act(v, b, Good, false).1, 0);
    } else {
      var (v, b) := Act(w, a, Good, false);
      TwoMore(v, b, n - 1);
    }
  }

  /** Undisturbed in an open pool, a capture ends with its binding registered, its
      slot holding exactly the descriptors it duplicated. */
  lemma UndisturbedCapture(w: World, id: nat, sources: nat)
    requires SlotsSound(w.core) && !w.core.closed
    requires var k := Find(w.core.slots, id);
             k < |w.core.slots| && w.core.slots[k].phase.Capturing? && !w.core.slots[k].cancelled
    ensures var k := Find(w.core.slots, id);
            var (v, b) := ActsAlone(w, Duplicating(id, [], sources), sources + 2);
            && b == Token(id)
            && v == w.(made := w.made + sources,
                       core := Put(w.core, k, w.core.slots[k].(phase := Ready, forgotten := false, held := true,
                                                               descriptors := Some(Stamps(w.made, sources)))))
  {
    hide ActsAlone;
    var k := Find(w.core.slots, id);
    CopiesAlone(w, id, [], sources);
    TwoMore(w, Duplicating(id, [], sources), sources);
    var fds := Stamps(w.made, sources);
    assert [] + fds == fds;
    var t := w.core.slots[k].(descriptors := Some(fds));
    FindUpdate(w.core.slots, k, t, id);
    var slots := w.core.slots[k := t];
    assert slots[k := t.(phase := Ready, forgotten := false, held := true)]
           == w.core.slots[k := t.(phase := Ready, forgotten := false, held := true)];
  }

  /** A token of a live binding in an open pool obtains its descriptors. */
  lemma LiveIsLeased(s: State, i: nat)
    requires Sound(s) && IsToken(s, i) && !s.world.core.closed && Live(s.world.core, s.callers[i].id)
    ensures var n := Next(s, TakeLease(i));
            var k := Find(s.world.core.slots, s.callers[i].id);
            n == s.(callers := s.callers + [Lease(s.callers[i].id)]) && s.world.core.slots[k].descriptors.Some?
  {
    CallerIsSound(s, i);
  }

  // ---- the pool object: each region under its mutex

  class Pool {
    const slots: array<Slot>
    var sequence: nat
    const limit: nat
    var closed: bool

    constructor (capacity: nat, limit: nat)
      ensures Value() == Initial(capacity, limit).world.core && fresh(slots)
    {
      this.limit := limit;
      sequence, closed := 0, false;
      slots := new Slot[capacity](_ => BLANK);
      new;
      assert slots[..] == seq(capacity, i => BLANK);
    }

    ghost function Value(): Core
      reads this, slots
    {
      Core(slots[..], sequence, limit, closed)
    }

    method FindSlot(id: nat) returns (k: nat)
      ensures k == Find(slots[..], id)
    {
      k := 0;
      while k < slots.Length && (slots[k].phase.Empty? || slots[k].id != id)
        invariant k <= slots.Length
        invariant forall i :: 0 <= i < k ==> slots[i].phase.Empty? || slots[i].id != id
      {
        k := k + 1;
      }
    }

    /** Answers the identity reserved. */
    method Reserve(pinned: set<nat>) returns (id: Option<nat>)
      modifies this, slots
      ensures Value() == old(Reserving(Value(), pinned))
      ensures id == if Value() == old(Value()) then None else Some(sequence)
    {
      if closed || sequence >= limit { return None; }
      var k := 0;
      while k < slots.Length && !Usable(slots[k], pinned)
        invariant k <= slots.Length
        invariant forall i :: 0 <= i < k ==> !Usable(slots[i], pinned)
      {
        k := k + 1;
      }
      assert k == FirstUsable(slots[..], pinned);
      if k == slots.Length { return None; }
      sequence := sequence + 1;
      slots[k] := BLANK.(phase := Reserved, id := sequence);
      return Some(sequence);
    }

    /** The first region of a capture; true: go on and duplicate. */
    method BeginCapture(id: nat) returns (go: bool)
      modifies slots
      ensures go == old(MayCapture(Value(), id))
      ensures go ==> Value() == old(WithSlot(Value(), id, slots[Find(slots[..], id)].(phase := Capturing)))
      ensures !go ==> Value() == old(Value())
    {
      var k := FindSlot(id);
      if k == slots.Length || !slots[k].phase.Reserved? || closed || slots[k].cancelled { return false; }
      slots[k] := slots[k].(phase := Capturing);
      return true;
    }

    method Cancel(id: nat) returns (done: bool)
      modifies slots
      ensures Value() == old(Cancelling(Value(), id))
      ensures done <==>
                old(var k := Find(slots[..], id);
                    k < slots.Length && (slots[k].phase.Reserved? || slots[k].phase.Capturing?))
    {
      var k := FindSlot(id);
      if k == slots.Length || !(slots[k].phase.Reserved? || slots[k].phase.Capturing?) { return false; }
      slots[k] := slots[k].(cancelled := true);
      if slots[k].phase.Reserved? { slots[k] := slots[k].(phase := Failed); }
      return true;
    }

    /** Answers whether the slot gave up its reference to the descriptors. */
    method Forget(id: nat) returns (dropped: bool)
      modifies slots
      ensures Value() == old(Forgetting(Value(), id))
      ensures dropped <==> old(Bound(Value(), id) && slots[Find(slots[..], id)].held)
    {
      var k := FindSlot(id);
      if k == slots.Length || !slots[k].phase.Ready? { return false; }
      dropped := slots[k].held;
      slots[k] := slots[k].(forgotten := true, held := false);
    }

    /** Answers the references taken out of the slots, in the slots' order. */
    method Close() returns (retired: seq<Caller>)
      modifies this, slots
      ensures Value() == old(ClosedCore(Value()))
      ensures retired == old(Evicted(slots[..]))
    {
      closed := true;
      retired := [];
      ghost var before := slots[..];
      for i := 0 to slots.Length
        invariant closed && sequence == old(sequence)
        invariant forall k :: 0 <= k < i ==> slots[k] == ClosedSlot(before[k])
        invariant forall k :: i <= k < slots.Length ==> slots[k] == before[k]
        invariant retired == Evicted(before[..i])
      {
        assert before[..i + 1][..i] == before[..i];
        if slots[i].phase.Ready? && slots[i].held { retired := retired + [Dropping(slots[i].id)]; }
        if slots[i].phase.Reserved? {
          slots[i] := slots[i].(phase := Failed);
        } else if slots[i].phase.Capturing? {
          slots[i] := slots[i].(cancelled := true);
        } else if slots[i].phase.Ready? {
          slots[i] := slots[i].(forgotten := true, held := false);
        }
      }
      assert before[..slots.Length] == before;
      assert slots[..] == ClosedSlots(before);
    }
  }
}
