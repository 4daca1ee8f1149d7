/**
 The platform adapter: the lifecycle gate, the admission authority and the
 shared work gates together. The adapter's mutex covers each action, except that
 any thread may stop a gate or claim entry through it at any moment. So an
 action that moves a gate carries the schedule of that gate while it lasts, and a
 revocation stops its gates one by one while the mutex is held.
 */
module Platform {
  import opened Common
  import L = Lifecycle
  import A = Authority
  import G = WorkGate

  /** One publication: the gate, its window, and how much had happened by then. */
  datatype Release = Release(gate: nat, at: nat, limit: nat, known: nat)

  datatype World = World(
    trace: L.Trace, auth: A.Auth, registration: nat,
    instance: int, generation: int, failed: bool,
    waiting: Option<nat>,         // the challenge whose reply the observer awaits
    gates: seq<G.State>,
    stopping: set<nat>,           // the gates that a revocation under way has still to stop
    releases: seq<Release>)       // the publications that succeeded

  datatype Action =
    | Start(now: nat)
    | Reserve(work: Identity)
    | Poll(now: nat)
    | Ask(now: nat)
    | Reply(ok: bool, instance: int, generation: int, available: bool, now: nat)
    | Admit(gate: nat, now: nat, during: seq<G.Choice>)
    | Prepare(gate: nat, now: nat, during: seq<G.Choice>)
    | ReleaseWork(gate: nat, now: nat, during: seq<G.Choice>)
    | Retire(gate: nat)
    | StopOne(gate: nat)          // the revocation under way stops its next gate
    | Move(gate: nat, choice: G.Choice)

  function RefOf(w: World, i: nat): A.Ref
    requires i < |w.gates|
  {
    A.Ref(i, w.gates[i].shared.work)
  }

  /** A stop by the holder of the adapter's mutex. */
  function StoppedGate(s: G.State): G.State {
    G.Exec(s, [G.Spawn(G.StopStart), G.Run(|s.threads|)])
  }

  function RegisteredGates(w: World, a: A.Auth): set<nat> {
    set i: nat | i < |w.gates| && A.Registered(a, RefOf(w, i))
  }

  /** The authority moved to a; if it thereby failed, its gates are to be stopped. */
  function WithAuth(w: World, a: A.Auth): (v: World)
    ensures v.gates == w.gates && v.auth == a
  {
    if a.failed then w.(auth := a, stopping := RegisteredGates(w, a)) else w.(auth := a)
  }

  function Fail(w: World): (v: World)
    ensures v.gates == w.gates && v.auth.failed
  {
    WithAuth(w.(failed := true, trace := L.Step(w.trace, L.Revoke), waiting := None), A.Revoke(w.auth))
  }

  /** The clock check that starts every call: a lost lifecycle fails the adapter. */
  function Checked(w: World, now: nat): (v: World)
    ensures v.gates == w.gates && (w.auth.failed ==> v.auth.failed)
  {
    var v := w.(trace := L.Step(w.trace, L.Check(now)));
    if L.Valid(w.trace.gate, now) then v else Fail(v)
  }

  predicate Open(w: World, now: nat) {
    !Checked(w, now).failed && L.IsReady(w.trace.gate, now)
  }

  /** A choice other threads have: stop the gate, claim entry, or go on. */
  predicate External(c: G.Choice) {
    c.Spawn? ==> c.t.StopStart? || c.t.ClaimStart?
  }

  predicate AllExternal(during: seq<G.Choice>) {
    forall k :: 0 <= k < |during| ==> External(during[k])
  }

  /** The gate after one authority thread ran to its end among other threads. */
  function Carried(s: G.State, t: G.Thread, during: seq<G.Choice>): G.State {
    G.Exec(s, [G.Spawn(t)] + during)
  }

  function BoundEpoch(s: G.State): Option<Epoch> {
    if s.shared.flags.bound then Some(s.shared.epoch) else None
  }

  function DoAdmit(w: World, i: nat, now: nat, during: seq<G.Choice>): World
    requires i < |w.gates|
  {
    var v := Checked(w, now);
    if !Open(w, now) then v
    else
      var (a, d) := A.Admitting(v.auth, Some(RefOf(v, i)), now);
      if !d.Bind? || d.slot >= |a.slots| then WithAuth(v, a)
      else
        var s := Carried(v.gates[i], G.BindStart(d.epoch), during);
        var me := |v.gates[i].threads|;
        if me >= |s.threads| || !s.threads[me].BindDone? then w   // not a whole call
        else
          v.(gates := v.gates[i := s],
             auth := if s.threads[me].ok then a.(slots := a.slots[d.slot := Some(RefOf(v, i))]) else a)
  }

  function DoPrepare(w: World, i: nat, now: nat, during: seq<G.Choice>): World
    requires i < |w.gates|
  {
    var v := Checked(w, now);
    if !Open(w, now) then v
    else
      var (a, d) := A.Preparing(v.auth, Some(RefOf(v, i)), BoundEpoch(v.gates[i]), now);
      if !d.Prepare? then WithAuth(v, a)
      else
        var s := Carried(v.gates[i], G.PrepareStart, during);
        var me := |v.gates[i].threads|;
        if me >= |s.threads| || !s.threads[me].PrepareDone? then w
        else v.(gates := v.gates[i := s], auth := a)
  }

  function DoRelease(w: World, i: nat, now: nat, during: seq<G.Choice>): World
    requires i < |w.gates|
  {
    var v := Checked(w, now);
    if !Open(w, now) then v
    else
      var until := L.ReadyUntil(w.trace.gate, now);
      var (a, d) := A.Releasing(v.auth, Some(RefOf(v, i)), BoundEpoch(v.gates[i]), now, until);
      match d
      case StopGate => v.(auth := a, gates := v.gates[i := StoppedGate(v.gates[i])])
      case Publish(at, limit) =>
        var s := Carried(v.gates[i], G.PublishStart(at, limit), during);
        var me := |v.gates[i].threads|;
        if me >= |s.threads| || !s.threads[me].PublishDone? then w
        else v.(gates := v.gates[i := s], auth := a,
                releases := v.releases + if s.threads[me].ok then [Release(i, at, limit, |v.trace.history|)] else [])
      case _ => WithAuth(v, a)
  }

  function DoReply(w: World, r: Action): World
    requires r.Reply?
  {
    if w.failed || w.waiting.None? then w
    else if !r.ok || r.instance <= 0 || r.generation <= 0 || !r.available ||
            (w.instance != 0 && (w.instance != r.instance || w.generation != r.generation))
    then Fail(w)
    else
      var call := L.Report(w.registration, w.waiting.value, r.now, true, true);
      var v := w.(trace := L.Step(w.trace, call), waiting := None);
      if !L.Reported(w.trace.gate, w.registration, w.waiting.value, r.now, true, true).1 then Fail(v)
      else
        var u := v.(instance := r.instance, generation := r.generation);
        var (a, outcome) := A.Observed(u.auth, Epoch(r.instance as nat, r.generation as nat, 0),
                                       L.ReadyUntil(u.trace.gate, r.now), r.now);
        if outcome != A.Accepted then Fail(WithAuth(u, a)) else WithAuth(u, a)
  }

  /** A call that has the mutex. */
  function Call(w: World, x: Action): World {
    match x
    case Start(now) =>
      if w.registration != 0 then w
      else w.(trace := L.Step(w.trace, L.Begin(now)), registration := L.Begun(w.trace.gate, now).1)
    case Poll(now) => Checked(w, now)
    case Ask(now) =>
      if w.failed || w.waiting.Some? then w
      else
        var challenge := L.Queried(w.trace.gate, w.registration, now).1;
        var v := w.(trace := L.Step(w.trace, L.BeginQuery(w.registration, now)));
        if challenge == 0 then Fail(v) else v.(waiting := Some(challenge))
    case Reply(_, _, _, _, _) => DoReply(w, x)
    case Admit(i, now, during) => if i < |w.gates| && AllExternal(during) then DoAdmit(w, i, now, during) else w
    case Prepare(i, now, during) => if i < |w.gates| && AllExternal(during) then DoPrepare(w, i, now, during) else w
    case ReleaseWork(i, now, during) => if i < |w.gates| && AllExternal(during) then DoRelease(w, i, now, during) else w
    case Retire(i) =>
      if i < |w.gates| && w.gates[i].shared.flags.stopped
      then w.(auth := w.auth.(slots := seq(|w.auth.slots|, k requires 0 <= k < |w.auth.slots| =>
        if w.auth.slots[k] == Some(RefOf(w, i)) then None else w.auth.slots[k])))
      else w
    case _ => w
  }

  /** A call waits until no revocation is under way; gates are moved at any moment. */
  function Next(w: World, x: Action): World {
    match x
    case Reserve(work) => w.(gates := w.gates + [G.Reserved(work)])
    case Move(i, c) =>
      if i < |w.gates| && External(c) then w.(gates := w.gates[i := G.Next(w.gates[i], c)]) else w
    case StopOne(i) =>
      if i in w.stopping && i < |w.gates|
      then w.(gates := w.gates[i := StoppedGate(w.gates[i])], stopping := w.stopping - {i})
      else w
    case _ => if w.stopping == {} then Call(w, x) else w
  }

  function Exec(w: World, actions: seq<Action>): World
    decreases |actions|
  {
    if actions == [] then w else Exec(Next(w, actions[0]), actions[1..])
  }

  function Initial(capacity: nat, seed: nat, querySeed: nat): World {
    World(L.Fresh(seed, querySeed), A.Auth(capacity, seq(A.MAXIMUM, _ => None), None, 0, 0, false),
          0, 0, 0, false, None, [], {}, [])
  }

  // What a gate's own threads are at the end of every action.

  predicate OfAuthority(t: G.Thread) {
    !(t.StopStart? || t.StopDone? || t.ClaimStart? || t.ClaimLoad? || t.ClaimEpoch? || t.ClaimTime?
      || t.ClaimLimit? || t.ClaimExpire? || t.ClaimEnter? || t.ClaimDone?)
  }

  predicate Settled(t: G.Thread) {
    OfAuthority(t) ==> t.BindDone? || t.PrepareDone? || t.PublishDone?
  }

  /** Every thread but at most one has either left the authority's hands or never was in them. */
  ghost predicate Quiet(s: G.State, me: int) {
    forall j :: 0 <= j < |s.threads| && j != me ==> Settled(s.threads[j])
  }

  /** The threads of the authority, other than one, are the ones there were. */
  ghost predicate SameAuthority(s: G.State, s': G.State, me: int) {
    && |s.threads| <= |s'.threads|
    && forall j :: 0 <= j < |s'.threads| && j != me && OfAuthority(s'.threads[j]) ==>
                     j < |s.threads| && s'.threads[j] == s.threads[j]
  }

  predicate SameCall(t: G.Thread, t': G.Thread) {
    && ((t.PublishStart? || t.PublishTime? || t.PublishLimit? || t.PublishSeal? || t.PublishDone?) ==>
          (t'.PublishTime? || t'.PublishLimit? || t'.PublishSeal? || t'.PublishDone? || t'.PublishStart?)
          && t'.now == t.now && t'.limit == t.limit)
    && ((t.BindStart? || t.BindWrite? || t.BindSeal? || t.BindDone?) ==>
          (t'.BindStart? || t'.BindWrite? || t'.BindSeal? || t'.BindDone?) && t'.bound == t.bound)
  }

  lemma QuietStep(s: G.State, c: G.Choice, me: int)
    requires Quiet(s, me) && External(c)
    ensures Quiet(G.Next(s, c), me) && SameAuthority(s, G.Next(s, c), me)
    ensures 0 <= me < |s.threads| ==> SameCall(s.threads[me], G.Next(s, c).threads[me])
  {
    if c.Run? && c.i < |s.threads| && c.i != me {
      assert Settled(s.threads[c.i]);
      AdvanceSettled(s.shared, s.threads[c.i]);
    }
  }

  lemma AdvanceSettled(g: G.Shared, t: G.Thread)
    requires Settled(t)
    ensures var t' := G.Advance(g, t).1; Settled(t') && (OfAuthority(t') ==> t' == t)
  {
  }

  lemma {:induction false} QuietExec(s: G.State, during: seq<G.Choice>, me: int)
    requires Quiet(s, me) && AllExternal(during)
    ensures Quiet(G.Exec(s, during), me) && SameAuthority(s, G.Exec(s, during), me)
    ensures 0 <= me < |s.threads| ==> SameCall(s.threads[me], G.Exec(s, during).threads[me])
    decreases |during|
  {
    if during != [] {
      QuietStep(s, during[0], me);
      QuietExec(G.Next(s, during[0]), during[1..], me);
    }
  }

  /** A whole call by the authority on a settled gate. */
  lemma CarriedQuiet(s: G.State, t: G.Thread, during: seq<G.Choice>)
    requires G.Safe(s) && Quiet(s, -1) && AllExternal(during) && G.Starting(t)
    ensures var s' := Carried(s, t, during);
            var me := |s.threads|;
            && G.Safe(s') && G.Grows(s.shared, s'.shared)
            && me < |s'.threads| && SameCall(t, s'.threads[me])
            && SameAuthority(s, s', me)
            && (Settled(s'.threads[me]) ==> Quiet(s', -1))
  {
    var me := |s.threads|;
    var n := G.Next(s, G.Spawn(t));
    assert ([G.Spawn(t)] + during)[1..] == during;
    assert Carried(s, t, during) == G.Exec(n, during);
    G.NextSafe(s, G.Spawn(t));
    G.ExecSafe(n, during);
    QuietExec(n, during, me);
  }

  lemma StoppedGateQuiet(s: G.State)
    requires G.Safe(s) && Quiet(s, -1)
    ensures var s' := StoppedGate(s);
            G.Safe(s') && Quiet(s', -1) && SameAuthority(s, s', -1) && G.Grows(s.shared, s'.shared)
            && s'.shared == s.shared.(flags := s.shared.flags.(stopped := true))
  {
    var moves := [G.Spawn(G.StopStart), G.Run(|s.threads|)];
    G.ExecSafe(s, moves);
    QuietExec(s, moves, -1);
    var n := G.Next(s, moves[0]);
    assert moves[1..] == [G.Run(|s.threads|)];
    assert G.Exec(s, moves) == G.Exec(n, moves[1..]);
    assert moves[1..][1..] == [];
    assert G.Exec(n, moves[1..]) == G.Next(n, G.Run(|s.threads|));
  }

  // The invariant of the whole adapter.

  /** A publication kept within the evidence known when it was made. */
  ghost predicate Bounded(h: seq<L.Event>, r: Release) {
    && r.known <= |h|
    && r.at < r.limit
    && L.LatestAnswered(h[..r.known]).Some?
    && r.limit <= L.LatestAnswered(h[..r.known]).value + L.LEASE
    && (L.Outstanding(h[..r.known]).Some? ==> r.limit <= L.Outstanding(h[..r.known]).value + L.QUERY)
  }

  ghost predicate Evidenced(w: World, i: nat, t: G.Thread) {
    t.PublishDone? && t.ok ==> exists k :: 0 <= k < |w.releases| && w.releases[k].gate == i
                                           && w.releases[k].at == t.now && w.releases[k].limit == t.limit
  }

  ghost predicate GateSound(w: World, i: nat)
    requires i < |w.gates|
  {
    var s := w.gates[i];
    && G.Safe(s) && Quiet(s, -1)
    && (forall j :: 0 <= j < |s.threads| ==> Evidenced(w, i, s.threads[j]))
    && (s.shared.flags.bound && !s.shared.flags.stopped ==>
          A.Registered(w.auth, RefOf(w, i)) && (w.auth.failed ==> i in w.stopping))
  }

  ghost predicate Sound(w: World) {
    && L.Consistent(w.trace)
    && (forall k :: 0 <= k < |w.releases| ==> Bounded(w.trace.history, w.releases[k]))
    && (forall i :: 0 <= i < |w.gates| ==> GateSound(w, i))
    && (w.failed ==> w.auth.failed)
    && (w.stopping != {} ==> w.auth.failed)
  }

  lemma BoundedSurvives(h: seq<L.Event>, more: seq<L.Event>, r: Release)
    requires Bounded(h, r)
    ensures Bounded(h + more, r)
  {
    assert (h + more)[..r.known] == h[..r.known];
  }

  lemma TraceSound(w: World, c: L.Call)
    requires Sound(w)
    ensures Sound(w.(trace := L.Step(w.trace, c)))
  {
    L.StepConsistent(w.trace, c);
    var more := L.Outcome(w.trace.gate, c);
    forall k | 0 <= k < |w.releases|
      ensures Bounded(w.trace.history + more, w.releases[k])
    {
      BoundedSurvives(w.trace.history, more, w.releases[k]);
    }
    var v := w.(trace := L.Step(w.trace, c));
    forall i | 0 <= i < |v.gates|
      ensures GateSound(v, i)
    {
      assert GateSound(w, i);
      assert forall t :: Evidenced(w, i, t) ==> Evidenced(v, i, t);
    }
  }

  /** One gate replaced, everything else the same or larger. */
  lemma GateReplaced(w: World, v: World, i: nat, me: int)
    requires i < |w.gates| && Sound(w)
    requires |v.gates| == |w.gates| && v.gates == w.gates[i := v.gates[i]] && v.trace == w.trace && v.failed == w.failed
    requires |w.releases| <= |v.releases| && v.releases[..|w.releases|] == w.releases
    requires forall k :: |w.releases| <= k < |v.releases| ==> Bounded(v.trace.history, v.releases[k])
    requires forall r :: A.Registered(w.auth, r) ==> A.Registered(v.auth, r)
    requires v.auth.failed == w.auth.failed && w.stopping - {i} <= v.stopping <= w.stopping
    requires G.Safe(v.gates[i]) && Quiet(v.gates[i], -1) && SameAuthority(w.gates[i], v.gates[i], me)
    requires v.gates[i].shared.work == w.gates[i].shared.work
    requires 0 <= me < |v.gates[i].threads| ==> Evidenced(v, i, v.gates[i].threads[me])
    requires v.gates[i].shared.flags.bound && !v.gates[i].shared.flags.stopped ==>
               A.Registered(v.auth, RefOf(v, i)) && (v.auth.failed ==> i in v.stopping)
    ensures Sound(v)
  {
    forall j | 0 <= j < |v.gates|
      ensures GateSound(v, j)
    {
      assert GateSound(w, j);
      forall t | Evidenced(w, j, t)
        ensures Evidenced(v, j, t)
      {
        if t.PublishDone? && t.ok {
          var k :| 0 <= k < |w.releases| && w.releases[k].gate == j
                   && w.releases[k].at == t.now && w.releases[k].limit == t.limit;
          assert v.releases[k] == v.releases[..|w.releases|][k];
        }
      }
      if j == i {
        forall m | 0 <= m < |v.gates[i].threads|
          ensures Evidenced(v, i, v.gates[i].threads[m])
        {
          if m != me && OfAuthority(v.gates[i].threads[m]) {
            assert Evidenced(w, i, w.gates[i].threads[m]);
          }
        }
      }
    }
    forall k | 0 <= k < |v.releases|
      ensures Bounded(v.trace.history, v.releases[k])
    {
      if k < |w.releases| { assert v.releases[k] == v.releases[..|w.releases|][k]; }
    }
  }

  lemma WithAuthSound(w: World, a: A.Auth)
    requires Sound(w.(failed := false)) && a.slots == w.auth.slots
    requires (w.failed || w.auth.failed) ==> a.failed
    ensures Sound(WithAuth(w, a))
  {
    var u := w.(failed := false);
    var v := WithAuth(w, a);
    forall i | 0 <= i < |w.gates|
      ensures GateSound(v, i)
    {
      assert GateSound(u, i);
      assert forall t :: Evidenced(u, i, t) ==> Evidenced(v, i, t);
    }
  }

  lemma FailSound(w: World)
    requires Sound(w.(failed := false))
    ensures Sound(Fail(w))
  {
    var v := w.(failed := true, trace := L.Step(w.trace, L.Revoke), waiting := None);
    TraceSound(w.(failed := false), L.Revoke);
    SoundIgnoresObserver(w.(failed := false, trace := L.Step(w.trace, L.Revoke)), v.(failed := false));
    WithAuthSound(v, A.Revoke(w.auth));
  }

  /** Soundness does not depend on what the observer thread remembers. */
  lemma SoundIgnoresObserver(w: World, v: World)
    requires Sound(w)
    requires v.trace == w.trace && v.auth == w.auth && v.failed == w.failed && v.gates == w.gates
             && v.releases == w.releases && v.stopping == w.stopping
    ensures Sound(v)
  {
    forall i | 0 <= i < |v.gates|
      ensures GateSound(v, i)
    {
      assert GateSound(w, i);
      assert forall t :: Evidenced(w, i, t) ==> Evidenced(v, i, t);
    }
  }

  lemma CheckedSound(w: World, now: nat)
    requires Sound(w)
    ensures Sound(Checked(w, now))
    ensures L.Valid(w.trace.gate, now) ==> Checked(w, now) == w.(trace := L.Step(w.trace, L.Check(now)))
  {
    var v := w.(trace := L.Step(w.trace, L.Check(now)));
    TraceSound(w, L.Check(now));
    if !L.Valid(w.trace.gate, now) {
      SoundWithoutFailure(v);
      FailSound(v);
    }
  }

  lemma SoundWithoutFailure(w: World)
    requires Sound(w)
    ensures Sound(w.(failed := false))
  {
    var v := w.(failed := false);
    forall i | 0 <= i < |v.gates|
      ensures GateSound(v, i)
    {
      assert GateSound(w, i);
      assert forall t :: Evidenced(w, i, t) ==> Evidenced(v, i, t);
    }
  }

  lemma AuthMovesKeepSlots(a: A.Auth, now: nat)
    ensures A.Freshened(a, now).slots == a.slots
    ensures a.failed ==> A.Freshened(a, now).failed
  {
  }

  lemma DoAdmitSound(w: World, i: nat, now: nat, during: seq<G.Choice>)
    requires Sound(w) && i < |w.gates| && AllExternal(during)
    ensures Sound(DoAdmit(w, i, now, during))
  {
    CheckedSound(w, now);
    var v := Checked(w, now);
    if Open(w, now) {
      var (a, d) := A.Admitting(v.auth, Some(RefOf(v, i)), now);
      AuthMovesKeepSlots(v.auth, now);
      if d.Bind? && d.slot < |a.slots| {
        A.FreeSlotIsFirst(A.Freshened(v.auth, now), 0);
        BindSound(v, i, d.slot, d.epoch, during, a);
      } else {
        SoundWithoutFailure(v);
        WithAuthSound(v, a);
      }
    }
  }

  lemma BindSound(v: World, i: nat, slot: nat, epoch: Epoch, during: seq<G.Choice>, a: A.Auth)
    requires Sound(v) && i < |v.gates| && AllExternal(during)
    requires a.slots == v.auth.slots && !a.failed && !v.auth.failed
    requires slot < |a.slots| && a.slots[slot].None?
    ensures var s := Carried(v.gates[i], G.BindStart(epoch), during);
            var me := |v.gates[i].threads|;
            me < |s.threads|
            && (s.threads[me].BindDone? ==>
                  Sound(v.(gates := v.gates[i := s],
                           auth := if s.threads[me].ok then a.(slots := a.slots[slot := Some(RefOf(v, i))]) else a)))
  {
    var s := Carried(v.gates[i], G.BindStart(epoch), during);
    var me := |v.gates[i].threads|;
    assert GateSound(v, i);
    CarriedQuiet(v.gates[i], G.BindStart(epoch), during);
    if s.threads[me].BindDone? {
      var u := v.(gates := v.gates[i := s],
                  auth := if s.threads[me].ok then a.(slots := a.slots[slot := Some(RefOf(v, i))]) else a);
      forall r | A.Registered(v.auth, r)
        ensures A.Registered(u.auth, r)
      {
        var k :| 0 <= k < |v.auth.slots| && v.auth.slots[k] == Some(r);
        assert u.auth.slots[k] == Some(r);
      }
      BoundOnlyByMe(v.gates[i], s, me);
      if s.threads[me].ok { assert u.auth.slots[slot] == Some(RefOf(v, i)); }
      GateReplaced(v, u, i, me);
    }
  }

  /** A gate that became bound during a call was bound by that call. */
  lemma BoundOnlyByMe(s: G.State, s': G.State, me: nat)
    requires G.Safe(s) && G.Safe(s') && Quiet(s', -1) && SameAuthority(s, s', me) && me < |s'.threads|
    ensures s'.shared.flags.bound ==> s.shared.flags.bound || (s'.threads[me].BindDone? && s'.threads[me].ok)
  {
    if s'.shared.flags.bound {
      var b :| 0 <= b < |s'.threads| && G.Binder(s'.threads[b]);
      if b != me {
        assert G.Knows(s.shared, s.threads[b]);
      }
    }
  }

  lemma DoPrepareSound(w: World, i: nat, now: nat, during: seq<G.Choice>)
    requires Sound(w) && i < |w.gates| && AllExternal(during)
    ensures Sound(DoPrepare(w, i, now, during))
  {
    CheckedSound(w, now);
    var v := Checked(w, now);
    if Open(w, now) {
      var (a, d) := A.Preparing(v.auth, Some(RefOf(v, i)), BoundEpoch(v.gates[i]), now);
      AuthMovesKeepSlots(v.auth, now);
      SoundWithoutFailure(v);
      WithAuthSound(v, a);
      if d.Prepare? {
        var s := Carried(v.gates[i], G.PrepareStart, during);
        var me := |v.gates[i].threads|;
        assert GateSound(v, i);
        CarriedQuiet(v.gates[i], G.PrepareStart, during);
        if s.threads[me].PrepareDone? {
          BoundOnlyByMe(v.gates[i], s, me);
          GateReplaced(v, DoPrepare(w, i, now, during), i, me);
        }
      }
    }
  }

  /** A release that finds its window already past would stop the gate. An open
      adapter never takes that branch: the window of a ready lifecycle lies ahead. */
  lemma WindowLiesAhead(w: World, i: nat, now: nat)
    requires i < |w.gates| && Open(w, now)
    ensures var v := Checked(w, now);
            var until := L.ReadyUntil(w.trace.gate, now);
            && now < until
            && !A.Releasing(v.auth, Some(RefOf(v, i)), BoundEpoch(v.gates[i]), now, until).1.StopGate?
  {
  }

  lemma DoReleaseSound(w: World, i: nat, now: nat, during: seq<G.Choice>)
    requires Sound(w) && i < |w.gates| && AllExternal(during)
    ensures Sound(DoRelease(w, i, now, during))
  {
    CheckedSound(w, now);
    var v := Checked(w, now);
    if Open(w, now) {
      var until := L.ReadyUntil(w.trace.gate, now);
      var (a, d) := A.Releasing(v.auth, Some(RefOf(v, i)), BoundEpoch(v.gates[i]), now, until);
      AuthMovesKeepSlots(v.auth, now);
      WindowLiesAhead(w, i, now);
      if d.Publish? {
        PublicationBounded(w, now, Release(i, d.now, d.limit, |v.trace.history|));
        PublishSound(v, i, d.now, d.limit, during, a);
      } else {
        SoundWithoutFailure(v);
        WithAuthSound(v, a);
      }
    }
  }

  lemma PublishSound(v: World, i: nat, at: nat, limit: nat, during: seq<G.Choice>, a: A.Auth)
    requires Sound(v) && i < |v.gates| && AllExternal(during)
    requires a.slots == v.auth.slots && a.failed == v.auth.failed
    requires Bounded(v.trace.history, Release(i, at, limit, |v.trace.history|))
    ensures var s := Carried(v.gates[i], G.PublishStart(at, limit), during);
            var me := |v.gates[i].threads|;
            me < |s.threads|
            && (s.threads[me].PublishDone? ==>
                  Sound(v.(gates := v.gates[i := s], auth := a,
                           releases := v.releases
                                       + if s.threads[me].ok then [Release(i, at, limit, |v.trace.history|)] else [])))
  {
    var s := Carried(v.gates[i], G.PublishStart(at, limit), during);
    var me := |v.gates[i].threads|;
    assert GateSound(v, i);
    CarriedQuiet(v.gates[i], G.PublishStart(at, limit), during);
    if s.threads[me].PublishDone? {
      var more := if s.threads[me].ok then [Release(i, at, limit, |v.trace.history|)] else [];
      var u := v.(gates := v.gates[i := s], auth := a, releases := v.releases + more);
      BoundOnlyByMe(v.gates[i], s, me);
      assert more != [] ==> u.releases[|v.releases|] == Release(i, at, limit, |v.trace.history|);
      GateReplaced(v, u, i, me);
    }
  }

  lemma PublicationBounded(w: World, now: nat, r: Release)
    requires Sound(w) && L.IsReady(w.trace.gate, now)
    requires now == r.at < r.limit <= L.ReadyUntil(w.trace.gate, now)
    requires r.known == |L.Step(w.trace, L.Check(now)).history|
    ensures Bounded(L.Step(w.trace, L.Check(now)).history, r)
  {
    L.ReadyIsBounded(w.trace, now);
    var h := L.Step(w.trace, L.Check(now)).history;
    assert h == w.trace.history;
    assert h[..r.known] == h;
  }

  lemma DoReplySound(w: World, r: Action)
    requires r.Reply? && Sound(w)
    ensures Sound(DoReply(w, r))
  {
    SoundWithoutFailure(w);
    FailSound(w);
    if !w.failed && w.waiting.Some? {
      var call := L.Report(w.registration, w.waiting.value, r.now, true, true);
      TraceSound(w, call);
      var v := w.(trace := L.Step(w.trace, call), waiting := None);
      SoundIgnoresObserver(w.(trace := L.Step(w.trace, call)), v);
      SoundWithoutFailure(v);
      FailSound(v);
      if r.instance > 0 && r.generation > 0 {
        var u := v.(instance := r.instance, generation := r.generation);
        SoundIgnoresObserver(v, u);
        SoundWithoutFailure(u);
        var (a, outcome) := A.Observed(u.auth, Epoch(r.instance as nat, r.generation as nat, 0),
                                       L.ReadyUntil(u.trace.gate, r.now), r.now);
        WithAuthSound(u, a);
        SoundWithoutFailure(WithAuth(u, a));
        FailSound(WithAuth(u, a));
      }
    }
  }

  lemma RetireSound(w: World, i: nat)
    requires Sound(w)
    ensures Sound(Call(w, Retire(i)))
  {
    var v := Call(w, Retire(i));
    forall j | 0 <= j < |v.gates|
      ensures GateSound(v, j)
    {
      assert GateSound(w, j);
      assert forall t :: Evidenced(w, j, t) ==> Evidenced(v, j, t);
      if A.Registered(w.auth, RefOf(w, j)) && !w.gates[j].shared.flags.stopped && v != w {
        var k :| 0 <= k < |w.auth.slots| && w.auth.slots[k] == Some(RefOf(w, j));
        assert v.auth.slots[k] == Some(RefOf(w, j));
      }
    }
  }

  lemma ReserveSound(w: World, work: Identity)
    requires Sound(w)
    ensures Sound(Next(w, Reserve(work)))
  {
    var v := Next(w, Reserve(work));
    forall j | 0 <= j < |v.gates|
      ensures GateSound(v, j)
    {
      if j < |w.gates| {
        assert GateSound(w, j);
        assert forall t :: Evidenced(w, j, t) ==> Evidenced(v, j, t);
      }
    }
  }

  /** A step of an outsider does not bind a gate. */
  lemma BoundBefore(s: G.State, c: G.Choice)
    requires G.Safe(s) && G.Safe(G.Next(s, c)) && Quiet(s, -1) && External(c) && SameAuthority(s, G.Next(s, c), -1)
    ensures G.Next(s, c).shared.flags.bound ==> s.shared.flags.bound
  {
    hide G.Next, G.Advance;
    var n := G.Next(s, c);
    if n.shared.flags.bound {
      var b :| 0 <= b < |n.threads| && G.Binder(n.threads[b]);
      assert G.Knows(s.shared, s.threads[b]);
    }
  }

  lemma MoveSound(w: World, i: nat, c: G.Choice)
    requires Sound(w) && i < |w.gates| && External(c)
    ensures Sound(Next(w, Move(i, c)))
  {
    hide L.Consistent, Bounded, G.Safe, G.Next, Quiet, SameAuthority, Evidenced;
    assert GateSound(w, i);
    G.NextSafe(w.gates[i], c);
    QuietStep(w.gates[i], c, -1);
    BoundBefore(w.gates[i], c);
    GateReplaced(w, Next(w, Move(i, c)), i, -1);
  }

  lemma StopOneSound(w: World, i: nat)
    requires Sound(w) && i < |w.gates| && i in w.stopping
    ensures Sound(Next(w, StopOne(i)))
  {
    hide L.Consistent, Bounded, G.Safe, G.Next, Quiet, SameAuthority, Evidenced, StoppedGate;
    assert GateSound(w, i);
    StoppedGateQuiet(w.gates[i]);
    GateReplaced(w, Next(w, StopOne(i)), i, -1);
  }

  lemma CallSound(w: World, x: Action)
    requires Sound(w)
    ensures Sound(Call(w, x))
  {
    match x
    case Start(now) =>
      TraceSound(w, L.Begin(now));
      SoundIgnoresObserver(w.(trace := L.Step(w.trace, L.Begin(now))),
        w.(trace := L.Step(w.trace, L.Begin(now)), registration := L.Begun(w.trace.gate, now).1));
    case Poll(now) => CheckedSound(w, now);
    case Ask(now) =>
      var call := L.BeginQuery(w.registration, now);
      var v := w.(trace := L.Step(w.trace, call));
      TraceSound(w, call);
      SoundWithoutFailure(v);
      FailSound(v);
      SoundIgnoresObserver(v, v.(waiting := Some(L.Queried(w.trace.gate, w.registration, now).1)));
    case Reply(_, _, _, _, _) => DoReplySound(w, x);
    case Admit(i, now, during) => if i < |w.gates| && AllExternal(during) { DoAdmitSound(w, i, now, during); }
    case Prepare(i, now, during) => if i < |w.gates| && AllExternal(during) { DoPrepareSound(w, i, now, during); }
    case ReleaseWork(i, now, during) => if i < |w.gates| && AllExternal(during) { DoReleaseSound(w, i, now, during); }
    case Retire(i) => RetireSound(w, i);
    case _ =>
  }

  lemma NextSound(w: World, x: Action)
    requires Sound(w)
    ensures Sound(Next(w, x))
  {
    hide Call, Sound;
    match x
    case Reserve(work) => ReserveSound(w, work);
    case Move(i, c) => if i < |w.gates| && External(c) { MoveSound(w, i, c); }
    case StopOne(i) => if i < |w.gates| && i in w.stopping { StopOneSound(w, i); }
    case _ => CallSound(w, x);
  }

  lemma {:induction false} ExecSound(w: World, actions: seq<Action>)
    requires Sound(w)
    ensures Sound(Exec(w, actions))
    decreases |actions|
  {
    if actions != [] {
      NextSound(w, actions[0]);
      ExecSound(Next(w, actions[0]), actions[1..]);
    }
  }

  /** The publication behind an entered gate, as the log has it. */
  lemma PublicationOf(w: World, i: nat) returns (k: nat)
    requires Sound(w) && i < |w.gates| && w.gates[i].shared.flags.released
    ensures k < |w.releases| && w.releases[k].gate == i && Bounded(w.trace.history, w.releases[k])
    ensures w.releases[k].at == w.gates[i].shared.releasedAt && w.releases[k].limit == w.gates[i].shared.deadline
  {
    var s := w.gates[i];
    assert GateSound(w, i);
    var p :| 0 <= p < |s.threads| && G.Publisher(s.threads[p]);
    assert G.Knows(s.shared, s.threads[p]) && Settled(s.threads[p]);
    assert Evidenced(w, i, s.threads[p]);
    k :| 0 <= k < |w.releases| && w.releases[k].gate == i
         && w.releases[k].at == s.threads[p].now && w.releases[k].limit == s.threads[p].limit;
  }

  /** The claim's time lies in the publication, 2000 ms from the issue of the
      latest query answered before it and 1000 ms from one then unanswered. */
  ghost predicate WithinLease(w: World, r: Release, now: nat) {
    && r.at <= now < r.limit
    && r.known <= |w.trace.history|
    && (var h := w.trace.history[..r.known];
        && L.LatestAnswered(h).Some? && r.limit <= L.LatestAnswered(h).value + L.LEASE
        && (L.Outstanding(h).Some? ==> r.limit <= L.Outstanding(h).value + L.QUERY))
  }

  /** This is the publication that the gate's own times come from. */
  predicate PublishedBy(w: World, i: nat, r: Release)
    requires i < |w.gates|
  {
    r.gate == i && r.at == w.gates[i].shared.releasedAt && r.limit == w.gates[i].shared.deadline
  }

  /** Every claim that ever enters does so inside the publication that succeeded
      for its own gate and within the lease known then. Late or stale replies,
      clocks that run backwards and any order of the calls and of the gate's
      threads are covered, also while a revocation is under way. */
  lemma EntryWithinLease(capacity: nat, seed: nat, querySeed: nat, actions: seq<Action>, i: nat, j: nat)
    requires var w := Exec(Initial(capacity, seed, querySeed), actions);
             i < |w.gates| && j < |w.gates[i].threads| && G.HasEntered(w.gates[i].threads[j])
    ensures var w := Exec(Initial(capacity, seed, querySeed), actions);
            exists k :: 0 <= k < |w.releases| && PublishedBy(w, i, w.releases[k])
                        && WithinLease(w, w.releases[k], w.gates[i].threads[j].claim.now)
  {
    ExecSound(Initial(capacity, seed, querySeed), actions);
    EntryOfSound(Exec(Initial(capacity, seed, querySeed), actions), i, j);
  }

  lemma EntryOfSound(w: World, i: nat, j: nat)
    requires Sound(w) && i < |w.gates| && j < |w.gates[i].threads| && G.HasEntered(w.gates[i].threads[j])
    ensures exists k :: 0 <= k < |w.releases| && PublishedBy(w, i, w.releases[k])
                        && WithinLease(w, w.releases[k], w.gates[i].threads[j].claim.now)
  {
    assert GateSound(w, i);
    assert G.Knows(w.gates[i].shared, w.gates[i].threads[j]);
    var k := PublicationOf(w, i);
    assert PublishedBy(w, i, w.releases[k]) && WithinLease(w, w.releases[k], w.gates[i].threads[j].claim.now);
  }

  /** Nobody can enter this gate any more: it was never bound, or it is stopped. */
  predicate Barred(w: World, i: nat) {
    i < |w.gates| && w.gates[i].shared.flags.bound ==> w.gates[i].shared.flags.stopped
  }

  /** The entrants of a gate are those it had. */
  ghost predicate NoNewEntrants(w: World, v: World, i: nat) {
    && |w.gates| <= |v.gates|
    && forall j :: i < |v.gates| && 0 <= j < |v.gates[i].threads| && G.HasEntered(v.gates[i].threads[j]) ==>
                     i < |w.gates| && j < |w.gates[i].threads| && G.HasEntered(w.gates[i].threads[j])
  }

  lemma StoppedGateThreads(s: G.State)
    ensures StoppedGate(s).threads == s.threads + [G.StopDone(!s.shared.flags.stopped)]
  {
    var moves := [G.Spawn(G.StopStart), G.Run(|s.threads|)];
    var n := G.Next(s, moves[0]);
    assert moves[1..] == [G.Run(|s.threads|)] && moves[1..][1..] == [];
    assert G.Exec(n, moves[1..]) == G.Next(n, G.Run(|s.threads|));
  }

  lemma MoveNoNew(s: G.State, c: G.Choice, j: nat)
    requires G.Safe(s) && Quiet(s, -1) && External(c) && (s.shared.flags.bound ==> s.shared.flags.stopped)
    requires j < |G.Next(s, c).threads| && G.HasEntered(G.Next(s, c).threads[j])
    ensures j < |s.threads| && G.HasEntered(s.threads[j])
  {
    if s.shared.flags.stopped {
      G.NoEntryWhileStopped(s, c);
    } else if c.Run? && c.i < |s.threads| {
      G.AdvanceRoles(s.shared, s.threads[c.i]);
      assert G.Knows(s.shared, s.threads[c.i]);
    }
  }

  lemma AuthorityCallsWhileFailed(w: World, i: nat, now: nat, during: seq<G.Choice>)
    requires w.auth.failed && i < |w.gates|
    ensures DoAdmit(w, i, now, during).auth.failed && DoAdmit(w, i, now, during).gates == w.gates
    ensures DoPrepare(w, i, now, during).auth.failed && DoPrepare(w, i, now, during).gates == w.gates
    ensures DoRelease(w, i, now, during).auth.failed && DoRelease(w, i, now, during).gates == w.gates
  {
    hide Checked, Open, WithAuth;
  }

  /** Under a failed authority a call moves no gate, and the authority stays failed. */
  lemma CallWhileFailed(w: World, x: Action)
    requires w.auth.failed
    ensures Call(w, x).auth.failed && Call(w, x).gates == w.gates
  {
    hide Checked, Fail, WithAuth, DoAdmit, DoPrepare, DoRelease;
    match x
    case Admit(i, now, during) => if i < |w.gates| { AuthorityCallsWhileFailed(w, i, now, during); }
    case Prepare(i, now, during) => if i < |w.gates| { AuthorityCallsWhileFailed(w, i, now, during); }
    case ReleaseWork(i, now, during) => if i < |w.gates| { AuthorityCallsWhileFailed(w, i, now, during); }
    case _ =>
  }

  /** A gate that is barred stays so, and nobody enters it. */
  lemma BarredStep(w: World, x: Action, i: nat)
    requires Sound(w) && w.auth.failed && Barred(w, i)
    ensures var v := Next(w, x); v.auth.failed && Barred(v, i) && NoNewEntrants(w, v, i)
  {
    hide Call, L.Consistent, Bounded, Evidenced;
    match x
    case Reserve(work) =>
    case Move(k, c) =>
      if k == i && i < |w.gates| && External(c) { BarredMove(w, i, c); }
    case StopOne(k) =>
      if k == i && i < |w.gates| && i in w.stopping { BarredStop(w, i); }
    case _ => CallWhileFailed(w, x);
  }

  lemma BarredMove(w: World, i: nat, c: G.Choice)
    requires Sound(w) && i < |w.gates| && External(c) && Barred(w, i)
    ensures var v := Next(w, Move(i, c)); Barred(v, i) && NoNewEntrants(w, v, i)
  {
    hide L.Consistent, Bounded, G.Safe, G.Next, Quiet, SameAuthority, Evidenced;
    var s := w.gates[i];
    assert GateSound(w, i);
    G.NextSafe(s, c);
    QuietStep(s, c, -1);
    BoundBefore(s, c);
    forall j | 0 <= j < |G.Next(s, c).threads| && G.HasEntered(G.Next(s, c).threads[j])
      ensures j < |s.threads| && G.HasEntered(s.threads[j])
    {
      MoveNoNew(s, c, j);
    }
  }

  lemma BarredStop(w: World, i: nat)
    requires Sound(w) && i < |w.gates| && i in w.stopping
    ensures var v := Next(w, StopOne(i)); Barred(v, i) && NoNewEntrants(w, v, i)
  {
    hide L.Consistent, Bounded, G.Safe, Quiet, SameAuthority, Evidenced, StoppedGate;
    assert GateSound(w, i);
    StoppedGateQuiet(w.gates[i]);
    StoppedGateThreads(w.gates[i]);
  }

  lemma {:induction false} BarredExec(w: World, later: seq<Action>, i: nat)
    requires Sound(w) && w.auth.failed && Barred(w, i)
    ensures var v := Exec(w, later); Barred(v, i) && NoNewEntrants(w, v, i)
    decreases |later|
  {
    hide Sound, Next, Barred;
    if later != [] {
      NextSound(w, later[0]);
      BarredStep(w, later[0], i);
      BarredExec(Next(w, later[0]), later[1..], i);
    }
  }

  /** Once the authority has failed, whatever the reason, and its revocation has
      passed a gate, nobody enters that gate any more: its entrants stay exactly
      those of that moment. When the revocation is over, this is every gate. */
  lemma NoEntryAfterFailure(w: World, later: seq<Action>, i: nat, j: nat)
    requires Sound(w) && w.auth.failed && i !in w.stopping
    requires var v := Exec(w, later); i < |v.gates| && j < |v.gates[i].threads| && G.HasEntered(v.gates[i].threads[j])
    ensures i < |w.gates| && j < |w.gates[i].threads| && G.HasEntered(w.gates[i].threads[j])
  {
    assert i < |w.gates| ==> GateSound(w, i);
    BarredExec(w, later, i);
  }

  // What each call achieves when no other thread moves the gate meanwhile.

  function Alone(s: G.State, n: nat): seq<G.Choice> { seq(n, _ => G.Run(|s.threads|)) }

  lemma {:induction false} RunsAlone(s: G.State, me: nat, n: nat)
    requires me < |s.threads|
    ensures var (g, t) := G.Finish(s.shared, s.threads[me], n);
            G.Exec(s, seq(n, _ => G.Run(me))) == G.State(g, s.threads[me := t])
    decreases n
  {
    var moves := seq(n, _ => G.Run(me));
    if n == 0 {
      assert s.threads[me := s.threads[me]] == s.threads;
    } else {
      var later := G.Next(s, G.Run(me));
      assert moves[0] == G.Run(me) && moves[1..] == seq(n - 1, _ => G.Run(me));
      RunsAlone(later, me, n - 1);
      var t := G.Finish(later.shared, later.threads[me], n - 1).1;
      assert s.threads[me := later.threads[me]][me := t] == s.threads[me := t];
    }
  }

  lemma CarriedAlone(s: G.State, t: G.Thread, n: nat)
    requires G.Starting(t)
    ensures var (g, d) := G.Finish(s.shared, t, n);
            Carried(s, t, Alone(s, n)) == G.State(g, s.threads + [d]) && AllExternal(Alone(s, n))
  {
    var moves := [G.Spawn(t)] + Alone(s, n);
    assert moves[1..] == Alone(s, n) == seq(n, _ => G.Run(|s.threads|));
    var spawned := s.(threads := s.threads + [t]);
    RunsAlone(spawned, |s.threads|, n);
    var d := G.Finish(s.shared, t, n).1;
    assert spawned.threads[|s.threads| := d] == s.threads + [d];
  }

  /** An admission that the authority agrees to binds the gate to its epoch and registers it. */
  lemma UndisturbedAdmit(w: World, i: nat, now: nat)
    requires w.stopping == {} && i < |w.gates| && Open(w, now)
    requires var v := Checked(w, now);
             var d := A.Admitting(v.auth, Some(RefOf(v, i)), now).1;
             d.Bind? && d.slot < |A.Admitting(v.auth, Some(RefOf(v, i)), now).0.slots|
               && v.gates[i].shared.flags == G.ZERO
    ensures var v := Checked(w, now);
            var d := A.Admitting(v.auth, Some(RefOf(v, i)), now).1;
            var n := Next(w, Admit(i, now, Alone(v.gates[i], 3)));
            && i < |n.gates| && n.gates[i].shared == v.gates[i].shared.(flags := G.BOUND, epoch := d.epoch)
            && A.Registered(n.auth, RefOf(v, i))
  {
    hide Checked, Open, A.Admitting, G.Exec, G.Finish;
    var v := Checked(w, now);
    var (a, d) := A.Admitting(v.auth, Some(RefOf(v, i)), now);
    CarriedAlone(v.gates[i], G.BindStart(d.epoch), 3);
    G.UndisturbedAuthority(v.gates[i].shared, d.epoch, now, now);
    assert a.slots[d.slot := Some(RefOf(v, i))][d.slot] == Some(RefOf(v, i));
  }

  lemma UndisturbedPrepare(w: World, i: nat, now: nat)
    requires w.stopping == {} && i < |w.gates| && Open(w, now)
    requires var v := Checked(w, now);
             && A.Preparing(v.auth, Some(RefOf(v, i)), BoundEpoch(v.gates[i]), now).1.Prepare?
             && v.gates[i].shared.flags == G.BOUND
    ensures var v := Checked(w, now);
            var n := Next(w, Prepare(i, now, Alone(v.gates[i], 1)));
            i < |n.gates| && n.gates[i].shared == v.gates[i].shared.(flags := G.PREPARED)
  {
    hide Checked, Open, A.Preparing, G.Exec, G.Finish;
    var v := Checked(w, now);
    CarriedAlone(v.gates[i], G.PrepareStart, 1);
    G.UndisturbedAuthority(v.gates[i].shared, v.gates[i].shared.epoch, now, now);
  }

  /** A release that the authority agrees to publishes the window it decided on. */
  lemma UndisturbedRelease(w: World, i: nat, now: nat)
    requires w.stopping == {} && i < |w.gates| && Open(w, now)
    requires var v := Checked(w, now);
             && A.Releasing(v.auth, Some(RefOf(v, i)), BoundEpoch(v.gates[i]), now,
                L.ReadyUntil(w.trace.gate, now)).1.Publish?
             && v.gates[i].shared.flags == G.PREPARED
    ensures var v := Checked(w, now);
            var d := A.Releasing(v.auth, Some(RefOf(v, i)), BoundEpoch(v.gates[i]), now,
              L.ReadyUntil(w.trace.gate, now)).1;
            var n := Next(w, ReleaseWork(i, now, Alone(v.gates[i], 4)));
            && i < |n.gates|
            && n.gates[i].shared == v.gates[i].shared.(flags := G.RELEASED, releasedAt := d.now, deadline := d.limit)
            && n.releases == v.releases + [Release(i, d.now, d.limit, |v.trace.history|)]
  {
    hide Checked, Open, A.Releasing, G.Exec, G.Finish, L.ReadyUntil;
    var v := Checked(w, now);
    var d := A.Releasing(v.auth, Some(RefOf(v, i)), BoundEpoch(v.gates[i]), now, L.ReadyUntil(w.trace.gate, now)).1;
    CarriedAlone(v.gates[i], G.PublishStart(d.now, d.limit), 4);
    G.UndisturbedAuthority(v.gates[i].shared, v.gates[i].shared.epoch, d.now, d.limit);
  }

  /** A timely honest reply makes the lifecycle ready from the query's issue on,
      and the authority fresh under the platform's epoch until then. */
  lemma TimelyReply(w: World, instance: int, generation: int, now: nat)
    requires Sound(w) && !w.failed && !w.auth.failed && 0 < w.auth.capacity <= A.MAXIMUM
    requires w.waiting == Some(w.trace.gate.query) && w.trace.gate.query != 0
    requires w.registration == w.trace.gate.generation != 0
    requires L.Valid(w.trace.gate, now) && instance > 0 && generation > 0
    requires w.instance == 0 || (w.instance == instance && w.generation == generation)
    requires w.auth.observed <= now
    requires w.auth.epoch.Some? ==>
             w.auth.epoch.value == Epoch(instance as nat, generation as nat, 0) && now < w.auth.deadline
    ensures var n := Next(w, Reply(true, instance, generation, true, now));
            && !n.failed && !n.auth.failed && n.trace.gate.standing == L.Ready
            && n.trace.gate.deadline == w.trace.gate.issued + L.LEASE
            && n.auth.epoch == Some(Epoch(instance as nat, generation as nat, 0))
            && n.auth.deadline >= w.trace.gate.issued + L.LEASE
  {
    hide RegisteredGates, Bounded, GateSound;
  }
}
