/**
 The inputs of one catalogued work: Prepare, Start, CancelInputs and Forget,
 each of which drops the work's mutex in the middle, against each other, against
 Stop and Close, and against the registry record and the descriptor pool they
 call into. A schedule names the call that takes each step; a choice also
 carries what the outside world answers in that step.
 */
module CatalogInputs {

  datatype Phase = Empty | Preparing | Ready | Consumed | Releasing | Rejected

  /** The pool's side of this input: whether a slot was reserved, whether it is
      being captured, and whether it holds the registration's descriptors. */
  datatype Pool = NoSlot | Reserved | Capturing | Held | Dropped | Failed

  /** Where a Prepare is: what it does next. */
  datatype PrepareAt =
    | Enter
    | Reserve
    | ReadDescription(reserved: bool, failed: bool)
    | Capture(reserved: bool, failed: bool)
    | FinishCapture
    | Decide(reserved: bool, captured: bool, failed: bool)
    | Release(reserved: bool, captured: bool)
    | Reject

  datatype StartAt =
    | Begin
    | Lease
    | Register(available: bool)
    | DropInput(accepted: bool)
    | DropLease(accepted: bool)
    | Leave(accepted: bool)

  datatype CancelAt = ReadFlags | TakePhase | DropBinding | AwaitStarts

  datatype ForgetAt = CheckComplete | ForgetInput | ForgetRecord | MarkForgotten

  datatype Call = Prepare(p: PrepareAt) | Start(s: StartAt) | CancelInputs(c: CancelAt) | Forget(f: ForgetAt) | Done

  /** Everything but the calls in flight. */
  datatype Core = Core(
    phase: Phase, startsPending: nat, cancelled: bool, forgotten: bool, bound: bool,
    closed: bool,                                                // the catalog
    pool: Pool, poolClosed: bool,
    accepted: bool, complete: bool, recordForgotten: bool)       // the registry record

  datatype State = State(core: Core, calls: seq<Call>)

  const INITIAL := State(Core(Empty, 0, false, false, false, false, NoSlot, false, false, false, false), [])

  predicate Entering(c: Call) {
    c == Prepare(Enter) || c == Start(Begin) || c == CancelInputs(ReadFlags) || c == Forget(CheckComplete)
  }

  datatype Choice =
    | Spawn(call: Call)
    | Run(i: nat, ok: bool)       // ok: what the kernel or the registry answers, where it matters
    | Stop                        // an owner stop, or a cancellation of an unstarted work
    | Complete                    // the record settles
    | CloseFlag
    | ClosePool

  /** Drops the registration's descriptors, as the pool's Forget does. */
  function PoolForgets(s: Core): Core {
    if s.pool == Held then s.(pool := Dropped) else s
  }

  predicate Decided(p: PrepareAt) { p.Decide? || p.Release? || p.Reject? }

  /** Prepare up to the end of the capture. */
  function ActCapture(s: Core, c: PrepareAt, ok: bool): (Core, Call)
    requires !Decided(c)
  {
    match c
    case Enter =>
      if s.forgotten || s.phase != Empty || s.closed || s.cancelled || !ok then (s, Done)
      else (s.(phase := Preparing), Prepare(Reserve))
    case Reserve =>
      if ok && !s.poolClosed then (s.(pool := Reserved), Prepare(ReadDescription(true, false)))
      else (s, Prepare(ReadDescription(false, true)))
    case ReadDescription(reserved, failed) => (s, Prepare(Capture(reserved, failed || !ok)))
    case Capture(reserved, failed) =>
      if failed || s.cancelled || s.closed || s.poolClosed || s.pool != Reserved
      then (s, Prepare(Decide(reserved, false, true)))
      else (s.(pool := Capturing), Prepare(FinishCapture))
    case FinishCapture =>
      if ok && !s.poolClosed then (s.(pool := Held), Prepare(Decide(true, true, false)))
      else (s.(pool := Failed), Prepare(Decide(true, false, true)))
  }

  /** Prepare from its decision to its end. */
  function ActDecision(s: Core, c: PrepareAt): (Core, Call)
    requires Decided(c)
  {
    match c
    case Decide(reserved, captured, failed) =>
      if failed || s.cancelled || s.closed then (s.(phase := Releasing), Prepare(Release(reserved, captured)))
      else (s.(phase := Ready, bound := true), Done)
    case Release(reserved, captured) =>
      if captured then (PoolForgets(s), Prepare(Reject))
      else if reserved && s.pool == Reserved then (s.(pool := Failed), Prepare(Reject))
      else (s, Prepare(Reject))
    case Reject => (s.(phase := Rejected), Done)
  }

  function ActStart(s: Core, c: StartAt, ok: bool): (Core, Call) {
    match c
    case Begin =>
      if s.forgotten || (s.phase != Ready && s.phase != Consumed) || !ok then (s, Done)
      else (s.(startsPending := s.startsPending + 1), Start(Lease))
    case Lease => (s, Start(Register(!s.poolClosed && s.pool == Held)))
    case Register(available) =>
      if s.recordForgotten then (s, Start(DropInput(false)))
      else if s.accepted then (s, Start(DropInput(true)))             // an identical retry
      else if s.complete || !available || !ok then (s, Start(DropInput(false)))
      else (s.(accepted := true), Start(DropInput(true)))
    case DropInput(accepted) => (if accepted then PoolForgets(s) else s, Start(DropLease(accepted)))
    case DropLease(accepted) => (s, Start(Leave(accepted)))
    case Leave(accepted) =>
      (s.(phase := if accepted then Consumed else s.phase,
          startsPending := if s.startsPending > 0 then s.startsPending - 1 else 0), Done)
  }

  function ActCancel(s: Core, c: CancelAt): (Core, Call) {
    match c
    case ReadFlags => (s, if !s.cancelled && !s.closed then Done else CancelInputs(TakePhase))
    case TakePhase =>
      if s.phase == Preparing || s.phase == Releasing || s.phase == Consumed || s.phase == Rejected then (s, Done)
      else (s.(phase := Releasing), CancelInputs(DropBinding))
    case DropBinding => (if s.bound then PoolForgets(s) else s, CancelInputs(AwaitStarts))
    case AwaitStarts =>
      if s.startsPending != 0 then (s, CancelInputs(AwaitStarts))     // the condition variable keeps waiting
      else (if s.phase != Consumed then s.(phase := Rejected) else s, Done)
  }

  function ActForget(s: Core, c: ForgetAt): (Core, Call) {
    match c
    case CheckComplete =>
      if s.forgotten || s.phase == Preparing || s.phase == Releasing || s.startsPending != 0 || !s.complete
      then (s, Done)
      else (s.(cancelled := true), Forget(ForgetInput))
    case ForgetInput => (if s.bound then PoolForgets(s) else s, Forget(ForgetRecord))
    case ForgetRecord => (s.(recordForgotten := true), Forget(MarkForgotten))
    case MarkForgotten => (s.(forgotten := true), Done)
  }

  /** One step of one call: what it changes, and what it does next. */
  function Act(s: Core, c: Call, ok: bool): (Core, Call) {
    match c
    case Prepare(p) => if Decided(p) then ActDecision(s, p) else ActCapture(s, p, ok)
    case Start(a) => ActStart(s, a, ok)
    case CancelInputs(k) => ActCancel(s, k)
    case Forget(f) => ActForget(s, f)
    case Done => (s, Done)
  }

  function Outside(s: Core, c: Choice): Core {
    match c
    case Stop => s.(cancelled := true)
    case Complete => s.(complete := true)
    case CloseFlag => s.(closed := true)
    case ClosePool =>
      s.(poolClosed := true,
         pool := if s.pool == Reserved then Failed else if s.pool == Held then Dropped else s.pool)
    case _ => s
  }

  function Next(s: State, c: Choice): State {
    match c
    case Spawn(call) => if Entering(call) then s.(calls := s.calls + [call]) else s
    case Run(i, ok) =>
      if i < |s.calls| then
        var (core, call) := Act(s.core, s.calls[i], ok);
        State(core, s.calls[i := call])
      else s
    case _ => s.(core := Outside(s.core, c))
  }

  function Exec(s: State, schedule: seq<Choice>): State
    decreases |schedule|
  {
    if schedule == [] then s else Exec(Next(s, schedule[0]), schedule[1..])
  }

  predicate InPrepare(c: Call) { c.Prepare? && !c.p.Enter? }

  predicate InStart(c: Call) { c.Start? && !c.s.Begin? }

  predicate InCancel(c: Call) { c.CancelInputs? && (c.c.DropBinding? || c.c.AwaitStarts?) }

  predicate Carries(c: Call) { c.Start? && (c.s.DropInput? || c.s.DropLease? || c.s.Leave?) && c.s.accepted }

  /** The pool keeps no descriptors for the input. */
  predicate Released(s: Core) { s.pool == NoSlot || s.pool == Dropped || s.pool == Failed }

  function Starts(calls: seq<Call>): nat {
    if calls == [] then 0
    else Starts(calls[..|calls| - 1]) + if InStart(calls[|calls| - 1]) then 1 else 0
  }

  /** What a call in flight can rely on. */
  predicate PrepareSound(s: Core, c: PrepareAt) {
    match c
    case Enter => true
    case Reserve => s.phase == Preparing && s.pool == NoSlot
    case ReadDescription(reserved, failed) =>
      s.phase == Preparing && (if reserved then s.pool == Reserved || s.pool == Failed else failed && s.pool == NoSlot)
    case Capture(reserved, failed) =>
      s.phase == Preparing && (if reserved then s.pool == Reserved || s.pool == Failed else failed && s.pool == NoSlot)
    case FinishCapture => s.phase == Preparing && s.pool == Capturing
    case Decide(reserved, captured, failed) =>
      && s.phase == Preparing
      && (if captured then s.pool == Held || s.pool == Dropped else failed && s.pool != Held && s.pool != Capturing)
      && (s.pool == Reserved ==> reserved)
    case Release(reserved, captured) =>
      && s.phase == Releasing
      && (if captured then s.pool == Held || s.pool == Dropped else s.pool != Held && s.pool != Capturing)
      && (s.pool == Reserved ==> reserved)
    case Reject => s.phase == Releasing && Released(s)
  }

  predicate StartSound(s: Core, c: StartAt) {
    match c
    case Begin => true
    case Lease => s.bound
    case Register(_) => s.bound
    case DropInput(accepted) => s.bound && (accepted ==> s.accepted)
    case DropLease(accepted) => s.bound && (accepted ==> s.accepted && Released(s))
    case Leave(accepted) => s.bound && (accepted ==> s.accepted && Released(s))
  }

  predicate CancelSound(s: Core, c: CancelAt) {
    match c
    case DropBinding => (s.phase == Releasing || s.phase == Consumed) && (!s.bound ==> Released(s))
    case AwaitStarts => (s.phase == Releasing || s.phase == Consumed) && Released(s)
    case _ => true
  }

  predicate CallSound(s: Core, c: Call) {
    match c
    case Prepare(p) => PrepareSound(s, p) && (InPrepare(c) ==> !s.bound)
    case Start(a) => StartSound(s, a)
    case CancelInputs(k) => CancelSound(s, k)
    case _ => true
  }

  ghost predicate OneOf(calls: seq<Call>, p: Call -> bool) {
    forall i, j :: 0 <= i < |calls| && 0 <= j < |calls| && p(calls[i]) && p(calls[j]) ==> i == j
  }

  predicate Holds(c: Call) { InPrepare(c) || InCancel(c) }

  ghost predicate SomeCarries(calls: seq<Call>) {
    exists i :: 0 <= i < |calls| && Carries(calls[i])
  }

  /** What holds of the phase, the pool and the record together. */
  predicate PhaseSound(s: Core) {
    && (s.phase == Empty ==> !s.bound && s.pool == NoSlot)
    && (s.phase == Preparing ==> !s.bound)
    && (s.phase == Ready ==> s.bound)
    && (s.bound ==> s.pool == Held || s.pool == Dropped)
    && (!s.bound ==> s.startsPending == 0)
    && (s.phase == Consumed ==> s.accepted && s.bound)
    && (s.phase == Consumed || s.phase == Rejected ==> Released(s))
    && (s.phase == Rejected ==> s.startsPending == 0)
    && (s.accepted ==> s.bound && s.phase != Rejected)
  }

  ghost predicate Sound(s: State) {
    && PhaseSound(s.core)
    && (forall i :: 0 <= i < |s.calls| ==> CallSound(s.core, s.calls[i]))
    && OneOf(s.calls, Holds)
    && s.core.startsPending == Starts(s.calls)
    && (s.core.accepted ==> s.core.phase == Consumed || SomeCarries(s.calls))
  }

  lemma {:induction false} StartsUpdate(calls: seq<Call>, i: nat, c: Call)
    requires i < |calls|
    ensures Starts(calls[i := c]) == Starts(calls) - (if InStart(calls[i]) then 1 else 0)
            + (if InStart(c) then 1 else 0)
  {
    var n := |calls| - 1;
    if i < n {
      StartsUpdate(calls[..n], i, c);
      assert calls[i := c][..n] == calls[..n][i := c];
    } else {
      assert calls[i := c][..n] == calls[..n];
    }
  }

  lemma {:induction false} NoStartsPending(calls: seq<Call>, i: nat)
    requires i < |calls| && InStart(calls[i])
    ensures Starts(calls) > 0
  {
    StartsUpdate(calls, i, Done);
  }

  lemma CapturePhase(s: Core, p: PrepareAt, ok: bool)
    requires PhaseSound(s) && CallSound(s, Prepare(p)) && !Decided(p)
    ensures var (t, d) := ActCapture(s, p, ok); PhaseSound(t) && CallSound(t, d)
  {
  }

  lemma DecisionPhase(s: Core, p: PrepareAt)
    requires PhaseSound(s) && CallSound(s, Prepare(p)) && Decided(p)
    ensures var (t, d) := ActDecision(s, p); PhaseSound(t) && CallSound(t, d)
  {
  }

  lemma StartPhase(s: Core, a: StartAt, ok: bool)
    requires PhaseSound(s) && StartSound(s, a) && (a.Begin? || s.startsPending > 0)
    ensures var (t, d) := ActStart(s, a, ok); PhaseSound(t) && CallSound(t, d)
  {
    match a
    case Begin =>
    case Lease =>
    case Register(_) =>
    case DropInput(_) =>
    case DropLease(_) =>
    case Leave(_) =>
  }

  lemma CancelPhase(s: Core, k: CancelAt)
    requires PhaseSound(s) && CancelSound(s, k)
    requires k.AwaitStarts? && s.startsPending == 0 && s.accepted ==> s.phase == Consumed
    ensures var (t, d) := ActCancel(s, k); PhaseSound(t) && CallSound(t, d)
  {
    match k
    case ReadFlags =>
    case TakePhase =>
    case DropBinding =>
    case AwaitStarts =>
  }

  lemma ForgetPhase(s: Core, f: ForgetAt)
    requires PhaseSound(s)
    ensures var (t, d) := ActForget(s, f); PhaseSound(t) && CallSound(t, d)
  {
  }

  lemma CaptureOthers(s: Core, p: PrepareAt, d: Call, ok: bool)
    requires !Decided(p)
    requires PhaseSound(s) && CallSound(s, Prepare(p)) && CallSound(s, d) && !(Holds(Prepare(p)) && Holds(d))
    ensures CallSound(ActCapture(s, p, ok).0, d) && !(Holds(ActCapture(s, p, ok).1) && Holds(d))
  {
  }

  lemma DecisionOthers(s: Core, p: PrepareAt, d: Call)
    requires Decided(p)
    requires PhaseSound(s) && CallSound(s, Prepare(p)) && CallSound(s, d) && !(Holds(Prepare(p)) && Holds(d))
    ensures CallSound(ActDecision(s, p).0, d) && !(Holds(ActDecision(s, p).1) && Holds(d))
  {
  }

  lemma StartOthers(s: Core, a: StartAt, d: Call, ok: bool)
    requires PhaseSound(s) && StartSound(s, a) && CallSound(s, d)
    ensures CallSound(ActStart(s, a, ok).0, d) && !Holds(ActStart(s, a, ok).1)
  {
  }

  lemma CancelOthers(s: Core, k: CancelAt, d: Call)
    requires PhaseSound(s) && CancelSound(s, k) && CallSound(s, d) && !(Holds(CancelInputs(k)) && Holds(d))
    ensures CallSound(ActCancel(s, k).0, d) && !(Holds(ActCancel(s, k).1) && Holds(d))
  {
  }

  lemma ForgetOthers(s: Core, f: ForgetAt, d: Call)
    requires PhaseSound(s) && CallSound(s, d)
    ensures CallSound(ActForget(s, f).0, d) && !Holds(ActForget(s, f).1)
  {
  }

  /** Only a Start counts as pending, and only a Start is accepted. */
  lemma CaptureLeavesStarts(s: Core, p: PrepareAt, ok: bool)
    requires !Decided(p)
    ensures ActCapture(s, p, ok).0.startsPending == s.startsPending
    ensures ActCapture(s, p, ok).0.accepted == s.accepted
    ensures !ActCapture(s, p, ok).1.Start?
  {
  }

  lemma DecisionLeavesStarts(s: Core, p: PrepareAt)
    requires Decided(p)
    ensures ActDecision(s, p).0.startsPending == s.startsPending && ActDecision(s, p).0.accepted == s.accepted
  {
    match p
    case Decide(_, _, _) =>
    case Release(_, _) =>
    case Reject =>
  }

  lemma DecisionStartsNothing(s: Core, p: PrepareAt)
    requires Decided(p)
    ensures !ActDecision(s, p).1.Start?
  {
    match p
    case Decide(_, _, _) =>
    case Release(_, _) =>
    case Reject =>
  }

  lemma CancelLeavesStarts(s: Core, k: CancelAt)
    ensures ActCancel(s, k).0.startsPending == s.startsPending
    ensures ActCancel(s, k).0.accepted == s.accepted
    ensures !ActCancel(s, k).1.Start?
  {
    match k
    case ReadFlags =>
    case TakePhase =>
    case DropBinding =>
    case AwaitStarts =>
  }

  lemma ForgetLeavesStarts(s: Core, f: ForgetAt)
    ensures ActForget(s, f).0.startsPending == s.startsPending
    ensures ActForget(s, f).0.accepted == s.accepted
    ensures !ActForget(s, f).1.Start?
  {
    match f
    case CheckComplete =>
    case ForgetInput =>
    case ForgetRecord =>
    case MarkForgotten =>
  }

  lemma StartIsCounted(s: Core, a: StartAt, ok: bool)
    requires !a.Begin? ==> s.startsPending > 0
    ensures var (t, d) := ActStart(s, a, ok);
            t.startsPending == s.startsPending + (if InStart(d) then 1 else 0) - (if a.Begin? then 0 else 1)
  {
    match a
    case Begin =>
    case Lease =>
    case Register(_) =>
    case DropInput(_) =>
    case DropLease(_) =>
    case Leave(_) =>
  }

  /** An accepted Start is carried to its end: it is on its way, or Consumed says so. */
  lemma StartIsCarried(s: Core, a: StartAt, ok: bool)
    ensures var (t, d) := ActStart(s, a, ok);
            && (t.accepted && !s.accepted ==> Carries(d))
            && (Carries(Start(a)) ==> Carries(d) || t.phase == Consumed)
            && (s.accepted ==> t.accepted)
  {
    match a
    case Begin =>
    case Lease =>
    case Register(_) =>
    case DropInput(_) =>
    case DropLease(_) =>
    case Leave(_) =>
  }

  lemma ActCarries(s: Core, c: Call, ok: bool)
    ensures var (t, d) := Act(s, c, ok);
            && (t.accepted && !s.accepted ==> Carries(d))
            && (Carries(c) ==> Carries(d) || t.phase == Consumed)
            && (s.accepted ==> t.accepted)
  {
    match c
    case Prepare(p) =>
      if Decided(p) {
        DecisionLeavesStarts(s, p);
        DecisionStartsNothing(s, p);
      } else {
        CaptureLeavesStarts(s, p, ok);
      }
    case Start(a) => StartIsCarried(s, a, ok);
    case CancelInputs(k) => CancelLeavesStarts(s, k);
    case Forget(f) => ForgetLeavesStarts(s, f);
    case Done =>
  }

  lemma ActConsumed(s: Core, c: Call, ok: bool)
    requires PhaseSound(s) && CallSound(s, c)
    ensures s.phase == Consumed ==> Act(s, c, ok).0.phase == Consumed
    ensures s.phase == Rejected && (InStart(c) ==> s.startsPending > 0) ==> Act(s, c, ok).0.phase == Rejected
  {
  }

  lemma ActCounts(s: Core, c: Call, ok: bool)
    requires InStart(c) ==> s.startsPending > 0
    ensures var (t, d) := Act(s, c, ok);
            t.startsPending == s.startsPending + (if InStart(d) then 1 else 0) - (if InStart(c) then 1 else 0)
  {
    match c
    case Prepare(p) =>
      if Decided(p) {
        DecisionLeavesStarts(s, p);
        DecisionStartsNothing(s, p);
      } else {
        CaptureLeavesStarts(s, p, ok);
      }
    case Start(a) => StartIsCounted(s, a, ok);
    case CancelInputs(k) => CancelLeavesStarts(s, k);
    case Forget(f) => ForgetLeavesStarts(s, f);
    case Done =>
  }

  lemma RunCallSound(s: State, i: nat, ok: bool)
    requires Sound(s) && i < |s.calls|
    requires InStart(s.calls[i]) ==> s.core.startsPending > 0
    requires s.calls[i] == CancelInputs(AwaitStarts) && s.core.startsPending == 0 && s.core.accepted ==>
             s.core.phase == Consumed
    ensures var n := Next(s, Run(i, ok));
            && PhaseSound(n.core) && OneOf(n.calls, Holds)
            && forall j :: 0 <= j < |n.calls| ==> CallSound(n.core, n.calls[j])
  {
    var c := s.calls[i];
    var (t, d) := Act(s.core, c, ok);
    match c {
      case Prepare(p) =>
        if Decided(p) { DecisionPhase(s.core, p); } else { CapturePhase(s.core, p, ok); }
      case Start(a) => StartPhase(s.core, a, ok);
      case CancelInputs(k) => CancelPhase(s.core, k);
      case Forget(f) => ForgetPhase(s.core, f);
      case Done =>
    }
    forall j | 0 <= j < |s.calls| && j != i
      ensures CallSound(t, s.calls[j]) && !(Holds(d) && Holds(s.calls[j]))
    {
      match c {
        case Prepare(p) =>
          if Decided(p) { DecisionOthers(s.core, p, s.calls[j]); } else { CaptureOthers(s.core, p, s.calls[j], ok); }
        case Start(a) => StartOthers(s.core, a, s.calls[j], ok);
        case CancelInputs(k) => CancelOthers(s.core, k, s.calls[j]);
        case Forget(f) => ForgetOthers(s.core, f, s.calls[j]);
        case Done =>
      }
    }
  }

  lemma {:induction false} RunSound(s: State, i: nat, ok: bool)
    requires Sound(s) && i < |s.calls|
    ensures Sound(Next(s, Run(i, ok)))
  {
    var c := s.calls[i];
    if InStart(c) { NoStartsPending(s.calls, i); }
    if c == CancelInputs(AwaitStarts) && s.core.startsPending == 0 && s.core.accepted && s.core.phase != Consumed {
      var k :| 0 <= k < |s.calls| && Carries(s.calls[k]);
      NoStartsPending(s.calls, k);
    }
    RunCallSound(s, i, ok);
    ActCounts(s.core, c, ok);
    StartsUpdate(s.calls, i, Act(s.core, c, ok).1);
    RunCarries(s, i, ok);
  }

  lemma RunCarries(s: State, i: nat, ok: bool)
    requires Sound(s) && i < |s.calls|
    ensures var n := Next(s, Run(i, ok)); n.core.accepted ==> n.core.phase == Consumed || SomeCarries(n.calls)
  {
    var c := s.calls[i];
    var n := Next(s, Run(i, ok));
    ActCarries(s.core, c, ok);
    ActConsumed(s.core, c, ok);
    if n.core.accepted && n.core.phase != Consumed {
      if s.core.accepted {
        var k :| 0 <= k < |s.calls| && Carries(s.calls[k]);
        assert Carries(n.calls[k]);
      } else {
        assert Carries(n.calls[i]);
      }
    }
  }

  lemma OutsideCallSound(s: Core, c: Choice, d: Call)
    requires PhaseSound(s)
    ensures PhaseSound(Outside(s, c))
    ensures CallSound(s, d) ==> CallSound(Outside(s, c), d)
  {
  }

  lemma {:induction false} NextSound(s: State, c: Choice)
    requires Sound(s)
    ensures Sound(Next(s, c))
  {
    match c
    case Run(i, ok) => if i < |s.calls| { RunSound(s, i, ok); }
    case Spawn(call) => if Entering(call) { SpawnSound(s, call); }
    case _ =>
      OutsideCallSound(s.core, c, Done);
      forall i | 0 <= i < |s.calls|
        ensures CallSound(Outside(s.core, c), s.calls[i])
      {
        OutsideCallSound(s.core, c, s.calls[i]);
      }
  }

  lemma {:induction false} SpawnSound(s: State, call: Call)
    requires Sound(s) && Entering(call)
    ensures Sound(s.(calls := s.calls + [call]))
  {
    var calls := s.calls + [call];
    assert calls[..|s.calls|] == s.calls;
    assert CallSound(s.core, call) && !Holds(call) && !InStart(call);
    if SomeCarries(s.calls) {
      var k :| 0 <= k < |s.calls| && Carries(s.calls[k]);
      assert Carries(calls[k]);
    }
  }

  lemma {:induction false} ExecSound(s: State, schedule: seq<Choice>)
    requires Sound(s)
    ensures Sound(Exec(s, schedule))
    decreases |schedule|
  {
    if schedule != [] {
      NextSound(s, schedule[0]);
      ExecSound(Next(s, schedule[0]), schedule[1..]);
    }
  }

  ghost predicate NoCallInFlight(s: State) {
    forall i :: 0 <= i < |s.calls| ==> s.calls[i] == Done
  }

  /** In every run: Rejected is never written over an accepted Start, Consumed
      says that one was accepted, and when no call is in flight Consumed says
      so exactly. In both terminal states the pool holds nothing for the input. */
  lemma TerminalStateIsTruthful(schedule: seq<Choice>)
    ensures var s := Exec(INITIAL, schedule);
            && (s.core.phase == Rejected ==> !s.core.accepted)
            && (s.core.phase == Consumed ==> s.core.accepted)
            && (NoCallInFlight(s) ==> (s.core.phase == Consumed <==> s.core.accepted))
            && (s.core.phase == Consumed || s.core.phase == Rejected ==> Released(s.core))
  {
    ExecSound(INITIAL, schedule);
    var s := Exec(INITIAL, schedule);
    if s.core.accepted && s.core.phase != Consumed {
      var k :| 0 <= k < |s.calls| && Carries(s.calls[k]);
      assert s.calls[k] != Done;
    }
  }

  /** The two terminal states are final, whatever is called afterwards. */
  lemma {:induction false} TerminalStateIsFinal(s: State, later: seq<Choice>)
    requires Sound(s) && (s.core.phase == Consumed || s.core.phase == Rejected)
    ensures Exec(s, later).core.phase == s.core.phase
    decreases |later|
  {
    if later != [] {
      NextSound(s, later[0]);
      TerminalStep(s, later[0]);
      TerminalStateIsFinal(Next(s, later[0]), later[1..]);
    }
  }

  lemma {:induction false} TerminalStep(s: State, c: Choice)
    requires Sound(s) && (s.core.phase == Consumed || s.core.phase == Rejected)
    ensures Next(s, c).core.phase == s.core.phase
  {
    if c.Run? && c.i < |s.calls| {
      if InStart(s.calls[c.i]) { NoStartsPending(s.calls, c.i); }
      ActConsumed(s.core, s.calls[c.i], c.ok);
    }
  }

  /** A call that takes n steps by itself, every answer from outside good. */
  function Alone(s: Core, c: Call, n: nat): (Core, Call)
    decreases n
  {
    if n == 0 then (s, c) else var (t, d) := Act(s, c, true); Alone(t, d, n - 1)
  }

  lemma OneStep(s: Core, c: Call, n: nat, t: Core, d: Call)
    requires n > 0 && Act(s, c, true) == (t, d)
    ensures Alone(s, c, n) == Alone(t, d, n - 1)
  {
  }

  lemma NoStep(s: Core, c: Call)
    ensures Alone(s, c, 0) == (s, c)
  {
  }

  /** Undisturbed, a Prepare of an untouched open work makes its inputs ready. */
  lemma UndisturbedPrepare(s: Core)
    requires PhaseSound(s) && s.phase == Empty && !s.forgotten && !s.closed && !s.cancelled && !s.poolClosed
    ensures Alone(s, Prepare(Enter), 6) == (s.(phase := Ready, bound := true, pool := Held), Done)
  {
    hide Alone, PhaseSound;
    var t := s.(phase := Preparing, pool := Reserved);
    OneStep(s, Prepare(Enter), 6, s.(phase := Preparing), Prepare(Reserve));
    OneStep(s.(phase := Preparing), Prepare(Reserve), 5, t, Prepare(ReadDescription(true, false)));
    OneStep(t, Prepare(ReadDescription(true, false)), 4, t, Prepare(Capture(true, false)));
    OneStep(t, Prepare(Capture(true, false)), 3, t.(pool := Capturing), Prepare(FinishCapture));
    OneStep(t.(pool := Capturing), Prepare(FinishCapture), 2, t.(pool := Held), Prepare(Decide(true, true, false)));
    OneStep(t.(pool := Held), Prepare(Decide(true, true, false)), 1,
      s.(phase := Ready, bound := true, pool := Held), Done);
    NoStep(s.(phase := Ready, bound := true, pool := Held), Done);
  }

  /** Undisturbed, a Start of ready inputs is accepted once and consumes them. */
  lemma UndisturbedStart(s: Core)
    requires PhaseSound(s) && s.phase == Ready && s.pool == Held && !s.poolClosed
    requires !s.forgotten && !s.recordForgotten && !s.accepted && !s.complete
    ensures Alone(s, Start(Begin), 6) == (s.(phase := Consumed, accepted := true, pool := Dropped), Done)
  {
    hide Alone, PhaseSound;
    var t := s.(startsPending := s.startsPending + 1);
    var u := t.(accepted := true);
    var v := u.(pool := Dropped);
    OneStep(s, Start(Begin), 6, t, Start(Lease));
    OneStep(t, Start(Lease), 5, t, Start(Register(true)));
    OneStep(t, Start(Register(true)), 4, u, Start(DropInput(true)));
    OneStep(u, Start(DropInput(true)), 3, v, Start(DropLease(true)));
    OneStep(v, Start(DropLease(true)), 2, v, Start(Leave(true)));
    OneStep(v, Start(Leave(true)), 1, s.(phase := Consumed, accepted := true, pool := Dropped), Done);
    NoStep(s.(phase := Consumed, accepted := true, pool := Dropped), Done);
  }
}
