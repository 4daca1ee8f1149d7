/**
 The shared admission word of one work, moved by compare-exchange through
 Binding, Bound, Prepared, Publishing, Released and Entered, with a Stopped bit
 that any thread may set between any two steps.

 Every atomic operation and every access to a plain shared field is one step.
 Any number of threads run any mix of the operations, without any lock, and a
 schedule names the thread that takes each step.
 */
module WorkGate {
  import opened Common

  /** The seven bits of the shared flags. No operation touches any other bit. */
  datatype Word = Word(
    binding: bool, bound: bool, prepared: bool, publishing: bool,
    released: bool, entered: bool, stopped: bool)

  const ZERO := Word(false, false, false, false, false, false, false)
  const BINDING := ZERO.(binding := true)
  const BOUND := ZERO.(bound := true)
  const PREPARED := BOUND.(prepared := true)
  const PUBLISHING := PREPARED.(publishing := true)
  const RELEASED := PREPARED.(released := true)
  const ENTERED := RELEASED.(entered := true)

  /** The number stored in the mapping: bits 1, 2, 4, 8, 16, 32 and 64. */
  function Flags(w: Word): nat {
    (if w.binding then 1 else 0) + (if w.bound then 2 else 0) + (if w.prepared then 4 else 0) +
    (if w.publishing then 8 else 0) + (if w.released then 16 else 0) + (if w.entered then 32 else 0) +
    (if w.stopped then 64 else 0)
  }

  /** The word without its stop bit. */
  function Base(w: Word): Word { w.(stopped := false) }

  predicate ValidWord(w: Word) {
    var base := Base(w);
    || base == ZERO
    || base == BINDING
    || base == BOUND
    || base == PREPARED
    || base == PUBLISHING
    || base == RELEASED
    || base == ENTERED
  }

  /** The mapping shared between the service and the launcher. */
  datatype Shared = Shared(flags: Word, work: Identity, epoch: Epoch, releasedAt: nat, deadline: nat)

  datatype Phase = Unbound | Binding | Admitted | Prepared | Publishing | Released | Entered | Stopped

  function PhaseOf(word: Word): Phase {
    if word.stopped then Phase.Stopped
    else if word.entered then Phase.Entered
    else if word.released then Phase.Released
    else if word.publishing then Phase.Publishing
    else if word.prepared then Phase.Prepared
    else if word.bound then Phase.Admitted
    else if word.binding then Phase.Binding
    else Phase.Unbound
  }

  datatype Entry = Claimed | NotReleased | Closed | Expired | Foreign | AlreadyEntered

  datatype Claim = Claim(work: Identity, epoch: Epoch, now: nat)

  /** One thread inside one gate operation: what it does next, or what it returned. */
  datatype Thread =
      // Bind: exchange, write the epoch, exchange.
    | BindStart(bound: Epoch)
    | BindWrite(bound: Epoch)
    | BindSeal(bound: Epoch)
    | BindDone(bound: Epoch, ok: bool)
      // Prepared: one exchange.
    | PrepareStart
    | PrepareDone(ok: bool)
      // Publish: exchange, write both times, exchange.
    | PublishStart(now: nat, limit: nat)
    | PublishTime(now: nat, limit: nat)
    | PublishLimit(now: nat, limit: nat)
    | PublishSeal(now: nat, limit: nat)
    | PublishDone(now: nat, limit: nat, ok: bool)
      // Stop: one fetch-or.
    | StopStart
    | StopDone(first: bool)
      // ClaimEntry: compare the work, load the word, read the epoch, read the
      // two times, then either stop the gate or exchange.
    | ClaimStart(claim: Claim)
    | ClaimLoad(claim: Claim)
    | ClaimEpoch(claim: Claim, word: Word)
    | ClaimTime(claim: Claim, word: Word)
    | ClaimLimit(claim: Claim, word: Word)
    | ClaimExpire(claim: Claim)
    | ClaimEnter(claim: Claim, word: Word)
    | ClaimDone(claim: Claim, result: Entry)

  predicate Starting(t: Thread) {
    t.BindStart? || t.PrepareStart? || t.PublishStart? || t.StopStart? || t.ClaimStart?
  }

  /** What a claim does after its load of the word, up to the first read of a time. */
  function AfterLoad(g: Shared, c: Claim, word: Word): Thread {
    if g.epoch != c.epoch then ClaimDone(c, Foreign)
    else if word.stopped then ClaimDone(c, Closed)
    else if word.entered then ClaimDone(c, AlreadyEntered)
    else if !word.released then ClaimDone(c, NotReleased)
    else ClaimTime(c, word)
  }

  /** One step of one thread. A finished thread does nothing. */
  function Advance(g: Shared, t: Thread): (Shared, Thread) {
    match t
    case BindStart(e) =>
      if g.flags == ZERO then (g.(flags := BINDING), BindWrite(e)) else (g, BindDone(e, false))
    case BindWrite(e) => (g.(epoch := e), BindSeal(e))
    case BindSeal(e) =>
      if g.flags == BINDING then (g.(flags := BOUND), BindDone(e, true)) else (g, BindDone(e, false))
    case PrepareStart =>
      if g.flags == BOUND then (g.(flags := PREPARED), PrepareDone(true)) else (g, PrepareDone(false))
    case PublishStart(now, limit) =>
      if g.flags == PREPARED
      then (g.(flags := PUBLISHING), PublishTime(now, limit))
      else (g, PublishDone(now, limit, false))
    case PublishTime(now, limit) => (g.(releasedAt := now), PublishLimit(now, limit))
    case PublishLimit(now, limit) => (g.(deadline := limit), PublishSeal(now, limit))
    case PublishSeal(now, limit) =>
      if g.flags == PUBLISHING
      then (g.(flags := RELEASED), PublishDone(now, limit, true))
      else (g, PublishDone(now, limit, false))
    case StopStart => (g.(flags := g.flags.(stopped := true)), StopDone(!g.flags.stopped))
    case ClaimStart(c) => (g, if g.work != c.work then ClaimDone(c, Foreign) else ClaimLoad(c))
    case ClaimLoad(c) =>
      (g, if g.flags.bound then ClaimEpoch(c, g.flags)
          else ClaimDone(c, if g.flags.stopped then Closed else NotReleased))
    case ClaimEpoch(c, word) => (g, AfterLoad(g, c, word))
    case ClaimTime(c, word) => (g, if c.now < g.releasedAt then ClaimExpire(c) else ClaimLimit(c, word))
    case ClaimLimit(c, word) => (g, if c.now >= g.deadline then ClaimExpire(c) else ClaimEnter(c, word))
    case ClaimExpire(c) => (g.(flags := g.flags.(stopped := true)), ClaimDone(c, Expired))
    case ClaimEnter(c, word) =>
      if g.flags == word then (g.(flags := word.(entered := true)), ClaimDone(c, Claimed))
      else (g, ClaimDone(c, if g.flags.stopped then Closed else AlreadyEntered))
    case _ => (g, t)
  }

  datatype State = State(shared: Shared, threads: seq<Thread>)

  datatype Choice = Spawn(t: Thread) | Run(i: nat)

  function Next(s: State, c: Choice): State {
    match c
    case Spawn(t) => if Starting(t) then s.(threads := s.threads + [t]) else s
    case Run(i) =>
      if i < |s.threads| then
        var (g, t) := Advance(s.shared, s.threads[i]);
        State(g, s.threads[i := t])
      else s
  }

  function Exec(s: State, schedule: seq<Choice>): State
    decreases |schedule|
  {
    if schedule == [] then s else Exec(Next(s, schedule[0]), schedule[1..])
  }

  /** A newly reserved gate: word zero, no epoch, no times, no thread. */
  function Reserved(work: Identity): State {
    State(Shared(ZERO, work, Epoch(0, 0, -1), 0, 0), [])
  }

  // What the threads of a reachable state know about the shared mapping.

  predicate Binder(t: Thread) { t.BindWrite? || t.BindSeal? || (t.BindDone? && t.ok) }

  predicate Publisher(t: Thread) {
    t.PublishTime? || t.PublishLimit? || t.PublishSeal? || (t.PublishDone? && t.ok)
  }

  predicate HasEntered(t: Thread) { t.ClaimDone? && t.result == Claimed }

  predicate FirstStopper(t: Thread) { t.StopDone? && t.first }

  /** The claim names this gate's work and its bound epoch. */
  predicate Names(g: Shared, c: Claim) {
    c.work == g.work && g.flags.bound && c.epoch == g.epoch
  }

  predicate InTime(g: Shared, now: nat) { g.releasedAt <= now < g.deadline }

  ghost predicate Knows(g: Shared, t: Thread) {
    match t
    case BindWrite(e) => Base(g.flags) == BINDING
    case BindSeal(e) => Base(g.flags) == BINDING && g.epoch == e
    case BindDone(e, ok) => ok ==> g.flags.bound && g.epoch == e
    case PrepareDone(ok) => ok ==> g.flags.prepared
    case PublishTime(now, limit) => Base(g.flags) == PUBLISHING
    case PublishLimit(now, limit) => Base(g.flags) == PUBLISHING && g.releasedAt == now
    case PublishSeal(now, limit) =>
      Base(g.flags) == PUBLISHING && g.releasedAt == now && g.deadline == limit
    case PublishDone(now, limit, ok) =>
      ok ==> g.flags.released && g.releasedAt == now && g.deadline == limit
    case StopDone(first) => g.flags.stopped
    case ClaimLoad(c) => c.work == g.work
    case ClaimEpoch(c, word) =>
      && c.work == g.work && ValidWord(word) && word.bound && g.flags.bound
      && (word.released ==> g.flags.released)
      && (word.entered ==> g.flags.entered)
      && (word.stopped ==> g.flags.stopped)
    case ClaimTime(c, word) => word == RELEASED && Names(g, c) && g.flags.released
    case ClaimLimit(c, word) => word == RELEASED && Names(g, c) && g.flags.released && g.releasedAt <= c.now
    case ClaimExpire(c) => Names(g, c) && g.flags.released && !InTime(g, c.now)
    case ClaimEnter(c, word) => word == RELEASED && Names(g, c) && g.flags.released && InTime(g, c.now)
    case ClaimDone(c, result) =>
      (match result
       case Claimed => Names(g, c) && g.flags.entered && InTime(g, c.now)
       case Closed => c.work == g.work && g.flags.stopped
       case Expired => Names(g, c) && g.flags.stopped && g.flags.released && !InTime(g, c.now)
       case Foreign => c.work != g.work || (g.flags.bound && c.epoch != g.epoch)
       case AlreadyEntered => Names(g, c) && g.flags.entered
       case NotReleased => c.work == g.work)
    case _ => true
  }

  ghost predicate AtMostOne(threads: seq<Thread>, p: Thread -> bool) {
    forall i, j :: 0 <= i < |threads| && 0 <= j < |threads| && p(threads[i]) && p(threads[j]) ==> i == j
  }

  ghost predicate SomeThread(threads: seq<Thread>, p: Thread -> bool) {
    exists i :: 0 <= i < |threads| && p(threads[i])
  }

  ghost predicate Safe(s: State) {
    var g := s.shared;
    && ValidWord(g.flags)
    && (forall i :: 0 <= i < |s.threads| ==> Knows(g, s.threads[i]))
    && AtMostOne(s.threads, Binder)
    && AtMostOne(s.threads, Publisher)
    && AtMostOne(s.threads, HasEntered)
    && AtMostOne(s.threads, FirstStopper)
    && (g.flags.bound ==> SomeThread(s.threads, Binder))
    && (g.flags.released ==> SomeThread(s.threads, Publisher))
    && (g.flags.entered ==> SomeThread(s.threads, HasEntered))
  }

  /** What any step leaves alone, whichever thread takes it. */
  ghost predicate Grows(g: Shared, g': Shared) {
    && g'.work == g.work
    && (g.flags.stopped ==> g'.flags == g.flags)
    && (g.flags.bound ==> g'.flags.bound && g'.epoch == g.epoch)
    && (g.flags.prepared ==> g'.flags.prepared)
    && (g.flags.released ==> g'.flags.released && g'.releasedAt == g.releasedAt && g'.deadline == g.deadline)
    && (g.flags.entered ==> g'.flags.entered)
  }

  lemma AdvanceGrows(g: Shared, t: Thread)
    requires ValidWord(g.flags) && Knows(g, t)
    ensures ValidWord(Advance(g, t).0.flags)
    ensures Grows(g, Advance(g, t).0)
  {
  }

  predicate Claims(t: Thread) {
    || t.ClaimStart? || t.ClaimLoad? || t.ClaimEpoch? || t.ClaimTime? || t.ClaimLimit? || t.ClaimExpire?
    || t.ClaimEnter? || t.ClaimDone?
  }

  lemma AdvanceKnowsClaim(g: Shared, t: Thread)
    requires ValidWord(g.flags) && Knows(g, t) && Claims(t)
    ensures Knows(Advance(g, t).0, Advance(g, t).1)
  {
  }

  lemma AdvanceKnowsOther(g: Shared, t: Thread)
    requires ValidWord(g.flags) && Knows(g, t) && !Claims(t)
    ensures Knows(Advance(g, t).0, Advance(g, t).1)
  {
  }

  lemma AdvanceKnows(g: Shared, t: Thread)
    requires ValidWord(g.flags) && Knows(g, t)
    ensures Knows(Advance(g, t).0, Advance(g, t).1)
  {
    hide Advance, Knows, ValidWord;
    if Claims(t) { AdvanceKnowsClaim(g, t); } else { AdvanceKnowsOther(g, t); }
  }

  /** A step of one thread leaves what another thread knows intact. */
  lemma AdvanceKeepsOthers(g: Shared, t: Thread, u: Thread)
    requires ValidWord(g.flags) && Knows(g, t) && Knows(g, u)
    requires !(Binder(t) && Binder(u)) && !(Publisher(t) && Publisher(u))
    ensures Knows(Advance(g, t).0, u)
  {
  }

  /** A thread becomes a binder, a publisher, an entrant or a first stopper only
      from a word that no thread in that role can have left. */
  lemma AdvanceRoles(g: Shared, t: Thread)
    ensures var t' := Advance(g, t).1;
            && (Binder(t') ==> Binder(t) || g.flags == ZERO)
            && (Publisher(t') ==> Publisher(t) || g.flags == PREPARED)
            && (HasEntered(t') ==> HasEntered(t) || (t.ClaimEnter? && g.flags == t.word))
            && (FirstStopper(t') ==> FirstStopper(t) || !g.flags.stopped)
  {
  }

  lemma RolesMark(g: Shared, t: Thread)
    requires Knows(g, t)
    ensures Binder(t) ==> g.flags != ZERO
    ensures Publisher(t) ==> g.flags != PREPARED
    ensures HasEntered(t) ==> g.flags.entered
    ensures t.ClaimEnter? ==> t.word == RELEASED
    ensures FirstStopper(t) ==> g.flags.stopped
  {
  }

  lemma AdvanceEvidence(g: Shared, t: Thread)
    requires ValidWord(g.flags) && Knows(g, t)
    ensures var (g', t') := Advance(g, t);
            && (g'.flags.bound && !g.flags.bound ==> Binder(t'))
            && (g'.flags.released && !g.flags.released ==> Publisher(t'))
            && (g'.flags.entered && !g.flags.entered ==> HasEntered(t'))
            && (g.flags.bound && Binder(t) ==> Binder(t'))
            && (g.flags.released && Publisher(t) ==> Publisher(t'))
            && (HasEntered(t) ==> HasEntered(t'))
  {
  }

  lemma SpawnSafe(s: State, t: Thread)
    requires Safe(s) && Starting(t)
    ensures Safe(s.(threads := s.threads + [t]))
  {
    StartingIsNew(s.shared, t);
    hide Knows, Starting, Binder, Publisher, HasEntered, FirstStopper, ValidWord;
    var threads := s.threads + [t];
    EvidenceSurvives(s.threads, threads, Binder);
    EvidenceSurvives(s.threads, threads, Publisher);
    EvidenceSurvives(s.threads, threads, HasEntered);
    assert forall i :: 0 <= i < |threads| ==> threads[i] == if i < |s.threads| then s.threads[i] else t;
  }

  lemma StartingIsNew(g: Shared, t: Thread)
    requires Starting(t)
    ensures Knows(g, t) && !Binder(t) && !Publisher(t) && !HasEntered(t) && !FirstStopper(t)
  {
  }

  lemma NextSafe(s: State, c: Choice)
    requires Safe(s)
    ensures Safe(Next(s, c))
    ensures Grows(s.shared, Next(s, c).shared)
  {
    match c
    case Run(i) => if i < |s.threads| { RunSafe(s, i); }
    case Spawn(t) => if Starting(t) { SpawnSafe(s, t); }
  }

  lemma EvidenceSurvives(before: seq<Thread>, after: seq<Thread>, p: Thread -> bool)
    requires |before| <= |after|
    requires forall i :: 0 <= i < |before| && p(before[i]) ==> p(after[i])
    ensures SomeThread(before, p) ==> SomeThread(after, p)
  {
    if SomeThread(before, p) {
      var i :| 0 <= i < |before| && p(before[i]);
      assert p(after[i]);
    }
  }

  lemma RunKnows(s: State, i: nat)
    requires Safe(s) && i < |s.threads|
    ensures var s' := Next(s, Run(i));
            forall j :: 0 <= j < |s'.threads| ==> Knows(s'.shared, s'.threads[j])
  {
    var s' := Next(s, Run(i));
    AdvanceKnows(s.shared, s.threads[i]);
    forall j | 0 <= j < |s.threads|
      ensures Knows(s'.shared, s'.threads[j])
    {
      if j != i {
        AdvanceKeepsOthers(s.shared, s.threads[i], s.threads[j]);
      }
    }
  }

  lemma RunUnique(s: State, i: nat)
    requires Safe(s) && i < |s.threads|
    ensures var s' := Next(s, Run(i));
            && AtMostOne(s'.threads, Binder) && AtMostOne(s'.threads, Publisher)
            && AtMostOne(s'.threads, HasEntered) && AtMostOne(s'.threads, FirstStopper)
  {
    var t' := Advance(s.shared, s.threads[i]).1;
    AdvanceRoles(s.shared, s.threads[i]);
    RolesMark(s.shared, s.threads[i]);
    forall j | 0 <= j < |s.threads| && j != i
      ensures !(Binder(t') && Binder(s.threads[j])) && !(Publisher(t') && Publisher(s.threads[j]))
      ensures !(HasEntered(t') && HasEntered(s.threads[j])) && !(FirstStopper(t') && FirstStopper(s.threads[j]))
    {
      RolesMark(s.shared, s.threads[j]);
    }
  }

  lemma RunSafe(s: State, i: nat)
    requires Safe(s) && i < |s.threads|
    ensures Safe(Next(s, Run(i)))
    ensures Grows(s.shared, Next(s, Run(i)).shared)
  {
    AdvanceGrows(s.shared, s.threads[i]);
    RunKnows(s, i);
    RunUnique(s, i);
    RunEvidence(s, i);
  }

  lemma RunEvidence(s: State, i: nat)
    requires Safe(s) && i < |s.threads|
    ensures var s' := Next(s, Run(i));
            && (s'.shared.flags.bound ==> SomeThread(s'.threads, Binder))
            && (s'.shared.flags.released ==> SomeThread(s'.threads, Publisher))
            && (s'.shared.flags.entered ==> SomeThread(s'.threads, HasEntered))
  {
    var s' := Next(s, Run(i));
    AdvanceEvidence(s.shared, s.threads[i]);
    if s.shared.flags.bound { EvidenceSurvives(s.threads, s'.threads, Binder); }
    if s.shared.flags.released { EvidenceSurvives(s.threads, s'.threads, Publisher); }
    if s.shared.flags.entered { EvidenceSurvives(s.threads, s'.threads, HasEntered); }
    if s'.shared.flags.bound && !s.shared.flags.bound { assert Binder(s'.threads[i]); }
    if s'.shared.flags.released && !s.shared.flags.released { assert Publisher(s'.threads[i]); }
    if s'.shared.flags.entered && !s.shared.flags.entered { assert HasEntered(s'.threads[i]); }
  }

  lemma {:induction false} ExecSafe(s: State, schedule: seq<Choice>)
    requires Safe(s)
    ensures Safe(Exec(s, schedule))
    ensures Grows(s.shared, Exec(s, schedule).shared)
    decreases |schedule|
  {
    if schedule != [] {
      NextSafe(s, schedule[0]);
      ExecSafe(Next(s, schedule[0]), schedule[1..]);
    }
  }

  /** The state a schedule leads to from a newly reserved gate. */
  function Reached(work: Identity, schedule: seq<Choice>): State {
    Exec(Reserved(work), schedule)
  }

  lemma ReachedSafe(work: Identity, schedule: seq<Choice>)
    ensures Safe(Reached(work, schedule))
    ensures Reached(work, schedule).shared.work == work
  {
    ExecSafe(Reserved(work), schedule);
  }

  // The promises of the gate, over every schedule.

  /** The stored number is one of the fourteen that a later adoption accepts. */
  lemma WordKeepsItsShape(work: Identity, schedule: seq<Choice>)
    ensures Flags(Reached(work, schedule).shared.flags)
              in {0, 1, 2, 6, 14, 22, 54, 64, 65, 66, 70, 78, 86, 118}
  {
    ReachedSafe(work, schedule);
  }

  /** At most one claim ever returns Entered, and at most one Stop is told it came
      first. The Entered bit is set exactly when some claim has entered. */
  lemma AtMostOneEntry(work: Identity, schedule: seq<Choice>, i: nat, j: nat)
    requires i < |Reached(work, schedule).threads| && j < |Reached(work, schedule).threads|
    ensures var threads := Reached(work, schedule).threads;
            && (HasEntered(threads[i]) && HasEntered(threads[j]) ==> i == j)
            && (FirstStopper(threads[i]) && FirstStopper(threads[j]) ==> i == j)
    ensures var s := Reached(work, schedule);
            s.shared.flags.entered <==> exists k :: 0 <= k < |s.threads| && HasEntered(s.threads[k])
  {
    ReachedSafe(work, schedule);
  }

  lemma NoEntryWhileStopped(s: State, c: Choice)
    requires Safe(s) && s.shared.flags.stopped
    ensures |s.threads| <= |Next(s, c).threads|
    ensures forall i :: 0 <= i < |Next(s, c).threads| && HasEntered(Next(s, c).threads[i]) ==>
                          i < |s.threads| && HasEntered(s.threads[i])
  {
    if c.Run? && c.i < |s.threads| {
      AdvanceRoles(s.shared, s.threads[c.i]);
      RolesMark(s.shared, s.threads[c.i]);
    }
  }

  /** Once any Stop or expired claim has set the bit, the word never changes
      again, and no claim that had not entered by then ever enters. */
  lemma {:induction false} NoEntryAfterStop(s: State, later: seq<Choice>)
    requires Safe(s) && s.shared.flags.stopped
    ensures var s' := Exec(s, later);
            && s'.shared.flags == s.shared.flags
            && |s.threads| <= |s'.threads|
            && (forall i :: 0 <= i < |s'.threads| && HasEntered(s'.threads[i]) ==>
                              i < |s.threads| && HasEntered(s.threads[i]))
    decreases |later|
  {
    if later != [] {
      NextSafe(s, later[0]);
      NoEntryWhileStopped(s, later[0]);
      NoEntryAfterStop(Next(s, later[0]), later[1..]);
    }
  }

  /** A claim that entered named the gate's own work and the one epoch a Bind
      put there, at a time inside the window of the one Publish that succeeded. */
  lemma EntryHasItsAuthority(work: Identity, schedule: seq<Choice>, i: nat)
    requires i < |Reached(work, schedule).threads| && HasEntered(Reached(work, schedule).threads[i])
    ensures var threads := Reached(work, schedule).threads;
            var c := threads[i].claim;
            && c.work == work
            && (exists b :: 0 <= b < |threads| && threads[b] == BindDone(c.epoch, true))
            && (exists p :: 0 <= p < |threads| && threads[p].PublishDone? && threads[p].ok
                            && threads[p].now <= c.now < threads[p].limit)
  {
    ReachedSafe(work, schedule);
    var s := Reached(work, schedule);
    var b :| 0 <= b < |s.threads| && Binder(s.threads[b]);
    assert Knows(s.shared, s.threads[b]);
    assert s.threads[b] == BindDone(s.threads[i].claim.epoch, true);
    var p :| 0 <= p < |s.threads| && Publisher(s.threads[p]);
    assert Knows(s.shared, s.threads[p]);
    assert s.threads[p] == PublishDone(s.shared.releasedAt, s.shared.deadline, true);
  }

  lemma {:induction false} ExecLast(s: State, schedule: seq<Choice>)
    requires schedule != []
    ensures Exec(s, schedule) == Next(Exec(s, schedule[..|schedule| - 1]), schedule[|schedule| - 1])
    decreases |schedule|
  {
    hide Next;
    var n := |schedule| - 1;
    if n == 0 {
      assert schedule[..0] == [] && schedule[1..] == [];
    } else {
      ExecLast(Next(s, schedule[0]), schedule[1..]);
      assert schedule[1..][..n - 1] == schedule[..n][1..];
    }
  }

  /** At some point of the run this thread was about to load the word, which then was this one. */
  ghost predicate LoadedIn(work: Identity, schedule: seq<Choice>, i: nat, c: Claim, word: Word) {
    exists k :: 0 <= k <= |schedule| && LoadsAt(Reached(work, schedule[..k]), i, c, word)
  }

  predicate LoadsAt(s: State, i: nat, c: Claim, word: Word) {
    i < |s.threads| && s.threads[i] == ClaimLoad(c) && s.shared.flags == word
  }

  lemma LoadedBefore(work: Identity, schedule: seq<Choice>, i: nat, c: Claim, word: Word)
    requires schedule != [] && LoadedIn(work, schedule[..|schedule| - 1], i, c, word)
    ensures LoadedIn(work, schedule, i, c, word)
  {
    var front := schedule[..|schedule| - 1];
    var k :| 0 <= k <= |front| && LoadsAt(Reached(work, front[..k]), i, c, word);
    assert front[..k] == schedule[..k];
  }

  /** Where a claim comes from that goes by a word, or was told NotReleased. */
  lemma ClaimStep(s: State, c: Choice, i: nat)
    requires ValidWord(s.shared.flags) && i < |Next(s, c).threads|
    ensures var t := Next(s, c).threads[i];
            && (t.ClaimEpoch? ==>
                  i < |s.threads| && (s.threads[i] == t || LoadsAt(s, i, t.claim, t.word)))
            && (t.ClaimDone? && t.result == NotReleased ==>
                  && i < |s.threads|
                  && var u := s.threads[i];
                     || u == t
                     || (LoadsAt(s, i, t.claim, s.shared.flags) && !s.shared.flags.released && !s.shared.flags.stopped)
                     || (u.ClaimEpoch? && u.claim == t.claim && !u.word.released && !u.word.stopped))
  {
  }

  /** The word a claim goes by is one it loaded, and NotReleased tells of such a word. */
  lemma {:induction false} ClaimsLoaded(work: Identity, schedule: seq<Choice>, i: nat)
    requires i < |Reached(work, schedule).threads|
    ensures var t := Reached(work, schedule).threads[i];
            && (t.ClaimEpoch? ==> LoadedIn(work, schedule, i, t.claim, t.word))
            && (t.ClaimDone? && t.result == NotReleased ==>
                  exists word: Word :: !word.released && !word.stopped && LoadedIn(work, schedule, i, t.claim, word))
    decreases |schedule|
  {
    hide LoadedIn, Safe, Next;
    if schedule != [] {
      var front := schedule[..|schedule| - 1];
      var was := Reached(work, front);
      ReachedWord(work, front);
      ExecLast(Reserved(work), schedule);
      ClaimStep(was, schedule[|schedule| - 1], i);
      if i < |was.threads| {
        ClaimsLoaded(work, front, i);
        if was.threads[i].ClaimLoad? { LoadedNow(work, schedule, i); }
        forall c, word | LoadedIn(work, front, i, c, word)
          ensures LoadedIn(work, schedule, i, c, word)
        {
          LoadedBefore(work, schedule, i, c, word);
        }
      }
    }
  }

  lemma ReachedWord(work: Identity, schedule: seq<Choice>)
    ensures ValidWord(Reached(work, schedule).shared.flags)
  {
    ReachedSafe(work, schedule);
  }

  lemma LoadedNow(work: Identity, schedule: seq<Choice>, i: nat)
    requires schedule != []
    requires var was := Reached(work, schedule[..|schedule| - 1]); i < |was.threads| && was.threads[i].ClaimLoad?
    ensures var was := Reached(work, schedule[..|schedule| - 1]);
            LoadedIn(work, schedule, i, was.threads[i].claim, was.shared.flags)
  {
    var was := Reached(work, schedule[..|schedule| - 1]);
    assert LoadsAt(was, i, was.threads[i].claim, was.shared.flags);
  }

  /** Every refusal of a claim is true: another claim holds the entry, the gate is
      stopped for ever, the time lies outside the published window, the claim
      names another work or epoch, or the word it loaded was not yet released. */
  lemma RefusalsAreTruthful(work: Identity, schedule: seq<Choice>, i: nat)
    requires i < |Reached(work, schedule).threads| && Reached(work, schedule).threads[i].ClaimDone?
    ensures var s := Reached(work, schedule);
            var t := s.threads[i];
            && (t.result == AlreadyEntered ==>
                  exists j :: 0 <= j < |s.threads| && j != i && HasEntered(s.threads[j]))
            && (t.result == Closed ==> s.shared.flags.stopped)
            && (t.result == Expired ==>
                  && s.shared.flags.stopped && s.shared.flags.released
                  && !(s.shared.releasedAt <= t.claim.now < s.shared.deadline))
            && (t.result == Foreign ==>
                  t.claim.work != work || (s.shared.flags.bound && t.claim.epoch != s.shared.epoch))
            && (t.result == NotReleased ==>
                  exists word: Word :: !word.released && !word.stopped && LoadedIn(work, schedule, i, t.claim, word))
  {
    ReachedSafe(work, schedule);
    var s := Reached(work, schedule);
    assert Knows(s.shared, s.threads[i]);
    ClaimsLoaded(work, schedule, i);
    if s.threads[i].result == AlreadyEntered {
      var j :| 0 <= j < |s.threads| && HasEntered(s.threads[j]);
      assert j != i;
    }
  }

  /** The epoch is fixed once Bound is visible, both times once Released is, and
      every one of those bits stays visible. */
  lemma FieldsStayFixed(work: Identity, schedule: seq<Choice>, later: seq<Choice>)
    ensures var g := Reached(work, schedule).shared;
            var g' := Exec(Reached(work, schedule), later).shared;
            && (g.flags.bound ==> g'.flags.bound && g'.epoch == g.epoch)
            && (g.flags.released ==>
                  g'.flags.released && g'.releasedAt == g.releasedAt && g'.deadline == g.deadline)
            && (g.flags.entered ==> g'.flags.entered)
  {
    ReachedSafe(work, schedule);
    ExecSafe(Reached(work, schedule), later);
  }

  predicate WritesEpoch(t: Thread) { t.BindWrite? }
  predicate ReadsEpoch(t: Thread) { t.ClaimEpoch? }
  predicate WritesTimes(t: Thread) { t.PublishTime? || t.PublishLimit? }
  predicate ReadsTimes(t: Thread) { t.ClaimTime? || t.ClaimLimit? }

  /** The plain fields need no lock: no thread is ever about to write one while
      another is about to read or write it. */
  lemma PlainFieldsDoNotRace(work: Identity, schedule: seq<Choice>, i: nat, j: nat)
    requires i < |Reached(work, schedule).threads| && j < |Reached(work, schedule).threads| && i != j
    ensures var t, u := Reached(work, schedule).threads[i], Reached(work, schedule).threads[j];
            && !(WritesEpoch(t) && (WritesEpoch(u) || ReadsEpoch(u)))
            && !(WritesTimes(t) && (WritesTimes(u) || ReadsTimes(u)))
  {
    ReachedSafe(work, schedule);
    var s := Reached(work, schedule);
    assert Knows(s.shared, s.threads[i]) && Knows(s.shared, s.threads[j]);
  }

  // What an operation does when no other thread moves between its steps.

  function Finish(g: Shared, t: Thread, fuel: nat): (Shared, Thread)
    decreases fuel
  {
    if fuel == 0 then (g, t) else var (g', t') := Advance(g, t); Finish(g', t', fuel - 1)
  }

  /** Undisturbed, a claim enters exactly when the word is Released without Stop
      or Entered, the work and epoch are the gate's and the time is in the
      published window; it stops the gate exactly when only the time is wrong. */
  lemma UndisturbedClaim(g: Shared, c: Claim)
    requires ValidWord(g.flags)
    ensures var (g', t') := Finish(g, ClaimStart(c), 6);
            && t'.ClaimDone?
            && (t'.result == Claimed <==> g.flags == RELEASED && Names(g, c) && InTime(g, c.now))
            && (t'.result == Expired <==> g.flags == RELEASED && Names(g, c) && !InTime(g, c.now))
            && (t'.result == AlreadyEntered <==> g.flags == ENTERED && Names(g, c))
            && (t'.result == Foreign <==> c.work != g.work || (g.flags.bound && c.epoch != g.epoch))
            && (t'.result == Closed <==>
                  g.flags.stopped && c.work == g.work && (g.flags.bound ==> c.epoch == g.epoch))
            && g' == (if t'.result == Claimed then g.(flags := ENTERED)
                      else if t'.result == Expired then g.(flags := g.flags.(stopped := true)) else g)
  {
    hide Finish;
    OneStep(g, ClaimStart(c), 6);
    if c.work == g.work {
      OneStep(g, ClaimLoad(c), 5);
      if g.flags.bound {
        OneStep(g, ClaimEpoch(c, g.flags), 4);
        var t := AfterLoad(g, c, g.flags);
        if t.ClaimDone? { Finished(g, t, 3); } else { UndisturbedWindow(g, c, t); }
      } else {
        Finished(g, Advance(g, ClaimLoad(c)).1, 4);
      }
    } else {
      Finished(g, ClaimDone(c, Foreign), 5);
    }
  }

  lemma OneStep(g: Shared, t: Thread, fuel: nat)
    requires fuel > 0
    ensures Finish(g, t, fuel) == Finish(Advance(g, t).0, Advance(g, t).1, fuel - 1)
  {
  }

  /** The last steps of a claim that found the gate released to it. */
  lemma UndisturbedWindow(g: Shared, c: Claim, t: Thread)
    requires ValidWord(g.flags) && g.flags.bound && t == AfterLoad(g, c, g.flags) && !t.ClaimDone?
    ensures Finish(g, t, 3) == if InTime(g, c.now) then (g.(flags := ENTERED), ClaimDone(c, Claimed))
                               else (g.(flags := g.flags.(stopped := true)), ClaimDone(c, Expired))
  {
    hide Finish;
    OneStep(g, t, 3);
    if g.releasedAt <= c.now {
      OneStep(g, ClaimLimit(c, g.flags), 2);
      OneStep(Advance(g, ClaimLimit(c, g.flags)).0, Advance(g, ClaimLimit(c, g.flags)).1, 1);
    } else {
      OneStep(g, ClaimExpire(c), 2);
      Finished(Advance(g, ClaimExpire(c)).0, Advance(g, ClaimExpire(c)).1, 1);
    }
    NoSteps(g.(flags := ENTERED), ClaimDone(c, Claimed));
    NoSteps(g.(flags := g.flags.(stopped := true)), ClaimDone(c, Expired));
  }

  lemma NoSteps(g: Shared, t: Thread)
    ensures Finish(g, t, 0) == (g, t)
  {
  }

  lemma Finished(g: Shared, t: Thread, fuel: nat)
    requires t.ClaimDone?
    ensures Finish(g, t, fuel) == (g, t)
  {
  }

  /** Undisturbed, Bind, Prepared and Publish each succeed from exactly one word
      and leave exactly the next one, with the fields they were given. */
  lemma UndisturbedAuthority(g: Shared, epoch: Epoch, now: nat, limit: nat)
    ensures var (b, bind) := Finish(g, BindStart(epoch), 3);
            && bind == BindDone(epoch, g.flags == ZERO)
            && b == if g.flags == ZERO then g.(flags := BOUND, epoch := epoch) else g
    ensures var (p, prepare) := Finish(g, PrepareStart, 1);
            && prepare == PrepareDone(g.flags == BOUND)
            && p == if g.flags == BOUND then g.(flags := PREPARED) else g
    ensures var (r, publish) := Finish(g, PublishStart(now, limit), 4);
            && publish == PublishDone(now, limit, g.flags == PREPARED)
            && r == if g.flags == PREPARED then g.(flags := RELEASED, releasedAt := now, deadline := limit) else g
  {
    var p1 := Advance(g, PublishStart(now, limit));
    var p2 := Advance(p1.0, p1.1);
    assert Finish(g, PublishStart(now, limit), 4) == Finish(p2.0, p2.1, 2);
  }
}
