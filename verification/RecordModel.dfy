/**
 The values of a registry record: its locked fields, the words it shares with
 every thread, and what holds of them whenever the record mutex is free.
 */
module RecordModel {
  import G = WorkGate
  import A = Authority

  datatype Source = Owner | Authority_ | Manager | BackendFailure

  /** The request word: the recorded sources and the completion bit. */
  datatype Requests = Requests(stops: set<Source>, complete: bool)

  datatype Initial = InitialNotRequested | InitialUnknown | InitialAbsent | Owned | Exited | Reaped

  datatype Scope = ScopeNotRequested | ScopeUnknown | ScopeAbsent | Captured | Reclaimed

  datatype Population = Unknown | Populated | Empty

  datatype Exit = NoExit | Code(value: int) | Signal(value: int)

  datatype Fact = FactAbsent | FactCaptured | FactUnknown

  datatype CleanupResult = Progress | Failed | CleanedUp

  datatype Fault = NoFault | UnknownResources | SequenceExhausted | InvalidAdmission

  datatype StartResult = Accepted | Existing | Conflict | Stale | Closed | WrongState | Capacity

  datatype ForgetResult = Forgotten | AlreadyForgotten | Incomplete

  datatype Snapshot = Snapshot(
    startAccepted: bool, admissionPending: bool, creatorPending: bool,
    admission: A.Outcome, initial: Initial, initialExit: Exit,
    scope: Scope, scopeIdentity: (nat, nat), population: Population,
    stopSources: set<Source>, blocked: bool, complete: bool, forgotten: bool,
    fault: Fault, launchError: int, cleanupError: int)

  /** The fields under the record mutex. */
  datatype Locked = Locked(
    state: Snapshot, description: seq<nat>, stdio: nat,
    sequence: nat, observation: nat, cleanup: nat,
    observationInvalid: bool, creatorCharged: bool, permanentFault: bool)

  /** The words that any thread may change: the requests, the gate and the budget in use. */
  datatype Shared = Shared(requests: Requests, gate: G.Shared, used: nat)

  /** What the shared words stand for: the Stop calls that returned true, and
      how many other records have a creator charged. */
  datatype Meaning = Meaning(firsts: multiset<Source>, others: nat)

  /** When things last happened, on a clock that ticks at each of these events:
      the creator finished, the initial process was accounted for, the newest
      observation was issued, the observation that found the scope empty was
      issued, what was known of the population came into doubt, the newest
      cleanup was issued. Also the tickets that took effect. */
  datatype Past = Past(
    now: nat, creator: nat, initial: nat, issue: nat, empty: nat, doubt: nat, cleanup: nat, ended: set<nat>)

  const EIO := 5

  const FRESH := Snapshot(
    false, false, false, A.Invalid, InitialNotRequested, NoExit, ScopeNotRequested, (0, 0), Unknown,
    {}, false, false, false, NoFault, 0, 0)

  predicate ExitValid(e: Exit) {
    match e
    case Code(v) => 0 <= v <= 255
    case Signal(v) => 0 < v <= 64
    case NoExit => false
  }

  predicate InitialAccounted(s: Snapshot) { s.initial == InitialAbsent || s.initial == Reaped }

  predicate BoundaryClosed(s: Snapshot) {
    s.startAccepted && !s.admissionPending && !s.creatorPending && InitialAccounted(s)
  }

  predicate InitialFits(s: Snapshot, f: Fact) {
    match f
    case FactCaptured => s.initial == Owned || s.initial == Exited || s.initial == Reaped
    case _ => s.initial == InitialUnknown
  }

  predicate ScopeFits(s: Snapshot, f: Fact) {
    match f
    case FactCaptured => s.scope == Captured
    case _ => s.scope == ScopeUnknown
  }

  /** Ready for an observation, and for a cleanup after one that found the scope empty. */
  predicate Observable(r: Locked) {
    && !r.state.complete && !r.permanentFault && BoundaryClosed(r.state) && r.state.scope == Captured
    && r.observation == 0 && r.cleanup == 0
  }

  predicate Reclaimable(r: Locked) { Observable(r) && r.state.population == Empty }

  /** What a report of finished admission amounts to. */
  datatype Verdict = Ignored | Contradictory | Go | Refused(outcome: A.Outcome)

  /** The locked fields with the creator's report noted. */
  function Noted(r: Locked, initial: Fact, scope: Fact, error: int): Locked {
    r.(state := r.state.(
      creatorPending := false,
      launchError := if error != 0 && r.state.launchError == 0 then error else r.state.launchError,
      initial := if initial == FactAbsent then InitialAbsent else r.state.initial,
      scope := if scope == FactAbsent then ScopeAbsent else r.state.scope))
  }

  function Quarantined(r: Locked, fault: Fault): Locked {
    r.(permanentFault := true, state := r.state.(fault := fault, blocked := true))
  }

  /** The locked fields once the creator has ceased, before any settling. */
  function Judged(r: Locked, initial: Fact, scope: Fact, error: int): Locked {
    var n := Noted(r, initial, scope, error);
    if initial == FactUnknown || scope == FactUnknown then Quarantined(n, UnknownResources) else n
  }

  lemma JudgedInitial(r: Locked, initial: Fact, scope: Fact, error: int)
    ensures Judged(r, initial, scope, error).state.initial ==
            if initial == FactAbsent then InitialAbsent else r.state.initial
    ensures Judged(r, initial, scope, error).creatorCharged == r.creatorCharged
  {
  }

  function Ended(r: Locked, initial: Fact, scope: Fact, error: int): Locked {
    Judged(r, initial, scope, error).(creatorCharged := false)
  }

  function PastEnded(p: Past, initial: Fact): Past {
    p.(now := p.now + 1, creator := p.now + 1, initial := if initial == FactAbsent then p.now + 1 else p.initial)
  }

  lemma EndedSound(r: Locked, a: Shared, p: Past, limit: nat, initial: Fact, scope: Fact, error: int, b: Shared)
    requires AdmissionSound(r, a) && TicketsSound(r, p, limit) && EvidenceSound(r, p) && CompletionSound(r, a)
    requires r.state.creatorPending && InitialFits(r.state, initial) && ScopeFits(r.state, scope)
    requires Later(a, b) && b.requests.complete == a.requests.complete
    requires initial == FactAbsent ==> b.gate.flags.stopped
    ensures var e := Ended(r, initial, scope, error);
            AdmissionSound(e, b) && TicketsSound(e, PastEnded(p, initial), limit)
            && EvidenceSound(e, PastEnded(p, initial)) && CompletionSound(e, b)
  {
    EndedFields(r, initial, scope, error);
    hide Ended;
    NothingOutstanding(r, p, limit);
    EndedAdmission(r, a, Ended(r, initial, scope, error), initial, scope, b);
    hide AdmissionSound;
  }

  /** While the creator is at work no ticket can be out. */
  lemma NothingOutstanding(r: Locked, p: Past, limit: nat)
    requires TicketsSound(r, p, limit) && r.state.creatorPending
    ensures r.observation == 0 && r.cleanup == 0 && r.state.population != Empty
  {
  }

  /** What the end of creation changes, and what it leaves. */
  ghost predicate EndOf(r: Locked, e: Locked, initial: Fact, scope: Fact) {
    && e.state.startAccepted == r.state.startAccepted && e.state.admissionPending == r.state.admissionPending
    && !e.state.creatorPending && !e.creatorCharged
    && e.state.initial == (if initial == FactAbsent then InitialAbsent else r.state.initial)
    && e.state.scope == (if scope == FactAbsent then ScopeAbsent else r.state.scope)
    && e.state.complete == r.state.complete && e.state.forgotten == r.state.forgotten
       && e.state.population == r.state.population
    && e.sequence == r.sequence && e.observation == r.observation && e.cleanup == r.cleanup
    && e.observationInvalid == r.observationInvalid
    && e.permanentFault == (r.permanentFault || initial == FactUnknown || scope == FactUnknown)
  }

  lemma NotedFields(r: Locked, initial: Fact, scope: Fact, error: int)
    ensures var n := Noted(r, initial, scope, error);
            EndOf(r.(permanentFault := false),
              n.(creatorCharged := false, permanentFault := initial == FactUnknown || scope == FactUnknown),
                  initial, scope)
            && n.permanentFault == r.permanentFault
  {
  }

  lemma EndedFields(r: Locked, initial: Fact, scope: Fact, error: int)
    ensures EndOf(r, Ended(r, initial, scope, error), initial, scope)
  {
    NotedFields(r, initial, scope, error);
    hide Noted;
  }

  lemma EndedAdmission(r: Locked, a: Shared, e: Locked, initial: Fact, scope: Fact, b: Shared)
    requires AdmissionSound(r, a) && r.state.creatorPending && InitialFits(r.state, initial)
             && ScopeFits(r.state, scope)
    requires Later(a, b) && (initial == FactAbsent ==> b.gate.flags.stopped)
    requires EndOf(r, e, initial, scope) && !r.state.complete
    ensures AdmissionSound(e, b)
  {
  }

  /** The shared words are well formed and mean what they should. */
  ghost predicate Coherent(charged: bool, a: Shared, m: Meaning, maximum: nat) {
    && m.firsts == multiset(a.requests.stops)
    && a.used == m.others + (if charged then 1 else 0)
    && a.used <= maximum
  }

  /** What every thread leaves alone in the shared words. */
  ghost predicate Later(a: Shared, b: Shared) {
    && G.Grows(a.gate, b.gate)
    && a.requests.stops <= b.requests.stops
    && (a.requests.complete ==> b.requests == a.requests)
  }

  /** Any number of such steps is again such a step. */
  lemma LaterIsTransitive(a: Shared, b: Shared, c: Shared)
    requires Later(a, b) && Later(b, c)
    ensures Later(a, c)
  {
  }

  ghost predicate AdmissionSound(r: Locked, a: Shared) {
    var s := r.state;
    && (r.creatorCharged <==> s.admissionPending || s.creatorPending)
    && (s.admissionPending ==> s.startAccepted && !s.creatorPending
                               && s.initial == InitialNotRequested && s.scope == ScopeNotRequested)
    && (s.creatorPending ==> s.startAccepted && s.initial != InitialNotRequested && s.initial != InitialAbsent
                             && (s.scope == ScopeUnknown || s.scope == Captured))
    && (!s.startAccepted ==>
          !r.permanentFault && (s.complete || (s.initial == InitialNotRequested && s.scope == ScopeNotRequested)))
    && (s.startAccepted && !s.admissionPending ==> s.initial != InitialNotRequested && s.scope != ScopeNotRequested)
    && (s.scope == Reclaimed ==> s.complete)
    && (s.initial == Exited || s.initial == Reaped || BoundaryClosed(s) ==> a.gate.flags.stopped)
    && (s.initial == InitialUnknown || s.scope == ScopeUnknown ==> s.creatorPending || r.permanentFault)
  }

  ghost predicate TicketsSound(r: Locked, p: Past, limit: nat) {
    var s := r.state;
    && r.sequence <= limit
    && r.observation <= r.sequence && r.cleanup <= r.sequence
    && !(r.observation != 0 && r.cleanup != 0)
    && (r.observation != 0 || r.cleanup != 0 ==>
          BoundaryClosed(s) && s.scope == Captured && !s.complete && !r.permanentFault)
    && (r.observation != 0 ==> s.population == Unknown)
    && (r.cleanup != 0 ==> s.population == Empty)
    && (s.population == Empty ==> BoundaryClosed(s))
    && (s.population != Unknown ==> s.scope == Captured || s.scope == Reclaimed)
    && r.observation !in p.ended && r.cleanup !in p.ended
    && (forall n :: n in p.ended ==> 0 < n <= r.sequence)
  }

  /** The order in which the evidence came about. */
  ghost predicate EvidenceSound(r: Locked, p: Past) {
    var s := r.state;
    && p.creator <= p.now && p.initial <= p.now && p.issue <= p.now && p.doubt <= p.now && p.empty <= p.now
    && (r.observation != 0 ==> p.creator < p.issue && p.initial < p.issue)
    && (r.observation != 0 && !r.observationInvalid ==> p.doubt == p.issue)
    && (s.population == Empty || s.scope == Reclaimed ==>
          p.creator < p.empty && p.initial < p.empty && p.doubt == p.empty)
    && (r.cleanup != 0 || s.scope == Reclaimed ==> p.empty < p.cleanup <= p.now)
  }

  /** A complete record is stopped, has nothing pending or outstanding and no
      fault, and its stop sources are those whose Stop call came first. */
  ghost predicate CompletionSound(r: Locked, a: Shared) {
    var s := r.state;
    && a.requests.complete == s.complete
    && (s.complete ==>
          && a.gate.flags.stopped
          && !s.admissionPending && !s.creatorPending && !s.blocked
          && InitialAccounted(s)
          && (s.scope == ScopeAbsent || s.scope == Reclaimed)
          && r.observation == 0 && r.cleanup == 0
          && !r.permanentFault
          && s.stopSources == a.requests.stops)
    && (s.forgotten ==> s.complete)
  }

  ghost predicate Sound(r: Locked, a: Shared, m: Meaning, p: Past, limit: nat, maximum: nat) {
    && Coherent(r.creatorCharged, a, m, maximum)
    && AdmissionSound(r, a) && TicketsSound(r, p, limit) && EvidenceSound(r, p) && CompletionSound(r, a)
  }

  /** A ticket is out only over a closed boundary, whose gate is stopped. */
  lemma TicketMeansStopped(r: Locked, a: Shared, m: Meaning, p: Past, limit: nat, maximum: nat)
    requires Sound(r, a, m, p, limit, maximum) && (r.observation != 0 || r.cleanup != 0)
    ensures a.gate.flags.stopped
  {
  }

  /** What every method keeps: a complete record changes only by being forgotten,
      a fault is permanent, what Start accepted stays accepted. */
  ghost predicate Kept(r: Locked, a: Shared, p: Past, r': Locked, a': Shared, p': Past) {
    && (r.state.complete ==> r' == r.(state := r.state.(forgotten := r'.state.forgotten)))
    && (r.state.forgotten ==> r'.state.forgotten)
    && (r.permanentFault ==> r'.permanentFault)
    && (r.state.startAccepted ==> r'.state.startAccepted && r'.description == r.description && r'.stdio == r.stdio)
    && p.ended <= p'.ended && r.sequence <= r'.sequence && p.now <= p'.now
    && Later(a, a')
  }

  /** What each method keeps, any number of them keeps. */
  lemma KeptIsTransitive(
    r: Locked, a: Shared, p: Past, r': Locked, a': Shared, p': Past, r'': Locked, a'': Shared, p'': Past)
    requires Kept(r, a, p, r', a', p') && Kept(r', a', p', r'', a'', p'')
    ensures Kept(r, a, p, r'', a'', p'')
  {
  }
}
