/**
 Stop requests against settling, start and cancellation of one record.

 Stop takes no lock: it loads the request word, retries a weak compare-exchange,
 then closes the gate. CancelUnstarted, Start, snapshots, Forget and the settling
 at the end of a work hold the record mutex, but every access of theirs to the
 request word or the gate is its own step, so any Stop step can fall between any
 two of them. The gate may also be closed by itself at any moment.
 */
module StopRace {
  import opened RecordModel

  /** One Stop call. */
  datatype Stopper =
    | Load(source: Source)
    | Try(source: Source, previous: Requests)
    | Close(source: Source, first: bool)
    | Returned(source: Source, first: bool)

  datatype Then = AfterCancel | AfterStart | AfterLook | AfterWork

  /** What the holder of the record mutex does next. */
  datatype Holder =
    | Free
    | CancelLoad
    | CancelTry(previous: Requests)
    | CancelClose
    | CancelCheck            // SettleUnstarted reads the gate
    | StartCheck             // SettleUnstarted reads the gate
    | LookCheck              // the same, for a snapshot or a Forget
    | StartClosed            // reads the gate, refuses if stopped
    | StartUnbound           // reads the gate again, then accepts
    | SettleClose(then_: Then)
    | SettleFreeze(then_: Then)

  datatype State = State(
    requests: Requests, stopped: bool,
    startAccepted: bool, complete: bool, stopSources: set<Source>,
    holder: Holder, stoppers: seq<Stopper>,
    managerFirsts: nat,      // cancellations whose own Stop came first
    cancelled: nat,          // CancelUnstarted calls that returned true
    accepted: nat)           // Start calls that returned Accepted

  datatype Choice =
    | Spawn(source: Source)
    | Run(i: nat, spurious: bool)      // a weak exchange may fail for no reason
    | Cancel
    | Start
    | Look                             // a snapshot or a Forget settles an unstarted record
    | StopGate                         // revocation, an expired claim or an exit closes the gate alone
    | Finish                           // settling of an accepted work
    | Hold(spurious: bool, unbound: bool)   // the holder's next step

  function Attempt(source: Source, previous: Requests): bool { !previous.complete && source !in previous.stops }

  /** The exchange of a Stop call that loaded previous succeeds now. */
  predicate Exchanges(t: Stopper, requests: Requests, spurious: bool) {
    t.Try? && Attempt(t.source, t.previous) && !spurious && requests == t.previous
  }

  function Advance(t: Stopper, requests: Requests, spurious: bool): Stopper {
    match t
    case Load(src) => Try(src, requests)
    case Try(src, previous) =>
      if !Attempt(src, previous) then Close(src, false)
      else if Exchanges(t, requests, spurious) then Close(src, true)
      else Try(src, requests)
    case Close(src, first) => Returned(src, first)
    case Returned(_, _) => t
  }

  function RunStopper(s: State, i: nat, spurious: bool): State
    requires i < |s.stoppers|
  {
    var t := s.stoppers[i];
    s.(stoppers := s.stoppers[i := Advance(t, s.requests, spurious)],
       stopped := s.stopped || t.Close?,
       requests := if Exchanges(t, s.requests, spurious)
                   then s.requests.(stops := s.requests.stops + {t.source}) else s.requests)
  }

  function Resume(s: State, t: Then): State {
    match t
    case AfterCancel => s.(holder := Free, cancelled := s.cancelled + 1)
    case AfterStart => s.(holder := StartClosed)
    case AfterLook => s.(holder := Free)
    case AfterWork => s.(holder := Free)
  }

  function HolderStep(s: State, spurious: bool, unbound: bool): State {
    match s.holder
    case Free => s
    case CancelLoad => s.(holder := CancelTry(s.requests))
    case CancelTry(previous) =>
      if !Attempt(Manager, previous) then s.(holder := CancelClose)
      else if spurious || s.requests != previous then s.(holder := CancelTry(s.requests))
      else s.(requests := previous.(stops := previous.stops + {Manager}), holder := CancelClose,
              managerFirsts := s.managerFirsts + 1)
    case CancelClose => s.(stopped := true, holder := CancelCheck)
    case CancelCheck =>
      if !s.complete && s.stopped then s.(holder := SettleClose(AfterCancel)) else Resume(s, AfterCancel)
    case StartCheck =>
      if !s.complete && s.stopped then s.(holder := SettleClose(AfterStart)) else Resume(s, AfterStart)
    case LookCheck =>
      if !s.startAccepted && !s.complete && s.stopped then s.(holder := SettleClose(AfterLook))
      else Resume(s, AfterLook)
    case StartClosed => s.(holder := if s.complete || s.stopped then Free else StartUnbound)
    case StartUnbound =>
      if unbound && !s.stopped then s.(holder := Free, startAccepted := true, accepted := s.accepted + 1)
      else s.(holder := Free)
    case SettleClose(t) => s.(stopped := true, holder := SettleFreeze(t))
    case SettleFreeze(t) =>
      Resume(s.(stopSources := s.requests.stops, requests := s.requests.(complete := true), complete := true), t)
  }

  function Next(s: State, c: Choice): State {
    match c
    case Spawn(src) => s.(stoppers := s.stoppers + [Load(src)])
    case Run(i, spurious) => if i < |s.stoppers| then RunStopper(s, i, spurious) else s
    case Cancel => if s.holder == Free && !s.startAccepted then s.(holder := CancelLoad) else s
    case Start => if s.holder == Free && !s.startAccepted then s.(holder := StartCheck) else s
    case Look => if s.holder == Free then s.(holder := LookCheck) else s
    case StopGate => s.(stopped := true)
    case Finish =>
      if s.holder == Free && s.startAccepted && !s.complete then s.(holder := SettleClose(AfterWork)) else s
    case Hold(spurious, unbound) => HolderStep(s, spurious, unbound)
  }

  function Exec(s: State, schedule: seq<Choice>): State
    decreases |schedule|
  {
    if schedule == [] then s else Exec(Next(s, schedule[0]), schedule[1..])
  }

  const INITIAL := State(Requests({}, false), false, false, false, {}, Free, [], 0, 0, 0)

  predicate Won(t: Stopper) { (t.Close? || t.Returned?) && t.first }

  /** How many calls recorded this source: Stop calls, and cancellations for Manager. */
  function Winners(stoppers: seq<Stopper>, source: Source): nat {
    if stoppers == [] then 0
    else Winners(stoppers[..|stoppers| - 1], source)
         + if Won(stoppers[|stoppers| - 1]) && stoppers[|stoppers| - 1].source == source then 1 else 0
  }

  function Recorded(s: State, source: Source): nat {
    Winners(s.stoppers, source) + if source == Manager then s.managerFirsts else 0
  }

  predicate StopperSound(s: State, t: Stopper) {
    match t
    case Try(src, previous) => previous.stops <= s.requests.stops && (previous.complete ==> s.requests.complete)
    case Returned(_, _) => s.stopped
    case _ => true
  }

  predicate HolderSound(s: State) {
    match s.holder
    case CancelLoad => !s.startAccepted
    case CancelTry(previous) =>
      !s.startAccepted && previous.stops <= s.requests.stops && (previous.complete ==> s.requests.complete)
    case CancelClose => !s.startAccepted
    case CancelCheck => !s.startAccepted && s.stopped
    case StartCheck => !s.startAccepted
    case LookCheck => true
    case StartClosed => !s.startAccepted
    case StartUnbound => !s.startAccepted && !s.complete
    case SettleClose(t) => !s.complete && (t == AfterWork <==> s.startAccepted)
    case SettleFreeze(t) => !s.complete && s.stopped && (t == AfterWork <==> s.startAccepted)
    case Free => true
  }

  ghost predicate Sound(s: State) {
    && s.complete == s.requests.complete
    && (s.complete ==> s.stopped && s.stopSources == s.requests.stops)
    && (forall i :: 0 <= i < |s.stoppers| ==> StopperSound(s, s.stoppers[i]))
    && HolderSound(s)
    && (forall src :: Recorded(s, src) == if src in s.requests.stops then 1 else 0)
    && s.accepted == (if s.startAccepted then 1 else 0)
    && (s.cancelled > 0 ==> s.complete && !s.startAccepted)
  }

  lemma {:induction false} WinnersUpdate(stoppers: seq<Stopper>, i: nat, t: Stopper, source: Source)
    requires i < |stoppers|
    ensures Winners(stoppers[i := t], source) ==
            Winners(stoppers, source)
            - (if Won(stoppers[i]) && stoppers[i].source == source then 1 else 0)
            + (if Won(t) && t.source == source then 1 else 0)
  {
    var n := |stoppers| - 1;
    if i < n {
      WinnersUpdate(stoppers[..n], i, t, source);
      assert stoppers[i := t][..n] == stoppers[..n][i := t];
    } else {
      assert stoppers[i := t][..n] == stoppers[..n];
    }
  }

  lemma {:induction false} RunRecorded(s: State, i: nat, spurious: bool, src: Source)
    requires i < |s.stoppers| && Recorded(s, src) == (if src in s.requests.stops then 1 else 0)
    ensures var s' := RunStopper(s, i, spurious);
            Recorded(s', src) == if src in s'.requests.stops then 1 else 0
  {
    WinnersUpdate(s.stoppers, i, Advance(s.stoppers[i], s.requests, spurious), src);
  }

  /** Sources are only recorded, never dropped, and not after completion. */
  lemma RunGrows(s: State, i: nat, spurious: bool)
    requires i < |s.stoppers|
    ensures var s' := RunStopper(s, i, spurious);
            && s.requests.stops <= s'.requests.stops && s'.requests.complete == s.requests.complete
            && (s.stopped ==> s'.stopped) && (s.requests.complete ==> s'.requests == s.requests)
            && (forall j :: 0 <= j < |s.stoppers| && StopperSound(s, s.stoppers[j]) ==>
                  StopperSound(s', s'.stoppers[j]))
  {
  }

  lemma RunStopperSound(s: State, i: nat, spurious: bool)
    requires Sound(s) && i < |s.stoppers|
    ensures Sound(RunStopper(s, i, spurious))
  {
    RunGrows(s, i, spurious);
    forall src
      ensures var s' := RunStopper(s, i, spurious);
              Recorded(s', src) == if src in s'.requests.stops then 1 else 0
    {
      RunRecorded(s, i, spurious, src);
    }
  }

  lemma HolderRecorded(s: State, spurious: bool, unbound: bool, src: Source)
    requires Recorded(s, src) == (if src in s.requests.stops then 1 else 0)
    ensures var s' := HolderStep(s, spurious, unbound);
            Recorded(s', src) == if src in s'.requests.stops then 1 else 0
  {
    hide Winners, HolderStep;
    HolderRequests(s, spurious, unbound);
  }

  /** The holder records Manager, when it was not recorded yet, or no source at all. */
  lemma HolderRequests(s: State, spurious: bool, unbound: bool)
    ensures var s' := HolderStep(s, spurious, unbound);
            && s'.stoppers == s.stoppers
            && (|| (s'.requests.stops == s.requests.stops && s'.managerFirsts == s.managerFirsts)
                || (&& Manager !in s.requests.stops && s'.requests.stops == s.requests.stops + {Manager}
                    && s'.managerFirsts == s.managerFirsts + 1))
  {
  }

  lemma {:induction false} HolderStepSound(s: State, spurious: bool, unbound: bool)
    requires Sound(s)
    ensures Sound(HolderStep(s, spurious, unbound))
  {
    hide Recorded;
    var s' := HolderStep(s, spurious, unbound);
    forall src
      ensures Recorded(s', src) == if src in s'.requests.stops then 1 else 0
    {
      HolderRecorded(s, spurious, unbound, src);
    }
    assert s'.stoppers == s.stoppers;
    forall j | 0 <= j < |s'.stoppers|
      ensures StopperSound(s', s'.stoppers[j])
    {
      assert StopperSound(s, s.stoppers[j]);
    }
  }

  lemma SpawnSound(s: State, source: Source)
    requires Sound(s)
    ensures Sound(Next(s, Spawn(source)))
  {
    var s' := Next(s, Spawn(source));
    assert s'.stoppers[..|s.stoppers|] == s.stoppers;
    assert forall src :: Recorded(s', src) == Recorded(s, src);
    forall j | 0 <= j < |s'.stoppers|
      ensures StopperSound(s', s'.stoppers[j])
    {
      if j < |s.stoppers| { assert StopperSound(s, s.stoppers[j]); }
    }
  }

  lemma NextSound(s: State, c: Choice)
    requires Sound(s)
    ensures Sound(Next(s, c))
  {
    match c
    case Run(i, spurious) => if i < |s.stoppers| { RunStopperSound(s, i, spurious); }
    case Hold(spurious, unbound) => HolderStepSound(s, spurious, unbound);
    case Spawn(source) => SpawnSound(s, source);
    case _ =>
      var s' := Next(s, c);
      assert forall src :: Recorded(s', src) == Recorded(s, src);
      assert forall t :: StopperSound(s, t) ==> StopperSound(s', t);
  }

  lemma {:induction false} ExecSound(s: State, schedule: seq<Choice>)
    requires Sound(s)
    ensures Sound(Exec(s, schedule))
    decreases |schedule|
  {
    if schedule != [] {
      NextSound(s, schedule[0]);
      ExecSound(Next(s, schedule[0]), schedule[1..]);
    }
  }

  /** In every run, a completed record's frozen stop sources are exactly those
      for which a call recorded itself, and for each of them exactly one did. */
  lemma FrozenSourcesAreTheWinners(schedule: seq<Choice>, source: Source)
    ensures var s := Exec(INITIAL, schedule);
            && Recorded(s, source) <= 1
            && (s.complete ==> (source in s.stopSources <==> Recorded(s, source) == 1))
  {
    ExecSound(INITIAL, schedule);
  }

  lemma CompleteIsStopped(s: State)
    requires Sound(s) && s.complete
    ensures s.stopped
  {
  }

  lemma FreezeStep(s: State, c: Choice, source: Source)
    requires Sound(s) && Sound(Next(s, c)) && s.complete
    ensures var n := Next(s, c);
            && n.complete && n.stopSources == s.stopSources && n.startAccepted == s.startAccepted
            && Recorded(n, source) == Recorded(s, source)
  {
    hide Recorded, StopperSound;
    var n := Next(s, c);
    assert Recorded(s, source) == if source in s.requests.stops then 1 else 0;
    assert Recorded(n, source) == if source in n.requests.stops then 1 else 0;
  }

  /** Nothing that happens after completion changes the frozen sources, lets a
      later Stop come first, or opens the gate again. */
  lemma {:induction false} CompletionFreezes(s: State, later: seq<Choice>, source: Source)
    requires Sound(s) && s.complete
    ensures var s' := Exec(s, later);
            && s'.complete && s'.stopped && s'.stopSources == s.stopSources
            && Recorded(s', source) == Recorded(s, source)
            && s'.startAccepted == s.startAccepted
    decreases |later|
  {
    hide Next, Recorded, Sound;
    CompleteIsStopped(s);
    if later != [] {
      NextSound(s, later[0]);
      FreezeStep(s, later[0], source);
      CompletionFreezes(Next(s, later[0]), later[1..], source);
    }
  }

  /** A cancellation that succeeded and an accepted Start exclude each other in
      every order, and at most one Start is ever accepted. */
  lemma CancelExcludesStart(schedule: seq<Choice>)
    ensures var s := Exec(INITIAL, schedule);
            && s.accepted <= 1
            && !(s.cancelled > 0 && s.accepted > 0)
            && (s.cancelled > 0 ==> s.complete && s.stopped)
  {
    ExecSound(INITIAL, schedule);
  }

  /** Every Stop call that has returned left the gate closed, whoever came first. */
  lemma ReturnedStopClosedTheGate(schedule: seq<Choice>, i: nat)
    requires i < |Exec(INITIAL, schedule).stoppers| && Exec(INITIAL, schedule).stoppers[i].Returned?
    ensures Exec(INITIAL, schedule).stopped
  {
    ExecSound(INITIAL, schedule);
    assert StopperSound(Exec(INITIAL, schedule), Exec(INITIAL, schedule).stoppers[i]);
  }
}
