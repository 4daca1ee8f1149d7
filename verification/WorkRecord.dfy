/**
 One work's registry record: admission, creation, exit, reap, observation,
 cleanup, completion and quarantine.

 The record's own fields change only under its mutex. The stop request word, the
 shared gate and the creator budget change under any thread at any moment, so
 each method calls Interfere before every access to one of them. Interfere
 promises only what other threads respect: the gate grows as in WorkGate.Grows,
 stop requests are only added, and only before the record is settled, and other
 records charge and release only their own share of the budget.
 */
module WorkRecord {
  import opened RecordModel
  import G = WorkGate
  import A = Authority

  class Record {
    const operationLimit: nat
    const maximum: nat              // of the creator budget
    var rec: Locked
    var shared: Shared
    ghost var meaning: Meaning
    ghost var past: Past

    ghost predicate Coheres()
      reads this
    {
      Coherent(rec.creatorCharged, shared, meaning, maximum)
    }

    ghost predicate Valid()
      reads this
    {
      Sound(rec, shared, meaning, past, operationLimit, maximum)
    }

    twostate predicate Keeps()
      reads this
    {
      Kept(old(rec), old(shared), old(past), rec, shared, past)
    }

    constructor (gate: G.Shared, operationLimit: nat, maximum: nat, used: nat)
      requires used <= maximum
      ensures Valid() && rec.state == FRESH && shared.gate == gate
      ensures this.operationLimit == operationLimit && this.maximum == maximum
    {
      this.operationLimit, this.maximum := operationLimit, maximum;
      rec := Locked(FRESH, [], 0, 0, 0, 0, false, false, false);
      shared := Shared(Requests({}, false), gate, used);
      meaning := Meaning(multiset{}, used);
      past := Past(0, 0, 0, 0, 0, 0, 0, {});
    }

    /** Other threads run. */
    method Interfere()
      requires Coheres()
      modifies this`shared, this`meaning
      ensures Coheres() && Later(old(shared), shared)
      ensures shared.requests.complete == old(shared.requests.complete)
    {
    }

    method StopGate()
      requires Coheres()
      modifies this`shared, this`meaning
      ensures Coheres() && Later(old(shared), shared)
      ensures shared.requests.complete == old(shared.requests.complete)
      ensures shared.gate.flags.stopped
    {
      Interfere();
      var word := shared.gate.flags;
      shared := shared.(gate := shared.gate.(flags := word.(stopped := true)));
    }

    method StopGateIf(close: bool)
      requires Coheres()
      modifies this`shared, this`meaning
      ensures Coheres() && Later(old(shared), shared)
      ensures shared.requests.complete == old(shared.requests.complete)
      ensures close ==> shared.gate.flags.stopped
    {
      if close { StopGate(); }
    }

    /** Records the source unless the record is settled or already has it, then
        closes the gate whichever caller came first. No mutex. */
    method Stop(source: Source) returns (first: bool)
      requires Coheres()
      modifies this`shared, this`meaning
      ensures Coheres() && Later(old(shared), shared)
      ensures shared.requests.complete == old(shared.requests.complete)
      ensures shared.gate.flags.stopped
      ensures first ==> source !in old(shared.requests.stops) && !old(shared.requests.complete)
      ensures !old(shared.requests.complete) ==> source in shared.requests.stops
    {
      Interfere();
      var previous := shared.requests;
      first := !previous.complete && source !in previous.stops;
      if first {
        shared := shared.(requests := previous.(stops := previous.stops + {source}));
        meaning := meaning.(firsts := meaning.firsts + multiset{source});
      }
      StopGate();
    }

    method ReleaseCreator()
      requires Coheres()
      modifies this`rec, this`shared, this`meaning
      ensures Coheres() && Later(old(shared), shared)
      ensures shared.requests.complete == old(shared.requests.complete)
      ensures rec == old(rec).(creatorCharged := false)
    {
      Interfere();
      if rec.creatorCharged {
        rec := rec.(creatorCharged := false);
        shared := shared.(used := shared.used - 1);
      }
    }

    /** Freezes the record with the stop sources requested by now. */
    method Settle()
      requires Coheres() && !shared.requests.complete
      modifies this`rec, this`shared, this`meaning
      ensures Coheres() && Later(old(shared), shared.(requests := shared.requests.(complete := false)))
      ensures shared.gate.flags.stopped && shared.requests.complete
      ensures rec == old(rec).(state :=
              old(rec.state).(stopSources := shared.requests.stops, complete := true, blocked := false))
    {
      StopGate();
      Interfere();
      rec := rec.(state := rec.state.(stopSources := shared.requests.stops));
      shared := shared.(requests := shared.requests.(complete := true));
      rec := rec.(state := rec.state.(complete := true, blocked := false));
    }

    method SettleUnstarted()
      requires Valid()
      modifies this
      ensures Valid() && Keeps() && rec.state.forgotten == old(rec.state.forgotten)
      ensures old(!rec.state.startAccepted && shared.gate.flags.stopped) ==> rec.state.complete
      ensures rec == old(rec) || (!old(rec.state.startAccepted) && rec.state.complete)
      ensures rec.state.startAccepted == old(rec.state.startAccepted)
    {
      Interfere();
      if !rec.state.startAccepted && !rec.state.complete && G.PhaseOf(shared.gate.flags) == G.Phase.Stopped {
        rec := rec.(state := rec.state.(initial := InitialAbsent, scope := ScopeAbsent));
        Settle();
      }
    }

    /** Cancels a reservation that Start has not accepted, and only such a one. */
    method CancelUnstarted() returns (ok: bool)
      requires Valid()
      modifies this
      ensures Valid() && Keeps()
      ensures ok == !old(rec.state.startAccepted)
      ensures ok ==> rec.state.complete && !rec.state.startAccepted
      ensures !ok ==> rec == old(rec)
    {
      if rec.state.startAccepted { return false; }
      var _ := Stop(Manager);
      SettleUnstarted();
      return true;
    }

    /** The record as a caller sees it, with the gate read last. */
    method Inspect() returns (seen: Snapshot, claimed: bool, closed: bool)
      requires Valid()
      modifies this
      ensures Valid() && Keeps()
      ensures rec == old(rec) || (!old(rec.state.startAccepted) && rec.state.complete)
      ensures seen == rec.state.(stopSources := seen.stopSources)
      ensures rec.state.complete ==> seen == rec.state && closed && claimed == shared.gate.flags.entered
      ensures old(rec.state.complete) ==> seen == old(rec.state) && claimed == old(shared.gate.flags.entered)
    {
      SettleUnstarted();
      seen := rec.state;
      Interfere();
      claimed := shared.gate.flags.entered;
      Interfere();
      closed := G.PhaseOf(shared.gate.flags) == G.Phase.Stopped;
      Interfere();
      if !seen.complete { seen := seen.(stopSources := shared.requests.stops); }
    }

    /** The registry's Start, under the registry and record mutexes. */
    method Start(description: seq<nat>, stdio: nat, available: bool, registryClosed: bool) returns (result: StartResult)
      requires Valid()
      modifies this
      ensures Valid() && Keeps()
      ensures result == Stale <==> old(rec.state.forgotten)
      ensures result == Existing <==>
                !old(rec.state.forgotten) && old(rec.state.startAccepted)
                && old(rec.description) == description && old(rec.stdio) == stdio
      ensures result == Conflict <==>
                !old(rec.state.forgotten) && old(rec.state.startAccepted)
                && !(old(rec.description) == description && old(rec.stdio) == stdio)
      ensures result == Accepted ==>
                && !old(rec.state.startAccepted) && !old(rec.state.complete) && !registryClosed && available
                && !old(shared.gate.flags.stopped)
                && rec == old(rec).(state := old(rec.state).(startAccepted := true, admissionPending := true),
                                    description := description, stdio := stdio, creatorCharged := true)
      ensures result != Accepted ==>
                rec == old(rec) || (!old(rec.state.startAccepted) && !rec.state.startAccepted && rec.state.complete)
      ensures old(!rec.state.startAccepted && !rec.state.forgotten && shared.gate.flags.stopped) ==>
                result == Closed && rec.state.complete
    {
      if rec.state.forgotten { return Stale; }
      if rec.state.startAccepted {
        return if rec.description == description && rec.stdio == stdio then Existing else Conflict;
      }
      SettleUnstarted();
      Interfere();
      if registryClosed || rec.state.complete || !available || G.PhaseOf(shared.gate.flags) == G.Phase.Stopped {
        return Closed;
      }
      Interfere();
      if G.PhaseOf(shared.gate.flags) != G.Phase.Unbound { return WrongState; }
      Interfere();
      if shared.used >= maximum { return Capacity; }
      shared := shared.(used := shared.used + 1);
      rec := rec.(creatorCharged := true, description := description, stdio := stdio,
                  state := rec.state.(startAccepted := true, admissionPending := true));
      return Accepted;
    }

    method Forget() returns (result: ForgetResult)
      requires Valid()
      modifies this
      ensures Valid() && Keeps()
      ensures result == AlreadyForgotten <==> old(rec.state.forgotten)
      ensures result == Forgotten <==> !old(rec.state.forgotten) && rec.state.complete
      ensures rec.state.forgotten <==> result != Incomplete
      ensures old(rec.state.complete) ==> result != Incomplete
      ensures old(rec.state.startAccepted) ==>
              rec == old(rec).(state := old(rec.state).(forgotten := rec.state.forgotten))
    {
      SettleUnstarted();
      if rec.state.forgotten { return AlreadyForgotten; }
      if !rec.state.complete { return Incomplete; }
      rec := rec.(state := rec.state.(forgotten := true));
      return Forgotten;
    }

    /** Quarantines the record and requests its termination. */
    method Quarantine(fault: Fault)
      requires Coheres()
      modifies this`rec, this`shared, this`meaning
      ensures Coheres() && Later(old(shared), shared)
      ensures shared.requests.complete == old(shared.requests.complete) && shared.gate.flags.stopped
      ensures rec == Quarantined(old(rec), fault)
      ensures !old(shared.requests.complete) ==> BackendFailure in shared.requests.stops
    {
      rec := Quarantined(rec, fault);
      var _ := Stop(BackendFailure);
    }

    /** A refused admission: no resources exist, so the record completes. */
    method RefuseAdmission(outcome: A.Outcome)
      requires Valid() && rec.state.admissionPending && !rec.permanentFault
      modifies this
      ensures Valid() && Keeps()
      ensures rec.state.complete && rec.state.initial == InitialAbsent && rec.state.scope == ScopeAbsent
              && rec.state.admission == outcome
    {
      rec := rec.(state := rec.state.(admissionPending := false, admission := outcome,
                                      initial := InitialAbsent, scope := ScopeAbsent));
      ReleaseCreator();
      Settle();
    }

    /** The adapter reports how binding ended. Only an accepted, still open and
        unstopped admission lets the creator begin; a contradictory report
        quarantines the record; anything else completes it with no resources. */
    method AdmissionFinished(result: A.Outcome) returns (go: bool)
      requires Valid()
      modifies this
      ensures Valid() && Keeps()
      ensures go ==>
                && result == A.Accepted && old(rec.state.admissionPending) && !old(rec.permanentFault)
                && rec == old(rec).(state := old(rec.state).(
                     admissionPending := false, admission := A.Accepted, creatorPending := true,
                     initial := InitialUnknown, scope := ScopeUnknown))
      ensures !go ==>
                || rec == old(rec)
                || (rec.permanentFault && rec.state.fault == InvalidAdmission && rec.state.admissionPending)
                || (rec.state.complete && rec.state.initial == InitialAbsent && rec.state.scope == ScopeAbsent
                    && rec.state.admission == (if result == A.Accepted then A.Stopped else result))
      ensures old(rec.state.admissionPending && !rec.permanentFault && shared.gate.flags.stopped) ==>
                !go && rec.state.complete
      ensures !go && old(rec.state.admissionPending && !rec.permanentFault) ==>
                (rec.permanentFault || rec.state.complete) && shared.gate.flags.stopped
    {
      var verdict := JudgeAdmission(result);
      match verdict
      case Ignored => return false;
      case Contradictory =>
        Quarantine(InvalidAdmission);
        return false;
      case Go =>
        rec := rec.(state := rec.state.(
          admissionPending := false, admission := A.Accepted,
          creatorPending := true, initial := InitialUnknown, scope := ScopeUnknown));
        return true;
      case Refused(outcome) =>
        RefuseAdmission(outcome);
        return false;
    }

    /** Reads the gate and the requests to judge the report, changing nothing. */
    method JudgeAdmission(result: A.Outcome) returns (verdict: Verdict)
      requires Valid()
      modifies this`shared, this`meaning
      ensures Valid() && Later(old(shared), shared) && shared.requests.complete == old(shared.requests.complete)
      ensures verdict != Ignored ==> rec.state.admissionPending && !rec.state.complete
      ensures verdict == Go ==> result == A.Accepted && !rec.permanentFault
      ensures verdict.Refused? ==>
                !rec.permanentFault && verdict.outcome == (if result == A.Accepted then A.Stopped else result)
      ensures rec.state.admissionPending && !rec.permanentFault && old(shared.gate.flags.stopped) ==> verdict.Refused?
      ensures rec.state.admissionPending && !rec.permanentFault ==> verdict != Ignored
    {
      if !rec.state.admissionPending || rec.state.complete { return Ignored; }
      Interfere();
      var phase := G.PhaseOf(shared.gate.flags);
      if (result == A.Accepted && phase != G.Phase.Admitted && phase != G.Phase.Stopped) ||
         (result != A.Accepted && phase != G.Phase.Unbound && phase != G.Phase.Stopped) {
        return Contradictory;
      }
      if rec.permanentFault { return Ignored; }
      Interfere();
      if result == A.Accepted && !shared.gate.flags.bound {
        // A Stop before Bind is a refused admission, not an invented epoch.
        return if phase != G.Phase.Stopped then Ignored else Refused(A.Stopped);
      }
      Interfere();
      if result == A.Accepted && phase == G.Phase.Admitted && shared.requests.stops == {} { return Go; }
      return Refused(if result == A.Accepted then A.Stopped else result);
    }

    method CaptureScope(identity: (nat, nat)) returns (ok: bool)
      requires Valid()
      modifies this
      ensures Valid() && Keeps()
      ensures ok <==> identity.0 != 0 && identity.1 != 0 && old(rec.state.creatorPending)
                      && (old(rec.state.scope) == Captured ==> old(rec.state.scopeIdentity) == identity)
      ensures rec == if ok then old(rec).(state := old(rec.state).(scope := Captured, scopeIdentity := identity))
              else old(rec)
    {
      if identity.0 == 0 || identity.1 == 0 { return false; }
      if !rec.state.creatorPending || rec.state.complete { return false; }
      if rec.state.scope == Captured { return rec.state.scopeIdentity == identity; }
      if rec.state.scope != ScopeUnknown { return false; }
      rec := rec.(state := rec.state.(scope := Captured, scopeIdentity := identity));
      return true;
    }

    method InitialCreated() returns (ok: bool)
      requires Valid()
      modifies this
      ensures Valid() && Keeps()
      ensures ok <==> old(rec.state.creatorPending) && old(rec.state.initial) == InitialUnknown
      ensures rec == if ok then old(rec).(state := old(rec.state).(initial := Owned)) else old(rec)
    {
      if !rec.state.creatorPending || rec.state.complete || rec.state.initial != InitialUnknown { return false; }
      rec := rec.(state := rec.state.(initial := Owned));
      return true;
    }

    /** The first exit is kept; a repeated report must repeat it. */
    method InitialExited(exit: Exit) returns (ok: bool)
      requires Valid()
      modifies this
      ensures Valid() && Keeps()
      ensures ok <==> ExitValid(exit) && !old(rec.state.complete)
                      && (old(rec.state.initial) == Owned
                          || ((old(rec.state.initial) == Exited || old(rec.state.initial) == Reaped)
                              && old(rec.state.initialExit) == exit))
      ensures rec == if ok && old(rec.state.initial) == Owned
                     then old(rec).(state := old(rec.state).(initial := Exited, initialExit := exit)) else old(rec)
      ensures ok ==> shared.gate.flags.stopped && shared.requests.complete == false
    {
      if !ExitValid(exit) { return false; }
      if rec.state.complete { return false; }
      if rec.state.initial == Exited || rec.state.initial == Reaped { return rec.state.initialExit == exit; }
      if rec.state.initial != Owned { return false; }
      rec := rec.(state := rec.state.(initial := Exited, initialExit := exit));
      StopGate();
      return true;
    }

    /** Completes a record whose boundary is closed and which has no scope. */
    method SettleAbsentScope()
      requires Coheres() && AdmissionSound(rec, shared) && TicketsSound(rec, past, operationLimit)
      requires EvidenceSound(rec, past) && CompletionSound(rec, shared)
      modifies this`rec, this`shared, this`meaning
      ensures Valid() && Later(old(shared), shared)
      ensures rec == if BoundaryClosed(old(rec.state)) && old(rec.state.scope) == ScopeAbsent
              && !old(rec.permanentFault)
                        && !old(rec.state.complete)
                     then old(rec).(state := old(rec.state).(stopSources := rec.state.stopSources, complete := true,
                       blocked := false))
                     else old(rec)
    {
      if !rec.permanentFault && BoundaryClosed(rec.state) && rec.state.scope == ScopeAbsent &&
         rec.observation == 0 && rec.cleanup == 0 && !rec.state.complete {
        Settle();
      }
    }

    method InitialReaped() returns (ok: bool)
      requires Valid()
      modifies this
      ensures Valid() && Keeps()
      ensures ok <==> !old(rec.state.complete) && (old(rec.state.initial) == Exited || old(rec.state.initial) == Reaped)
      ensures !ok ==> rec == old(rec)
      ensures ok ==> rec.state.initial == Reaped && rec.state.initialExit == old(rec.state.initialExit)
                     && rec.state.scope == old(rec.state.scope)
                        && rec.state.creatorPending == old(rec.state.creatorPending)
                     && rec.permanentFault == old(rec.permanentFault)
                     && rec.observation == old(rec.observation) && rec.cleanup == old(rec.cleanup)
      ensures ok && old(rec.state.initial) == Exited ==>
                (rec.state.complete <==>
                   BoundaryClosed(rec.state) && rec.state.scope == ScopeAbsent && !rec.permanentFault)
    {
      if rec.state.complete { return false; }
      if rec.state.initial == Reaped { return true; }
      if rec.state.initial != Exited { return false; }
      rec := rec.(state := rec.state.(initial := Reaped));
      past := past.(now := past.now + 1, initial := past.now + 1);
      SettleAbsentScope();
      return true;
    }

    /** All creation work has ceased. Resources of unknown fate quarantine the
        record for ever; a record without scope whose initial process is
        accounted for completes here. */
    method CreatorFinished(initial: Fact, scope: Fact, error: int) returns (ok: bool)
      requires Valid()
      modifies this
      ensures Valid() && Keeps()
      ensures ok ==>
                && error >= 0 && old(rec.state.creatorPending)
                && InitialFits(old(rec.state), initial) && ScopeFits(old(rec.state), scope)
      ensures !ok ==> rec == old(rec)
      ensures !ok && error >= 0 && old(rec.state.creatorPending) && InitialFits(old(rec.state), initial)
              && ScopeFits(old(rec.state), scope) ==>
                shared.gate.flags.entered && (initial == FactAbsent || scope == FactAbsent)
      ensures ok && (initial == FactAbsent || scope == FactAbsent) ==> !old(shared.gate.flags.entered)
      ensures ok ==>
                && !rec.state.creatorPending && rec.state.startAccepted && !rec.state.admissionPending
                   && !rec.creatorCharged
                && rec.state.initial == (if initial == FactAbsent then InitialAbsent else old(rec.state.initial))
                && rec.state.scope == (if scope == FactAbsent then ScopeAbsent else old(rec.state.scope))
                && (rec.permanentFault <==> old(rec.permanentFault) || initial == FactUnknown || scope == FactUnknown)
                && (rec.state.complete <==>
                      InitialAccounted(rec.state) && rec.state.scope == ScopeAbsent && !rec.permanentFault)
                && (error > 0 ==> BackendFailure in shared.requests.stops)
                && rec.observation == 0 && rec.cleanup == 0
    {
      if error < 0 { return false; }
      if !rec.state.creatorPending || rec.state.complete || !InitialFits(rec.state, initial)
        || !ScopeFits(rec.state, scope) {
        return false;
      }
      Interfere();
      // Not atomic with a claim: one may still enter before the gate is closed below.
      if shared.gate.flags.entered && (initial == FactAbsent || scope == FactAbsent) { return false; }
      EndCreation(initial, scope, error);
      return true;
    }

    method EndCreation(initial: Fact, scope: Fact, error: int)
      requires Valid() && error >= 0 && rec.state.creatorPending
      requires InitialFits(rec.state, initial) && ScopeFits(rec.state, scope)
      modifies this
      ensures Valid() && Keeps()
      ensures !rec.state.creatorPending && rec.state.startAccepted && !rec.state.admissionPending && !rec.creatorCharged
      ensures rec.state.initial == (if initial == FactAbsent then InitialAbsent else old(rec.state.initial))
      ensures rec.state.scope == (if scope == FactAbsent then ScopeAbsent else old(rec.state.scope))
      ensures rec.permanentFault <==> old(rec.permanentFault) || initial == FactUnknown || scope == FactUnknown
      ensures rec.state.complete <==>
              InitialAccounted(rec.state) && rec.state.scope == ScopeAbsent && !rec.permanentFault
      ensures error > 0 ==> BackendFailure in shared.requests.stops
      ensures rec.observation == 0 && rec.cleanup == 0
    {
      CeaseCreator(initial, scope, error);
      EndedSound(old(rec), old(shared), old(past), operationLimit, initial, scope, error, shared);
      SettleAbsentScope();
    }

    method CeaseCreator(initial: Fact, scope: Fact, error: int)
      requires Coheres() && error >= 0 && rec.state.initial != InitialAbsent
      modifies this
      ensures Coheres() && Later(old(shared), shared) && shared.requests.complete == old(shared.requests.complete)
      ensures rec == Ended(old(rec), initial, scope, error) && past == PastEnded(old(past), initial)
      ensures initial == FactAbsent ==> shared.gate.flags.stopped
      ensures error > 0 && !old(shared.requests.complete) ==> BackendFailure in shared.requests.stops
    {
      hide Judged;
      NoteCreator(initial, scope, error);
      JudgedInitial(old(rec), initial, scope, error);
      ReleaseCreator();
      assert initial == FactAbsent ==> rec.state.initial == InitialAbsent;
      StopGateIf(rec.state.initial == InitialAbsent);
    }

    method NoteCreator(initial: Fact, scope: Fact, error: int)
      requires Coheres() && error >= 0
      modifies this
      ensures Coheres() && Later(old(shared), shared) && shared.requests.complete == old(shared.requests.complete)
      ensures rec == Judged(old(rec), initial, scope, error) && past == PastEnded(old(past), initial)
      ensures error > 0 && !old(shared.requests.complete) ==> BackendFailure in shared.requests.stops
    {
      rec := Noted(rec, initial, scope, error);
      past := PastEnded(past, initial);
      if error != 0 {
        var _ := Stop(BackendFailure);
      }
      if initial == FactUnknown || scope == FactUnknown { Quarantine(UnknownResources); }
    }

    /** Requests termination, then notes the error under the mutex. */
    method Abort(error: int) returns (first: bool)
      requires Valid()
      modifies this
      ensures Valid() && Keeps()
      ensures error <= 0 ==> !first && rec == old(rec)
      ensures error > 0 ==> shared.gate.flags.stopped
      ensures error > 0 && !old(rec.state.complete) ==>
              BackendFailure in shared.requests.stops && rec.state.launchError != 0
      ensures rec == old(rec).(state := old(rec.state).(launchError := rec.state.launchError))
    {
      if error <= 0 { return false; }
      first := Stop(BackendFailure);
      if !rec.state.complete && rec.state.launchError == 0 {
        rec := rec.(state := rec.state.(launchError := error));
      }
    }

    method TerminationRequested() returns (asked: bool)
      requires Valid()
      modifies this`shared, this`meaning
      ensures Valid() && Keeps() && rec == old(rec)
      ensures asked ==> shared.requests.stops != {}
      ensures old(shared.requests.stops) != {} ==> asked
    {
      Interfere();
      asked := shared.requests.stops != {};
    }

    /** The next ticket, or zero with the record quarantined. */
    method Issue() returns (n: nat)
      requires Coheres() && rec.sequence <= operationLimit
      modifies this`rec, this`shared, this`meaning
      ensures Coheres() && Later(old(shared), shared)
      ensures shared.requests.complete == old(shared.requests.complete)
      ensures n != 0 <==> !old(rec.permanentFault) && old(rec.sequence) < operationLimit
      ensures n != 0 ==> n == old(rec.sequence) + 1 && rec == old(rec).(sequence := n)
      ensures n == 0 ==> rec == old(rec).(permanentFault := true, state := old(rec.state).(
                           fault := if old(rec.state.fault) == NoFault then SequenceExhausted
                             else old(rec.state.fault), blocked := true))
    {
      if rec.permanentFault || rec.sequence >= operationLimit {
        rec := rec.(permanentFault := true, state := rec.state.(
          fault := if rec.state.fault == NoFault then SequenceExhausted else rec.state.fault, blocked := true));
        var _ := Stop(BackendFailure);
        return 0;
      }
      rec := rec.(sequence := rec.sequence + 1);
      return rec.sequence;
    }

    /** Issues an observation of the captured scope once its boundary is closed. */
    method Observe() returns (n: nat)
      requires Valid()
      modifies this
      ensures Valid() && Keeps()
      ensures n != 0 <==> Observable(old(rec)) && old(rec.sequence) < operationLimit
      ensures n != 0 ==> n == old(rec.sequence) + 1
                         && rec == old(rec).(sequence := n, observation := n, observationInvalid := false,
                                             state := old(rec.state).(population := Unknown))
      ensures n == 0 && !Observable(old(rec)) ==> rec == old(rec)
      ensures n == 0 && Observable(old(rec)) ==> rec.permanentFault && rec.state.blocked
      ensures n == 0 ==> rec.state.scope == old(rec.state.scope)
    {
      if rec.state.complete || rec.permanentFault || !BoundaryClosed(rec.state) || rec.state.scope != Captured ||
         rec.observation != 0 || rec.cleanup != 0 {
        return 0;
      }
      n := Issue();
      if n == 0 { return 0; }
      rec := rec.(state := rec.state.(population := Unknown), observation := n, observationInvalid := false);
      past := past.(now := past.now + 1, issue := past.now + 1, doubt := past.now + 1);
    }

    /** Issues a cleanup after a valid Empty observation. The gate check never
        refuses, so only the ticket limit can. */
    method Reclaim() returns (n: nat)
      requires Valid()
      modifies this
      ensures Valid() && Keeps()
      ensures n != 0 <==> Reclaimable(old(rec)) && old(rec.sequence) < operationLimit
      ensures n != 0 ==> n == old(rec.sequence) + 1 && rec == old(rec).(sequence := n, cleanup := n)
      ensures n == 0 && !Reclaimable(old(rec)) ==> rec == old(rec)
      ensures n == 0 && Reclaimable(old(rec)) ==> rec.permanentFault && rec.state.blocked
      ensures n == 0 ==> rec.state.scope == old(rec.state.scope)
    {
      Interfere();
      if rec.state.complete || rec.permanentFault || !BoundaryClosed(rec.state) || rec.state.scope != Captured ||
         rec.state.population != Empty || rec.observation != 0 || rec.cleanup != 0 ||
         G.PhaseOf(shared.gate.flags) != G.Phase.Stopped {
        return 0;
      }
      n := Issue();
      if n == 0 { return 0; }
      rec := rec.(cleanup := n);
      past := past.(now := past.now + 1, cleanup := past.now + 1);
    }

    /** Ends observation n. A ticket takes effect at most once: afterwards it is
        among the ended ones, and an ended ticket is refused. */
    method FinishObservation(n: nat, population: Population) returns (valid: bool)
      requires Valid()
      modifies this
      ensures Valid() && Keeps()
      ensures valid <==> n != 0 && old(rec.observation) == n && !old(rec.observationInvalid)
      ensures n in old(past.ended) || n == 0 || old(rec.observation) != n ==> rec == old(rec) && past == old(past)
      ensures n != 0 && old(rec.observation) == n ==>
                && n !in old(past.ended) && past.ended == old(past.ended) + {n}
                && rec == old(rec).(observation := 0, observationInvalid := false,
                     state := old(rec.state).(population := if valid then population else Unknown,
                                              blocked := !valid && old(rec.state.blocked)))
    {
      if n == 0 || rec.observation != n { return false; }
      valid := !rec.observationInvalid;
      rec := rec.(observation := 0, observationInvalid := false,
                  state := rec.state.(population := if valid then population else Unknown));
      if valid { rec := rec.(state := rec.state.(blocked := false)); }
      past := past.(now := past.now + 1, ended := past.ended + {n},
                    empty := if valid && population == Empty then past.issue else past.empty,
                    doubt := if valid then past.doubt else past.now + 1);
    }

    method TimeOutObservation(n: nat) returns (ok: bool)
      requires Valid()
      modifies this
      ensures Valid() && Keeps()
      ensures ok <==> n != 0 && old(rec.observation) == n
      ensures rec == if ok then old(rec).(observationInvalid := true,
              state := old(rec.state).(population := Unknown, blocked := true))
                     else old(rec)
    {
      if n == 0 || rec.observation != n { return false; }
      rec := rec.(observationInvalid := true, state := rec.state.(population := Unknown, blocked := true));
      past := past.(now := past.now + 1, doubt := past.now + 1);
      return true;
    }

    method CeaseObservation(n: nat) returns (ok: bool)
      requires Valid()
      modifies this
      ensures Valid() && Keeps()
      ensures ok <==> n != 0 && old(rec.observation) == n
      ensures ok ==> n !in old(past.ended) && n in past.ended
      ensures rec == if ok then old(rec).(observation := 0, observationInvalid := false,
              state := old(rec.state).(population := Unknown))
                     else old(rec)
    {
      if n == 0 || rec.observation != n { return false; }
      rec := rec.(observation := 0, observationInvalid := false, state := rec.state.(population := Unknown));
      past := past.(now := past.now + 1, doubt := past.now + 1, ended := past.ended + {n});
      return true;
    }

    /** Ends cleanup n. Only a reclaimed scope completes the record; a failure
        puts the population back in doubt. */
    method FinishCleanup(n: nat, result: CleanupResult, error: int) returns (ok: bool)
      requires Valid()
      modifies this
      ensures Valid() && Keeps()
      ensures ok <==> error >= 0 && n != 0 && old(rec.cleanup) == n && (result != Failed ==> error == 0)
      ensures !ok ==> rec == old(rec)
      ensures ok ==> n !in old(past.ended) && n in past.ended && rec.cleanup == 0
      ensures ok && result == CleanedUp ==> rec.state.complete && rec.state.scope == Reclaimed
      ensures ok && result == Failed ==>
                rec == old(rec).(cleanup := 0, state := old(rec.state).(
                         population := Unknown, blocked := true, cleanupError := if error == 0 then EIO else error))
      ensures ok && result == Progress ==>
                rec == old(rec).(cleanup := 0, state := old(rec.state).(blocked := false, cleanupError := 0))
    {
      if error < 0 { return false; }
      if n == 0 || rec.cleanup != n { return false; }
      if result != Failed && error != 0 { return false; }
      rec := rec.(cleanup := 0,
                  state := rec.state.(cleanupError := if result == Failed && error == 0 then EIO else error));
      past := past.(now := past.now + 1, ended := past.ended + {n});
      if result == CleanedUp {
        rec := rec.(state := rec.state.(scope := Reclaimed));
        Settle();
      } else if result == Failed {
        rec := rec.(state := rec.state.(population := Unknown, blocked := true));
        past := past.(doubt := past.now);
      } else {
        rec := rec.(state := rec.state.(blocked := false));
      }
      return true;
    }

    method TimeOutCleanup(n: nat) returns (ok: bool)
      requires Valid()
      modifies this
      ensures Valid() && Keeps()
      ensures ok <==> n != 0 && old(rec.cleanup) == n
      ensures rec == if ok then old(rec).(state := old(rec.state).(blocked := true)) else old(rec)
    {
      if n == 0 || rec.cleanup != n { return false; }
      rec := rec.(state := rec.state.(blocked := true));
      return true;
    }

    method CeaseCleanup(n: nat) returns (ok: bool)
      requires Valid()
      modifies this
      ensures Valid() && Keeps()
      ensures ok <==> n != 0 && old(rec.cleanup) == n
      ensures ok ==> n !in old(past.ended) && n in past.ended
      ensures rec == if ok then old(rec).(cleanup := 0, state := old(rec.state).(population := Unknown)) else old(rec)
    {
      if n == 0 || rec.cleanup != n { return false; }
      rec := rec.(cleanup := 0, state := rec.state.(population := Unknown));
      past := past.(now := past.now + 1, doubt := past.now + 1, ended := past.ended + {n});
      return true;
    }
  }
}
