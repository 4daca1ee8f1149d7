/**
 The runtime's supervision of one accepted work: admission, creation, reaping,
 observation and reclamation, on top of the registry record. Every answer of the
 kernel, of the launcher and of the admission authority is an arbitrary value
 of the oracle arguments; between any two steps other threads may stop the
 work, abort it or time its tickets out.
 */
module Supervise {
  import opened Common
  import opened RecordModel
  import opened WorkRecord
  import A = Authority

  const EPROTO := 71
  const ECHILD := 10
  const ECANCELED := 125
  const EINVAL := 22
  const ESHUTDOWN := 108
  const EALREADY := 114
  const ENOSPC := 28

  datatype Phase = Admitting | Creating | Supervising | Observing | Reclaiming | Blocked | Retired

  /** What the creation steps answer, in their order; zero is success. */
  datatype Creation = Creation(
    setup: int, mkdir: int, capture: int, scope: (nat, nat), socket: int, fork: int, pidfd: int,
    place: int, seal: int, send: int, handshake: int, prepared: A.Outcome, release: A.Outcome, wake: int)

  datatype Wait = Running | Ended(exit: Exit) | WaitFailed(errno: int)

  datatype Cursor = More | Gone | Stuck(errno: int)

  /** One turn of the supervision loop. */
  datatype Round = Round(
    wait: Wait, population: Population, populationError: int,
    begin: Option<seq<Cursor>>, beginError: int, retire: A.Outcome, clock: nat)

  /** What a creation leaves behind, whatever it answered. */
  datatype Created = Created(error: int, initial: bool, scope: bool, allocation: bool)

  predicate TurnTroubled(t: Round) {
    || t.wait.WaitFailed? || (t.wait.Ended? && !ExitValid(t.wait.exit))
    || t.population == Unknown || t.retire != A.Accepted
    || t.begin.None? || exists i :: 0 <= i < |t.begin.value| && t.begin.value[i].Stuck?
  }

  predicate CreationTroubled(c: Creation) {
    || c.setup < 0 || c.mkdir != 0 || c.capture != 0 || c.scope.0 == 0 || c.scope.1 == 0
    || c.socket < 0 || c.fork < 0 || c.pidfd < 0 || c.place < 0 || c.seal < 0 || c.send < 0 || c.handshake < 0
       || c.wake < 0
  }

  /** An answer from outside that may leave a work blocked. */
  predicate Troubled(refusal: A.Outcome, c: Creation, rounds: seq<Round>) {
    refusal != A.Accepted || CreationTroubled(c) || exists i :: 0 <= i < |rounds| && TurnTroubled(rounds[i])
  }

  /** What other threads may do to a started record. */
  ghost predicate Disturbed(r: Locked, r': Locked) {
    && r' == r.(observationInvalid := r'.observationInvalid,
                state := r.state.(launchError := r'.state.launchError, blocked := r'.state.blocked,
                                  population := r'.state.population, forgotten := r'.state.forgotten))
    && (r.observation == 0 ==>
          r'.observationInvalid == r.observationInvalid && r'.state.population == r.state.population)
    && (r'.state.population == r.state.population || r'.state.population == Unknown)
    && (r.observationInvalid ==> r'.observationInvalid)
    && (r'.state.forgotten ==> r.state.forgotten || r.state.complete)
  }

  /** Any number of disturbances is again one. */
  lemma DisturbedIsTransitive(r: Locked, s: Locked, t: Locked)
    requires Disturbed(r, s) && Disturbed(s, t)
    ensures Disturbed(r, t)
  {
  }

  /** Other threads act on the record. */
  method Meanwhile(record: Record)
    requires record.Valid() && record.rec.state.startAccepted
    modifies record
    ensures record.Valid() && record.Keeps() && Disturbed(old(record.rec), record.rec)
  {
  }

  datatype Outside =
    | OwnerStop(source: Source) | AbortAll(error: int) | TimeOutOne(observation: nat, cleanup: nat) | ForgetIt | Look

  /** Each call that another thread makes is such a disturbance. */
  method OutsideCall(record: Record, call: Outside)
    requires record.Valid() && record.rec.state.startAccepted
    modifies record
    ensures record.Valid() && record.Keeps() && Disturbed(old(record.rec), record.rec)
  {
    match call
    case OwnerStop(source) => var _ := record.Stop(source);
    case AbortAll(error) => var _ := record.Abort(error);
    case TimeOutOne(n, m) => var _ := TimeOut(record, n, m);
    case ForgetIt => var _ := record.Forget();
    case Look => var _, _, _ := record.Inspect();
  }

  /** Times out the observation or the cleanup with this ticket. */
  method TimeOut(record: Record, n: nat, m: nat) returns (timed: bool)
    requires record.Valid() && record.rec.state.startAccepted
    modifies record
    ensures record.Valid() && record.Keeps() && Disturbed(old(record.rec), record.rec)
    ensures n != 0 && old(record.rec.observation) == n ==> timed && record.rec.observationInvalid
    ensures m != 0 && old(record.rec.cleanup) == m ==> timed
  {
    timed := record.TimeOutObservation(n);
    if !timed { timed := record.TimeOutCleanup(m); }
  }

  class Job {
    const record: Record
    var stdioHeld: bool           // the creator's descriptor lease
    var killerStarted: bool       // the termination thread, not yet joined
    var slotHeld: bool            // a place with the admission authority
    var phase: Phase
    var blocked: bool
    var retired: bool
    var finished: bool
    var published: bool
    var joined: bool
    var collecting: bool
    var error: int
    var observation: nat
    var cleanup: nat
    var issued: nat

    constructor (record: Record)
      ensures this.record == record && Fresh() && !published
    {
      this.record := record;
      stdioHeld, killerStarted, slotHeld := true, true, false;
      phase, blocked, retired, finished := Admitting, false, false, false;
      published, joined, collecting := false, false, false;
      error, observation, cleanup, issued := 0, 0, 0, 0;
    }

    /** Not supervised yet; its thread may run before or after the job is published. */
    predicate Fresh()
      reads this
    {
      stdioHeld && killerStarted && !slotHeld && phase == Admitting && !retired && !finished && !joined && !collecting
    }

    /** Everything that the work took has been given back. */
    predicate GivenBack()
      reads this, record
    {
      record.rec.state.complete && !slotHeld && !killerStarted && !stdioHeld
    }

    /** How supervision ends: retired exactly when everything is given back,
        blocked and with an error otherwise. */
    predicate Ended()
      reads this, record
    {
      && finished
      && (retired <==> GivenBack())
      && (retired <==> phase == Retired)
      && (!retired <==> phase == Blocked)
      && (!retired ==> blocked && error != 0)
    }

    ghost predicate Working()
      reads this, record
    {
      record.Valid() && record.rec.state.startAccepted && !finished && !retired && phase != Blocked && phase != Retired
    }

    /** Supervision leaves alone what Submit and Poll know of the thread. */
    twostate predicate Untouched()
      reads this
    {
      published == old(published) && joined == old(joined) && collecting == old(collecting)
    }

    method StopKiller()
      modifies this`killerStarted
      ensures !killerStarted
    {
      killerStarted := false;
    }

    method Block(e: int)
      modifies this`error, this`blocked, this`phase, this`finished
      ensures blocked && phase == Blocked && error != 0 && finished
    {
      error := if e != 0 then e else EIO;
      blocked, phase := true, Phase.Blocked;
      finished := true;
    }

    method Retire()
      requires !finished
      modifies this`phase, this`retired, this`finished, this`blocked
      ensures phase == Retired && retired && finished
    {
      blocked, phase, retired := false, Phase.Retired, true;
      finished := true;
    }

    /** Gives the place back to the admission authority, if it agrees. Wherever this
        is done the place is registered and the gate stopped, which is all that
        Authority.AdmissionAuthority.Retire asks for (Authority.RetireAnswer). */
    method GiveUpPlace(answer: A.Outcome) returns (ok: bool)
      requires slotHeld && record.shared.gate.flags.stopped
      modifies this`slotHeld
      ensures ok == (answer == A.Accepted) && slotHeld == (old(slotHeld) && !ok)
    {
      ok := answer == A.Accepted;
      if ok { slotHeld := false; }
    }

    /** Asks whether to go on creating; the answer may be overtaken at once. */
    method Cancelled() returns (yes: bool)
      requires record.Valid() && record.rec.state.startAccepted && !record.rec.state.complete
      modifies record
      ensures record.Valid() && record.Keeps() && Disturbed(old(record.rec), record.rec)
    {
      Meanwhile(record);
      yes := record.TerminationRequested();
    }

    /** The scope directory, and its identity told to the record. */
    method CreateScope(c: Creation) returns (m: Created)
      requires Working() && record.rec.state.creatorPending && !record.rec.permanentFault
      requires record.rec.state.initial == InitialUnknown && record.rec.state.scope == ScopeUnknown
      modifies record
      ensures record.Valid() && record.rec.state.startAccepted && record.rec.state.creatorPending
              && !record.rec.permanentFault
      ensures record.rec.state.initial == InitialUnknown && record.rec.observation == old(record.rec.observation)
              && record.rec.cleanup == old(record.rec.cleanup)
      ensures !m.initial && (m.scope ==> m.allocation)
              && (!m.scope ==> m.error != 0 && record.rec.state.scope == ScopeUnknown)
      ensures m.error == 0 ==> m.scope && record.rec.state.scope == Captured
      ensures m.allocation && !m.scope ==> CreationTroubled(c)
      ensures m.scope && record.rec.state.scope != Captured ==> CreationTroubled(c)
      ensures m.error < 0 ==> CreationTroubled(c)
    {
      var stop := Cancelled();
      if stop { return Created(ECANCELED, false, false, false); }
      if c.setup != 0 { return Created(c.setup, false, false, false); }
      stop := Cancelled();
      if stop { return Created(ECANCELED, false, false, false); }
      if c.mkdir != 0 { return Created(c.mkdir, false, false, true); }
      if c.capture != 0 { return Created(c.capture, false, false, true); }
      var ok := record.CaptureScope(c.scope);
      if !ok { return Created(EPROTO, false, true, true); }
      stop := Cancelled();
      return Created(if stop then ECANCELED else 0, false, true, true);
    }

    /** The initial process: forked, owned, placed, handed its launch and woken. */
    method CreateInitial(c: Creation) returns (m: Created)
      requires Working() && record.rec.state.creatorPending && !record.rec.permanentFault
      requires record.rec.state.initial == InitialUnknown && record.rec.state.scope == Captured
      modifies record, this`stdioHeld
      ensures record.Valid() && record.rec.state.startAccepted && record.rec.state.creatorPending
              && !record.rec.permanentFault
      ensures record.rec.state.scope == Captured && record.rec.observation == old(record.rec.observation)
              && record.rec.cleanup == old(record.rec.cleanup)
      ensures m.scope && m.allocation && record.rec.state.initial == if m.initial then Owned else InitialUnknown
      ensures m.error < 0 ==> CreationTroubled(c)
      ensures !m.initial ==> m.error != 0
    {
      if c.socket != 0 { return Created(c.socket, false, true, true); }
      if c.fork != 0 { return Created(c.fork, false, true, true); }
      var ok := record.InitialCreated();
      if !ok { return Created(EPROTO, true, true, true); }
      if c.pidfd != 0 { return Created(c.pidfd, true, true, true); }
      var stop := Cancelled();
      if stop { return Created(ECANCELED, true, true, true); }
      if c.place != 0 { return Created(c.place, true, true, true); }
      stop := Cancelled();
      if stop || record.shared.gate.flags.stopped { return Created(ECANCELED, true, true, true); }
      if c.seal != 0 { return Created(c.seal, true, true, true); }
      if c.send != 0 { return Created(c.send, true, true, true); }
      stdioHeld := false;
      if c.handshake != 0 { return Created(c.handshake, true, true, true); }
      if c.prepared != A.Accepted || c.release != A.Accepted { return Created(ECANCELED, true, true, true); }
      Meanwhile(record);
      return Created(c.wake, true, true, true);
    }

    /** How the record stands once creation has ceased. */
    ghost predicate CreatedAs(m: Created)
      reads this, record
    {
      var r := record.rec;
      && !r.state.creatorPending && !r.state.admissionPending && r.observation == 0 && r.cleanup == 0
      && (m.initial ==> m.scope) && (m.scope ==> m.allocation)
      && (m.scope ==> r.state.scope == Captured)
      && (r.permanentFault <==> m.allocation && !m.scope)
      && (!m.initial ==> r.state.initial == InitialAbsent)
      && (m.initial ==> r.state.initial == Owned || r.state.initial == Reaped)
      && (!m.allocation ==> r.state.complete)
      && (m.allocation ==> !r.state.complete)
    }

    /** How the record stands when the creation steps have ended, before their end is reported. */
    ghost predicate Making(m: Created)
      reads this, record
    {
      var r := record.rec;
      && record.Valid() && r.state.startAccepted && r.state.creatorPending && !r.permanentFault && r.observation == 0
         && r.cleanup == 0
      && (m.initial ==> m.scope) && (m.scope ==> m.allocation)
      && r.state.initial == (if m.initial then Owned else InitialUnknown)
      && (!m.scope ==> r.state.scope == ScopeUnknown)
      && (m.scope ==> r.state.scope == ScopeUnknown || r.state.scope == Captured)
    }

    /** The creation steps, and what went wrong in them. */
    method Make(c: Creation) returns (m: Created)
      requires Working() && record.rec.state.creatorPending && !record.rec.permanentFault
      requires record.rec.state.initial == InitialUnknown && record.rec.state.scope == ScopeUnknown
      requires record.rec.observation == 0 && record.rec.cleanup == 0
      modifies record, this`stdioHeld, this`error
      ensures Making(m) && !stdioHeld
      ensures m.allocation && !m.scope ==> CreationTroubled(c)
      ensures m.scope && record.rec.state.scope != Captured ==> CreationTroubled(c)
      ensures m.error < 0 ==> CreationTroubled(c)
    {
      m := CreateScope(c);
      if m.error == 0 { m := CreateInitial(c); }
      stdioHeld := false;
      if m.error != 0 {
        error := m.error;
        var _ := record.Abort(m.error);
      }
    }

    /** All of creation, to the report that it has ceased. */
    method Create(c: Creation) returns (m: Created)
      requires Working() && record.rec.state.creatorPending && !record.rec.permanentFault
      requires record.rec.state.initial == InitialUnknown && record.rec.state.scope == ScopeUnknown
      requires record.rec.observation == 0 && record.rec.cleanup == 0 && slotHeld
      modifies this, record
      ensures record.Valid() && record.rec.state.startAccepted && !stdioHeld && slotHeld
      ensures killerStarted == old(killerStarted) && Untouched()
      ensures finished ==> Ended() && (CreationTroubled(c) || record.shared.gate.flags.entered)
      ensures !finished ==> Working() && CreatedAs(m)
      ensures m.allocation && !m.scope ==> CreationTroubled(c)
    {
      phase := Creating;
      m := Make(c);
      var ok := Cease(m);
      if !ok { Block(EPROTO); }
    }

    /** Reports to the record that creation has ceased, and with what. */
    method Cease(m: Created) returns (ok: bool)
      requires Making(m)
      modifies record
      ensures record.Valid() && record.rec.state.startAccepted
      ensures ok ==> CreatedAs(m)
      ensures !ok ==> !record.rec.state.complete && (m.error < 0 || record.shared.gate.flags.entered
                      || (m.scope && record.rec.state.scope != Captured))
      ensures !ok ==> record.rec.state.scope == old(record.rec.state.scope)
    {
      var initialFact := if m.initial then FactCaptured else FactAbsent;
      var scopeFact := if m.scope then FactCaptured else if m.allocation then FactUnknown else FactAbsent;
      ok := record.CreatorFinished(initialFact, scopeFact, m.error);
    }

    /** Waits for the initial process once; true when it has been reaped. */
    method Reap(w: Wait) returns (reaped: bool)
      requires Working() && CreatedAs(Created(0, true, true, true)) && record.rec.state.initial == Owned
      modifies this`error, this`blocked, this`phase, this`finished, record
      ensures record.Valid() && record.rec.state.startAccepted
      ensures finished ==> !reaped && !record.rec.state.complete && blocked && phase == Blocked && error != 0
      ensures finished ==> w.WaitFailed? || (w.Ended? && !ExitValid(w.exit))
      ensures !finished ==> Working() && CreatedAs(Created(0, true, true, true)) && phase == old(phase)
      ensures !finished ==> record.rec.state.initial == if reaped then Reaped else Owned
      ensures !finished && w.Ended? ==> reaped
    {
      match w
      case Running => return false;
      case WaitFailed(errno) =>
        Block(errno);
        return false;
      case Ended(exit) =>
        if exit == NoExit {
          Block(ECHILD);
          return false;
        }
        var ok := record.InitialExited(exit);
        if ok { ok := record.InitialReaped(); }
        if !ok {
          Block(EPROTO);
          return false;
        }
        return true;
    }

    /** What holds of the record through one reclamation. */
    ghost predicate Reclaims(n: nat)
      reads this, record
    {
      record.rec.cleanup == n && n != 0 && record.rec.state.scope == Captured
    }

    /** The scope is gone: gives the place back and completes the record. */
    method Reclaimed(n: nat, retire: A.Outcome)
      requires Working() && Reclaims(n) && slotHeld && !stdioHeld && !killerStarted
      modifies this`slotHeld, this`error, this`blocked, this`phase, this`finished, this`retired, this`cleanup, record
      ensures record.Valid() && record.rec.state.startAccepted && Ended()
      ensures record.rec.state.complete && (retired <==> retire == A.Accepted)
    {
      TicketMeansStopped(record.rec, record.shared, record.meaning, record.past, record.operationLimit, record.maximum);
      var gone := GiveUpPlace(retire);
      Meanwhile(record);
      var ok := record.FinishCleanup(n, CleanedUp, 0);
      cleanup := 0;
      if !gone {
        Block(EPROTO);
      } else {
        Retire();
      }
    }

    /** Reclamation failed: the record keeps its scope. */
    method Unreclaimed(n: nat, failure: int)
      requires Working() && Reclaims(n)
      modifies this`error, this`blocked, this`phase, this`finished, this`cleanup, record
      ensures record.Valid() && record.rec.state.startAccepted && Ended() && !retired
    {
      var _ := record.FinishCleanup(n, Failed, if failure != 0 then failure else EIO);
      cleanup := 0;
      Block(failure);
    }

    /** Walks the reclamation cursor to its end, if it comes to one. */
    method Walk(n: nat, t: Round)
      requires Working() && Reclaims(n) && slotHeld && !stdioHeld && !killerStarted
      modifies this`slotHeld, this`error, this`blocked, this`phase, this`finished, this`retired, this`cleanup, record
      ensures record.Valid() && record.rec.state.startAccepted
      ensures finished ==> Ended() && (!retired ==> TurnTroubled(t))
      ensures !finished ==> Working() && record.rec.cleanup != 0
      ensures !finished ==> t.begin.Some? && forall i :: 0 <= i < |t.begin.value| ==> t.begin.value[i] == More
    {
      if t.begin.None? {
        Unreclaimed(n, t.beginError);
        return;
      }
      for i := 0 to |t.begin.value|
        invariant Working() && Reclaims(n) && slotHeld
        invariant forall k :: 0 <= k < i ==> t.begin.value[k] == More
      {
        match t.begin.value[i]
        case More =>
        case Gone =>
          Reclaimed(n, t.retire);
          return;
        case Stuck(errno) =>
          Unreclaimed(n, errno);
          return;
      }
    }

    /** Joins the killer, then takes a cleanup ticket: after a valid finding that
        the scope is empty only an exhausted ticket sequence refuses one. */
    method BeginReclaim() returns (n: nat)
      requires Working() && Reclaimable(record.rec)
      modifies this`killerStarted, record
      ensures record.Valid() && record.rec.state.startAccepted && record.rec.state.scope == Captured && !killerStarted
      ensures n == 0 ==> record.rec.permanentFault
      ensures n != 0 ==> Reclaims(n)
    {
      StopKiller();
      Meanwhile(record);
      n := record.Reclaim();
    }

    method Reclaim(t: Round)
      requires Working() && slotHeld && !stdioHeld && Reclaimable(record.rec)
      modifies this, record
      ensures record.Valid() && record.rec.state.startAccepted
      ensures finished ==> Ended() && (!retired ==> TurnTroubled(t) || record.rec.permanentFault)
      ensures !finished ==> Working() && record.rec.cleanup != 0
      ensures Untouched()
    {
      var n := BeginReclaim();
      if n == 0 {
        Block(EPROTO);
        return;
      }
      cleanup, issued, phase := n, t.clock, Reclaiming;
      Meanwhile(record);
      Walk(n, t);
    }

    /** One observation of the scope, from its ticket to its end. */
    method Observe(population: Population, clock: nat) returns (ticket: bool, current: bool)
      requires Working() && Observable(record.rec)
      modifies this`observation, this`issued, this`phase, this`blocked, record
      ensures record.Valid() && record.rec.state.startAccepted && record.rec.state.scope == Captured
      ensures phase != Blocked && phase != Retired
      ensures !ticket ==> record.rec.permanentFault
      ensures ticket ==> record.rec.state.initial == old(record.rec.state.initial)
      ensures ticket ==> Observable(record.rec) && (current ==> record.rec.state.population == population)
    {
      var n := record.Observe();
      if n == 0 { return false, false; }
      observation, issued, phase := n, clock, Observing;
      Meanwhile(record);
      current := record.FinishObservation(n, population);
      if current && population != Unknown { blocked := false; }
      observation := 0;
      return true, current;
    }

    /** Observes the scope once, and reclaims it when it is found empty. */
    method Watch(t: Round)
      requires Working() && slotHeld && !stdioHeld && Observable(record.rec)
      modifies this, record
      ensures record.Valid() && record.rec.state.startAccepted
      ensures finished ==> Ended() && (!retired ==> TurnTroubled(t) || record.rec.permanentFault)
      ensures !finished ==> Working() && record.rec.state.scope == Captured
      ensures !finished && record.rec.cleanup == 0 ==>
                Observable(record.rec) && slotHeld && !stdioHeld
                  && record.rec.state.initial == old(record.rec.state.initial)
      ensures Untouched()
    {
      var ticket, current := Observe(t.population, t.clock);
      if !ticket {
        Block(EPROTO);
      } else if t.population == Unknown {
        Block(t.populationError);
      } else if current && t.population == Empty {
        Reclaim(t);
      } else {
        phase := Supervising;
      }
    }

    /** Admission reported to the record; true: creation may begin. */
    method Admit(admit: A.Outcome, refusal: A.Outcome) returns (go: bool)
      requires Fresh() && Working() && record.rec.state.admissionPending && !record.rec.permanentFault
      modifies this, record
      ensures record.Valid() && record.rec.state.startAccepted
      ensures !go ==> finished && Ended() && (!retired ==> refusal != A.Accepted || record.rec.permanentFault)
      ensures Untouched()
      ensures go ==> Working() && slotHeld
                     && record.rec.state.creatorPending && !record.rec.permanentFault
                     && record.rec.state.initial == InitialUnknown && record.rec.state.scope == ScopeUnknown
                     && record.rec.observation == 0 && record.rec.cleanup == 0
    {
      slotHeld := admit == A.Accepted;
      go := record.AdmissionFinished(admit);
      if !go {
        Refuse(refusal);
      }
    }

    /** The end of a work that was not admitted. */
    method Refuse(refusal: A.Outcome)
      requires Working() && (record.rec.permanentFault || record.rec.state.complete) && record.shared.gate.flags.stopped
      modifies this, record
      ensures record.Valid() && record.rec.state.startAccepted && Ended() && Untouched()
      ensures !retired ==> refusal != A.Accepted || record.rec.permanentFault
    {
      stdioHeld := false;
      StopKiller();
      if slotHeld { var _ := GiveUpPlace(refusal); }
      var seen, _, _ := record.Inspect();
      if !slotHeld && seen.complete {
        Retire();
      } else {
        Block(EPROTO);
      }
    }

    /** The end of a work that never had a scope. */
    method Conclude(m: Created, t: Round)
      requires Working() && CreatedAs(m) && !m.scope && slotHeld && !stdioHeld
      modifies this, record
      ensures record.Valid() && record.rec.state.startAccepted && Ended() && Untouched()
      ensures !retired ==> m.allocation || TurnTroubled(t)
    {
      if m.allocation {
        Block(m.error);
        return;
      }
      StopKiller();
      var gone := GiveUpPlace(t.retire);
      if !gone {
        Block(EPROTO);
      } else {
        Retire();
      }
    }

    /** Supervises one work, for as many turns as rounds has. When it finishes,
        the job is retired exactly when the record is complete, the place with
        the authority is given back, the killer is joined and the descriptor
        lease is dropped; otherwise it is blocked, and some answer from outside
        or an exhausted or contradicted record is to blame. */
    method Supervise(admit: A.Outcome, refusal: A.Outcome, c: Creation, rounds: seq<Round>)
      requires Fresh() && Working() && record.rec.state.admissionPending && !record.rec.permanentFault
      modifies this, record
      ensures record.Valid()
      ensures finished ==> Ended()
      ensures finished && !retired ==>
                Troubled(refusal, c, rounds) || record.rec.permanentFault || record.shared.gate.flags.entered
      ensures !finished ==> Working() && (rounds != [] ==> record.rec.state.scope == Captured)
      ensures Untouched()
    {
      var go := Admit(admit, refusal);
      if !go { return; }
      var m := Create(c);
      if finished { return; }
      phase := Supervising;
      for i := 0 to |rounds|
        invariant Working() && CreatedAs(m) && slotHeld && !stdioHeld && Untouched()
        invariant i > 0 ==> m.scope
        invariant m.allocation && !m.scope ==> CreationTroubled(c)
      {
        var on := Turn(m, rounds[i]);
        if !on { return; }
      }
    }

    /** One turn of the loop; false: it came to its end, or to a reclamation that goes on. */
    method Turn(m: Created, t: Round) returns (on: bool)
      requires Working() && CreatedAs(m) && slotHeld && !stdioHeld
      modifies this, record
      ensures record.Valid() && record.rec.state.startAccepted && Untouched()
      ensures finished ==> !on && Ended()
      ensures finished && !retired ==> (m.allocation && !m.scope) || TurnTroubled(t) || record.rec.permanentFault
      ensures !finished ==> Working() && m.scope && record.rec.state.scope == Captured
      ensures on ==> !finished && CreatedAs(m) && slotHeld && !stdioHeld
    {
      if record.rec.state.initial == Owned {
        var _ := Reap(t.wait);
        if finished { return false; }
      }
      if record.rec.state.initial != Owned {
        if !m.scope {
          Conclude(m, t);
          return false;
        }
        Watch(t);
        if finished || record.rec.cleanup != 0 { return false; }
      }
      Meanwhile(record);
      return true;
    }
  }

  predicate Overdue(current: nat, issued: nat, limit: nat) {
    current == 0 || current < issued || current - issued >= limit
  }

  predicate Collectable(j: Job)
    reads j
  {
    j.published && j.finished && !j.joined && !j.collecting
  }

  class Runtime {
    const jobs: array<Job?>
    const limit: nat
    var valid: bool
    var closed: bool

    constructor (places: nat, limit: nat, valid: bool)
      ensures Valid() && jobs.Length == places && this.limit == limit && this.valid == valid && !closed
      ensures fresh(jobs) && forall i :: 0 <= i < jobs.Length ==> jobs[i] == null
    {
      jobs := new Job?[places](_ => null);
      this.limit, this.valid, closed := limit, valid, false;
    }

    ghost function Jobs(): set<object>
      reads this, jobs
    {
      set i | 0 <= i < jobs.Length && jobs[i] != null :: jobs[i]
    }

    /** The jobs and their records are distinct, and a finished job has come to a
        proper end. */
    ghost predicate Valid()
      reads this, jobs, Jobs(), set i | 0 <= i < jobs.Length && jobs[i] != null :: jobs[i].record
    {
      && (forall i, j :: 0 <= i < j < jobs.Length && jobs[i] != null && jobs[j] != null ==>
            jobs[i] != jobs[j] && jobs[i].record != jobs[j].record)
      && (forall i :: 0 <= i < jobs.Length && jobs[i] != null && jobs[i].finished ==> jobs[i].Ended())
    }

    /** Times a job's overdue ticket out; the job then counts as blocked. */
    method Expire(job: Job, current: nat)
      requires job.record.Valid() && job.record.rec.state.startAccepted
      modifies job`blocked, job.record
      ensures job.record.Valid() && job.record.Keeps() && Disturbed(old(job.record.rec), job.record.rec)
      ensures !Overdue(current, job.issued, limit) ==>
              job.record.rec == old(job.record.rec) && job.blocked == old(job.blocked)
      ensures Overdue(current, job.issued, limit) && job.observation != 0
              && old(job.record.rec.observation) == job.observation ==>
                job.blocked && job.record.rec.observationInvalid
      ensures Overdue(current, job.issued, limit) && job.cleanup != 0
              && old(job.record.rec.cleanup) == job.cleanup ==>
                job.blocked
    {
      if (job.observation != 0 || job.cleanup != 0) && Overdue(current, job.issued, limit) {
        var timed := TimeOut(job.record, job.observation, job.cleanup);
        if timed { job.blocked := true; }
      }
    }

    /** The lifecycle thread of the job in a place, which keeps the table in order. */
    method Run(k: nat, admit: A.Outcome, refusal: A.Outcome, c: Creation, rounds: seq<Round>)
      requires Valid() && k < jobs.Length && jobs[k] != null && jobs[k].Fresh() && jobs[k].Working()
      requires jobs[k].record.rec.state.admissionPending && !jobs[k].record.rec.permanentFault
      modifies jobs[k], jobs[k].record
      ensures Valid() && jobs[k].record.Valid()
      ensures jobs[k].finished && !jobs[k].retired ==>
                || Troubled(refusal, c, rounds) || jobs[k].record.rec.permanentFault
                || jobs[k].record.shared.gate.flags.entered
      ensures !jobs[k].finished ==> jobs[k].Working()
      ensures jobs[k].published == old(jobs[k].published) && !jobs[k].joined && !jobs[k].collecting
    {
      jobs[k].Supervise(admit, refusal, c, rounds);
    }

    /** Joins the worker of one place if it has returned, and frees the place if its job is retired. */
    method Join(k: nat)
      requires Valid() && k < jobs.Length
      modifies jobs, if jobs[k] == null then {} else {jobs[k]}
      ensures Valid() && forall i :: 0 <= i < jobs.Length && i != k ==> jobs[i] == old(jobs[i])
      ensures old(jobs[k]) == null ==> jobs[k] == null
      ensures old(jobs[k]) != null ==> Polled(old(jobs[k]), jobs[k])
    {
      var job := jobs[k];
      if job != null && Collectable(job) {
        job.joined, job.collecting := true, false;
        if job.retired { jobs[k] := null; }
      }
    }

    /** What a poll makes of one job: it is gone exactly when its worker had returned
        and it was retired, and then everything had been given back. */
    twostate predicate Polled(was: Job, new job: Job?)
      reads was, was.record, if job == null then {} else {job}
    {
      && (job == null <==> old(Collectable(was)) && old(was.retired))
      && (job == null ==> old(was.GivenBack()))
      && (job != null ==> job == was && (job.joined <==> old(was.joined) || old(Collectable(was))))
    }

    /** Joins the workers that have returned. A place in the table becomes free
        exactly when its worker has returned and the job is retired, and then
        everything the work took has been given back. */
    method Poll()
      requires Valid()
      modifies jobs, Jobs()
      ensures Valid()
      ensures forall i :: 0 <= i < jobs.Length && old(jobs[i]) == null ==> jobs[i] == null
      ensures forall i :: 0 <= i < jobs.Length && old(jobs[i]) != null ==> Polled(old(jobs[i]), jobs[i])
    {
      for k := 0 to jobs.Length
        invariant Valid()
        invariant forall i :: k <= i < jobs.Length ==> jobs[i] == old(jobs[i])
        invariant forall i :: k <= i < jobs.Length && jobs[i] != null ==> unchanged(jobs[i])
        invariant forall i :: 0 <= i < k && old(jobs[i]) == null ==> jobs[i] == null
        invariant forall i :: 0 <= i < k && old(jobs[i]) != null ==> Polled(old(jobs[i]), jobs[i])
      {
        Join(k);
      }
    }

    /** Polls, then puts an accepted work in the first free place and starts its
        threads; killer and lifecycle are what starting them answers. */
    method Submit(record: Record, accepted: bool, killer: int, lifecycle: int) returns (error: int, job: Job?)
      requires Valid()
      modifies jobs, Jobs()
      ensures Valid() && (error == 0 <==> job != null)
      ensures !accepted ==> error == EINVAL && jobs[..] == old(jobs[..])
      ensures accepted && (!valid || closed) ==> error == ESHUTDOWN
      ensures forall i :: 0 <= i < jobs.Length && jobs[i] != null && jobs[i] != job ==> jobs[i] == old(jobs[i])
      ensures forall i :: 0 <= i < jobs.Length && old(jobs[i]) != null && jobs[i] != old(jobs[i]) ==>
                old(Collectable(jobs[i])) && old(jobs[i].retired) && old(jobs[i].GivenBack())
      ensures error == 0 ==>
                && fresh(job) && job.record == record && job.Fresh() && job.published && accepted && valid && !closed
                && exists slot :: 0 <= slot < jobs.Length && jobs[slot] == job
      ensures accepted && valid && !closed && killer == 0 && lifecycle == 0 && error != 0 ==>
                || (error == EALREADY
                    && exists i :: 0 <= i < jobs.Length && jobs[i] != null && jobs[i].record == record)
                || (error == ENOSPC && forall i :: 0 <= i < jobs.Length ==> jobs[i] != null)
    {
      if !accepted { return EINVAL, null; }
      Poll();
      error, job := Place(record, killer, lifecycle);
    }

    /** The part of Submit under the lock, and the start of the threads. */
    method Place(record: Record, killer: int, lifecycle: int) returns (error: int, job: Job?)
      requires Valid()
      modifies jobs
      ensures Valid() && (error == 0 <==> job != null)
      ensures error != 0 ==> jobs[..] == old(jobs[..])
      ensures error == 0 ==>
                exists slot :: 0 <= slot < jobs.Length && jobs[..] == old(jobs[..])[slot := job] && jobs[slot] == job
                               && old(jobs[slot]) == null && forall i :: 0 <= i < slot ==> old(jobs[i]) != null
      ensures error == 0 ==>
                && fresh(job) && job.record == record && job.Fresh() && job.published && valid && !closed
                && forall i :: 0 <= i < jobs.Length && old(jobs[i]) != null ==> old(jobs[i]).record != record
      ensures !valid || closed ==> error == ESHUTDOWN
      ensures valid && !closed
              && (exists i :: 0 <= i < jobs.Length && old(jobs[i]) != null && old(jobs[i]).record == record) ==>
                error == EALREADY
      ensures valid && !closed && killer == 0 && lifecycle == 0 && error != 0 ==>
                || (error == EALREADY
                    && exists i :: 0 <= i < jobs.Length && jobs[i] != null && jobs[i].record == record)
                || (error == ENOSPC && forall i :: 0 <= i < jobs.Length ==> jobs[i] != null)
    {
      if !valid || closed { return ESHUTDOWN, null; }
      var slot := FreePlace(record);
      if slot < 0 { return EALREADY, null; }
      if slot == jobs.Length { return ENOSPC, null; }
      job := new Job(record);
      jobs[slot] := job;
      error := if killer != 0 then killer else lifecycle;
      if error != 0 {
        jobs[slot] := null;
        assert jobs[..] == old(jobs[..]);
        return error, null;
      }
      job.published := true;
      assert jobs[..] == old(jobs[..])[slot := job];
    }

    /** The first free place, the length if there is none, or -1 for a work that has one. */
    method FreePlace(record: Record) returns (slot: int)
      ensures -1 <= slot <= jobs.Length
      ensures slot == -1 <==> exists i :: 0 <= i < jobs.Length && jobs[i] != null && jobs[i].record == record
      ensures slot >= 0 ==> forall i :: 0 <= i < slot ==> jobs[i] != null
      ensures 0 <= slot < jobs.Length ==> jobs[slot] == null
    {
      slot := jobs.Length;
      for i := 0 to jobs.Length
        invariant slot == jobs.Length || 0 <= slot < i
        invariant slot == jobs.Length ==> forall k :: 0 <= k < i ==> jobs[k] != null
        invariant slot < i ==> jobs[slot] == null && forall k :: 0 <= k < slot ==> jobs[k] != null
        invariant forall k :: 0 <= k < i && jobs[k] != null ==> jobs[k].record != record
      {
        if jobs[i] != null && jobs[i].record == record { return -1; }
        if jobs[i] == null && slot == jobs.Length { slot := i; }
      }
    }

    /** Drained: no place is taken any more. */
    method Drained() returns (yes: bool)
      ensures yes <==> forall i :: 0 <= i < jobs.Length ==> jobs[i] == null
    {
      for i := 0 to jobs.Length
        invariant forall k :: 0 <= k < i ==> jobs[k] == null
      {
        if jobs[i] != null { return false; }
      }
      return true;
    }
  }
}
