/**
 The lifecycle gate: one registration, at most one outstanding query, and a
 lease that runs from the moment a query was issued, never from its reply.
 */
module Lifecycle {
  import opened Common

  const LEASE: nat := 2000
  const QUERY: nat := 1000
  const MAX_TOKEN: nat := INT64_MAX
  const LAST_ISSUE: nat := UINT64_MAX - LEASE

  datatype Standing = Absent | Pending | Ready

  /** The gate's fields as a value. */
  datatype Gate = Gate(
    generation: nat, observed: nat, deadline: nat,
    querySequence: nat, query: nat, issued: nat, standing: Standing)

  function Revoked(g: Gate): Gate {
    g.(standing := Absent, deadline := 0, query := 0, issued := 0)
  }

  /** The gate after the clock was read: expired leases and queries are gone. */
  function Checked(g: Gate, now: nat): Gate {
    if now < g.observed then Revoked(g)
    else
      var a := g.(observed := now);
      var b := if a.standing != Absent && now >= a.deadline then Revoked(a) else a;
      if b.query != 0 && now - b.issued >= QUERY then Revoked(b) else b
  }

  predicate Valid(g: Gate, now: nat) {
    now >= g.observed && Checked(g, now).standing != Absent
  }

  predicate IsReady(g: Gate, now: nat) {
    Valid(g, now) && Checked(g, now).standing == Ready
  }

  function ReadyUntil(g: Gate, now: nat): nat {
    var c := Checked(g, now);
    if !IsReady(g, now) then 0
    else if c.query != 0 && c.issued + QUERY < c.deadline then c.issued + QUERY
    else c.deadline
  }

  function Begun(g: Gate, now: nat): (Gate, nat) {
    var r := Revoked(g);
    if now < r.observed then (r, 0)
    else
      var a := r.(observed := now);
      if a.generation >= MAX_TOKEN || now > LAST_ISSUE then (a, 0)
      else (a.(generation := a.generation + 1, standing := Pending, deadline := now + LEASE), a.generation + 1)
  }

  function Queried(g: Gate, generation: nat, now: nat): (Gate, nat) {
    var c := Checked(g, now);
    if !Valid(g, now) || generation == 0 || generation != c.generation || c.query != 0 then (c, 0)
    else if c.querySequence >= MAX_TOKEN || now > LAST_ISSUE then (Revoked(c), 0)
    else (c.(querySequence := c.querySequence + 1, query := c.querySequence + 1, issued := now), c.querySequence + 1)
  }

  function Reported(g: Gate, generation: nat, challenge: nat, now: nat, running: bool, unlocked: bool): (Gate, bool) {
    var c := Checked(g, now);
    if !Valid(g, now) || generation == 0 || generation != c.generation || challenge == 0 || challenge != c.query
    then (c, false)
    else if !running || !unlocked then (Revoked(c), false)
    else (c.(query := 0, issued := 0, deadline := c.issued + LEASE, standing := Ready), true)
  }

  function Released(g: Gate, generation: nat): (Gate, bool) {
    if generation == 0 || generation != g.generation then (g, false) else (Revoked(g), true)
  }

  /** The gate object. Callers serialize its operations. */
  class LifecycleGate {
    var generation: nat
    var observed: nat
    var deadline: nat
    var querySequence: nat
    var query: nat
    var issued: nat
    var standing: Standing

    ghost function View(): Gate
      reads this
    {
      Gate(generation, observed, deadline, querySequence, query, issued, standing)
    }

    constructor (seed: nat, querySeed: nat)
      ensures View() == Gate(seed, 0, 0, querySeed, 0, 0, Absent)
    {
      generation, querySequence := seed, querySeed;
      observed, deadline, query, issued, standing := 0, 0, 0, 0, Absent;
    }

    method Revoke()
      modifies this
      ensures View() == Revoked(old(View()))
    {
      standing := Absent;
      deadline := 0;
      query := 0;
      issued := 0;
    }

    method Advance(now: nat) returns (ok: bool)
      modifies this
      ensures ok == (now >= old(observed))
      ensures View() == if ok then old(View()).(observed := now) else Revoked(old(View()))
    {
      if now < observed {
        Revoke();
        return false;
      }
      observed := now;
      return true;
    }

    method CheckValid(now: nat) returns (ok: bool)
      modifies this
      ensures ok == Valid(old(View()), now)
      ensures View() == Checked(old(View()), now)
    {
      var moved := Advance(now);
      if !moved { return false; }
      if standing != Absent && now >= deadline { Revoke(); }
      // Unsigned subtraction in the source; ReachableGate shows it cannot wrap.
      if query != 0 && now - issued >= QUERY { Revoke(); }
      return standing != Absent;
    }

    method CheckReady(now: nat) returns (ok: bool)
      modifies this
      ensures ok == IsReady(old(View()), now)
      ensures View() == Checked(old(View()), now)
    {
      var valid := CheckValid(now);
      return valid && standing == Ready;
    }

    method Until(now: nat) returns (until: nat)
      modifies this
      ensures until == ReadyUntil(old(View()), now)
      ensures View() == Checked(old(View()), now)
    {
      var ready := CheckReady(now);
      if !ready { return 0; }
      var pending := issued + QUERY;
      return if query != 0 && pending < deadline then pending else deadline;
    }

    method Begin(now: nat) returns (registration: nat)
      modifies this
      ensures (View(), registration) == Begun(old(View()), now)
    {
      Revoke();
      var moved := Advance(now);
      if !moved || generation >= MAX_TOKEN || now > LAST_ISSUE { return 0; }
      generation := generation + 1;
      standing := Pending;
      deadline := now + LEASE;
      return generation;
    }

    method BeginQuery(registration: nat, now: nat) returns (challenge: nat)
      modifies this
      ensures (View(), challenge) == Queried(old(View()), registration, now)
    {
      var valid := CheckValid(now);
      if !valid || registration == 0 || registration != generation || query != 0 { return 0; }
      if querySequence >= MAX_TOKEN || now > LAST_ISSUE {
        Revoke();
        return 0;
      }
      querySequence := querySequence + 1;
      query := querySequence;
      issued := now;
      return query;
    }

    method Report(registration: nat, challenge: nat, now: nat, running: bool, unlocked: bool) returns (ok: bool)
      modifies this
      ensures (View(), ok) == Reported(old(View()), registration, challenge, now, running, unlocked)
    {
      var valid := CheckValid(now);
      if !valid || registration == 0 || registration != generation || challenge == 0 || challenge != query {
        return false;
      }
      var askedAt := issued;
      query := 0;
      issued := 0;
      if !running || !unlocked {
        Revoke();
        return false;
      }
      deadline := askedAt + LEASE;
      standing := Ready;
      return true;
    }

    method Release(registration: nat) returns (ok: bool)
      modifies this
      ensures (View(), ok) == Released(old(View()), registration)
    {
      if registration == 0 || registration != generation { return false; }
      Revoke();
      return true;
    }
  }

  // Runs of the gate under arbitrary callers: any clock, any registration, any challenge.

  datatype Call =
    | Begin(now: nat)
    | BeginQuery(registration: nat, now: nat)
    | Report(registration: nat, challenge: nat, now: nat, running: bool, unlocked: bool)
    | Check(now: nat)
    | Release(registration: nat)
    | Revoke

  /** What happened, told without the gate's own fields. */
  datatype Event =
    | Registered(token: nat, at: nat)
    | Issued(challenge: nat, at: nat)
    | Answered(challenge: nat)
    | Ended

  function Apply(g: Gate, c: Call): Gate {
    match c
    case Begin(now) => Begun(g, now).0
    case BeginQuery(r, now) => Queried(g, r, now).0
    case Report(r, ch, now, a, b) => Reported(g, r, ch, now, a, b).0
    case Check(now) => Checked(g, now)
    case Release(r) => Released(g, r).0
    case Revoke => Revoked(g)
  }

  /** The observable outcome of a call, from its answer alone. */
  function Outcome(g: Gate, c: Call): seq<Event> {
    match c
    case Begin(now) => if Begun(g, now).1 != 0 then [Registered(Begun(g, now).1, now)] else [Ended]
    case BeginQuery(r, now) => if Queried(g, r, now).1 != 0 then [Issued(Queried(g, r, now).1, now)] else []
    case Report(r, ch, now, a, b) => if Reported(g, r, ch, now, a, b).1 then [Answered(ch)] else []
    case Release(r) => if Released(g, r).1 then [Ended] else []
    case Revoke => [Ended]
    case Check(_) => []
  }

  datatype Trace = Trace(gate: Gate, history: seq<Event>)

  function Step(t: Trace, c: Call): Trace {
    Trace(Apply(t.gate, c), t.history + Outcome(t.gate, c))
  }

  function Exec(t: Trace, calls: seq<Call>): Trace
    decreases |calls|
  {
    if calls == [] then t else Exec(Step(t, calls[0]), calls[1..])
  }

  function Fresh(seed: nat, querySeed: nat): Trace {
    Trace(Gate(seed, 0, 0, querySeed, 0, 0, Absent), [])
  }

  /** The issue time of the query still unanswered at the end of a history. */
  function Outstanding(h: seq<Event>): Option<nat> {
    if h == [] then None else
    match h[|h| - 1]
    case Issued(_, at) => Some(at)
    case _ => None
  }

  /** The issue time of the latest answered query of the current registration. */
  function LatestAnswered(h: seq<Event>): Option<nat> {
    if h == [] then None else
    match h[|h| - 1]
    case Registered(_, _) => None
    case Ended => None
    case Issued(_, _) => LatestAnswered(h[..|h| - 1])
    case Answered(_) => Outstanding(h[..|h| - 1])
  }

  ghost predicate Consistent(t: Trace) {
    var g := t.gate;
    && g.issued <= g.observed
    && (g.query == 0 ==> g.issued == 0)
    && (g.standing == Absent ==> g.query == 0 && g.deadline == 0)
    && (g.query != 0 ==> Outstanding(t.history) == Some(g.issued) && g.issued <= LAST_ISSUE)
    && (g.query == 0 && g.standing != Absent ==> Outstanding(t.history) == None)
    && (g.standing == Ready ==>
          LatestAnswered(t.history).Some? && g.deadline == LatestAnswered(t.history).value + LEASE
          && g.deadline <= UINT64_MAX)
    && (g.standing == Pending ==> LatestAnswered(t.history) == None && g.deadline <= UINT64_MAX)
  }

  /** What one more event makes of the two issue times that matter. */
  lemma OneMoreEvent(h: seq<Event>, e: Event)
    ensures Outstanding(h + [e]) == if e.Issued? then Some(e.at) else None
    ensures LatestAnswered(h + [e]) ==
            match e
            case Registered(_, _) => None
            case Ended => None
            case Issued(_, _) => LatestAnswered(h)
            case Answered(_) => Outstanding(h)
  {
    var all := h + [e];
    assert all[..|all| - 1] == h && all[|all| - 1] == e;
  }

  lemma StepConsistent(t: Trace, c: Call)
    requires Consistent(t)
    ensures Consistent(Step(t, c))
  {
    hide Outstanding, LatestAnswered;
    var more := Outcome(t.gate, c);
    if more == [] {
      assert t.history + more == t.history;
    } else {
      OneMoreEvent(t.history, more[0]);
      assert more == [more[0]];
    }
  }

  lemma {:induction false} ExecConsistent(t: Trace, calls: seq<Call>)
    requires Consistent(t)
    ensures Consistent(Exec(t, calls))
    decreases |calls|
  {
    if calls != [] {
      StepConsistent(t, calls[0]);
      ExecConsistent(Step(t, calls[0]), calls[1..]);
    }
  }

  /** No sum or difference in a reachable gate leaves the unsigned 64-bit range. */
  lemma ReachableGate(seed: nat, querySeed: nat, calls: seq<Call>, now: nat)
    requires now <= UINT64_MAX
    ensures var g := Exec(Fresh(seed, querySeed), calls).gate;
            && (now >= g.observed ==> now >= g.issued)
            && g.issued + QUERY <= UINT64_MAX
            && (g.query != 0 ==> g.issued + LEASE <= UINT64_MAX)
  {
    ExecConsistent(Fresh(seed, querySeed), calls);
  }

  /** The tokens and the challenges of a history rise, from above the seeds up to
      the gate's own counters. */
  ghost predicate Numbered(t: Trace, seed: nat, querySeed: nat) {
    var h := t.history;
    && seed <= t.gate.generation && querySeed <= t.gate.querySequence
    && (forall i :: 0 <= i < |h| && h[i].Registered? ==> seed < h[i].token <= t.gate.generation)
    && (forall i :: 0 <= i < |h| && h[i].Issued? ==> querySeed < h[i].challenge <= t.gate.querySequence)
    && (forall i, j :: 0 <= i < j < |h| && h[i].Registered? && h[j].Registered? ==> h[i].token < h[j].token)
    && (forall i, j :: 0 <= i < j < |h| && h[i].Issued? && h[j].Issued? ==> h[i].challenge < h[j].challenge)
  }

  /** A call gives at most one number, which is the gate's next. */
  lemma OutcomeNumbers(g: Gate, c: Call)
    ensures var more := Outcome(g, c);
            var n := Apply(g, c);
            && |more| <= 1 && g.generation <= n.generation && g.querySequence <= n.querySequence
            && (more != [] && more[0].Registered? ==> g.generation < more[0].token <= n.generation)
            && (more != [] && more[0].Issued? ==> g.querySequence < more[0].challenge <= n.querySequence)
  {
  }

  lemma StepNumbered(t: Trace, c: Call, seed: nat, querySeed: nat)
    requires Numbered(t, seed, querySeed)
    ensures Numbered(Step(t, c), seed, querySeed)
  {
    hide Apply, Outcome;
    OutcomeNumbers(t.gate, c);
  }

  lemma {:induction false} ExecNumbered(t: Trace, calls: seq<Call>, seed: nat, querySeed: nat)
    requires Numbered(t, seed, querySeed)
    ensures Numbered(Exec(t, calls), seed, querySeed)
    decreases |calls|
  {
    if calls != [] {
      StepNumbered(t, calls[0], seed, querySeed);
      ExecNumbered(Step(t, calls[0]), calls[1..], seed, querySeed);
    }
  }

  /** No registration token and no challenge is given twice in a run, none is zero,
      and each is larger than every earlier one. */
  lemma TokensAreNew(seed: nat, querySeed: nat, calls: seq<Call>, i: nat, j: nat)
    requires i < j < |Exec(Fresh(seed, querySeed), calls).history|
    ensures var h := Exec(Fresh(seed, querySeed), calls).history;
            && (h[i].Registered? && h[j].Registered? ==> seed < h[i].token < h[j].token)
            && (h[i].Issued? && h[j].Issued? ==> querySeed < h[i].challenge < h[j].challenge)
  {
    ExecNumbered(Fresh(seed, querySeed), calls, seed, querySeed);
  }

  lemma ReadyIsBounded(t: Trace, now: nat)
    requires Consistent(t) && ReadyUntil(t.gate, now) != 0
    ensures LatestAnswered(t.history).Some?
    ensures now < ReadyUntil(t.gate, now) <= LatestAnswered(t.history).value + LEASE
    ensures Outstanding(t.history).Some? ==> ReadyUntil(t.gate, now) <= Outstanding(t.history).value + QUERY
  {
  }

  /** A ready answer is bounded by the history: 2000 ms from the issue of the
      latest answered query, and 1000 ms from the issue of one still unanswered.
      Nothing else any caller did, in any order and with any clock, matters. */
  lemma ReadyOnlyFromIssue(seed: nat, querySeed: nat, calls: seq<Call>, now: nat)
    ensures var t := Exec(Fresh(seed, querySeed), calls);
            ReadyUntil(t.gate, now) != 0 ==>
              && LatestAnswered(t.history).Some?
              && now < ReadyUntil(t.gate, now) <= LatestAnswered(t.history).value + LEASE
              && (Outstanding(t.history).Some? ==>
                    ReadyUntil(t.gate, now) <= Outstanding(t.history).value + QUERY)
  {
    ExecConsistent(Fresh(seed, querySeed), calls);
  }

  /** A reply for another registration or challenge changes nothing that reading
      the clock would not have changed, whatever it reports. */
  lemma StaleReplyIsInert(g: Gate, registration: nat, challenge: nat, now: nat, running: bool, unlocked: bool)
    requires registration != g.generation || challenge != g.query || challenge == 0
    ensures Reported(g, registration, challenge, now, running, unlocked) == (Checked(g, now), false)
  {
  }

  /** A late reply, a clock that ran backwards and an expired lease all leave the
      gate absent, and only a new registration makes it present again. */
  lemma {:induction false} LostStaysLost(t: Trace, calls: seq<Call>)
    requires t.gate.standing == Absent
    requires forall i :: 0 <= i < |calls| ==> !calls[i].Begin?
    ensures Exec(t, calls).gate.standing == Absent
    decreases |calls|
  {
    if calls != [] {
      LostStaysLost(Step(t, calls[0]), calls[1..]);
    }
  }

  lemma LateReplyRevokes(t: Trace, registration: nat, challenge: nat, now: nat, running: bool, unlocked: bool)
    requires Consistent(t) && t.gate.query != 0
    requires now < t.gate.observed || now >= t.gate.issued + QUERY || now >= t.gate.deadline
    ensures Reported(t.gate, registration, challenge, now, running, unlocked) ==
            (Revoked(if now < t.gate.observed then t.gate else t.gate.(observed := now)), false)
  {
  }
}
