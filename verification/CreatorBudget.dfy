/**
 The creator budget: records charge it with a weak compare-exchange loop and
 release it with a fetch-sub, all without a lock.
 */
module CreatorBudget {

  /** One record: whether its creator is charged, or where it is in Acquire. */
  datatype Holder = Idle | Trying(value: nat) | Charged | Refused(value: nat)

  datatype State = State(used: nat, holders: seq<Holder>)

  datatype Choice =
    | Join                                // a new record
    | Load(i: nat)                        // Acquire begins
    | Exchange(i: nat, spurious: bool)    // one turn of its loop
    | Release(i: nat)                     // its creator ceased

  function Next(maximum: nat, s: State, c: Choice): State {
    match c
    case Join => s.(holders := s.holders + [Idle])
    case Load(i) =>
      if i < |s.holders| && s.holders[i] == Idle then s.(holders := s.holders[i := Trying(s.used)]) else s
    case Exchange(i, spurious) =>
      if i < |s.holders| && s.holders[i].Trying? then
        var value := s.holders[i].value;
        if value >= maximum then s.(holders := s.holders[i := Refused(value)])
        else if spurious || s.used != value then s.(holders := s.holders[i := Trying(s.used)])
        else State(value + 1, s.holders[i := Charged])
      else s
    case Release(i) =>
      if i < |s.holders| && s.holders[i] == Charged && s.used > 0
      then State(s.used - 1, s.holders[i := Idle]) else s
  }

  function Exec(maximum: nat, s: State, schedule: seq<Choice>): State
    decreases |schedule|
  {
    if schedule == [] then s else Exec(maximum, Next(maximum, s, schedule[0]), schedule[1..])
  }

  /** The number of records whose creator is charged. */
  function Count(holders: seq<Holder>): nat {
    if holders == [] then 0
    else Count(holders[..|holders| - 1]) + if holders[|holders| - 1] == Charged then 1 else 0
  }

  lemma {:induction false} CountUpdate(holders: seq<Holder>, i: nat, h: Holder)
    requires i < |holders|
    ensures Count(holders[i := h]) ==
            Count(holders) - (if holders[i] == Charged then 1 else 0) + (if h == Charged then 1 else 0)
  {
    var n := |holders| - 1;
    if i < n {
      CountUpdate(holders[..n], i, h);
      assert holders[i := h][..n] == holders[..n][i := h];
    } else {
      assert holders[i := h][..n] == holders[..n];
    }
  }

  ghost predicate Sound(maximum: nat, s: State) {
    && s.used == Count(s.holders) <= maximum
    && (forall i :: 0 <= i < |s.holders| && s.holders[i].Refused? ==> s.holders[i].value >= maximum)
  }

  lemma NextSound(maximum: nat, s: State, c: Choice)
    requires Sound(maximum, s)
    ensures Sound(maximum, Next(maximum, s, c))
  {
    match c
    case Join => assert Next(maximum, s, c).holders[..|s.holders|] == s.holders;
    case Load(i) => if i < |s.holders| { CountUpdate(s.holders, i, Trying(s.used)); }
    case Exchange(i, spurious) =>
      if i < |s.holders| && s.holders[i].Trying? {
        CountUpdate(s.holders, i, Next(maximum, s, c).holders[i]);
      }
    case Release(i) => if i < |s.holders| { CountUpdate(s.holders, i, Idle); }
  }

  /** The budget in use is the number of charged records and never exceeds the
      limit, in every interleaving; a refusal came from a full budget; and the
      release of a charged record is never lost. */
  lemma {:induction false} BudgetIsExact(maximum: nat, s: State, schedule: seq<Choice>)
    requires Sound(maximum, s)
    ensures Sound(maximum, Exec(maximum, s, schedule))
    ensures var t := Exec(maximum, s, schedule);
            && t.used == Count(t.holders) <= maximum
            && forall i :: 0 <= i < |t.holders| && t.holders[i] == Charged ==> t.used > 0
    decreases |schedule|
  {
    if schedule != [] {
      NextSound(maximum, s, schedule[0]);
      BudgetIsExact(maximum, Next(maximum, s, schedule[0]), schedule[1..]);
    } else {
      forall i | 0 <= i < |s.holders| && s.holders[i] == Charged
        ensures s.used > 0
      {
        CountUpdate(s.holders, i, Idle);
      }
    }
  }
}
