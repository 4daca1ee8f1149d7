/**
 Session records of the workshop phone: each session starts from the record before
 it, keeps what its images were verified to be, and records every write it allows.
 The records form one chain, along which the known releases only grow and the
 phone's release never falls.
 */
module Sessions {
  import opened Common
  import opened Releases

  const STABLE_MAX_AGE := 15 * 60       // seconds
  const READINGS_MAX_AGE := 15          // minutes
  const DAY := 24 * 60 * 60

  datatype Kind = Grapheneos | Stock | Andrix

  /** A write that was allowed. */
  datatype Entry = Entry(release: Release, image: nat, kind: Kind, at: nat)

  /** How the current stable release that starts a record was read. */
  datatype Stable = Stable(release: Release, fetchedAt: nat, build: Release, digest: nat)

  datatype Identity = Identity(kind: Kind, release: Release, stock: nat, wipes: bool, at: nat)

  datatype Session = Session(
    name: nat, day: nat, startedAt: nat, start: Release, carried: seq<Release>, previous: Option<nat>,
    stable: Option<Stable>, verified: map<nat, Identity>, allowed: seq<Entry>)

  // ---- one record

  function Written(allowed: seq<Entry>): (r: seq<Release>)
    ensures |r| == |allowed| && forall i :: 0 <= i < |r| ==> r[i] == allowed[i].release
  {
    seq(|allowed|, i requires 0 <= i < |allowed| => allowed[i].release)
  }

  /** The session's start, every carried release and every release written since. */
  function Known(s: Session): (r: seq<Release>)
    ensures r != [] && r[0] == s.start
  {
    [s.start] + s.carried + Written(s.allowed)
  }

  function PhoneRelease(s: Session): Release { Newest(Known(s)) }

  function LastEntry(s: Session): nat { if s.allowed == [] then s.startedAt else s.allowed[|s.allowed| - 1].at }

  predicate StableFits(s: Session) {
    match s.stable
    case None => s.previous.Some?
    case Some(e) =>
      && e.release == s.start && SameRelease(e.build, e.release)
      && e.fetchedAt <= s.startedAt <= e.fetchedAt + STABLE_MAX_AGE
  }

  predicate InOrder(last: nat, allowed: seq<Entry>)
    decreases |allowed|
  {
    allowed == [] || (last <= allowed[0].at && InOrder(allowed[0].at, allowed[1..]))
  }

  /** What check_session demands of a record. */
  predicate Checked(s: Session) {
    && s.day == s.startedAt / DAY
    && StableFits(s)
    && (forall d :: d in s.verified ==> s.verified[d].at >= s.startedAt)
    && s.start in s.carried && !Newer(Newest(s.carried), s.start)
    && InOrder(s.startedAt, s.allowed)
  }

  // ---- starting a session

  /** The current stable release, when it is newer than every carried one and is
      what the phone's build number shows. */
  function StableStart(
    stable: Option<Release>, fetchedAt: Option<nat>, build: Option<Release>, digest: nat, known: seq<Release>, now: nat)
    : (r: Option<Stable>)
  {
    if stable.None? || fetchedAt.None? || build.None? then None
    else if fetchedAt.value > now || now - fetchedAt.value > STABLE_MAX_AGE then None
    else if exists i :: 0 <= i < |known| && !Newer(stable.value, known[i]) then None
    else if Newer(stable.value, build.value) || !SameRelease(build.value, stable.value) then None
    else Some(Stable(stable.value, fetchedAt.value, build.value, digest))
  }

  datatype Opening = Opening(
    name: nat, day: nat, now: nat, stable: Option<Release>, fetchedAt: Option<nat>, build: Option<Release>,
      channelDigest: nat)

  predicate AnyStable(o: Opening) { o.stable.Some? || o.fetchedAt.Some? || o.build.Some? }

  /** The first record, which starts from the current stable release. */
  ghost function First(o: Opening): Option<Session> {
    match StableStart(o.stable, o.fetchedAt, o.build, o.channelDigest, [], o.now)
    case None => None
    case Some(e) =>
      var s := Session(o.name, o.day, o.now, e.release, [e.release], None, Some(e), map[], []);
      if Checked(s) then Some(s) else None
  }

  /** A later record carries over every release that the one before knows. */
  ghost function Later(o: Opening, prior: Session, digest: Session -> nat, names: set<nat>): Option<Session> {
    if o.name in names || !Checked(prior) || prior.name == o.name || o.now <= LastEntry(prior) then None
    else
      var known := Known(prior);
      if !AnyStable(o) then
        var s := Session(o.name, o.day, o.now, Newest(known), Sorted(known), Some(digest(prior)), None, map[], []);
        if Checked(s) then Some(s) else None
      else
        match StableStart(o.stable, o.fetchedAt, o.build, o.channelDigest, known, o.now)
        case None => None
        case Some(e) =>
          var s := Session(o.name, o.day, o.now, e.release, Sorted(known + [e.release]), Some(digest(prior)),
            Some(e), map[], []);
          if Checked(s) then Some(s) else None
  }

  // ---- verifying and deciding

  /** Keeps an image's identity under its digest, once. */
  ghost function Verified(s: Session, image: nat, identity: Identity): Option<Session> {
    if image in s.verified then
      if s.verified[image].(at := 0) == identity.(at := 0) then Some(s) else None
    else
      var t := s.(verified := s.verified[image := identity]);
      if Checked(t) then Some(t) else None
  }

  datatype Pending = Yes | No | Unknown

  /** What the desk and the phone say at a decision. */
  datatype Moment = Moment(
    stage: nat, booted: bool, pending: Pending, channelStable: bool,
    approvalName: nat, approvalDay: nat, artifacts: map<nat, (Kind, bool)>,
    taken: nat, now: nat, maxAge: nat, goesOn: bool, restricted: bool, firmwareKnown: bool,
    current: Option<(Release, nat)>, stock: map<nat, nat>, tags: set<nat>)

  /** Every signed tag between the two releases has a record, and both are tags. */
  predicate Covered(m: Moment, a: Release, b: Release) {
    var low, high := if a.base <= b.base then a.base else b.base, if a.base <= b.base then b.base else a.base;
    a.base in m.tags && b.base in m.tags && forall t :: t in m.tags && low <= t <= high ==> t in m.stock
  }

  /** Newer than the phone, or of the very stock build of the phone's release. */
  predicate Criterion(release: Release, stock: nat, reference: Release, m: Moment) {
    Newer(release, reference) || (reference.base in m.stock && stock == m.stock[reference.base])
  }

  /** While an update may be pending only the current stable release may be written. */
  predicate CurrentOnly(m: Moment) { !m.booted && (m.pending != No || m.restricted) }

  predicate CurrentFits(i: Identity, reference: Release, m: Moment) {
    && m.current.Some? && m.current.value.1 <= m.now && m.now - m.current.value.1 <= STABLE_MAX_AGE
    && i.kind == Grapheneos && SameRelease(i.release, m.current.value.0) && !Newer(reference, m.current.value.0)
  }

  /** The conditions before the versions are compared. */
  predicate MomentFits(s: Session, i: Identity, m: Moment) {
    && m.channelStable && m.approvalName == s.name && m.approvalDay == s.day
    && m.stage != 3 && (i.kind == Andrix ==> m.stage >= 8)
    && (m.booted ==> m.pending == No)
    && m.taken <= m.now && 1 <= m.maxAge <= READINGS_MAX_AGE && m.now - m.taken <= m.maxAge * 60
    && m.taken >= s.startedAt && (s.allowed != [] ==> m.taken > LastEntry(s))
    && m.goesOn && m.firmwareKnown
  }

  /** The identity kept for the image still agrees with the records supplied. */
  predicate IdentityFits(s: Session, image: nat, kind: Kind, m: Moment) {
    && image in s.verified && s.verified[image].kind == kind
    && s.verified[image].release.base in m.stock && m.stock[s.verified[image].release.base] == s.verified[image].stock
  }

  datatype Verdict = Refuse | Wait | Allow(session: Session)

  ghost function Decide(s: Session, image: nat, kind: Kind, m: Moment): Verdict {
    if !Checked(s) || !IdentityFits(s, image, kind, m) then Refuse
    else
      var i := s.verified[image];
      var reference := PhoneRelease(s);
      if !MomentFits(s, i, m) then Refuse
      else if CurrentOnly(m) && !CurrentFits(i, reference, m) then Refuse
      else if !Covered(m, reference, i.release) then Refuse
      else if !CurrentOnly(m) && !Criterion(i.release, i.stock, reference, m) then Refuse
      else if image !in m.artifacts then Wait
      else if m.artifacts[image] != (i.kind, i.wipes) then Refuse
      else
        var t := s.(allowed := s.allowed + [Entry(i.release, image, i.kind, m.now)]);
        if Checked(t) then Allow(t) else Refuse
  }

  // ---- what one step does to the known releases

  ghost predicate Includes(a: Session, b: Session) { forall r :: r in Known(a) ==> r in Known(b) }

  /** Knowing more never makes the phone's release older. */
  lemma PhoneRises(a: Session, b: Session)
    requires Includes(a, b)
    ensures PhoneRelease(a).base <= PhoneRelease(b).base
  {
  }

  lemma LaterCarries(o: Opening, prior: Session, digest: Session -> nat, names: set<nat>)
    requires Later(o, prior, digest, names).Some?
    ensures var s := Later(o, prior, digest, names).value;
            && Checked(s) && s.previous == Some(digest(prior)) && s.name == o.name && s.name !in names
            && s.startedAt > LastEntry(prior) && Includes(prior, s) && PhoneRelease(s) == s.start
  {
    hide Checked, StableStart, Sorted;
    var s := Later(o, prior, digest, names).value;
    forall r | r in Known(prior)
      ensures r in Known(s)
    {
      if AnyStable(o) { SortedHas(Known(prior) + [s.start], r); } else { SortedHas(Known(prior), r); }
      assert r in s.carried;
    }
    StartLeads(s);
  }

  /** A session starts exactly when it has a name of its own, its clock is past
      the record before, it names its day, and its stable release, if it was read,
      is one that may start it. */
  lemma LaterStarts(o: Opening, prior: Session, digest: Session -> nat, names: set<nat>)
    requires Checked(prior)
    ensures Later(o, prior, digest, names).Some? <==>
            && o.name !in names && o.name != prior.name && o.now > LastEntry(prior) && o.day == o.now / DAY
            && (AnyStable(o) ==>
                  StableStart(o.stable, o.fetchedAt, o.build, o.channelDigest, Known(prior), o.now).Some?)
  {
    hide Sorted, Known;
    var known := Known(prior);
    var carried := if AnyStable(o) && o.stable.Some? then known + [o.stable.value] else known;
    forall r
      ensures r in Sorted(carried) <==> r in carried
    {
      SortedHas(carried, r);
    }
    assert Newest(known) in Sorted(known) || AnyStable(o);
  }

  /** At its start a session's phone release is the release it starts from. */
  lemma StartLeads(s: Session)
    requires Checked(s) && s.allowed == []
    ensures PhoneRelease(s) == s.start
  {
    var known := Known(s);
    assert forall i :: 0 < i < |known| ==> known[i] in s.carried;
    assert forall i :: 0 <= i < |known| ==> known[i].base <= s.start.base;
    var k := NewestIndex(known);
    assert known[k].base <= known[0].base;
  }

  lemma {:induction false} OrderExtends(last: nat, allowed: seq<Entry>, e: Entry)
    requires InOrder(last, allowed) && (if allowed == [] then last else allowed[|allowed| - 1].at) <= e.at
    ensures InOrder(last, allowed + [e])
    decreases |allowed|
  {
    if allowed == [] {
      assert ([] + [e])[1..] == [];
    } else {
      assert (allowed + [e])[1..] == allowed[1..] + [e];
      OrderExtends(allowed[0].at, allowed[1..], e);
    }
  }

  /** An allowed write is recorded, always: the check after it cannot fail. */
  lemma DecisionIsRecorded(s: Session, image: nat, kind: Kind, m: Moment)
    requires Checked(s) && IdentityFits(s, image, kind, m) && MomentFits(s, s.verified[image], m)
    requires if CurrentOnly(m) then CurrentFits(s.verified[image], PhoneRelease(s), m)
             else Criterion(s.verified[image].release, s.verified[image].stock, PhoneRelease(s), m)
    requires Covered(m, PhoneRelease(s), s.verified[image].release)
    requires image in m.artifacts && m.artifacts[image] == (s.verified[image].kind, s.verified[image].wipes)
    ensures var i := s.verified[image];
            Decide(s, image, kind, m) == Allow(s.(allowed := s.allowed + [Entry(i.release, image, i.kind, m.now)]))
  {
    var i := s.verified[image];
    OrderExtends(s.startedAt, s.allowed, Entry(i.release, image, i.kind, m.now));
  }

  /** An allowed image is of the phone's release or newer, or it has the very
      stock build of the phone's release. */
  lemma OlderHasStockBuild(s: Session, image: nat, kind: Kind, m: Moment)
    requires Decide(s, image, kind, m).Allow?
    ensures var i := s.verified[image];
            var reference := PhoneRelease(s);
            Newer(reference, i.release) ==> reference.base in m.stock && i.stock == m.stock[reference.base]
  {
    hide Checked;
  }

  lemma DecisionExtends(s: Session, image: nat, kind: Kind, m: Moment)
    requires Decide(s, image, kind, m).Allow?
    ensures var t := Decide(s, image, kind, m).session;
            && Checked(t) && Includes(s, t) && t == s.(allowed := t.allowed)
            && s.verified[image].release in Known(t)
  {
    hide Checked;
    var t := Decide(s, image, kind, m).session;
    var e := Entry(s.verified[image].release, image, s.verified[image].kind, m.now);
    assert Written(t.allowed) == Written(s.allowed) + [e.release];
    assert Known(t) == Known(s) + [e.release];
  }

  lemma VerificationKeeps(s: Session, image: nat, identity: Identity)
    requires Checked(s) && Verified(s, image, identity).Some?
    ensures var t := Verified(s, image, identity).value;
            Checked(t) && Known(t) == Known(s) && t == s.(verified := t.verified)
  {
  }

  // ---- runs

  datatype Write = Write(release: Release, stock: nat, reference: Release, referenceStock: Option<nat>)

  datatype State = State(chain: seq<Session>, writes: seq<Write>)

  datatype Command =
    | Begin(o: Opening)
    | Continue(o: Opening)
    | Verify(image: nat, identity: Identity)
    | Choose(image: nat, kind: Kind, m: Moment)

  function Names(chain: seq<Session>): set<nat> { set i | 0 <= i < |chain| :: chain[i].name }

  function WithLast(chain: seq<Session>, s: Session): seq<Session>
    requires chain != []
  {
    chain[|chain| - 1 := s]
  }

  /** One command; a refused one changes nothing. */
  ghost function Next(st: State, c: Command, digest: Session -> nat): State {
    match c
    case Begin(o) =>
      if st.chain == [] && First(o).Some? then st.(chain := [First(o).value]) else st
    case Continue(o) =>
      if st.chain != [] && Later(o, st.chain[|st.chain| - 1], digest, Names(st.chain)).Some?
      then st.(chain := st.chain + [Later(o, st.chain[|st.chain| - 1], digest, Names(st.chain)).value]) else st
    case Verify(image, identity) =>
      if st.chain != [] && Verified(st.chain[|st.chain| - 1], image, identity).Some?
      then st.(chain := WithLast(st.chain, Verified(st.chain[|st.chain| - 1], image, identity).value)) else st
    case Choose(image, kind, m) =>
      if st.chain != [] && Decide(st.chain[|st.chain| - 1], image, kind, m).Allow? then
        var s := st.chain[|st.chain| - 1];
        var reference := PhoneRelease(s);
        State(WithLast(st.chain, Decide(s, image, kind, m).session),
              st.writes + [Write(s.verified[image].release, s.verified[image].stock, reference,
                                 if reference.base in m.stock then Some(m.stock[reference.base]) else None)])
      else st
  }

  ghost function Run(st: State, commands: seq<Command>, digest: Session -> nat): State
    decreases |commands|
  {
    if commands == [] then st else Run(Next(st, commands[0], digest), commands[1..], digest)
  }

  /** Each record names the digest of the one before and starts after its last entry. */
  ghost predicate Linked(chain: seq<Session>, digest: Session -> nat) {
    forall i :: 0 < i < |chain| ==>
      chain[i].previous == Some(digest(chain[i - 1])) && chain[i].startedAt > LastEntry(chain[i - 1])
  }

  /** One path from a single root, of well formed records with different names. */
  ghost predicate Path(chain: seq<Session>, digest: Session -> nat) {
    && (forall i :: 0 <= i < |chain| ==> Checked(chain[i]))
    && (chain != [] ==> chain[0].previous == None)
    && Linked(chain, digest)
    && (forall i, j :: 0 <= i < j < |chain| ==> chain[i].name != chain[j].name)
  }

  ghost predicate Grows(chain: seq<Session>) { forall i :: 0 < i < |chain| ==> Includes(chain[i - 1], chain[i]) }

  ghost predicate Honest(w: Write) { Newer(w.reference, w.release) ==> w.referenceStock == Some(w.stock) }

  ghost predicate Sound(st: State, digest: Session -> nat) {
    Path(st.chain, digest) && Grows(st.chain) && forall i :: 0 <= i < |st.writes| ==> Honest(st.writes[i])
  }

  lemma BeginSound(st: State, o: Opening, digest: Session -> nat)
    requires Sound(st, digest)
    ensures Sound(Next(st, Begin(o), digest), digest)
  {
    hide StableStart;
  }

  lemma PathExtends(chain: seq<Session>, link: Session, digest: Session -> nat)
    requires Path(chain, digest) && chain != [] && Checked(link) && link.name !in Names(chain)
    requires link.previous == Some(digest(chain[|chain| - 1])) && link.startedAt > LastEntry(chain[|chain| - 1])
    ensures Path(chain + [link], digest)
  {
    hide Checked, LastEntry, Linked;
    LinksExtend(chain, link, digest);
    assert forall i :: 0 <= i < |chain| ==> chain[i].name in Names(chain);
  }

  lemma LinksExtend(chain: seq<Session>, link: Session, digest: Session -> nat)
    requires Linked(chain, digest) && chain != []
    requires link.previous == Some(digest(chain[|chain| - 1])) && link.startedAt > LastEntry(chain[|chain| - 1])
    ensures Linked(chain + [link], digest)
  {
    hide LastEntry;
  }

  lemma ChainExtends(chain: seq<Session>, s: Session, digest: Session -> nat)
    requires chain != [] && Path(chain, digest) && Grows(chain) && Checked(s) && s.name !in Names(chain)
    requires var last := chain[|chain| - 1];
             s.previous == Some(digest(last)) && s.startedAt > LastEntry(last) && Includes(last, s)
    ensures Path(chain + [s], digest) && Grows(chain + [s])
  {
    hide Checked, Includes, LastEntry, Path;
    PathExtends(chain, s, digest);
  }

  lemma ContinueSound(st: State, o: Opening, digest: Session -> nat)
    requires Sound(st, digest)
    ensures Sound(Next(st, Continue(o), digest), digest)
  {
    hide Checked, Later, Includes, Path, Grows;
    if st.chain != [] {
      var last := st.chain[|st.chain| - 1];
      if Later(o, last, digest, Names(st.chain)).Some? {
        LaterCarries(o, last, digest, Names(st.chain));
        ChainExtends(st.chain, Later(o, last, digest, Names(st.chain)).value, digest);
      }
    }
  }

  /** Changing only the newest record, without its name, start or past, keeps the path. */
  lemma LastChanged(chain: seq<Session>, t: Session, digest: Session -> nat)
    requires chain != [] && Path(chain, digest) && Grows(chain) && Checked(t)
    requires var s := chain[|chain| - 1];
             t.name == s.name && t.previous == s.previous && t.startedAt == s.startedAt && Includes(s, t)
    ensures Path(WithLast(chain, t), digest) && Grows(WithLast(chain, t))
  {
    hide Checked;
    var after := WithLast(chain, t);
    assert forall i :: 0 <= i < |chain| - 1 ==> after[i] == chain[i];
    assert after[|chain| - 1] == t;
  }

  lemma NextSound(st: State, c: Command, digest: Session -> nat)
    requires Sound(st, digest)
    ensures Sound(Next(st, c, digest), digest)
  {
    hide Path, Grows, Decide, Verified, Later, First, Checked;
    match c
    case Begin(o) => BeginSound(st, o, digest);
    case Continue(o) => ContinueSound(st, o, digest);
    case Verify(image, identity) =>
      if st.chain != [] {
        var s := st.chain[|st.chain| - 1];
        LastIsChecked(st.chain, digest);
        if Verified(s, image, identity).Some? {
          VerificationKeeps(s, image, identity);
          LastChanged(st.chain, Verified(s, image, identity).value, digest);
        }
      }
    case Choose(image, kind, m) =>
      if st.chain != [] {
        var s := st.chain[|st.chain| - 1];
        if Decide(s, image, kind, m).Allow? {
          DecisionExtends(s, image, kind, m);
          OlderHasStockBuild(s, image, kind, m);
          LastChanged(st.chain, Decide(s, image, kind, m).session, digest);
        }
      }
  }

  lemma LastIsChecked(chain: seq<Session>, digest: Session -> nat)
    requires chain != [] && Path(chain, digest)
    ensures Checked(chain[|chain| - 1])
  {
    hide Checked;
  }

  lemma {:induction false} RunSound(st: State, commands: seq<Command>, digest: Session -> nat)
    requires Sound(st, digest)
    ensures Sound(Run(st, commands, digest), digest)
    decreases |commands|
  {
    hide Sound, Next;
    if commands != [] {
      NextSound(st, commands[0], digest);
      RunSound(Next(st, commands[0], digest), commands[1..], digest);
    }
  }

  const EMPTY := State([], [])

  /** The records of every run form one path from a single root, each knowing
      all that the one before knows, and every write it allowed was of the phone's
      release or newer, or of the stock build of the phone's release. */
  lemma RunIsOnePath(commands: seq<Command>, digest: Session -> nat)
    ensures Sound(Run(EMPTY, commands, digest), digest)
  {
    RunSound(EMPTY, commands, digest);
  }

  lemma {:induction false} KnownGrows(chain: seq<Session>, i: nat, j: nat)
    requires Grows(chain) && i <= j < |chain|
    ensures Includes(chain[i], chain[j]) && PhoneRelease(chain[i]).base <= PhoneRelease(chain[j]).base
    decreases j
  {
    hide PhoneRelease, Known;
    if i < j {
      KnownGrows(chain, i, j - 1);
      assert Includes(chain[j - 1], chain[j]);
    }
    PhoneRises(chain[i], chain[j]);
  }

  /** Nothing the phone is known to have had is forgotten, and its release never
      falls, whatever commands follow. */
  lemma {:induction false} PhoneNeverFalls(st: State, later: seq<Command>, digest: Session -> nat)
    requires Sound(st, digest) && st.chain != []
    ensures var after := Run(st, later, digest);
            && after.chain != []
            && Includes(st.chain[|st.chain| - 1], after.chain[|after.chain| - 1])
            && PhoneRelease(st.chain[|st.chain| - 1]).base <= PhoneRelease(after.chain[|after.chain| - 1]).base
    decreases |later|
  {
    hide Sound, PhoneRelease, Known, Next;
    var last := st.chain[|st.chain| - 1];
    if later != [] {
      var n := Next(st, later[0], digest);
      NextSound(st, later[0], digest);
      StepKnows(st, later[0], digest);
      PhoneNeverFalls(n, later[1..], digest);
      PhoneRises(last, n.chain[|n.chain| - 1]);
    }
  }

  lemma StepKnows(st: State, c: Command, digest: Session -> nat)
    requires Sound(st, digest) && st.chain != []
    ensures var n := Next(st, c, digest);
            n.chain != [] && Includes(st.chain[|st.chain| - 1], n.chain[|n.chain| - 1])
  {
    hide Checked, Later, Decide, Verified, Known, Grows;
    var s := st.chain[|st.chain| - 1];
    match c
    case Begin(_) =>
    case Continue(o) =>
      if Later(o, s, digest, Names(st.chain)).Some? { LaterCarries(o, s, digest, Names(st.chain)); }
    case Verify(image, identity) =>
      if Verified(s, image, identity).Some? { VerificationKeeps(s, image, identity); }
    case Choose(image, kind, m) =>
      if Decide(s, image, kind, m).Allow? { DecisionExtends(s, image, kind, m); }
  }
}
