/**
 Any number of polls of the runtime's job table at once. A poll marks the workers
 that have returned as being collected, under the lock, then joins them without
 it, and takes the lock again for each to note the join and to free the place of a
 retired job. Meanwhile jobs are submitted, started, published and finished.
 */
module PollRace {
  import opened Common

  datatype Job = Job(started: bool, published: bool, finished: bool, retired: bool, collecting: bool, joined: bool)

  const PLACED := Job(false, false, false, false, false, false)

  /** A place in the table and the job that was in it. */
  datatype Item = Item(place: nat, job: nat)

  datatype Poll =
    | Waiting                          // for the lock, to collect
    | Joining(todo: seq<Item>)         // the first of these next
    | Noting(todo: seq<Item>)          // has joined the first, waits for the lock

  datatype State = State(
    places: seq<Option<nat>>, jobs: seq<Job>, polls: seq<Poll>,
    joins: seq<nat>)                   // how often each worker was joined

  datatype Choice =
    | Submit(place: nat)
    | Started(job: nat)
    | Withdraw(place: nat)             // its thread could not be started
    | Publish(job: nat)
    | Finish(job: nat, retired: bool)
    | Begin
    | Step(poll: nat)

  predicate Collectable(j: Job) { j.published && j.finished && !j.joined && !j.collecting }

  /** The workers to collect among the first n places. */
  function Selected(places: seq<Option<nat>>, jobs: seq<Job>, n: nat): seq<Item>
    requires n <= |places|
  {
    if n == 0 then []
    else
      var p := places[n - 1];
      Selected(places, jobs, n - 1)
      + if p.Some? && p.value < |jobs| && Collectable(jobs[p.value]) then [Item(n - 1, p.value)] else []
  }

  predicate Taken(places: seq<Option<nat>>, j: nat) { exists p :: 0 <= p < |places| && places[p] == Some(j) }

  function Marked(places: seq<Option<nat>>, jobs: seq<Job>): seq<Job> {
    seq(|jobs|, j requires 0 <= j < |jobs| =>
      if Taken(places, j) && Collectable(jobs[j]) then jobs[j].(collecting := true) else jobs[j])
  }

  function PollStep(s: State, i: nat): State
    requires i < |s.polls|
  {
    match s.polls[i]
    case Waiting =>
      s.(jobs := Marked(s.places, s.jobs),
         polls := s.polls[i := Joining(Selected(s.places, s.jobs, |s.places|))])
    case Joining(todo) =>
      if todo == [] || todo[0].job >= |s.joins| then s
      else s.(joins := s.joins[todo[0].job := s.joins[todo[0].job] + 1], polls := s.polls[i := Noting(todo)])
    case Noting(todo) =>
      if todo == [] || todo[0].job >= |s.jobs| || todo[0].place >= |s.places| then s
      else
        var x := todo[0];
        var job := s.jobs[x.job].(joined := true, collecting := false);
        s.(jobs := s.jobs[x.job := job], polls := s.polls[i := Joining(todo[1..])],
           places := if job.retired && s.places[x.place] == Some(x.job) then s.places[x.place := None] else s.places)
  }

  function Next(s: State, c: Choice): State {
    match c
    case Submit(p) =>
      if p < |s.places| && s.places[p].None?
      then s.(places := s.places[p := Some(|s.jobs|)], jobs := s.jobs + [PLACED], joins := s.joins + [0])
      else s
    case Started(j) =>
      if j < |s.jobs| && Taken(s.places, j) then s.(jobs := s.jobs[j := s.jobs[j].(started := true)]) else s
    case Withdraw(p) =>
      if p < |s.places| && s.places[p].Some? && s.places[p].value < |s.jobs| && !s.jobs[s.places[p].value].started
      then s.(places := s.places[p := None])
      else s
    case Publish(j) =>
      if j < |s.jobs| && s.jobs[j].started then s.(jobs := s.jobs[j := s.jobs[j].(published := true)]) else s
    case Finish(j, retired) =>
      if j < |s.jobs| && s.jobs[j].started && !s.jobs[j].finished
      then s.(jobs := s.jobs[j := s.jobs[j].(finished := true, retired := retired)])
      else s
    case Begin => s.(polls := s.polls + [Waiting])
    case Step(i) => if i < |s.polls| then PollStep(s, i) else s
  }

  function Exec(s: State, schedule: seq<Choice>): State
    decreases |schedule|
  {
    if schedule == [] then s else Exec(Next(s, schedule[0]), schedule[1..])
  }

  function Initial(places: nat): State { State(seq(places, _ => None), [], [], []) }

  // ---- the invariant

  function Todo(p: Poll): seq<Item> { if p.Waiting? then [] else p.todo }

  function Todos(polls: seq<Poll>): (r: seq<seq<Item>>)
    ensures |r| == |polls| && forall a :: 0 <= a < |r| ==> r[a] == Todo(polls[a])
  {
    seq(|polls|, a requires 0 <= a < |polls| => Todo(polls[a]))
  }

  /** No worker is on two lists, or twice on one. */
  ghost predicate Apart(todos: seq<seq<Item>>) {
    forall a, k, b, l :: 0 <= a < |todos| && 0 <= k < |todos[a]| && 0 <= b < |todos| && 0 <= l < |todos[b]|
                         && todos[a][k].job == todos[b][l].job ==>
      a == b && k == l
  }

  /** Someone has joined this worker and waits for the lock to say so. */
  predicate BeingNoted(polls: seq<Poll>, j: nat) {
    exists a :: 0 <= a < |polls| && polls[a].Noting? && polls[a].todo != [] && polls[a].todo[0].job == j
  }

  /** A worker under collection: it has returned, and its job is still in its place. */
  predicate Collecting(s: State, x: Item) {
    && x.place < |s.places| && s.places[x.place] == Some(x.job) && x.job < |s.jobs|
    && s.jobs[x.job].collecting && !s.jobs[x.job].joined && s.jobs[x.job].finished && s.jobs[x.job].published
    && s.jobs[x.job].started
  }

  ghost predicate JobSound(s: State, j: nat)
    requires j < |s.jobs| && j < |s.joins|
  {
    var job := s.jobs[j];
    && (job.published || job.finished ==> job.started)
    && (job.joined ==> job.finished && job.published && !job.collecting)
    && s.joins[j] == (if job.joined || BeingNoted(s.polls, j) then 1 else 0)
  }

  ghost predicate PlacesSound(s: State) {
    && (forall p :: 0 <= p < |s.places| && s.places[p].Some? ==>
          && s.places[p].value < |s.jobs|
          && !(s.jobs[s.places[p].value].joined && s.jobs[s.places[p].value].retired))
    && (forall p, q :: 0 <= p < q < |s.places| && s.places[p].Some? && s.places[q].Some? ==>
          s.places[p].value != s.places[q].value)
  }

  ghost predicate PollsSound(s: State) {
    && (forall a, k :: 0 <= a < |s.polls| && 0 <= k < |Todo(s.polls[a])| ==> Collecting(s, Todo(s.polls[a])[k]))
    && Apart(Todos(s.polls))
  }

  ghost predicate Sound(s: State) {
    && |s.joins| == |s.jobs| && PlacesSound(s) && PollsSound(s)
    && (forall j :: 0 <= j < |s.jobs| ==> JobSound(s, j))
  }

  // ---- every step keeps it

  lemma {:induction false} SelectedAre(places: seq<Option<nat>>, jobs: seq<Job>, n: nat)
    requires n <= |places|
    ensures forall k :: 0 <= k < |Selected(places, jobs, n)| ==>
              var x := Selected(places, jobs, n)[k];
              x.place < n && places[x.place] == Some(x.job) && x.job < |jobs| && Collectable(jobs[x.job])
    ensures forall k, l :: 0 <= k < l < |Selected(places, jobs, n)| ==>
              Selected(places, jobs, n)[k].place < Selected(places, jobs, n)[l].place
    decreases n
  {
    if n > 0 { SelectedAre(places, jobs, n - 1); }
  }

  /** A poll marks what it is going to join; nobody else has any of it. */
  lemma CollectPolls(s: State, i: nat)
    requires Sound(s) && i < |s.polls| && s.polls[i].Waiting?
    ensures PollsSound(PollStep(s, i))
  {
    hide JobSound;
    var n := PollStep(s, i);
    var all := Selected(s.places, s.jobs, |s.places|);
    SelectedAre(s.places, s.jobs, |s.places|);
    forall k | 0 <= k < |all|
      ensures Collecting(n, all[k])
    {
      assert JobSound(s, all[k].job) by { SoundJob(s, all[k].job); }
      ReturnedIsStarted(s, all[k].job);
      assert Taken(s.places, all[k].job);
    }
    forall a, k | 0 <= a < |n.polls| && 0 <= k < |Todo(n.polls[a])|
      ensures Collecting(n, Todo(n.polls[a])[k])
    {
      if a != i { assert Collecting(s, Todo(s.polls[a])[k]); }
    }
  }

  lemma SoundJob(s: State, j: nat)
    requires Sound(s) && j < |s.jobs|
    ensures JobSound(s, j)
  {
  }

  lemma ReturnedIsStarted(s: State, j: nat)
    requires j < |s.jobs| && j < |s.joins| && JobSound(s, j) && s.jobs[j].finished
    ensures s.jobs[j].started
  {
  }

  /** Polls that leave alone who waits to note a join. */
  lemma SameNoted(p: seq<Poll>, q: seq<Poll>, j: nat)
    requires |p| <= |q|
    requires forall a :: 0 <= a < |p| && p[a].Noting? ==> q[a] == p[a]
    requires forall a :: 0 <= a < |q| && q[a].Noting? ==> a < |p| && q[a] == p[a]
    ensures BeingNoted(p, j) == BeingNoted(q, j)
  {
    if BeingNoted(p, j) {
      var a :| 0 <= a < |p| && p[a].Noting? && p[a].todo != [] && p[a].todo[0].job == j;
      assert q[a] == p[a];
    }
    if BeingNoted(q, j) {
      var a :| 0 <= a < |q| && q[a].Noting? && q[a].todo != [] && q[a].todo[0].job == j;
      assert q[a] == p[a];
    }
  }

  lemma CollectSound(s: State, i: nat)
    requires Sound(s) && i < |s.polls| && s.polls[i].Waiting?
    ensures Sound(PollStep(s, i))
  {
    var n := PollStep(s, i);
    CollectPolls(s, i);
    forall j | 0 <= j < |s.jobs|
      ensures JobSound(n, j)
    {
      SoundJob(s, j);
      SameNoted(s.polls, n.polls, j);
    }
  }

  /** Nobody has joined, or is about to note, what is first in a list to be joined. */
  lemma FirstIsUnjoined(s: State, i: nat)
    requires Sound(s) && i < |s.polls| && s.polls[i].Joining? && s.polls[i].todo != []
    ensures var x := s.polls[i].todo[0];
            x.job < |s.jobs| && Collecting(s, x) && s.joins[x.job] == 0 && !BeingNoted(s.polls, x.job)
  {
    var x := s.polls[i].todo[0];
    assert Todo(s.polls[i])[0] == x;
    assert Collecting(s, x);
    SoundJob(s, x.job);
    forall a | 0 <= a < |s.polls| && s.polls[a].Noting? && s.polls[a].todo != []
      ensures s.polls[a].todo[0].job != x.job
    {
      assert Todo(s.polls[a])[0] == s.polls[a].todo[0];
    }
  }

  lemma JoinPolls(s: State, i: nat)
    requires PollsSound(s) && i < |s.polls| && s.polls[i].Joining?
    ensures PollsSound(PollStep(s, i))
  {
    hide Apart;
    var n := PollStep(s, i);
    assert Todos(n.polls) == Todos(s.polls);
    forall a, k | 0 <= a < |n.polls| && 0 <= k < |Todo(n.polls[a])|
      ensures Collecting(n, Todo(n.polls[a])[k])
    {
      assert Todo(n.polls[a]) == Todo(s.polls[a]) && Collecting(s, Todo(s.polls[a])[k]);
    }
  }

  lemma JoinSound(s: State, i: nat)
    requires Sound(s) && i < |s.polls| && s.polls[i].Joining?
    ensures Sound(PollStep(s, i))
  {
    var n := PollStep(s, i);
    if s.polls[i].todo != [] {
      FirstIsUnjoined(s, i);
      JoinPolls(s, i);
      hide PollsSound;
      var x := s.polls[i].todo[0];
      forall j | 0 <= j < |s.jobs|
        ensures JobSound(n, j)
      {
        SoundJob(s, j);
        if j == x.job { assert n.polls[i].Noting? && n.polls[i].todo[0].job == j; } else { NotedBut(s, i, j); }
      }
    }
  }

  /** A step from joining to noting one worker does not touch another. */
  lemma NotedBut(s: State, i: nat, j: nat)
    requires i < |s.polls| && s.polls[i].Joining? && s.polls[i].todo != [] && s.polls[i].todo[0].job != j
    ensures BeingNoted(s.polls[i := Noting(s.polls[i].todo)], j) == BeingNoted(s.polls, j)
  {
    var q := s.polls[i := Noting(s.polls[i].todo)];
    if BeingNoted(s.polls, j) {
      var a :| 0 <= a < |s.polls| && s.polls[a].Noting? && s.polls[a].todo != [] && s.polls[a].todo[0].job == j;
      assert q[a] == s.polls[a];
    }
    if BeingNoted(q, j) {
      var a :| 0 <= a < |q| && q[a].Noting? && q[a].todo != [] && q[a].todo[0].job == j;
      assert q[a] == s.polls[a];
    }
  }

  /** When a join is noted, the job is still in its place, and no other poll has it. */
  lemma FirstIsNoted(s: State, i: nat)
    requires Sound(s) && i < |s.polls| && s.polls[i].Noting? && s.polls[i].todo != []
    ensures var x := s.polls[i].todo[0];
            && x.job < |s.jobs| && Collecting(s, x) && s.joins[x.job] == 1
            && !BeingNoted(s.polls[i := Joining(s.polls[i].todo[1..])], x.job)
  {
    var x := s.polls[i].todo[0];
    assert Todo(s.polls[i])[0] == x;
    assert Collecting(s, x);
    SoundJob(s, x.job);
    assert BeingNoted(s.polls, x.job);
    var q := s.polls[i := Joining(s.polls[i].todo[1..])];
    forall a | 0 <= a < |q| && q[a].Noting? && q[a].todo != []
      ensures q[a].todo[0].job != x.job
    {
      assert Todo(s.polls[a])[0] == q[a].todo[0];
    }
  }

  lemma NotedOthers(s: State, i: nat, j: nat)
    requires i < |s.polls| && s.polls[i].Noting? && s.polls[i].todo != [] && s.polls[i].todo[0].job != j
    ensures BeingNoted(s.polls[i := Joining(s.polls[i].todo[1..])], j) == BeingNoted(s.polls, j)
  {
    var q := s.polls[i := Joining(s.polls[i].todo[1..])];
    if BeingNoted(s.polls, j) {
      var a :| 0 <= a < |s.polls| && s.polls[a].Noting? && s.polls[a].todo != [] && s.polls[a].todo[0].job == j;
      assert q[a] == s.polls[a];
    }
    if BeingNoted(q, j) {
      var a :| 0 <= a < |q| && q[a].Noting? && q[a].todo != [] && q[a].todo[0].job == j;
      assert q[a] == s.polls[a];
    }
  }

  lemma ApartLess(todos: seq<seq<Item>>, i: nat)
    requires Apart(todos) && i < |todos| && todos[i] != []
    ensures Apart(todos[i := todos[i][1..]])
  {
    var less: seq<seq<Item>> := todos[i := todos[i][1..]];
    forall a: nat, k: nat, b: nat, l: nat |
      && a < |less| && k < |less[a]| && b < |less| && l < |less[b]|
      && less[a][k].job == less[b][l].job
      ensures a == b && k == l
    {
      assert less[a][k] == todos[a][if a == i then k + 1 else k];
      assert less[b][l] == todos[b][if b == i then l + 1 else l];
    }
  }

  /** What is first on one list is on no other place of any. */
  lemma ElsewhereOthers(todos: seq<seq<Item>>, i: nat, a: nat, k: nat)
    requires Apart(todos) && i < |todos| && todos[i] != [] && a < |todos| && k < |todos[a]| && (a != i || k != 0)
    ensures todos[a][k].job != todos[i][0].job
  {
  }

  lemma NotePolls(s: State, i: nat)
    requires Sound(s) && i < |s.polls| && s.polls[i].Noting? && s.polls[i].todo != []
    ensures PollsSound(PollStep(s, i))
  {
    FirstIsNoted(s, i);
    hide JobSound, Apart, PlacesSound, BeingNoted;
    var n := PollStep(s, i);
    var x := s.polls[i].todo[0];
    ApartLess(Todos(s.polls), i);
    assert Todos(n.polls) == Todos(s.polls)[i := Todos(s.polls)[i][1..]];
    forall a, k | 0 <= a < |n.polls| && 0 <= k < |Todo(n.polls[a])|
      ensures Collecting(n, Todo(n.polls[a])[k])
    {
      var m := if a == i then k + 1 else k;
      assert Todo(n.polls[a])[k] == Todo(s.polls[a])[m];
      assert Collecting(s, Todo(s.polls[a])[m]);
      ElsewhereOthers(Todos(s.polls), i, a, m);
    }
  }

  lemma NoteSound(s: State, i: nat)
    requires Sound(s) && i < |s.polls| && s.polls[i].Noting?
    ensures Sound(PollStep(s, i))
  {
    if s.polls[i].todo != [] {
      NotePolls(s, i);
      FirstIsNoted(s, i);
      hide PollsSound;
      var n := PollStep(s, i);
      var x := s.polls[i].todo[0];
      forall j | 0 <= j < |s.jobs|
        ensures JobSound(n, j)
      {
        SoundJob(s, j);
        if j != x.job { NotedOthers(s, i, j); }
      }
    }
  }

  /** A step that leaves the polls alone and a job's collection and join as they were. */
  lemma JobChanged(s: State, j: nat, job: Job)
    requires Sound(s) && j < |s.jobs| && job.collecting == s.jobs[j].collecting && job.joined == s.jobs[j].joined
    requires (s.jobs[j].started ==> job.started) && (s.jobs[j].published ==> job.published)
    requires (s.jobs[j].finished ==> job.finished && job.retired == s.jobs[j].retired)
    requires job.published || job.finished ==> job.started
    ensures Sound(s.(jobs := s.jobs[j := job]))
  {
    var n := s.(jobs := s.jobs[j := job]);
    SoundJob(s, j);
    assert forall y :: Collecting(s, y) ==> Collecting(n, y);
    forall k | 0 <= k < |s.jobs|
      ensures JobSound(n, k)
    {
      SoundJob(s, k);
    }
  }

  lemma SubmitSound(s: State, p: nat)
    requires Sound(s)
    ensures Sound(Next(s, Submit(p)))
  {
    var n := Next(s, Submit(p));
    if n != s {
      assert forall y :: Collecting(s, y) ==> Collecting(n, y);
      forall j | 0 <= j < |n.jobs|
        ensures JobSound(n, j)
      {
        if j < |s.jobs| { SoundJob(s, j); } else { NewIsUnnoted(s); }
      }
    }
  }

  lemma NewIsUnnoted(s: State)
    requires Sound(s)
    ensures !BeingNoted(s.polls, |s.jobs|)
  {
    forall a | 0 <= a < |s.polls| && s.polls[a].Noting? && s.polls[a].todo != []
      ensures s.polls[a].todo[0].job < |s.jobs|
    {
      assert Collecting(s, Todo(s.polls[a])[0]);
    }
  }

  lemma WithdrawSound(s: State, p: nat)
    requires Sound(s)
    ensures Sound(Next(s, Withdraw(p)))
  {
    var n := Next(s, Withdraw(p));
    if n != s {
      assert forall y :: Collecting(s, y) ==> Collecting(n, y);
      forall j | 0 <= j < |n.jobs|
        ensures JobSound(n, j)
      {
        SoundJob(s, j);
      }
    }
  }

  lemma BeginSound(s: State)
    requires Sound(s)
    ensures Sound(Next(s, Begin))
  {
    var n := Next(s, Begin);
    assert forall y :: Collecting(s, y) ==> Collecting(n, y);
    assert forall a :: 0 <= a < |s.polls| ==> n.polls[a] == s.polls[a];
    forall j | 0 <= j < |n.jobs|
      ensures JobSound(n, j)
    {
      SoundJob(s, j);
      SameNoted(s.polls, n.polls, j);
    }
  }

  lemma NextSound(s: State, c: Choice)
    requires Sound(s)
    ensures Sound(Next(s, c))
  {
    match c
    case Submit(p) => SubmitSound(s, p);
    case Started(j) => if j < |s.jobs| { JobChanged(s, j, s.jobs[j].(started := true)); }
    case Withdraw(p) => WithdrawSound(s, p);
    case Publish(j) =>
      if j < |s.jobs| && s.jobs[j].started { JobChanged(s, j, s.jobs[j].(published := true)); }
    case Finish(j, retired) =>
      if j < |s.jobs| && s.jobs[j].started && !s.jobs[j].finished {
        SoundJob(s, j);
        JobChanged(s, j, s.jobs[j].(finished := true, retired := retired));
      }
    case Begin => BeginSound(s);
    case Step(i) =>
      if i < |s.polls| {
        match s.polls[i]
        case Waiting => CollectSound(s, i);
        case Joining(_) => JoinSound(s, i);
        case Noting(_) => NoteSound(s, i);
      }
  }

  lemma {:induction false} ExecSound(s: State, schedule: seq<Choice>)
    requires Sound(s)
    ensures Sound(Exec(s, schedule))
    decreases |schedule|
  {
    if schedule != [] {
      NextSound(s, schedule[0]);
      ExecSound(Next(s, schedule[0]), schedule[1..]);
    }
  }

  /** Whatever polls overlap, each worker is joined at most once, and exactly once
      if it is noted as joined. */
  lemma JoinedOnce(places: nat, schedule: seq<Choice>, j: nat)
    requires j < |Exec(Initial(places), schedule).jobs|
    ensures var s := Exec(Initial(places), schedule);
            && j < |s.joins| && s.joins[j] <= 1
            && (s.jobs[j].joined ==> s.joins[j] == 1 && s.jobs[j].finished)
  {
    ExecSound(Initial(places), schedule);
    SoundJob(Exec(Initial(places), schedule), j);
  }

  /** A poll that notes a join finds its job in its place still, so a retired job's
      place is freed, and by the poll that joined it. */
  lemma NotedInPlace(places: nat, schedule: seq<Choice>, i: nat)
    requires var s := Exec(Initial(places), schedule);
             i < |s.polls| && s.polls[i].Noting? && s.polls[i].todo != []
    ensures var s := Exec(Initial(places), schedule);
            var x := s.polls[i].todo[0];
            var n := PollStep(s, i);
            && x.place < |s.places| && s.places[x.place] == Some(x.job) && x.job < |s.jobs| && s.jobs[x.job].finished
            && n.jobs[x.job].joined
            && n.places == if s.jobs[x.job].retired then s.places[x.place := None] else s.places
  {
    ExecSound(Initial(places), schedule);
    FirstIsNoted(Exec(Initial(places), schedule), i);
  }
}
