# A model of the Andrix work service

Andrix runs an owner's programs on a phone under the eye of a small native
service. A program may start only while the platform vouches for its user, a Stop
must hold from the moment it returns, and a piece of work is finished only when
nothing of it is left. Beside the service, two checkers guard the workshop phone:
one compares policy patches with the upstream policy, the other decides which
firmware may be written.

This project models that service and the hard cores of the two checkers in Dafny
and proves what they promise, for every input, every interleaving and every run.

| files | what they model |
|---|---|
| WorkGate | the shared admission word of one work, one step per atomic operation and per plain field access, any number of threads |
| Lifecycle, Authority, Platform | the lifecycle lease, the admission authority, and both together with the gates |
| RecordModel, WorkRecord, StopRace, CreatorBudget | one work's registry record, its lock-free Stop, and the creator budget |
| RegistryModel, WorkRegistry | the bounded slot and stream tables as a view of an unbounded history |
| CatalogInputs, CatalogTable | a catalogued work's inputs, and the catalog's table over the registry's |
| IoPool | the descriptor pool with its holders |
| Supervise, PollRace | the runtime's supervision of one work, its job table, and polls of it at once |
| Bytes, Frames, Journal, StreamModel, Session | terminal output: framing, the journal, attaching and replaying |
| Mls, Profile, Launch, PrincipalLaunch, Text | the MLS grammar and the two sealed launch records |
| Patch, M4 | hunks and their reversal, m4's lexical state under patches |
| Releases, Sessions, SessionChain | the session records of the workshop phone |

The main results, each for every run, schedule or input:

- No gate is entered twice, after a Stop, or outside the authority it was given, and
  its plain fields never race (WorkGate.AtMostOneEntry, NoEntryAfterStop,
  EntryHasItsAuthority, PlainFieldsDoNotRace).
- Adapter, lease, authority and gates together: an entry lies within 2000 ms of the
  issue of an answered query, and none follows once a failure's revocation has passed
  the gate (Platform.EntryWithinLease, NoEntryAfterFailure).
- A record completes only with its gate closed, its stop sources frozen and its
  resources settled, under every interference (WorkRecord.Record), and the frozen
  sources are exactly the calls that came first (StopRace.FrozenSourcesAreTheWinners).
- A bounded, recycled table is a faithful view of an unbounded history: no request is
  given two works, no work two requests (WorkRegistry.Registry.Reserve).
- A catalogued work's inputs end Consumed or Rejected truthfully and for good
  (CatalogInputs.TerminalStateIsTruthful, TerminalStateIsFinal), and one identity is
  never published twice (CatalogTable.OneWorkPerIdentity).
- Every duplicated descriptor is closed once, and a forgotten binding is never leased
  again (IoPool.EachDescriptorClosedOnce, ForgottenIsNeverLeased).
- Supervision of a submitted job ends retired exactly when the record is complete and
  everything was given back, its place is freed only then, and overlapping polls join
  each worker once (Supervise.Job.Supervise, Supervise.Runtime, PollRace.JoinedOnce).
- A terminal's reader sees exactly the frames sent, and every byte it misses was
  acknowledged or counted as dropped (StreamModel.ReaderSeesFrames, NothingMissing,
  Session.Terminal.Transfer).
- The MLS scanner accepts exactly the printed ranges, and a category set has one
  spelling (Mls.AcceptsWhatIsPrinted, LevelTextIsSetEquality); the launch records are
  decoded and encoded both ways (Launch, PrincipalLaunch).
- Patches: which reversals restore a file, that the upstream text found is the pinned
  one and exactly when both sides find the same, and that changes without a record keep
  m4's state on every kept line and touch no code of a rule or definition
  (Patch.ReversalRestores, UpstreamIsPinned, SameExactlyWhen,
  M4.UnrecordedChangesKeepM4, UnrecordedChangesSpareRegions).
- The phone's release never falls, and what the commands wrote is read back as the one
  chain (Sessions.PhoneNeverFalls, SessionChain.RunIsReadBack).

How concurrency is modelled. Lock-free code is a machine whose deterministic step
takes a choice (which thread moves, what the outside answers); a run is a list of
choices, and theorems quantify over all of them. Code under a mutex is a class; what
other threads may do between two accesses to shared words is the contract of one
method (Interfere, Meanwhile). A shared handle's count is the number of holders in
the machine's state.

Where an entity lives in memory that several threads change (WorkGate, StopRace,
CatalogInputs, CatalogTable, IoPool) the model is the machine; the loops those
machines abbreviate are given beside it as methods over arrays and proved equal to
the machine's functions.

Three places where the code and its own description differ; the model follows the
code.

- A hunk whose header counts are already reached on one side still takes a context
  line, so it can hold more lines than it counts (Patch.Miscounted, Patch.BodyCounts).
- An insertion placed past the end of a file applies, but its reversal does not
  (Patch.PastTheEnd, Patch.ReversalRestores). So the upstream file is not found from
  an adapted file so made, nor from one that a patch left without any line, and one
  made of no lines at all is found only from its adapted side (Patch.Emptied,
  Patch.Created, Patch.SameExactlyWhen).
- A release that finds its window already past stops the gate; an open adapter never
  takes that branch, because a ready lifecycle's window lies ahead
  (Platform.WindowLiesAhead).

## Model

| member | source | states |
|---|---|---|
| WorkGate.WordKeepsItsShape | owner/native/work_admission.cpp:35-42 | in every interleaving of any number of Bind, Prepared, Publish, Stop and ClaimEntry threads the shared word is one of the seven shapes, with or without the Stop bit |
| WorkGate.AtMostOneEntry | owner/native/work_admission.cpp:191-209 | over every schedule at most one claim ever returns Entered, the Entered bit is set exactly when one has, and at most one Stop is told that it came first |
| WorkGate.NoEntryAfterStop | owner/native/work_admission.cpp:165-168 | once any thread has set the Stop bit no claim that has not entered yet ever enters, whatever runs later |
| WorkGate.EntryHasItsAuthority | owner/native/work_admission.cpp:191-209 | a claim that entered named the work and the bound epoch and its time lies in the published window |
| WorkGate.RefusalsAreTruthful | owner/native/work_admission.cpp:191-209 | each refusal of a claim is true: AlreadyEntered only when another claim entered, Stopped only when stopped, Expired only outside the published window of a gate now stopped, Foreign only for another work or bound epoch, NotReleased only when the word it loaded in this run was neither released nor stopped |
| WorkGate.FieldsStayFixed | owner/native/work_admission.cpp:169-190 | epoch and window never change once Bound and Released are visible, and no flag is ever taken back |
| WorkGate.PlainFieldsDoNotRace | owner/native/work_admission.cpp:169-209 | no thread writes the epoch or the times while another may read or write them, although they are plain fields |
| WorkGate.UndisturbedClaim | owner/native/work_admission.cpp:191-209 | alone, a claim returns exactly the result that the word, the identities and the time call for, and changes the gate exactly as that result says |
| WorkGate.UndisturbedAuthority | owner/native/work_admission.cpp:169-190 | alone, Bind, Prepared and Publish succeed from exactly one word and leave exactly the next, with the fields they were given |
| Lifecycle.LifecycleGate.constructor | owner/native/lifecycle_core.h:23-24 | a fresh gate is absent, with its two token seeds |
| Lifecycle.LifecycleGate.Advance | owner/native/lifecycle_core.cpp:13-18 | a clock that runs backwards revokes the gate |
| Lifecycle.LifecycleGate.Begin | owner/native/lifecycle_core.cpp:19-27 | a registration revokes whatever stood before and gets the next token, or none |
| Lifecycle.LifecycleGate.CheckValid | owner/native/lifecycle_core.cpp:28-36 | an expired lease or an unanswered query revokes the gate |
| Lifecycle.LifecycleGate.CheckReady | owner/native/lifecycle_core.cpp:37-40 | ready only when valid and answered |
| Lifecycle.LifecycleGate.Until | owner/native/lifecycle_core.h:33-37 | ready until the lease ends, or until the outstanding query must be answered if that is sooner |
| Lifecycle.LifecycleGate.BeginQuery | owner/native/lifecycle_core.cpp:41-51 | at most one query at a time, each with the next challenge |
| Lifecycle.LifecycleGate.Report | owner/native/lifecycle_core.cpp:52-69 | only the reply to the outstanding challenge of the current registration counts, and the lease runs from the issue of the query |
| Lifecycle.LifecycleGate.Release | owner/native/lifecycle_core.cpp:70-75 | only the current registration can be released |
| Lifecycle.LifecycleGate.Revoke | owner/native/lifecycle_core.cpp:76-81 | nothing stays of the registration |
| Lifecycle.ReachableGate | owner/native/lifecycle_core.cpp:28-36 | no sum or difference in a reachable gate leaves the unsigned 64 bit range |
| Lifecycle.ReadyOnlyFromIssue | owner/native/lifecycle_core.cpp:13-69 | over every sequence of calls with any clock, a ready answer ends at most 2000 ms after the issue of the latest answered query and at most 1000 ms after the issue of one still outstanding |
| Lifecycle.ReadyIsBounded | owner/native/lifecycle_core.h:33-37 | the same bound for any gate consistent with its history |
| Lifecycle.StaleReplyIsInert | owner/native/lifecycle_core.cpp:52-60 | a reply for another registration or challenge changes nothing that reading the clock would not have changed |
| Lifecycle.LostStaysLost | owner/native/lifecycle_core.cpp:28-36 | an absent gate stays absent under every sequence of calls without a new registration |
| Lifecycle.LateReplyRevokes | owner/native/lifecycle_core.cpp:52-60 | a late reply leaves the gate revoked, whatever it reports |
| Lifecycle.TokensAreNew | owner/native/lifecycle_core.cpp:19-51 | over every sequence of calls registration tokens and challenges only rise, so none is ever given twice |
| Authority.AdmissionAuthority.constructor | owner/native/work_admission.h:105-106 | an authority without epoch, deadline or registered gate |
| Authority.AdmissionAuthority.RevokeLocked | owner/native/work_admission.cpp:212-217 | failed for ever, no deadline, and every registered gate to be stopped |
| Authority.AdmissionAuthority.Fresh | owner/native/work_admission.cpp:222-228 | a clock that runs backwards, an impossible capacity or an expired deadline fails the authority |
| Authority.AdmissionAuthority.IsRegistered | owner/native/work_admission.cpp:229-234 | finds exactly the gates in the table |
| Authority.AdmissionAuthority.Observe | owner/native/work_admission.cpp:235-249 | the first epoch stays fixed, a mismatch or an impossible deadline revokes, and older evidence never renews |
| Authority.AdmissionAuthority.Admit | owner/native/work_admission.cpp:250-267 | refuses in the order failed, not ready, invalid, clash, full, otherwise binds the first free place; and the gates to be stopped are all the registered ones if it has just failed, none if it has not |
| Authority.AdmissionAuthority.Store | owner/native/work_admission.cpp:260-266 | the bound gate takes the place it was promised |
| Authority.AdmissionAuthority.Prepared | owner/native/work_admission.cpp:268-276 | only a registered gate of the current epoch, and the gates to be stopped are told as by Admit |
| Authority.AdmissionAuthority.Release | owner/native/work_admission.cpp:277-293 | publishes until the earlier of the deadline and the ceiling, or stops the gate when that has passed; the gates to be stopped are told as by Admit |
| Authority.AdmissionAuthority.Retire | owner/native/work_admission.cpp:294-310 | frees exactly the place of a stopped registered gate, and answers for each other case what RetireAnswer says |
| Authority.StoreKeepsWellFormed | owner/native/work_admission.cpp:250-267 | registered gates are distinct works and objects below the capacity, and stay so |
| Authority.CapacityIsTruthful | owner/native/work_admission.cpp:250-267 | Capacity is answered exactly when the authority is fresh, a gate is given, nothing clashes and every place below the capacity is taken |
| Authority.AuthorityOnlyAges | owner/native/work_admission.cpp:222-249 | no observation or clock reading revives a failed authority, changes its epoch or lowers a live deadline |
| Authority.ReleaseIsBounded | owner/native/work_admission.cpp:277-293 | a published window starts now and ends no later than the deadline and the ceiling |
| Platform.ExecSound | owner/native/platform_lifecycle.cpp:41-173 | every run of the adapter, the lifecycle gate, the authority and the work gates keeps: bound gates registered and still to be stopped if the authority failed, publications within the lease known when they were made, a failed adapter over a failed authority |
| Platform.EntryWithinLease | owner/native/platform_lifecycle.cpp:103-110 | every claim that ever enters does so inside the publication that succeeded for its own gate, whose window ends at most 2000 ms after the issue of the latest query answered before it and at most 1000 ms after one then outstanding |
| Platform.NoEntryAfterFailure | owner/native/platform_lifecycle.cpp:41-51 | after a failure, whatever its reason, nobody enters a gate that the revocation has passed, and when it is over this is every gate; the stops are single steps among those of other threads |
| Platform.WindowLiesAhead | owner/native/platform_lifecycle.cpp:103-110 | an open adapter never finds a window already past, so its release never stops the gate instead |
| Platform.UndisturbedAdmit | owner/native/platform_lifecycle.cpp:85-93 | an admission the authority agrees to binds the gate to its epoch and registers it |
| Platform.UndisturbedPrepare | owner/native/platform_lifecycle.cpp:94-102 | a prepared gate stands in exactly the Prepared word |
| Platform.UndisturbedRelease | owner/native/platform_lifecycle.cpp:103-110 | a release the authority agrees to publishes exactly the window it decided on |
| Platform.TimelyReply | owner/native/platform_lifecycle.cpp:116-173 | a timely honest reply makes the lifecycle ready for 2000 ms from the issue of its query and the authority fresh at least as long |
| RecordModel.EndedSound | owner/native/work_registry.cpp:367-395 | when creation has ceased the record is again sound, whatever became of its resources |
| RecordModel.LaterIsTransitive | owner/native/work_registry.cpp:67-80 | any number of steps of other threads on the shared words is covered by one Interfere |
| RecordModel.KeptIsTransitive | owner/native/work_registry.cpp:95-102 | what each method keeps of a record, any number of them keeps |
| WorkRecord.Record.constructor | owner/native/work_registry.cpp:37-66 | a new record satisfies the invariant with nothing accepted |
| WorkRecord.Record.Interfere | owner/native/work_registry.cpp:67-80 | what other threads may do between two accesses: stop requests only grow and only until completion, the gate only grows, other records only move their own share of the budget |
| WorkRecord.Record.Stop | owner/native/work_registry.cpp:67-80 | the gate is closed on return, the source is recorded unless the record is complete, and true is answered only to the first |
| WorkRecord.Record.StopGate | owner/native/work_admission.cpp:165-168 | the gate is closed on return |
| WorkRecord.Record.ReleaseCreator | owner/native/work_registry.cpp:89-94 | gives back exactly this record's share of the creator budget |
| WorkRecord.Record.Settle | owner/native/work_registry.cpp:95-102 | closes the gate, freezes the stop sources and completes, in that order under every interference |
| WorkRecord.Record.SettleAbsentScope | owner/native/work_registry.cpp:103-108 | completes exactly a record without scope whose boundary is closed and that has no fault |
| WorkRecord.Record.SettleUnstarted | owner/native/work_registry.cpp:109-116 | completes an unstarted record whose gate is stopped |
| WorkRecord.Record.Issue | owner/native/work_registry.cpp:117-127 | tickets are numbered upwards without repetition, and an exhausted sequence is a permanent fault |
| WorkRecord.Record.Inspect | owner/native/work_registry.cpp:128-140 | reports the frozen snapshot of a complete record unchanged |
| WorkRecord.Record.CancelUnstarted | owner/native/work_registry.cpp:233-240 | succeeds exactly when no Start was accepted, and then the record is complete without one |
| WorkRecord.Record.AdmissionFinished | owner/native/work_registry.cpp:274-318 | creation begins only after an accepted, open and unstopped admission; a contradiction quarantines; everything else completes without resources |
| WorkRecord.Record.JudgeAdmission | owner/native/work_registry.cpp:274-300 | reads the gate once and judges the report by it |
| WorkRecord.Record.RefuseAdmission | owner/native/work_registry.cpp:310-318 | a refused admission completes with no initial process and no scope |
| WorkRecord.Record.Quarantine | owner/native/work_registry.cpp:286-293 | a permanent fault, a stopped gate and a recorded backend failure |
| WorkRecord.Record.CaptureScope | owner/native/work_registry.cpp:319-330 | a scope is captured once, by a creator at work, with a real identity |
| WorkRecord.Record.InitialCreated | owner/native/work_registry.cpp:331-340 | the initial process is owned once |
| WorkRecord.Record.InitialExited | owner/native/work_registry.cpp:341-356 | the first exit is kept, the gate is closed by it, and a repeated report must repeat it |
| WorkRecord.Record.InitialReaped | owner/native/work_registry.cpp:357-366 | only an exited process is reaped, and a record that then has nothing left completes |
| WorkRecord.Record.CreatorFinished | owner/native/work_registry.cpp:367-395 | the facts must fit the record, unknown resources are a permanent fault, and the record completes exactly when nothing is left; a claim that entered refuses absent resources |
| WorkRecord.Record.EndCreation | owner/native/work_registry.cpp:378-395 | the budget is released and the record settles exactly when its boundary is closed without scope |
| WorkRecord.Record.Abort | owner/native/work_registry.cpp:396-403 | records the first error and the failure, and closes the gate |
| WorkRecord.Record.TerminationRequested | owner/native/work_registry.cpp:404-406 | true once any stop was recorded |
| WorkRecord.Record.Observe | owner/native/work_registry.cpp:407-421 | an observation is issued exactly to an unfaulted record with closed boundary, captured scope and no ticket out |
| WorkRecord.Record.Reclaim | owner/native/work_registry.cpp:422-436 | a cleanup is issued exactly after a valid finding that the scope is empty; otherwise only an exhausted sequence refuses |
| WorkRecord.Record.FinishObservation | owner/native/work_registry.cpp:440-453 | a ticket takes effect at most once, and a timed out one only clears what was known |
| WorkRecord.Record.TimeOutObservation | owner/native/work_registry.cpp:454-462 | a timed out observation stays out but can no longer prove anything |
| WorkRecord.Record.CeaseObservation | owner/native/work_registry.cpp:463-471 | ends the ticket without a finding |
| WorkRecord.Record.FinishCleanup | owner/native/work_registry.cpp:474-496 | only a reclaimed scope completes the record, a failure puts the population back in doubt, and each ticket ends once |
| WorkRecord.Record.TimeOutCleanup | owner/native/work_registry.cpp:497-503 | marks the record blocked, nothing else |
| WorkRecord.Record.CeaseCleanup | owner/native/work_registry.cpp:504-511 | ends the ticket and puts the population back in doubt |
| WorkRecord.Record.Start | owner/native/work_registry.cpp:720-761 | accepts at most once, answers an identical retry as Existing and any other as Conflict, and never accepts a stopped or complete record |
| WorkRecord.Record.Forget | owner/native/work_registry.cpp:762-771 | only a complete record is forgotten, once, and nothing else of it changes |
| StopRace.FrozenSourcesAreTheWinners | owner/native/work_registry.cpp:67-102 | over every interleaving the frozen stop sources of a complete record are exactly those for which a Stop call returned true, and for each exactly one did |
| StopRace.CompletionFreezes | owner/native/work_registry.cpp:95-102 | after completion nothing changes the sources, lets a Stop come first or opens the gate |
| StopRace.CancelExcludesStart | owner/native/work_registry.cpp:233-240 | a successful CancelUnstarted and an accepted Start exclude each other in every order, and Start is accepted at most once |
| StopRace.ReturnedStopClosedTheGate | owner/native/work_registry.cpp:67-80 | every Stop that has returned left the gate closed |
| CreatorBudget.BudgetIsExact | owner/native/work_registry.cpp:16-27 | over every interleaving the budget in use is exactly the number of holders and never exceeds its limit |
| RegistryModel.KeysAreUnique | owner/native/work_registry.cpp:581-594 | two occupied slots never hold the same request |
| RegistryModel.SlotGiven | owner/native/work_registry.cpp:614-623 | a slot given to a new key keeps the table a view of the history, in which the key and the work are new |
| RegistryModel.SlotChanged | owner/native/work_registry.cpp:657-692 | changing what a slot says of its own work keeps the view |
| WorkRegistry.Registry.constructor | owner/native/work_registry.cpp:513-517 | an empty table over an empty history |
| WorkRegistry.Registry.OpenStream | owner/native/work_registry.cpp:518-536 | a stream serial is never reused, whatever place it takes |
| WorkRegistry.Registry.FindStream | owner/native/work_registry.cpp:537-544 | finds exactly the streams in the table |
| WorkRegistry.Registry.CloseStream | owner/native/work_registry.cpp:545-555 | closes the stream for good and cancels its unfinished allocations only |
| WorkRegistry.Registry.CloseStreamIfUnused | owner/native/work_registry.cpp:562-571 | closes only an open stream that never issued a request |
| WorkRegistry.Registry.FindKey | owner/native/work_registry.cpp:581-594 | finds the slot of a request if one is retained |
| WorkRegistry.Registry.FindWork | owner/native/work_registry.cpp:191-197 | finds the slot of a work if one is retained |
| WorkRegistry.Registry.FindReusable | owner/native/work_registry.cpp:599-613 | finds a slot nothing refers to, if there is one |
| WorkRegistry.Registry.Reserve | owner/native/work_registry.cpp:572-627 | no key is ever given two works, every identity answered is the one the history has, a known key is never issued again, and each refusal is true |
| WorkRegistry.Registry.Give | owner/native/work_registry.cpp:615-623 | the new work is not in the history, and the history grows by exactly this key |
| WorkRegistry.Registry.LookupRequest | owner/native/work_registry.cpp:628-656 | every identity answered is the one the history has, and NotFound only for a key never issued |
| WorkRegistry.Registry.ReservationFinished | owner/native/work_registry.cpp:657-684 | only the ticket of an allocating slot counts, once, and a cancelled or failed one is closed |
| WorkRegistry.Registry.CancelReservation | owner/native/work_registry.cpp:685-692 | succeeds exactly for an allocation that is still going on, and marks exactly that |
| WorkRegistry.Registry.Forget | owner/native/work_registry.cpp:762-771 | marks exactly the slot of a ready work whose record is complete; Foreign, Existing and Incomplete each exactly for its own reason |
| WorkRegistry.Registry.Close | owner/native/work_registry.cpp:784-794 | closes every stream, cancels every allocation, forgets nothing, and names exactly the works whose records are to be stopped |
| CatalogInputs.ExecSound | owner/native/work_catalog.cpp:173-330 | every interleaving of Prepare, Start, CancelInputs and Forget with Stop, completion and Close keeps phase, binding, pending starts and pool in step |
| CatalogInputs.TerminalStateIsTruthful | owner/native/work_catalog.cpp:173-330 | Rejected is never set over an accepted Start, Consumed says one was accepted, with no call in flight Consumed says so exactly, and in both terminal states the pool holds no descriptors for the input |
| CatalogInputs.TerminalStateIsFinal | owner/native/work_catalog.cpp:173-330 | the two terminal states are final |
| CatalogInputs.UndisturbedPrepare | owner/native/work_catalog.cpp:173-242 | alone, a Prepare of an open work ends Ready with its descriptors held |
| CatalogInputs.UndisturbedStart | owner/native/work_catalog.cpp:243-281 | alone, a Start of ready inputs is accepted once, consumes them and gives the descriptors up |
| CatalogTable.ExecSound | owner/native/work_catalog.cpp:93-159 | every interleaving of reservations, lookups, captures, Forget and Collect keeps each catalog entry and each caller pinned to a registry slot of its own |
| CatalogTable.OneWorkPerIdentity | owner/native/work_catalog.cpp:107-128 | over every run at most one catalog work is ever published per identity, even for a lookup paused across Forget and Collect |
| CatalogTable.FullCatalogHoldsAll | owner/native/work_catalog.cpp:120-127 | a full catalog already holds every recorded work |
| CatalogTable.NeverOutOfPlaces | owner/native/work_catalog.cpp:129-159 | over every run no caller is ever told that a place is lacking |
| CatalogTable.CaptureRefusesOnlyForgotten | owner/native/work_catalog.cpp:107-128 | a capture refuses exactly a forgotten control without catalog work, and otherwise hands out the one entry |
| CatalogTable.ForgottenIsCollectable | owner/native/work_catalog.cpp:307-330 | Forget marks the record and then the work, which can be collected once nobody holds it |
| CatalogTable.Capture | owner/native/work_catalog.cpp:107-128 | the loops publish, find or refuse exactly as the machine does |
| CatalogTable.CollectAll | owner/native/work_catalog.cpp:93-106 | one pass retires exactly the forgotten, idle and unshared works |
| IoPool.ExecSound | owner/native/work_io.cpp:127-283 | every interleaving of reservations, captures, leases, Forget, Cancel and Close keeps slots, holders and descriptors in balance |
| IoPool.HoldersPinTheirSlot | owner/native/work_io.cpp:132-145 | a slot is never recycled while a token, a lease or an unfinished close of its identity lives |
| IoPool.CapturingSlotSurvives | owner/native/work_io.cpp:179-197 | a capture finds its slot still Capturing, and is the only holder of its identity |
| IoPool.EachDescriptorClosedOnce | owner/native/work_io.cpp:24-28 | each duplicated descriptor has one owner or was closed once, and when nobody is left all are closed |
| IoPool.ForgottenIsNeverLeased | owner/native/work_io.cpp:228-250 | once forgotten a binding is never granted again by any later call, its identity never comes back, and if nobody holds a lease of it by then nobody ever will, although a held lease can be copied |
| IoPool.ForgetSpends | owner/native/work_io.cpp:238-250 | Forget makes the identity of a bound token spent |
| IoPool.UndisturbedCapture | owner/native/work_io.cpp:151-202 | alone in an open pool a capture ends with its binding registered over exactly the descriptors it duplicated |
| IoPool.LiveIsLeased | owner/native/work_io.cpp:228-237 | a token of a live binding in an open pool obtains its descriptors |
| IoPool.Pool.constructor | owner/native/work_io.cpp:119-125 | an empty pool |
| IoPool.Pool.FindSlot | owner/native/work_io.cpp:55-60 | the slot of an identity, if it is occupied |
| IoPool.Pool.Reserve | owner/native/work_io.cpp:127-150 | takes the first slot nothing refers to and gives it a new identity |
| IoPool.Pool.BeginCapture | owner/native/work_io.cpp:151-168 | exactly a reserved slot of an open pool goes on to be captured |
| IoPool.Pool.Cancel | owner/native/work_io.cpp:203-214 | a reserved slot fails, a capturing one is only marked |
| IoPool.Pool.Forget | owner/native/work_io.cpp:238-250 | the binding is forgotten and the slot gives up its descriptors |
| IoPool.Pool.Close | owner/native/work_io.cpp:262-283 | every slot is closed as its phase demands, and what the ready ones held is handed out in order |
| Supervise.Meanwhile | owner/native/work_runtime.cpp:128-165 | what other threads may do to a started record between two steps |
| Supervise.DisturbedIsTransitive | owner/native/work_runtime.cpp:128-165 | any number of outside calls is covered by one Meanwhile |
| Supervise.OutsideCall | owner/native/work_runtime.cpp:683-741 | each call another thread makes does no more than that |
| Supervise.Job.constructor | owner/native/work_runtime.cpp:85-104 | a fresh job holds its lease and its killer |
| Supervise.Job.StopKiller | owner/native/work_runtime.cpp:190-197 | the killer is joined |
| Supervise.Job.Block | owner/native/work_runtime.cpp:198-204 | blocked with an error, and finished |
| Supervise.Job.GiveUpPlace | owner/native/work_runtime.cpp:424-428 | asked for only with the place registered and the gate stopped, the case in which Authority.AdmissionAuthority.Retire answers Accepted; the place is given back exactly on that answer |
| Supervise.Job.Admit | owner/native/work_runtime.cpp:210-226 | creation begins only after the record agreed, with a place at the authority; otherwise the job ends |
| Supervise.Job.Refuse | owner/native/work_runtime.cpp:213-225 | a refused work is retired exactly when its place is given back and its record complete |
| Supervise.Job.CreateScope | owner/native/work_runtime.cpp:232-268 | a scope is either captured and told to the record, or known to be missing, or of unknown fate |
| Supervise.Job.CreateInitial | owner/native/work_runtime.cpp:269-366 | the initial process is owned as soon as it exists, and the lease goes with the handoff |
| Supervise.Job.Create | owner/native/work_runtime.cpp:367-388 | after creation the lease is dropped and the record knows exactly what was made |
| Supervise.Job.Reap | owner/native/work_runtime.cpp:390-416 | the process is waited for once, and an impossible status blocks |
| Supervise.Job.Conclude | owner/native/work_runtime.cpp:417-436 | a work without scope is retired, unless a scope may have been left behind |
| Supervise.Job.Observe | owner/native/work_runtime.cpp:438-468 | one observation under one ticket |
| Supervise.Job.BeginReclaim | owner/native/work_runtime.cpp:470-486 | after a valid finding that the scope is empty only an exhausted ticket sequence refuses the cleanup, and the killer is joined first |
| Supervise.Job.Reclaimed | owner/native/work_runtime.cpp:490-521 | a reclaimed scope completes the record, and the job is retired exactly when its place was given back |
| Supervise.Job.Unreclaimed | owner/native/work_runtime.cpp:528-536 | a failed reclamation blocks the job over an incomplete record |
| Supervise.Job.Watch | owner/native/work_runtime.cpp:437-539 | each observation ends the job properly, starts its reclamation or changes nothing |
| Supervise.Job.Turn | owner/native/work_runtime.cpp:389-541 | one turn of the supervision loop |
| Supervise.Job.Supervise | owner/native/work_runtime.cpp:205-542 | for every combination of answers, a finished job is retired exactly when the record is complete, the place given back, the killer joined and the lease dropped, and blocked otherwise with some answer to blame |
| Supervise.Runtime.Expire | owner/native/work_runtime.cpp:690-707 | an overdue ticket is timed out and the job marked blocked |
| Supervise.Runtime.constructor | owner/native/work_runtime.cpp:545-590 | an empty table in order |
| Supervise.Runtime.Run | owner/native/work_runtime.cpp:205-542 | the lifecycle thread of a submitted job keeps the table in order, and ends its job properly or for a reason from outside |
| Supervise.Runtime.Join | owner/native/work_runtime.cpp:723-730 | a returned worker is joined, and its place freed if its job is retired |
| Supervise.Runtime.Poll | owner/native/work_runtime.cpp:708-731 | a place becomes free exactly when its worker has returned retired, and then everything is given back; the table stays in order |
| Supervise.Runtime.Submit | owner/native/work_runtime.cpp:604-662 | polls, then takes the first free place for a job that can be supervised, each refusal by its own error, nothing kept when a thread cannot be started, and the table stays in order |
| Supervise.Runtime.Drained | owner/native/work_runtime.cpp:742-747 | true exactly when no place is taken |
| PollRace.JoinedOnce | owner/native/work_runtime.cpp:708-731 | whatever polls overlap, with the lock dropped around each join, every worker is joined at most once |
| PollRace.NotedInPlace | owner/native/work_runtime.cpp:723-730 | a poll that notes a join finds the job in its place still, and frees it exactly if the job is retired |
| Frames.Put | owner/native/terminal_protocol.cpp:9-12 | writes the low bytes of a number, the greatest first |
| Frames.Get | owner/native/terminal_protocol.cpp:13-18 | reads them back |
| Frames.HeaderReads | owner/native/terminal_protocol.cpp:25-42 | a valid header is decoded from its own 24 bytes |
| Frames.HeaderWrites | owner/native/terminal_protocol.cpp:35-42 | accepted header bytes encode to themselves |
| Frames.EncodeFrame | owner/native/terminal_protocol.cpp:44-52 | a frame is empty exactly when it cannot be written |
| Frames.StreamReads | owner/native/terminal_protocol.cpp:25-52 | a reader of concatenated frames sees exactly those frames |
| Frames.PartialIsSilent | owner/native/terminal_protocol.cpp:44-52 | a frame cut short is no frame |
| Journal.OutputJournal.constructor | owner/native/terminal_protocol.cpp:54-56 | capacity and offsets are bounded |
| Journal.OutputJournal.AppendByte | owner/native/terminal_protocol.cpp:60-73 | a full window drops its oldest byte and counts it |
| Journal.OutputJournal.Append | owner/native/terminal_protocol.cpp:58-75 | the journal stays exactly the window of the whole output, output that exceeds the offsets is refused whole, and what falls out is counted |
| Journal.OutputJournal.ReadFrom | owner/native/terminal_protocol.cpp:77-86 | gives the output at the offset or at the oldest retained byte after it, and says if there is a gap |
| Journal.OutputJournal.Delivered | owner/native/terminal_protocol.cpp:88-92 | only up to the end, and never backwards |
| Journal.OutputJournal.Acknowledge | owner/native/terminal_protocol.cpp:94-103 | frees exactly what was delivered and acknowledged, even ahead of a replaying sender |
| Journal.OutputJournal.Clear | owner/native/terminal_protocol.cpp:105-108 | an empty journal for another presentation |
| StreamModel.SoundLater | owner/native/andrixd.cpp:587-643 | output that arrives or is acknowledged takes nothing from a stream under way |
| StreamModel.ReaderSeesFrames | owner/native/andrixd.cpp:628-640 | a reader of the attachment stream sees exactly its complete frames |
| StreamModel.NothingMissing | owner/native/andrixd.cpp:615-627 | every offset a reader passed without seeing its byte was acknowledged or counted as dropped, and every other byte is the output's |
| Session.Terminal.constructor | owner/native/andrixd.cpp:645-660 | a session without attachment |
| Session.Terminal.RevokeStream | owner/native/andrixd.cpp:517-525 | an unfinished frame goes with its stream |
| Session.Terminal.CheckLifecycle | owner/native/andrixd.cpp:474-481 | only a failed platform ends the session and its stream |
| Session.Terminal.Renew | owner/native/andrixd.cpp:323-329 | a new presentation has a new identity and an empty journal |
| Session.Terminal.Connect | owner/native/andrixd.cpp:337-345 | the stream starts at the checkpoint or the oldest retained byte after it, and the acknowledgement of the checkpoint never fails |
| Session.Terminal.Attach | owner/native/andrixd.cpp:272-349 | exactly which attachments succeed, where each resumes, exactly when one ends the session, and that the failure exit is unreachable |
| Session.Terminal.AcknowledgeOutput | owner/native/andrixd.cpp:366-376 | an acknowledgement succeeds exactly up to what was delivered, and a failed platform ends the session |
| Session.Terminal.TakeOutput | owner/native/andrixd.cpp:590-596 | output is journalled; an exhausted offset or a broken terminal ends the session |
| Session.Terminal.NextFrame | owner/native/andrixd.cpp:615-627 | the next frame carries the output at the cursor, as much as fits, and neither reading nor encoding can fail |
| Session.Terminal.SendPart | owner/native/andrixd.cpp:628-632 | a frame is sent piece by piece |
| Session.Terminal.SendRest | owner/native/andrixd.cpp:631-640 | only a complete frame counts as delivered, and recording that cannot fail |
| Session.Terminal.Emit | owner/native/andrixd.cpp:614-642 | a stream is lost only to a failed send |
| Session.Terminal.Transfer | owner/native/andrixd.cpp:587-643 | one turn keeps the stream sound, never exits, and ends the session exactly for a failed platform, exhausted offsets or a broken terminal |
| Mls.DecimalReads | owner/native/principal_profile.cpp:120-129 | a number is printed without redundant zeros and read back |
| Mls.NumberWrites | owner/native/principal_profile.cpp:120-129 | an accepted number is the print of its value, below ten to the ninth |
| Mls.ItemsRead | owner/native/principal_profile.cpp:135-151 | canonical items are read back from their print |
| Mls.ItemsWritten | owner/native/principal_profile.cpp:135-151 | accepted items are canonical and print to the text read |
| Mls.ItemsExpand | owner/native/principal_profile.cpp:97-100 | the items of a category set stand for exactly that set |
| Mls.ItemsCanonical | owner/native/principal_profile.cpp:97-100 | the items of a category set are canonical |
| Mls.CanonicalItems | owner/native/principal_profile.cpp:135-151 | canonical items are the items of the set they stand for |
| Mls.LevelReads | owner/native/principal_profile.cpp:131-153 | a printed level is read back |
| Mls.LevelWrites | owner/native/principal_profile.cpp:131-153 | an accepted level is valid and prints to the text read |
| Mls.LevelsByText | owner/native/principal_profile.cpp:105-110 | level texts are equal exactly when the levels are |
| Mls.LevelTextIsSetEquality | owner/native/principal_profile.cpp:97-110 | level texts are equal exactly when sensitivity and category set are |
| Mls.AscendingIsUnique | owner/native/principal_profile.cpp:97-100 | a category set has one ascending list |
| Mls.CategorySetsHaveLists | owner/native/principal_profile.cpp:97-100 | every finite category set has an ascending list |
| Mls.AcceptsWhatIsPrinted | owner/native/principal_profile.cpp:97-112 | a text is accepted exactly when it prints one level or two different ones |
| Mls.Range.Take | owner/native/principal_profile.cpp:115-119 | takes exactly the wanted character |
| Mls.Range.Number | owner/native/principal_profile.cpp:120-129 | the digit loop reads exactly the numbers of the grammar |
| Mls.Range.ReadItem | owner/native/principal_profile.cpp:139-143 | a category or a run of three or more |
| Mls.Range.ReadItems | owner/native/principal_profile.cpp:135-151 | the item loop accepts exactly the canonical lists |
| Mls.Range.ReadLevel | owner/native/principal_profile.cpp:130-153 | the text of the level at the cursor, or nothing |
| Mls.Range.Valid | owner/native/principal_profile.cpp:104-112 | accepts exactly the printed ranges |
| Launch.EncodedDecodes | owner/native/launch_description.cpp:73-146 | decoding an encoding gives the description back under the same limits |
| Launch.DecodedEncodes | owner/native/launch_description.cpp:118-146 | accepted bytes encode to themselves under the same limits |
| Launch.RetryByBytes | owner/native/work_registry.cpp:740-744 | start retries matched by bytes are matched by meaning |
| Launch.CheckPasses | owner/native/launch_description.cpp:82-94 | strings pass exactly when they are clean and all fit |
| Launch.Validate | owner/native/launch_description.cpp:82-94 | the first string that does not fit or is not clean decides the error |
| Launch.AppendField | owner/native/launch_description.cpp:39-46 | a length and the bytes, within the bound |
| Launch.AppendFields | owner/native/launch_description.cpp:103-111 | strings in order, within the bound |
| Launch.EncodeLaunch | owner/native/launch_description.cpp:73-117 | the encoder, error for error |
| Launch.Reader.Integer | owner/native/launch_description.cpp:50-56 | four bytes, the least first |
| Launch.Reader.ReadString | owner/native/launch_description.cpp:57-65 | a clean string after its length |
| Launch.Reader.ReadStrings | owner/native/launch_description.cpp:137-142 | exactly so many strings |
| Launch.ReadHeader | owner/native/launch_description.cpp:123-130 | exactly the headers of this version over these bytes |
| Launch.DecodeLaunch | owner/native/launch_description.cpp:118-146 | the decoder, error for error |
| Bytes.LittleReads | owner/native/launch_description.cpp:35-38 | a number is read back from its bytes |
| Bytes.LittleWrites | owner/native/launch_description.cpp:50-56 | bytes are written back from their number |
| Bytes.WriteLittle | owner/native/launch_description.cpp:35-38 | the loop that writes a number |
| Bytes.ReadLittle | owner/native/launch_description.cpp:50-56 | the loop that reads it |
| Bytes.PatchLittle | owner/native/launch_description.cpp:112-114 | the size written into its place |
| Profile.ApplicationIs | owner/native/principal_profile.cpp:63-69 | an ordinary application ID of exactly that user |
| Profile.IsName | owner/native/principal_profile.cpp:70-78 | a letter, then letters, digits or underscores |
| Profile.PackageIsNames | owner/native/principal_profile.cpp:79-87 | a package is two or more names joined by dots |
| Profile.IsPackage | owner/native/principal_profile.cpp:79-87 | the loop accepts exactly those |
| Profile.AreGroups | owner/native/principal_profile.cpp:88-96 | strictly ascending groups, none zero or invalid |
| Profile.ContextIsParts | owner/native/principal_profile.cpp:157-167 | a context is user, role, type and range joined by colons |
| Profile.IsContext | owner/native/principal_profile.cpp:157-167 | the loop accepts exactly those |
| Profile.IsProfile | owner/native/principal_profile.cpp:263-271 | every part is valid |
| PrincipalLaunch.IsLaunch | owner/native/principal_profile.cpp:58-62 | work, epoch and profile are valid and name the same user |
| PrincipalLaunch.EncodedDecodes | owner/native/principal_profile.cpp:272-334 | decoding the encoding of a valid launch gives it back |
| PrincipalLaunch.DecodedEncodes | owner/native/principal_profile.cpp:304-334 | accepted bytes encode to themselves |
| PrincipalLaunch.RecordsByMeaning | owner/native/principal_profile.cpp:272-303 | records are equal exactly when the launches are |
| PrincipalLaunch.BodyLength | owner/native/principal_profile.cpp:28-32 | the length of a record, which for a valid launch is within the bound |
| PrincipalLaunch.EncodePrincipal | owner/native/principal_profile.cpp:272-303 | the encoder, error for error |
| PrincipalLaunch.Reader.Number | owner/native/principal_profile.cpp:206-213 | a read that does not fit spoils all that follow |
| PrincipalLaunch.Reader.ReadString | owner/native/principal_profile.cpp:185-192 | a string after its length |
| PrincipalLaunch.Reader.Groups | owner/native/principal_profile.cpp:193-201 | so many groups as counted, if they fit |
| PrincipalLaunch.ReadLaunch | owner/native/principal_profile.cpp:309-331 | the fields in order, to the last byte |
| PrincipalLaunch.DecodePrincipal | owner/native/principal_profile.cpp:304-334 | the decoder, error for error |
| Patch.ApplyHunks | scripts/pixel/neverallow_check.py:748-763 | applies the hunks in order, each at its place |
| Patch.ReversalRestores | scripts/pixel/neverallow_check.py:748-769 | hunks that apply are taken back by their reversal exactly when none is placed past the end of the file, and that gives the file back |
| Patch.PastTheEnd | scripts/pixel/neverallow_check.py:748-763 | an insertion past the end applies and cannot be taken back |
| Patch.UpstreamLines | scripts/pixel/neverallow_check.py:772-807 | the upstream lines, or nothing |
| Patch.UpstreamIsPinned | scripts/pixel/neverallow_check.py:772-807 | whatever is returned is the pinned upstream text, and the patch makes the pinned adapted text of it |
| Patch.SameFromEither | scripts/pixel/neverallow_check.py:772-807 | what is found from each of the two texts, for every patch cut at line breaks: from the upstream text its lines exactly when the patch leads to the adapted one; from the adapted text the same, except that a patch with a hunk past the end or one that leaves no line is not recognised, and one that makes the text of no lines at all is |
| Patch.SameExactlyWhen | scripts/pixel/neverallow_check.py:772-807 | both texts lead to the same answer if and only if they are equal, or a patch that leads from the one to the other has no hunk past the end and leaves a line, and one that does not lead there does not make the text of no lines |
| Patch.Emptied | scripts/pixel/neverallow_check.py:772-807 | a patch that leaves no line is accepted from the upstream text and refused from the adapted one |
| Patch.Created | scripts/pixel/neverallow_check.py:772-807 | a patch that makes a text without final line break of no lines is accepted from the adapted text only |
| Patch.TakenBack | scripts/pixel/neverallow_check.py:790-799 | what a patch that leads to a text gives back out of it |
| Patch.BodyCounts | scripts/pixel/neverallow_check.py:722-738 | a hunk holds at least what its header counts, and exactly that if and only if, in the lines given, each context line comes while both counts are open |
| Patch.Miscounted | scripts/pixel/neverallow_check.py:722-738 | a context line after a count is reached is read all the same |
| Patch.ReadHunkBody | scripts/pixel/neverallow_check.py:722-738 | the loop that reads a hunk |
| Patch.PatchFiles | scripts/pixel/neverallow_check.py:694-745 | every line belongs to a file header or a hunk, each hunk is exactly what its own lines are read as and holds no line break if the lines hold none, and a refusal has a place and a reason |
| M4.LexLine | scripts/pixel/neverallow_check.py:888-903 | one line's code, state and departure |
| M4.M4Lex | scripts/pixel/neverallow_check.py:876-904 | all lines' codes, the state after them and whether they left the state they started in |
| M4.LineStates | scripts/pixel/neverallow_check.py:907-912 | the state at the start of each line |
| M4.HunkGroups | scripts/pixel/neverallow_check.py:915-940 | the runs of changes of a hunk and their places |
| M4.NoRecordIsNeutral | scripts/pixel/neverallow_check.py:943-981 | a change that needs no record leaves m4's state as it was on both sides |
| M4.UnrecordedChangesKeepM4 | scripts/pixel/neverallow_check.py:943-981 | if no change of a patch needs a record, every line it keeps starts in the same m4 state and has the same code without comments as upstream |
| M4.UnrecordedChangesSpareRegions | scripts/pixel/neverallow_check.py:943-981 | if no change of a patch needs a record, every line of a statement or definition that it removes, and every line it adds inside one, has no code and stands at parenthesis depth zero; all removed and added lines are covered |
| M4.KeptAreTheRest | scripts/pixel/neverallow_check.py:915-940 | the kept lines rise on both sides, are the same on both sides, and are as many as the patch does not remove and as the patched file has beside the added ones |
| M4.LateNeedsRecord | scripts/pixel/neverallow_check.py:943-955 | a change past the end of the file has no state to be judged in |
| Releases.ParseKeepsNumber | scripts/pixel/caiman.py:50-64 | a release keeps its number, and a preview counts as the release of its day |
| Releases.Newest | scripts/pixel/caiman.py:76-82 | no release given is newer |
| Releases.NewestIndex | scripts/pixel/caiman.py:76-82 | the first of the newest |
| Releases.FindNewest | scripts/pixel/caiman.py:76-82 | the loop finds exactly that |
| Releases.SortedHas | scripts/pixel/version_criterion.py:255-263 | sorting carries exactly the known releases over |
| Releases.SortedOrdered | scripts/pixel/version_criterion.py:255-263 | in the order of their numbers |
| Sessions.LaterCarries | scripts/pixel/version_criterion.py:229-272 | a later session knows all that the one before knew, names its digest, starts after its last entry and from the phone's release |
| Sessions.LaterStarts | scripts/pixel/version_criterion.py:229-272 | exactly when a session starts |
| Sessions.StartLeads | scripts/pixel/version_criterion.py:420-423 | a session's first phone release is the one it starts from |
| Sessions.PhoneRises | scripts/pixel/version_criterion.py:420-423 | knowing more never makes the phone's release older |
| Sessions.VerificationKeeps | scripts/pixel/version_criterion.py:1112-1137 | verifying changes nothing but what is verified |
| Sessions.DecisionIsRecorded | scripts/pixel/version_criterion.py:907-1008 | a decision that meets every condition is always recorded |
| Sessions.OlderHasStockBuild | scripts/pixel/version_criterion.py:895-905 | an allowed image older than the phone's release has the stock build of that release |
| Sessions.DecisionExtends | scripts/pixel/version_criterion.py:992-1008 | an allowed write adds its release to the known ones and changes nothing else |
| Sessions.RunIsOnePath | scripts/pixel/version_criterion.py:229-354 | the records of every run form one path, each knows what the one before knew, and every write was honest |
| Sessions.KnownGrows | scripts/pixel/version_criterion.py:415-423 | along the chain the known releases only grow and the phone's release never falls |
| Sessions.PhoneNeverFalls | scripts/pixel/version_criterion.py:415-423 | whatever commands follow, nothing known is forgotten and the phone's release never falls |
| SessionChain.CollectLinks | scripts/pixel/version_criterion.py:516-535 | well formed records without repetition |
| SessionChain.CollectRoots | scripts/pixel/version_criterion.py:538-540 | the records without a previous one |
| SessionChain.CollectChildren | scripts/pixel/version_criterion.py:541-552 | each record by the one it names |
| SessionChain.Follow | scripts/pixel/version_criterion.py:553-565 | follows the only way there is |
| SessionChain.ReadChain | scripts/pixel/version_criterion.py:505-566 | answers the one path through exactly the given records, in whatever order they are listed, and refuses exactly when there is none |
| SessionChain.RunIsReadBack | scripts/pixel/version_criterion.py:505-566 | the records of every run are read back as the chain the commands built |

## Left out

- memfd creation, sealing, mapping and descriptor passing: kernel behaviour; the sealed bytes and the shared word are modelled directly.
- Binder calls, SELinux contexts of peers, credentials, cgroups, resource limits and the seccomp filter: foreign calls without deep logic; their answers are arguments.
- The launcher, entry and runner programs, the client, and the socket loops of the manager and the channel: process and socket plumbing; arbitrary callers stand for them.
- work_service_protocol.cpp and work_launch_protocol.cpp: long field lists that would repeat the codec argument.
- The Keep build variant, AttachmentGate, OutputTail and TerminalProcessState: small leases and records that follow from the harder models.
- Supervise.Runtime.Poll: one pass at a time; polls that overlap are PollRace.
- Supervise.Runtime.constructor: takes its validity as an argument; the checks of the configuration and of the directories are not modelled.
- Keyboard input in the transfer loop: a separate bounded byte stream that touches nothing modelled here.
- rule_regions, literal_rules, the witness table and expand_generated of neverallow_check.py: the regions and the two keyword expressions are arguments of Judge.
- install_zip.py, flash_script.py, readings.py, adevtool_record.py and reading images: the identity, the readings and the records are arguments.
- File locking, fsync and rename durability: each command is one atomic step.
- SHA-256 and the JSON form of a record: a digest is an injective function of the record.
- Termination of supervision: it loops for as long as the process runs, so Supervise is given as many turns as its oracle has and may end unfinished.
- Supervise.Job.StopKiller: does not model a failed join, which ends the process.
- WorkRecord.Record.Interfere: promises only what every other thread respects, so it has no effect of its own.
- Supervise.Meanwhile: promises only what every other thread respects, so it has no effect of its own.
- Authority.AdmissionAuthority.Admit: answers a command for the gate instead of moving it, because other threads move the gate at the same time; Platform carries the commands out.
- Authority.AdmissionAuthority.Prepared: answers a command for the gate, as Admit does.
- Authority.AdmissionAuthority.Release: answers a command for the gate, as Admit does.
- IoPool.Pool.BeginCapture: the duplication between the two regions of a capture is modelled in the machine only, one step per descriptor.
- CatalogTable.Capture: takes the forgotten flag as read under the catalog's lock; the machine interleaves it.
