# ACCP: verification model

ACCP coordinates coding agents, workers and people through one database. This project models its control
plane, its event worker and its bridge in Dafny and proves what they guarantee together: not that one handler
does what it says, but what holds after any sequence of requests, worker transactions, crashes, maintenance
windows and restores of old backups.

## The parts

- **The installation** (`Tables`, `Access`, `TaskFlow`, `Snapshots`, `Dependencies`, `Delivery`, `Governance`,
  `Recovery`, `ControlPlane`). One project's rows, every handler that writes them with the source's guards in the
  source's order, the two workers, the operator's commands. A handler runs under the project lock, so it is one
  step; a worker's tool execution is two steps with anything in between. `ControlPlane.IsRun` is a run from an empty
  installation: any number of workers, any interleaving, crashes before or after the external call, backups and
  restores at any point, and an environment that changes memberships, policies, backends and Contexts at will.
- **The proofs about it** (`TaskSafety`, `Authority`, `EvidenceSafety`, `ToolSafety`, `ApprovalSafety`,
  `GateSafety`, `Invariants`), ending in `Guarantees`: what holds in every state of every run.
- **What each action needs and does** (`Decisions`, `Requests`, `Freezing`, `Readiness`, `RunWrites`, `TaskWrites`,
  `Reviews`, `Operators`). For every action, told from the rows alone: the condition under which it is done, and the
  rows it leaves. In every run each step does exactly that, and an action whose condition fails changes nothing.
- **What the rows say about the past** (`Causes`, `Verdicts`, `Histories`, `Mandates`). Every status has its cause in
  the actions so far: a decision, a call that was answered, a lookup, a report, a review, a command since the last restore.
- **The handlers as the code runs them** (`Store`, `Installations`). A class whose methods change the rows step by
  step, with loops and roll-backs, and around it the process: a clock, workers that remember between their two
  transactions, backups. Whatever script of requests, worker transactions, operator commands and outside changes it
  serves, its history is a run of the state machine, so every result about runs is one about these methods.
- **The managed lease** (`RunApi`, `RunLeases`, `LeaseProtocol`, `ForegroundWrites`). The bridge's per-Run lease as a
  class, the server's side of one Run with its stored replies, and the network between them: requests lost, replies lost,
  late delivery; and what goes out, told from what the agent has heard.
- **Events** (`EventFlow`, `EventDelivery`, `EventWorker`, `EventFeed`). Outbox transactions, the head-of-line relay, an
  at-least-once stream, persisting and acknowledging workers; then cursors that poll the feed and the webhook
  fan-out.
- **Small algorithms** (`LineDiff`, `CommonSubsequences`, `Lines`, `EventFrames`, `TaskPages`). The line diff, SSE framing, keyset paging.

## Found on the way

- *The retry flag is not the budget.* `retry_authorized` defaults to true
  (`internal/database/migrations/002_execution.sql:4`) and task creation leaves it out, so a fresh draft carries
  the flag without any command. The budget holds with the flag counted where it means something, in READY and
  BLOCKED (`ClaimsWithinCommands`); `FreshTaskCarriesFlag` is the counterexample to the plain law and
  `FlagWithinBudgetIff` the exact condition until a restore. A restore may bring the creation flag back after commands
  were given and used, which is why the plain law has no such condition beyond it; the real budget survives restores.
- *The outbox is not delivered in global sequence order, and within a project only under its lock.* A row draws its
  sequence when it is inserted, not when it commits. Two projects' transactions can therefore be relayed against their
  sequence. One project's cannot, because every project write locks its project row first - except that deactivating an
  account revokes Sessions in all projects and inserts their events under no project's lock
  (`internal/controlplane/management.go:480-512`), so such an event can be overtaken by one of its own project.
  `FeedIsPrefixIff` is the exact condition over whole runs, for all events or one project's, `ProjectFeedIsPrefix` the
  guarantee under the lock, `OvertakingFails` the runs that break the order without it.
- *A rejected write can end a healthy lease.* A call the server refused for its content keeps the version it was
  first sent with; repeated after a background heartbeat, as the tool's error asks, it conflicts and the bridge
  stops the lease (`RejectedWriteEndsLease`; exactly when, `RejectedWriteConflictsIff`). Writes sent for the first
  time never conflict (`FirstWriteNeverConflicts`).
- *SSE chunks may cut a CRLF.* Normalising chunk by chunk turns one CRLF into two line ends when a chunk boundary
  falls inside it (`CutCrlfSplitsFrame`); otherwise chunking is exact (`ChunkingIsExact`). The server prints LF only.
- *Paging by the time of the last change can repeat or skip tasks.* The document keeps nanoseconds. Sorting reads them
  as a timestamp, which rounds to microseconds; the cursor's value is bound as a parameter, which cuts to
  microseconds. When the row that ends a page is one that rounds up, oldest first lists it again, with one task to a
  page for ever (`OldestFirstRepeats`), and newest first, the default, skips a task of the same microsecond
  (`NewestFirstSkips`). `OldestFirstExactIff` and `NewestFirstExactIff` say for which tables and page sizes paging is
  exact; by title it always is (`TitlePagesExact`).

## Assumptions

- Ids and the bridge's idempotency keys are drawn at random: none is ever drawn twice, and callers' keys never hit the
  bridge's. Digests are injective, so a digested value stands for its digest.
- The project lock makes a handler atomic; the shared maintenance gate is taken before it. A transaction that fails
  leaves nothing. Time does not run backwards; bridge and server read the same clock.
- A session's stored replies outlive the lease they belong to (24 hours in the source), and a request that was
  definitively refused, with the refusal heard, is not delivered again.
- The database reads a document's time to the nearest microsecond (which way at exactly half is left open), and the
  driver binds a time cut to microseconds; neither is in the repository.
- The feed lock orders feed allocation over all workers, so feed sequences ascend in commit order.

## Model

| member | source | states |
|---|---|---|
| ToolSafety.EffectsAtMostOnce | internal/controlplane/governance_worker.go:154-276 | in every state of every run the external call of an operation has been made at most once; CANCELED means never; a success the worker recorded means exactly once; nothing before RUNNING has been called |
| ToolSafety.StepAccounted | internal/controlplane/governance_worker.go:105-276 | the account behind it - one holder per intent, no call while the intent can still act, nothing a backup canceled ever startable - survives every step, restores included |
| Decisions.EveryToolStep | internal/controlplane/governance_worker.go:154-316 | in every run an intent is committed and a call made exactly under complete authority, an approval decided exactly by another Reviewer under its version and binding, an outcome settled exactly by what the backend answers an administrator; the verdict, the call's outcome and the lookup decide what is recorded |
| Decisions.CallIsRecorded | internal/controlplane/governance_worker.go:250-275 | only a worker that holds the intent calls; an answered call leaves SUCCEEDED, a failed one UNKNOWN with EXTERNAL_OUTCOME_UNKNOWN, a crash the row as it was |
| Decisions.SuccessWasAnswered | internal/controlplane/governance_worker.go:250-257 | in every state of every run a success without an error has exactly one call behind it, and that one was answered |
| Decisions.UnknownUntilLookup | internal/controlplane/governance_worker.go:277-316 | an unknown outcome stays so until a reconciliation settles it by what the lookup said |
| Decisions.EveryCallWasApproved | internal/controlplane/governance.go:245-292 | every call of an operation that does not only read follows a yes, earlier in the run, to that operation's own approval and exact binding, by the decider on record, who is not the delegator |
| Decisions.NoIsFinal | internal/controlplane/governance.go:271-277 | after a reviewer's no the operation is CANCELED and never called, in every later state up to a restore |
| Histories.RowsAreTrue | internal/controlplane/delivery.go:245-262 | in every state of every run, restores included, each approval, outcome, task, ended Run and artifact has the status it has because someone or something earlier in the run made it so |
| Histories.EveryMoveHasItsCause | internal/controlplane/tasks_execution.go:151-238 | over every run, each step moves tasks, Runs and artifacts only as its action may, and moves those that its action decides |
| Guarantees.OperationsOnlyAdvance | internal/controlplane/governance.go:235-243 | every step but a restore raises an operation's rank AWAITING, READY, RUNNING, UNKNOWN, outcome or leaves it, never changes what it is, and never changes a decided approval |
| Guarantees.EveryCallAuthorised | internal/controlplane/governance_worker.go:16-85 | each call is made under unexpired, unchanged binding and policy, a live latest Run, live delegation and, unless it only reads, an independent current reviewer's approval of that very operation |
| Guarantees.ApprovalsStand | internal/controlplane/governance.go:245-292 | AWAITING has its own undecided approval; READY and RUNNING that need one have it APPROVED for exactly their binding by someone other than the delegator |
| Store.Rows.Request | internal/controlplane/governance.go:121-213 | a request binds tool, arguments, evidence and policy version, needs merge evidence where due, and repeats its earlier self under the same key |
| Requests.EveryRequest | internal/controlplane/governance.go:121-213 | in every run, restores included, a Session's key stands for one operation at most; a request that may be made and is new adds exactly the operation asked for, awaiting its own approval unless it only reads, and any other changes nothing |
| Requests.RequestMeans | internal/controlplane/governance.go:184-200 | the same request under the same key is answered with the operation there is, a different one refused |
| Store.CheckArtifacts | internal/controlplane/governance.go:145-156 | the first artifact that is missing, foreign or unverified decides the refusal |
| Store.FindMergeEvidence | internal/controlplane/governance.go:157-167 | a merge is matched exactly when some evidence is the pull request at the exact head |
| Guarantees.OneLiveRunPerTask | internal/controlplane/tasks_execution.go:239-285 | a task is RUNNING exactly when it has a RUNNING Run and never has two; attempts count from 1 without gap or repeat; fences rise with them |
| Guarantees.OlderRunIsPowerless | internal/controlplane/tasks_execution.go:330-362 | once a newer Run exists, every heartbeat, report, upload, registration and tool request through an older one is refused |
| Guarantees.HistoryIsFinal | internal/controlplane/tasks_execution.go:190-206 | no step but a restore reopens DONE or CANCELED, rewrites an ended Run or a snapshot, or lowers a fence |
| Guarantees.DoneIsSettled | internal/controlplane/delivery.go:170-264 | a DONE task has every operation of every one of its Runs settled, although acceptance looks at the last Run only |
| Authority.ReviewedIsClear | internal/controlplane/delivery.go:201-208 | why looking at the last Run is enough: earlier Runs of a reviewed task have nothing outstanding |
| Mandates.AwakeWasCommanded | internal/recovery/quarantine.go:9-22 | in every run a task that is READY or RUNNING, or that the worker may wake, was submitted or retried by its Owner or an administrator since the last restore |
| Readiness.EveryWorkStep | internal/controlplane/tasks_execution.go:151-285 | in every run a claim takes the first READY task assigned to the agent, exactly when every predecessor waited for is DONE, all evidence waited for delivered, the Contexts published and the Owner active, and freezes its inputs; SUBMIT and RETRY give READY exactly then, else BLOCKED; the worker closes exactly the lapsed Runs and wakes exactly what has arrived |
| Readiness.ReadyIff | internal/controlplane/tasks_execution.go:44-56 | the check of readiness, with evidence looked for, passes if and only if all inputs have arrived |
| RunWrites.EveryRunWrite | internal/controlplane/tasks_execution.go:330-467 | in every run heartbeats, reports, uploads and registrations are done exactly when the Run's own live Session sends them under its fence and version with evidence of its own, and do exactly this |
| TaskWrites.EveryTaskWrite | internal/controlplane/task_lifecycle.go:9-115 | in every run tasks are created, edited, transferred, assigned, linked, unlinked, cancelled and shelved exactly when they may be: an edit or transfer leaves an unauthorised draft, a cancellation ends the live Run, an edge is taken exactly when the graph stays acyclic with it |
| Guarantees.ClaimsWithinCommands | internal/controlplane/tasks_execution.go:165-189 | over the whole history claims plus the claim still authorised never exceed SUBMIT and RETRY commands; READY means authorised |
| Guarantees.FreshTaskCarriesFlag | internal/controlplane/resources.go:66-124 | a fresh task carries the flag without a command, so the flag alone is not the budget |
| Guarantees.FlagWithinBudgetIff | internal/database/migrations/002_execution.sql:4 | until a restore the stored flag obeys the budget exactly when it is off or the task was ever commanded |
| Store.Rows.Claim | internal/controlplane/tasks_execution.go:239-285 | the first claimable task by id, rechecked, frozen and started, or a refusal that leaves nothing behind |
| TaskSafety.ClaimNumbered | internal/controlplane/tasks_execution.go:264-269 | the highest attempt plus one, under a fresh fence, keeps attempts consecutive and fences rising |
| Store.Rows.Command | internal/controlplane/tasks_execution.go:151-238 | SUBMIT, RETRY, CANCEL, ARCHIVE, RESTORE with their transitions and refusals |
| Store.Rows.Report | internal/controlplane/tasks_execution.go:412-467 | a report ends the Run and moves its task, with verified evidence of this Run only |
| Store.Rows.Reconcile | internal/controlplane/reconcile.go:40-142 | lost Runs are closed one after the other, then authorised blocked tasks are rechecked |
| Store.Rows.CloseLost | internal/controlplane/reconcile.go:84-104 | each lost Run is LOST and its task BLOCKED |
| Store.Rows.WakeWaiting | internal/controlplane/reconcile.go:105-140 | tasks whose inputs arrived become READY; none is authorised |
| Authority.ReconcileOrdinary | internal/controlplane/reconcile.go:12-142 | the worker authorises, completes and starts nothing, over both loops |
| Store.Rows.Create | internal/controlplane/resources.go:66-124 | a task is created as a draft for an active Owner with one version of each Context |
| Store.Rows.Edit | internal/controlplane/task_lifecycle.go:9-68 | inputs change only without a live Run and take the authorisation away |
| Store.ChooseVersions | internal/controlplane/task_lifecycle.go:36-49 | one version of each Context, or the first reason why not |
| Dependencies.ReachableFrom | internal/controlplane/tasks_execution.go:106-107 | the recursive query, frontier by frontier, yields exactly the tasks the successor reaches |
| Dependencies.AcyclicWithEdgeIff | internal/controlplane/tasks_execution.go:106-113 | one more edge keeps the graph acyclic exactly when its target does not reach its source |
| Store.Rows.NewDependency | internal/controlplane/tasks_execution.go:94-132 | a dependency is added unless it closes a cycle or exists; a READY task it holds back becomes BLOCKED |
| Guarantees.GraphStaysAcyclic | internal/controlplane/tasks_execution.go:94-150 | the dependency graph is acyclic in every state of every run |
| Freezing.FreezeMeans | internal/controlplane/tasks_execution.go:286-329 | told from the rows: freezing succeeds if and only if the task selects a Context, all API evidence still matches and no Context is wanted under two versions; the snapshot then lists exactly that, ascending, with one reference to each input as it is |
| Snapshots.FrozenSnapshot | internal/controlplane/tasks_execution.go:286-329 | a frozen snapshot lists each Context once, ascending: the task's selection and the Contexts of accepted API evidence, nothing else; and one reference per input |
| Snapshots.GatherIgnoresOrder | internal/controlplane/dependency_evidence.go:13-64 | the entries, and whether freezing succeeds, do not depend on the order in which Contexts or evidence are visited |
| Snapshots.GatherMeaning | internal/controlplane/dependency_evidence.go:37-62 | freezing succeeds exactly when all API evidence matches its published Context and no Context is wanted under two versions |
| Store.Freeze | internal/controlplane/tasks_execution.go:286-329 | the row loops, the conflict loop and the sort compute that snapshot |
| Store.Collect | internal/controlplane/dependency_evidence.go:37-63 | references and Contexts gathered artifact by artifact |
| Store.Join | internal/controlplane/dependency_evidence.go:50-62 | an entry is added, already there, or in conflict |
| Guarantees.SnapshotsStayValid | internal/controlplane/artifacts.go:54-81 | every reference of every snapshot names its artifact, accepted and verified, at the frozen version and digest, for good; the parent check on it always succeeds |
| EvidenceSafety.ReviewAllKeeps | internal/controlplane/delivery.go:103-155 | a decided artifact never changes and accepted implies verified, through a whole task review |
| EvidenceSafety.ReviewAllAccepts | internal/controlplane/delivery.go:219-244 | an accepting review leaves each named artifact accepted and verified, named once, unchanged and of the reviewed Run |
| Reviews.EveryReview | internal/controlplane/delivery.go:49-264 | in every run verifications and reviews are done exactly when they may be: the provider's answer decides a verification, a Reviewer's word an artifact, the Owner's word - with all criteria met, nothing unsettled and the evidence presentable - the task and the pending artifacts named |
| Reviews.LoopMeans | internal/controlplane/delivery.go:219-244 | the artifact loop goes through if and only if each reference is named once, unchanged, of this Run and acceptable, and then accepts exactly what was pending |
| Store.Rows.Review | internal/controlplane/delivery.go:170-264 | the task review with its checks, its artifact loop and its roll-back |
| Store.Rows.ReviewArtifacts | internal/controlplane/delivery.go:219-244 | the artifact loop: duplicates, changed evidence and unaccepted evidence are refused |
| Store.Rows.Register | internal/controlplane/artifacts.go:25-102 | an artifact is registered with content of its Run and valid parents, verified only by its stored bytes |
| Guarantees.ArchiveIsQuiet | internal/controlplane/management.go:289-344 | an archived project has only DONE or CANCELED tasks, no RUNNING Run, no unsettled operation and no active Session, whatever handlers and workers do |
| Store.Rows.ArchiveOrRestore | internal/controlplane/management.go:289-344 | under the project's current version, archiving needs quiet and revokes every Session |
| Access.AdmittedIff | internal/controlplane/server.go:212-306 | a write is admitted if and only if its credential (live Session with the scope, or a person where people may), its person (account, membership, role), the maintenance gate and the archive gate all let it pass |
| Access.ActiveRunIff | internal/controlplane/tasks_execution.go:330-362 | a Run write passes if and only if it comes through the Run's own Session under its current fence and version, while the Run is RUNNING under a live lease for an active Owner |
| Operators.EveryOperatorStep | cmd/accp/maintenance.go:16-90 | in every run Sessions are opened, made ready and revoked, the project archived and brought back, maintenance entered and left, items resolved and recovery finished exactly when they may be; a restore leaves exactly the quarantined backup |
| Operators.QuarantineMeans | internal/recovery/quarantine.go:9-22 | every open outcome becomes unknown and an item, every live Run lost and an item, every waiting or running task blocked without authorisation, every Session inactive; nothing else changes |
| Guarantees.MaintenanceIsStill | cmd/accp/maintenance.go:61-88 | maintenance and a RUNNING operation never coexist, recovery implies maintenance, and outside it everything a restore found unsettled succeeded or failed |
| Guarantees.NothingStartsUntilLeave | internal/database/maintenance.go:8-14 | while maintenance is on - a restore turns it on - no call is made and no Run is claimed until someone leaves it |
| Guarantees.ResumedMeansReconciled | internal/recovery/reconcile.go:12-104 | after a restore, work goes on only once every operation the backup held unsettled is confirmed |
| Guarantees.RestoredSessionsStayDead | internal/recovery/quarantine.go:9-22 | a Session that a restore brought back is never active again, further restores included |
| Invariants.QuarantineWellKept | internal/recovery/quarantine.go:9-22 | the quarantined backup keeps every invariant of the live database, already resolved items included |
| Invariants.StepOrderly | internal/controlplane/server.go:212-385 | every write, worker transaction, operator command and outside change leads from an orderly state to an orderly state |
| Installations.Serve | internal/controlplane/server.go:212-385 | whatever script the rows, workers and operator methods serve, the history is a run; every external call was made at most once and truthfully recorded, an archived project is quiescent, maintenance excludes running operations, the graph is acyclic |
| Installations.Installation.Do | internal/controlplane/server.go:212-385 | any request, worker transaction, operator command or outside change, carried out on the rows step by step, is one step of the state machine |
| Installations.Installation.Intend | internal/controlplane/governance_worker.go:154-224 | the first worker transaction on the rows, and what the worker remembers of it, is the state machine's step of committing an intent |
| Installations.Installation.Perform | internal/controlplane/governance_worker.go:226-275 | the second, with the call it makes or does not make, is the state machine's step of performing it |
| Installations.Installation.Restore | internal/recovery/quarantine.go:9-22 | loading a backup and running the quarantine script over it statement by statement is the state machine's restore |
| LeaseProtocol.VersionsAgree | internal/bridge/leases.go:131-181 | while lease and Run go on, both ends hold one version, or the client is one behind exactly when its one unknown write committed and moves the version |
| LeaseProtocol.FirstWriteNeverConflicts | internal/bridge/leases.go:183-262 | a first-time foreground write is never answered VERSION_CONFLICT, however many heartbeats came between |
| ForegroundWrites.LeaseRemembers | internal/bridge/leases.go:264-282 | over every run the lease knows the version the agent was last told by a first answer to a heartbeat or report of its own, or by the claim, when the agent last used the Run, and what the last heartbeat said of newer Contexts |
| ForegroundWrites.FirstWriteGoesOutIff | internal/bridge/leases.go:205-229 | a first-time call goes out, under the server's own version, if and only if the lease is alive, nothing is unknown, there is room, the fence is the claim's and the version is none older than the agent was last told and none newer than there is; otherwise nothing changes on the wire or the server |
| ForegroundWrites.StaleVersionStaysHome | internal/bridge/leases.go:226-229 | a call with a version older than the agent was last told is refused by the bridge |
| ForegroundWrites.ForegroundVersionGoesOut | internal/bridge/leases.go:218-229 | a call with the version the agent was last told and the claim's fence goes out under the server's own version, however many heartbeats came between |
| ForegroundWrites.HeartbeatGoesOutIff | internal/bridge/leases.go:115-181 | a renewal sends the heartbeat whose outcome is unknown, else a new one, if and only if the lease is alive - half an hour without use ends it - and no write is unknown |
| LeaseProtocol.CommitsAtMostOnce | internal/controlplane/server.go:317-376 | each logical write commits at most once and has one wire form, over lost requests, lost replies and late copies |
| LeaseProtocol.EndedForGood | internal/bridge/leases.go:284-294 | a stopped or closed lease stays so and puts nothing new on the wire |
| LeaseProtocol.RejectedWriteConflictsIff | internal/bridge/leases.go:205-217 | a rejected write sent again conflicts exactly when the version has moved since |
| LeaseProtocol.RejectedWriteEndsLease | internal/bridge/leases.go:231-261 | a run in which a repeated, once rejected registration stops a healthy lease |
| LeaseProtocol.StepKeeps | internal/bridge/leases.go:115-262 | every step of bridge, server and network keeps the joint invariant |
| RunApi.ServeEffect | internal/controlplane/server.go:317-376 | a fenced write either changes nothing or commits one record under its own current version |
| RunApi.ServedIff | internal/controlplane/server.go:317-376 | which requests commit, which are answered from the store and which are refused, in both directions |
| RunApi.RefusedReplay | internal/controlplane/sessions.go:129-151 | a committed write sent again is refused only for reasons that outlast the request, never for its content |
| RunLeases.RunLease.RunCall | internal/bridge/leases.go:183-262 | which request a foreground call puts on the wire, if any, and what its outcome does to the lease |
| RunLeases.RunLease.Maintain | internal/bridge/leases.go:115-151 | one pass of the renewal loop: no heartbeat past an unknown write, none once stopped |
| RunLeases.RunLease.Renew | internal/bridge/leases.go:153-181 | a heartbeat without an answer is kept whole and sent again |
| RunLeases.RunLease.Observe | internal/bridge/leases.go:264-282 | a response moves the version, never back, and ends the lease when the Run ended |
| RunLeases.RunLease.Live | internal/bridge/leases.go:284-294 | expiry and idleness stop the lease, for good |
| RunLeases.RunLease.ReadRun | internal/bridge/leases.go:186-198 | a read can end the lease, never extend or revive it |
| RunLeases.LeaseSet.Track | internal/bridge/leases.go:86-113 | a replayed claim neither resets a lease nor restarts its renewal |
| EventFlow.FeedHoldsCommittedOnce | internal/eventbus/worker.go:244-286 | over duplicates, foreign messages, crashes, replays and terminations the feed holds each event at most once, ascending, as its committed outbox row |
| EventFlow.FeedIsPrefixIff | internal/eventbus/worker.go:151-286 | with every message the relay's own and none given up on, the feed is a prefix of the outbox in sequence order - of all of it, or of one project's - exactly when no row committed after a higher one, by now in the feed, had been published |
| EventFlow.ProjectFeedIsPrefix | internal/controlplane/server.go:278-283 | while every write to a project holds its lock, its part of the feed is at all times a prefix of its part of the outbox, over all runs |
| EventFlow.OvertakingFails | internal/controlplane/management.go:480-512 | faultless runs whose feed is not a prefix: across two projects, and within one when a write is outside the lock |
| EventFlow.LowerFirst | internal/eventbus/worker.go:151-192 | over all runs without a foreign message, of two rows the lower is published first unless it commits after the other was published |
| EventDelivery.NothingIsLost | internal/eventbus/worker.go:151-243 | over every run with any faults a row marked delivered is in the stream, and what has been acknowledged of the stream is in the feed unless the consumer gave up on it |
| EventDelivery.DrainedFeedIsComplete | internal/eventbus/worker.go:112-140 | once everything is relayed and acknowledged and nothing given up on, the feed holds exactly the committed events, each once |
| EventFlow.FeedGrows | internal/eventbus/worker.go:268-286 | the feed of every run only grows |
| EventWorker.Bus.RelayOne | internal/eventbus/worker.go:151-192 | the head of the line is published; only a confirmed publication marks it delivered |
| EventWorker.Bus.RelayBatch | internal/eventbus/worker.go:112-123 | a batch delivers the lowest waiting rows in order, skips none, and stops empty, deferred or full |
| EventWorker.Bus.PersistMessage | internal/eventbus/worker.go:244-286 | a genuine message enters inbox and feed once; any other changes nothing |
| EventWorker.Bus.ConsumeOne | internal/eventbus/worker.go:204-243 | a message is acknowledged exactly when it is genuine, its transaction is known to have committed and the acknowledgement is confirmed; any other, genuine or not, comes again until a delivery from the fifth on is recorded as failed |
| EventFeed.NoSilentGap | internal/controlplane/events.go:99-158 | a follower of next_cursor receives every entry of its project after its cursor exactly once, in order, as the feed grows, and is told that its cursor is gone (410) if and only if one of its polls comes more than a week after the one before, or after an entry it has not reached turned a week old; 400 if and only if, at once, the first cursor was none of the project |
| EventFeed.GoneIff | internal/controlplane/events.go:117-130 | a cursor of the project is gone if and only if it was issued more than seven days ago or an entry of the project beyond it was recorded at least seven days ago |
| EventFeed.PageIsLowest | internal/controlplane/events.go:131-158 | with or without a cursor a page holds the lowest retained entries of the project after it, and leaves some out only when it is full |
| EventFeed.PageIsNext | internal/controlplane/events.go:117-158 | a page under a cursor is exactly the next entries, retention or not |
| EventFeed.PollEvents | internal/controlplane/events.go:99-158 | the poll, with a cursor or without: invalid, gone, or a page whose last row is the next cursor |
| EventFeed.BatchesEqualOnePass | internal/controlplane/webhook_delivery.go:234-320 | while the feed grows from pass to pass and retention has not overtaken the endpoint, bounded passes have enqueued, once one finds no more than it can take, exactly the subscribed entries since creation, one each, in order: what one unbounded pass over the whole feed enqueues |
| EventFeed.PassesKeepExact | internal/controlplane/webhook_delivery.go:261-316 | after every pass over a growing feed the deliveries are exactly the subscribed entries up to the mark |
| EventFeed.PassesCatchUp | internal/controlplane/webhook_delivery.go:234-260 | over a feed that stands still, as many passes as entries are left catch up |
| EventFeed.FeedOfRun | internal/eventbus/worker.go:268-286 | what readers rely on is what the event workers keep: over every run of theirs the feed ascends and only grows |
| EventFeed.PassKeepsExact | internal/controlplane/webhook_delivery.go:261-316 | each pass keeps the deliveries exact up to its high-water mark |
| EventFeed.FanOutEndpoint | internal/controlplane/webhook_delivery.go:261-316 | the row loop, the insertion loop and the mark |
| EventFeed.CreationIsExact | internal/controlplane/webhooks.go:129-140 | a new endpoint starts at the end of its project's feed |
| LineDiff.Diff | web/src/diff.ts:5-46 | defined exactly within the cell limit; both sides give back the two texts and the kept lines are a longest common subsequence |
| LineDiff.FillTable | web/src/diff.ts:13-22 | the 16-bit table holds the longest common subsequence of every pair of tails, all indices in bounds |
| LineDiff.EntryFitsWord | web/src/diff.ts:11-12 | the cell limit keeps every entry within 16 bits |
| LineDiff.Walk | web/src/diff.ts:23-45 | the walk over the table renders that diff |
| LineDiff.NoDiffKeepsMore | web/src/diff.ts:5-46 | no diff of the same two texts keeps more lines |
| CommonSubsequences.LcsIsLongest | web/src/diff.ts:13-22 | the recurrence is the greatest length over all common subsequences |
| EventFrames.ChunkingIsExact | web/src/app/useEventStream.ts:14-27 | splitting chunk by chunk equals splitting the whole stream exactly when no boundary cuts a CRLF |
| EventFrames.CutCrlfSplitsFrame | web/src/app/useEventStream.ts:14-27 | a stream of two chunks for which it does not |
| EventFrames.SplitFrames | web/src/app/useEventStream.ts:14-27 | the loop splits at the first empty line, again and again |
| EventFrames.ParseFrame | web/src/app/useEventStream.ts:30-45 | the field loop of section 9.2.6 of the WHATWG HTML Standard |
| EventFrames.ParseUndoesPrint | internal/controlplane/events.go:183-187 | parsing inverts the server's printed page |
| EventFrames.StreamDeliversPages | internal/controlplane/events.go:183-187 | however the network cuts a stream of pages, the client parses exactly those pages |
| TaskPages.PagesExactIff | internal/controlplane/task_query.go:69-147 | for each table, query and page size, the pages concatenate to the whole sorted filtered list exactly when what the cursor carries separates at every row that ends a page before the last |
| TaskPages.TitlePagesExact | internal/controlplane/task_query.go:204-209 | by title, which is never empty, paging is exact for every table, order, limit and filter |
| TaskPages.OldestFirstExactIff | internal/controlplane/task_query.go:200-237 | by time of change, oldest first: exact if and only if no page before the last ends in a row whose nanoseconds round up |
| TaskPages.NewestFirstExactIff | internal/controlplane/task_query.go:200-237 | newest first: exact if and only if no page before the last ends in a row that rounds up and hides a later one, of its microsecond or of the one below with an id not below its own |
| TaskPages.OldestFirstRepeats | internal/controlplane/task_query.go:218-231 | two tasks whose second page is the first again, under the same cursor |
| TaskPages.NewestFirstSkips | internal/controlplane/task_query.go:218-231 | two tasks of one microsecond of which the second is never listed |
| TaskPages.ListTasks | internal/controlplane/task_query.go:21-148 | the scan with one row more than asked computes that page |

## Left out

- Idempotency records inside the installation: a replay answers from the stored reply and changes no row, so it is modelled with the lease, where it matters, and not as a step of the installation; expiry of the records is an assumption above.
- More than one project in the installation: the project lock separates them; only the event order is about several, and `EventFlow` has them.
- HTTP, JSON Schema validation, tokens and signatures, text and byte size limits: refusals at the door that change nothing.
- Contexts, policies, backends, memberships, repositories, the project's name and account deactivation: changed by an arbitrary step, which allows more than their handlers do.
- `ProcessTools` of the worker: the worker may pick any operation at any time; the 45-second wait and the batch of 25 only pick less.
- Audit records, notifications, comments and reports as documents: written and never read by what is modelled.
- Events written by the installation's handlers: the outbox has its own model, with arbitrary transactions.
- The event tables across a restore: `Quarantine` queues undelivered rows again; the stream outlives the database, and that interplay is not modelled.
- Webhook dispatch: attempts, backoff and ceiling of one delivery are a counter; only the fan-out is modelled.
- The bridge's timers, request deadlines and its key-length check: when a request is sent, not what is sent.
- `cancel_requested`: the server answers it false always, so the bridge's branch for it never runs.
- EventWorker.Bus.RelayBatch: is proved for batches whose publications have unique sequences, which `EventFlow` proves of every outbox.
- Store.Rows.Recheck: readiness of a Context row that does not exist counts as ready, as the join does; foreign keys keep such rows from existing.
- React components, streaming timers, locales and storage.
