/** The whole installation as a state machine: every write of the control plane, its two workers,
    the operator's maintenance and restore commands, crashes, time and outside changes, in any order. */
module ControlPlane {
  import opened Options
  import opened Tables
  import opened Access
  import opened TaskFlow
  import opened Governance
  import opened Delivery
  import opened Recovery

  type WorkerId = nat

  /** Between its two transactions a worker only remembers the operation whose intent it committed. */
  datatype Worker = Idle | Intending(id: InvocationId)

  /** An external call, how it went, and the database it was made under. */
  datatype Call = Call(id: InvocationId, outcome: Outcome, db: Database, now: int)

  /** `used` holds every id ever drawn; `calls`, `claims` and `commands` are the history, which no
      restore undoes. */
  datatype World = World(db: Database, now: int, workers: map<WorkerId, Worker>, backups: seq<Database>, used: set<nat>,
                         calls: seq<Call>, claims: multiset<TaskId>, commands: multiset<TaskId>)

  datatype Action =
    // Tasks and Runs
    | DoCreateTask(caller: Caller, owner: UserId, repository: nat, versions: seq<VersionId>, criteria: nat, newId: nat)
    | DoEditTask(caller: Caller, task: TaskId, repository: nat, versions: seq<VersionId>, criteria: nat, ifMatch: nat)
    | DoTransferTask(caller: Caller, task: TaskId, owner: UserId, ifMatch: nat)
    | DoAssignTask(caller: Caller, task: TaskId, target: Target, ifMatch: nat)
    | DoAddDependency(caller: Caller, task: TaskId, predecessor: TaskId, condition: Condition, ifMatch: nat, newId: nat)
    | DoRemoveDependency(caller: Caller, task: TaskId, dependency: DependencyId, ifMatch: nat)
    | DoCommand(caller: Caller, task: TaskId, command: Command, ifMatch: nat)
    | DoClaim(caller: Caller, wanted: Option<TaskId>, newId: nat)
    | DoHeartbeat(caller: Caller, run: RunId, fence: nat, ifMatch: nat)
    | DoReport(caller: Caller, run: RunId, report: Report, fence: nat, ifMatch: nat)
    | WorkerReconciles
    // Evidence and review
    | DoUpload(caller: Caller, run: RunId, digest: Digest, media: nat, fence: nat, ifMatch: nat, newId: nat)
    | DoRegister(caller: Caller, run: RunId, registration: Registration, fence: nat, ifMatch: nat, newId: nat)
    | DoVerify(caller: Caller, artifact: ArtifactId, ifMatch: nat, provider: Provider)
    | DoReviewArtifact(caller: Caller, artifact: ArtifactId, digest: Digest, accept: bool, ifMatch: nat)
    | DoReviewTask(caller: Caller, task: TaskId, run: RunId, refs: seq<Reviewed>, accept: bool, checks: seq<bool>, ifMatch: nat)
    // Governed tools
    | DoRequest(caller: Caller, wanting: Wanted, newId: nat)
    | DoDecide(caller: Caller, approval: ApprovalId, bound: Binding, approve: bool, ifMatch: nat)
    | WorkerIntends(worker: WorkerId, invocation: InvocationId)
    | WorkerPerforms(worker: WorkerId, outcome: Outcome)
    | WorkerGivesUp(worker: WorkerId)
    | DoReconcile(caller: Caller, invocation: InvocationId, ifMatch: nat, lookup: Lookup)
    // Sessions and the archive
    | DoCreateSession(caller: Caller, agent: nat, scopes: set<Scope>, expires: int, newId: nat)
    | DoNegotiate(caller: Caller)
    | DoRevokeSession(caller: Caller, session: SessionId, ifMatch: nat)
    | SessionsRevoked(some: set<SessionId>)
    | DoProjectCommand(caller: Caller, archive: bool, ifMatch: nat)
    // The operator
    | Enter(actor: UserId)
    | Leave(actor: UserId)
    | TakeBackup
    | RestoreBackup(index: nat)
    | ResolveItem(item: ItemId, actor: UserId)
    | Finish(actor: UserId)
    // Outside
    | Tick(d: nat)
    | Change(env: Environment, renames: nat)

  function WithExecution(w: World, r: Result<Execution>): World { if r.Ok? then w.(db := w.db.(execution := r.value)) else w }
  function WithEvidence(w: World, r: Result<Evidence>): World { if r.Ok? then w.(db := w.db.(evidence := r.value)) else w }
  function WithTools(w: World, r: Result<Tools>): World { if r.Ok? then w.(db := w.db.(tools := r.value)) else w }
  function WithSessions(w: World, r: Result<map<SessionId, Session>>): World { if r.Ok? then w.(db := w.db.(sessions := r.value)) else w }
  function WithGate(w: World, r: Result<Gate>): World { if r.Ok? then w.(db := w.db.(gate := r.value)) else w }

  function NextCommand(w: World, task: TaskId, command: Command, r: Result<Execution>): World {
    if r.Err? then w
    else
      var v := w.(db := w.db.(execution := r.value));
      if command in {Submit, Retry} then v.(commands := w.commands + multiset{task}) else v
  }

  function NextClaim(w: World, r: Result<Claim>): World {
    if r.Err? then w else w.(db := w.db.(execution := r.value.execution), claims := w.claims + multiset{r.value.task})
  }

  function NextReview(w: World, r: Result<Verdict>): World {
    if r.Err? then w else w.(db := w.db.(execution := r.value.execution, evidence := r.value.evidence))
  }

  function NextIntent(w: World, worker: WorkerId, id: InvocationId): World {
    var (tools, committed) := Intend(w.db, w.now, id);
    w.(db := w.db.(tools := tools), workers := w.workers[worker := if committed then Intending(id) else Idle])
  }

  function NextPerformance(w: World, worker: WorkerId, id: InvocationId, outcome: Outcome): World {
    var (tools, called) := Perform(w.db, w.now, id, outcome);
    w.(db := w.db.(tools := tools), workers := w.workers[worker := Idle],
       calls := if called then w.calls + [Call(id, outcome, w.db, w.now)] else w.calls)
  }

  function NextShelf(w: World, r: Result<Shelf>): World {
    if r.Err? then w else w.(db := w.db.(archived := r.value.archived, version := r.value.version, sessions := r.value.sessions))
  }

  /** Task and Run writes. */
  ghost function NextTask(w: World, a: Action): World {
    match a
    case DoCreateTask(c, owner, repository, versions, criteria, newId) => WithExecution(w, CreateTask(w.db, w.now, c, owner, repository, versions, criteria, newId))
    case DoEditTask(c, t, repository, versions, criteria, ifMatch) => WithExecution(w, EditTask(w.db, w.now, c, t, repository, versions, criteria, ifMatch))
    case DoTransferTask(c, t, owner, ifMatch) => WithExecution(w, TransferTask(w.db, w.now, c, t, owner, ifMatch))
    case DoAssignTask(c, t, target, ifMatch) => WithExecution(w, AssignTask(w.db, w.now, c, t, target, ifMatch))
    case DoAddDependency(c, t, predecessor, condition, ifMatch, newId) => WithExecution(w, AddDependency(w.db, w.now, c, t, predecessor, condition, ifMatch, newId))
    case DoRemoveDependency(c, t, dependency, ifMatch) => WithExecution(w, RemoveDependency(w.db, w.now, c, t, dependency, ifMatch))
    case DoCommand(c, t, command, ifMatch) => NextCommand(w, t, command, CommandTask(w.db, w.now, c, t, command, ifMatch))
    case DoClaim(c, wanted, newId) => NextClaim(w, ClaimRun(w.db, w.now, c, wanted, newId))
    case DoHeartbeat(c, run, fence, ifMatch) => WithExecution(w, HeartbeatRun(w.db, w.now, c, run, fence, ifMatch))
    case DoReport(c, run, report, fence, ifMatch) => WithExecution(w, ReportRun(w.db, w.now, c, run, report, fence, ifMatch))
    case WorkerReconciles => WithExecution(w, Ok(ReconcileProject(w.db, w.now)))
    case _ => w
  }

  /** Evidence and reviews. */
  function NextDelivery(w: World, a: Action): World {
    match a
    case DoUpload(c, run, digest, media, fence, ifMatch, newId) => WithEvidence(w, UploadContent(w.db, w.now, c, run, digest, media, fence, ifMatch, newId))
    case DoRegister(c, run, r, fence, ifMatch, newId) => WithEvidence(w, RegisterArtifact(w.db, w.now, c, run, r, fence, ifMatch, newId))
    case DoVerify(c, artifact, ifMatch, provider) => WithEvidence(w, VerifyArtifact(w.db, w.now, c, artifact, ifMatch, provider))
    case DoReviewArtifact(c, artifact, digest, accept, ifMatch) => WithEvidence(w, ReviewArtifact(w.db, w.now, c, artifact, digest, accept, ifMatch))
    case DoReviewTask(c, t, run, refs, accept, checks, ifMatch) => NextReview(w, ReviewTask(w.db, w.now, c, t, run, refs, accept, checks, ifMatch))
    case _ => w
  }

  /** Governed tools: a worker that finds the project locked, or dies, just gives up. */
  function NextTool(w: World, a: Action): World {
    match a
    case DoRequest(c, wanting, newId) => WithTools(w, RequestInvocation(w.db, w.now, c, wanting, newId))
    case DoDecide(c, approval, digest, approve, ifMatch) => WithTools(w, DecideApproval(w.db, w.now, c, approval, digest, approve, ifMatch))
    case WorkerIntends(worker, id) => if worker in w.workers && w.workers[worker].Intending? then w else NextIntent(w, worker, id)
    case WorkerPerforms(worker, outcome) =>
      if worker in w.workers && w.workers[worker].Intending? then NextPerformance(w, worker, w.workers[worker].id, outcome) else w
    case WorkerGivesUp(worker) => w.(workers := w.workers[worker := Idle])
    case DoReconcile(c, id, ifMatch, lookup) => WithTools(w, ReconcileInvocation(w.db, w.now, c, id, ifMatch, lookup))
    case _ => w
  }

  /** Sessions, the archive, the operator, and whatever happens outside. */
  function NextOther(w: World, a: Action): World {
    match a
    case DoCreateSession(c, agent, scopes, expires, newId) => WithSessions(w, CreateSession(w.db, w.now, c, agent, scopes, expires, newId))
    case DoNegotiate(c) => WithSessions(w, Negotiate(w.db, w.now, c))
    case DoRevokeSession(c, s, ifMatch) => WithSessions(w, RevokeSession(w.db, w.now, c, s, ifMatch))
    case SessionsRevoked(some) => WithSessions(w, Ok(RevokeAll(w.db.sessions, some)))
    case DoProjectCommand(c, archive, ifMatch) => NextShelf(w, ProjectCommand(w.db, w.now, c, archive, ifMatch))
    case Enter(actor) => WithGate(w, EnterMaintenance(w.db, actor))
    case Leave(actor) => WithGate(w, LeaveMaintenance(w.db, actor))
    case TakeBackup => w.(backups := w.backups + [w.db])
    case RestoreBackup(index) => if index < |w.backups| then w.(db := Quarantine(w.backups[index])) else w
    case ResolveItem(item, actor) => WithGate(w, Resolve(w.db, item, actor))
    case Finish(actor) => WithGate(w, FinishRecovery(w.db, actor))
    case Tick(d) => w.(now := w.now + d)
    case Change(env, renames) => w.(db := w.db.(env := env, version := w.db.version + renames))
    case _ => w
  }

  predicate TaskAction(a: Action) {
    a.DoCreateTask? || a.DoEditTask? || a.DoTransferTask? || a.DoAssignTask? || a.DoAddDependency? || a.DoRemoveDependency?
    || a.DoCommand? || a.DoClaim? || a.DoHeartbeat? || a.DoReport? || a.WorkerReconciles?
  }
  predicate DeliveryAction(a: Action) { a.DoUpload? || a.DoRegister? || a.DoVerify? || a.DoReviewArtifact? || a.DoReviewTask? }
  predicate ToolAction(a: Action) {
    a.DoRequest? || a.DoDecide? || a.WorkerIntends? || a.WorkerPerforms? || a.WorkerGivesUp? || a.DoReconcile?
  }

  function NewIds(a: Action): set<nat> {
    if a.DoCreateTask? || a.DoAddDependency? || a.DoClaim? || a.DoUpload? || a.DoRegister? || a.DoRequest? || a.DoCreateSession?
    then {a.newId} else {}
  }

  ghost function Next(w: World, a: Action): World {
    var v := if TaskAction(a) then NextTask(w, a)
             else if DeliveryAction(a) then NextDelivery(w, a)
             else if ToolAction(a) then NextTool(w, a)
             else NextOther(w, a);
    v.(used := w.used + NewIds(a))
  }

  /** The only thing assumed of a step: ids are drawn at random, so a new one has never been drawn before. */
  predicate Possible(w: World, a: Action) { NewIds(a) !! w.used }

  const NOTHING_RUN := Execution(map[], map[], map[], map[], map[], 1)

  /** A new installation: an empty project, no maintenance, no backups; people and policies as they may be. */
  ghost predicate Fresh(w: World) {
    && w.db.execution == NOTHING_RUN && w.db.evidence == Evidence(map[], map[]) && w.db.tools == Tools(map[], map[])
    && w.db.gate == Gate(false, false, map[]) && w.db.sessions == map[] && !w.db.archived
    && w.workers == map[] && w.backups == [] && w.used == {} && w.calls == [] && w.claims == multiset{} && w.commands == multiset{}
  }

  ghost predicate StepsAt(states: seq<World>, actions: seq<Action>, k: nat)
    requires |states| == |actions| + 1 && k < |actions|
  {
    Possible(states[k], actions[k]) && states[k + 1] == Next(states[k], actions[k])
  }

  /** A run: from a fresh installation, each state the next of the one before. */
  ghost predicate IsRun(states: seq<World>, actions: seq<Action>) {
    && |states| == |actions| + 1 && Fresh(states[0])
    && forall k: nat {:trigger StepsAt(states, actions, k)} :: k < |actions| ==> StepsAt(states, actions, k)
  }

  /** The ids of a database have all been drawn. */
  ghost predicate Drawn(db: Database, used: set<nat>) {
    && db.execution.tasks.Keys <= used && db.execution.runs.Keys <= used && db.execution.dependencies.Keys <= used
    && db.execution.snapshots.Keys <= used
    && db.evidence.artifacts.Keys <= used && db.evidence.contents.Keys <= used
    && db.tools.invocations.Keys <= used && db.tools.approvals.Keys <= used && db.sessions.Keys <= used
  }
}
