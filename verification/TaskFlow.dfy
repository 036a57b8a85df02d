/** Tasks and Runs: creation, inputs, commands, claims, reports and the worker that closes lost Runs
    (internal/controlplane/tasks_execution.go, task_lifecycle.go, resources.go and reconcile.go). */
module TaskFlow {
  import opened Options
  import opened Tables
  import opened Access
  import opened Dependencies
  import opened Snapshots

  const LEASE := 90

  function SavedTask(t: Task): Task { t.(version := t.version + 1) }
  function SavedRun(r: TaskRun): TaskRun { r.(version := r.version + 1) }

  function PutTask(x: Execution, id: TaskId, t: Task): Execution { x.(tasks := x.tasks[id := SavedTask(t)]) }
  function PutRun(x: Execution, id: RunId, r: TaskRun): Execution { x.(runs := x.runs[id := SavedRun(r)]) }

  // --- Inputs --------------------------------------------------------------------

  /** One version of each Context; `published` if only published versions will do. */
  function Choose(env: Environment, versions: seq<VersionId>, published: bool, chosen: map<ContextId, VersionId>): Result<map<ContextId, VersionId>> {
    if versions == [] then Ok(chosen)
    else
      var v := versions[0];
      :- Need(v in env.versions && (published ==> env.versions[v].published), InvalidContext);
      :- Need(env.versions[v].context !in chosen, ContextConflict);
      Choose(env, versions[1..], published, chosen[env.versions[v].context := v])
  }

  /** A new task carries the column default: its retry flag is set although nobody has commanded it. */
  function CreateTask(db: Database, now: int, caller: Caller, owner: UserId, repository: nat, versions: seq<VersionId>,
                      criteria: nat, newId: TaskId): Result<Execution> {
    var q :- Admit(db, now, caller, BY_CONTRIBUTOR);
    :- Need(ActiveMember(db.env, owner), InvalidOwner);
    :- Need(repository in db.env.repositories, InvalidRepository);
    var contexts :- Choose(db.env, versions, false, map[]);
    Ok(db.execution.(tasks := db.execution.tasks[newId := Task(owner, repository, Draft, false, true, criteria, contexts, 1)]))
  }

  function OwnedTask(db: Database, q: Request, id: TaskId, ifMatch: nat): (r: Result<Task>)
    ensures r.Ok? ==> id in db.execution.tasks && r.value == db.execution.tasks[id]
  {
    if id !in db.execution.tasks then Err(NotFound)
    else
      var t := db.execution.tasks[id];
      :- Need(t.owner == q.user || Admin in q.roles, OwnerRequired);
      :- Need(ifMatch == t.version, VersionConflict);
      Ok(t)
  }

  predicate Editable(t: Task) { t.status in {Draft, Ready, Blocked} }

  predicate HasLiveRun(x: Execution, task: TaskId) {
    exists r :: r in x.runs && x.runs[r].task == task && x.runs[r].status == RunRunning
  }

  function EditTask(db: Database, now: int, caller: Caller, id: TaskId, repository: nat, versions: seq<VersionId>,
                    criteria: nat, ifMatch: nat): Result<Execution> {
    var q :- Admit(db, now, caller, BY_MEMBER);
    var t :- OwnedTask(db, q, id, ifMatch);
    :- Need(!t.archived, TaskArchived);
    :- Need(Editable(t), InvalidTransition);
    :- Need(!HasLiveRun(db.execution, id), RunActive);
    :- Need(repository in db.env.repositories, InvalidRepository);
    var contexts :- Choose(db.env, versions, true, map[]);
    Ok(PutTask(db.execution, id, t.(repository := repository, criteria := criteria, contexts := contexts, status := Draft, retry := false)))
  }

  function TransferTask(db: Database, now: int, caller: Caller, id: TaskId, owner: UserId, ifMatch: nat): Result<Execution> {
    var q :- Admit(db, now, caller, BY_MEMBER);
    var t :- OwnedTask(db, q, id, ifMatch);
    :- Need(!t.archived, TaskArchived);
    :- Need(Editable(t), InvalidTransition);
    :- Need(owner != t.owner, OwnerUnchanged);
    :- Need(ActiveMember(db.env, owner), InvalidOwner);
    :- Need(!HasLiveRun(db.execution, id), RunActive);
    Ok(PutTask(db.execution, id, t.(owner := owner, status := Draft, retry := false)))
  }

  function AssignTask(db: Database, now: int, caller: Caller, id: TaskId, target: Target, ifMatch: nat): Result<Execution> {
    var q :- Admit(db, now, caller, BY_MEMBER);
    var t :- OwnedTask(db, q, id, ifMatch);
    :- Need(Editable(t), InvalidTransition);
    :- Need(target.ToAgent? ==> target.agent in db.env.agents, NotFound);
    :- Need(!target.OtherQueue?, UnsupportedQueue);
    Ok(PutTask(db.execution.(assignments := db.execution.assignments[id := target]), id, t))
  }

  // --- Dependencies -----------------------------------------------------------------

  ghost predicate Conflicting(x: Execution, predecessor: TaskId, successor: TaskId) {
    || Reaches(Edges(x.dependencies), successor, predecessor)
    || (predecessor, successor) in Edges(x.dependencies)
  }

  /** A READY task that the new dependency holds back becomes BLOCKED; its authorisation stays. */
  function WithDependency(db: Database, id: TaskId, d: Dependency, newId: DependencyId): Execution
    requires id in db.execution.tasks
  {
    var t := db.execution.tasks[id];
    var added := db.execution.(dependencies := db.execution.dependencies[newId := d]);
    if t.status != Ready then PutTask(added, id, t)
    else
      var x := ResolveEvidence(added, db.evidence, {id});
      PutTask(x, id, if TaskReady(db.env, x, db.evidence, id) then t else t.(status := Blocked))
  }

  ghost function AddDependency(db: Database, now: int, caller: Caller, id: TaskId, predecessor: TaskId, condition: Condition,
                               ifMatch: nat, newId: DependencyId): Result<Execution> {
    var q :- Admit(db, now, caller, BY_MEMBER);
    var t :- OwnedTask(db, q, id, ifMatch);
    :- Need(Editable(t), InvalidTransition);
    :- Need(predecessor in db.execution.tasks, NotFound);
    :- Need(!Conflicting(db.execution, predecessor, id), DependencyConflict);
    Ok(WithDependency(db, id, Dependency(predecessor, id, condition, None), newId))
  }

  function RemoveDependency(db: Database, now: int, caller: Caller, id: TaskId, dependency: DependencyId, ifMatch: nat): Result<Execution> {
    var q :- Admit(db, now, caller, BY_MEMBER);
    var t :- OwnedTask(db, q, id, ifMatch);
    :- Need(Editable(t), InvalidTransition);
    :- Need(dependency in db.execution.dependencies && db.execution.dependencies[dependency].successor == id, NotFound);
    Ok(PutTask(db.execution.(dependencies := db.execution.dependencies - {dependency}), id, t))
  }

  // --- Commands ------------------------------------------------------------------------

  datatype Command = Submit | Retry | Cancel | Archive | Restore

  predicate ToolsOpen(db: Database, task: TaskId) { HasUnsettled(db.tools, RunsOf(db.execution.runs, task)) }

  /** SUBMIT before the first Run, RETRY after one: the only commands that authorise an attempt. */
  function Authorise(db: Database, id: TaskId, t: Task, command: Command): Result<Execution>
    requires id in db.execution.tasks
  {
    if t.status !in {Draft, Blocked} then Err(InvalidTransition)
    else
      var ran := RunsOf(db.execution.runs, id) != {};
      :- Need(!(command == Submit && ran) && !(command == Retry && !ran), InvalidTransition);
      :- Need(!ToolsOpen(db, id), UnresolvedToolOperation);
      var x := ResolveEvidence(db.execution, db.evidence, {id});
      var status := if TaskReady(db.env, x, db.evidence, id) then Ready else Blocked;
      Ok(PutTask(x, id, t.(status := status, retry := true)))
  }

  function LiveRuns(x: Execution, id: TaskId): set<RunId> {
    set r | r in x.runs && x.runs[r].task == id && x.runs[r].status == RunRunning
  }

  function CancelTask(db: Database, id: TaskId, t: Task): Result<Execution> {
    if t.status in {Canceled, Done} then Err(InvalidTransition)
    else
      var live := LiveRuns(db.execution, id);
      var x := if live == {} then db.execution
               else PutRun(db.execution, LeastOf(live), db.execution.runs[LeastOf(live)].(status := RunCanceled));
      Ok(PutTask(x, id, t.(status := Canceled)))
  }

  function CommandTask(db: Database, now: int, caller: Caller, id: TaskId, command: Command, ifMatch: nat): Result<Execution> {
    var q :- Admit(db, now, caller, BY_MEMBER);
    var t :- OwnedTask(db, q, id, ifMatch);
    :- Need(!t.archived || command == Restore, TaskArchived);
    match command
    case Submit => Authorise(db, id, t, command)
    case Retry => Authorise(db, id, t, command)
    case Cancel => CancelTask(db, id, t)
    case Archive =>
      :- Need(t.status in {Done, Canceled}, InvalidTransition);
      :- Need(!ToolsOpen(db, id), UnresolvedToolOperation);
      Ok(PutTask(db.execution, id, t.(archived := true)))
    case Restore =>
      :- Need(t.archived, InvalidTransition);
      Ok(PutTask(db.execution, id, t.(archived := false)))
  }

  // --- Runs -----------------------------------------------------------------------------

  function Claimable(db: Database, agent: nat, wanted: Option<TaskId>): set<TaskId> {
    set t | t in db.execution.tasks && db.execution.tasks[t].status == Ready && db.execution.tasks[t].retry
            && t in db.execution.assignments && db.execution.assignments[t] in {ToAgent(agent), General}
            && (wanted.Some? ==> t == wanted.value)
  }

  function Claimed(x: Execution, id: TaskId, snapshot: Snapshot, session: SessionId, user: UserId, now: int, newId: RunId): Execution
    requires id in x.tasks
  {
    var t := x.tasks[id];
    var run := TaskRun(id, session, t.owner, user, LastAttempt(x.runs, id) + 1, newId, RunRunning, x.nextFence, now + LEASE, 1);
    PutTask(x.(runs := x.runs[newId := run], snapshots := x.snapshots[newId := snapshot], nextFence := x.nextFence + 1),
            id, t.(status := Running, retry := false))
  }

  datatype Claim = Claim(task: TaskId, execution: Execution)

  function ClaimTask(db: Database, now: int, session: SessionId, user: UserId, id: TaskId, newId: RunId): Result<Execution>
    requires id in db.execution.tasks
  {
    var x := ResolveEvidence(db.execution, db.evidence, {id});
    :- Need(TaskReady(db.env, x, db.evidence, id), TaskBlocked);
    var snapshot :- FreezeSnapshot(db.env, x, db.evidence, id);
    Ok(Claimed(x, id, snapshot, session, user, now, newId))
  }

  /** The first claimable task by id, for a Session that has negotiated its adapter. */
  function ChooseTask(db: Database, now: int, caller: Caller, wanted: Option<TaskId>): (r: Result<TaskId>)
    ensures r.Ok? ==>
              && r.value in db.execution.tasks && db.execution.tasks[r.value].status == Ready && db.execution.tasks[r.value].retry
              && caller.Agent? && caller.session in db.sessions && (wanted.Some? ==> r.value == wanted.value)
  {
    var q :- Admit(db, now, caller, CLAIMING);
    :- Need(caller.Agent? && db.sessions[caller.session].negotiated, HandshakeRequired);
    var claimable := Claimable(db, db.sessions[caller.session].agent, wanted);
    :- Need(claimable != {}, NoClaimableTask);
    Ok(LeastOf(claimable))
  }

  function ClaimRun(db: Database, now: int, caller: Caller, wanted: Option<TaskId>, newId: RunId): Result<Claim> {
    var id :- ChooseTask(db, now, caller, wanted);
    var x :- ClaimTask(db, now, caller.session, db.sessions[caller.session].human, id, newId);
    Ok(Claim(id, x))
  }

  function HeartbeatRun(db: Database, now: int, caller: Caller, id: RunId, fence: nat, ifMatch: nat): Result<Execution> {
    var q :- Admit(db, now, caller, RUNNING_WRITE);
    var run :- ActiveRun(db, now, q, id, fence, ifMatch);
    Ok(PutRun(db.execution, id, run.(expires := now + LEASE)))
  }

  datatype Report = Progress | CompletionCandidate(artifacts: seq<ArtifactId>) | Failure

  predicate OwnEvidence(evidence: Evidence, run: RunId, artifacts: seq<ArtifactId>) {
    forall a :: a in artifacts ==> a in evidence.artifacts && evidence.artifacts[a].run == run && evidence.artifacts[a].verification == Verified
  }

  function ReportRun(db: Database, now: int, caller: Caller, id: RunId, report: Report, fence: nat, ifMatch: nat): Result<Execution> {
    var q :- Admit(db, now, caller, RUNNING_WRITE);
    var run :- ActiveRun(db, now, q, id, fence, ifMatch);
    :- Need(run.task in db.execution.tasks, NotFound);
    var t := db.execution.tasks[run.task];
    match report
    case Progress => Ok(PutRun(db.execution, id, run))
    case CompletionCandidate(artifacts) =>
      :- Need(OwnEvidence(db.evidence, id, artifacts), ArtifactEvidenceRequired);
      Ok(PutTask(PutRun(db.execution, id, run.(status := RunSucceeded)), run.task, t.(status := InReview)))
    case Failure =>
      Ok(PutTask(PutRun(db.execution, id, run.(status := RunFailed)), run.task, t.(status := Blocked)))
  }

  // --- The worker: lost Runs are closed, dependency-blocked tasks rechecked -------------------

  predicate AuthorityLost(db: Database, now: int, run: TaskRun) {
    || now >= run.expires
    || (run.session in db.sessions &&
          var s := db.sessions[run.session];
          !s.active || now >= s.expires || !ActiveWith(db.env, s.human, Member) || !ActiveMember(db.env, run.owner))
  }

  function LostRuns(db: Database, now: int): set<RunId> {
    set r | r in db.execution.runs && db.execution.runs[r].status == RunRunning
            && db.execution.runs[r].session in db.sessions && AuthorityLost(db, now, db.execution.runs[r])
  }

  function CloseRun(x: Execution, r: RunId): Execution
    requires r in x.runs
  {
    var run := x.runs[r];
    var closed := PutRun(x, r, run.(status := RunLost));
    if run.task in x.tasks then PutTask(closed, run.task, x.tasks[run.task].(status := Blocked)) else closed
  }

  function CloseRuns(x: Execution, order: seq<RunId>): Execution
    requires forall r :: r in order ==> r in x.runs
    decreases |order|
  {
    if order == [] then x else CloseRuns(CloseRun(x, order[0]), order[1..])
  }

  function Recheck(env: Environment, evidence: Evidence, x: Execution, id: TaskId): Execution
    requires id in x.tasks
  {
    var resolved := ResolveEvidence(x, evidence, {id});
    if TaskReady(env, resolved, evidence, id) then PutTask(resolved, id, x.tasks[id].(status := Ready)) else resolved
  }

  function RecheckAll(env: Environment, evidence: Evidence, x: Execution, order: seq<TaskId>): Execution
    requires forall t :: t in order ==> t in x.tasks
    decreases |order|
  {
    if order == [] then x else RecheckAll(env, evidence, Recheck(env, evidence, x, order[0]), order[1..])
  }

  function Waiting(x: Execution): set<TaskId> { set t | t in x.tasks && x.tasks[t].status == Blocked && x.tasks[t].retry }

  function ReconcileProject(db: Database, now: int): Execution {
    if db.gate.maintenance then db.execution
    else
      var closed := CloseRuns(db.execution, Ascending(LostRuns(db, now)));
      RecheckAll(db.env, db.evidence, closed, Ascending(Waiting(closed)))
  }
}
