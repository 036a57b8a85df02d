/** Sessions, the project archive, maintenance windows and recovery after a restore
    (internal/controlplane/sessions.go and management.go, cmd/accp/maintenance.go, internal/recovery). */
module Recovery {
  import opened Options
  import opened Tables
  import opened Access

  // --- Sessions -----------------------------------------------------------------

  function CreateSession(db: Database, now: int, caller: Caller, agent: nat, scopes: set<Scope>, expires: int, newId: SessionId): Result<map<SessionId, Session>> {
    var q :- Admit(db, now, caller, BY_CONTRIBUTOR);
    :- Need(agent in db.env.agents, NotFound);
    :- Need(now + 30 <= expires <= now + 24 * 3600, InvalidExpiry);
    Ok(db.sessions[newId := Session(q.user, agent, scopes, expires, true, false, 1)])
  }

  function Negotiate(db: Database, now: int, caller: Caller): Result<map<SessionId, Session>> {
    var q :- Admit(db, now, caller, SHAKING_HANDS);
    :- Need(caller.Agent?, AgentSessionRequired);
    var s := db.sessions[caller.session];
    Ok(db.sessions[caller.session := s.(negotiated := true, version := s.version + 1)])
  }

  function Revoked(s: Session): Session { if s.active then s.(active := false, version := s.version + 1) else s }

  function RevokeSession(db: Database, now: int, caller: Caller, id: SessionId, ifMatch: nat): Result<map<SessionId, Session>> {
    var q :- Admit(db, now, caller, BY_MEMBER);
    :- Need(id in db.sessions, Unauthenticated);
    var s := db.sessions[id];
    :- Need(s.human == q.user || Admin in q.roles, DelegatorRequired);
    :- Need(ifMatch == s.version, VersionConflict);
    :- Need(s.active, SessionInactive);
    Ok(db.sessions[id := Revoked(s)])
  }

  function RevokeAll(sessions: map<SessionId, Session>, some: set<SessionId>): map<SessionId, Session> {
    map s | s in sessions :: if s in some then Revoked(sessions[s]) else sessions[s]
  }

  // --- The project archive -----------------------------------------------------------

  predicate Quiet(db: Database) {
    && (forall t :: t in db.execution.tasks ==> db.execution.tasks[t].status in {Done, Canceled})
    && (forall r :: r in db.execution.runs ==> db.execution.runs[r].status != RunRunning)
    && (forall i :: i in db.tools.invocations ==> !Unsettled(db.tools.invocations[i].status))
  }

  datatype Shelf = Shelf(archived: bool, version: nat, sessions: map<SessionId, Session>)

  function ProjectCommand(db: Database, now: int, caller: Caller, archive: bool, ifMatch: nat): Result<Shelf> {
    var q :- Admit(db, now, caller, PROJECT_COMMAND);
    :- Need(ifMatch == db.version, VersionConflict);
    :- Need(!archive || Quiet(db), ArchiveBlocked);
    :- Need(db.archived != archive, InvalidTransition);
    Ok(Shelf(archive, db.version + 1, if archive then RevokeAll(db.sessions, db.sessions.Keys) else db.sessions))
  }

  // --- Maintenance ----------------------------------------------------------------------

  predicate InFlight(tools: Tools) { exists i :: i in tools.invocations && tools.invocations[i].status == ToolRunning }

  predicate ItemsOpen(gate: Gate) { exists i :: i in gate.resolved && !gate.resolved[i] }

  predicate IsAdmin(env: Environment, user: UserId) { ActiveMember(env, user) && Admin in env.members[user].roles }

  function EnterMaintenance(db: Database, actor: UserId): Result<Gate> {
    if !IsAdmin(db.env, actor) then Err(AdministratorRequired)
    else
      :- Need(!InFlight(db.tools), ToolsInFlight);
      Ok(db.gate.(maintenance := true))
  }

  function LeaveMaintenance(db: Database, actor: UserId): Result<Gate> {
    if !IsAdmin(db.env, actor) then Err(AdministratorRequired)
    else
      :- Need(!db.gate.recoveryPending && !ItemsOpen(db.gate), RecoveryIncomplete);
      Ok(db.gate.(maintenance := false))
  }

  // --- Recovery ---------------------------------------------------------------------------

  /** The items a restore opens: every unsettled operation, every live Run. */
  function NewItems(db: Database): set<ItemId> {
    (set i | i in db.tools.invocations && Unsettled(db.tools.invocations[i].status) :: ToolItem(i))
    + (set r | r in db.execution.runs && db.execution.runs[r].status == RunRunning :: RunItem(r))
  }

  function QuarantinedInvocation(doc: Invocation): Invocation {
    if doc.status in {ToolReady, ToolRunning, AwaitingApproval} then
      doc.(status := ToolUnknown, version := doc.version + 1, error := Some(RestoreOutcomeUnknown))
    else doc
  }

  function QuarantinedRun(run: TaskRun): TaskRun {
    if run.status == RunRunning then run.(status := RunLost, version := run.version + 1) else run
  }

  function QuarantinedTask(t: Task): Task {
    if t.status in {Running, Ready, Blocked} then t.(status := Blocked, version := t.version + 1, retry := false) else t
  }

  function AllUnknown(invocations: map<InvocationId, Invocation>): map<InvocationId, Invocation> {
    map i | i in invocations :: QuarantinedInvocation(invocations[i])
  }

  function AllLost(runs: map<RunId, TaskRun>): map<RunId, TaskRun> { map r | r in runs :: QuarantinedRun(runs[r]) }

  function AllBlocked(tasks: map<TaskId, Task>): map<TaskId, Task> { map t | t in tasks :: QuarantinedTask(tasks[t]) }

  function Opened(resolved: map<ItemId, bool>, items: set<ItemId>): map<ItemId, bool> {
    map i | i in resolved.Keys + items :: if i in resolved then resolved[i] else false
  }

  /** What a restored database is turned into before anything may use it. */
  function Quarantine(db: Database): Database {
    var x, tools := db.execution, db.tools;
    db.(gate := Gate(true, true, Opened(db.gate.resolved, NewItems(db))),
        sessions := RevokeAll(db.sessions, db.sessions.Keys),
        tools := tools.(invocations := AllUnknown(tools.invocations)),
        execution := x.(runs := AllLost(x.runs), tasks := AllBlocked(x.tasks)))
  }

  /** A person resolves one item; a tool item only once its outcome has been confirmed by lookup. */
  function Resolve(db: Database, item: ItemId, actor: UserId): Result<Gate> {
    if !db.gate.maintenance then Err(NotPaused)
    else
      :- Need(item in db.gate.resolved && !db.gate.resolved[item], ItemUnavailable);
      :- Need(IsAdmin(db.env, actor), AdministratorRequired);
      :- Need(item.ToolItem? ==> item.invocation in db.tools.invocations
                && db.tools.invocations[item.invocation].status in {ToolSucceeded, ToolFailed}, NotConfirmed);
      Ok(db.gate.(resolved := db.gate.resolved[item := true]))
  }

  function FinishRecovery(db: Database, actor: UserId): Result<Gate> {
    if !db.gate.maintenance then Err(NotPaused)
    else
      :- Need(IsAdmin(db.env, actor) && !ItemsOpen(db.gate)
              && (forall i :: i in db.tools.invocations ==> db.tools.invocations[i].status !in {ToolUnknown, ToolRunning})
              && (forall s :: s in db.sessions ==> !db.sessions[s].active), RecoveryIncomplete);
      Ok(db.gate.(recoveryPending := false))
  }
}
