/** What every write passes before its handler: identity, gates, membership, Session (server.go and sessions.go). */
module Access {
  import opened Options
  import opened Tables

  datatype Caller = Human(user: UserId) | Agent(session: SessionId)
  datatype Operation = Operation(role: Option<Role>, scope: Option<Scope>, agentOnly: bool, maintenanceWrite: bool, archivedWrite: bool)
  datatype Request = Request(user: UserId, roles: set<Role>, session: Option<SessionId>)

  const BY_MEMBER := Operation(None, None, false, false, false)
  const BY_REVIEWER := Operation(Some(Reviewer), None, false, false, false)
  const BY_CONTRIBUTOR := Operation(Some(Member), None, false, false, false)
  const CLAIMING := Operation(None, Some(RunsClaim), true, false, false)
  const RUNNING_WRITE := Operation(None, Some(RunsWrite), true, false, false)
  const ARTIFACT_WRITE := Operation(None, Some(ArtifactsWrite), true, false, false)
  const INVOKING := Operation(None, Some(ToolsInvoke), true, false, false)
  const SHAKING_HANDS := Operation(None, Some(Handshake), true, false, false)
  const RECONCILING := Operation(Some(Admin), None, false, true, false)
  const PROJECT_COMMAND := Operation(Some(Admin), None, false, false, true)

  function Authenticate(db: Database, now: int, caller: Caller, op: Operation): Result<UserId> {
    match caller
    case Agent(id) =>
      :- Need(id in db.sessions && SessionLive(db.sessions[id], now), Unauthenticated);
      :- Need(op.scope.Some?, HumanRequired);
      var human := db.sessions[id].human;
      :- Need(human in db.env.members && db.env.members[human].accountActive, DelegatorInactive);
      Ok(human)
    case Human(user) =>
      :- Need(!op.agentOnly, AgentSessionRequired);
      :- Need(user in db.env.members && db.env.members[user].accountActive, HumanNotProvisioned);
      Ok(user)
  }

  function Admit(db: Database, now: int, caller: Caller, op: Operation): (r: Result<Request>)
    ensures r.Ok? ==> (op.maintenanceWrite || !db.gate.maintenance) && (op.archivedWrite || !db.archived)
    ensures r.Ok? && caller.Human? ==> r.value.user == caller.user && r.value.session == None && !op.agentOnly
    ensures r.Ok? && caller.Agent? ==> caller.session in db.sessions && SessionLive(db.sessions[caller.session], now)
                                       && r.value.user == db.sessions[caller.session].human && r.value.session == Some(caller.session)
  {
    var user :- Authenticate(db, now, caller, op);
    :- Need(!db.gate.maintenance || op.maintenanceWrite, MaintenanceOn);
    :- Need(db.env.members[user].active, NotFound);
    var roles := db.env.members[user].roles;
    :- Need(op.role.None? || HasRole(roles, op.role.value), Forbidden);
    :- Need(caller.Human? || op.scope == Some(Handshake) || op.scope.value in db.sessions[caller.session].scopes, ScopeDenied);
    :- Need(caller.Human? || HasRole(roles, Member), DelegationDenied);
    :- Need(!db.archived || op.archivedWrite, ProjectArchived);
    Ok(Request(user, roles, if caller.Agent? then Some(caller.session) else None))
  }

  /** `checkRun`: the caller's own Run, its fence, a live lease and Owner if `live`, and If-Match last. */
  function CheckRun(db: Database, now: int, q: Request, run: TaskRun, fence: nat, live: bool, ifMatch: Option<nat>): Check {
    if q.session != Some(run.session) then Fail(NotFound)
    else if fence != run.fence then Fail(StaleFence)
    else if live && (run.status != RunRunning || now >= run.expires) then Fail(RunInactive)
    else if live && !ActiveMember(db.env, run.owner) then Fail(OwnerInactive)
    else if ifMatch.Some? && ifMatch.value != run.version then Fail(VersionConflict)
    else Pass
  }

  function ActiveRun(db: Database, now: int, q: Request, id: RunId, fence: nat, ifMatch: nat): (r: Result<TaskRun>)
    ensures r.Ok? ==> id in db.execution.runs && r.value == db.execution.runs[id] && r.value.status == RunRunning && now < r.value.expires
  {
    if id !in db.execution.runs then Err(NotFound)
    else
      var run := db.execution.runs[id];
      :- CheckRun(db, now, q, run, fence, true, Some(ifMatch));
      Ok(run)
  }

  // --- Who passes, exactly -----------------------------------------------------------

  /** The person behind a caller has an active account and membership, and the role; an agent's person is a Member. */
  predicate PersonMay(env: Environment, user: UserId, op: Operation, agent: bool) {
    && user in env.members && env.members[user].accountActive && env.members[user].active
    && (op.role.Some? ==> HasRole(env.members[user].roles, op.role.value))
    && (agent ==> HasRole(env.members[user].roles, Member))
  }

  /** The Session is live and has the scope; people need no scope but may not do what only agents do. */
  predicate CredentialMay(sessions: map<SessionId, Session>, now: int, caller: Caller, op: Operation) {
    match caller
    case Human(_) => !op.agentOnly
    case Agent(id) => id in sessions && SessionLive(sessions[id], now) && op.scope.Some? && op.scope.value in sessions[id].scopes + {Handshake}
  }

  /** A write is admitted if and only if credential, person, maintenance gate and archive gate all let it pass. */
  lemma AdmittedIff(db: Database, now: int, caller: Caller, op: Operation)
    ensures Admit(db, now, caller, op).Ok? <==>
            && CredentialMay(db.sessions, now, caller, op)
            && PersonMay(db.env, if caller.Agent? then db.sessions[caller.session].human else caller.user, op, caller.Agent?)
            && (db.gate.maintenance ==> op.maintenanceWrite) && (db.archived ==> op.archivedWrite)
  {
  }

  /** A Run write is admitted if and only if it comes through the Run's own Session under its current fence and version,
      while the Run is running under a live lease for an active Owner. */
  lemma ActiveRunIff(db: Database, now: int, q: Request, id: RunId, fence: nat, ifMatch: nat)
    ensures ActiveRun(db, now, q, id, fence, ifMatch).Ok? <==>
            && id in db.execution.runs
            && var run := db.execution.runs[id];
               && q.session == Some(run.session) && fence == run.fence && ifMatch == run.version
               && run.status == RunRunning && now < run.expires && ActiveMember(db.env, run.owner)
  {
  }
}
