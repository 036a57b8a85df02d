/** Sessions, the archive, maintenance and recovery: what may be done - exactly when - and what it leaves behind. */
module Operators {
  import opened Options
  import opened Tables
  import opened Access
  import opened Recovery
  import opened ControlPlane
  import Decisions
  import Readiness

  // --- Sessions and the archive ------------------------------------------------------------

  ghost predicate MayOpen(db: Database, now: int, c: Caller, agent: nat, expires: int) {
    Decisions.PersonActs(db, c, Member, false) && agent in db.env.agents && 30 <= expires - now <= 24 * 3600
  }

  ghost predicate MayShake(db: Database, now: int, c: Caller) {
    && c.Agent? && c.session in db.sessions && !db.gate.maintenance && !db.archived
    && var s := db.sessions[c.session]; s.active && now < s.expires && ActiveWith(db.env, s.human, Member)
  }

  /** The person behind the Session, or an administrator, may revoke it. */
  ghost predicate MayRevoke(db: Database, c: Caller, id: SessionId, ifMatch: nat) {
    && Readiness.MemberActs(db, c) && id in db.sessions && db.sessions[id].active && db.sessions[id].version == ifMatch
    && (db.sessions[id].human == c.user || Admin in db.env.members[c.user].roles)
  }

  /** Exactly these Sessions are no longer active. */
  ghost predicate Ended(x: map<SessionId, Session>, y: map<SessionId, Session>, some: set<SessionId>) {
    && y.Keys == x.Keys
    && forall s :: s in x ==> y[s] == if s in some && x[s].active then x[s].(active := false, version := x[s].version + 1) else x[s]
  }

  /** Tasks have ended, Runs too, and operations have their outcome. */
  ghost predicate AtRest(db: Database) {
    && (forall t :: t in db.execution.tasks ==> db.execution.tasks[t].status == Done || db.execution.tasks[t].status == Canceled)
    && (forall r :: r in db.execution.runs ==> db.execution.runs[r].status != RunRunning)
    && (forall i :: i in db.tools.invocations ==> db.tools.invocations[i].status in {ToolSucceeded, ToolFailed, ToolCanceled})
  }

  /** An administrator moves the project into the archive, at rest, or out of it. */
  ghost predicate MayMoveProject(db: Database, c: Caller, archive: bool, ifMatch: nat) {
    && c.Human? && ActiveWith(db.env, c.user, Admin) && !db.gate.maintenance && db.version == ifMatch && db.archived != archive
    && (archive ==> AtRest(db))
  }

  lemma SessionsMean(db: Database, now: int, c: Caller, agent: nat, scopes: set<Scope>, expires: int, id: SessionId, ifMatch: nat)
    ensures var r := CreateSession(db, now, c, agent, scopes, expires, id);
            if MayOpen(db, now, c, agent, expires) then r == Ok(db.sessions[id := Session(c.user, agent, scopes, expires, true, false, 1)]) else r.Err?
    ensures var r := RevokeSession(db, now, c, id, ifMatch);
            if MayRevoke(db, c, id, ifMatch) then r.Ok? && Ended(db.sessions, r.value, {id}) else r.Err?
  {
    AdmittedIff(db, now, c, BY_CONTRIBUTOR);
    AdmittedIff(db, now, c, BY_MEMBER);
  }

  lemma HandshakeMeans(db: Database, now: int, c: Caller)
    ensures var r := Negotiate(db, now, c);
            if MayShake(db, now, c)
            then r == Ok(db.sessions[c.session := db.sessions[c.session].(negotiated := true, version := db.sessions[c.session].version + 1)]) else r.Err?
  {
    AdmittedIff(db, now, c, SHAKING_HANDS);
  }

  lemma RevocationEnds(sessions: map<SessionId, Session>, some: set<SessionId>)
    ensures Ended(sessions, RevokeAll(sessions, some), some)
  {
  }

  lemma RestIff(db: Database)
    ensures Quiet(db) <==> AtRest(db)
  {
    forall i | i in db.tools.invocations
      ensures Unsettled(db.tools.invocations[i].status) <==> db.tools.invocations[i].status !in {ToolSucceeded, ToolFailed, ToolCanceled}
    {
      var status := db.tools.invocations[i].status;
      assert status.AwaitingApproval? || status.ToolReady? || status.ToolRunning? || status.ToolUnknown?
             || status.ToolSucceeded? || status.ToolFailed? || status.ToolCanceled?;
    }
  }

  lemma ProjectMoveMeans(db: Database, now: int, c: Caller, archive: bool, ifMatch: nat)
    ensures var r := ProjectCommand(db, now, c, archive, ifMatch);
            if MayMoveProject(db, c, archive, ifMatch)
            then r.Ok? && r.value.archived == archive && r.value.version == db.version + 1
                 && Ended(db.sessions, r.value.sessions, if archive then db.sessions.Keys else {})
            else r.Err?
  {
    AdmittedIff(db, now, c, PROJECT_COMMAND);
    RestIff(db);
    RevocationEnds(db.sessions, db.sessions.Keys);
  }

  // --- Maintenance and recovery -----------------------------------------------------------------

  ghost predicate NoneRunning(db: Database) { forall i :: i in db.tools.invocations ==> db.tools.invocations[i].status != ToolRunning }

  ghost predicate AllResolved(gate: Gate) { forall i :: i in gate.resolved ==> gate.resolved[i] }

  /** An item is resolved once, by an administrator, in maintenance; an operation's only with its outcome known. */
  ghost predicate MayResolve(db: Database, item: ItemId, actor: UserId) {
    && db.gate.maintenance && ActiveWith(db.env, actor, Admin) && item in db.gate.resolved && !db.gate.resolved[item]
    && (item.ToolItem? ==> item.invocation in db.tools.invocations && db.tools.invocations[item.invocation].status in {ToolSucceeded, ToolFailed})
  }

  /** Recovery is over when all items are resolved, no outcome is unknown, and no Session is active. */
  ghost predicate MayFinish(db: Database, actor: UserId) {
    && db.gate.maintenance && ActiveWith(db.env, actor, Admin) && AllResolved(db.gate) && NoneRunning(db)
    && (forall i :: i in db.tools.invocations ==> db.tools.invocations[i].status != ToolUnknown)
    && (forall s :: s in db.sessions ==> !db.sessions[s].active)
  }

  lemma GateMeans(db: Database, actor: UserId)
    ensures EnterMaintenance(db, actor).Ok? <==> ActiveWith(db.env, actor, Admin) && NoneRunning(db)
    ensures LeaveMaintenance(db, actor).Ok? <==> ActiveWith(db.env, actor, Admin) && !db.gate.recoveryPending && AllResolved(db.gate)
    ensures EnterMaintenance(db, actor).Ok? ==> EnterMaintenance(db, actor).value == db.gate.(maintenance := true)
    ensures LeaveMaintenance(db, actor).Ok? ==> LeaveMaintenance(db, actor).value == db.gate.(maintenance := false)
  {
  }

  lemma RecoveryMeans(db: Database, item: ItemId, actor: UserId)
    ensures Resolve(db, item, actor).Ok? <==> MayResolve(db, item, actor)
    ensures Resolve(db, item, actor).Ok? ==> Resolve(db, item, actor).value == db.gate.(resolved := db.gate.resolved[item := true])
    ensures FinishRecovery(db, actor).Ok? <==> MayFinish(db, actor)
    ensures FinishRecovery(db, actor).Ok? ==> FinishRecovery(db, actor).value == db.gate.(recoveryPending := false)
  {
  }

  // --- A restored backup -----------------------------------------------------------------------------

  /** Whatever could still have an effect has an unknown outcome now. */
  ghost predicate OutcomesUnknown(x: Tools, y: Tools) {
    && y.approvals == x.approvals && y.invocations.Keys == x.invocations.Keys
    && forall i :: i in x.invocations ==>
         y.invocations[i] == if x.invocations[i].status in {AwaitingApproval, ToolReady, ToolRunning}
                             then x.invocations[i].(status := ToolUnknown, error := Some(RestoreOutcomeUnknown), version := x.invocations[i].version + 1)
                             else x.invocations[i]
  }

  /** Nothing runs, and what was to run is blocked and no longer authorised. */
  ghost predicate WorkHalted(x: Execution, y: Execution) {
    && y == x.(tasks := y.tasks, runs := y.runs) && y.tasks.Keys == x.tasks.Keys && y.runs.Keys == x.runs.Keys
    && (forall r :: r in x.runs ==>
          y.runs[r] == if x.runs[r].status == RunRunning then x.runs[r].(status := RunLost, version := x.runs[r].version + 1) else x.runs[r])
    && (forall t :: t in x.tasks ==>
          y.tasks[t] == if x.tasks[t].status in {Ready, Running, Blocked}
                        then x.tasks[t].(status := Blocked, retry := false, version := x.tasks[t].version + 1) else x.tasks[t])
  }

  /** Every outcome that was open, and every Run that was live, has to be resolved; what was resolved stays so. */
  ghost predicate ItemsOpened(b: Database, gate: Gate) {
    && gate.maintenance && gate.recoveryPending
    && (forall i :: ToolItem(i) in gate.resolved <==>
          ToolItem(i) in b.gate.resolved
          || (i in b.tools.invocations && b.tools.invocations[i].status !in {ToolSucceeded, ToolFailed, ToolCanceled}))
    && (forall r :: RunItem(r) in gate.resolved <==>
          RunItem(r) in b.gate.resolved || (r in b.execution.runs && b.execution.runs[r].status == RunRunning))
    && (forall i :: i in gate.resolved ==> (gate.resolved[i] <==> i in b.gate.resolved && b.gate.resolved[i]))
  }

  ghost predicate Restored(b: Database, y: Database) {
    && y == b.(gate := y.gate, sessions := y.sessions, tools := y.tools, execution := y.execution)
    && ItemsOpened(b, y.gate) && Ended(b.sessions, y.sessions, b.sessions.Keys)
    && OutcomesUnknown(b.tools, y.tools) && WorkHalted(b.execution, y.execution)
  }

  lemma ItemsMean(db: Database)
    ensures ItemsOpened(db, Quarantine(db).gate)
  {
    forall i | i in db.tools.invocations
      ensures Unsettled(db.tools.invocations[i].status) <==> db.tools.invocations[i].status !in {ToolSucceeded, ToolFailed, ToolCanceled}
    {
      var status := db.tools.invocations[i].status;
      assert status.AwaitingApproval? || status.ToolReady? || status.ToolRunning? || status.ToolUnknown?
             || status.ToolSucceeded? || status.ToolFailed? || status.ToolCanceled?;
    }
  }

  lemma QuarantineMeans(db: Database)
    ensures Restored(db, Quarantine(db))
  {
    ItemsMean(db);
    RevocationEnds(db.sessions, db.sessions.Keys);
  }

  // --- Over every run ------------------------------------------------------------------------------

  predicate OperatorAction(a: Action) {
    a.DoCreateSession? || a.DoNegotiate? || a.DoRevokeSession? || a.DoProjectCommand? || a.Enter? || a.Leave? || a.ResolveItem? || a.Finish? || a.RestoreBackup?
  }

  ghost predicate OperatorStep(w: World, v: World, a: Action)
    requires OperatorAction(a)
  {
    match a
    case DoCreateSession(c, agent, scopes, expires, newId) =>
      v.db == if MayOpen(w.db, w.now, c, agent, expires)
              then w.db.(sessions := w.db.sessions[newId := Session(c.user, agent, scopes, expires, true, false, 1)]) else w.db
    case DoNegotiate(c) =>
      v.db == if MayShake(w.db, w.now, c)
              then w.db.(sessions := w.db.sessions[c.session := w.db.sessions[c.session].(negotiated := true, version := w.db.sessions[c.session].version + 1)])
              else w.db
    case DoRevokeSession(c, s, ifMatch) =>
      if MayRevoke(w.db, c, s, ifMatch) then v.db == w.db.(sessions := v.db.sessions) && Ended(w.db.sessions, v.db.sessions, {s}) else v.db == w.db
    case DoProjectCommand(c, archive, ifMatch) =>
      if MayMoveProject(w.db, c, archive, ifMatch)
      then && v.db == w.db.(archived := archive, version := w.db.version + 1, sessions := v.db.sessions)
           && Ended(w.db.sessions, v.db.sessions, if archive then w.db.sessions.Keys else {})
      else v.db == w.db
    case Enter(actor) =>
      v.db == if ActiveWith(w.db.env, actor, Admin) && NoneRunning(w.db) then w.db.(gate := w.db.gate.(maintenance := true)) else w.db
    case Leave(actor) =>
      v.db == if ActiveWith(w.db.env, actor, Admin) && !w.db.gate.recoveryPending && AllResolved(w.db.gate)
              then w.db.(gate := w.db.gate.(maintenance := false)) else w.db
    case ResolveItem(item, actor) =>
      v.db == if MayResolve(w.db, item, actor) then w.db.(gate := w.db.gate.(resolved := w.db.gate.resolved[item := true])) else w.db
    case Finish(actor) => v.db == if MayFinish(w.db, actor) then w.db.(gate := w.db.gate.(recoveryPending := false)) else w.db
    case RestoreBackup(index) => if index < |w.backups| then Restored(w.backups[index], v.db) else v.db == w.db
  }

  lemma OpeningStep(w: World, c: Caller, agent: nat, scopes: set<Scope>, expires: int, newId: nat)
    ensures OperatorStep(w, NextOther(w, DoCreateSession(c, agent, scopes, expires, newId)), DoCreateSession(c, agent, scopes, expires, newId))
  {
    SessionsMean(w.db, w.now, c, agent, scopes, expires, newId, 0);
  }

  lemma ShakingStep(w: World, c: Caller)
    ensures OperatorStep(w, NextOther(w, DoNegotiate(c)), DoNegotiate(c))
  {
    HandshakeMeans(w.db, w.now, c);
  }

  lemma RevokingStep(w: World, c: Caller, s: SessionId, ifMatch: nat)
    ensures OperatorStep(w, NextOther(w, DoRevokeSession(c, s, ifMatch)), DoRevokeSession(c, s, ifMatch))
  {
    SessionsMean(w.db, w.now, c, 0, {}, 0, s, ifMatch);
  }

  lemma MovingStep(w: World, c: Caller, archive: bool, ifMatch: nat)
    ensures OperatorStep(w, NextOther(w, DoProjectCommand(c, archive, ifMatch)), DoProjectCommand(c, archive, ifMatch))
  {
    ProjectMoveMeans(w.db, w.now, c, archive, ifMatch);
  }

  lemma SessionStepMeans(w: World, a: Action)
    requires a.DoCreateSession? || a.DoNegotiate? || a.DoRevokeSession? || a.DoProjectCommand?
    ensures OperatorStep(w, NextOther(w, a), a)
  {
    match a
    case DoCreateSession(c, agent, scopes, expires, newId) => OpeningStep(w, c, agent, scopes, expires, newId);
    case DoNegotiate(c) => ShakingStep(w, c);
    case DoRevokeSession(c, s, ifMatch) => RevokingStep(w, c, s, ifMatch);
    case DoProjectCommand(c, archive, ifMatch) => MovingStep(w, c, archive, ifMatch);
  }

  lemma EnteringStep(w: World, actor: UserId)
    ensures OperatorStep(w, NextOther(w, Enter(actor)), Enter(actor))
  {
    GateMeans(w.db, actor);
  }

  lemma LeavingStep(w: World, actor: UserId)
    ensures OperatorStep(w, NextOther(w, Leave(actor)), Leave(actor))
  {
    GateMeans(w.db, actor);
  }

  lemma ResolvingStep(w: World, item: ItemId, actor: UserId)
    ensures OperatorStep(w, NextOther(w, ResolveItem(item, actor)), ResolveItem(item, actor))
  {
    RecoveryMeans(w.db, item, actor);
  }

  lemma FinishingStep(w: World, actor: UserId)
    ensures OperatorStep(w, NextOther(w, Finish(actor)), Finish(actor))
  {
    RecoveryMeans(w.db, RunItem(0), actor);
  }

  lemma RestoringStep(w: World, index: nat)
    ensures OperatorStep(w, NextOther(w, RestoreBackup(index)), RestoreBackup(index))
  {
    if index < |w.backups| { QuarantineMeans(w.backups[index]); }
  }

  lemma GateStepMeans(w: World, a: Action)
    requires a.Enter? || a.Leave? || a.ResolveItem? || a.Finish? || a.RestoreBackup?
    ensures OperatorStep(w, NextOther(w, a), a)
  {
    match a
    case Enter(actor) => EnteringStep(w, actor);
    case Leave(actor) => LeavingStep(w, actor);
    case ResolveItem(item, actor) => ResolvingStep(w, item, actor);
    case Finish(actor) => FinishingStep(w, actor);
    case RestoreBackup(index) => RestoringStep(w, index);
  }

  lemma NextIsOther(w: World, a: Action)
    requires OperatorAction(a)
    ensures Next(w, a) == NextOther(w, a).(used := w.used + NewIds(a))
  {
  }

  /** In every run a Session is opened, made ready and revoked, the project archived and brought back, maintenance entered
      and left, an item resolved and recovery finished exactly when it may be, with exactly this effect, and a restore
      leaves exactly the quarantined backup. Anything else that is asked changes nothing. */
  lemma EveryOperatorStep(states: seq<World>, actions: seq<Action>, k: nat)
    requires IsRun(states, actions) && k < |actions| && OperatorAction(actions[k])
    ensures OperatorStep(states[k], states[k + 1], actions[k])
  {
    var a := actions[k];
    assert StepsAt(states, actions, k);
    NextIsOther(states[k], a);
    if a.DoCreateSession? || a.DoNegotiate? || a.DoRevokeSession? || a.DoProjectCommand? { SessionStepMeans(states[k], a); } else { GateStepMeans(states[k], a); }
  }
}
