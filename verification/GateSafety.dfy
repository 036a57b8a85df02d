/** Maintenance, recovery and the archive: what may not coexist, and what must be settled first.

    Maintenance and a running operation exclude each other; what a restore opened has its outcome before work goes
    on; an archived project has nothing left to settle. */
module GateSafety {
  import opened Tables
  import opened Access
  import opened TaskFlow
  import opened Governance
  import Delivery
  import opened Recovery
  import opened ControlPlane
  import opened ToolSafety
  import opened TaskSafety

  /** No call is in flight under maintenance, recovery keeps maintenance on, and nothing resumes before every
      item is resolved; a tool item is of an operation still UNKNOWN, or confirmed done or failed. */
  ghost predicate Gated(gate: Gate, tools: Tools) {
    && (gate.maintenance ==> !InFlight(tools))
    && (gate.recoveryPending ==> gate.maintenance)
    && (!gate.maintenance ==> !ItemsOpen(gate))
    && (forall i :: ToolItem(i) in gate.resolved ==> ItemStands(gate, tools, i))
  }

  ghost predicate ItemStands(gate: Gate, tools: Tools, i: InvocationId)
    requires ToolItem(i) in gate.resolved
  {
    && i in tools.invocations && tools.invocations[i].status in {ToolUnknown, ToolSucceeded, ToolFailed}
    && (gate.resolved[ToolItem(i)] ==> tools.invocations[i].status != ToolUnknown)
  }

  lemma ToolsKeepGate(gate: Gate, tools: Tools, later: Tools, newIds: set<nat>)
    requires Gated(gate, tools) && ToolsAdvance(tools, later, newIds) && (gate.maintenance ==> !InFlight(later))
    ensures Gated(gate, later)
  {
    forall i | ToolItem(i) in gate.resolved ensures ItemStands(gate, later, i) {
      assert ItemStands(gate, tools, i) && Advanced(tools.invocations[i], later.invocations[i]);
    }
  }

  lemma EnterKeepsGate(db: Database, actor: UserId)
    requires Gated(db.gate, db.tools)
    ensures var r := EnterMaintenance(db, actor); r.Ok? ==> Gated(r.value, db.tools)
  {
    forall i | ToolItem(i) in db.gate.resolved ensures ItemStands(db.gate.(maintenance := true), db.tools, i) {
      assert ItemStands(db.gate, db.tools, i);
    }
  }

  /** Leaving needs the recovery finished and every item resolved. */
  lemma LeaveKeepsGate(db: Database, actor: UserId)
    requires Gated(db.gate, db.tools)
    ensures var r := LeaveMaintenance(db, actor); r.Ok? ==> Gated(r.value, db.tools)
  {
    forall i | ToolItem(i) in db.gate.resolved ensures ItemStands(db.gate.(maintenance := false), db.tools, i) {
      assert ItemStands(db.gate, db.tools, i);
    }
  }

  lemma ResolveKeepsGate(db: Database, item: ItemId, actor: UserId)
    requires Gated(db.gate, db.tools)
    ensures var r := Resolve(db, item, actor); r.Ok? ==> Gated(r.value, db.tools)
  {
    var r := Resolve(db, item, actor);
    if r.Ok? {
      forall i | ToolItem(i) in r.value.resolved ensures ItemStands(r.value, db.tools, i) {
        assert ItemStands(db.gate, db.tools, i);
      }
    }
  }

  lemma FinishKeepsGate(db: Database, actor: UserId)
    requires Gated(db.gate, db.tools)
    ensures var r := FinishRecovery(db, actor); r.Ok? ==> Gated(r.value, db.tools)
  {
    forall i | ToolItem(i) in db.gate.resolved ensures ItemStands(db.gate.(recoveryPending := false), db.tools, i) {
      assert ItemStands(db.gate, db.tools, i);
    }
  }

  /** Restoring a backup that was itself restored once keeps the resolved items: they are settled for good. */
  lemma QuarantineGated(db: Database)
    requires Gated(db.gate, db.tools)
    ensures Gated(Quarantine(db).gate, Quarantine(db).tools)
  {
    var q := Quarantine(db);
    forall i | ToolItem(i) in q.gate.resolved ensures ItemStands(q.gate, q.tools, i) {
      if ToolItem(i) in db.gate.resolved { assert ItemStands(db.gate, db.tools, i); }
    }
  }

  /** Under maintenance the only tool write left is the confirmation of an unknown outcome. */
  lemma MaintenanceStartsNothing(w: World, a: Action)
    requires ToolAction(a) && w.db.gate.maintenance && !InFlight(w.db.tools)
    ensures !InFlight(NextTool(w, a).db.tools) && NextTool(w, a).calls == w.calls
  {
  }

  lemma MaintenanceClaimsNothing(w: World, a: Action)
    requires TaskAction(a) && w.db.gate.maintenance
    ensures NextTask(w, a).claims == w.claims
  {
  }

  // --- The archive ---------------------------------------------------------------------

  ghost predicate NoSession(sessions: map<SessionId, Session>) { forall s :: s in sessions ==> !sessions[s].active }

  /** An archived project is quiescent. */
  ghost predicate Shelved(db: Database) { db.archived ==> Quiet(db) && NoSession(db.sessions) }

  ghost predicate TaskStepFrozen(w: World, a: Action) { NextTask(w, a).db.execution == w.db.execution }

  lemma ArchivedInputStep(w: World, a: Action)
    requires w.db.archived
    requires a.DoCreateTask? || a.DoEditTask? || a.DoTransferTask? || a.DoAssignTask? || a.DoAddDependency? || a.DoRemoveDependency?
    ensures TaskStepFrozen(w, a)
  {
  }

  lemma ArchivedRunStep(w: World, a: Action)
    requires w.db.archived && (a.DoCommand? || a.DoClaim? || a.DoHeartbeat? || a.DoReport?)
    ensures TaskStepFrozen(w, a)
  {
  }

  lemma QuietReconciles(db: Database, now: int)
    requires Quiet(db)
    ensures ReconcileProject(db, now) == db.execution
  {
    if !db.gate.maintenance {
      assert LostRuns(db, now) == {};
      assert CloseRuns(db.execution, Ascending({})) == db.execution;
      assert Waiting(db.execution) == {};
    }
  }

  lemma ArchivedTaskStep(w: World, a: Action)
    requires w.db.archived && Quiet(w.db) && TaskAction(a)
    ensures TaskStepFrozen(w, a)
  {
    if a.WorkerReconciles? {
      QuietReconciles(w.db, w.now);
    } else if a.DoCommand? || a.DoClaim? || a.DoHeartbeat? || a.DoReport? {
      ArchivedRunStep(w, a);
    } else {
      ArchivedInputStep(w, a);
    }
  }

  lemma ArchivedToolStep(w: World, a: Action)
    requires w.db.archived && Quiet(w.db) && ToolAction(a)
    ensures NextTool(w, a).db == w.db
  {
  }

  lemma ArchivedReview(db: Database, now: int, c: Caller, id: TaskId, run: RunId, refs: seq<Delivery.Reviewed>, accept: bool, checks: seq<bool>, ifMatch: nat)
    requires db.archived
    ensures Delivery.ReviewTask(db, now, c, id, run, refs, accept, checks, ifMatch).Err?
  {
  }

  lemma QuarantineShelved(db: Database)
    requires Shelved(db)
    ensures Shelved(Quarantine(db))
  {
    var q := Quarantine(db);
    if q.archived {
      assert forall t :: t in q.execution.tasks ==> q.execution.tasks[t] == QuarantinedTask(db.execution.tasks[t]);
      assert forall i :: i in q.tools.invocations ==> q.tools.invocations[i] == QuarantinedInvocation(db.tools.invocations[i]);
      assert forall r :: r in q.execution.runs ==> q.execution.runs[r] == QuarantinedRun(db.execution.runs[r]);
    }
  }
}
