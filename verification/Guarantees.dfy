/** What every run of the installation guarantees: each result for every state of every run, restores included. */
module Guarantees {
  import opened Options
  import opened Tables
  import opened Access
  import opened Dependencies
  import opened Snapshots
  import opened TaskFlow
  import opened Governance
  import opened Delivery
  import opened Recovery
  import opened ControlPlane
  import opened TaskSafety
  import opened EvidenceSafety
  import opened Authority
  import opened ToolSafety
  import opened ApprovalSafety
  import opened GateSafety
  import opened Invariants

  // --- Runs ---------------------------------------------------------------------

  lemma {:induction false} AttemptsAreConsecutive(runs: map<RunId, TaskRun>, nextFence: nat, r: RunId, n: nat)
    requires Counted(runs, nextFence) && r in runs && 1 <= n <= runs[r].attempt
    ensures HasAttempt(runs, runs[r].task, n)
    decreases runs[r].attempt
  {
    if n < runs[r].attempt {
      assert HasAttempt(runs, runs[r].task, runs[r].attempt - 1);
      var s :| s in runs && runs[s].task == runs[r].task && runs[s].attempt == runs[r].attempt - 1;
      AttemptsAreConsecutive(runs, nextFence, s, n);
    }
  }

  /** A task is RUNNING exactly when it has a RUNNING Run, and it never has two; attempts count up from 1 without
      a gap or a repeat, and fencing tokens rise with them. */
  lemma OneLiveRunPerTask(states: seq<World>, actions: seq<Action>, k: nat)
    requires IsRun(states, actions) && k < |states|
    ensures var x := states[k].db.execution;
            && (forall t :: t in x.tasks ==> (x.tasks[t].status == Running <==> Live(x.runs, t)))
            && (forall r, s {:trigger Siblings(x.runs, r, s)} :: Siblings(x.runs, r, s) ==>
                  && (x.runs[r].status == RunRunning && x.runs[s].status == RunRunning ==> r == s)
                  && (x.runs[r].attempt == x.runs[s].attempt ==> r == s)
                  && (x.runs[r].attempt < x.runs[s].attempt ==> x.runs[r].fence < x.runs[s].fence))
            && (forall r, n: nat :: r in x.runs && 1 <= n <= x.runs[r].attempt ==> HasAttempt(x.runs, x.runs[r].task, n))
  {
    RunOrderly(states, actions, k);
    var x := states[k].db.execution;
    forall r, n: nat | r in x.runs && 1 <= n <= x.runs[r].attempt ensures HasAttempt(x.runs, x.runs[r].task, n) {
      AttemptsAreConsecutive(x.runs, x.nextFence, r, n);
    }
  }

  lemma EndedRunRefused(db: Database, now: int, c: Caller, r: RunId, fence: nat, ifMatch: nat)
    requires r in db.execution.runs && db.execution.runs[r].status != RunRunning
    ensures forall q :: ActiveRun(db, now, q, r, fence, ifMatch).Err?
  {
  }

  lemma RefusedThrough(db: Database, now: int, c: Caller, r: RunId, fence: nat, ifMatch: nat,
                       report: Report, registration: Registration, digest: Digest, media: nat, newId: nat)
    requires forall q :: ActiveRun(db, now, q, r, fence, ifMatch).Err?
    ensures HeartbeatRun(db, now, c, r, fence, ifMatch).Err? && ReportRun(db, now, c, r, report, fence, ifMatch).Err?
    ensures UploadContent(db, now, c, r, digest, media, fence, ifMatch, newId).Err?
    ensures RegisterArtifact(db, now, c, r, registration, fence, ifMatch, newId).Err?
  {
  }

  lemma RefusedRequest(db: Database, now: int, c: Caller, w: Wanted, newId: nat)
    requires forall q :: ActiveRun(db, now, q, w.run, w.fence, w.ifMatch).Err?
    ensures RequestInvocation(db, now, c, w, newId).Err?
  {
  }

  /** Once a newer Run of the task exists, nothing through the older one changes anything. */
  lemma OlderRunIsPowerless(states: seq<World>, actions: seq<Action>, k: nat, r: RunId, s: RunId, c: Caller, fence: nat, ifMatch: nat,
                            report: Report, registration: Registration, wanting: Wanted, digest: Digest, media: nat, newId: nat)
    requires IsRun(states, actions) && k < |states| && wanting.run == r
    requires var x := states[k].db.execution;
             Siblings(x.runs, r, s) && x.runs[r].attempt < x.runs[s].attempt
    ensures var db, now := states[k].db, states[k].now;
            && HeartbeatRun(db, now, c, r, fence, ifMatch).Err?
            && ReportRun(db, now, c, r, report, fence, ifMatch).Err?
            && UploadContent(db, now, c, r, digest, media, fence, ifMatch, newId).Err?
            && RegisterArtifact(db, now, c, r, registration, fence, ifMatch, newId).Err?
            && RequestInvocation(db, now, c, wanting, newId).Err?
  {
    RunOrderly(states, actions, k);
    var v := states[k];
    assert v.db.execution.runs[r].status != RunRunning;
    EndedRunRefused(v.db, v.now, c, r, fence, ifMatch);
    EndedRunRefused(v.db, v.now, c, r, wanting.fence, wanting.ifMatch);
    RefusedThrough(v.db, v.now, c, r, fence, ifMatch, report, registration, digest, media, newId);
    RefusedRequest(v.db, v.now, c, wanting, newId);
  }

  // --- History -------------------------------------------------------------------------

  lemma SameExecutionAdvances(x: Execution, newIds: set<nat>)
    ensures ExecutionAdvances(x, x, newIds)
  {
  }

  lemma MoreIdsAdvance(x: Execution, y: Execution, newIds: set<nat>)
    requires ExecutionAdvances(x, y, {})
    ensures ExecutionAdvances(x, y, newIds)
  {
  }

  lemma OtherStepAdvancesHistory(v: World, a: Action)
    requires !TaskAction(a) && !DeliveryAction(a) && !a.RestoreBackup?
    ensures Next(v, a).db.execution == v.db.execution
  {
    if ToolAction(a) { ToolStepFrame(v, a); } else if !a.TakeBackup? { OtherStepFrame(v, a); }
  }

  lemma StepAdvancesHistory(v: World, a: Action)
    requires Orderly(v) && Possible(v, a) && !a.RestoreBackup?
    ensures ExecutionAdvances(v.db.execution, Next(v, a).db.execution, NewIds(a))
  {
    if TaskAction(a) {
      TaskStepKeeps(v, a);
    } else if DeliveryAction(a) {
      DeliveryStepExecution(v, a);
      MoreIdsAdvance(v.db.execution, NextDelivery(v, a).db.execution, NewIds(a));
    } else {
      OtherStepAdvancesHistory(v, a);
      SameExecutionAdvances(v.db.execution, NewIds(a));
    }
  }

  /** No step but a restore reopens a DONE or CANCELED task, rewrites an ended Run or a snapshot, or lowers a fence. */
  lemma HistoryIsFinal(states: seq<World>, actions: seq<Action>, k: nat)
    requires IsRun(states, actions) && k < |actions| && !actions[k].RestoreBackup?
    ensures ExecutionAdvances(states[k].db.execution, states[k + 1].db.execution, NewIds(actions[k]))
  {
    RunOrderly(states, actions, k);
    assert StepsAt(states, actions, k);
    StepAdvancesHistory(states[k], actions[k]);
  }

  /** A task is DONE only with every operation of every one of its Runs settled, in every state. */
  lemma DoneIsSettled(states: seq<World>, actions: seq<Action>, k: nat, t: TaskId, i: InvocationId)
    requires IsRun(states, actions) && k < |states|
    requires var db := states[k].db;
             && t in db.execution.tasks && db.execution.tasks[t].status == Done
             && i in db.tools.invocations && db.tools.invocations[i].run in RunsOf(db.execution.runs, t)
    ensures states[k].db.tools.invocations[i].status in {ToolSucceeded, ToolFailed, ToolCanceled}
  {
    RunOrderly(states, actions, k);
    AuthorisedIsClear(states[k].db.execution, states[k].db.tools, t);
  }

  // --- The budget -------------------------------------------------------------------------

  /** Over the whole history, restores included, claims of a task plus the one it may still be claimed for never
      exceed its SUBMIT and RETRY commands; and READY means authorised. */
  lemma ClaimsWithinCommands(states: seq<World>, actions: seq<Action>, k: nat, t: TaskId)
    requires IsRun(states, actions) && k < |states|
    ensures var v := states[k];
            && v.claims[t] + ClaimsLeft(v.db.execution, t) <= v.commands[t]
            && (t in v.db.execution.tasks && v.db.execution.tasks[t].status == Ready ==> v.db.execution.tasks[t].retry)
  {
    RunOrderly(states, actions, k);
    assert WithinBudget(states[k]);
  }

  function FlagOf(x: Execution, t: TaskId): nat { if t in x.tasks && x.tasks[t].retry then 1 else 0 }

  /** The stored flag alone is not the budget: a task fresh from creation carries it without any command. */
  lemma FreshTaskCarriesFlag(w: World, user: UserId, repository: nat)
    requires Fresh(w) && ActiveWith(w.db.env, user, Member) && repository in w.db.env.repositories
    ensures var a := DoCreateTask(Human(user), user, repository, [], 0, 7);
            var v := Next(w, a);
            IsRun([w, v], [a]) && v.claims[7] + FlagOf(v.db.execution, 7) > v.commands[7]
  {
    var a := DoCreateTask(Human(user), user, repository, [], 0, 7);
    assert Admit(w.db, w.now, Human(user), BY_CONTRIBUTOR).Ok?;
    assert StepsAt([w, Next(w, a)], [a], 0);
  }

  /** A flag on a task that was ever commanded is backed by a command not yet used. */
  ghost predicate FlagsBacked(w: World) {
    && (forall t :: w.commands[t] > 0 ==> t in w.used)
    && (forall t :: t in w.db.execution.tasks && w.db.execution.tasks[t].retry && w.commands[t] > 0 ==> w.claims[t] < w.commands[t])
  }

  lemma ReviewFlagsBacked(v: World, c: Caller, id: TaskId, run: RunId, refs: seq<Reviewed>, accept: bool, checks: seq<bool>, ifMatch: nat)
    requires FlagsBacked(v)
    ensures FlagsBacked(NextReview(v, ReviewTask(v.db, v.now, c, id, run, refs, accept, checks, ifMatch)))
  {
    ReviewEffect(v.db, v.now, c, id, run, refs, accept, checks, ifMatch);
  }

  lemma OrdinaryFlagsBacked(v: World, u: World, newIds: set<nat>)
    requires FlagsBacked(v) && Ordinary(v.db.execution, u.db.execution) && u.claims == v.claims && u.commands == v.commands
    requires u.used == v.used + newIds && newIds !! v.used && u.db.execution.tasks.Keys <= v.db.execution.tasks.Keys + newIds
    ensures FlagsBacked(u)
  {
    forall t | t in u.db.execution.tasks && u.db.execution.tasks[t].retry && u.commands[t] > 0 ensures u.claims[t] < u.commands[t] {
      if t in v.db.execution.tasks { assert OrdinaryMove(v.db.execution.tasks[t], u.db.execution.tasks[t]); }
    }
  }

  lemma ClaimFlagsBacked(v: World, c: Caller, wanted: Option<TaskId>, newId: nat)
    requires FlagsBacked(v) && Drawn(v.db, v.used)
    ensures FlagsBacked(NextClaim(v, ClaimRun(v.db, v.now, c, wanted, newId)).(used := v.used + {newId}))
  {
    ClaimEffect(v.db, v.now, c, wanted, newId);
  }

  lemma CommandFlagsBacked(v: World, c: Caller, id: TaskId, command: Command, ifMatch: nat)
    requires FlagsBacked(v) && WithinBudget(v) && Drawn(v.db, v.used) && command in {Submit, Retry}
    ensures FlagsBacked(NextCommand(v, id, command, CommandTask(v.db, v.now, c, id, command, ifMatch)).(used := v.used + {}))
  {
    assert v.claims[id] + ClaimsLeft(v.db.execution, id) <= v.commands[id];
  }

  lemma TaskStepFlagsBacked(v: World, a: Action)
    requires Orderly(v) && FlagsBacked(v) && Possible(v, a) && TaskAction(a)
    ensures FlagsBacked(NextTask(v, a).(used := v.used + NewIds(a)))
  {
    if a.DoClaim? {
      ClaimFlagsBacked(v, a.caller, a.wanted, a.newId);
    } else if Authorising(a) {
      CommandFlagsBacked(v, a.caller, a.task, a.command, a.ifMatch);
    } else {
      TaskStepKeeps(v, a);
      OthersLeaveLedger(v, a);
      OrdinaryFlagsBacked(v, NextTask(v, a).(used := v.used + NewIds(a)), NewIds(a));
    }
  }

  lemma DeliveryStepFlagsBacked(v: World, a: Action)
    requires FlagsBacked(v) && DeliveryAction(a)
    ensures FlagsBacked(NextDelivery(v, a).(used := v.used + NewIds(a)))
  {
    var u := NextDelivery(v, a);
    if a.DoReviewTask? {
      ReviewFlagsBacked(v, a.caller, a.task, a.run, a.refs, a.accept, a.checks, a.ifMatch);
    } else {
      OnlyReviewsMoveTasks(v, a);
      DeliveryStepLedger(v, a);
    }
  }

  lemma OtherStepFlagsBacked(v: World, a: Action)
    requires FlagsBacked(v) && !TaskAction(a) && !DeliveryAction(a) && !a.RestoreBackup?
    ensures FlagsBacked(Next(v, a))
  {
    if ToolAction(a) { ToolStepFrame(v, a); } else if !a.TakeBackup? { OtherStepFrame(v, a); }
  }

  lemma StepFlagsBacked(v: World, a: Action)
    requires Orderly(v) && FlagsBacked(v) && Possible(v, a) && !a.RestoreBackup?
    ensures FlagsBacked(Next(v, a))
  {
    if TaskAction(a) {
      TaskStepFlagsBacked(v, a);
    } else if DeliveryAction(a) {
      DeliveryStepFlagsBacked(v, a);
    } else {
      OtherStepFlagsBacked(v, a);
    }
  }

  ghost predicate NoRestore(actions: seq<Action>, j: nat, k: nat) { forall n :: j <= n < k && n < |actions| ==> !actions[n].RestoreBackup? }

  lemma FlagsBackedAt(states: seq<World>, actions: seq<Action>, k: nat)
    requires IsRun(states, actions) && k < |actions| && !actions[k].RestoreBackup? && FlagsBacked(states[k])
    ensures FlagsBacked(states[k + 1])
  {
    RunOrderly(states, actions, k);
    assert StepsAt(states, actions, k);
    StepFlagsBacked(states[k], actions[k]);
  }

  lemma {:induction false} RunFlagsBacked(states: seq<World>, actions: seq<Action>, k: nat)
    requires IsRun(states, actions) && k < |states| && NoRestore(actions, 0, k)
    ensures FlagsBacked(states[k])
  {
    if k > 0 {
      RunFlagsBacked(states, actions, k - 1);
      FlagsBackedAt(states, actions, k - 1);
    }
  }

  /** Until a restore, the stored flag obeys the budget exactly when it is off or the task was ever commanded. */
  lemma FlagWithinBudgetIff(states: seq<World>, actions: seq<Action>, k: nat, t: TaskId)
    requires IsRun(states, actions) && k < |states| && NoRestore(actions, 0, k)
    ensures var v := states[k];
            v.claims[t] + FlagOf(v.db.execution, t) <= v.commands[t] <==> (FlagOf(v.db.execution, t) == 1 ==> v.commands[t] > 0)
  {
    RunOrderly(states, actions, k);
    RunFlagsBacked(states, actions, k);
    var v := states[k];
    assert v.claims[t] + ClaimsLeft(v.db.execution, t) <= v.commands[t];
  }

  // --- Approvals and calls ------------------------------------------------------------------

  /** Every external call was made with the operation as bound, its Run live and latest, its people still in
      place and, unless it only reads, an independent approval of that very operation. */
  lemma EveryCallAuthorised(states: seq<World>, actions: seq<Action>, k: nat, n: nat)
    requires IsRun(states, actions) && k < |states| && n < |states[k].calls|
    ensures var c := states[k].calls[n]; CallAuthorised(c.db, c.now, c.id)
  {
    RunOrderly(states, actions, k);
    assert AllAuthorised(states[k].calls);
  }

  /** An operation awaiting approval has its own undecided approval; one that is ready or running and needs one was
      approved, for exactly its binding, by someone other than its delegator. */
  lemma ApprovalsStand(states: seq<World>, actions: seq<Action>, k: nat, i: InvocationId)
    requires IsRun(states, actions) && k < |states| && i in states[k].db.tools.invocations
    ensures var tools := states[k].db.tools;
            var v := tools.invocations[i];
            && (v.status == AwaitingApproval ==> v.approval.Some?)
            && (v.approval.Some? && v.status in {AwaitingApproval, ToolReady, ToolRunning} ==>
                  && v.approval.value in tools.approvals
                  && var a := tools.approvals[v.approval.value];
                     && a.invocation == i && a.digest == v.binding
                     && (v.status == AwaitingApproval ==> a.status == Undecided)
                     && (v.status != AwaitingApproval ==> a.status == Approved && a.decider.Some? && a.decider != Some(v.delegator)))
  {
    RunOrderly(states, actions, k);
    BoundApprovalStands(states[k].db.execution.runs, states[k].db.tools, i);
  }

  lemma BoundApprovalStands(runs: map<RunId, TaskRun>, tools: Tools, i: InvocationId)
    requires Bound(runs, tools) && i in tools.invocations
    ensures var v := tools.invocations[i];
            && (v.status == AwaitingApproval ==> v.approval.Some?)
            && (v.approval.Some? && v.status in {AwaitingApproval, ToolReady, ToolRunning} ==>
                  && v.approval.value in tools.approvals
                  && var a := tools.approvals[v.approval.value];
                     && a.invocation == i && a.digest == v.binding
                     && (v.status == AwaitingApproval ==> a.status == Undecided)
                     && (v.status != AwaitingApproval ==> a.status == Approved && a.decider.Some? && a.decider != Some(v.delegator)))
  {
    assert OwnApproval(tools, i) && Standing(tools, i) && Tied(tools.invocations[i], runs[tools.invocations[i].run]);
  }

  /** Every step but a restore: operations only rise in rank, keep their binding, and decided approvals never change. */
  lemma OperationsOnlyAdvance(states: seq<World>, actions: seq<Action>, k: nat)
    requires IsRun(states, actions) && k < |actions| && !actions[k].RestoreBackup?
    ensures ToolsAdvance(states[k].db.tools, states[k + 1].db.tools, NewIds(actions[k]))
    ensures ApprovalsKept(states[k].db.tools, states[k + 1].db.tools, NewIds(actions[k]))
  {
    RunOrderly(states, actions, k);
    assert StepsAt(states, actions, k);
    StatusesOnlyAdvance(states[k], actions[k]);
  }

  // --- Graph, snapshots, archive -----------------------------------------------------------------

  lemma GraphStaysAcyclic(states: seq<World>, actions: seq<Action>, k: nat)
    requires IsRun(states, actions) && k < |states|
    ensures Acyclic(Edges(states[k].db.execution.dependencies))
  {
    RunOrderly(states, actions, k);
  }

  /** Every snapshot is canonical, and each reference in it still names its artifact, accepted and verified, at
      the frozen version and digest; so a registration may always name it as a parent. */
  lemma SnapshotsStayValid(states: seq<World>, actions: seq<Action>, k: nat, s: SnapshotId, i: nat, run: RunId)
    requires IsRun(states, actions) && k < |states|
    requires s in states[k].db.execution.snapshots && i < |states[k].db.execution.snapshots[s].refs|
    ensures var db := states[k].db;
            && Canonical(db.execution.snapshots[s]) && RefHolds(db.evidence, db.execution.snapshots[s].refs[i])
            && ValidParent(db, run, s, db.execution.snapshots[s].refs[i].artifact)
  {
    RunOrderly(states, actions, k);
    var db := states[k].db;
    assert SnapshotHolds(db.evidence, db.execution.snapshots[s]);
    FrozenParentValid(db, run, s, i);
  }

  /** An archived project is quiescent, whatever workers and people try. */
  lemma ArchiveIsQuiet(states: seq<World>, actions: seq<Action>, k: nat)
    requires IsRun(states, actions) && k < |states| && states[k].db.archived
    ensures var db := states[k].db;
            && (forall t :: t in db.execution.tasks ==> db.execution.tasks[t].status in {Done, Canceled})
            && (forall r :: r in db.execution.runs ==> db.execution.runs[r].status != RunRunning)
            && (forall i :: i in db.tools.invocations ==> db.tools.invocations[i].status in {ToolSucceeded, ToolFailed, ToolCanceled})
            && (forall s :: s in db.sessions ==> !db.sessions[s].active)
  {
    RunOrderly(states, actions, k);
    ShelvedIsQuiet(states[k].db);
  }

  lemma SettledMeans(s: InvocationStatus)
    ensures !Unsettled(s) <==> s in {ToolSucceeded, ToolFailed, ToolCanceled}
  {
  }

  lemma ShelvedIsQuiet(db: Database)
    requires Shelved(db) && db.archived
    ensures (forall t :: t in db.execution.tasks ==> db.execution.tasks[t].status in {Done, Canceled})
            && (forall r :: r in db.execution.runs ==> db.execution.runs[r].status != RunRunning)
            && (forall i :: i in db.tools.invocations ==> db.tools.invocations[i].status in {ToolSucceeded, ToolFailed, ToolCanceled})
            && (forall s :: s in db.sessions ==> !db.sessions[s].active)
  {
    forall i | i in db.tools.invocations ensures db.tools.invocations[i].status in {ToolSucceeded, ToolFailed, ToolCanceled} {
      SettledMeans(db.tools.invocations[i].status);
    }
  }

  // --- Maintenance and recovery --------------------------------------------------------------------

  /** Maintenance and a running operation never coexist, recovery implies maintenance, and outside maintenance every
      operation a restore found unsettled is known to have succeeded or failed. */
  lemma MaintenanceIsStill(states: seq<World>, actions: seq<Action>, k: nat)
    requires IsRun(states, actions) && k < |states|
    ensures var db := states[k].db;
            && (db.gate.maintenance ==> forall i :: i in db.tools.invocations ==> db.tools.invocations[i].status != ToolRunning)
            && (db.gate.recoveryPending ==> db.gate.maintenance)
            && (!db.gate.maintenance ==> forall i :: ToolItem(i) in db.gate.resolved ==>
                  i in db.tools.invocations && db.tools.invocations[i].status in {ToolSucceeded, ToolFailed})
  {
    RunOrderly(states, actions, k);
    GatedIsStill(states[k].db.gate, states[k].db.tools);
  }

  lemma GatedIsStill(gate: Gate, tools: Tools)
    requires Gated(gate, tools)
    ensures gate.maintenance ==> forall i :: i in tools.invocations ==> tools.invocations[i].status != ToolRunning
    ensures gate.recoveryPending ==> gate.maintenance
    ensures !gate.maintenance ==> forall i :: ToolItem(i) in gate.resolved ==>
              i in tools.invocations && tools.invocations[i].status in {ToolSucceeded, ToolFailed}
  {
    forall i | ToolItem(i) in gate.resolved && !gate.maintenance
      ensures i in tools.invocations && tools.invocations[i].status in {ToolSucceeded, ToolFailed}
    {
      assert ItemStands(gate, tools, i);
    }
  }

  lemma DeliveryStepLeavesGate(v: World, a: Action)
    ensures NextDelivery(v, a).db.gate == v.db.gate && NextDelivery(v, a).db.sessions == v.db.sessions
  {
  }

  lemma OtherStepInMaintenance(v: World, a: Action)
    requires v.db.gate.maintenance && !a.Leave?
    ensures NextOther(v, a).db.gate.maintenance && NextOther(v, a).calls == v.calls && NextOther(v, a).claims == v.claims
  {
  }

  lemma StepInMaintenance(v: World, a: Action)
    requires Orderly(v) && Possible(v, a) && v.db.gate.maintenance && !a.Leave?
    ensures Next(v, a).db.gate.maintenance && Next(v, a).calls == v.calls && Next(v, a).claims == v.claims
  {
    if TaskAction(a) {
      MaintenanceClaimsNothing(v, a);
      TaskStepFrame(v, a);
    } else if DeliveryAction(a) {
      DeliveryStepLedger(v, a);
      DeliveryStepLeavesGate(v, a);
    } else if ToolAction(a) {
      MaintenanceStartsNothing(v, a);
      ToolStepFrame(v, a);
    } else {
      OtherStepInMaintenance(v, a);
    }
  }

  /** Maintenance is on, and nothing has been started since. */
  ghost predicate Idled(v: World, u: World) { u.db.gate.maintenance && u.calls == v.calls && u.claims == v.claims }

  ghost predicate NoLeave(actions: seq<Action>, j: nat, k: nat) { forall n :: j <= n < k && n < |actions| ==> !actions[n].Leave? }

  lemma MaintenanceAt(states: seq<World>, actions: seq<Action>, k: nat)
    requires IsRun(states, actions) && k < |actions| && states[k].db.gate.maintenance && !actions[k].Leave?
    ensures Idled(states[k], states[k + 1])
  {
    RunOrderly(states, actions, k);
    assert StepsAt(states, actions, k);
    StepInMaintenance(states[k], actions[k]);
  }

  /** From the moment maintenance is on - a restore turns it on - until someone leaves it, no external call is made
      and no Run is claimed. */
  lemma {:induction false} NothingStartsUntilLeave(states: seq<World>, actions: seq<Action>, j: nat, k: nat)
    requires IsRun(states, actions) && j <= k < |states| && states[j].db.gate.maintenance
    requires NoLeave(actions, j, k)
    ensures Idled(states[j], states[k])
    decreases k
  {
    if j < k {
      NothingStartsUntilLeave(states, actions, j, k - 1);
      MaintenanceAt(states, actions, k - 1);
    }
  }

  lemma GateStepItems(v: World, a: Action)
    requires !a.RestoreBackup?
    ensures NextOther(v, a).db.gate.resolved.Keys == v.db.gate.resolved.Keys
  {
  }

  lemma WorkStepLeavesGate(v: World, a: Action)
    requires TaskAction(a) || DeliveryAction(a) || ToolAction(a)
    ensures Next(v, a).db.gate == v.db.gate && Next(v, a).db.sessions == v.db.sessions
  {
    if TaskAction(a) {
      TaskStepFrame(v, a);
    } else if DeliveryAction(a) {
      DeliveryStepLeavesGate(v, a);
    } else {
      ToolStepFrame(v, a);
    }
  }

  lemma StepKeepsItems(v: World, a: Action)
    requires !a.RestoreBackup?
    ensures Next(v, a).db.gate.resolved.Keys == v.db.gate.resolved.Keys
  {
    if TaskAction(a) || DeliveryAction(a) || ToolAction(a) {
      WorkStepLeavesGate(v, a);
    } else {
      GateStepItems(v, a);
    }
  }

  lemma ItemsAt(states: seq<World>, actions: seq<Action>, k: nat)
    requires IsRun(states, actions) && k < |actions| && !actions[k].RestoreBackup?
    ensures states[k + 1].db.gate.resolved.Keys == states[k].db.gate.resolved.Keys
  {
    assert StepsAt(states, actions, k);
    StepKeepsItems(states[k], actions[k]);
  }

  lemma {:induction false} ItemsStay(states: seq<World>, actions: seq<Action>, j: nat, k: nat)
    requires IsRun(states, actions) && j <= k < |states| && NoRestore(actions, j, k)
    ensures states[k].db.gate.resolved.Keys == states[j].db.gate.resolved.Keys
    decreases k
  {
    if j < k {
      ItemsStay(states, actions, j, k - 1);
      ItemsAt(states, actions, k - 1);
    }
  }

  lemma RestoredDatabase(v: World, index: nat)
    requires index < |v.backups|
    ensures Next(v, RestoreBackup(index)).db == Quarantine(v.backups[index])
  {
  }

  lemma RestoreOpensItem(b: Database, i: InvocationId)
    requires i in b.tools.invocations && Unsettled(b.tools.invocations[i].status)
    ensures ToolItem(i) in Quarantine(b).gate.resolved
  {
    assert ToolItem(i) in NewItems(b);
  }

  lemma RestoreAt(states: seq<World>, actions: seq<Action>, j: nat, i: InvocationId)
    requires IsRun(states, actions) && j < |actions| && actions[j].RestoreBackup? && actions[j].index < |states[j].backups|
    requires var b := states[j].backups[actions[j].index]; i in b.tools.invocations && Unsettled(b.tools.invocations[i].status)
    ensures ToolItem(i) in states[j + 1].db.gate.resolved
  {
    assert StepsAt(states, actions, j);
    RestoredDatabase(states[j], actions[j].index);
    RestoreOpensItem(states[j].backups[actions[j].index], i);
  }

  /** After a restore, work resumes only once every operation the backup held unsettled is confirmed as succeeded
      or failed. */
  lemma ResumedMeansReconciled(states: seq<World>, actions: seq<Action>, j: nat, k: nat, i: InvocationId)
    requires IsRun(states, actions) && j < k < |states|
    requires actions[j].RestoreBackup? && actions[j].index < |states[j].backups| && NoRestore(actions, j + 1, k)
    requires var b := states[j].backups[actions[j].index]; i in b.tools.invocations && Unsettled(b.tools.invocations[i].status)
    requires !states[k].db.gate.maintenance
    ensures i in states[k].db.tools.invocations && states[k].db.tools.invocations[i].status in {ToolSucceeded, ToolFailed}
  {
    RestoreAt(states, actions, j, i);
    ItemsStay(states, actions, j + 1, k);
    MaintenanceIsStill(states, actions, k);
  }

  // --- Sessions after a restore -----------------------------------------------------------------------

  ghost predicate Dead(v: World, sessions: set<SessionId>) {
    sessions <= v.used && forall s :: s in sessions && s in v.db.sessions ==> !v.db.sessions[s].active
  }

  lemma QuietOther(v: World, a: Action)
    requires OperatorAction(a)
    ensures NextOther(v, a).db.sessions == v.db.sessions
  {
    OperatorStepFrame(v, a);
  }

  lemma SessionStepKeepsDead(v: World, a: Action, sessions: set<SessionId>)
    requires a.DoCreateSession? || a.DoNegotiate? || a.DoRevokeSession? || a.SessionsRevoked? || a.DoProjectCommand?
    requires Drawn(v.db, v.used) && Possible(v, a) && Dead(v, sessions)
    ensures Dead(NextOther(v, a).(used := v.used + NewIds(a)), sessions)
  {
    SessionStepAdvances(v, a);
  }

  lemma StepKeepsDead(v: World, a: Action, sessions: set<SessionId>)
    requires Orderly(v) && Possible(v, a) && Dead(v, sessions)
    ensures Dead(Next(v, a), sessions)
  {
    if TaskAction(a) || DeliveryAction(a) || ToolAction(a) {
      WorkStepLeavesGate(v, a);
    } else if a.DoCreateSession? || a.DoNegotiate? || a.DoRevokeSession? || a.SessionsRevoked? || a.DoProjectCommand? {
      SessionStepKeepsDead(v, a, sessions);
    } else if a.RestoreBackup? {
      RestoreKeepsDead(v, a.index, sessions);
    } else {
      QuietOther(v, a);
    }
  }

  lemma RestoreKeepsDead(v: World, index: nat, sessions: set<SessionId>)
    requires Dead(v, sessions)
    ensures Dead(Next(v, RestoreBackup(index)), sessions)
  {
    if index < |v.backups| { RestoredDatabase(v, index); }
  }

  lemma RestoreKills(v: World, index: nat)
    requires index < |v.backups| && v.backups[index].sessions.Keys <= v.used
    ensures Dead(Next(v, RestoreBackup(index)), v.backups[index].sessions.Keys)
  {
    RestoredDatabase(v, index);
  }

  lemma BackupSessionsDrawn(v: World, index: nat)
    requires Orderly(v) && index < |v.backups|
    ensures v.backups[index].sessions.Keys <= v.used
  {
    assert WellKept(v.backups[index]) && Drawn(v.backups[index], v.used);
  }

  lemma RestoreKillsAt(states: seq<World>, actions: seq<Action>, k: nat)
    requires IsRun(states, actions) && k < |actions| && actions[k].RestoreBackup? && actions[k].index < |states[k].backups|
    ensures Dead(states[k + 1], states[k].backups[actions[k].index].sessions.Keys)
  {
    RunOrderly(states, actions, k);
    assert StepsAt(states, actions, k);
    BackupSessionsDrawn(states[k], actions[k].index);
    RestoreKills(states[k], actions[k].index);
  }

  lemma DeadAt(states: seq<World>, actions: seq<Action>, k: nat, sessions: set<SessionId>)
    requires IsRun(states, actions) && k < |actions| && Dead(states[k], sessions)
    ensures Dead(states[k + 1], sessions)
  {
    RunOrderly(states, actions, k);
    assert StepsAt(states, actions, k);
    StepKeepsDead(states[k], actions[k], sessions);
  }

  /** A Session that a restore brought back is never active again, not even after further restores. */
  lemma {:induction false} RestoredSessionsStayDead(states: seq<World>, actions: seq<Action>, j: nat, k: nat)
    requires IsRun(states, actions) && j < k < |states| && actions[j].RestoreBackup? && actions[j].index < |states[j].backups|
    ensures Dead(states[k], states[j].backups[actions[j].index].sessions.Keys)
    decreases k
  {
    if j == k - 1 {
      RestoreKillsAt(states, actions, j);
    } else {
      RestoredSessionsStayDead(states, actions, j, k - 1);
      DeadAt(states, actions, k - 1, states[j].backups[actions[j].index].sessions.Keys);
    }
  }
}
