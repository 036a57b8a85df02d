/** The invariant of the whole installation: every step from an orderly state leads to an orderly state,
    restores of old backups included.

    The steps are taken group by group - task and Run writes, evidence and reviews, governed tools, everything else -
    and part by part: what the tables keep (`WellKept`), ids drawn once (`Drawn`), backups as orderly as the live
    database, every call made under authority, and the budget of claims. A restore is the one step that may go back;
    `QuarantineWellKept` says what it goes back to. `StepOrderly` puts the groups together, `RunOrderly` makes it a
    statement about runs, which is all that `Guarantees` needs. */
module Invariants {
  import opened Options
  import opened Tables
  import opened Access
  import opened Dependencies
  import opened Snapshots
  import opened TaskFlow
  import opened Governance
  import opened Delivery
  import opened Recovery
  import opened ControlPlane
  import opened TaskSafety
  import opened EvidenceSafety
  import opened Authority
  import opened ToolSafety
  import opened ApprovalSafety
  import opened GateSafety

  // --- What every task step does to the tables --------------------------------------

  lemma InputStepKeeps(w: World, a: Action)
    requires Sound(w.db.execution) && Drawn(w.db, w.used) && Possible(w, a)
    requires a.DoCreateTask? || a.DoEditTask? || a.DoTransferTask? || a.DoAssignTask? || a.DoAddDependency? || a.DoRemoveDependency?
    ensures Keeps(w.db.execution, Ok(NextTask(w, a).db.execution), NewIds(a))
    ensures Ordinary(w.db.execution, NextTask(w, a).db.execution)
  {
    NoChangeKeeps(w.db.execution);
    match a
    case DoCreateTask(c, owner, repository, versions, criteria, newId) =>
      assert newId in NewIds(a);
      CreateKeeps(w.db, w.now, c, owner, repository, versions, criteria, newId);
      CreateOrdinary(w.db, w.now, c, owner, repository, versions, criteria, newId);
    case DoEditTask(c, t, repository, versions, criteria, ifMatch) =>
      EditTaskKeeps(w.db, w.now, c, t, repository, versions, criteria, ifMatch);
      EditOrdinary(w.db, w.now, c, t, repository, versions, criteria, ifMatch);
    case DoTransferTask(c, t, owner, ifMatch) =>
      TransferKeeps(w.db, w.now, c, t, owner, ifMatch);
      TransferOrdinary(w.db, w.now, c, t, owner, ifMatch);
    case DoAssignTask(c, t, target, ifMatch) =>
      AssignKeeps(w.db, w.now, c, t, target, ifMatch);
      AssignOrdinary(w.db, w.now, c, t, target, ifMatch);
    case DoAddDependency(c, t, predecessor, condition, ifMatch, newId) =>
      assert newId in NewIds(a);
      AddDependencyKeeps(w.db, w.now, c, t, predecessor, condition, ifMatch, newId);
      AddDependencyOrdinary(w.db, w.now, c, t, predecessor, condition, ifMatch, newId);
    case DoRemoveDependency(c, t, dependency, ifMatch) =>
      RemoveDependencyKeeps(w.db, w.now, c, t, dependency, ifMatch);
      RemoveDependencyOrdinary(w.db, w.now, c, t, dependency, ifMatch);
  }

  /** Everything but a SUBMIT, a RETRY and a claim authorises, completes and starts nothing. */
  predicate Authorising(a: Action) { a.DoClaim? || (a.DoCommand? && a.command in {Submit, Retry}) }

  lemma CommandStepKeeps(w: World, a: Action)
    requires Sound(w.db.execution) && a.DoCommand?
    ensures Keeps(w.db.execution, Ok(NextTask(w, a).db.execution), {})
    ensures !Authorising(a) ==> Ordinary(w.db.execution, NextTask(w, a).db.execution)
  {
    NoChangeKeeps(w.db.execution);
    CommandKeeps(w.db, w.now, a.caller, a.task, a.command, a.ifMatch);
    if a.command !in {Submit, Retry} { CommandOrdinary(w.db, w.now, a.caller, a.task, a.command, a.ifMatch); }
  }

  lemma ClaimStepKeeps(w: World, a: Action)
    requires Sound(w.db.execution) && Drawn(w.db, w.used) && Possible(w, a) && a.DoClaim?
    ensures Keeps(w.db.execution, Ok(NextTask(w, a).db.execution), NewIds(a))
  {
    assert a.newId in NewIds(a);
    ClaimKeeps(w.db, w.now, a.caller, a.wanted, a.newId);
  }

  lemma RunStepKeeps(w: World, a: Action)
    requires Sound(w.db.execution) && (a.DoHeartbeat? || a.DoReport? || a.WorkerReconciles?)
    ensures Keeps(w.db.execution, Ok(NextTask(w, a).db.execution), {})
    ensures Ordinary(w.db.execution, NextTask(w, a).db.execution)
  {
    NoChangeKeeps(w.db.execution);
    match a
    case DoHeartbeat(c, run, fence, ifMatch) =>
      HeartbeatKeeps(w.db, w.now, c, run, fence, ifMatch);
      HeartbeatOrdinary(w.db, w.now, c, run, fence, ifMatch);
    case DoReport(c, run, report, fence, ifMatch) =>
      ReportKeeps(w.db, w.now, c, run, report, fence, ifMatch);
      ReportOrdinary(w.db, w.now, c, run, report, fence, ifMatch);
    case WorkerReconciles =>
      ReconcileKeeps(w.db, w.now);
      ReconcileOrdinary(w.db, w.now);
  }

  lemma TaskStepKeeps(w: World, a: Action)
    requires Sound(w.db.execution) && Drawn(w.db, w.used) && Possible(w, a) && TaskAction(a)
    ensures Keeps(w.db.execution, Ok(NextTask(w, a).db.execution), NewIds(a))
    ensures !Authorising(a) ==> Ordinary(w.db.execution, NextTask(w, a).db.execution)
  {
    if a.DoCommand? {
      CommandStepKeeps(w, a);
    } else if a.DoClaim? {
      ClaimStepKeeps(w, a);
    } else if a.DoHeartbeat? || a.DoReport? || a.WorkerReconciles? {
      RunStepKeeps(w, a);
    } else {
      InputStepKeeps(w, a);
    }
  }

  // --- Resolutions of dependencies ------------------------------------------------------

  lemma WithDependencyResolutions(db: Database, id: TaskId, d: Dependency, newId: DependencyId)
    requires id in db.execution.tasks && d.resolved.None?
    ensures Resolutions(db.execution, db.evidence, WithDependency(db, id, d, newId))
  {
    var added := db.execution.(dependencies := db.execution.dependencies[newId := d]);
    ResolveResolutions(added, db.evidence, {id});
  }

  lemma {:induction false} CloseRunsDependencies(x: Execution, order: seq<RunId>)
    requires forall r :: r in order ==> r in x.runs
    ensures CloseRuns(x, order).dependencies == x.dependencies
    decreases |order|
  {
    if order != [] { CloseRunsDependencies(CloseRun(x, order[0]), order[1..]); }
  }

  lemma {:induction false} RecheckAllResolutions(env: Environment, evidence: Evidence, x: Execution, order: seq<TaskId>)
    requires forall t :: t in order ==> t in x.tasks
    ensures Resolutions(x, evidence, RecheckAll(env, evidence, x, order)) && RecheckAll(env, evidence, x, order).runs == x.runs
    decreases |order|
  {
    if order != [] {
      ResolveResolutions(x, evidence, {order[0]});
      RecheckAllResolutions(env, evidence, Recheck(env, evidence, x, order[0]), order[1..]);
    }
  }

  lemma ReconcileResolutions(db: Database, now: int)
    requires Sound(db.execution)
    ensures Resolutions(db.execution, db.evidence, ReconcileProject(db, now))
  {
    if !db.gate.maintenance {
      var x, order := db.execution, Ascending(LostRuns(db, now));
      var closed := CloseRuns(x, order);
      CloseRunsDependencies(x, order);
      CloseRunsKeep(x, order);
      var y := RecheckAll(db.env, db.evidence, closed, Ascending(Waiting(closed)));
      RecheckAllResolutions(db.env, db.evidence, closed, Ascending(Waiting(closed)));
      forall d | d in y.dependencies && y.dependencies[d].resolved.Some?
        ensures Qualifies(x.runs, db.evidence, y.dependencies[d].resolved.value, y.dependencies[d])
                || (d in x.dependencies && x.dependencies[d] == y.dependencies[d])
      {
        var a := y.dependencies[d].resolved.value;
        if Qualifies(closed.runs, db.evidence, a, y.dependencies[d]) {
          SameTaskQualifies(x, closed, db.evidence, a, y.dependencies[d]);
        }
      }
    }
  }

  lemma SameTaskQualifies(x: Execution, y: Execution, e: Evidence, a: ArtifactId, d: Dependency)
    requires Qualifies(y.runs, e, a, d) && y.runs.Keys == x.runs.Keys && forall r :: r in x.runs ==> RunKept(x.runs[r], y.runs[r])
    ensures Qualifies(x.runs, e, a, d)
  {
    assert RunKept(x.runs[e.artifacts[a].run], y.runs[e.artifacts[a].run]);
  }

  /** The handlers that touch dependencies. */
  predicate TouchesDependencies(a: Action) {
    a.DoAddDependency? || a.DoRemoveDependency? || a.DoClaim? || a.WorkerReconciles? || (a.DoCommand? && a.command in {Submit, Retry})
  }

  lemma CancelLeavesDependencies(db: Database, now: int, c: Caller, id: TaskId, command: Command, ifMatch: nat)
    requires command !in {Submit, Retry}
    ensures var r := CommandTask(db, now, c, id, command, ifMatch); r.Ok? ==> r.value.dependencies == db.execution.dependencies
  {
  }

  lemma InputsLeaveDependencies(w: World, a: Action)
    requires a.DoCreateTask? || a.DoEditTask? || a.DoTransferTask? || a.DoAssignTask?
    ensures NextTask(w, a).db.execution.dependencies == w.db.execution.dependencies
  {
  }

  lemma RunWritesLeaveDependencies(w: World, a: Action)
    requires a.DoHeartbeat? || a.DoReport?
    ensures NextTask(w, a).db.execution.dependencies == w.db.execution.dependencies
  {
  }

  lemma OthersLeaveDependencies(w: World, a: Action)
    requires TaskAction(a) && !TouchesDependencies(a)
    ensures NextTask(w, a).db.execution.dependencies == w.db.execution.dependencies
  {
    if a.DoCommand? {
      CancelLeavesDependencies(w.db, w.now, a.caller, a.task, a.command, a.ifMatch);
    } else if a.DoHeartbeat? || a.DoReport? {
      RunWritesLeaveDependencies(w, a);
    } else {
      InputsLeaveDependencies(w, a);
    }
  }

  lemma AddDependencyResolutions(db: Database, now: int, c: Caller, id: TaskId, predecessor: TaskId, condition: Condition, ifMatch: nat, newId: nat)
    ensures var r := AddDependency(db, now, c, id, predecessor, condition, ifMatch, newId);
            r.Ok? ==> Resolutions(db.execution, db.evidence, r.value)
  {
    if id in db.execution.tasks { WithDependencyResolutions(db, id, Dependency(predecessor, id, condition, None), newId); }
  }

  lemma ClaimResolutions(db: Database, now: int, c: Caller, wanted: Option<TaskId>, newId: nat)
    ensures var r := ClaimRun(db, now, c, wanted, newId); r.Ok? ==> Resolutions(db.execution, db.evidence, r.value.execution)
  {
    ClaimEffect(db, now, c, wanted, newId);
    var r := ClaimRun(db, now, c, wanted, newId);
    if r.Ok? { ResolveResolutions(db.execution, db.evidence, {r.value.task}); }
  }

  lemma CommandResolutions(db: Database, now: int, c: Caller, id: TaskId, command: Command, ifMatch: nat)
    ensures var r := CommandTask(db, now, c, id, command, ifMatch); r.Ok? ==> Resolutions(db.execution, db.evidence, r.value)
  {
    ResolveResolutions(db.execution, db.evidence, {id});
  }

  lemma TouchedResolutions(w: World, a: Action)
    requires TouchesDependencies(a) && Sound(w.db.execution)
    ensures Resolutions(w.db.execution, w.db.evidence, NextTask(w, a).db.execution)
  {
    match a
    case DoAddDependency(c, t, predecessor, condition, ifMatch, newId) => AddDependencyResolutions(w.db, w.now, c, t, predecessor, condition, ifMatch, newId);
    case DoClaim(c, wanted, newId) => ClaimResolutions(w.db, w.now, c, wanted, newId);
    case DoCommand(c, t, command, ifMatch) => CommandResolutions(w.db, w.now, c, t, command, ifMatch);
    case WorkerReconciles => ReconcileResolutions(w.db, w.now);
    case DoRemoveDependency(c, t, dependency, ifMatch) =>
  }

  lemma TaskStepResolutions(w: World, a: Action)
    requires TaskAction(a) && Sound(w.db.execution)
    ensures Resolutions(w.db.execution, w.db.evidence, NextTask(w, a).db.execution)
  {
    if TouchesDependencies(a) { TouchedResolutions(w, a); } else { OthersLeaveDependencies(w, a); }
  }

  // --- Snapshots and delegations that a task step adds ---------------------------------------

  lemma ClaimFreezes(db: Database, now: int, c: Caller, wanted: Option<TaskId>, newId: nat)
    requires Sound(db.execution) && Founded(db.execution, db.evidence) && SnapshotsHold(db.execution, db.evidence)
    ensures var r := ClaimRun(db, now, c, wanted, newId); r.Ok? ==> SnapshotsHold(r.value.execution, db.evidence)
  {
    ClaimEffect(db, now, c, wanted, newId);
    var r := ClaimRun(db, now, c, wanted, newId);
    if r.Ok? {
      var id := r.value.task;
      var x := ResolveEvidence(db.execution, db.evidence, {id});
      ResolveResolutions(db.execution, db.evidence, {id});
      FoundedAfterTask(db.execution, x, db.evidence);
      FrozenHolds(db.env, x, db.evidence, id);
    }
  }

  lemma ClaimDelegates(db: Database, now: int, c: Caller, wanted: Option<TaskId>, newId: nat)
    requires Delegated(db.execution.runs, db.sessions)
    ensures var r := ClaimRun(db, now, c, wanted, newId); r.Ok? ==> Delegated(r.value.execution.runs, db.sessions)
  {
    ClaimEffect(db, now, c, wanted, newId);
  }

  lemma OthersAddNoRun(w: World, a: Action)
    requires TaskAction(a) && !a.DoClaim? && Sound(w.db.execution) && Drawn(w.db, w.used) && Possible(w, a)
    ensures NextTask(w, a).db.execution.runs.Keys == w.db.execution.runs.Keys
    ensures NextTask(w, a).db.execution.snapshots.Keys == w.db.execution.snapshots.Keys
  {
    TaskStepKeeps(w, a);
    if Authorising(a) {
      assert a.DoCommand?;
    }
    OthersLeaveSnapshots(w, a);
  }

  lemma {:induction false} CloseRunsSnapshots(x: Execution, order: seq<RunId>)
    requires forall r :: r in order ==> r in x.runs
    ensures CloseRuns(x, order).snapshots == x.snapshots
    decreases |order|
  {
    if order != [] { CloseRunsSnapshots(CloseRun(x, order[0]), order[1..]); }
  }

  lemma {:induction false} RecheckAllSnapshots(env: Environment, evidence: Evidence, x: Execution, order: seq<TaskId>)
    requires forall t :: t in order ==> t in x.tasks
    ensures RecheckAll(env, evidence, x, order).snapshots == x.snapshots
    decreases |order|
  {
    if order != [] { RecheckAllSnapshots(env, evidence, Recheck(env, evidence, x, order[0]), order[1..]); }
  }

  lemma ReconcileSnapshots(db: Database, now: int)
    ensures ReconcileProject(db, now).snapshots == db.execution.snapshots
  {
    if !db.gate.maintenance {
      var order := Ascending(LostRuns(db, now));
      CloseRunsSnapshots(db.execution, order);
      var closed := CloseRuns(db.execution, order);
      RecheckAllSnapshots(db.env, db.evidence, closed, Ascending(Waiting(closed)));
    }
  }

  lemma CommandLeavesSnapshots(db: Database, now: int, c: Caller, id: TaskId, command: Command, ifMatch: nat)
    ensures var r := CommandTask(db, now, c, id, command, ifMatch); r.Ok? ==> r.value.snapshots == db.execution.snapshots
  {
  }

  lemma RunWritesLeaveSnapshots(w: World, a: Action)
    requires a.DoHeartbeat? || a.DoReport?
    ensures NextTask(w, a).db.execution.snapshots == w.db.execution.snapshots
  {
  }

  lemma OthersLeaveSnapshots(w: World, a: Action)
    requires TaskAction(a) && !a.DoClaim?
    ensures NextTask(w, a).db.execution.snapshots == w.db.execution.snapshots
  {
    if a.WorkerReconciles? {
      ReconcileSnapshots(w.db, w.now);
    } else if a.DoCommand? {
      CommandLeavesSnapshots(w.db, w.now, a.caller, a.task, a.command, a.ifMatch);
    } else if a.DoHeartbeat? || a.DoReport? {
      RunWritesLeaveSnapshots(w, a);
    } else {
      InputWritesLeaveSnapshots(w, a);
    }
  }

  lemma EdgeWritesLeaveSnapshots(w: World, a: Action)
    requires a.DoAddDependency? || a.DoRemoveDependency?
    ensures NextTask(w, a).db.execution.snapshots == w.db.execution.snapshots
  {
  }

  lemma InputWritesLeaveSnapshots(w: World, a: Action)
    requires a.DoCreateTask? || a.DoEditTask? || a.DoTransferTask? || a.DoAssignTask? || a.DoAddDependency? || a.DoRemoveDependency?
    ensures NextTask(w, a).db.execution.snapshots == w.db.execution.snapshots
  {
    if a.DoAddDependency? || a.DoRemoveDependency? { EdgeWritesLeaveSnapshots(w, a); }
  }

  // --- The invariant ----------------------------------------------------------------------

  /** What holds of the live database, and of every backup. */
  ghost predicate WellKept(db: Database) {
    && Sound(db.execution) && Delegated(db.execution.runs, db.sessions) && Bound(db.execution.runs, db.tools)
    && Outstanding(db.execution, db.tools) && Founded(db.execution, db.evidence) && SnapshotsHold(db.execution, db.evidence)
    && Gated(db.gate, db.tools) && Shelved(db)
  }

  ghost predicate AllAuthorised(calls: seq<Call>) {
    forall k :: 0 <= k < |calls| ==> CallAuthorised(calls[k].db, calls[k].now, calls[k].id)
  }

  function ClaimsLeft(x: Execution, t: TaskId): nat { if t in x.tasks && Authorised(x.tasks[t]) then 1 else 0 }

  /** Claims so far, plus the one a task may still be claimed for, never exceed its SUBMIT and RETRY commands. */
  ghost predicate WithinBudget(w: World) {
    forall t :: w.claims[t] + ClaimsLeft(w.db.execution, t) <= w.commands[t]
  }

  ghost predicate BackupsOrderly(w: World) {
    forall k :: 0 <= k < |w.backups| ==> WellKept(w.backups[k]) && Drawn(w.backups[k], w.used)
  }

  ghost predicate Orderly(w: World) {
    WellKept(w.db) && Drawn(w.db, w.used) && BackupsOrderly(w) && AllAuthorised(w.calls) && WithinBudget(w)
  }

  lemma FreshOrderly(w: World)
    requires Fresh(w)
    ensures Orderly(w)
  {
    assert Edges(w.db.execution.dependencies) == {};
    NoEdgesAcyclic();
  }

  // --- Task steps --------------------------------------------------------------------------

  lemma KeptDelegated(runs: map<RunId, TaskRun>, later: map<RunId, TaskRun>, sessions: map<SessionId, Session>)
    requires Delegated(runs, sessions) && later.Keys == runs.Keys && forall r :: r in runs ==> RunKept(runs[r], later[r])
    ensures Delegated(later, sessions)
  {
    forall r | r in later ensures later[r].session in sessions && sessions[later[r].session].human == later[r].delegator {
      assert RunKept(runs[r], later[r]);
    }
  }

  lemma TaskStepDelegated(w: World, a: Action)
    requires TaskAction(a) && Sound(w.db.execution) && Drawn(w.db, w.used) && Possible(w, a) && Delegated(w.db.execution.runs, w.db.sessions)
    ensures Delegated(NextTask(w, a).db.execution.runs, w.db.sessions)
  {
    if a.DoClaim? {
      ClaimDelegates(w.db, w.now, a.caller, a.wanted, a.newId);
    } else {
      OthersAddNoRun(w, a);
      TaskStepKeeps(w, a);
      KeptDelegated(w.db.execution.runs, NextTask(w, a).db.execution.runs, w.db.sessions);
    }
  }

  lemma CommandOutstanding(db: Database, now: int, c: Caller, id: TaskId, command: Command, ifMatch: nat)
    requires Outstanding(db.execution, db.tools) && command in {Submit, Retry}
    ensures var r := CommandTask(db, now, c, id, command, ifMatch); r.Ok? ==> Outstanding(r.value, db.tools)
  {
    if id in db.execution.tasks { AuthoriseOutstanding(db, id, db.execution.tasks[id], command); }
  }

  lemma TaskStepOutstanding(w: World, a: Action)
    requires TaskAction(a) && Sound(w.db.execution) && Drawn(w.db, w.used) && Possible(w, a) && Outstanding(w.db.execution, w.db.tools)
    ensures Outstanding(NextTask(w, a).db.execution, w.db.tools)
  {
    if a.DoClaim? {
      assert a.newId in NewIds(a);
      ClaimOutstanding(w.db, w.now, a.caller, a.wanted, a.newId);
    } else if Authorising(a) {
      CommandOutstanding(w.db, w.now, a.caller, a.task, a.command, a.ifMatch);
    } else {
      TaskStepKeeps(w, a);
      OrdinaryOutstanding(w.db.execution, NextTask(w, a).db.execution, w.db.tools);
    }
  }

  lemma TaskStepSnapshots(w: World, a: Action)
    requires TaskAction(a) && Sound(w.db.execution) && Founded(w.db.execution, w.db.evidence) && SnapshotsHold(w.db.execution, w.db.evidence)
    ensures SnapshotsHold(NextTask(w, a).db.execution, w.db.evidence)
  {
    if a.DoClaim? {
      ClaimFreezes(w.db, w.now, a.caller, a.wanted, a.newId);
    } else {
      OthersLeaveSnapshots(w, a);
    }
  }

  lemma TaskStepFounded(w: World, a: Action)
    requires TaskAction(a) && Sound(w.db.execution) && Drawn(w.db, w.used) && Possible(w, a) && Founded(w.db.execution, w.db.evidence)
    ensures Founded(NextTask(w, a).db.execution, w.db.evidence)
  {
    TaskStepKeeps(w, a);
    TaskStepResolutions(w, a);
    FoundedAfterTask(w.db.execution, NextTask(w, a).db.execution, w.db.evidence);
  }

  lemma TaskStepBound(w: World, a: Action)
    requires TaskAction(a) && Sound(w.db.execution) && Drawn(w.db, w.used) && Possible(w, a) && Bound(w.db.execution.runs, w.db.tools)
    ensures Bound(NextTask(w, a).db.execution.runs, w.db.tools)
  {
    TaskStepKeeps(w, a);
    RunsKeepBound(w.db.execution.runs, NextTask(w, a).db.execution.runs, w.db.tools);
  }

  lemma TaskStepFrame(w: World, a: Action)
    ensures var v := NextTask(w, a);
            && v.db == w.db.(execution := v.db.execution) && v == w.(db := v.db, claims := v.claims, commands := v.commands)
  {
  }

  lemma TaskStepShelved(w: World, a: Action)
    requires TaskAction(a) && Shelved(w.db)
    ensures Shelved(NextTask(w, a).db)
  {
    TaskStepFrame(w, a);
    if w.db.archived { ArchivedTaskStep(w, a); }
  }

  lemma TaskStepWellKept(w: World, a: Action)
    requires TaskAction(a) && WellKept(w.db) && Drawn(w.db, w.used) && Possible(w, a)
    ensures WellKept(NextTask(w, a).db)
  {
    TaskStepFrame(w, a);
    TaskStepKeeps(w, a);
    TaskStepDelegated(w, a);
    TaskStepBound(w, a);
    TaskStepOutstanding(w, a);
    TaskStepFounded(w, a);
    TaskStepSnapshots(w, a);
    TaskStepShelved(w, a);
  }

  // --- Delivery steps -----------------------------------------------------------------------

  /** What a delivery step does to the tables. */
  ghost predicate DeliveryMoves(w: World, v: World, newIds: set<nat>) {
    && v.db == w.db.(execution := v.db.execution, evidence := v.db.evidence) && v == w.(db := v.db)
    && EvidenceAdvances(w.db.evidence, v.db.evidence, newIds)
    && (AcceptedIsVerified(w.db.evidence) ==> AcceptedIsVerified(v.db.evidence))
    && NewArtifactsPlaced(w.db.execution, w.db.evidence, v.db.evidence)
    && v.db.execution.runs == w.db.execution.runs && v.db.execution.dependencies == w.db.execution.dependencies
    && v.db.execution.snapshots == w.db.execution.snapshots
  }

  lemma EvidenceMoves(w: World, r: Result<Evidence>, newIds: set<nat>)
    requires KeepsEvidence(w.db.evidence, r, newIds) && (r.Ok? ==> NewArtifactsPlaced(w.db.execution, w.db.evidence, r.value))
    ensures DeliveryMoves(w, WithEvidence(w, r), newIds) && WithEvidence(w, r).db.execution == w.db.execution
  {
  }

  lemma UploadMoves(w: World, c: Caller, run: RunId, digest: Digest, media: nat, fence: nat, ifMatch: nat, newId: nat)
    ensures var r := UploadContent(w.db, w.now, c, run, digest, media, fence, ifMatch, newId);
            DeliveryMoves(w, WithEvidence(w, r), {newId}) && WithEvidence(w, r).db.execution == w.db.execution
  {
    EvidenceMoves(w, UploadContent(w.db, w.now, c, run, digest, media, fence, ifMatch, newId), {newId});
  }

  lemma RegisterMoves(w: World, c: Caller, run: RunId, registration: Registration, fence: nat, ifMatch: nat, newId: nat)
    requires newId !in w.db.evidence.artifacts
    ensures var r := RegisterArtifact(w.db, w.now, c, run, registration, fence, ifMatch, newId);
            DeliveryMoves(w, WithEvidence(w, r), {newId}) && WithEvidence(w, r).db.execution == w.db.execution
  {
    var r := RegisterArtifact(w.db, w.now, c, run, registration, fence, ifMatch, newId);
    EvidenceMoves(w, r, {newId});
  }

  lemma VerifyMoves(w: World, c: Caller, id: ArtifactId, ifMatch: nat, provider: Provider)
    ensures var r := VerifyArtifact(w.db, w.now, c, id, ifMatch, provider);
            DeliveryMoves(w, WithEvidence(w, r), {}) && WithEvidence(w, r).db.execution == w.db.execution
  {
    EvidenceMoves(w, VerifyArtifact(w.db, w.now, c, id, ifMatch, provider), {});
  }

  lemma ReviewArtifactMoves(w: World, c: Caller, id: ArtifactId, digest: Digest, accept: bool, ifMatch: nat)
    ensures var r := ReviewArtifact(w.db, w.now, c, id, digest, accept, ifMatch);
            DeliveryMoves(w, WithEvidence(w, r), {}) && WithEvidence(w, r).db.execution == w.db.execution
  {
    ReviewArtifactKeeps(w.db, w.now, c, id, digest, accept, ifMatch);
    var r := ReviewArtifact(w.db, w.now, c, id, digest, accept, ifMatch);
    EvidenceMoves(w, r, {});
  }

  lemma ReviewTaskMoves(w: World, c: Caller, id: TaskId, run: RunId, refs: seq<Reviewed>, accept: bool, checks: seq<bool>, ifMatch: nat)
    ensures DeliveryMoves(w, NextReview(w, ReviewTask(w.db, w.now, c, id, run, refs, accept, checks, ifMatch)), {})
  {
    ReviewTaskKeeps(w.db, w.now, c, id, run, refs, accept, checks, ifMatch);
    ReviewEffect(w.db, w.now, c, id, run, refs, accept, checks, ifMatch);
  }

  lemma OnlyReviewsMoveTasks(w: World, a: Action)
    requires !a.DoReviewTask?
    ensures NextDelivery(w, a).db.execution == w.db.execution
  {
  }

  lemma RunEvidenceMoves(w: World, a: Action)
    requires (a.DoUpload? || a.DoRegister?) && Drawn(w.db, w.used) && Possible(w, a)
    ensures DeliveryMoves(w, NextDelivery(w, a), NewIds(a))
  {
    assert a.newId in NewIds(a);
    if a.DoUpload? {
      UploadMoves(w, a.caller, a.run, a.digest, a.media, a.fence, a.ifMatch, a.newId);
    } else {
      RegisterMoves(w, a.caller, a.run, a.registration, a.fence, a.ifMatch, a.newId);
    }
  }

  lemma HumanEvidenceMoves(w: World, a: Action)
    requires a.DoVerify? || a.DoReviewArtifact?
    ensures DeliveryMoves(w, NextDelivery(w, a), {})
  {
    if a.DoVerify? {
      VerifyMoves(w, a.caller, a.artifact, a.ifMatch, a.provider);
    } else {
      ReviewArtifactMoves(w, a.caller, a.artifact, a.digest, a.accept, a.ifMatch);
    }
  }

  lemma DeliveryStepMoves(w: World, a: Action)
    requires DeliveryAction(a) && Drawn(w.db, w.used) && Possible(w, a)
    ensures DeliveryMoves(w, NextDelivery(w, a), NewIds(a))
  {
    if a.DoUpload? || a.DoRegister? {
      RunEvidenceMoves(w, a);
    } else if a.DoVerify? || a.DoReviewArtifact? {
      HumanEvidenceMoves(w, a);
    } else {
      ReviewTaskMoves(w, a.caller, a.task, a.run, a.refs, a.accept, a.checks, a.ifMatch);
    }
  }

  lemma ReviewStepExecution(db: Database, now: int, c: Caller, id: TaskId, run: RunId, refs: seq<Reviewed>, accept: bool, checks: seq<bool>, ifMatch: nat)
    requires Sound(db.execution) && Outstanding(db.execution, db.tools)
    ensures var r := ReviewTask(db, now, c, id, run, refs, accept, checks, ifMatch);
            r.Ok? ==> Keeps(db.execution, Ok(r.value.execution), {}) && Outstanding(r.value.execution, db.tools)
  {
    ReviewKeeps(db, now, c, id, run, refs, accept, checks, ifMatch);
    if accept {
      AcceptOutstanding(db, now, c, id, run, refs, checks, ifMatch);
    } else {
      ReturnOrdinary(db, now, c, id, run, refs, checks, ifMatch);
      var r := ReviewTask(db, now, c, id, run, refs, accept, checks, ifMatch);
      if r.Ok? { OrdinaryOutstanding(db.execution, r.value.execution, db.tools); }
    }
  }

  lemma DeliveryStepExecution(w: World, a: Action)
    requires DeliveryAction(a) && Sound(w.db.execution) && Outstanding(w.db.execution, w.db.tools) && Drawn(w.db, w.used) && Possible(w, a)
    ensures Keeps(w.db.execution, Ok(NextDelivery(w, a).db.execution), {}) && Outstanding(NextDelivery(w, a).db.execution, w.db.tools)
  {
    if a.DoReviewTask? {
      ReviewStepExecution(w.db, w.now, a.caller, a.task, a.run, a.refs, a.accept, a.checks, a.ifMatch);
    } else {
      OnlyReviewsMoveTasks(w, a);
    }
    NoChangeKeeps(w.db.execution);
  }

  lemma DeliveryStepShelved(w: World, a: Action)
    requires DeliveryAction(a) && Shelved(w.db) && Drawn(w.db, w.used) && Possible(w, a)
    ensures Shelved(NextDelivery(w, a).db)
  {
    DeliveryStepMoves(w, a);
    if !a.DoReviewTask? {
      OnlyReviewsMoveTasks(w, a);
    } else if w.db.archived {
      ArchivedReview(w.db, w.now, a.caller, a.task, a.run, a.refs, a.accept, a.checks, a.ifMatch);
    }
  }

  lemma DeliveryStepWellKept(w: World, a: Action)
    requires DeliveryAction(a) && WellKept(w.db) && Drawn(w.db, w.used) && Possible(w, a)
    ensures WellKept(NextDelivery(w, a).db)
  {
    var v := NextDelivery(w, a);
    DeliveryStepMoves(w, a);
    DeliveryStepExecution(w, a);
    FoundedAfterDelivery(w.db.execution, v.db.execution, w.db.evidence, v.db.evidence, NewIds(a));
    DeliveryStepShelved(w, a);
  }

  // --- Tool steps ----------------------------------------------------------------------------

  lemma ToolStepFrame(w: World, a: Action)
    ensures var v := NextTool(w, a);
            v.db == w.db.(tools := v.db.tools) && v == w.(db := v.db, workers := v.workers, calls := v.calls)
  {
  }

  lemma ToolStepBound(w: World, a: Action)
    requires ToolAction(a) && Bound(w.db.execution.runs, w.db.tools) && Delegated(w.db.execution.runs, w.db.sessions)
    requires Drawn(w.db, w.used) && Possible(w, a)
    ensures Bound(w.db.execution.runs, NextTool(w, a).db.tools)
  {
    match a
    case DoRequest(c, wanting, newId) =>
      assert newId in NewIds(a);
      RequestBound(w.db, w.now, c, wanting, newId);
    case DoDecide(c, approval, digest, approve, ifMatch) => DecideBound(w.db, w.now, c, approval, digest, approve, ifMatch);
    case WorkerIntends(worker, id) => IntendBound(w.db, w.now, id);
    case WorkerPerforms(worker, outcome) =>
      if worker in w.workers && w.workers[worker].Intending? { PerformBound(w.db, w.now, w.workers[worker].id, outcome); }
    case WorkerGivesUp(worker) =>
    case DoReconcile(c, id, ifMatch, lookup) => ReconcileBound(w.db, w.now, c, id, ifMatch, lookup);
  }

  lemma BornHeldBack(db: Database, now: int, c: Caller, w: Wanted, newId: nat)
    requires Sound(db.execution)
    ensures var r := RequestInvocation(db, now, c, w, newId);
            r.Ok? ==> forall i :: i in r.value.invocations && i !in db.tools.invocations ==> HeldBack(db.execution, r.value.invocations[i].run)
  {
    var r := RequestInvocation(db, now, c, w, newId);
    if r.Ok? { LiveRunHeldBack(db.execution, w.run); }
  }

  lemma AdvanceSettles(tools: Tools, later: Tools, newIds: set<nat>, i: InvocationId)
    requires ToolsAdvance(tools, later, newIds) && i in tools.invocations
    ensures i in later.invocations && later.invocations[i].run == tools.invocations[i].run
    ensures Unsettled(later.invocations[i].status) ==> Unsettled(tools.invocations[i].status)
  {
    assert Advanced(tools.invocations[i], later.invocations[i]);
  }

  lemma AdvanceOutstanding(x: Execution, tools: Tools, later: Tools, newIds: set<nat>)
    requires Outstanding(x, tools) && ToolsAdvance(tools, later, newIds)
    requires forall i :: i in later.invocations && i !in tools.invocations ==> HeldBack(x, later.invocations[i].run)
    ensures Outstanding(x, later)
  {
    forall i | i in tools.invocations
      ensures i in later.invocations && later.invocations[i].run == tools.invocations[i].run
              && (Unsettled(later.invocations[i].status) ==> Unsettled(tools.invocations[i].status))
    {
      AdvanceSettles(tools, later, newIds, i);
    }
  }

  lemma OnlyRequestsAdd(w: World, a: Action)
    requires ToolAction(a) && !a.DoRequest? && Drawn(w.db, w.used) && Possible(w, a)
    ensures NextTool(w, a).db.tools.invocations.Keys == w.db.tools.invocations.Keys
  {
    ToolStepAdvances(w, a);
  }

  lemma ToolStepOutstanding(w: World, a: Action)
    requires ToolAction(a) && Sound(w.db.execution) && Outstanding(w.db.execution, w.db.tools) && Drawn(w.db, w.used) && Possible(w, a)
    ensures Outstanding(w.db.execution, NextTool(w, a).db.tools)
  {
    ToolStepAdvances(w, a);
    if a.DoRequest? { BornHeldBack(w.db, w.now, a.caller, a.wanting, a.newId); } else { OnlyRequestsAdd(w, a); }
    AdvanceOutstanding(w.db.execution, w.db.tools, NextTool(w, a).db.tools, NewIds(a));
  }

  lemma ToolStepGated(w: World, a: Action)
    requires ToolAction(a) && Gated(w.db.gate, w.db.tools) && Drawn(w.db, w.used) && Possible(w, a)
    ensures Gated(w.db.gate, NextTool(w, a).db.tools)
  {
    ToolStepAdvances(w, a);
    if w.db.gate.maintenance { MaintenanceStartsNothing(w, a); }
    ToolsKeepGate(w.db.gate, w.db.tools, NextTool(w, a).db.tools, NewIds(a));
  }

  lemma ToolStepShelved(w: World, a: Action)
    requires ToolAction(a) && Shelved(w.db)
    ensures Shelved(NextTool(w, a).db)
  {
    ToolStepFrame(w, a);
    if w.db.archived { ArchivedToolStep(w, a); }
  }

  lemma ToolStepWellKept(w: World, a: Action)
    requires ToolAction(a) && WellKept(w.db) && Drawn(w.db, w.used) && Possible(w, a)
    ensures WellKept(NextTool(w, a).db)
  {
    ToolStepFrame(w, a);
    ToolStepBound(w, a);
    ToolStepOutstanding(w, a);
    ToolStepGated(w, a);
    ToolStepShelved(w, a);
  }

  // --- Sessions, the archive, the operator ------------------------------------------------------

  /** Sessions keep whom they stand for, and none that was inactive becomes active again. */
  ghost predicate SessionsAdvance(s: map<SessionId, Session>, t: map<SessionId, Session>, newIds: set<nat>) {
    && s.Keys <= t.Keys <= s.Keys + newIds
    && (forall k :: k in s ==> t[k].human == s[k].human && (t[k].active ==> s[k].active))
  }

  lemma SessionStepAdvances(w: World, a: Action)
    requires a.DoCreateSession? || a.DoNegotiate? || a.DoRevokeSession? || a.SessionsRevoked? || a.DoProjectCommand?
    requires Drawn(w.db, w.used) && Possible(w, a)
    ensures SessionsAdvance(w.db.sessions, NextOther(w, a).db.sessions, NewIds(a))
  {
    if a.DoCreateSession? { assert a.newId in NewIds(a); }
  }

  lemma SessionStepFrame(w: World, a: Action)
    requires a.DoCreateSession? || a.DoNegotiate? || a.DoRevokeSession? || a.SessionsRevoked? || a.DoProjectCommand?
    ensures var v := NextOther(w, a);
            v.db == w.db.(sessions := v.db.sessions, archived := v.db.archived, version := v.db.version) && v == w.(db := v.db)
  {
  }

  lemma SessionStepWellKept(w: World, a: Action)
    requires a.DoCreateSession? || a.DoNegotiate? || a.DoRevokeSession? || a.SessionsRevoked? || a.DoProjectCommand?
    requires WellKept(w.db) && Drawn(w.db, w.used) && Possible(w, a)
    ensures WellKept(NextOther(w, a).db)
  {
    SessionStepFrame(w, a);
    SessionStepAdvances(w, a);
  }

  lemma GateStepWellKept(w: World, a: Action)
    requires a.Enter? || a.Leave? || a.ResolveItem? || a.Finish?
    requires WellKept(w.db)
    ensures WellKept(NextOther(w, a).db)
  {
    if a.Enter? { EnterKeepsGate(w.db, a.actor); }
    if a.Leave? { LeaveKeepsGate(w.db, a.actor); }
    if a.ResolveItem? { ResolveKeepsGate(w.db, a.item, a.actor); }
    if a.Finish? { FinishKeepsGate(w.db, a.actor); }
  }

  lemma QuarantineFounded(db: Database)
    requires Founded(db.execution, db.evidence) && SnapshotsHold(db.execution, db.evidence)
    ensures Founded(Quarantine(db).execution, Quarantine(db).evidence)
    ensures SnapshotsHold(Quarantine(db).execution, Quarantine(db).evidence)
  {
    var q := Quarantine(db);
    forall d | d in q.execution.dependencies && q.execution.dependencies[d].resolved.Some?
      ensures Qualifies(q.execution.runs, q.evidence, q.execution.dependencies[d].resolved.value, q.execution.dependencies[d])
    {
      QualifiesStays(db.execution, q.execution, db.evidence, q.evidence, q.execution.dependencies[d].resolved.value, q.execution.dependencies[d]);
    }
  }

  lemma QuarantineDelegated(db: Database)
    requires Delegated(db.execution.runs, db.sessions)
    ensures Delegated(Quarantine(db).execution.runs, Quarantine(db).sessions)
  {
  }

  /** A restored and quarantined backup is as consistent as the database it was taken of. */
  lemma QuarantineWellKept(db: Database)
    requires WellKept(db)
    ensures WellKept(Quarantine(db))
  {
    QuarantineSound(db);
    QuarantineDelegated(db);
    QuarantineBound(db);
    QuarantineOutstanding(db);
    QuarantineFounded(db);
    QuarantineGated(db);
    QuarantineShelved(db);
  }

  lemma QuarantineDrawn(db: Database, used: set<nat>)
    requires Drawn(db, used)
    ensures Drawn(Quarantine(db), used)
  {
  }

  lemma OtherStepWellKept(w: World, a: Action)
    requires !TaskAction(a) && !DeliveryAction(a) && !ToolAction(a)
    requires WellKept(w.db) && Drawn(w.db, w.used) && Possible(w, a) && BackupsOrderly(w)
    ensures WellKept(NextOther(w, a).db)
  {
    if a.DoCreateSession? || a.DoNegotiate? || a.DoRevokeSession? || a.SessionsRevoked? || a.DoProjectCommand? {
      SessionStepWellKept(w, a);
    } else if a.Enter? || a.Leave? || a.ResolveItem? || a.Finish? {
      GateStepWellKept(w, a);
    } else if a.RestoreBackup? {
      if a.index < |w.backups| { QuarantineWellKept(w.backups[a.index]); }
    }
  }

  // --- Ids ------------------------------------------------------------------------------------

  lemma TaskStepDrawn(w: World, a: Action)
    requires TaskAction(a) && Sound(w.db.execution) && Drawn(w.db, w.used) && Possible(w, a)
    ensures Drawn(NextTask(w, a).db, w.used + NewIds(a))
  {
    TaskStepKeeps(w, a);
    TaskStepFrame(w, a);
  }

  lemma DeliveryStepDrawn(w: World, a: Action)
    requires DeliveryAction(a) && Sound(w.db.execution) && Outstanding(w.db.execution, w.db.tools) && Drawn(w.db, w.used) && Possible(w, a)
    ensures Drawn(NextDelivery(w, a).db, w.used + NewIds(a))
  {
    DeliveryStepMoves(w, a);
    DeliveryStepExecution(w, a);
  }

  lemma ToolStepDrawn(w: World, a: Action)
    requires ToolAction(a) && Drawn(w.db, w.used) && Possible(w, a)
    ensures Drawn(NextTool(w, a).db, w.used + NewIds(a))
  {
    ToolStepAdvances(w, a);
    ToolStepFrame(w, a);
  }

  predicate OperatorAction(a: Action) { a.Enter? || a.Leave? || a.TakeBackup? || a.ResolveItem? || a.Finish? || a.Tick? || a.Change? }

  lemma OperatorStepFrame(w: World, a: Action)
    requires OperatorAction(a)
    ensures NextOther(w, a).db == w.db.(gate := NextOther(w, a).db.gate, version := NextOther(w, a).db.version, env := NextOther(w, a).db.env)
  {
  }

  lemma SessionStepDrawn(w: World, a: Action)
    requires a.DoCreateSession? || a.DoNegotiate? || a.DoRevokeSession? || a.SessionsRevoked? || a.DoProjectCommand?
    requires Drawn(w.db, w.used) && Possible(w, a)
    ensures Drawn(NextOther(w, a).db, w.used + NewIds(a))
  {
    SessionStepFrame(w, a);
    SessionStepAdvances(w, a);
  }

  lemma OtherStepDrawn(w: World, a: Action)
    requires !TaskAction(a) && !DeliveryAction(a) && !ToolAction(a) && Drawn(w.db, w.used) && Possible(w, a) && BackupsOrderly(w)
    ensures Drawn(NextOther(w, a).db, w.used + NewIds(a))
  {
    if a.DoCreateSession? || a.DoNegotiate? || a.DoRevokeSession? || a.SessionsRevoked? || a.DoProjectCommand? {
      SessionStepDrawn(w, a);
    } else if a.RestoreBackup? {
      if a.index < |w.backups| { QuarantineDrawn(w.backups[a.index], w.used); }
    } else {
      OperatorStepFrame(w, a);
    }
  }

  // --- The budget ---------------------------------------------------------------------------------

  lemma OrdinaryPending(x: Execution, y: Execution, t: TaskId)
    requires Ordinary(x, y)
    ensures ClaimsLeft(y, t) <= ClaimsLeft(x, t)
  {
    if t in x.tasks { assert OrdinaryMove(x.tasks[t], y.tasks[t]); }
  }

  lemma OrdinaryBudget(w: World, v: World)
    requires WithinBudget(w) && Ordinary(w.db.execution, v.db.execution) && v.claims == w.claims && v.commands == w.commands
    ensures WithinBudget(v)
  {
    forall t ensures v.claims[t] + ClaimsLeft(v.db.execution, t) <= v.commands[t] {
      OrdinaryPending(w.db.execution, v.db.execution, t);
    }
  }

  lemma ClaimBudget(w: World, c: Caller, wanted: Option<TaskId>, newId: nat)
    requires WithinBudget(w)
    ensures WithinBudget(NextClaim(w, ClaimRun(w.db, w.now, c, wanted, newId)))
  {
    ClaimEffect(w.db, w.now, c, wanted, newId);
    var r := ClaimRun(w.db, w.now, c, wanted, newId);
    if r.Ok? {
      var v, id := NextClaim(w, r), r.value.task;
      assert w.claims[id] + ClaimsLeft(w.db.execution, id) <= w.commands[id];
      forall t ensures v.claims[t] + ClaimsLeft(v.db.execution, t) <= v.commands[t] {
        assert w.claims[t] + ClaimsLeft(w.db.execution, t) <= w.commands[t];
      }
    }
  }

  lemma CommandBudget(w: World, c: Caller, id: TaskId, command: Command, ifMatch: nat)
    requires WithinBudget(w) && command in {Submit, Retry}
    ensures WithinBudget(NextCommand(w, id, command, CommandTask(w.db, w.now, c, id, command, ifMatch)))
  {
    var r := CommandTask(w.db, w.now, c, id, command, ifMatch);
    if r.Ok? {
      var v := NextCommand(w, id, command, r);
      forall t ensures v.claims[t] + ClaimsLeft(v.db.execution, t) <= v.commands[t] {
        assert w.claims[t] + ClaimsLeft(w.db.execution, t) <= w.commands[t];
      }
    }
  }

  lemma OthersLeaveLedger(w: World, a: Action)
    requires !Authorising(a)
    ensures NextTask(w, a).claims == w.claims && NextTask(w, a).commands == w.commands
  {
  }

  lemma TaskStepBudget(w: World, a: Action)
    requires TaskAction(a) && Sound(w.db.execution) && Drawn(w.db, w.used) && Possible(w, a) && WithinBudget(w)
    ensures WithinBudget(NextTask(w, a))
  {
    if a.DoClaim? {
      ClaimBudget(w, a.caller, a.wanted, a.newId);
    } else if Authorising(a) {
      CommandBudget(w, a.caller, a.task, a.command, a.ifMatch);
    } else {
      TaskStepKeeps(w, a);
      OthersLeaveLedger(w, a);
      OrdinaryBudget(w, NextTask(w, a));
    }
  }

  lemma ReviewBudget(w: World, c: Caller, id: TaskId, run: RunId, refs: seq<Reviewed>, accept: bool, checks: seq<bool>, ifMatch: nat)
    requires WithinBudget(w)
    ensures WithinBudget(NextReview(w, ReviewTask(w.db, w.now, c, id, run, refs, accept, checks, ifMatch)))
  {
    ReviewEffect(w.db, w.now, c, id, run, refs, accept, checks, ifMatch);
    var v := NextReview(w, ReviewTask(w.db, w.now, c, id, run, refs, accept, checks, ifMatch));
    forall t ensures v.claims[t] + ClaimsLeft(v.db.execution, t) <= v.commands[t] {
      assert w.claims[t] + ClaimsLeft(w.db.execution, t) <= w.commands[t];
    }
  }

  /** A restore authorises nothing, and forgets neither a claim nor a command. */
  lemma RestoreBudget(w: World, b: Database)
    requires WithinBudget(w)
    ensures WithinBudget(w.(db := Quarantine(b)))
  {
    var v := w.(db := Quarantine(b));
    forall t ensures v.claims[t] + ClaimsLeft(v.db.execution, t) <= v.commands[t] {
      assert w.claims[t] + ClaimsLeft(w.db.execution, t) <= w.commands[t];
      assert ClaimsLeft(v.db.execution, t) == 0;
    }
  }

  lemma OtherStepFrame(w: World, a: Action)
    requires !a.TakeBackup?
    ensures var v := NextOther(w, a);
            v.backups == w.backups && v.calls == w.calls && v.claims == w.claims && v.commands == w.commands && v.used == w.used
    ensures !a.RestoreBackup? ==> NextOther(w, a).db.execution == w.db.execution
  {
  }

  lemma OtherStepBudget(w: World, a: Action)
    requires !TaskAction(a) && !DeliveryAction(a) && !ToolAction(a) && WithinBudget(w)
    ensures WithinBudget(NextOther(w, a))
  {
    if a.RestoreBackup? {
      if a.index < |w.backups| { RestoreBudget(w, w.backups[a.index]); }
    } else if !a.TakeBackup? {
      OtherStepFrame(w, a);
      SameBudget(w, NextOther(w, a));
    }
  }

  lemma SameBudget(w: World, v: World)
    requires WithinBudget(w) && v.db.execution == w.db.execution && v.claims == w.claims && v.commands == w.commands
    ensures WithinBudget(v)
  {
    forall t ensures v.claims[t] + ClaimsLeft(v.db.execution, t) <= v.commands[t] {
      assert w.claims[t] + ClaimsLeft(w.db.execution, t) <= w.commands[t];
    }
  }

  lemma DeliveryStepBudget(w: World, a: Action)
    requires DeliveryAction(a) && WithinBudget(w)
    ensures WithinBudget(NextDelivery(w, a))
  {
    if a.DoReviewTask? {
      ReviewBudget(w, a.caller, a.task, a.run, a.refs, a.accept, a.checks, a.ifMatch);
    } else {
      OnlyReviewsMoveTasks(w, a);
      DeliveryStepLedger(w, a);
      SameBudget(w, NextDelivery(w, a));
    }
  }

  lemma DeliveryStepLedger(w: World, a: Action)
    ensures var v := NextDelivery(w, a);
            v.claims == w.claims && v.commands == w.commands && v.backups == w.backups && v.calls == w.calls && v.used == w.used
  {
  }

  // --- Calls ----------------------------------------------------------------------------------------

  lemma PerformanceAuthorised(w: World, worker: WorkerId, i: InvocationId, outcome: Outcome)
    requires AllAuthorised(w.calls) && Bound(w.db.execution.runs, w.db.tools) && Delegated(w.db.execution.runs, w.db.sessions)
    requires RunningIsLatest(w.db.execution.runs)
    ensures AllAuthorised(NextPerformance(w, worker, i, outcome).calls)
  {
    if Perform(w.db, w.now, i, outcome).1 { CallIsAuthorised(w.db, w.now, i, outcome); }
  }

  lemma ToolStepAuthorised(w: World, a: Action)
    requires ToolAction(a) && AllAuthorised(w.calls) && Bound(w.db.execution.runs, w.db.tools) && Delegated(w.db.execution.runs, w.db.sessions)
    requires RunningIsLatest(w.db.execution.runs)
    ensures AllAuthorised(NextTool(w, a).calls)
  {
    if a.WorkerPerforms? {
      if a.worker in w.workers && w.workers[a.worker].Intending? { PerformanceAuthorised(w, a.worker, w.workers[a.worker].id, a.outcome); }
    } else {
      OnlyPerformanceCalls(w, a);
    }
  }

  lemma OnlyPerformanceCalls(w: World, a: Action)
    requires !a.WorkerPerforms?
    ensures NextTool(w, a).calls == w.calls
  {
  }

  // --- Every step ---------------------------------------------------------------------------------------

  lemma BackupsStay(w: World, v: World)
    requires BackupsOrderly(w) && w.used <= v.used
    requires v.backups == w.backups || (v.backups == w.backups + [w.db] && WellKept(w.db) && Drawn(w.db, w.used))
    ensures BackupsOrderly(v)
  {
    forall k | 0 <= k < |v.backups| ensures WellKept(v.backups[k]) && Drawn(v.backups[k], v.used) {
      if k < |w.backups| { assert WellKept(w.backups[k]) && Drawn(w.backups[k], w.used); }
    }
  }

  lemma TaskStepOrderly(w: World, a: Action)
    requires Orderly(w) && Possible(w, a) && TaskAction(a)
    ensures Orderly(NextTask(w, a).(used := w.used + NewIds(a)))
  {
    var v := NextTask(w, a).(used := w.used + NewIds(a));
    TaskStepWellKept(w, a);
    TaskStepDrawn(w, a);
    TaskStepBudget(w, a);
    TaskStepFrame(w, a);
    BackupsStay(w, v);
    SameBudget(NextTask(w, a), v);
  }

  lemma DeliveryStepOrderly(w: World, a: Action)
    requires Orderly(w) && Possible(w, a) && DeliveryAction(a)
    ensures Orderly(NextDelivery(w, a).(used := w.used + NewIds(a)))
  {
    var v := NextDelivery(w, a).(used := w.used + NewIds(a));
    DeliveryStepWellKept(w, a);
    DeliveryStepDrawn(w, a);
    DeliveryStepBudget(w, a);
    DeliveryStepLedger(w, a);
    BackupsStay(w, v);
    SameBudget(NextDelivery(w, a), v);
  }

  lemma ToolStepOrderly(w: World, a: Action)
    requires Orderly(w) && Possible(w, a) && ToolAction(a)
    ensures Orderly(NextTool(w, a).(used := w.used + NewIds(a)))
  {
    var v := NextTool(w, a).(used := w.used + NewIds(a));
    ToolStepWellKept(w, a);
    ToolStepDrawn(w, a);
    ToolStepAuthorised(w, a);
    ToolStepFrame(w, a);
    BackupsStay(w, v);
    SameBudget(w, v);
  }

  lemma OtherStepHistory(w: World, a: Action)
    ensures var v := NextOther(w, a);
            v.calls == w.calls && v.used == w.used && (v.backups == w.backups || v.backups == w.backups + [w.db])
  {
  }

  lemma OtherStepOrderly(w: World, a: Action)
    requires Orderly(w) && Possible(w, a) && !TaskAction(a) && !DeliveryAction(a) && !ToolAction(a)
    ensures Orderly(NextOther(w, a).(used := w.used + NewIds(a)))
  {
    var v := NextOther(w, a).(used := w.used + NewIds(a));
    OtherStepWellKept(w, a);
    OtherStepDrawn(w, a);
    OtherStepBudget(w, a);
    OtherStepHistory(w, a);
    BackupsStay(w, v);
    SameBudget(NextOther(w, a), v);
  }

  lemma StepOrderly(w: World, a: Action)
    requires Orderly(w) && Possible(w, a)
    ensures Orderly(Next(w, a))
  {
    if TaskAction(a) {
      TaskStepOrderly(w, a);
    } else if DeliveryAction(a) {
      DeliveryStepOrderly(w, a);
    } else if ToolAction(a) {
      ToolStepOrderly(w, a);
    } else {
      OtherStepOrderly(w, a);
    }
  }

  lemma FirstOrderly(states: seq<World>, actions: seq<Action>)
    requires IsRun(states, actions)
    ensures Orderly(states[0])
  {
    FreshOrderly(states[0]);
  }

  lemma {:induction false} LaterOrderly(states: seq<World>, actions: seq<Action>, k: nat, next: nat)
    requires IsRun(states, actions) && k < |actions| && next == k + 1
    ensures Orderly(states[next])
    decreases k, 1
  {
    RunOrderly(states, actions, k);
    assert StepsAt(states, actions, k);
    StepOrderly(states[k], actions[k]);
  }

  lemma {:induction false} RunOrderly(states: seq<World>, actions: seq<Action>, k: nat)
    requires IsRun(states, actions) && k < |states|
    ensures Orderly(states[k])
    decreases k, 0
  {
    if k == 0 { FirstOrderly(states, actions); } else { LaterOrderly(states, actions, k - 1, k); }
  }
}
