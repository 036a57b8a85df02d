/** Why rows change.

    A task, a Run or an artifact changes its standing only through the few actions that may bring it there, and an
    action that decides about one of them, and does anything at all, brings it there. Both are shown handler by
    handler, then for every action of a group. What follows for whole runs is in `Histories` and `Mandates`. */
module Causes {
  import opened Options
  import opened Tables
  import opened Access
  import opened Snapshots
  import opened TaskFlow
  import opened Delivery
  import opened Recovery
  import opened ControlPlane
  import opened TaskSafety

  // --- Tasks and Runs -------------------------------------------------------------------

  /** The only actions that may bring a task into each status. */
  ghost predicate TaskMoved(a: Action, y: Execution, t: TaskId)
    requires t in y.tasks
  {
    match y.tasks[t].status
    case Draft => (a.DoCreateTask? && a.newId == t) || ((a.DoEditTask? || a.DoTransferTask?) && a.task == t)
    case Ready => (a.DoCommand? && a.task == t && a.command in {Submit, Retry}) || a.WorkerReconciles?
    case Running => a.DoClaim? && a.newId in y.runs && y.runs[a.newId].task == t
    case InReview => a.DoReport? && a.report.CompletionCandidate? && a.run in y.runs && y.runs[a.run].task == t && y.runs[a.run].status == RunSucceeded
    case Done => a.DoReviewTask? && a.task == t && a.accept
    case Canceled => a.DoCommand? && a.task == t && a.command == Command.Cancel
    case Blocked =>
      || (a.DoCommand? && a.task == t && a.command in {Submit, Retry})
      || (a.DoAddDependency? && a.task == t)
      || (a.DoReport? && a.report.Failure? && a.run in y.runs && y.runs[a.run].task == t)
      || (a.DoReviewTask? && a.task == t && !a.accept)
      || a.WorkerReconciles? || a.RestoreBackup?
  }

  ghost predicate RunMoved(a: Action, y: Execution, r: RunId)
    requires r in y.runs
  {
    match y.runs[r].status
    case RunRunning => a.DoClaim? && a.newId == r
    case RunSucceeded => a.DoReport? && a.run == r && a.report.CompletionCandidate?
    case RunFailed => a.DoReport? && a.run == r && a.report.Failure?
    case RunCanceled => a.DoCommand? && a.task == y.runs[r].task && a.command == Command.Cancel
    case RunLost => a.WorkerReconciles? || a.RestoreBackup?
  }

  /** Whoever changed status did so for one of these reasons. */
  ghost predicate ExecutionMoves(a: Action, x: Execution, y: Execution) {
    && (forall t :: t in y.tasks ==> (t in x.tasks && y.tasks[t].status == x.tasks[t].status) || TaskMoved(a, y, t))
    && (forall r :: r in y.runs ==> (r in x.runs && y.runs[r].status == x.runs[r].status) || RunMoved(a, y, r))
  }

  /** A report leaves the Run and its task standing, ready for review, or failed and blocked. */
  ghost predicate Reported(report: Report, x: Execution, y: Execution, r: RunId, t: TaskId)
    requires r in y.runs
  {
    && t in x.tasks && t in y.tasks
    && match report
       case Progress => y.runs[r].status == RunRunning && y.tasks == x.tasks
       case CompletionCandidate(_) => y.runs[r].status == RunSucceeded && y.tasks[t].status == InReview
       case Failure => y.runs[r].status == RunFailed && y.tasks[t].status == Blocked
  }

  /** And a report, a review, a cancellation or a heartbeat that does anything does this. */
  ghost predicate Effective(a: Action, now: int, x: Execution, y: Execution) {
    y != x ==>
      && (a.DoHeartbeat? ==> a.run in x.runs && y == x.(runs := x.runs[a.run := x.runs[a.run].(expires := now + 90, version := x.runs[a.run].version + 1)]))
      && (a.DoReport? ==> a.run in x.runs && a.run in y.runs && Reported(a.report, x, y, a.run, x.runs[a.run].task))
      && (a.DoReviewTask? ==> a.task in y.tasks && y.tasks[a.task].status == (if a.accept then Done else Blocked) && !y.tasks[a.task].retry)
      && (a.DoCommand? && a.command == Command.Cancel ==> a.task in y.tasks && y.tasks[a.task].status == Canceled)
  }

  lemma NothingMoves(a: Action, now: int, x: Execution)
    ensures ExecutionMoves(a, x, x) && Effective(a, now, x, x)
  {
  }

  lemma CreateMoves(w: World, a: Action)
    requires a.DoCreateTask?
    ensures ExecutionMoves(a, w.db.execution, NextTask(w, a).db.execution)
  {
  }

  /** One task's row is written, Runs are not. */
  ghost predicate OneTaskWritten(x: Execution, r: Result<Execution>, id: TaskId, allowed: set<TaskStatus>) {
    r.Ok? ==>
      && id in x.tasks && id in r.value.tasks && r.value.tasks == x.tasks[id := r.value.tasks[id]] && r.value.runs == x.runs
      && (r.value.tasks[id].status == x.tasks[id].status || r.value.tasks[id].status in allowed)
  }

  lemma EditWrites(db: Database, now: int, c: Caller, id: TaskId, repository: nat, versions: seq<VersionId>, criteria: nat, ifMatch: nat)
    ensures OneTaskWritten(db.execution, EditTask(db, now, c, id, repository, versions, criteria, ifMatch), id, {Draft})
  {
  }

  lemma TransferWrites(db: Database, now: int, c: Caller, id: TaskId, owner: UserId, ifMatch: nat)
    ensures OneTaskWritten(db.execution, TransferTask(db, now, c, id, owner, ifMatch), id, {Draft})
  {
  }

  lemma AssignWrites(db: Database, now: int, c: Caller, id: TaskId, target: Target, ifMatch: nat)
    ensures OneTaskWritten(db.execution, AssignTask(db, now, c, id, target, ifMatch), id, {})
  {
  }

  lemma RemoveWrites(db: Database, now: int, c: Caller, id: TaskId, dependency: DependencyId, ifMatch: nat)
    ensures OneTaskWritten(db.execution, RemoveDependency(db, now, c, id, dependency, ifMatch), id, {})
  {
  }

  lemma AddWrites(db: Database, now: int, c: Caller, id: TaskId, predecessor: TaskId, condition: Condition, ifMatch: nat, newId: nat)
    ensures OneTaskWritten(db.execution, AddDependency(db, now, c, id, predecessor, condition, ifMatch, newId), id, {Blocked})
  {
    if id in db.execution.tasks { EdgeWrites(db, id, Dependency(predecessor, id, condition, None), newId); }
  }

  lemma EdgeWrites(db: Database, id: TaskId, d: Dependency, newId: nat)
    requires id in db.execution.tasks
    ensures OneTaskWritten(db.execution, Ok(WithDependency(db, id, d, newId)), id, {Blocked})
  {
  }

  lemma WrittenMoves(a: Action, x: Execution, r: Result<Execution>, id: TaskId, allowed: set<TaskStatus>)
    requires OneTaskWritten(x, r, id, allowed)
    requires r.Ok? && r.value.tasks[id].status in allowed ==> TaskMoved(a, r.value, id)
    ensures r.Ok? ==> ExecutionMoves(a, x, r.value)
  {
  }

  lemma InputsMove(w: World, a: Action)
    requires a.DoEditTask? || a.DoTransferTask? || a.DoAssignTask? || a.DoAddDependency? || a.DoRemoveDependency?
    ensures ExecutionMoves(a, w.db.execution, NextTask(w, a).db.execution)
  {
    NothingMoves(a, w.now, w.db.execution);
    match a
    case DoEditTask(c, t, repository, versions, criteria, ifMatch) =>
      EditWrites(w.db, w.now, c, t, repository, versions, criteria, ifMatch);
      WrittenMoves(a, w.db.execution, EditTask(w.db, w.now, c, t, repository, versions, criteria, ifMatch), t, {Draft});
    case DoTransferTask(c, t, owner, ifMatch) =>
      TransferWrites(w.db, w.now, c, t, owner, ifMatch);
      WrittenMoves(a, w.db.execution, TransferTask(w.db, w.now, c, t, owner, ifMatch), t, {Draft});
    case DoAssignTask(c, t, target, ifMatch) =>
      AssignWrites(w.db, w.now, c, t, target, ifMatch);
      WrittenMoves(a, w.db.execution, AssignTask(w.db, w.now, c, t, target, ifMatch), t, {});
    case DoAddDependency(c, t, predecessor, condition, ifMatch, newId) =>
      AddWrites(w.db, w.now, c, t, predecessor, condition, ifMatch, newId);
      WrittenMoves(a, w.db.execution, AddDependency(w.db, w.now, c, t, predecessor, condition, ifMatch, newId), t, {Blocked});
    case DoRemoveDependency(c, t, dependency, ifMatch) =>
      RemoveWrites(w.db, w.now, c, t, dependency, ifMatch);
      WrittenMoves(a, w.db.execution, RemoveDependency(w.db, w.now, c, t, dependency, ifMatch), t, {});
  }

  lemma AuthoriseWrites(db: Database, id: TaskId, t: Task, command: Command)
    requires id in db.execution.tasks && t == db.execution.tasks[id]
    ensures OneTaskWritten(db.execution, Authorise(db, id, t, command), id, {Ready, Blocked})
  {
  }

  /** The task is CANCELED, and with it its live Run. */
  lemma CancelWrites(db: Database, id: TaskId, t: Task)
    requires id in db.execution.tasks && t == db.execution.tasks[id]
    ensures var r := CancelTask(db, id, t);
            r.Ok? ==> && r.value.tasks.Keys == db.execution.tasks.Keys && r.value.runs.Keys == db.execution.runs.Keys
                      && r.value.tasks[id].status == Canceled && (forall u :: u in db.execution.tasks && u != id ==> r.value.tasks[u] == db.execution.tasks[u])
                      && (forall s :: s in db.execution.runs ==> r.value.runs[s] == db.execution.runs[s]
                                                                 || (r.value.runs[s].status == RunCanceled && r.value.runs[s].task == id))
  {
  }

  lemma CancelMoves(db: Database, a: Action, id: TaskId, t: Task)
    requires id in db.execution.tasks && t == db.execution.tasks[id] && a.DoCommand? && a.task == id && a.command == Command.Cancel
    ensures var r := CancelTask(db, id, t); r.Ok? ==> ExecutionMoves(a, db.execution, r.value)
  {
    CancelWrites(db, id, t);
  }

  lemma CommandsMove(w: World, a: Action)
    requires a.DoCommand?
    ensures ExecutionMoves(a, w.db.execution, NextTask(w, a).db.execution)
    ensures Effective(a, w.now, w.db.execution, NextTask(w, a).db.execution)
  {
    NothingMoves(a, w.now, w.db.execution);
    if a.task in w.db.execution.tasks {
      var t := w.db.execution.tasks[a.task];
      if a.command == Command.Cancel {
        CancelMoves(w.db, a, a.task, t);
      } else if a.command in {Submit, Retry} {
        AuthoriseWrites(w.db, a.task, t, a.command);
        WrittenMoves(a, w.db.execution, Authorise(w.db, a.task, t, a.command), a.task, {Ready, Blocked});
      } else {
        ShelvingWrites(w.db, w.now, a.caller, a.task, a.command, a.ifMatch);
        WrittenMoves(a, w.db.execution, CommandTask(w.db, w.now, a.caller, a.task, a.command, a.ifMatch), a.task, {});
      }
    }
  }

  lemma ShelvingWrites(db: Database, now: int, c: Caller, id: TaskId, command: Command, ifMatch: nat)
    requires command in {Command.Archive, Command.Restore}
    ensures OneTaskWritten(db.execution, CommandTask(db, now, c, id, command, ifMatch), id, {})
  {
  }

  lemma ClaimMoves(w: World, a: Action)
    requires a.DoClaim?
    ensures ExecutionMoves(a, w.db.execution, NextTask(w, a).db.execution)
  {
  }

  lemma HeartbeatMoves(w: World, a: Action)
    requires a.DoHeartbeat?
    ensures ExecutionMoves(a, w.db.execution, NextTask(w, a).db.execution)
    ensures Effective(a, w.now, w.db.execution, NextTask(w, a).db.execution)
  {
  }

  lemma ReportMoves(w: World, a: Action)
    requires a.DoReport?
    ensures ExecutionMoves(a, w.db.execution, NextTask(w, a).db.execution)
    ensures Effective(a, w.now, w.db.execution, NextTask(w, a).db.execution)
  {
    ReportWrites(w.db, w.now, a.caller, a.run, a.report, a.fence, a.ifMatch);
  }

  lemma ReportWrites(db: Database, now: int, c: Caller, id: RunId, report: Report, fence: nat, ifMatch: nat)
    ensures var r := ReportRun(db, now, c, id, report, fence, ifMatch);
            r.Ok? ==> && id in db.execution.runs && id in r.value.runs && r.value.runs == db.execution.runs[id := r.value.runs[id]]
                      && var t := db.execution.runs[id].task;
                         && t == r.value.runs[id].task && t in db.execution.tasks && t in r.value.tasks
                         && r.value.tasks == db.execution.tasks[t := r.value.tasks[t]] && Reported(report, db.execution, r.value, id, t)
  {
  }

  /** What closing lost Runs and rechecking waiting tasks may do. */
  ghost predicate WorkerMoved(x: Execution, y: Execution) {
    && y.tasks.Keys == x.tasks.Keys && y.runs.Keys == x.runs.Keys
    && (forall t :: t in x.tasks ==> y.tasks[t].status == x.tasks[t].status || y.tasks[t].status in {Ready, Blocked})
    && (forall r :: r in x.runs ==> y.runs[r].status == x.runs[r].status || y.runs[r].status == RunLost)
  }

  lemma CloseRunMoves(x: Execution, r: RunId)
    requires r in x.runs
    ensures WorkerMoved(x, CloseRun(x, r))
  {
  }

  lemma {:induction false} CloseRunsMove(x: Execution, order: seq<RunId>)
    requires forall r :: r in order ==> r in x.runs
    ensures WorkerMoved(x, CloseRuns(x, order))
    decreases |order|
  {
    if order != [] {
      CloseRunMoves(x, order[0]);
      CloseRunsMove(CloseRun(x, order[0]), order[1..]);
    }
  }

  lemma {:induction false} RecheckAllMoves(env: Environment, evidence: Evidence, x: Execution, order: seq<TaskId>)
    requires forall t :: t in order ==> t in x.tasks
    ensures WorkerMoved(x, RecheckAll(env, evidence, x, order))
    decreases |order|
  {
    if order != [] { RecheckAllMoves(env, evidence, Recheck(env, evidence, x, order[0]), order[1..]); }
  }

  lemma WorkerMoves(db: Database, now: int, a: Action)
    requires a.WorkerReconciles?
    ensures ExecutionMoves(a, db.execution, ReconcileProject(db, now))
  {
    if !db.gate.maintenance {
      var closed := CloseRuns(db.execution, Ascending(LostRuns(db, now)));
      CloseRunsMove(db.execution, Ascending(LostRuns(db, now)));
      RecheckAllMoves(db.env, db.evidence, closed, Ascending(Waiting(closed)));
    }
  }

  lemma ReviewMoves(w: World, a: Action)
    requires a.DoReviewTask?
    ensures ExecutionMoves(a, w.db.execution, NextDelivery(w, a).db.execution)
    ensures Effective(a, w.now, w.db.execution, NextDelivery(w, a).db.execution)
  {
    ReviewWrites(w.db, w.now, a.caller, a.task, a.run, a.refs, a.accept, a.checks, a.ifMatch);
  }

  lemma ReviewWrites(db: Database, now: int, c: Caller, id: TaskId, run: RunId, refs: seq<Reviewed>, accept: bool, checks: seq<bool>, ifMatch: nat)
    ensures var r := ReviewTask(db, now, c, id, run, refs, accept, checks, ifMatch);
            r.Ok? ==> && id in db.execution.tasks && id in r.value.execution.tasks
                      && r.value.execution == db.execution.(tasks := db.execution.tasks[id := r.value.execution.tasks[id]])
                      && r.value.execution.tasks[id].status == (if accept then Done else Blocked) && !r.value.execution.tasks[id].retry
  {
  }

  lemma QuarantineMoves(db: Database, a: Action)
    requires a.RestoreBackup?
    ensures ExecutionMoves(a, db.execution, Quarantine(db).execution)
  {
  }

  lemma TaskStepMoves(w: World, a: Action)
    requires TaskAction(a)
    ensures ExecutionMoves(a, w.db.execution, NextTask(w, a).db.execution)
    ensures Effective(a, w.now, w.db.execution, NextTask(w, a).db.execution)
  {
    match a
    case DoCommand(_, _, _, _) => CommandsMove(w, a);
    case DoClaim(_, _, _) => ClaimMoves(w, a);
    case DoHeartbeat(_, _, _, _) => HeartbeatMoves(w, a);
    case DoReport(_, _, _, _, _) => ReportMoves(w, a);
    case WorkerReconciles => WorkerMoves(w.db, w.now, a);
    case DoCreateTask(_, _, _, _, _, _) => CreateMoves(w, a);
    case _ => InputsMove(w, a);
  }

  // --- Artifacts ---------------------------------------------------------------------------

  ghost predicate Names(refs: seq<Reviewed>, id: ArtifactId) { exists i :: 0 <= i < |refs| && refs[i].artifact == id }

  /** The only actions that may decide an artifact so. */
  ghost predicate AcceptanceMoved(a: Action, f: Evidence, id: ArtifactId)
    requires id in f.artifacts
  {
    match f.artifacts[id].acceptance
    case Pending => a.DoRegister? && a.newId == id
    case Accepted => (a.DoReviewArtifact? && a.artifact == id && a.accept)
                     || (a.DoReviewTask? && a.accept && a.run == f.artifacts[id].run && Names(a.refs, id))
    case Rejected => a.DoReviewArtifact? && a.artifact == id && !a.accept
  }

  ghost predicate VerificationMoved(a: Action, f: Evidence, id: ArtifactId)
    requires id in f.artifacts
  {
    match f.artifacts[id].verification
    case Unverified => a.DoRegister? && a.newId == id && !a.registration.uri.Stored?
    case Verified => (a.DoVerify? && a.artifact == id && a.provider == Confirms) || (a.DoRegister? && a.newId == id && a.registration.uri.Stored?)
    case VerificationFailed => a.DoVerify? && a.artifact == id && a.provider == Denies
  }

  ghost predicate EvidenceMoved(a: Action, e: Evidence, f: Evidence) {
    forall id :: id in f.artifacts ==>
      && ((id in e.artifacts && f.artifacts[id].acceptance == e.artifacts[id].acceptance) || AcceptanceMoved(a, f, id))
      && ((id in e.artifacts && f.artifacts[id].verification == e.artifacts[id].verification) || VerificationMoved(a, f, id))
  }

  /** And a verification or a review of one artifact that does anything does this. */
  ghost predicate EvidenceEffective(a: Action, e: Evidence, f: Evidence) {
    f != e ==>
      && (a.DoVerify? ==> a.artifact in f.artifacts && a.provider != Unreachable
                          && f.artifacts[a.artifact].verification == (if a.provider == Confirms then Verified else VerificationFailed))
      && (a.DoReviewArtifact? ==> a.artifact in f.artifacts && f.artifacts[a.artifact].acceptance == if a.accept then Accepted else Rejected)
  }

  lemma UploadOrRegisterMoves(w: World, a: Action)
    requires a.DoUpload? || a.DoRegister?
    ensures EvidenceMoved(a, w.db.evidence, NextDelivery(w, a).db.evidence)
  {
  }

  lemma VerifyMovesArtifact(w: World, a: Action)
    requires a.DoVerify?
    ensures EvidenceMoved(a, w.db.evidence, NextDelivery(w, a).db.evidence)
    ensures EvidenceEffective(a, w.db.evidence, NextDelivery(w, a).db.evidence)
  {
  }

  lemma ReviewMovesArtifact(w: World, a: Action)
    requires a.DoReviewArtifact?
    ensures EvidenceMoved(a, w.db.evidence, NextDelivery(w, a).db.evidence)
    ensures EvidenceEffective(a, w.db.evidence, NextDelivery(w, a).db.evidence)
  {
  }

  /** The artifact loop of a task review accepts, of what it names, what was pending, and touches nothing else. */
  ghost predicate ReviewMoved(run: RunId, accept: bool, refs: seq<Reviewed>, e: Evidence, f: Evidence) {
    f.artifacts.Keys == e.artifacts.Keys && (forall id :: id in e.artifacts ==> ReviewKept(run, accept, refs, id, e.artifacts[id], f.artifacts[id]))
  }

  ghost predicate ReviewKept(run: RunId, accept: bool, refs: seq<Reviewed>, id: ArtifactId, a: Artifact, b: Artifact) {
    || b == a
    || (accept && Names(refs, id) && a.run == run && b == a.(acceptance := Accepted, version := b.version))
  }

  lemma ReviewOneMoves(db: Database, q: Request, run: RunId, accept: bool, seen: set<ArtifactId>, refs: seq<Reviewed>, e: Evidence)
    requires refs != []
    ensures var r := ReviewOne(db, q, run, accept, seen, refs[0], e); r.Ok? ==> ReviewMoved(run, accept, refs, e, r.value)
  {
    assert Names(refs, refs[0].artifact);
  }

  lemma ReviewThenRest(run: RunId, accept: bool, refs: seq<Reviewed>, e: Evidence, f: Evidence, g: Evidence)
    requires refs != [] && ReviewMoved(run, accept, refs, e, f) && ReviewMoved(run, accept, refs[1..], f, g)
    ensures ReviewMoved(run, accept, refs, e, g)
  {
    forall id | id in e.artifacts && Names(refs[1..], id) ensures Names(refs, id) {
      var i :| 0 <= i < |refs[1..]| && refs[1..][i].artifact == id;
      assert refs[i + 1].artifact == id;
    }
  }

  lemma {:induction false} ReviewAllMoves(db: Database, q: Request, run: RunId, accept: bool, seen: set<ArtifactId>, refs: seq<Reviewed>, e: Evidence)
    ensures var r := ReviewAll(db, q, run, accept, seen, refs, e); r.Ok? ==> ReviewMoved(run, accept, refs, e, r.value)
    decreases |refs|
  {
    var r := ReviewAll(db, q, run, accept, seen, refs, e);
    if refs != [] && r.Ok? {
      ReviewOneMoves(db, q, run, accept, seen, refs, e);
      var next := ReviewOne(db, q, run, accept, seen, refs[0], e).value;
      ReviewAllMoves(db, q, run, accept, seen + {refs[0].artifact}, refs[1..], next);
      ReviewThenRest(run, accept, refs, e, next, r.value);
    }
  }

  lemma TaskReviewMovesArtifacts(w: World, a: Action)
    requires a.DoReviewTask?
    ensures EvidenceMoved(a, w.db.evidence, NextDelivery(w, a).db.evidence)
  {
    var q := Admit(w.db, w.now, a.caller, BY_MEMBER);
    if q.Ok? { ReviewAllMoves(w.db, q.value, a.run, a.accept, {}, a.refs, w.db.evidence); }
  }

  lemma EvidenceStepMoves(w: World, a: Action)
    requires DeliveryAction(a)
    ensures EvidenceMoved(a, w.db.evidence, NextDelivery(w, a).db.evidence)
    ensures EvidenceEffective(a, w.db.evidence, NextDelivery(w, a).db.evidence)
  {
    match a
    case DoVerify(_, _, _, _) => VerifyMovesArtifact(w, a);
    case DoReviewArtifact(_, _, _, _, _) => ReviewMovesArtifact(w, a);
    case DoReviewTask(_, _, _, _, _, _, _) => TaskReviewMovesArtifacts(w, a);
    case _ => UploadOrRegisterMoves(w, a);
  }
}
