/** Human authorisation is spent once, and no task goes on while an earlier operation is unaccounted for.

    Handler by handler: which writes may authorise, which may spend it, and what is outstanding where; and what the
    worker's loops add to neither. */
module Authority {
  import opened Options
  import opened Tables
  import opened Access
  import opened Snapshots
  import opened TaskFlow
  import opened Governance
  import opened Delivery
  import opened Recovery
  import opened TaskSafety

  /** The task may be attempted without a further command. */
  predicate Authorised(t: Task) { t.status in {Ready, Blocked} && t.retry }

  /** A change that authorises nothing, completes nothing and starts nothing. */
  ghost predicate OrdinaryMove(a: Task, b: Task) {
    && (Authorised(b) ==> Authorised(a)) && (b.retry ==> a.retry)
    && (b.status == Done ==> a.status == Done)
    && (b.status in {Running, InReview} ==> a.status in {Running, InReview})
  }

  ghost predicate Ordinary(x: Execution, y: Execution) {
    && x.tasks.Keys <= y.tasks.Keys && y.runs.Keys == x.runs.Keys
    && (forall t :: t in x.tasks ==> OrdinaryMove(x.tasks[t], y.tasks[t]))
    && (forall t :: t in y.tasks && t !in x.tasks ==> !Authorised(y.tasks[t]) && y.tasks[t].status !in {Done, Running, InReview})
  }

  lemma OrdinaryTransitively(x: Execution, y: Execution, z: Execution)
    requires Ordinary(x, y) && Ordinary(y, z)
    ensures Ordinary(x, z)
  {
    forall t | t in x.tasks ensures OrdinaryMove(x.tasks[t], z.tasks[t]) {
      assert OrdinaryMove(x.tasks[t], y.tasks[t]) && OrdinaryMove(y.tasks[t], z.tasks[t]);
    }
  }

  lemma CreateOrdinary(db: Database, now: int, c: Caller, owner: UserId, repository: nat, versions: seq<VersionId>, criteria: nat, newId: nat)
    requires newId !in db.execution.tasks
    ensures var r := CreateTask(db, now, c, owner, repository, versions, criteria, newId); r.Ok? ==> Ordinary(db.execution, r.value)
  {
  }

  lemma EditOrdinary(db: Database, now: int, c: Caller, id: TaskId, repository: nat, versions: seq<VersionId>, criteria: nat, ifMatch: nat)
    ensures var r := EditTask(db, now, c, id, repository, versions, criteria, ifMatch); r.Ok? ==> Ordinary(db.execution, r.value)
  {
  }

  lemma TransferOrdinary(db: Database, now: int, c: Caller, id: TaskId, owner: UserId, ifMatch: nat)
    ensures var r := TransferTask(db, now, c, id, owner, ifMatch); r.Ok? ==> Ordinary(db.execution, r.value)
  {
  }

  lemma AssignOrdinary(db: Database, now: int, c: Caller, id: TaskId, target: Target, ifMatch: nat)
    ensures var r := AssignTask(db, now, c, id, target, ifMatch); r.Ok? ==> Ordinary(db.execution, r.value)
  {
  }

  lemma WithDependencyOrdinary(db: Database, id: TaskId, d: Dependency, newId: DependencyId)
    requires id in db.execution.tasks && Flagged(db.execution.tasks)
    ensures Ordinary(db.execution, WithDependency(db, id, d, newId))
  {
  }

  lemma AddDependencyOrdinary(db: Database, now: int, c: Caller, id: TaskId, predecessor: TaskId, condition: Condition, ifMatch: nat, newId: nat)
    requires Flagged(db.execution.tasks)
    ensures var r := AddDependency(db, now, c, id, predecessor, condition, ifMatch, newId); r.Ok? ==> Ordinary(db.execution, r.value)
  {
    if id in db.execution.tasks { WithDependencyOrdinary(db, id, Dependency(predecessor, id, condition, None), newId); }
  }

  lemma RemoveDependencyOrdinary(db: Database, now: int, c: Caller, id: TaskId, dependency: DependencyId, ifMatch: nat)
    ensures var r := RemoveDependency(db, now, c, id, dependency, ifMatch); r.Ok? ==> Ordinary(db.execution, r.value)
  {
  }

  lemma CancelOrdinary(db: Database, id: TaskId, t: Task)
    requires id in db.execution.tasks && t == db.execution.tasks[id]
    ensures var r := CancelTask(db, id, t); r.Ok? ==> Ordinary(db.execution, r.value)
  {
  }

  lemma CommandOrdinary(db: Database, now: int, c: Caller, id: TaskId, command: Command, ifMatch: nat)
    requires command !in {Submit, Retry}
    ensures var r := CommandTask(db, now, c, id, command, ifMatch); r.Ok? ==> Ordinary(db.execution, r.value)
  {
    if id in db.execution.tasks && command == Cancel { CancelOrdinary(db, id, db.execution.tasks[id]); }
  }

  lemma HeartbeatOrdinary(db: Database, now: int, c: Caller, id: RunId, fence: nat, ifMatch: nat)
    ensures var r := HeartbeatRun(db, now, c, id, fence, ifMatch); r.Ok? ==> Ordinary(db.execution, r.value)
  {
  }

  lemma ReportOrdinary(db: Database, now: int, c: Caller, id: RunId, report: Report, fence: nat, ifMatch: nat)
    requires Sound(db.execution)
    ensures var r := ReportRun(db, now, c, id, report, fence, ifMatch); r.Ok? ==> Ordinary(db.execution, r.value)
  {
  }

  lemma CloseRunOrdinary(x: Execution, r: RunId)
    requires Sound(x) && r in x.runs && x.runs[r].status == RunRunning
    ensures Ordinary(x, CloseRun(x, r))
  {
  }

  lemma {:induction false} CloseRunsOrdinary(x: Execution, order: seq<RunId>)
    requires Sound(x) && AllLive(x, order)
    ensures Ordinary(x, CloseRuns(x, order))
    decreases |order|
  {
    if order != [] {
      var y := CloseRun(x, order[0]);
      CloseRunOrdinary(x, order[0]);
      CloseRunKeeps(x, order[0]);
      CloseRunLeavesOthers(x, order);
      CloseRunsOrdinary(y, order[1..]);
      OrdinaryTransitively(x, y, CloseRuns(x, order));
    }
  }

  lemma {:induction false} RecheckAllOrdinary(env: Environment, evidence: Evidence, x: Execution, order: seq<TaskId>)
    requires AllWaiting(x, order)
    ensures Ordinary(x, RecheckAll(env, evidence, x, order))
    decreases |order|
  {
    if order != [] {
      var y := Recheck(env, evidence, x, order[0]);
      RecheckLeavesOthers(env, evidence, x, order);
      RecheckAllOrdinary(env, evidence, y, order[1..]);
      OrdinaryTransitively(x, y, RecheckAll(env, evidence, x, order));
    }
  }

  lemma ReconcileOrdinary(db: Database, now: int)
    requires Sound(db.execution)
    ensures Ordinary(db.execution, ReconcileProject(db, now))
  {
    if !db.gate.maintenance {
      var order := Ascending(LostRuns(db, now));
      var closed := CloseRuns(db.execution, order);
      CloseRunsOrdinary(db.execution, order);
      RecheckAllOrdinary(db.env, db.evidence, closed, Ascending(Waiting(closed)));
      OrdinaryTransitively(db.execution, closed, ReconcileProject(db, now));
    }
  }

  lemma ReturnOrdinary(db: Database, now: int, c: Caller, id: TaskId, run: RunId, refs: seq<Reviewed>, checks: seq<bool>, ifMatch: nat)
    ensures var r := ReviewTask(db, now, c, id, run, refs, false, checks, ifMatch); r.Ok? ==> Ordinary(db.execution, r.value.execution)
  {
    ReviewEffect(db, now, c, id, run, refs, false, checks, ifMatch);
  }

  // --- Outstanding operations ---------------------------------------------------------

  /** An unsettled operation holds its task back: it is not DONE, not authorised for another attempt, and
      while the task runs or is reviewed the operation belongs to its latest Run. */
  ghost predicate HeldBack(x: Execution, run: RunId) {
    && run in x.runs && x.runs[run].task in x.tasks
    && var t := x.tasks[x.runs[run].task];
       && t.status != Done && !Authorised(t)
       && (t.status in {Running, InReview} ==> forall s {:trigger Siblings(x.runs, run, s)} :: Siblings(x.runs, run, s) ==> x.runs[s].attempt <= x.runs[run].attempt)
  }

  ghost predicate Outstanding(x: Execution, tools: Tools) {
    forall i :: i in tools.invocations ==>
      tools.invocations[i].run in x.runs && (Unsettled(tools.invocations[i].status) ==> HeldBack(x, tools.invocations[i].run))
  }

  lemma OrdinaryHeldBack(x: Execution, y: Execution, run: RunId)
    requires HeldBack(x, run) && Ordinary(x, y) && forall r :: r in x.runs ==> RunKept(x.runs[r], y.runs[r])
    ensures HeldBack(y, run)
  {
    assert RunKept(x.runs[run], y.runs[run]);
    var t := x.runs[run].task;
    assert OrdinaryMove(x.tasks[t], y.tasks[t]);
    forall s | Siblings(y.runs, run, s) && y.tasks[t].status in {Running, InReview} ensures y.runs[s].attempt <= y.runs[run].attempt {
      assert RunKept(x.runs[s], y.runs[s]);
      assert Siblings(x.runs, run, s);
    }
  }

  lemma OrdinaryOutstanding(x: Execution, y: Execution, tools: Tools)
    requires Outstanding(x, tools) && Ordinary(x, y) && forall r :: r in x.runs ==> RunKept(x.runs[r], y.runs[r])
    ensures Outstanding(y, tools)
  {
    forall i | i in tools.invocations && Unsettled(tools.invocations[i].status) ensures HeldBack(y, tools.invocations[i].run) {
      OrdinaryHeldBack(x, y, tools.invocations[i].run);
    }
  }

  /** Only a task with nothing outstanding is rewritten in a way that lets it go on. */
  lemma ReleasedOutstanding(x: Execution, y: Execution, tools: Tools, id: TaskId)
    requires Outstanding(x, tools) && id in x.tasks && !HasUnsettled(tools, RunsOf(x.runs, id))
    requires id in y.tasks && y.tasks == x.tasks[id := y.tasks[id]]
    requires forall r :: r in x.runs ==> r in y.runs && y.runs[r] == x.runs[r]
    requires forall r :: r in y.runs && r !in x.runs ==> y.runs[r].task == id
    ensures Outstanding(y, tools)
  {
    forall i | i in tools.invocations && Unsettled(tools.invocations[i].status) ensures HeldBack(y, tools.invocations[i].run) {
      var run := tools.invocations[i].run;
      assert HeldBack(x, run);
      assert x.runs[run].task == id ==> run in RunsOf(x.runs, id);
      forall s | Siblings(y.runs, run, s) ensures Siblings(x.runs, run, s) {
      }
    }
  }

  lemma AuthoriseOutstanding(db: Database, id: TaskId, t: Task, command: Command)
    requires Outstanding(db.execution, db.tools) && id in db.execution.tasks && t == db.execution.tasks[id]
    ensures var r := Authorise(db, id, t, command); r.Ok? ==> Outstanding(r.value, db.tools)
  {
    var r := Authorise(db, id, t, command);
    if r.Ok? { ReleasedOutstanding(db.execution, r.value, db.tools, id); }
  }

  lemma ResolveOutstanding(x: Execution, evidence: Evidence, tasks: set<TaskId>, tools: Tools)
    requires Outstanding(x, tools)
    ensures Outstanding(ResolveEvidence(x, evidence, tasks), tools)
  {
    OrdinaryOutstanding(x, ResolveEvidence(x, evidence, tasks), tools);
  }

  /** A claimed task was authorised, so nothing of it was outstanding. */
  lemma AuthorisedIsClear(x: Execution, tools: Tools, id: TaskId)
    requires Outstanding(x, tools) && id in x.tasks && (Authorised(x.tasks[id]) || x.tasks[id].status == Done)
    ensures !HasUnsettled(tools, RunsOf(x.runs, id))
  {
    forall i | i in tools.invocations && tools.invocations[i].run in RunsOf(x.runs, id) ensures !Unsettled(tools.invocations[i].status) {
      assert Unsettled(tools.invocations[i].status) ==> HeldBack(x, tools.invocations[i].run);
    }
  }

  lemma ClaimOutstanding(db: Database, now: int, c: Caller, wanted: Option<TaskId>, newId: nat)
    requires Outstanding(db.execution, db.tools) && newId !in db.execution.runs
    ensures var r := ClaimRun(db, now, c, wanted, newId); r.Ok? ==> Outstanding(r.value.execution, db.tools)
  {
    ClaimEffect(db, now, c, wanted, newId);
    var r := ClaimRun(db, now, c, wanted, newId);
    if r.Ok? {
      var id := r.value.task;
      var x := ResolveEvidence(db.execution, db.evidence, {id});
      ResolveOutstanding(db.execution, db.evidence, {id}, db.tools);
      AuthorisedIsClear(x, db.tools, id);
      ReleasedOutstanding(x, r.value.execution, db.tools, id);
    }
  }

  /** Acceptance looks only at the reviewed Run, and that is enough: it is the latest. */
  lemma ReviewedIsClear(x: Execution, tools: Tools, id: TaskId, run: RunId)
    requires Sound(x) && Outstanding(x, tools) && id in x.tasks && x.tasks[id].status == InReview
    requires run in x.runs && x.runs[run].task == id && x.runs[run].attempt == LastAttempt(x.runs, id) && !HasUnsettled(tools, {run})
    ensures !HasUnsettled(tools, RunsOf(x.runs, id))
  {
    LastAttemptIsLast(x.runs, id);
    forall i | i in tools.invocations && tools.invocations[i].run in RunsOf(x.runs, id) ensures !Unsettled(tools.invocations[i].status) {
      var r := tools.invocations[i].run;
      if Unsettled(tools.invocations[i].status) {
        assert HeldBack(x, r) && Siblings(x.runs, r, run);
      }
    }
  }

  lemma AcceptOutstanding(db: Database, now: int, c: Caller, id: TaskId, run: RunId, refs: seq<Reviewed>, checks: seq<bool>, ifMatch: nat)
    requires Sound(db.execution) && Outstanding(db.execution, db.tools)
    ensures var r := ReviewTask(db, now, c, id, run, refs, true, checks, ifMatch); r.Ok? ==> Outstanding(r.value.execution, db.tools)
  {
    var r := ReviewTask(db, now, c, id, run, refs, true, checks, ifMatch);
    ReviewEffect(db, now, c, id, run, refs, true, checks, ifMatch);
    if r.Ok? {
      ReviewedIsClear(db.execution, db.tools, id, run);
      ReleasedOutstanding(db.execution, r.value.execution, db.tools, id);
    }
  }

  lemma LiveRunHeldBack(x: Execution, run: RunId)
    requires Sound(x) && run in x.runs && x.runs[run].status == RunRunning
    ensures HeldBack(x, run)
  {
  }

  lemma QuarantineOutstanding(db: Database)
    requires Outstanding(db.execution, db.tools)
    ensures Outstanding(Quarantine(db).execution, Quarantine(db).tools)
  {
    var q := Quarantine(db);
    assert q.execution.runs.Keys == db.execution.runs.Keys && q.execution.tasks.Keys == db.execution.tasks.Keys;
    forall i | i in q.tools.invocations && Unsettled(q.tools.invocations[i].status) ensures HeldBack(q.execution, q.tools.invocations[i].run) {
      var run := db.tools.invocations[i].run;
      assert HeldBack(db.execution, run);
      forall s | Siblings(q.execution.runs, run, s) ensures Siblings(db.execution.runs, run, s) {
      }
    }
  }
}
