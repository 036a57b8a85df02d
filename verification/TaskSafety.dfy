/** What every task and Run write keeps: one live Run per running task, numbered attempts, rising
    fences, final histories, an acyclic dependency graph.

    Each write is shown to lead from a sound execution to a sound one (`Keeps`) and to rewrite no history
    (`ExecutionAdvances`); `Invariants` puts them together with the rest. */
module TaskSafety {
  import opened Options
  import opened Tables
  import opened Access
  import opened Dependencies
  import opened Snapshots
  import opened TaskFlow
  import opened Delivery
  import opened Recovery

  // --- The invariant of the execution tables -------------------------------------------

  ghost predicate Siblings(runs: map<RunId, TaskRun>, r: RunId, s: RunId) {
    r in runs && s in runs && runs[r].task == runs[s].task
  }

  /** No two Runs of a task share an attempt; fences rise with attempts. */
  ghost predicate Ordered(runs: map<RunId, TaskRun>) {
    forall r, s {:trigger Siblings(runs, r, s)} :: Siblings(runs, r, s) ==>
      && (runs[r].attempt == runs[s].attempt ==> r == s)
      && (runs[r].attempt < runs[s].attempt ==> runs[r].fence < runs[s].fence)
  }

  /** At most one Run of a task is RUNNING, and it is the latest. */
  ghost predicate RunningIsLatest(runs: map<RunId, TaskRun>) {
    forall r, s {:trigger Siblings(runs, r, s)} :: Siblings(runs, r, s) && runs[r].status == RunRunning ==>
      runs[s].attempt <= runs[r].attempt && (runs[s].status == RunRunning ==> r == s)
  }

  ghost predicate Live(runs: map<RunId, TaskRun>, t: TaskId) {
    exists r :: r in runs && runs[r].task == t && runs[r].status == RunRunning
  }

  /** A task is RUNNING exactly when it has a RUNNING Run. */
  ghost predicate RunningAgrees(tasks: map<TaskId, Task>, runs: map<RunId, TaskRun>) {
    && (forall r :: r in runs ==> runs[r].task in tasks && (runs[r].status == RunRunning ==> tasks[runs[r].task].status == Running))
    && (forall t :: t in tasks && tasks[t].status == Running ==> Live(runs, t))
  }

  ghost predicate HasAttempt(runs: map<RunId, TaskRun>, t: TaskId, n: nat) {
    exists r :: r in runs && runs[r].task == t && runs[r].attempt == n
  }

  /** Attempts of a task count 1, 2, 3, ... and stay below the next fence. */
  ghost predicate Counted(runs: map<RunId, TaskRun>, nextFence: nat) {
    && (forall r :: r in runs ==> runs[r].attempt >= 1 && 1 <= runs[r].fence < nextFence)
    && (forall r :: r in runs && runs[r].attempt > 1 ==> HasAttempt(runs, runs[r].task, runs[r].attempt - 1))
  }

  ghost predicate Numbered(runs: map<RunId, TaskRun>, nextFence: nat) {
    Counted(runs, nextFence) && Ordered(runs) && RunningIsLatest(runs)
  }

  /** READY means a person authorised an attempt; a running or reviewed task has used it up. */
  ghost predicate Flagged(tasks: map<TaskId, Task>) {
    forall t :: t in tasks ==>
      && (tasks[t].status == Ready ==> tasks[t].retry)
      && (tasks[t].status in {Running, InReview} ==> !tasks[t].retry)
  }

  ghost predicate Sound(x: Execution) {
    && RunningAgrees(x.tasks, x.runs) && Numbered(x.runs, x.nextFence) && Flagged(x.tasks)
    && Acyclic(Edges(x.dependencies)) && x.nextFence >= 1
  }

  // --- History ---------------------------------------------------------------------------

  /** An ended Run is immutable; a running one changes only its lease, status and version. */
  ghost predicate RunKept(a: TaskRun, b: TaskRun) {
    b == a || (a.status == RunRunning && b == a.(status := b.status, expires := b.expires, version := b.version))
  }

  ghost predicate Finality(a: Task, b: Task) { a.status in {Done, Canceled} ==> b.status == a.status }

  ghost predicate ExecutionAdvances(x: Execution, y: Execution, newIds: set<nat>) {
    && x.tasks.Keys <= y.tasks.Keys <= x.tasks.Keys + newIds
    && x.runs.Keys <= y.runs.Keys <= x.runs.Keys + newIds
    && x.snapshots.Keys <= y.snapshots.Keys <= x.snapshots.Keys + newIds
    && y.dependencies.Keys <= x.dependencies.Keys + newIds
    && (forall t :: t in x.tasks ==> Finality(x.tasks[t], y.tasks[t]))
    && (forall r :: r in x.runs ==> RunKept(x.runs[r], y.runs[r]))
    && (forall s :: s in x.snapshots ==> y.snapshots[s] == x.snapshots[s])
    && x.nextFence <= y.nextFence
  }

  lemma AdvancesTransitively(x: Execution, y: Execution, z: Execution)
    requires ExecutionAdvances(x, y, {}) && ExecutionAdvances(y, z, {})
    ensures ExecutionAdvances(x, z, {})
  {
    forall r | r in x.runs ensures RunKept(x.runs[r], z.runs[r]) {
      assert RunKept(x.runs[r], y.runs[r]) && RunKept(y.runs[r], z.runs[r]);
    }
    forall t | t in x.tasks ensures Finality(x.tasks[t], z.tasks[t]) {
      assert Finality(x.tasks[t], y.tasks[t]) && Finality(y.tasks[t], z.tasks[t]);
    }
  }

  /** What every handler promises when it does not refuse. */
  ghost predicate Keeps(x: Execution, r: Result<Execution>, newIds: set<nat>) {
    r.Ok? ==> Sound(r.value) && ExecutionAdvances(x, r.value, newIds)
  }

  // --- The kinds of change ------------------------------------------------------------------

  /** One task's row is rewritten outside a Run. */
  ghost predicate TaskEdited(x: Execution, y: Execution, id: TaskId, t: Task) {
    && y.tasks == x.tasks[id := t] && y.runs == x.runs && y.nextFence == x.nextFence && y.snapshots == x.snapshots
    && (id in x.tasks && x.tasks[id].status == Running ==> t.status == Running)
    && (t.status == Running ==> id in x.tasks && x.tasks[id].status == Running && !t.retry)
    && (t.status == Ready ==> t.retry) && (t.status == InReview ==> !t.retry)
    && (id in x.tasks ==> Finality(x.tasks[id], t))
  }

  lemma EditedAgrees(x: Execution, y: Execution, id: TaskId, t: Task)
    requires RunningAgrees(x.tasks, x.runs) && TaskEdited(x, y, id, t)
    ensures RunningAgrees(y.tasks, y.runs)
  {
    forall u | u in y.tasks && y.tasks[u].status == Running ensures Live(y.runs, u) {
      assert Live(x.runs, u);
    }
  }

  lemma EditedSound(x: Execution, y: Execution, id: TaskId, t: Task)
    requires Sound(x) && TaskEdited(x, y, id, t) && Acyclic(Edges(y.dependencies))
    ensures Sound(y)
  {
    EditedAgrees(x, y, id, t);
  }

  lemma LiveSurvives(runs: map<RunId, TaskRun>, later: map<RunId, TaskRun>, t: TaskId)
    requires Live(runs, t) && runs.Keys <= later.Keys
    requires forall r :: r in runs && runs[r].task == t ==> later[r].task == t && later[r].status == runs[r].status
    ensures Live(later, t)
  {
    var r :| r in runs && runs[r].task == t && runs[r].status == RunRunning;
    assert r in later && later[r].task == t && later[r].status == RunRunning;
  }

  lemma RenewedAgrees(x: Execution, r: RunId, run: TaskRun)
    requires RunningAgrees(x.tasks, x.runs) && r in x.runs && run.task == x.runs[r].task && run.status == x.runs[r].status
    ensures RunningAgrees(x.tasks, x.runs[r := run])
  {
    forall t | t in x.tasks && x.tasks[t].status == Running ensures Live(x.runs[r := run], t) {
      LiveSurvives(x.runs, x.runs[r := run], t);
    }
  }

  /** The same Runs, possibly with other standings: fewer of them RUNNING. */
  ghost predicate SameIdentities(runs: map<RunId, TaskRun>, later: map<RunId, TaskRun>) {
    && later.Keys == runs.Keys
    && forall r :: r in runs ==>
         && later[r].task == runs[r].task && later[r].attempt == runs[r].attempt && later[r].fence == runs[r].fence
         && (later[r].status == RunRunning ==> runs[r].status == RunRunning)
  }

  lemma SameCounted(runs: map<RunId, TaskRun>, later: map<RunId, TaskRun>, nextFence: nat)
    requires Counted(runs, nextFence) && SameIdentities(runs, later)
    ensures Counted(later, nextFence)
  {
    forall r | r in later && later[r].attempt > 1 ensures HasAttempt(later, later[r].task, later[r].attempt - 1) {
      assert HasAttempt(runs, runs[r].task, runs[r].attempt - 1);
      var s :| s in runs && runs[s].task == runs[r].task && runs[s].attempt == runs[r].attempt - 1;
      assert s in later && later[s].task == later[r].task && later[s].attempt == later[r].attempt - 1;
    }
  }

  lemma SameOrdered(runs: map<RunId, TaskRun>, later: map<RunId, TaskRun>)
    requires Ordered(runs) && RunningIsLatest(runs) && SameIdentities(runs, later)
    ensures Ordered(later) && RunningIsLatest(later)
  {
    forall r, s | Siblings(later, r, s) ensures Siblings(runs, r, s) {
    }
  }

  /** Numbering depends on identities only, and on which Runs are RUNNING only by their getting fewer. */
  lemma SameNumbers(runs: map<RunId, TaskRun>, later: map<RunId, TaskRun>, nextFence: nat)
    requires Numbered(runs, nextFence) && SameIdentities(runs, later)
    ensures Numbered(later, nextFence)
  {
    SameCounted(runs, later, nextFence);
    SameOrdered(runs, later);
  }

  lemma RunRowNumbers(runs: map<RunId, TaskRun>, r: RunId, run: TaskRun, nextFence: nat)
    requires Numbered(runs, nextFence) && r in runs && run.task == runs[r].task && run.attempt == runs[r].attempt && run.fence == runs[r].fence
    requires run.status == RunRunning ==> runs[r].status == RunRunning
    ensures Numbered(runs[r := run], nextFence)
  {
    SameNumbers(runs, runs[r := run], nextFence);
  }

  /** A live Run is renewed without changing its status. */
  lemma RenewedSound(x: Execution, r: RunId, run: TaskRun)
    requires Sound(x) && r in x.runs && x.runs[r].status == RunRunning && run == x.runs[r].(expires := run.expires, version := run.version)
    ensures Keeps(x, Ok(x.(runs := x.runs[r := run])), {})
  {
    var y := x.(runs := x.runs[r := run]);
    RenewedAgrees(x, r, run);
    RunRowNumbers(x.runs, r, run, x.nextFence);
    assert Sound(y);
  }

  /** A live Run ends and its task leaves RUNNING. */
  ghost predicate RunEnded(x: Execution, y: Execution, r: RunId, run: TaskRun, t: Task) {
    && r in x.runs && x.runs[r].status == RunRunning && run.status != RunRunning
    && run == x.runs[r].(status := run.status, version := run.version)
    && y == x.(runs := x.runs[r := run], tasks := x.tasks[run.task := t])
    && t.status != Running && t.status != Ready && !t.retry
  }

  lemma EndedAgrees(x: Execution, r: RunId, run: TaskRun, t: Task)
    requires RunningAgrees(x.tasks, x.runs) && RunningIsLatest(x.runs) && r in x.runs && x.runs[r].status == RunRunning
    requires run.task == x.runs[r].task && run.status != RunRunning && t.status != Running
    ensures RunningAgrees(x.tasks[run.task := t], x.runs[r := run])
  {
    var tasks, runs := x.tasks[run.task := t], x.runs[r := run];
    forall s | s in runs && runs[s].status == RunRunning ensures tasks[runs[s].task].status == Running {
      assert runs[s].task == run.task ==> Siblings(x.runs, r, s);
    }
    forall u | u in tasks && tasks[u].status == Running ensures Live(runs, u) {
      LiveSurvives(x.runs, runs, u);
    }
  }

  lemma EndedAdvances(x: Execution, y: Execution, r: RunId, run: TaskRun, t: Task)
    requires RunningAgrees(x.tasks, x.runs) && RunEnded(x, y, r, run, t)
    ensures ExecutionAdvances(x, y, {})
  {
  }

  lemma EndedSound(x: Execution, y: Execution, r: RunId, run: TaskRun, t: Task)
    requires Sound(x) && RunEnded(x, y, r, run, t)
    ensures Keeps(x, Ok(y), {})
  {
    EndedAgrees(x, r, run, t);
    RunRowNumbers(x.runs, r, run, x.nextFence);
    EndedAdvances(x, y, r, run, t);
  }

  // --- Evidence resolution touches only the dependencies' resolutions -----------------------

  lemma ResolveKeepsEdges(x: Execution, evidence: Evidence, tasks: set<TaskId>)
    ensures var y := ResolveEvidence(x, evidence, tasks);
            y.dependencies.Keys == x.dependencies.Keys && Edges(y.dependencies) == Edges(x.dependencies)
  {
    var y := ResolveEvidence(x, evidence, tasks);
    forall d | d in x.dependencies
      ensures y.dependencies[d].predecessor == x.dependencies[d].predecessor && y.dependencies[d].successor == x.dependencies[d].successor
    {
    }
    forall e ensures e in Edges(y.dependencies) <==> e in Edges(x.dependencies) {
      if e in Edges(y.dependencies) {
        var d :| d in y.dependencies && (y.dependencies[d].predecessor, y.dependencies[d].successor) == e;
        assert (x.dependencies[d].predecessor, x.dependencies[d].successor) == e;
      }
      if e in Edges(x.dependencies) {
        var d :| d in x.dependencies && (x.dependencies[d].predecessor, x.dependencies[d].successor) == e;
        assert (y.dependencies[d].predecessor, y.dependencies[d].successor) == e;
      }
    }
  }

  // --- Every task write, one by one -----------------------------------------------------------

  lemma EditKeeps(x: Execution, y: Execution, id: TaskId, t: Task, newIds: set<nat>)
    requires Sound(x) && TaskEdited(x, y, id, t) && Acyclic(Edges(y.dependencies))
    requires y.dependencies.Keys <= x.dependencies.Keys + newIds && (id in x.tasks || id in newIds)
    ensures Keeps(x, Ok(y), newIds)
  {
    EditedSound(x, y, id, t);
  }

  lemma CreateKeeps(db: Database, now: int, c: Caller, owner: UserId, repository: nat, versions: seq<VersionId>, criteria: nat, newId: nat)
    requires Sound(db.execution) && newId !in db.execution.tasks
    ensures Keeps(db.execution, CreateTask(db, now, c, owner, repository, versions, criteria, newId), {newId})
  {
    var r := CreateTask(db, now, c, owner, repository, versions, criteria, newId);
    if r.Ok? { EditKeeps(db.execution, r.value, newId, r.value.tasks[newId], {newId}); }
  }

  lemma EditTaskKeeps(db: Database, now: int, c: Caller, id: TaskId, repository: nat, versions: seq<VersionId>, criteria: nat, ifMatch: nat)
    requires Sound(db.execution)
    ensures Keeps(db.execution, EditTask(db, now, c, id, repository, versions, criteria, ifMatch), {})
  {
    var r := EditTask(db, now, c, id, repository, versions, criteria, ifMatch);
    if r.Ok? { EditKeeps(db.execution, r.value, id, r.value.tasks[id], {}); }
  }

  lemma TransferKeeps(db: Database, now: int, c: Caller, id: TaskId, owner: UserId, ifMatch: nat)
    requires Sound(db.execution)
    ensures Keeps(db.execution, TransferTask(db, now, c, id, owner, ifMatch), {})
  {
    var r := TransferTask(db, now, c, id, owner, ifMatch);
    if r.Ok? { EditKeeps(db.execution, r.value, id, r.value.tasks[id], {}); }
  }

  lemma AssignKeeps(db: Database, now: int, c: Caller, id: TaskId, target: Target, ifMatch: nat)
    requires Sound(db.execution)
    ensures Keeps(db.execution, AssignTask(db, now, c, id, target, ifMatch), {})
  {
    var r := AssignTask(db, now, c, id, target, ifMatch);
    if r.Ok? { EditKeeps(db.execution, r.value, id, r.value.tasks[id], {}); }
  }

  lemma EdgesAdded(before: map<DependencyId, Dependency>, newId: DependencyId, d: Dependency)
    requires newId !in before
    ensures Edges(before[newId := d]) == Edges(before) + {(d.predecessor, d.successor)}
  {
    var after := before[newId := d];
    forall e | e in Edges(before) ensures e in Edges(after) {
      var k :| k in before && (before[k].predecessor, before[k].successor) == e;
      assert k in after && after[k] == before[k];
    }
    assert newId in after && after[newId] == d;
  }

  lemma WithDependencyEdges(db: Database, id: TaskId, d: Dependency, newId: DependencyId)
    requires id in db.execution.tasks && newId !in db.execution.dependencies
    ensures Edges(WithDependency(db, id, d, newId).dependencies) == Edges(db.execution.dependencies) + {(d.predecessor, d.successor)}
    ensures WithDependency(db, id, d, newId).dependencies.Keys == db.execution.dependencies.Keys + {newId}
  {
    EdgesAdded(db.execution.dependencies, newId, d);
    ResolveKeepsEdges(db.execution.(dependencies := db.execution.dependencies[newId := d]), db.evidence, {id});
  }

  lemma WithDependencyEdits(db: Database, id: TaskId, d: Dependency, newId: DependencyId)
    requires id in db.execution.tasks && Editable(db.execution.tasks[id]) && Flagged(db.execution.tasks)
    ensures var y := WithDependency(db, id, d, newId); id in y.tasks && TaskEdited(db.execution, y, id, y.tasks[id])
  {
  }

  lemma AddDependencyKeeps(db: Database, now: int, c: Caller, id: TaskId, predecessor: TaskId, condition: Condition, ifMatch: nat, newId: nat)
    requires Sound(db.execution) && newId !in db.execution.dependencies
    ensures Keeps(db.execution, AddDependency(db, now, c, id, predecessor, condition, ifMatch, newId), {newId})
  {
    var r := AddDependency(db, now, c, id, predecessor, condition, ifMatch, newId);
    if r.Ok? {
      var d := Dependency(predecessor, id, condition, None);
      WithDependencyEdges(db, id, d, newId);
      WithDependencyEdits(db, id, d, newId);
      AcyclicWithEdgeIff(Edges(db.execution.dependencies), (predecessor, id));
      EditKeeps(db.execution, r.value, id, r.value.tasks[id], {newId});
    }
  }

  lemma RemoveDependencyKeeps(db: Database, now: int, c: Caller, id: TaskId, dependency: DependencyId, ifMatch: nat)
    requires Sound(db.execution)
    ensures Keeps(db.execution, RemoveDependency(db, now, c, id, dependency, ifMatch), {})
  {
    var r := RemoveDependency(db, now, c, id, dependency, ifMatch);
    if r.Ok? {
      FewerEdgesAcyclic(Edges(db.execution.dependencies), Edges(r.value.dependencies));
      EditKeeps(db.execution, r.value, id, r.value.tasks[id], {});
    }
  }

  lemma AuthoriseKeeps(db: Database, id: TaskId, t: Task, command: Command)
    requires Sound(db.execution) && id in db.execution.tasks && t == db.execution.tasks[id]
    ensures Keeps(db.execution, Authorise(db, id, t, command), {})
  {
    var r := Authorise(db, id, t, command);
    if r.Ok? {
      ResolveKeepsEdges(db.execution, db.evidence, {id});
      EditKeeps(db.execution, r.value, id, r.value.tasks[id], {});
    }
  }

  lemma CancelKeeps(db: Database, id: TaskId, t: Task)
    requires Sound(db.execution) && id in db.execution.tasks && t == db.execution.tasks[id]
    ensures Keeps(db.execution, CancelTask(db, id, t), {})
  {
    var r := CancelTask(db, id, t);
    if r.Ok? {
      var x := db.execution;
      var live := LiveRuns(x, id);
      if live == {} {
        assert forall s :: s in x.runs && x.runs[s].task == id && x.runs[s].status == RunRunning ==> s in live;
        assert t.status != Running;
        EditKeeps(x, r.value, id, r.value.tasks[id], {});
      } else {
        var s := LeastOf(live);
        assert s in live;
        EndedSound(x, r.value, s, r.value.runs[s], r.value.tasks[id]);
      }
    }
  }

  lemma CommandKeeps(db: Database, now: int, c: Caller, id: TaskId, command: Command, ifMatch: nat)
    requires Sound(db.execution)
    ensures Keeps(db.execution, CommandTask(db, now, c, id, command, ifMatch), {})
  {
    var r := CommandTask(db, now, c, id, command, ifMatch);
    if r.Ok? {
      var t := db.execution.tasks[id];
      match command
      case Submit => AuthoriseKeeps(db, id, t, command);
      case Retry => AuthoriseKeeps(db, id, t, command);
      case Cancel => CancelKeeps(db, id, t);
      case Archive => EditKeeps(db.execution, r.value, id, r.value.tasks[id], {});
      case Restore => EditKeeps(db.execution, r.value, id, r.value.tasks[id], {});
    }
  }

  // --- Runs -------------------------------------------------------------------------------

  lemma HeartbeatKeeps(db: Database, now: int, c: Caller, id: RunId, fence: nat, ifMatch: nat)
    requires Sound(db.execution)
    ensures Keeps(db.execution, HeartbeatRun(db, now, c, id, fence, ifMatch), {})
  {
    var r := HeartbeatRun(db, now, c, id, fence, ifMatch);
    if r.Ok? { RenewedSound(db.execution, id, r.value.runs[id]); }
  }

  lemma ReportKeeps(db: Database, now: int, c: Caller, id: RunId, report: Report, fence: nat, ifMatch: nat)
    requires Sound(db.execution)
    ensures Keeps(db.execution, ReportRun(db, now, c, id, report, fence, ifMatch), {})
  {
    var x, r := db.execution, ReportRun(db, now, c, id, report, fence, ifMatch);
    if r.Ok? {
      if report.Progress? {
        RenewedSound(x, id, r.value.runs[id]);
      } else {
        EndedSound(x, r.value, id, r.value.runs[id], r.value.tasks[x.runs[id].task]);
      }
    }
  }

  lemma LastAttemptIsLast(runs: map<RunId, TaskRun>, t: TaskId)
    ensures forall r :: r in runs && runs[r].task == t ==> runs[r].attempt <= LastAttempt(runs, t)
    ensures LastAttempt(runs, t) > 0 ==> HasAttempt(runs, t, LastAttempt(runs, t))
  {
    var attempts := set r | r in runs && runs[r].task == t :: runs[r].attempt;
    forall r | r in runs && runs[r].task == t ensures runs[r].attempt <= LastAttempt(runs, t) {
      assert runs[r].attempt in attempts;
    }
  }

  lemma ClaimOrdered(runs: map<RunId, TaskRun>, nextFence: nat, newId: RunId, run: TaskRun)
    requires Numbered(runs, nextFence) && newId !in runs
    requires run.attempt == LastAttempt(runs, run.task) + 1 && run.fence == nextFence
    requires forall r :: r in runs && runs[r].task == run.task ==> runs[r].status != RunRunning
    ensures Ordered(runs[newId := run]) && RunningIsLatest(runs[newId := run])
  {
    LastAttemptIsLast(runs, run.task);
    var later := runs[newId := run];
    forall r, s | Siblings(later, r, s)
      ensures (later[r].attempt == later[s].attempt ==> r == s) && (later[r].attempt < later[s].attempt ==> later[r].fence < later[s].fence)
      ensures later[r].status == RunRunning ==> later[s].attempt <= later[r].attempt && (later[s].status == RunRunning ==> r == s)
    {
      if r != newId && s != newId { assert Siblings(runs, r, s); }
    }
  }

  lemma ClaimCounted(runs: map<RunId, TaskRun>, nextFence: nat, newId: RunId, run: TaskRun)
    requires Counted(runs, nextFence) && newId !in runs && nextFence >= 1
    requires run.attempt == LastAttempt(runs, run.task) + 1 && run.fence == nextFence
    ensures Counted(runs[newId := run], nextFence + 1)
  {
    var later := runs[newId := run];
    LastAttemptIsLast(runs, run.task);
    forall r | r in later && later[r].attempt > 1 ensures HasAttempt(later, later[r].task, later[r].attempt - 1) {
      assert HasAttempt(runs, later[r].task, later[r].attempt - 1);
      var s :| s in runs && runs[s].task == later[r].task && runs[s].attempt == later[r].attempt - 1;
      assert s in later && later[s].task == later[r].task && later[s].attempt == later[r].attempt - 1;
    }
  }

  /** The next Run of a task: one attempt more than the last, under a fence higher than all. */
  lemma ClaimNumbered(runs: map<RunId, TaskRun>, nextFence: nat, newId: RunId, run: TaskRun)
    requires Numbered(runs, nextFence) && newId !in runs && nextFence >= 1
    requires run.attempt == LastAttempt(runs, run.task) + 1 && run.fence == nextFence
    requires forall r :: r in runs && runs[r].task == run.task ==> runs[r].status != RunRunning
    ensures Numbered(runs[newId := run], nextFence + 1)
  {
    ClaimCounted(runs, nextFence, newId, run);
    ClaimOrdered(runs, nextFence, newId, run);
  }

  lemma ClaimAgrees(x: Execution, id: TaskId, t: Task, newId: RunId, run: TaskRun)
    requires RunningAgrees(x.tasks, x.runs) && id in x.tasks && x.tasks[id].status != Running && newId !in x.runs
    requires t.status == Running && run.task == id && run.status == RunRunning
    ensures RunningAgrees(x.tasks[id := t], x.runs[newId := run])
  {
    var tasks, runs := x.tasks[id := t], x.runs[newId := run];
    forall u | u in tasks && tasks[u].status == Running ensures Live(runs, u) {
      if u == id { assert runs[newId].task == u; } else { LiveSurvives(x.runs, runs, u); }
    }
  }

  lemma ClaimedAdvances(x: Execution, id: TaskId, snapshot: Snapshot, session: SessionId, user: UserId, now: int, newId: RunId)
    requires id in x.tasks && x.tasks[id].status == Ready && newId !in x.runs && newId !in x.snapshots
    ensures ExecutionAdvances(x, Claimed(x, id, snapshot, session, user, now, newId), {newId})
  {
  }

  lemma ClaimedSound(x: Execution, id: TaskId, snapshot: Snapshot, session: SessionId, user: UserId, now: int, newId: RunId)
    requires Sound(x) && id in x.tasks && x.tasks[id].status == Ready && newId !in x.runs && newId !in x.snapshots
    ensures Keeps(x, Ok(Claimed(x, id, snapshot, session, user, now, newId)), {newId})
  {
    var y := Claimed(x, id, snapshot, session, user, now, newId);
    ClaimAgrees(x, id, y.tasks[id], newId, y.runs[newId]);
    ClaimNumbered(x.runs, x.nextFence, newId, y.runs[newId]);
    assert Flagged(y.tasks);
    assert Sound(y);
    ClaimedAdvances(x, id, snapshot, session, user, now, newId);
  }

  lemma ResolveKeeps(x: Execution, evidence: Evidence, tasks: set<TaskId>)
    requires Sound(x)
    ensures Keeps(x, Ok(ResolveEvidence(x, evidence, tasks)), {})
  {
    ResolveKeepsEdges(x, evidence, tasks);
  }

  /** What a successful claim is: an authorised READY task, its evidence resolved, its inputs frozen, and a
      Run of the calling Session for the person behind it. */
  lemma ClaimEffect(db: Database, now: int, c: Caller, wanted: Option<TaskId>, newId: nat)
    ensures var r := ClaimRun(db, now, c, wanted, newId);
            r.Ok? ==>
              && c.Agent? && c.session in db.sessions && r.value.task in db.execution.tasks
              && db.execution.tasks[r.value.task].status == Ready && db.execution.tasks[r.value.task].retry
              && var x := ResolveEvidence(db.execution, db.evidence, {r.value.task});
                 && FreezeSnapshot(db.env, x, db.evidence, r.value.task).Ok?
                 && r.value.execution == Claimed(x, r.value.task, FreezeSnapshot(db.env, x, db.evidence, r.value.task).value,
                                                 c.session, db.sessions[c.session].human, now, newId)
  {
    var r := ClaimRun(db, now, c, wanted, newId);
    if r.Ok? { ClaimTaskEffect(db, now, c.session, db.sessions[c.session].human, r.value.task, newId); }
  }

  lemma ClaimTaskEffect(db: Database, now: int, session: SessionId, user: UserId, id: TaskId, newId: nat)
    requires id in db.execution.tasks
    ensures var r := ClaimTask(db, now, session, user, id, newId);
            var x := ResolveEvidence(db.execution, db.evidence, {id});
            r.Ok? ==>
              && FreezeSnapshot(db.env, x, db.evidence, id).Ok?
              && r.value == Claimed(x, id, FreezeSnapshot(db.env, x, db.evidence, id).value, session, user, now, newId)
  {
  }

  lemma ClaimKeeps(db: Database, now: int, c: Caller, wanted: Option<TaskId>, newId: nat)
    requires Sound(db.execution) && newId !in db.execution.runs && newId !in db.execution.snapshots
    ensures var r := ClaimRun(db, now, c, wanted, newId);
            r.Ok? ==> Keeps(db.execution, Ok(r.value.execution), {newId})
  {
    ClaimEffect(db, now, c, wanted, newId);
    var r := ClaimRun(db, now, c, wanted, newId);
    if r.Ok? {
      var id := r.value.task;
      var x := ResolveEvidence(db.execution, db.evidence, {id});
      ResolveKeeps(db.execution, db.evidence, {id});
      ClaimedSound(x, id, FreezeSnapshot(db.env, x, db.evidence, id).value, c.session, db.sessions[c.session].human, now, newId);
    }
  }

  /** What an accepted or returned task review does to the tables. */
  lemma ReviewEffect(db: Database, now: int, c: Caller, id: TaskId, run: RunId, refs: seq<Reviewed>, accept: bool, checks: seq<bool>, ifMatch: nat)
    ensures var r := ReviewTask(db, now, c, id, run, refs, accept, checks, ifMatch);
            r.Ok? ==>
              && id in db.execution.tasks && db.execution.tasks[id].status == InReview
              && run in db.execution.runs && db.execution.runs[run].task == id && db.execution.runs[run].status == RunSucceeded
              && db.execution.runs[run].attempt == LastAttempt(db.execution.runs, id)
              && (accept ==> !HasUnsettled(db.tools, {run}))
              && r.value.execution == PutTask(db.execution, id, db.execution.tasks[id].(status := if accept then Done else Blocked, retry := false))
  {
  }

  lemma ReviewKeeps(db: Database, now: int, c: Caller, id: TaskId, run: RunId, refs: seq<Reviewed>, accept: bool, checks: seq<bool>, ifMatch: nat)
    requires Sound(db.execution)
    ensures var r := ReviewTask(db, now, c, id, run, refs, accept, checks, ifMatch);
            r.Ok? ==> Keeps(db.execution, Ok(r.value.execution), {})
  {
    ReviewEffect(db, now, c, id, run, refs, accept, checks, ifMatch);
    ReturnedKeeps(db.execution, id, accept);
  }

  lemma ReturnedKeeps(x: Execution, id: TaskId, accept: bool)
    requires Sound(x)
    ensures id in x.tasks && x.tasks[id].status == InReview ==>
              Keeps(x, Ok(PutTask(x, id, x.tasks[id].(status := if accept then Done else Blocked, retry := false))), {})
  {
    if id in x.tasks && x.tasks[id].status == InReview {
      var y := PutTask(x, id, x.tasks[id].(status := if accept then Done else Blocked, retry := false));
      EditKeeps(x, y, id, y.tasks[id], {});
    }
  }

  // --- The worker --------------------------------------------------------------------------

  lemma CloseRunKeeps(x: Execution, r: RunId)
    requires Sound(x) && r in x.runs && x.runs[r].status == RunRunning
    ensures Keeps(x, Ok(CloseRun(x, r)), {})
  {
    EndedSound(x, CloseRun(x, r), r, CloseRun(x, r).runs[r], CloseRun(x, r).tasks[x.runs[r].task]);
  }

  /** Live Runs, each named once. */
  ghost predicate AllLive(x: Execution, order: seq<RunId>) {
    && (forall r :: r in order ==> r in x.runs && x.runs[r].status == RunRunning)
    && (forall i, j :: 0 <= i < j < |order| ==> order[i] != order[j])
  }

  lemma CloseRunLeavesOthers(x: Execution, order: seq<RunId>)
    requires order != [] && AllLive(x, order)
    ensures AllLive(CloseRun(x, order[0]), order[1..])
  {
    forall r | r in order[1..] ensures r != order[0] {
      var i :| 1 <= i < |order| && order[i] == r;
    }
  }

  lemma KeepsTransitively(x: Execution, y: Execution, z: Execution)
    requires Keeps(x, Ok(y), {}) && Keeps(y, Ok(z), {})
    ensures Keeps(x, Ok(z), {})
  {
    AdvancesTransitively(x, y, z);
  }

  lemma {:induction false} CloseRunsKeep(x: Execution, order: seq<RunId>)
    requires Sound(x) && AllLive(x, order)
    ensures Keeps(x, Ok(CloseRuns(x, order)), {})
    decreases |order|
  {
    if order == [] {
      NoChangeKeeps(x);
    } else {
      CloseRunKeeps(x, order[0]);
      CloseRunLeavesOthers(x, order);
      CloseRunsKeep(CloseRun(x, order[0]), order[1..]);
      KeepsTransitively(x, CloseRun(x, order[0]), CloseRuns(x, order));
    }
  }

  lemma NoChangeKeeps(x: Execution)
    requires Sound(x)
    ensures Keeps(x, Ok(x), {})
  {
  }

  lemma RecheckKeeps(env: Environment, evidence: Evidence, x: Execution, id: TaskId)
    requires Sound(x) && id in x.tasks && x.tasks[id].status == Blocked && x.tasks[id].retry
    ensures Keeps(x, Ok(Recheck(env, evidence, x, id)), {})
  {
    ResolveKeeps(x, evidence, {id});
    var resolved, y := ResolveEvidence(x, evidence, {id}), Recheck(env, evidence, x, id);
    if TaskReady(env, resolved, evidence, id) {
      EditKeeps(resolved, y, id, y.tasks[id], {});
      AdvancesTransitively(x, resolved, y);
    }
  }

  ghost predicate AllWaiting(x: Execution, order: seq<TaskId>) {
    && (forall t :: t in order ==> t in x.tasks && x.tasks[t].status == Blocked && x.tasks[t].retry)
    && (forall i, j :: 0 <= i < j < |order| ==> order[i] != order[j])
  }

  lemma RecheckLeavesOthers(env: Environment, evidence: Evidence, x: Execution, order: seq<TaskId>)
    requires order != [] && AllWaiting(x, order)
    ensures AllWaiting(Recheck(env, evidence, x, order[0]), order[1..])
  {
    forall t | t in order[1..] ensures t != order[0] {
      var i :| 1 <= i < |order| && order[i] == t;
    }
  }

  lemma {:induction false} RecheckAllKeeps(env: Environment, evidence: Evidence, x: Execution, order: seq<TaskId>)
    requires Sound(x) && AllWaiting(x, order)
    ensures Keeps(x, Ok(RecheckAll(env, evidence, x, order)), {})
    decreases |order|
  {
    if order == [] {
      NoChangeKeeps(x);
    } else {
      var y := Recheck(env, evidence, x, order[0]);
      RecheckKeeps(env, evidence, x, order[0]);
      RecheckLeavesOthers(env, evidence, x, order);
      RecheckAllKeeps(env, evidence, y, order[1..]);
      KeepsTransitively(x, y, RecheckAll(env, evidence, x, order));
    }
  }

  lemma ReconcileKeeps(db: Database, now: int)
    requires Sound(db.execution)
    ensures Keeps(db.execution, Ok(ReconcileProject(db, now)), {})
  {
    if !db.gate.maintenance {
      var order := Ascending(LostRuns(db, now));
      CloseRunsKeep(db.execution, order);
      var closed := CloseRuns(db.execution, order);
      RecheckAllKeeps(db.env, db.evidence, closed, Ascending(Waiting(closed)));
      KeepsTransitively(db.execution, closed, ReconcileProject(db, now));
    } else {
      NoChangeKeeps(db.execution);
    }
  }

  // --- Restore -----------------------------------------------------------------------------

  lemma QuarantineSound(db: Database)
    requires Sound(db.execution)
    ensures Sound(Quarantine(db).execution)
  {
    var x, y := db.execution, Quarantine(db).execution;
    SameNumbers(x.runs, y.runs, x.nextFence);
  }
}
