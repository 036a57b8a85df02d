/** What people may do to a task and its inputs - exactly when - and what each of it leaves behind. */
module TaskWrites {
  import opened Options
  import opened Tables
  import opened Access
  import opened Dependencies
  import opened Snapshots
  import opened TaskFlow
  import opened ControlPlane
  import opened TaskSafety
  import opened EvidenceSafety
  import opened Readiness
  import Decisions

  // --- Inputs ---------------------------------------------------------------------------

  /** Versions that exist - published ones, once the task has been made - and no two of one Context. */
  ghost predicate Selectable(env: Environment, versions: seq<VersionId>, published: bool) {
    && (forall i :: 0 <= i < |versions| ==> versions[i] in env.versions && (published ==> env.versions[versions[i]].published))
    && (forall i, j :: 0 <= i < j < |versions| ==> env.versions[versions[i]].context != env.versions[versions[j]].context)
  }

  ghost predicate Picks(env: Environment, versions: seq<VersionId>, c: ContextId) {
    exists i :: 0 <= i < |versions| && versions[i] in env.versions && env.versions[versions[i]].context == c
  }

  /** The Contexts of the versions, each with its version, added to those chosen before. */
  ghost predicate Chosen(env: Environment, versions: seq<VersionId>, before: map<ContextId, VersionId>, after: map<ContextId, VersionId>) {
    && (forall c :: c in after <==> c in before || Picks(env, versions, c)) && (forall c :: c in before ==> after[c] == before[c])
    && forall i :: 0 <= i < |versions| && versions[i] in env.versions ==> after[env.versions[versions[i]].context] == versions[i]
  }

  /** The versions are selectable, on top of those chosen before. */
  ghost predicate Addable(env: Environment, versions: seq<VersionId>, published: bool, chosen: map<ContextId, VersionId>) {
    Selectable(env, versions, published) && forall i :: 0 <= i < |versions| ==> env.versions[versions[i]].context !in chosen
  }

  lemma FirstOfChoice(env: Environment, versions: seq<VersionId>, published: bool, chosen: map<ContextId, VersionId>)
    requires versions != []
    ensures var v := versions[0];
            Addable(env, versions, published, chosen) <==>
              && v in env.versions && (published ==> env.versions[v].published) && env.versions[v].context !in chosen
              && Addable(env, versions[1..], published, chosen[env.versions[v].context := v])
  {
    var v, rest := versions[0], versions[1..];
    assert forall i :: 0 <= i < |rest| ==> rest[i] == versions[i + 1];
    if v in env.versions && Addable(env, rest, published, chosen[env.versions[v].context := v]) {
      forall i | 0 < i < |versions| ensures env.versions[versions[i]].context !in chosen && env.versions[versions[i]].context != env.versions[v].context {
        assert env.versions[rest[i - 1]].context !in chosen[env.versions[v].context := v];
      }
      if published ==> env.versions[v].published {
        forall i, j | 0 <= i < j < |versions| ensures env.versions[versions[i]].context != env.versions[versions[j]].context {
          if i > 0 { assert env.versions[rest[i - 1]].context != env.versions[rest[j - 1]].context; }
        }
      }
    }
  }

  lemma FirstChosen(env: Environment, versions: seq<VersionId>, chosen: map<ContextId, VersionId>, after: map<ContextId, VersionId>)
    requires versions != [] && versions[0] in env.versions && env.versions[versions[0]].context !in chosen
    requires Chosen(env, versions[1..], chosen[env.versions[versions[0]].context := versions[0]], after)
    ensures Chosen(env, versions, chosen, after)
  {
    var rest := versions[1..];
    forall c ensures Picks(env, versions, c) <==> c == env.versions[versions[0]].context || Picks(env, rest, c) {
      if Picks(env, versions, c) {
        var i :| 0 <= i < |versions| && versions[i] in env.versions && env.versions[versions[i]].context == c;
        if i > 0 { assert rest[i - 1] == versions[i]; }
      }
      if Picks(env, rest, c) {
        var i :| 0 <= i < |rest| && rest[i] in env.versions && env.versions[rest[i]].context == c;
        assert versions[i + 1] == rest[i];
      }
    }
    forall i | 0 <= i < |versions| && versions[i] in env.versions ensures after[env.versions[versions[i]].context] == versions[i] {
      if i > 0 { assert rest[i - 1] == versions[i]; }
    }
  }

  lemma {:induction false} ChoiceMeans(env: Environment, versions: seq<VersionId>, published: bool, chosen: map<ContextId, VersionId>)
    ensures var r := Choose(env, versions, published, chosen);
            if Addable(env, versions, published, chosen) then r.Ok? && Chosen(env, versions, chosen, r.value) else r.Err?
  {
    if versions != [] {
      var v := versions[0];
      FirstOfChoice(env, versions, published, chosen);
      if v in env.versions && (published ==> env.versions[v].published) && env.versions[v].context !in chosen {
        var more := chosen[env.versions[v].context := v];
        ChoiceMeans(env, versions[1..], published, more);
        var r := Choose(env, versions[1..], published, more);
        if r.Ok? { FirstChosen(env, versions, chosen, r.value); }
      }
    }
  }

  ghost predicate Changeable(t: Task) { t.status in {Draft, Ready, Blocked} }

  /** What is being changed does not run. */
  lemma ChangeableIsIdle(x: Execution, t: TaskId)
    requires Sound(x) && t in x.tasks && Changeable(x.tasks[t])
    ensures !HasLiveRun(x, t)
  {
  }

  ghost predicate MayCreate(db: Database, c: Caller, owner: UserId, repository: nat, versions: seq<VersionId>) {
    Decisions.PersonActs(db, c, Member, false) && ActiveMember(db.env, owner) && repository in db.env.repositories && Selectable(db.env, versions, false)
  }

  lemma CreationMeans(db: Database, now: int, c: Caller, owner: UserId, repository: nat, versions: seq<VersionId>, criteria: nat, newId: TaskId)
    ensures var r := CreateTask(db, now, c, owner, repository, versions, criteria, newId);
            if MayCreate(db, c, owner, repository, versions)
            then r.Ok? && newId in r.value.tasks && var contexts := r.value.tasks[newId].contexts;
                 && Chosen(db.env, versions, map[], contexts)
                 && r.value == db.execution.(tasks := db.execution.tasks[newId := Task(owner, repository, Draft, false, true, criteria, contexts, 1)])
            else r.Err?
  {
    AdmittedIff(db, now, c, BY_CONTRIBUTOR);
    ChoiceMeans(db.env, versions, false, map[]);
  }

  /** The task's row is the only one to change, and it is one version on. */
  ghost predicate TaskBecomes(x: Execution, y: Execution, id: TaskId, t: Task) {
    id in x.tasks && y.tasks == x.tasks[id := t.(version := x.tasks[id].version + 1)] && y.runs == x.runs
  }

  ghost predicate MayEdit(db: Database, c: Caller, id: TaskId, repository: nat, versions: seq<VersionId>, ifMatch: nat) {
    && MayWrite(db, c, id, ifMatch) && Changeable(db.execution.tasks[id]) && !db.execution.tasks[id].archived
    && repository in db.env.repositories && Selectable(db.env, versions, true)
  }

  /** Whoever edits a task takes it back to a draft that nobody has authorised. */
  lemma EditMeans(db: Database, now: int, c: Caller, id: TaskId, repository: nat, versions: seq<VersionId>, criteria: nat, ifMatch: nat)
    requires Sound(db.execution)
    ensures var r := EditTask(db, now, c, id, repository, versions, criteria, ifMatch);
            if MayEdit(db, c, id, repository, versions, ifMatch)
            then r.Ok? && id in r.value.tasks && var contexts := r.value.tasks[id].contexts;
                 && Chosen(db.env, versions, map[], contexts) && r.value == db.execution.(tasks := r.value.tasks)
                 && TaskBecomes(db.execution, r.value, id, Task(db.execution.tasks[id].owner, repository, Draft, false, false, criteria, contexts, 0))
            else r.Err?
  {
    OwnedIff(db, now, c, id, ifMatch);
    ChoiceMeans(db.env, versions, true, map[]);
    if id in db.execution.tasks && Changeable(db.execution.tasks[id]) { ChangeableIsIdle(db.execution, id); }
  }

  ghost predicate MayTransfer(db: Database, c: Caller, id: TaskId, owner: UserId, ifMatch: nat) {
    && MayWrite(db, c, id, ifMatch) && Changeable(db.execution.tasks[id]) && !db.execution.tasks[id].archived
    && owner != db.execution.tasks[id].owner && ActiveMember(db.env, owner)
  }

  lemma TransferMeans(db: Database, now: int, c: Caller, id: TaskId, owner: UserId, ifMatch: nat)
    requires Sound(db.execution)
    ensures var r := TransferTask(db, now, c, id, owner, ifMatch);
            if MayTransfer(db, c, id, owner, ifMatch)
            then r.Ok? && r.value == db.execution.(tasks := r.value.tasks)
                 && TaskBecomes(db.execution, r.value, id, db.execution.tasks[id].(owner := owner, status := Draft, retry := false))
            else r.Err?
  {
    OwnedIff(db, now, c, id, ifMatch);
    if id in db.execution.tasks && Changeable(db.execution.tasks[id]) { ChangeableIsIdle(db.execution, id); }
  }

  ghost predicate MayAssign(db: Database, c: Caller, id: TaskId, target: Target, ifMatch: nat) {
    MayWrite(db, c, id, ifMatch) && Changeable(db.execution.tasks[id]) && (target == General || (target.ToAgent? && target.agent in db.env.agents))
  }

  lemma AssignmentMeans(db: Database, now: int, c: Caller, id: TaskId, target: Target, ifMatch: nat)
    ensures var r := AssignTask(db, now, c, id, target, ifMatch);
            if MayAssign(db, c, id, target, ifMatch)
            then r.Ok? && r.value == db.execution.(tasks := r.value.tasks, assignments := db.execution.assignments[id := target])
                 && TaskBecomes(db.execution, r.value, id, db.execution.tasks[id])
            else r.Err?
  {
    OwnedIff(db, now, c, id, ifMatch);
  }

  // --- Dependencies -------------------------------------------------------------------------

  /** The predecessor is a task, the pair is new, and the graph stays acyclic with it. */
  ghost predicate MayDepend(db: Database, c: Caller, id: TaskId, predecessor: TaskId, ifMatch: nat) {
    && MayWrite(db, c, id, ifMatch) && Changeable(db.execution.tasks[id]) && predecessor in db.execution.tasks
    && (forall d :: d in db.execution.dependencies ==>
          !(db.execution.dependencies[d].predecessor == predecessor && db.execution.dependencies[d].successor == id))
    && Acyclic(Edges(db.execution.dependencies) + {(predecessor, id)})
  }

  lemma EdgeIsNewIff(dependencies: map<DependencyId, Dependency>, predecessor: TaskId, successor: TaskId)
    ensures (predecessor, successor) !in Edges(dependencies) <==>
            forall d :: d in dependencies ==> !(dependencies[d].predecessor == predecessor && dependencies[d].successor == successor)
  {
  }

  /** Up to evidence that is looked for, the dependencies are the old ones and the new one. */
  ghost predicate EdgeAdded(x: Execution, y: Execution, newId: DependencyId, d: Dependency) {
    && y == x.(tasks := y.tasks, dependencies := y.dependencies) && y.dependencies.Keys == x.dependencies.Keys + {newId}
    && (forall e :: e in x.dependencies && e != newId ==> y.dependencies[e] == x.dependencies[e].(resolved := y.dependencies[e].resolved))
    && y.dependencies[newId] == d.(resolved := y.dependencies[newId].resolved)
  }

  lemma EdgeAddedTo(db: Database, id: TaskId, d: Dependency, newId: DependencyId)
    requires id in db.execution.tasks && newId !in db.execution.dependencies
    ensures EdgeAdded(db.execution, WithDependency(db, id, d, newId), newId, d)
  {
  }

  lemma DependencyMeans(db: Database, now: int, c: Caller, id: TaskId, predecessor: TaskId, condition: Condition, ifMatch: nat, newId: DependencyId)
    requires Sound(db.execution) && Founded(db.execution, db.evidence) && newId !in db.execution.dependencies
    ensures var r := AddDependency(db, now, c, id, predecessor, condition, ifMatch, newId);
            if MayDepend(db, c, id, predecessor, ifMatch)
            then r.Ok? && EdgeHeld(db, r.value, id) && EdgeAdded(db.execution, r.value, newId, Dependency(predecessor, id, condition, None))
            else r.Err?
  {
    OwnedIff(db, now, c, id, ifMatch);
    EdgeIsNewIff(db.execution.dependencies, predecessor, id);
    AcyclicWithEdgeIff(Edges(db.execution.dependencies), (predecessor, id));
    if id in db.execution.tasks {
      EdgeMeans(db, id, Dependency(predecessor, id, condition, None), newId);
      EdgeAddedTo(db, id, Dependency(predecessor, id, condition, None), newId);
    }
  }

  ghost predicate MayUndepend(db: Database, c: Caller, id: TaskId, d: DependencyId, ifMatch: nat) {
    && MayWrite(db, c, id, ifMatch) && Changeable(db.execution.tasks[id])
    && d in db.execution.dependencies && db.execution.dependencies[d].successor == id
  }

  lemma RemovalMeans(db: Database, now: int, c: Caller, id: TaskId, d: DependencyId, ifMatch: nat)
    ensures var r := RemoveDependency(db, now, c, id, d, ifMatch);
            if MayUndepend(db, c, id, d, ifMatch)
            then r.Ok? && r.value == db.execution.(tasks := r.value.tasks, dependencies := db.execution.dependencies - {d})
                 && TaskBecomes(db.execution, r.value, id, db.execution.tasks[id])
            else r.Err?
  {
    OwnedIff(db, now, c, id, ifMatch);
  }

  // --- Cancelling and shelving ------------------------------------------------------------------

  /** Cancelling ends the task and its live Run with it, if it has one; whatever else ran stays as it ended. */
  ghost predicate CanceledSo(x: Execution, y: Execution, id: TaskId)
    requires id in x.tasks
  {
    && y == x.(tasks := y.tasks, runs := y.runs) && y.runs.Keys == x.runs.Keys
    && y.tasks == x.tasks[id := x.tasks[id].(status := Canceled, version := x.tasks[id].version + 1)]
    && forall r :: r in x.runs ==> y.runs[r] == if x.runs[r].task == id && x.runs[r].status == RunRunning
                                                then x.runs[r].(status := RunCanceled, version := x.runs[r].version + 1) else x.runs[r]
  }

  lemma OneLiveRun(x: Execution, id: TaskId)
    requires Sound(x) && id in x.tasks && LiveRuns(x, id) != {}
    ensures forall r :: r in x.runs && x.runs[r].task == id && x.runs[r].status == RunRunning <==> r == LeastOf(LiveRuns(x, id))
  {
    var one := LeastOf(LiveRuns(x, id));
    forall r | r in x.runs && x.runs[r].task == id && x.runs[r].status == RunRunning ensures r == one {
      assert r in LiveRuns(x, id) && Siblings(x.runs, r, one);
    }
  }

  lemma CancelingMeans(db: Database, id: TaskId)
    requires Sound(db.execution) && id in db.execution.tasks
    ensures var r := CancelTask(db, id, db.execution.tasks[id]);
            if db.execution.tasks[id].status in {Canceled, Done} then r.Err? else r.Ok? && CanceledSo(db.execution, r.value, id)
  {
    if LiveRuns(db.execution, id) != {} {
      OneLiveRun(db.execution, id);
    } else {
      forall r | r in db.execution.runs ensures !(db.execution.runs[r].task == id && db.execution.runs[r].status == RunRunning) {
        assert r !in LiveRuns(db.execution, id);
      }
    }
  }

  /** CANCEL is for what has not ended, ARCHIVE for what has, with nothing unsettled, and RESTORE for what is archived. */
  ghost predicate MayShelve(db: Database, c: Caller, id: TaskId, command: Command, ifMatch: nat) {
    && MayWrite(db, c, id, ifMatch)
    && var t := db.execution.tasks[id];
       match command
       case Cancel => !t.archived && t.status !in {Done, Canceled}
       case Archive =>
         && !t.archived && t.status in {Done, Canceled}
         && (forall i :: i in db.tools.invocations && db.tools.invocations[i].run in db.execution.runs
                         && db.execution.runs[db.tools.invocations[i].run].task == id
                         ==> db.tools.invocations[i].status in {ToolSucceeded, ToolFailed, ToolCanceled})
       case Restore => t.archived
       case _ => false
  }

  ghost predicate ShelvedSo(x: Execution, y: Execution, id: TaskId, command: Command)
    requires id in x.tasks
  {
    if command == Command.Cancel then CanceledSo(x, y, id)
    else y == x.(tasks := y.tasks) && TaskBecomes(x, y, id, x.tasks[id].(archived := command == Command.Archive))
  }

  lemma ShelvingMeans(db: Database, now: int, c: Caller, id: TaskId, command: Command, ifMatch: nat)
    requires Sound(db.execution) && command !in {Submit, Retry}
    ensures var r := CommandTask(db, now, c, id, command, ifMatch);
            if MayShelve(db, c, id, command, ifMatch) then r.Ok? && ShelvedSo(db.execution, r.value, id, command) else r.Err?
  {
    OwnedIff(db, now, c, id, ifMatch);
    OpenIff(db, id);
    if id in db.execution.tasks { CancelingMeans(db, id); }
  }

  // --- Over every run ------------------------------------------------------------------------------

  ghost predicate TaskStep(w: World, v: World, a: Action)
    requires a.DoCreateTask? || a.DoEditTask? || a.DoTransferTask? || a.DoAssignTask? || a.DoAddDependency? || a.DoRemoveDependency?
             || (a.DoCommand? && a.command !in {Submit, Retry})
  {
    var x, y := w.db.execution, v.db.execution;
    match a
    case DoCreateTask(c, owner, repository, versions, criteria, newId) =>
      if MayCreate(w.db, c, owner, repository, versions)
      then newId in y.tasks && Chosen(w.db.env, versions, map[], y.tasks[newId].contexts)
           && y == x.(tasks := x.tasks[newId := Task(owner, repository, Draft, false, true, criteria, y.tasks[newId].contexts, 1)])
      else y == x
    case DoEditTask(c, t, repository, versions, criteria, ifMatch) =>
      if MayEdit(w.db, c, t, repository, versions, ifMatch)
      then t in y.tasks && Chosen(w.db.env, versions, map[], y.tasks[t].contexts) && y == x.(tasks := y.tasks)
           && TaskBecomes(x, y, t, Task(x.tasks[t].owner, repository, Draft, false, false, criteria, y.tasks[t].contexts, 0))
      else y == x
    case DoTransferTask(c, t, owner, ifMatch) =>
      if MayTransfer(w.db, c, t, owner, ifMatch)
      then y == x.(tasks := y.tasks) && TaskBecomes(x, y, t, x.tasks[t].(owner := owner, status := Draft, retry := false)) else y == x
    case DoAssignTask(c, t, target, ifMatch) =>
      if MayAssign(w.db, c, t, target, ifMatch)
      then y == x.(tasks := y.tasks, assignments := x.assignments[t := target]) && TaskBecomes(x, y, t, x.tasks[t]) else y == x
    case DoAddDependency(c, t, predecessor, condition, ifMatch, newId) =>
      if MayDepend(w.db, c, t, predecessor, ifMatch)
      then EdgeHeld(w.db, y, t) && EdgeAdded(x, y, newId, Dependency(predecessor, t, condition, None)) else y == x
    case DoRemoveDependency(c, t, d, ifMatch) =>
      if MayUndepend(w.db, c, t, d, ifMatch)
      then y == x.(tasks := y.tasks, dependencies := x.dependencies - {d}) && TaskBecomes(x, y, t, x.tasks[t]) else y == x
    case DoCommand(c, t, command, ifMatch) =>
      if MayShelve(w.db, c, t, command, ifMatch) then ShelvedSo(x, y, t, command) else y == x
  }

  lemma InputStepMeans(w: World, a: Action)
    requires a.DoCreateTask? || a.DoEditTask? || a.DoTransferTask? || a.DoAssignTask?
    requires Sound(w.db.execution)
    ensures TaskStep(w, NextTask(w, a), a)
  {
    match a
    case DoCreateTask(c, owner, repository, versions, criteria, newId) => CreationMeans(w.db, w.now, c, owner, repository, versions, criteria, newId);
    case DoEditTask(c, t, repository, versions, criteria, ifMatch) => EditMeans(w.db, w.now, c, t, repository, versions, criteria, ifMatch);
    case DoTransferTask(c, t, owner, ifMatch) => TransferMeans(w.db, w.now, c, t, owner, ifMatch);
    case DoAssignTask(c, t, target, ifMatch) => AssignmentMeans(w.db, w.now, c, t, target, ifMatch);
  }

  lemma GraphStepMeans(w: World, a: Action)
    requires a.DoAddDependency? || a.DoRemoveDependency?
    requires Sound(w.db.execution) && Founded(w.db.execution, w.db.evidence) && (a.DoAddDependency? ==> a.newId !in w.db.execution.dependencies)
    ensures TaskStep(w, NextTask(w, a), a)
  {
    match a
    case DoAddDependency(c, t, predecessor, condition, ifMatch, newId) =>
      DependencyMeans(w.db, w.now, c, t, predecessor, condition, ifMatch, newId);
    case DoRemoveDependency(c, t, d, ifMatch) => RemovalMeans(w.db, w.now, c, t, d, ifMatch);
  }

  lemma ShelfStepMeans(w: World, a: Action)
    requires a.DoCommand? && a.command !in {Submit, Retry} && Sound(w.db.execution)
    ensures TaskStep(w, NextTask(w, a), a)
  {
    ShelvingMeans(w.db, w.now, a.caller, a.task, a.command, a.ifMatch);
  }

  lemma TaskStepMeans(w: World, a: Action)
    requires a.DoCreateTask? || a.DoEditTask? || a.DoTransferTask? || a.DoAssignTask? || a.DoAddDependency? || a.DoRemoveDependency?
             || (a.DoCommand? && a.command !in {Submit, Retry})
    requires Sound(w.db.execution) && Founded(w.db.execution, w.db.evidence) && Drawn(w.db, w.used) && Possible(w, a)
    ensures TaskStep(w, NextTask(w, a), a)
  {
    if a.DoCommand? {
      ShelfStepMeans(w, a);
    } else if a.DoAddDependency? {
      assert a.newId in NewIds(a);
      GraphStepMeans(w, a);
    } else if a.DoRemoveDependency? {
      GraphStepMeans(w, a);
    } else {
      InputStepMeans(w, a);
    }
  }

  /** In every run a task is created, edited, transferred, assigned, made to wait, released, cancelled and shelved exactly
      when it may be, with exactly this effect; an edit or a transfer takes authorisation away, a cancellation ends the live
      Run, and a dependency is taken exactly when the graph stays acyclic with it. Any other write changes nothing. */
  lemma EveryTaskWrite(states: seq<World>, actions: seq<Action>, k: nat)
    requires IsRun(states, actions) && k < |actions|
    requires var a := actions[k];
             a.DoCreateTask? || a.DoEditTask? || a.DoTransferTask? || a.DoAssignTask? || a.DoAddDependency? || a.DoRemoveDependency?
             || (a.DoCommand? && a.command !in {Submit, Retry})
    ensures TaskStep(states[k], states[k + 1], actions[k])
  {
    RunFounded(states, actions, k);
    assert StepsAt(states, actions, k);
    NextIsTask(states[k], actions[k]);
    TaskStepMeans(states[k], actions[k]);
  }
}
