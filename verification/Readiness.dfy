/** A task is claimed, and becomes READY, if and only if all it waits for has arrived. */
module Readiness {
  import opened Options
  import opened Tables
  import opened Access
  import opened Dependencies
  import opened Snapshots
  import opened Freezing
  import opened TaskFlow
  import opened Recovery
  import opened ControlPlane
  import opened TaskSafety
  import opened EvidenceSafety
  import I = Invariants
  import Guarantees

  // --- What a task waits for -------------------------------------------------------------

  /** The predecessor is DONE, or has delivered evidence of the kind. */
  ghost predicate Arrived(x: Execution, e: Evidence, d: Dependency) {
    match d.condition
    case TaskDone => d.predecessor in x.tasks && x.tasks[d.predecessor].status == Done
    case ArtifactAccepted(kind) => exists a :: Delivers(x, e, a, d.predecessor, kind)
  }

  /** The selected Contexts are published, the Owner is active, and every dependency has arrived. */
  ghost predicate InputsArrived(env: Environment, x: Execution, e: Evidence, id: TaskId)
    requires id in x.tasks
  {
    && (forall c :: c in x.tasks[id].contexts && x.tasks[id].contexts[c] in env.versions ==> env.versions[x.tasks[id].contexts[c]].published)
    && ActiveMember(env, x.tasks[id].owner)
    && forall d :: d in x.dependencies && x.dependencies[d].successor == id ==> Arrived(x, e, x.dependencies[d])
  }

  /** Nothing that readiness depends on differs. */
  ghost predicate SameInputs(x: Execution, y: Execution, id: TaskId) {
    && id in x.tasks && id in y.tasks && y.tasks[id].contexts == x.tasks[id].contexts && y.tasks[id].owner == x.tasks[id].owner
    && (forall t :: t in x.tasks <==> t in y.tasks) && (forall t :: t in x.tasks ==> (y.tasks[t].status == Done <==> x.tasks[t].status == Done))
    && (forall r :: r in x.runs <==> r in y.runs) && (forall r :: r in x.runs ==> y.runs[r].task == x.runs[r].task)
    && y.dependencies.Keys == x.dependencies.Keys
    && (forall d :: d in x.dependencies ==> y.dependencies[d] == x.dependencies[d].(resolved := y.dependencies[d].resolved))
  }

  lemma SameInputsArrive(env: Environment, x: Execution, y: Execution, e: Evidence, id: TaskId)
    requires SameInputs(x, y, id)
    ensures InputsArrived(env, y, e, id) <==> InputsArrived(env, x, e, id)
  {
    forall d | d in x.dependencies ensures Arrived(y, e, y.dependencies[d]) <==> Arrived(x, e, x.dependencies[d]) {
      DependencyArrives(x, y, e, x.dependencies[d], y.dependencies[d]);
    }
  }

  lemma DependencyArrives(x: Execution, y: Execution, e: Evidence, c: Dependency, d: Dependency)
    requires (forall t :: t in x.tasks <==> t in y.tasks) && (forall t :: t in x.tasks ==> (y.tasks[t].status == Done <==> x.tasks[t].status == Done))
    requires (forall r :: r in x.runs <==> r in y.runs) && (forall r :: r in x.runs ==> y.runs[r].task == x.runs[r].task)
    requires d == c.(resolved := d.resolved)
    ensures Arrived(y, e, d) <==> Arrived(x, e, c)
  {
    if c.condition.ArtifactAccepted? {
      forall a ensures Delivers(y, e, a, d.predecessor, d.condition.kind) <==> Delivers(x, e, a, c.predecessor, c.condition.kind) {
      }
    }
  }

  // --- What the check of readiness means -------------------------------------------------------

  /** After the evidence of a task has been looked for, its dependency is met exactly when it has arrived. */
  lemma ResolvedMeans(x: Execution, e: Evidence, d: Dependency)
    requires d.resolved.Some? ==> Qualifies(x.runs, e, d.resolved.value, d)
    ensures Met(x, e, Resolved(x.runs, e, d)) <==> Arrived(x, e, d)
  {
    if d.condition.ArtifactAccepted? {
      var candidates := set a | a in e.artifacts && Qualifies(x.runs, e, a, d);
      forall a ensures a in candidates <==> Delivers(x, e, a, d.predecessor, d.condition.kind) {
      }
      if d.resolved.Some? { assert Delivers(x, e, d.resolved.value, d.predecessor, d.condition.kind); }
    }
  }

  lemma MetIff(x: Execution, e: Evidence, id: TaskId, d: DependencyId)
    requires Founded(x, e) && d in x.dependencies && x.dependencies[d].successor == id
    ensures var y := ResolveEvidence(x, e, {id}); d in y.dependencies && (Met(y, e, y.dependencies[d]) <==> Arrived(x, e, x.dependencies[d]))
  {
    var y := ResolveEvidence(x, e, {id});
    ResolvedMeans(x, e, x.dependencies[d]);
    assert y.dependencies[d] == Resolved(x.runs, e, x.dependencies[d]);
  }

  lemma ReadyIff(env: Environment, x: Execution, e: Evidence, id: TaskId)
    requires Founded(x, e) && id in x.tasks
    ensures TaskReady(env, ResolveEvidence(x, e, {id}), e, id) <==> InputsArrived(env, x, e, id)
  {
    var y := ResolveEvidence(x, e, {id});
    forall d | d in x.dependencies && x.dependencies[d].successor == id ensures Met(y, e, y.dependencies[d]) <==> Arrived(x, e, x.dependencies[d]) {
      MetIff(x, e, id, d);
    }
    if TaskReady(env, y, e, id) {
      forall d | d in x.dependencies && x.dependencies[d].successor == id ensures Arrived(x, e, x.dependencies[d]) {
        assert d in y.dependencies && y.dependencies[d].successor == id;
      }
    }
    if InputsArrived(env, x, e, id) {
      forall d | d in y.dependencies && y.dependencies[d].successor == id ensures Met(y, e, y.dependencies[d]) {
        assert d in x.dependencies && x.dependencies[d].successor == id;
      }
    }
  }

  // --- The worker ----------------------------------------------------------------------------------

  /** The lease has run out, or the authority behind the Run has gone. */
  ghost predicate Lapsed(db: Database, now: int, r: RunId)
    requires r in db.execution.runs
  {
    var run := db.execution.runs[r];
    && run.status == RunRunning && run.session in db.sessions
    && var s := db.sessions[run.session];
       now >= run.expires || !s.active || now >= s.expires || !ActiveWith(db.env, s.human, Member) || !ActiveMember(db.env, run.owner)
  }

  ghost predicate OfTask(x: Execution, runs: seq<RunId>, t: TaskId) { exists r :: r in runs && r in x.runs && x.runs[r].task == t }

  /** Exactly these Runs are lost, and their tasks blocked. */
  ghost predicate Closed(x: Execution, y: Execution, lost: seq<RunId>) {
    && y == x.(tasks := y.tasks, runs := y.runs) && y.tasks.Keys == x.tasks.Keys && y.runs.Keys == x.runs.Keys
    && (forall r :: r in x.runs ==> y.runs[r] == if r in lost then x.runs[r].(status := RunLost, version := x.runs[r].version + 1) else x.runs[r])
    && (forall t :: t in x.tasks ==> y.tasks[t] == if OfTask(x, lost, t) then x.tasks[t].(status := Blocked, version := y.tasks[t].version) else x.tasks[t])
  }

  lemma CloseOneThenRest(x: Execution, y: Execution, z: Execution, order: seq<RunId>)
    requires order != [] && AllLive(x, order) && Closed(x, y, [order[0]]) && Closed(y, z, order[1..])
    ensures Closed(x, z, order)
  {
    forall t ensures OfTask(x, order, t) <==> OfTask(x, [order[0]], t) || OfTask(y, order[1..], t) {
      if OfTask(x, order, t) {
        var r :| r in order && r in x.runs && x.runs[r].task == t;
        if r == order[0] { assert r in [order[0]]; } else { assert r in order[1..] && y.runs[r].task == t; }
      }
      if OfTask(y, order[1..], t) {
        var r :| r in order[1..] && r in y.runs && y.runs[r].task == t;
        assert r in order && x.runs[r].task == t;
      }
    }
    assert forall r :: r in order <==> r == order[0] || r in order[1..];
  }

  lemma CloseOne(x: Execution, r: RunId)
    requires r in x.runs && x.runs[r].task in x.tasks
    ensures Closed(x, CloseRun(x, r), [r])
  {
    assert forall t :: OfTask(x, [r], t) <==> x.runs[r].task == t;
  }

  lemma {:induction false} CloseAll(x: Execution, order: seq<RunId>)
    requires Sound(x) && AllLive(x, order)
    ensures Closed(x, CloseRuns(x, order), order)
    decreases |order|
  {
    if order == [] {
      assert forall t :: !OfTask(x, order, t);
    } else {
      var y := CloseRun(x, order[0]);
      CloseOne(x, order[0]);
      CloseRunKeeps(x, order[0]);
      CloseRunLeavesOthers(x, order);
      CloseAll(y, order[1..]);
      CloseOneThenRest(x, y, CloseRuns(y, order[1..]), order);
    }
  }

  lemma ClosingKeepsInputs(x: Execution, y: Execution, lost: seq<RunId>, t: TaskId)
    requires Sound(x) && AllLive(x, lost) && Closed(x, y, lost) && t in x.tasks
    ensures SameInputs(x, y, t)
  {
    forall u | u in x.tasks && OfTask(x, lost, u) ensures x.tasks[u].status == Running {
      var r :| r in lost && r in x.runs && x.runs[r].task == u;
    }
  }

  lemma ClosingKeepsFounded(x: Execution, y: Execution, lost: seq<RunId>, e: Evidence)
    requires Founded(x, e) && Closed(x, y, lost)
    ensures Founded(y, e)
  {
  }

  /** Exactly these waiting tasks have been looked at, and are READY if and only if their inputs have arrived. */
  ghost predicate Woken(env: Environment, e: Evidence, x: Execution, y: Execution, waiting: seq<TaskId>) {
    && y.runs == x.runs && y.tasks.Keys == x.tasks.Keys
    && forall t :: t in x.tasks ==>
         if t in waiting then y.tasks[t] == x.tasks[t].(status := if InputsArrived(env, x, e, t) then Ready else x.tasks[t].status, version := y.tasks[t].version)
         else y.tasks[t] == x.tasks[t]
  }

  lemma WakeOne(env: Environment, e: Evidence, x: Execution, t: TaskId)
    requires Founded(x, e) && t in x.tasks && x.tasks[t].status == Blocked
    ensures Woken(env, e, x, Recheck(env, e, x, t), [t])
  {
    ReadyIff(env, x, e, t);
  }

  lemma WakingKeepsInputs(env: Environment, e: Evidence, x: Execution, t: TaskId, u: TaskId)
    requires t in x.tasks && x.tasks[t].status == Blocked && u in x.tasks
    ensures SameInputs(x, Recheck(env, e, x, t), u)
  {
  }

  lemma WakingKeepsFounded(env: Environment, e: Evidence, x: Execution, t: TaskId)
    requires Founded(x, e) && t in x.tasks
    ensures Founded(Recheck(env, e, x, t), e)
  {
    ResolveResolutions(x, e, {t});
    FoundedAfterTask(x, Recheck(env, e, x, t), e);
  }

  lemma FirstIsOnce(order: seq<TaskId>)
    requires order != [] && forall i, j :: 0 <= i < j < |order| ==> order[i] != order[j]
    ensures order[0] !in order[1..]
  {
    forall t | t in order[1..] ensures t != order[0] {
      var i :| 1 <= i < |order| && order[i] == t;
    }
  }

  lemma WakeOneThenRest(env: Environment, e: Evidence, x: Execution, y: Execution, z: Execution, order: seq<TaskId>)
    requires order != [] && AllWaiting(x, order) && Woken(env, e, x, y, [order[0]]) && Woken(env, e, y, z, order[1..])
    requires forall u :: u in x.tasks ==> SameInputs(x, y, u)
    ensures Woken(env, e, x, z, order)
  {
    forall t | t in x.tasks
      ensures if t in order then z.tasks[t] == x.tasks[t].(status := if InputsArrived(env, x, e, t) then Ready else x.tasks[t].status, version := z.tasks[t].version)
              else z.tasks[t] == x.tasks[t]
    {
      SameInputsArrive(env, x, y, e, t);
      if t == order[0] {
        FirstIsOnce(order);
      } else {
        assert t in order <==> t in order[1..];
      }
    }
  }

  lemma {:induction false} WakeAll(env: Environment, e: Evidence, x: Execution, order: seq<TaskId>)
    requires Founded(x, e) && AllWaiting(x, order)
    ensures Woken(env, e, x, RecheckAll(env, e, x, order), order)
    decreases |order|
  {
    if order != [] {
      var y := Recheck(env, e, x, order[0]);
      WakeOne(env, e, x, order[0]);
      forall u | u in x.tasks ensures SameInputs(x, y, u) { WakingKeepsInputs(env, e, x, order[0], u); }
      WakingKeepsFounded(env, e, x, order[0]);
      RecheckLeavesOthers(env, e, x, order);
      WakeAll(env, e, y, order[1..]);
      WakeOneThenRest(env, e, x, y, RecheckAll(env, e, y, order[1..]), order);
    }
  }

  ghost predicate LosesRun(db: Database, now: int, t: TaskId) { exists r :: r in db.execution.runs && db.execution.runs[r].task == t && Lapsed(db, now, r) }

  /** What one pass of the worker does: a Run is lost if and only if it has lapsed, its task is blocked with it; an authorised
      blocked task becomes READY if and only if its inputs have arrived; every other row stays as it was. */
  ghost predicate Reconciled(db: Database, now: int, y: Execution) {
    var x := db.execution;
    if db.gate.maintenance then y == x
    else
      && y.tasks.Keys == x.tasks.Keys && y.runs.Keys == x.runs.Keys
      && (forall r :: r in x.runs ==> y.runs[r] == if Lapsed(db, now, r) then x.runs[r].(status := RunLost, version := x.runs[r].version + 1) else x.runs[r])
      && (forall t :: t in x.tasks ==>
            if LosesRun(db, now, t) then y.tasks[t] == x.tasks[t].(status := Blocked, version := y.tasks[t].version)
            else if x.tasks[t].status == Blocked && x.tasks[t].retry
            then y.tasks[t] == x.tasks[t].(status := if InputsArrived(db.env, x, db.evidence, t) then Ready else Blocked, version := y.tasks[t].version)
            else y.tasks[t] == x.tasks[t])
  }

  lemma LostAreLapsed(db: Database, now: int, r: RunId)
    ensures r in Ascending(LostRuns(db, now)) <==> r in db.execution.runs && Lapsed(db, now, r)
  {
  }

  lemma WorkerDoes(db: Database, now: int)
    requires Sound(db.execution) && Founded(db.execution, db.evidence) && !db.gate.maintenance
    ensures Reconciled(db, now, ReconcileProject(db, now))
  {
    var x := db.execution;
    var lost := Ascending(LostRuns(db, now));
    CloseAll(x, lost);
    var closed := CloseRuns(x, lost);
    ClosingKeepsFounded(x, closed, lost, db.evidence);
    var waiting := Ascending(Waiting(closed));
    WakeAll(db.env, db.evidence, closed, waiting);
    forall t | t in x.tasks ensures OfTask(x, lost, t) <==> LosesRun(db, now, t) { LostOfTask(db, now, t); }
    forall t | t in x.tasks ensures InputsArrived(db.env, closed, db.evidence, t) <==> InputsArrived(db.env, x, db.evidence, t) {
      ClosingKeepsInputs(x, closed, lost, t);
      SameInputsArrive(db.env, x, closed, db.evidence, t);
    }
    Combined(db, now, closed, ReconcileProject(db, now), lost, waiting);
  }

  lemma LostOfTask(db: Database, now: int, t: TaskId)
    ensures OfTask(db.execution, Ascending(LostRuns(db, now)), t) <==> LosesRun(db, now, t)
  {
    var lost := Ascending(LostRuns(db, now));
    if OfTask(db.execution, lost, t) {
      var r :| r in lost && r in db.execution.runs && db.execution.runs[r].task == t;
      LostAreLapsed(db, now, r);
    }
    if LosesRun(db, now, t) {
      var r :| r in db.execution.runs && db.execution.runs[r].task == t && Lapsed(db, now, r);
      LostAreLapsed(db, now, r);
    }
  }

  lemma Combined(db: Database, now: int, closed: Execution, y: Execution, lost: seq<RunId>, waiting: seq<TaskId>)
    requires Sound(db.execution) && AllLive(db.execution, lost) && !db.gate.maintenance
    requires Closed(db.execution, closed, lost) && Woken(db.env, db.evidence, closed, y, waiting)
    requires forall t :: t in waiting <==> t in closed.tasks && closed.tasks[t].status == Blocked && closed.tasks[t].retry
    requires forall r :: r in lost <==> r in db.execution.runs && Lapsed(db, now, r)
    requires forall t :: t in db.execution.tasks ==> (OfTask(db.execution, lost, t) <==> LosesRun(db, now, t))
    requires forall t :: t in db.execution.tasks ==> (InputsArrived(db.env, closed, db.evidence, t) <==> InputsArrived(db.env, db.execution, db.evidence, t))
    ensures Reconciled(db, now, y)
  {
    forall t | t in db.execution.tasks && OfTask(db.execution, lost, t) ensures !db.execution.tasks[t].retry {
      var r :| r in lost && r in db.execution.runs && db.execution.runs[r].task == t;
    }
  }

  // --- Commands, dependencies and claims ----------------------------------------------------------------

  /** A person with a seat in the project may write, outside maintenance and the archive. */
  ghost predicate MemberActs(db: Database, c: Caller) { c.Human? && ActiveMember(db.env, c.user) && !db.gate.maintenance && !db.archived }

  /** The Owner or an administrator, under the task's current version. */
  ghost predicate MayWrite(db: Database, c: Caller, t: TaskId, ifMatch: nat) {
    && MemberActs(db, c) && t in db.execution.tasks && db.execution.tasks[t].version == ifMatch
    && (db.execution.tasks[t].owner == c.user || Admin in db.env.members[c.user].roles)
  }

  lemma OwnedIff(db: Database, now: int, c: Caller, t: TaskId, ifMatch: nat)
    ensures var q := Admit(db, now, c, BY_MEMBER); (q.Ok? && OwnedTask(db, q.value, t, ifMatch).Ok?) <==> MayWrite(db, c, t, ifMatch)
  {
    AdmittedIff(db, now, c, BY_MEMBER);
  }

  /** SUBMIT is for a task that never ran, RETRY for one that did; both while it is DRAFT or BLOCKED, not archived, and no
      operation of any of its Runs is unsettled. */
  ghost predicate MayAuthorise(db: Database, c: Caller, t: TaskId, command: Command, ifMatch: nat) {
    && MayWrite(db, c, t, ifMatch) && db.execution.tasks[t].status in {Draft, Blocked} && !db.execution.tasks[t].archived
    && (command == Submit <==> forall r :: r in db.execution.runs ==> db.execution.runs[r].task != t)
    && (forall i :: i in db.tools.invocations && db.tools.invocations[i].run in db.execution.runs
                    && db.execution.runs[db.tools.invocations[i].run].task == t
                    ==> db.tools.invocations[i].status in {ToolSucceeded, ToolFailed, ToolCanceled})
  }

  /** READY if and only if the inputs have arrived, else BLOCKED; authorised either way. */
  ghost predicate AuthorisedSo(db: Database, y: Execution, t: TaskId)
    requires t in db.execution.tasks
  {
    y.runs == db.execution.runs &&
    y.tasks == db.execution.tasks[t := db.execution.tasks[t].(status := if InputsArrived(db.env, db.execution, db.evidence, t) then Ready else Blocked,
                                                              retry := true, version := db.execution.tasks[t].version + 1)]
  }

  lemma NeverRanIff(x: Execution, t: TaskId)
    ensures RunsOf(x.runs, t) == {} <==> forall r :: r in x.runs ==> x.runs[r].task != t
  {
    if RunsOf(x.runs, t) == {} { forall r | r in x.runs ensures x.runs[r].task != t { assert r !in RunsOf(x.runs, t); } }
  }

  lemma AuthorisingMeans(db: Database, t: TaskId, command: Command)
    requires Founded(db.execution, db.evidence) && t in db.execution.tasks && command in {Submit, Retry}
    ensures var r := Authorise(db, t, db.execution.tasks[t], command); r.Ok? ==> AuthorisedSo(db, r.value, t)
  {
    ReadyIff(db.env, db.execution, db.evidence, t);
  }

  lemma OpenIff(db: Database, t: TaskId)
    ensures !ToolsOpen(db, t) <==>
            forall i :: i in db.tools.invocations && db.tools.invocations[i].run in db.execution.runs
                        && db.execution.runs[db.tools.invocations[i].run].task == t
                        ==> db.tools.invocations[i].status in {ToolSucceeded, ToolFailed, ToolCanceled}
  {
    forall i | i in db.tools.invocations { Guarantees.SettledMeans(db.tools.invocations[i].status); }
  }

  lemma AuthorisingIff(db: Database, now: int, c: Caller, t: TaskId, command: Command, ifMatch: nat)
    requires command in {Submit, Retry}
    ensures CommandTask(db, now, c, t, command, ifMatch).Ok? <==> MayAuthorise(db, c, t, command, ifMatch)
  {
    OwnedIff(db, now, c, t, ifMatch);
    NeverRanIff(db.execution, t);
    OpenIff(db, t);
  }

  /** A new dependency leaves its task READY if and only if its inputs, with this one, have arrived; it makes none READY. */
  ghost predicate EdgeHeld(db: Database, y: Execution, t: TaskId)
    requires t in db.execution.tasks
  {
    && t in y.tasks
    && y.tasks == db.execution.tasks[t := db.execution.tasks[t].(status := y.tasks[t].status, version := db.execution.tasks[t].version + 1)]
    && (y.tasks[t].status == Ready <==> db.execution.tasks[t].status == Ready && InputsArrived(db.env, y, db.evidence, t))
    && (y.tasks[t].status != Ready ==> y.tasks[t].status == if db.execution.tasks[t].status == Ready then Blocked else db.execution.tasks[t].status)
  }

  lemma EdgeMeans(db: Database, t: TaskId, d: Dependency, newId: DependencyId)
    requires Founded(db.execution, db.evidence) && t in db.execution.tasks && d.resolved.None? && newId !in db.execution.dependencies
    ensures EdgeHeld(db, WithDependency(db, t, d, newId), t)
  {
    var added := db.execution.(dependencies := db.execution.dependencies[newId := d]);
    var y := WithDependency(db, t, d, newId);
    if db.execution.tasks[t].status == Ready {
      ReadyIff(db.env, added, db.evidence, t);
      EdgeKeepsInputs(db, t, d, newId);
      SameInputsArrive(db.env, added, y, db.evidence, t);
    }
  }

  lemma EdgeKeepsInputs(db: Database, t: TaskId, d: Dependency, newId: DependencyId)
    requires t in db.execution.tasks && db.execution.tasks[t].status == Ready
    ensures SameInputs(db.execution.(dependencies := db.execution.dependencies[newId := d]), WithDependency(db, t, d, newId), t)
  {
  }

  /** An agent that has shaken hands may claim what is READY, authorised, and assigned to it or to everyone. */
  ghost predicate MayClaim(db: Database, now: int, c: Caller) {
    && c.Agent? && c.session in db.sessions
    && var s := db.sessions[c.session];
       && SessionLive(s, now) && s.negotiated && RunsClaim in s.scopes && ActiveWith(db.env, s.human, Member)
       && !db.gate.maintenance && !db.archived
  }

  ghost predicate ForTaking(db: Database, agent: nat, wanted: Option<TaskId>, t: TaskId) {
    && t in db.execution.tasks && db.execution.tasks[t].status == Ready && db.execution.tasks[t].retry && t in db.execution.assignments
    && (db.execution.assignments[t] == ToAgent(agent) || db.execution.assignments[t] == General) && (wanted == None || wanted == Some(t))
  }

  /** Each dependency of the task now has its evidence, if any has been delivered. */
  ghost predicate EvidenceFound(x: Execution, e: Evidence, t: TaskId, y: Execution) {
    && y.dependencies.Keys == x.dependencies.Keys
    && forall d :: d in x.dependencies ==>
         && y.dependencies[d] == x.dependencies[d].(resolved := y.dependencies[d].resolved)
         && if x.dependencies[d].successor == t
            then forall a: ArtifactId :: y.dependencies[d].resolved == Some(a) <==> EvidenceFor(x, e, x.dependencies[d], a)
            else y.dependencies[d] == x.dependencies[d]
  }

  /** The next attempt: after every other of the task, and right after the last. */
  ghost predicate NextAttempt(x: Execution, t: TaskId, n: nat) {
    (forall r :: r in x.runs && x.runs[r].task == t ==> x.runs[r].attempt < n) && (n == 1 || (n > 1 && HasAttempt(x.runs, t, n - 1)))
  }

  /** The task runs under a new Run of the Session for 90 seconds, under the next fence, with its inputs frozen. */
  ghost predicate Taken(db: Database, now: int, session: SessionId, user: UserId, newId: RunId, t: TaskId, y: Execution)
    requires t in db.execution.tasks
  {
    var x := db.execution;
    && newId in y.runs && newId in y.snapshots
    && y == Execution(x.tasks[t := x.tasks[t].(status := Running, retry := false, version := x.tasks[t].version + 1)], x.runs[newId := y.runs[newId]],
                      x.assignments, y.dependencies, x.snapshots[newId := y.snapshots[newId]], x.nextFence + 1)
    && y.runs[newId] == TaskRun(t, session, x.tasks[t].owner, user, y.runs[newId].attempt, newId, RunRunning, x.nextFence, now + 90, 1)
    && NextAttempt(x, t, y.runs[newId].attempt) && FrozenSo(db, t, y.snapshots[newId]) && EvidenceFound(x, db.evidence, t, y)
  }

  /** The first task for the taking is taken, with its inputs all there. */
  ghost predicate ClaimedSo(db: Database, now: int, c: Caller, wanted: Option<TaskId>, newId: RunId, t: TaskId, y: Execution) {
    && MayClaim(db, now, c) && ForTaking(db, db.sessions[c.session].agent, wanted, t)
    && (forall u :: ForTaking(db, db.sessions[c.session].agent, wanted, u) ==> t <= u)
    && t in db.execution.tasks && InputsArrived(db.env, db.execution, db.evidence, t) && MayFreeze(db, t)
    && Taken(db, now, c.session, db.sessions[c.session].human, newId, t, y)
  }

  lemma ChosenIff(db: Database, now: int, c: Caller, wanted: Option<TaskId>, t: TaskId)
    ensures var r := ChooseTask(db, now, c, wanted);
            (r.Ok? && r.value == t) <==>
            MayClaim(db, now, c) && ForTaking(db, db.sessions[c.session].agent, wanted, t)
            && forall u :: ForTaking(db, db.sessions[c.session].agent, wanted, u) ==> t <= u
  {
    AdmittedIff(db, now, c, CLAIMING);
    if MayClaim(db, now, c) {
      var claimable := Claimable(db, db.sessions[c.session].agent, wanted);
      assert forall u :: u in claimable <==> ForTaking(db, db.sessions[c.session].agent, wanted, u);
    }
  }

  /** The claim of a task goes through if its inputs have arrived and can be frozen, and only then. */
  lemma ClaimTaskMeans(db: Database, now: int, session: SessionId, user: UserId, t: TaskId, newId: RunId)
    requires Founded(db.execution, db.evidence) && t in db.execution.tasks
    ensures var r := ClaimTask(db, now, session, user, t, newId);
            if InputsArrived(db.env, db.execution, db.evidence, t) && MayFreeze(db, t)
            then r.Ok? && Taken(db, now, session, user, newId, t, r.value) else r.Err?
  {
    ReadyIff(db.env, db.execution, db.evidence, t);
    FreezeMeans(db, t);
    var x := ResolveEvidence(db.execution, db.evidence, {t});
    var snapshot := FreezeSnapshot(db.env, x, db.evidence, t);
    if snapshot.Ok? && MayFreeze(db, t) { ClaimTakes(db, t, snapshot.value, session, user, now, newId); }
  }

  lemma EvidenceIsFound(x: Execution, e: Evidence, t: TaskId)
    requires Founded(x, e)
    ensures EvidenceFound(x, e, t, ResolveEvidence(x, e, {t}))
  {
    var y := ResolveEvidence(x, e, {t});
    forall d, a: ArtifactId | d in x.dependencies && x.dependencies[d].successor == t
      ensures y.dependencies[d].resolved == Some(a) <==> EvidenceFor(x, e, x.dependencies[d], a)
    {
      ResolvedIff(x, e, x.dependencies[d], a);
    }
  }

  lemma NextAttemptIsLastPlusOne(x: Execution, t: TaskId)
    ensures NextAttempt(x, t, LastAttempt(x.runs, t) + 1)
  {
    LastAttemptIsLast(x.runs, t);
  }

  lemma ClaimTakes(db: Database, t: TaskId, snapshot: Snapshot, session: SessionId, user: UserId, now: int, newId: RunId)
    requires t in db.execution.tasks && Founded(db.execution, db.evidence) && FrozenSo(db, t, snapshot)
    ensures Taken(db, now, session, user, newId, t,
                  Claimed(ResolveEvidence(db.execution, db.evidence, {t}), t, snapshot, session, user, now, newId))
  {
    EvidenceIsFound(db.execution, db.evidence, t);
    NextAttemptIsLastPlusOne(db.execution, t);
  }

  lemma ClaimMeans(db: Database, now: int, c: Caller, wanted: Option<TaskId>, newId: RunId)
    requires Founded(db.execution, db.evidence)
    ensures var r := ClaimRun(db, now, c, wanted, newId); r.Ok? ==> ClaimedSo(db, now, c, wanted, newId, r.value.task, r.value.execution)
  {
    var chosen := ChooseTask(db, now, c, wanted);
    if chosen.Ok? {
      ChosenIff(db, now, c, wanted, chosen.value);
      ClaimTaskMeans(db, now, c.session, db.sessions[c.session].human, chosen.value, newId);
    }
  }

  // --- Over every run ---------------------------------------------------------------------------------------

  ghost predicate FirstForTaking(db: Database, now: int, c: Caller, wanted: Option<TaskId>, t: TaskId) {
    && MayClaim(db, now, c) && ForTaking(db, db.sessions[c.session].agent, wanted, t)
    && forall u :: ForTaking(db, db.sessions[c.session].agent, wanted, u) ==> t <= u
  }

  /** A claim takes the first task for the taking if its inputs have arrived and can be frozen, and else changes nothing. */
  ghost predicate ClaimStep(w: World, v: World, c: Caller, wanted: Option<TaskId>, newId: RunId) {
    if v.claims == w.claims then
      && v.db.execution == w.db.execution
      && forall t {:trigger FirstForTaking(w.db, w.now, c, wanted, t)} :: FirstForTaking(w.db, w.now, c, wanted, t) ==>
           !(InputsArrived(w.db.env, w.db.execution, w.db.evidence, t) && MayFreeze(w.db, t))
    else exists t {:trigger ClaimedSo(w.db, w.now, c, wanted, newId, t, v.db.execution)} ::
           v.claims == w.claims + multiset{t} && ClaimedSo(w.db, w.now, c, wanted, newId, t, v.db.execution)
  }

  ghost predicate WorkStep(w: World, v: World, a: Action)
    requires a.DoClaim? || (a.DoCommand? && a.command in {Submit, Retry}) || a.DoAddDependency? || a.WorkerReconciles?
  {
    match a
    case DoClaim(c, wanted, newId) => ClaimStep(w, v, c, wanted, newId)
    case DoCommand(c, t, command, ifMatch) =>
      if MayAuthorise(w.db, c, t, command, ifMatch) then AuthorisedSo(w.db, v.db.execution, t) && v.commands == w.commands + multiset{t}
      else v.db.execution == w.db.execution && v.commands == w.commands
    case DoAddDependency(_, t, _, _, _, _) => v.db.execution == w.db.execution || (t in w.db.execution.tasks && EdgeHeld(w.db, v.db.execution, t))
    case WorkerReconciles => Reconciled(w.db, w.now, v.db.execution)
  }

  lemma ClaimStepMeans(w: World, c: Caller, wanted: Option<TaskId>, newId: RunId)
    requires Founded(w.db.execution, w.db.evidence)
    ensures ClaimStep(w, NextClaim(w, ClaimRun(w.db, w.now, c, wanted, newId)), c, wanted, newId)
  {
    var r := ClaimRun(w.db, w.now, c, wanted, newId);
    var v := NextClaim(w, r);
    if r.Ok? {
      ClaimMeans(w.db, w.now, c, wanted, newId);
      assert v.claims[r.value.task] == w.claims[r.value.task] + 1;
    } else {
      forall t | FirstForTaking(w.db, w.now, c, wanted, t) ensures !(InputsArrived(w.db.env, w.db.execution, w.db.evidence, t) && MayFreeze(w.db, t)) {
        RefusedMeans(w.db, w.now, c, wanted, newId, t);
      }
    }
  }

  lemma RefusedMeans(db: Database, now: int, c: Caller, wanted: Option<TaskId>, newId: RunId, t: TaskId)
    requires Founded(db.execution, db.evidence) && ClaimRun(db, now, c, wanted, newId).Err? && FirstForTaking(db, now, c, wanted, t)
    ensures !(InputsArrived(db.env, db.execution, db.evidence, t) && MayFreeze(db, t))
  {
    ChosenIff(db, now, c, wanted, t);
    ClaimTaskMeans(db, now, c.session, db.sessions[c.session].human, t, newId);
  }

  lemma CommandStepMeans(w: World, a: Action)
    requires Founded(w.db.execution, w.db.evidence) && a.DoCommand? && a.command in {Submit, Retry}
    ensures WorkStep(w, NextTask(w, a), a)
  {
    AuthorisingIff(w.db, w.now, a.caller, a.task, a.command, a.ifMatch);
    if a.task in w.db.execution.tasks { AuthorisingMeans(w.db, a.task, a.command); }
  }

  lemma EdgeStepMeans(w: World, a: Action)
    requires Founded(w.db.execution, w.db.evidence) && a.DoAddDependency? && a.newId !in w.db.execution.dependencies
    ensures WorkStep(w, NextTask(w, a), a)
  {
    if a.task in w.db.execution.tasks { EdgeMeans(w.db, a.task, Dependency(a.predecessor, a.task, a.condition, None), a.newId); }
  }

  lemma WorkStepMeans(w: World, a: Action)
    requires Sound(w.db.execution) && Founded(w.db.execution, w.db.evidence) && Drawn(w.db, w.used) && Possible(w, a)
    requires a.DoClaim? || (a.DoCommand? && a.command in {Submit, Retry}) || a.DoAddDependency? || a.WorkerReconciles?
    ensures WorkStep(w, NextTask(w, a), a)
  {
    match a
    case DoClaim(c, wanted, newId) => ClaimStepMeans(w, c, wanted, newId);
    case DoCommand(_, _, _, _) => CommandStepMeans(w, a);
    case DoAddDependency(_, _, _, _, _, newId) =>
      assert newId in NewIds(a);
      EdgeStepMeans(w, a);
    case WorkerReconciles => if !w.db.gate.maintenance { WorkerDoes(w.db, w.now); }
  }

  lemma RunFounded(states: seq<World>, actions: seq<Action>, k: nat)
    requires IsRun(states, actions) && k < |states|
    ensures Sound(states[k].db.execution) && Founded(states[k].db.execution, states[k].db.evidence) && Drawn(states[k].db, states[k].used)
  {
    I.RunOrderly(states, actions, k);
    assert I.WellKept(states[k].db);
  }

  lemma NextIsTask(w: World, a: Action)
    requires TaskAction(a)
    ensures var v := NextTask(w, a); Next(w, a) == v.(used := w.used + NewIds(a))
  {
  }

  /** In every run: a claim takes the first READY task assigned to the agent whose inputs are all there, and no other;
      SUBMIT and RETRY make a task READY if and only if its inputs have arrived, else BLOCKED; a READY task stays so behind a
      new dependency if and only if that has arrived; and the worker closes exactly the lapsed Runs and wakes exactly the
      authorised tasks whose inputs have arrived. */
  lemma EveryWorkStep(states: seq<World>, actions: seq<Action>, k: nat)
    requires IsRun(states, actions) && k < |actions|
    requires var a := actions[k]; a.DoClaim? || (a.DoCommand? && a.command in {Submit, Retry}) || a.DoAddDependency? || a.WorkerReconciles?
    ensures WorkStep(states[k], states[k + 1], actions[k])
  {
    RunFounded(states, actions, k);
    assert StepsAt(states, actions, k);
    NextIsTask(states[k], actions[k]);
    WorkStepMeans(states[k], actions[k]);
  }
}
