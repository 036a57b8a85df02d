/** The installation as it runs, rows, clock, workers and backups: its history is a run of the state machine,
    whatever script of requests, worker transactions and operator commands it serves. */
module Installations {
  import opened Options
  import opened Tables
  import opened Access
  import opened TaskFlow
  import opened Governance
  import opened Delivery
  import opened Recovery
  import opened ControlPlane
  import opened Store
  import opened ToolSafety
  import opened Dependencies
  import Decisions
  import Guarantees

  ghost function CallIds(calls: seq<Call>): seq<InvocationId> { seq(|calls|, i requires 0 <= i < |calls| => calls[i].id) }

  ghost function CallOutcomes(calls: seq<Call>): seq<Outcome> { seq(|calls|, i requires 0 <= i < |calls| => calls[i].outcome) }

  class Installation {
    const rows: Rows
    var now: int
    var workers: map<WorkerId, Worker>
    var backups: seq<Database>
    var made: seq<InvocationId>
    var outcomes: seq<Outcome>

    /** The state a history has led to; `made` lists the external calls that were made, `outcomes` how they went. */
    ghost predicate Shows(w: World)
      reads this, rows
    {
      rows.State() == w.db && now == w.now && workers == w.workers && backups == w.backups
      && made == CallIds(w.calls) && outcomes == CallOutcomes(w.calls)
    }

    constructor (env: Environment, start: int)
      ensures fresh(rows)
      ensures rows.State() == Database(NOTHING_RUN, Evidence(map[], map[]), Tools(map[], map[]), Gate(false, false, map[]), map[], false, 1, env)
      ensures now == start && workers == map[] && backups == [] && made == [] && outcomes == []
    {
      rows := new Rows(env);
      now, workers, backups, made, outcomes := start, map[], [], [], [];
    }

    method DoTask(ghost w: World, a: Action)
      requires Shows(w) && (a.DoCreateTask? || a.DoEditTask? || a.DoTransferTask? || a.DoAssignTask? || a.DoAddDependency? || a.DoRemoveDependency?)
      modifies rows
      ensures Shows(NextTask(w, a))
    {
      match a
      case DoCreateTask(c, owner, repository, versions, criteria, newId) =>
        var _ := rows.Create(now, c, owner, repository, versions, criteria, newId);
      case DoEditTask(c, t, repository, versions, criteria, ifMatch) =>
        var _ := rows.Edit(now, c, t, repository, versions, criteria, ifMatch);
      case DoTransferTask(c, t, owner, ifMatch) =>
        var _ := rows.Transfer(now, c, t, owner, ifMatch);
      case DoAssignTask(c, t, target, ifMatch) =>
        var _ := rows.Assign(now, c, t, target, ifMatch);
      case DoAddDependency(c, t, predecessor, condition, ifMatch, newId) =>
        var _ := rows.NewDependency(now, c, t, predecessor, condition, ifMatch, newId);
      case DoRemoveDependency(c, t, dependency, ifMatch) =>
        var _ := rows.DropDependency(now, c, t, dependency, ifMatch);
    }

    method DoRun(ghost w: World, a: Action)
      requires Shows(w) && (a.DoCommand? || a.DoClaim? || a.DoHeartbeat? || a.DoReport? || a.WorkerReconciles?)
      modifies rows
      ensures Shows(NextTask(w, a))
    {
      match a
      case DoCommand(c, t, command, ifMatch) =>
        var _ := rows.Command(now, c, t, command, ifMatch);
      case DoClaim(c, wanted, newId) =>
        var _, _ := rows.Claim(now, c, wanted, newId);
      case DoHeartbeat(c, run, fence, ifMatch) =>
        var _ := rows.Heartbeat(now, c, run, fence, ifMatch);
      case DoReport(c, run, report, fence, ifMatch) =>
        var _ := rows.Report(now, c, run, report, fence, ifMatch);
      case WorkerReconciles =>
        rows.Reconcile(now);
    }

    method DoDelivery(ghost w: World, a: Action)
      requires Shows(w) && (a.DoUpload? || a.DoRegister? || a.DoVerify?)
      modifies rows
      ensures Shows(NextDelivery(w, a))
    {
      match a
      case DoUpload(c, run, digest, media, fence, ifMatch, newId) =>
        var _ := rows.Upload(now, c, run, digest, media, fence, ifMatch, newId);
      case DoRegister(c, run, registration, fence, ifMatch, newId) =>
        var _ := rows.Register(now, c, run, registration, fence, ifMatch, newId);
      case DoVerify(c, artifact, ifMatch, provider) =>
        var _ := rows.Verify(now, c, artifact, ifMatch, provider);
    }

    method DoReview(ghost w: World, a: Action)
      requires Shows(w) && (a.DoReviewArtifact? || a.DoReviewTask?)
      modifies rows
      ensures Shows(NextDelivery(w, a))
    {
      match a
      case DoReviewArtifact(c, artifact, digest, accept, ifMatch) =>
        var _ := rows.ReviewEvidence(now, c, artifact, digest, accept, ifMatch);
      case DoReviewTask(c, t, run, refs, accept, checks, ifMatch) =>
        var _ := rows.Review(now, c, t, run, refs, accept, checks, ifMatch);
    }

    /** A worker commits an intent and remembers it, or finds nothing to do and forgets. */
    method Intend(ghost w: World, worker: WorkerId, id: InvocationId)
      requires Shows(w)
      modifies rows, this`workers
      ensures Shows(NextTool(w, WorkerIntends(worker, id)))
    {
      if worker in workers && workers[worker].Intending? { return; }
      var committed := rows.IntendTool(now, id);
      workers := workers[worker := if committed then Intending(id) else Idle];
    }

    /** A worker that remembers an intent looks again, calls if all still stands, and forgets. */
    method Perform(ghost w: World, worker: WorkerId, outcome: Outcome)
      requires Shows(w)
      modifies rows, this`workers, this`made, this`outcomes
      ensures Shows(NextTool(w, WorkerPerforms(worker, outcome)))
    {
      if worker !in workers || !workers[worker].Intending? { return; }
      var id := workers[worker].id;
      var called := rows.PerformTool(now, id, outcome);
      workers := workers[worker := Idle];
      if called { made, outcomes := made + [id], outcomes + [outcome]; }
    }

    method DoTool(ghost w: World, a: Action)
      requires Shows(w) && (a.DoRequest? || a.DoDecide?)
      modifies rows
      ensures Shows(NextTool(w, a))
    {
      match a
      case DoRequest(c, wanting, newId) =>
        var _ := rows.Request(now, c, wanting, newId);
      case DoDecide(c, approval, bound, approve, ifMatch) =>
        var _ := rows.Decide(now, c, approval, bound, approve, ifMatch);
    }

    method DoReconcileTool(ghost w: World, a: Action)
      requires Shows(w) && a.DoReconcile?
      modifies rows
      ensures Shows(NextTool(w, a))
    {
      var _ := rows.ReconcileTool(now, a.caller, a.invocation, a.ifMatch, a.lookup);
    }

    method DoWorker(ghost w: World, a: Action)
      requires Shows(w) && (a.WorkerIntends? || a.WorkerPerforms? || a.WorkerGivesUp?)
      modifies rows, this`workers, this`made, this`outcomes
      ensures Shows(NextTool(w, a))
    {
      match a
      case WorkerIntends(worker, id) => Intend(w, worker, id);
      case WorkerPerforms(worker, outcome) => Perform(w, worker, outcome);
      case WorkerGivesUp(worker) => workers := workers[worker := Idle];
    }

    method DoSession(ghost w: World, a: Action)
      requires Shows(w) && (a.DoCreateSession? || a.DoNegotiate?)
      modifies rows
      ensures Shows(NextOther(w, a))
    {
      match a
      case DoCreateSession(c, agent, scopes, expires, newId) =>
        var _ := rows.OpenSession(now, c, agent, scopes, expires, newId);
      case DoNegotiate(c) =>
        var _ := rows.ShakeHands(now, c);
    }

    method DoRevoke(ghost w: World, a: Action)
      requires Shows(w) && (a.DoRevokeSession? || a.SessionsRevoked?)
      modifies rows
      ensures Shows(NextOther(w, a))
    {
      match a
      case DoRevokeSession(c, s, ifMatch) =>
        var _ := rows.Revoke(now, c, s, ifMatch);
      case SessionsRevoked(some) =>
        rows.RevokeSome(some);
    }

    method DoArchive(ghost w: World, a: Action)
      requires Shows(w) && a.DoProjectCommand?
      modifies rows
      ensures Shows(NextOther(w, a))
    {
      var _ := rows.ArchiveOrRestore(now, a.caller, a.archive, a.ifMatch);
    }

    method Enter(ghost w: World, actor: UserId)
      requires Shows(w)
      modifies rows
      ensures Shows(NextOther(w, Action.Enter(actor)))
    {
      var _ := rows.EnterMaintenance(actor);
    }

    method Leave(ghost w: World, actor: UserId)
      requires Shows(w)
      modifies rows
      ensures Shows(NextOther(w, Action.Leave(actor)))
    {
      var _ := rows.LeaveMaintenance(actor);
    }

    method ResolveItem(ghost w: World, item: ItemId, actor: UserId)
      requires Shows(w)
      modifies rows
      ensures Shows(NextOther(w, Action.ResolveItem(item, actor)))
    {
      var _ := rows.ResolveItem(item, actor);
    }

    method Finish(ghost w: World, actor: UserId)
      requires Shows(w)
      modifies rows
      ensures Shows(NextOther(w, Action.Finish(actor)))
    {
      var _ := rows.Finish(actor);
    }

    /** A restore loads the backup, then runs the quarantine script over it. */
    method Restore(ghost w: World, index: nat)
      requires Shows(w)
      modifies rows
      ensures Shows(NextOther(w, RestoreBackup(index)))
    {
      if index < |backups| {
        rows.Load(backups[index]);
        rows.QuarantineRestored();
      }
    }

    method DoBackup(ghost w: World)
      requires Shows(w)
      modifies this`backups
      ensures Shows(NextOther(w, TakeBackup))
    {
      backups := backups + [rows.State()];
    }

    method DoOutside(ghost w: World, a: Action)
      requires Shows(w) && (a.Tick? || a.Change?)
      modifies rows, this`now
      ensures Shows(NextOther(w, a))
    {
      if a.Tick? { now := now + a.d; } else { rows.ChangeOutside(a.env, a.renames); }
    }

    method DoWork(ghost w: World, a: Action)
      requires Shows(w) && (TaskAction(a) || DeliveryAction(a) || ToolAction(a))
      modifies rows, this`workers, this`made, this`outcomes
      ensures Shows(if TaskAction(a) then NextTask(w, a) else if DeliveryAction(a) then NextDelivery(w, a) else NextTool(w, a))
    {
      if a.DoCreateTask? || a.DoEditTask? || a.DoTransferTask? || a.DoAssignTask? || a.DoAddDependency? || a.DoRemoveDependency? {
        DoTask(w, a);
      } else if TaskAction(a) {
        DoRun(w, a);
      } else if a.DoUpload? || a.DoRegister? || a.DoVerify? {
        DoDelivery(w, a);
      } else if DeliveryAction(a) {
        DoReview(w, a);
      } else if a.DoRequest? || a.DoDecide? {
        DoTool(w, a);
      } else if a.DoReconcile? {
        DoReconcileTool(w, a);
      } else {
        DoWorker(w, a);
      }
    }

    method DoOther(ghost w: World, a: Action)
      requires Shows(w) && !TaskAction(a) && !DeliveryAction(a) && !ToolAction(a)
      modifies rows, this`backups, this`now
      ensures Shows(NextOther(w, a))
    {
      if a.DoCreateSession? || a.DoNegotiate? {
        DoSession(w, a);
      } else if a.DoRevokeSession? || a.SessionsRevoked? {
        DoRevoke(w, a);
      } else if a.DoProjectCommand? {
        DoArchive(w, a);
      } else if a.Enter? {
        Enter(w, a.actor);
      } else if a.Leave? {
        Leave(w, a.actor);
      } else if a.ResolveItem? {
        ResolveItem(w, a.item, a.actor);
      } else if a.Finish? {
        Finish(w, a.actor);
      } else if a.RestoreBackup? {
        Restore(w, a.index);
      } else if a.TakeBackup? {
        DoBackup(w);
      } else {
        DoOutside(w, a);
      }
    }

    /** Any request, worker transaction, operator command or outside change: one step of the state machine. */
    method Do(ghost w: World, a: Action)
      requires Shows(w)
      modifies rows, this`workers, this`made, this`outcomes, this`backups, this`now
      ensures Shows(Next(w, a))
    {
      if TaskAction(a) || DeliveryAction(a) || ToolAction(a) { DoWork(w, a); } else { DoOther(w, a); }
    }
  }

  // --- A whole history --------------------------------------------------------------------------------

  /** Every id is drawn once. */
  ghost predicate AllNew(script: seq<Action>) {
    forall i, j :: 0 <= i < j < |script| ==> NewIds(script[i]) !! NewIds(script[j])
  }

  /** None of the ids still to be drawn has been. */
  ghost predicate StillNew(w: World, script: seq<Action>, k: nat) {
    forall j :: k <= j < |script| ==> NewIds(script[j]) !! w.used
  }

  lemma StepUses(w: World, a: Action)
    ensures Next(w, a).used == w.used + NewIds(a)
  {
  }

  lemma StillNewNext(w: World, script: seq<Action>, k: nat)
    requires AllNew(script) && k < |script| && StillNew(w, script, k)
    ensures Possible(w, script[k]) && StillNew(Next(w, script[k]), script, k + 1)
  {
    StepUses(w, script[k]);
  }

  lemma RunExtends(states: seq<World>, actions: seq<Action>, a: Action)
    requires IsRun(states, actions) && Possible(states[|actions|], a)
    ensures IsRun(states + [Next(states[|actions|], a)], actions + [a])
  {
    var more, all := states + [Next(states[|actions|], a)], actions + [a];
    forall k: nat | k < |all| ensures StepsAt(more, all, k) {
      if k < |actions| { assert StepsAt(states, actions, k); }
    }
  }

  ghost predicate HonestCount(tools: Tools, i: InvocationId, n: nat) {
    && n <= 1
    && (i in tools.invocations ==>
          && (tools.invocations[i].status in {AwaitingApproval, ToolReady, ToolCanceled} ==> n == 0)
          && (tools.invocations[i].status == ToolSucceeded && tools.invocations[i].error.None? ==> n == 1))
  }

  ghost predicate WasAnswered(made: seq<InvocationId>, outcomes: seq<Outcome>, i: InvocationId) {
    exists n :: 0 <= n < |made| && n < |outcomes| && made[n] == i && outcomes[n] == Outcome.Answered
  }

  /** No call was made twice, and what the rows say of a call is true. */
  ghost predicate OnceAndHonest(tools: Tools, made: seq<InvocationId>, outcomes: seq<Outcome>) {
    && (forall i {:trigger multiset(made)[i]} :: HonestCount(tools, i, multiset(made)[i]))
    && (forall i :: i in tools.invocations && tools.invocations[i].status == ToolSucceeded && tools.invocations[i].error.None? ==> WasAnswered(made, outcomes, i))
  }

  /** An archived project is quiescent, maintenance excludes running operations, and no task waits for itself. */
  ghost predicate AtRest(db: Database) {
    && (db.archived ==> Quiet(db) && forall s :: s in db.sessions ==> !db.sessions[s].active)
    && (db.gate.maintenance ==> !InFlight(db.tools))
    && Acyclic(Edges(db.execution.dependencies))
  }

  /** Whatever script of requests, worker transactions, operator commands and outside changes an installation serves,
      its history is a run of the state machine; so all that holds of runs holds of it. */
  method Serve(env: Environment, start: int, script: seq<Action>) returns (i: Installation, ghost states: seq<World>)
    requires AllNew(script)
    ensures IsRun(states, script) && i.Shows(states[|script|])
    ensures OnceAndHonest(i.rows.State().tools, i.made, i.outcomes) && AtRest(i.rows.State())
  {
    i := new Installation(env, start);
    ghost var w := World(i.rows.State(), start, map[], [], {}, [], multiset{}, multiset{});
    states := [w];
    for k := 0 to |script|
      invariant fresh(i) && fresh(i.rows)
      invariant |states| == k + 1 && IsRun(states, script[..k]) && i.Shows(states[k]) && StillNew(states[k], script, k)
    {
      StillNewNext(states[k], script, k);
      RunExtends(states, script[..k], script[k]);
      assert script[..k + 1] == script[..k] + [script[k]];
      i.Do(states[k], script[k]);
      states := states + [Next(states[k], script[k])];
    }
    assert script[..|script|] == script;
    RunsAreHonest(states, script, |script|);
    RunsComeToRest(states, script, |script|);
  }

  lemma {:induction false} CountCalls(calls: seq<Call>, i: InvocationId)
    ensures multiset(CallIds(calls))[i] == Times(calls, i)
  {
    if calls != [] {
      var front := calls[..|calls| - 1];
      CountCalls(front, i);
      assert CallIds(calls) == CallIds(front) + [calls[|calls| - 1].id];
    }
  }

  lemma RunsAreHonest(states: seq<World>, actions: seq<Action>, k: nat)
    requires IsRun(states, actions) && k < |states|
    ensures OnceAndHonest(states[k].db.tools, CallIds(states[k].calls), CallOutcomes(states[k].calls))
  {
    forall i ensures HonestCount(states[k].db.tools, i, multiset(CallIds(states[k].calls))[i]) {
      EffectsAtMostOnce(states, actions, k, i);
      CountCalls(states[k].calls, i);
    }
    forall i | i in states[k].db.tools.invocations && states[k].db.tools.invocations[i].status == ToolSucceeded && states[k].db.tools.invocations[i].error.None?
      ensures WasAnswered(CallIds(states[k].calls), CallOutcomes(states[k].calls), i)
    {
      var n := Decisions.SuccessWasAnswered(states, actions, k, i);
      assert CallIds(states[k].calls)[n] == i && CallOutcomes(states[k].calls)[n] == Outcome.Answered;
    }
  }

  lemma RunsComeToRest(states: seq<World>, actions: seq<Action>, k: nat)
    requires IsRun(states, actions) && k < |states|
    ensures AtRest(states[k].db)
  {
    if states[k].db.archived { Guarantees.ArchiveIsQuiet(states, actions, k); }
    Guarantees.MaintenanceIsStill(states, actions, k);
    Guarantees.GraphStaysAcyclic(states, actions, k);
  }
}
