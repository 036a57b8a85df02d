/** Rows tell the truth about the past.

    Every verdict on record was given, by the action that gives it and by whom it says: approvals by their reviewers,
    outcomes by calls and lookups, tasks, Runs and evidence by what people and agents did to them. Here each write is
    shown to keep that; `Histories` carries it through every run. */
module Verdicts {
  import opened Options
  import opened Tables
  import opened Access
  import opened TaskFlow
  import opened Governance
  import opened Delivery
  import opened Recovery
  import opened ControlPlane
  import opened TaskSafety
  import opened ToolSafety
  import opened Causes

  // --- What was said and done -----------------------------------------------------------

  predicate Decides(x: Action, id: ApprovalId, bound: Binding, approve: bool, user: UserId) {
    x.DoDecide? && x.approval == id && x.bound == bound && x.approve == approve && x.caller == Human(user)
  }

  predicate Settles(x: Action, id: InvocationId, lookup: Lookup) { x.DoReconcile? && x.invocation == id && x.lookup == lookup }

  predicate Reports(x: Action, id: RunId, success: bool) {
    x.DoReport? && x.run == id && if success then x.report.CompletionCandidate? else x.report.Failure?
  }

  predicate Cancels(x: Action, id: TaskId) { x.DoCommand? && x.task == id && x.command == Command.Cancel }

  predicate Accepts(x: Action, id: TaskId) { x.DoReviewTask? && x.task == id && x.accept }

  predicate Loses(x: Action) { x.WorkerReconciles? || x.RestoreBackup? }

  ghost predicate AcceptsArtifact(x: Action, id: ArtifactId, run: RunId) {
    (x.DoReviewArtifact? && x.artifact == id && x.accept) || (x.DoReviewTask? && x.accept && x.run == run && Names(x.refs, id))
  }

  predicate RejectsArtifact(x: Action, id: ArtifactId) { x.DoReviewArtifact? && x.artifact == id && !x.accept }

  predicate VouchesFor(x: Action, id: ArtifactId) {
    (x.DoVerify? && x.artifact == id && x.provider == Confirms) || (x.DoRegister? && x.newId == id && x.registration.uri.Stored?)
  }

  predicate Refutes(x: Action, id: ArtifactId) { x.DoVerify? && x.artifact == id && x.provider == Denies }

  ghost predicate WasCalled(calls: seq<Call>, id: InvocationId, outcome: Outcome) {
    exists n :: 0 <= n < |calls| && calls[n].id == id && calls[n].outcome == outcome
  }

  // --- What the rows say -------------------------------------------------------------------

  /** An approval that stands decided was decided so, on exactly this binding, by the person on record. */
  ghost predicate ApprovalTrue(acts: seq<Action>, id: ApprovalId, a: Approval) {
    a.status in {Approved, Declined} ==>
      a.decider.Some? && exists x :: x in acts && Decides(x, id, a.digest, a.status == Approved, a.decider.value)
  }

  /** A success without an error was answered; one with an error, and every failure, was found out by lookup; an unknown
      external outcome comes from a call that failed. */
  ghost predicate OperationTrue(acts: seq<Action>, calls: seq<Call>, id: InvocationId, v: Invocation) {
    && (v.status == ToolSucceeded && v.error.None? ==> WasCalled(calls, id, Outcome.Answered))
    && (v.status == ToolSucceeded && v.error.Some? ==> exists x :: x in acts && Settles(x, id, DoneThere))
    && (v.status == ToolFailed ==> exists x :: x in acts && Settles(x, id, FailedThere))
    && (v.error == Some(ExternalOutcomeUnknown) ==> WasCalled(calls, id, Errored))
  }

  ghost predicate ToolsTrue(acts: seq<Action>, calls: seq<Call>, tools: Tools) {
    && (forall a :: a in tools.approvals ==> ApprovalTrue(acts, a, tools.approvals[a]))
    && (forall i :: i in tools.invocations ==> OperationTrue(acts, calls, i, tools.invocations[i]))
  }

  ghost predicate TaskTrue(acts: seq<Action>, id: TaskId, t: Task) {
    && (t.status == Done ==> exists x :: x in acts && Accepts(x, id))
    && (t.status == Canceled ==> exists x :: x in acts && Cancels(x, id))
  }

  ghost predicate RunTrue(acts: seq<Action>, id: RunId, r: TaskRun) {
    && (r.status == RunSucceeded ==> exists x :: x in acts && Reports(x, id, true))
    && (r.status == RunFailed ==> exists x :: x in acts && Reports(x, id, false))
    && (r.status == RunCanceled ==> exists x :: x in acts && Cancels(x, r.task))
    && (r.status == RunLost ==> exists x :: x in acts && Loses(x))
  }

  ghost predicate WorkTrue(acts: seq<Action>, x: Execution) {
    && (forall t :: t in x.tasks ==> TaskTrue(acts, t, x.tasks[t]))
    && (forall r :: r in x.runs ==> RunTrue(acts, r, x.runs[r]))
  }

  ghost predicate ArtifactTrue(acts: seq<Action>, id: ArtifactId, a: Artifact) {
    && (a.acceptance == Accepted ==> exists x :: x in acts && AcceptsArtifact(x, id, a.run))
    && (a.acceptance == Rejected ==> exists x :: x in acts && RejectsArtifact(x, id))
    && (a.verification == Verified ==> exists x :: x in acts && VouchesFor(x, id))
    && (a.verification == VerificationFailed ==> exists x :: x in acts && Refutes(x, id))
  }

  ghost predicate EvidenceTrue(acts: seq<Action>, e: Evidence) {
    forall id :: id in e.artifacts ==> ArtifactTrue(acts, id, e.artifacts[id])
  }

  ghost predicate RowsTrue(acts: seq<Action>, calls: seq<Call>, db: Database) {
    ToolsTrue(acts, calls, db.tools) && WorkTrue(acts, db.execution) && EvidenceTrue(acts, db.evidence)
  }

  /** The live rows and those of every backup. */
  ghost predicate AllTrue(acts: seq<Action>, w: World) {
    RowsTrue(acts, w.calls, w.db) && forall k :: 0 <= k < |w.backups| ==> RowsTrue(acts, w.calls, w.backups[k])
  }

  // --- The past is never taken back -----------------------------------------------------------

  ghost predicate Longer(acts: seq<Action>, later: seq<Action>, calls: seq<Call>, more: seq<Call>) {
    acts <= later && calls <= more
  }

  lemma CalledStays(calls: seq<Call>, more: seq<Call>, id: InvocationId, outcome: Outcome)
    requires calls <= more && WasCalled(calls, id, outcome)
    ensures WasCalled(more, id, outcome)
  {
    var n :| 0 <= n < |calls| && calls[n].id == id && calls[n].outcome == outcome;
    assert more[n] == calls[n];
  }

  lemma OperationStaysTrue(acts: seq<Action>, later: seq<Action>, calls: seq<Call>, more: seq<Call>, id: InvocationId, v: Invocation)
    requires Longer(acts, later, calls, more) && OperationTrue(acts, calls, id, v)
    ensures OperationTrue(later, more, id, v)
  {
    if WasCalled(calls, id, Outcome.Answered) { CalledStays(calls, more, id, Outcome.Answered); }
    if WasCalled(calls, id, Errored) { CalledStays(calls, more, id, Errored); }
  }

  lemma ApprovalStaysTrue(acts: seq<Action>, later: seq<Action>, id: ApprovalId, a: Approval)
    requires acts <= later && ApprovalTrue(acts, id, a)
    ensures ApprovalTrue(later, id, a)
  {
    if a.status in {Approved, Declined} {
      var x :| x in acts && Decides(x, id, a.digest, a.status == Approved, a.decider.value);
      assert x in later;
    }
  }

  lemma ToolsStayTrue(acts: seq<Action>, later: seq<Action>, calls: seq<Call>, more: seq<Call>, tools: Tools)
    requires Longer(acts, later, calls, more) && ToolsTrue(acts, calls, tools)
    ensures ToolsTrue(later, more, tools)
  {
    forall a | a in tools.approvals ensures ApprovalTrue(later, a, tools.approvals[a]) { ApprovalStaysTrue(acts, later, a, tools.approvals[a]); }
    forall i | i in tools.invocations ensures OperationTrue(later, more, i, tools.invocations[i]) {
      OperationStaysTrue(acts, later, calls, more, i, tools.invocations[i]);
    }
  }

  lemma WorkStaysTrue(acts: seq<Action>, later: seq<Action>, x: Execution)
    requires acts <= later && WorkTrue(acts, x)
    ensures WorkTrue(later, x)
  {
    forall t | t in x.tasks ensures TaskTrue(later, t, x.tasks[t]) { assert TaskTrue(acts, t, x.tasks[t]); }
    forall r | r in x.runs ensures RunTrue(later, r, x.runs[r]) { assert RunTrue(acts, r, x.runs[r]); }
  }

  lemma EvidenceStaysTrue(acts: seq<Action>, later: seq<Action>, e: Evidence)
    requires acts <= later && EvidenceTrue(acts, e)
    ensures EvidenceTrue(later, e)
  {
    forall id | id in e.artifacts ensures ArtifactTrue(later, id, e.artifacts[id]) { assert ArtifactTrue(acts, id, e.artifacts[id]); }
  }

  // --- Each step writes only what its action says ------------------------------------------------

  lemma MovesStayTrue(acts: seq<Action>, a: Action, x: Execution, y: Execution)
    requires WorkTrue(acts, x) && ExecutionMoves(a, x, y) && forall r :: r in x.runs && r in y.runs ==> y.runs[r].task == x.runs[r].task
    ensures WorkTrue(acts + [a], y)
  {
    var later := acts + [a];
    assert a in later;
    WorkStaysTrue(acts, later, x);
    forall t | t in y.tasks ensures TaskTrue(later, t, y.tasks[t]) {
      if t in x.tasks && y.tasks[t].status == x.tasks[t].status { assert TaskTrue(later, t, x.tasks[t]); }
    }
    forall r | r in y.runs ensures RunTrue(later, r, y.runs[r]) {
      if r in x.runs && y.runs[r].status == x.runs[r].status { assert RunTrue(later, r, x.runs[r]); }
    }
  }

  lemma EvidenceMovesStayTrue(acts: seq<Action>, a: Action, e: Evidence, f: Evidence)
    requires EvidenceTrue(acts, e) && EvidenceMoved(a, e, f) && forall id :: id in e.artifacts && id in f.artifacts ==> f.artifacts[id].run == e.artifacts[id].run
    ensures EvidenceTrue(acts + [a], f)
  {
    var later := acts + [a];
    assert a in later;
    EvidenceStaysTrue(acts, later, e);
    forall id | id in f.artifacts ensures ArtifactTrue(later, id, f.artifacts[id]) {
      if id in e.artifacts { assert ArtifactTrue(later, id, e.artifacts[id]); }
    }
  }

  /** One operation, and perhaps one approval, is rewritten with the truth. */
  lemma RewriteStaysTrue(acts: seq<Action>, calls: seq<Call>, tools: Tools, later: Tools)
    requires ToolsTrue(acts, calls, tools)
    requires forall i :: i in later.invocations ==> (i in tools.invocations && later.invocations[i] == tools.invocations[i]) || OperationTrue(acts, calls, i, later.invocations[i])
    requires forall a :: a in later.approvals ==> (a in tools.approvals && later.approvals[a] == tools.approvals[a]) || ApprovalTrue(acts, a, later.approvals[a])
    ensures ToolsTrue(acts, calls, later)
  {
  }

  lemma RequestTrue(w: World, acts: seq<Action>, a: Action)
    requires a.DoRequest? && ToolsTrue(acts, w.calls, w.db.tools)
    ensures ToolsTrue(acts, w.calls, NextTool(w, a).db.tools)
  {
    RewriteStaysTrue(acts, w.calls, w.db.tools, NextTool(w, a).db.tools);
  }

  /** What a decision does: by the reviewer's verdict, to this approval and its operation. */
  ghost predicate Decided(tools: Tools, later: Tools, id: ApprovalId, bound: Binding, approve: bool, user: UserId) {
    && id in tools.approvals && tools.approvals[id].status == Undecided && tools.approvals[id].digest == bound
    && tools.approvals[id].requester != user && tools.approvals[id].invocation in tools.invocations
    && var i := tools.approvals[id].invocation;
       && tools.invocations[i].status == AwaitingApproval
       && later.approvals == tools.approvals[id := tools.approvals[id].(status := if approve then Approved else Declined,
                                                                        decider := Some(user), version := tools.approvals[id].version + 1)]
       && later.invocations == tools.invocations[i := tools.invocations[i].(status := if approve then ToolReady else ToolCanceled,
                                                                            version := tools.invocations[i].version + 1)]
  }

  lemma DecisionDecides(db: Database, now: int, c: Caller, id: ApprovalId, bound: Binding, approve: bool, ifMatch: nat)
    ensures var r := DecideApproval(db, now, c, id, bound, approve, ifMatch);
            r.Ok? ==> c.Human? && Decided(db.tools, r.value, id, bound, approve, c.user)
  {
  }

  lemma DecisionTrue(w: World, acts: seq<Action>, a: Action)
    requires a.DoDecide? && a in acts && ToolsTrue(acts, w.calls, w.db.tools)
    requires forall i :: i in w.db.tools.invocations && w.db.tools.invocations[i].status == AwaitingApproval ==> w.db.tools.invocations[i].error.None?
    ensures ToolsTrue(acts, w.calls, NextTool(w, a).db.tools)
  {
    var r := DecideApproval(w.db, w.now, a.caller, a.approval, a.bound, a.approve, a.ifMatch);
    if r.Ok? {
      DecisionDecides(w.db, w.now, a.caller, a.approval, a.bound, a.approve, a.ifMatch);
      assert Decides(a, a.approval, a.bound, a.approve, a.caller.user);
      RewriteStaysTrue(acts, w.calls, w.db.tools, r.value);
    }
  }

  lemma IntentTrue(w: World, acts: seq<Action>, i: InvocationId)
    requires ToolsTrue(acts, w.calls, w.db.tools)
    ensures ToolsTrue(acts, w.calls, Intend(w.db, w.now, i).0)
  {
    if i in w.db.tools.invocations { assert OperationTrue(acts, w.calls, i, w.db.tools.invocations[i]); }
    RewriteStaysTrue(acts, w.calls, w.db.tools, Intend(w.db, w.now, i).0);
  }

  /** What a call leaves on record: an answer is a success, a failed or timed out call is unknown, and a transaction that
      does not commit leaves the rows as they were. */
  ghost predicate CallRecorded(tools: Tools, later: Tools, i: InvocationId, outcome: Outcome) {
    && i in tools.invocations && tools.invocations[i].status == ToolRunning && later.approvals == tools.approvals
    && later.invocations == (match outcome
                             case Crashed => tools.invocations
                             case Answered => tools.invocations[i := tools.invocations[i].(status := ToolSucceeded, version := tools.invocations[i].version + 1)]
                             case Errored => tools.invocations[i := tools.invocations[i].(status := ToolUnknown, error := Some(ExternalOutcomeUnknown),
                                                                                          version := tools.invocations[i].version + 1)])
  }

  lemma PerformanceRecords(db: Database, now: int, i: InvocationId, outcome: Outcome)
    ensures var (tools, called) := Perform(db, now, i, outcome);
            if called then CallRecorded(db.tools, tools, i, outcome)
            else tools == db.tools || (i in db.tools.invocations && tools.approvals == db.tools.approvals && i in tools.invocations
                                       && tools.invocations == db.tools.invocations[i := tools.invocations[i]]
                                       && tools.invocations[i].status == ToolCanceled && tools.invocations[i].error == Some(PreExecutionAuthorityChanged))
  {
  }

  lemma PerformanceTrue(w: World, acts: seq<Action>, worker: WorkerId, i: InvocationId, outcome: Outcome)
    requires ToolsTrue(acts, w.calls, w.db.tools) && NotYetCalled(w.db.tools, w.calls)
    ensures var v := NextPerformance(w, worker, i, outcome); ToolsTrue(acts, v.calls, v.db.tools)
  {
    var v := NextPerformance(w, worker, i, outcome);
    PerformanceRecords(w.db, w.now, i, outcome);
    ToolsStayTrue(acts, acts, w.calls, v.calls, w.db.tools);
    if v.calls != w.calls { assert v.calls[|w.calls|].id == i && v.calls[|w.calls|].outcome == outcome; }
    RewriteStaysTrue(acts, v.calls, w.db.tools, v.db.tools);
  }

  /** What a reconciliation does: by the lookup's answer, to an operation that was unknown, keeping its error. */
  ghost predicate LookedUp(tools: Tools, later: Tools, i: InvocationId, lookup: Lookup) {
    && i in tools.invocations && tools.invocations[i].status == ToolUnknown && lookup != Lookup.NoAnswer && later.approvals == tools.approvals
    && later.invocations == tools.invocations[i := tools.invocations[i].(status := if lookup == DoneThere then ToolSucceeded else ToolFailed,
                                                                         version := tools.invocations[i].version + 1)]
  }

  lemma ReconciliationSettles(db: Database, now: int, c: Caller, i: InvocationId, ifMatch: nat, lookup: Lookup)
    ensures var r := ReconcileInvocation(db, now, c, i, ifMatch, lookup); r.Ok? ==> LookedUp(db.tools, r.value, i, lookup)
  {
  }

  lemma ReconciliationTrue(w: World, acts: seq<Action>, a: Action)
    requires a.DoReconcile? && a in acts && ToolsTrue(acts, w.calls, w.db.tools) && AllHonest(w.db.tools, w.calls)
    ensures ToolsTrue(acts, w.calls, NextTool(w, a).db.tools)
  {
    var r := ReconcileInvocation(w.db, w.now, a.caller, a.invocation, a.ifMatch, a.lookup);
    if r.Ok? {
      ReconciliationSettles(w.db, w.now, a.caller, a.invocation, a.ifMatch, a.lookup);
      assert Honest(w.db.tools.invocations[a.invocation], Times(w.calls, a.invocation));
      assert OperationTrue(acts, w.calls, a.invocation, w.db.tools.invocations[a.invocation]);
      assert Settles(a, a.invocation, a.lookup);
      RewriteStaysTrue(acts, w.calls, w.db.tools, r.value);
    }
  }

  lemma ToolStepTrue(w: World, acts: seq<Action>, a: Action)
    requires ToolAction(a) && a in acts && ToolsTrue(acts, w.calls, w.db.tools)
    requires NotYetCalled(w.db.tools, w.calls) && AllHonest(w.db.tools, w.calls)
    ensures var v := NextTool(w, a); ToolsTrue(acts, v.calls, v.db.tools)
  {
    match a
    case DoRequest(_, _, _) => RequestTrue(w, acts, a);
    case DoDecide(_, _, _, _, _) => DecisionTrue(w, acts, a);
    case WorkerIntends(_, id) => IntentTrue(w, acts, id);
    case WorkerPerforms(worker, outcome) =>
      if worker in w.workers && w.workers[worker].Intending? { PerformanceTrue(w, acts, worker, w.workers[worker].id, outcome); }
    case WorkerGivesUp(_) =>
    case DoReconcile(_, _, _, _) => ReconciliationTrue(w, acts, a);
  }
}
