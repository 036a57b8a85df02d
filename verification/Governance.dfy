/** Governed tool execution: requests, approvals, the two-transaction worker and reconciliation
    (internal/controlplane/governance.go and governance_worker.go). */
module Governance {
  import opened Options
  import opened Tables
  import opened Access

  const BINDING_LIFETIME := 30 * 60

  // --- The authority an execution needs ---------------------------------------

  predicate BackendMatches(policy: Policy, b: Binding, backend: Backend) {
    && policy.enabled && policy.version == b.policyVersion && policy.resourceVersion == b.resourceVersion
    && backend.schema == b.schema && backend.resource == b.resource && backend.readOnly == policy.readOnly
  }

  function ValidateApproval(db: Database, doc: Invocation, delegator: UserId): Result<()> {
    if doc.approval.None? || doc.approval.value !in db.tools.approvals then Err(NotFound)
    else
      var approval := db.tools.approvals[doc.approval.value];
      :- Need(approval.status == Approved && approval.digest == doc.digest && approval.decider != Some(delegator), ApprovalRequired);
      :- Need(approval.decider.Some? && ActiveWith(db.env, approval.decider.value, Reviewer), ReviewerRevoked);
      Ok(())
  }

  /** `validateInvocation`: run before approval, before intent and again right before the effect. */
  function Validate(db: Database, now: int, doc: Invocation, approved: bool): Result<()> {
    var b := doc.binding;
    :- Need(now < b.expires, BindingExpired);
    :- Need(doc.session in db.sessions, Unauthenticated);
    var p := db.sessions[doc.session];
    :- Need(SessionLive(p, now) && ToolsInvoke in p.scopes, DelegationRevoked);
    :- Need(ActiveWith(db.env, p.human, Member) && ActiveMember(db.env, doc.owner), DelegationRevoked);
    :- Need(doc.run in db.execution.runs && doc.task in db.execution.tasks, NotFound);
    var run, task := db.execution.runs[doc.run], db.execution.tasks[doc.task];
    :- Need(run.status == RunRunning && now < run.expires && task.status == Running && run.session == doc.session, RunInactive);
    :- Need(b.tool in db.env.policies, NotFound);
    var policy := db.env.policies[b.tool];
    :- Need(policy.backend in db.env.backends, ToolUnavailable);
    var backend := db.env.backends[policy.backend];
    :- Need(BackendMatches(policy, b, backend), PolicyChanged);
    :- Need(doc.arguments == b.arguments && doc.digest == b && doc.arguments in backend.accepts, BindingChanged);
    if approved && !policy.readOnly then ValidateApproval(db, doc, p.human) else Ok(())
  }

  // --- Requests ------------------------------------------------------------------

  datatype Wanted = Wanted(run: RunId, tool: ToolId, resourceVersion: nat, arguments: Arguments, artifacts: seq<ArtifactId>,
                           key: nat, fence: nat, ifMatch: nat)

  function CheckEvidence(db: Database, run: RunId, artifacts: seq<ArtifactId>): Check {
    if artifacts == [] then Pass
    else
      var id := artifacts[0];
      if id !in db.evidence.artifacts then Fail(NotFound)
      else if db.evidence.artifacts[id].run != run || db.evidence.artifacts[id].verification != Verified then Fail(InvalidToolEvidence)
      else CheckEvidence(db, run, artifacts[1..])
  }

  predicate MergeEvidence(db: Database, repository: nat, arguments: Arguments, artifacts: seq<ArtifactId>) {
    exists id :: id in artifacts && id in db.evidence.artifacts &&
                 var a := db.evidence.artifacts[id];
                 a.kind == PullRequest && a.revision == arguments.commit && a.uri == Pull(repository, arguments.pullRequest)
  }

  function Bind(now: int, q: Request, w: Wanted, policy: Policy, backend: Backend): Binding
    requires q.session.Some?
  {
    Binding(q.session.value, w.run, w.tool, backend.schema, backend.resource, policy.resourceVersion, w.arguments, w.artifacts,
            policy.version, now + BINDING_LIFETIME)
  }

  /** The earlier request of this Session under the same key, if any. */
  function Prior(tools: Tools, session: SessionId, key: nat): set<InvocationId> {
    set i | i in tools.invocations && tools.invocations[i].session == session && tools.invocations[i].key == key
  }

  predicate SameRequest(prior: Invocation, w: Wanted, policy: Policy) {
    && prior.run == w.run && prior.binding.tool == w.tool && prior.binding.arguments == w.arguments
    && prior.binding.resourceVersion == policy.resourceVersion && prior.binding.artifacts == w.artifacts
  }

  function Requested(run: TaskRun, w: Wanted, b: Binding, q: Request, policy: Policy, newId: nat): Invocation {
    Invocation(w.run, run.task, run.session, run.owner, run.delegator, w.key, b, b, w.arguments,
               if policy.readOnly then None else Some(newId),
               if policy.readOnly then ToolReady else AwaitingApproval, None, 1)
  }

  function RequestInvocation(db: Database, now: int, caller: Caller, w: Wanted, newId: nat): Result<Tools> {
    var q :- Admit(db, now, caller, INVOKING);
    var run :- ActiveRun(db, now, q, w.run, w.fence, w.ifMatch);
    :- Need(w.tool in db.env.policies, NotFound);
    var policy := db.env.policies[w.tool];
    :- Need(policy.backend in db.env.backends, ToolUnavailable);
    var backend := db.env.backends[policy.backend];
    :- Need(policy.enabled && policy.resourceVersion == w.resourceVersion && policy.schema == backend.schema, PolicyChanged);
    :- Need(w.arguments in backend.accepts, InvalidToolArguments);
    :- CheckEvidence(db, w.run, w.artifacts);
    :- Need(backend.merges.None? || MergeEvidence(db, backend.merges.value, w.arguments, w.artifacts), MergeEvidenceRequired);
    var prior := Prior(db.tools, run.session, w.key);
    if prior != {} then
      :- Need(SameRequest(db.tools.invocations[LeastOf(prior)], w, policy), IdempotencyConflict);
      Ok(db.tools)
    else
      var b := Bind(now, q, w, policy, backend);
      var approvals := if policy.readOnly then db.tools.approvals
                       else db.tools.approvals[newId := Approval(newId, q.user, b, Undecided, None, 1)];
      Ok(Tools(db.tools.invocations[newId := Requested(run, w, b, q, policy, newId)], approvals))
  }

  // --- Decisions -------------------------------------------------------------------

  function Saved(doc: Invocation): Invocation { doc.(version := doc.version + 1) }

  function DecideApproval(db: Database, now: int, caller: Caller, id: ApprovalId, digest: Binding, approve: bool, ifMatch: nat): Result<Tools> {
    var q :- Admit(db, now, caller, BY_REVIEWER);
    :- Need(id in db.tools.approvals, NotFound);
    var doc := db.tools.approvals[id];
    :- Need(ifMatch == doc.version, VersionConflict);
    :- Need(doc.requester != q.user, SeparationRequired);
    :- Need(doc.status == Undecided, ApprovalFinal);
    :- Need(doc.digest == digest, BindingChanged);
    :- Need(doc.invocation in db.tools.invocations, NotFound);
    var invocation := db.tools.invocations[doc.invocation];
    :- Need(invocation.status == AwaitingApproval, InvocationInactive);
    var _ :- Validate(db, now, invocation, false);
    var decided := doc.(status := if approve then Approved else Declined, decider := Some(q.user), version := doc.version + 1);
    var moved := Saved(invocation.(status := if approve then ToolReady else ToolCanceled));
    Ok(Tools(db.tools.invocations[doc.invocation := moved], db.tools.approvals[id := decided]))
  }

  // --- The worker's two transactions ------------------------------------------------

  function Moved(tools: Tools, id: InvocationId, status: InvocationStatus, error: Option<ErrorCode>): Tools
    requires id in tools.invocations
  {
    tools.(invocations := tools.invocations[id := Saved(tools.invocations[id].(status := status, error := error))])
  }

  function Expiring(tools: Tools, id: ApprovalId): Tools
    requires id in tools.approvals
  {
    var a := tools.approvals[id];
    if a.status == Undecided then tools.(approvals := tools.approvals[id := a.(status := Expired, version := a.version + 1)]) else tools
  }

  /** First transaction: what it leaves behind, and whether this worker goes on to the effect. */
  function Intend(db: Database, now: int, id: InvocationId): (Tools, bool) {
    if db.gate.maintenance || id !in db.tools.invocations then (db.tools, false)
    else
      var doc := db.tools.invocations[id];
      if doc.status == ToolRunning then (Moved(db.tools, id, ToolUnknown, Some(WorkerInterrupted)), false)
      else if doc.status != ToolReady && doc.status != AwaitingApproval then (db.tools, false)
      else if Validate(db, now, doc, doc.status == ToolReady).Err? then
        if doc.approval.Some? && doc.approval.value !in db.tools.approvals then (db.tools, false)
        else
          var canceled := Moved(db.tools, id, ToolCanceled, Some(AuthorityOrBindingChanged));
          (if doc.approval.Some? then Expiring(canceled, doc.approval.value) else canceled, false)
      else if doc.status == AwaitingApproval then (db.tools, false)
      else (Moved(db.tools, id, ToolRunning, doc.error), true)
  }

  /** How the external call went: it answered, it failed or timed out, or the worker died before commit. */
  datatype Outcome = Answered | Errored | Crashed

  /** Second transaction: what it leaves behind, and whether the external call was made. */
  function Perform(db: Database, now: int, id: InvocationId, outcome: Outcome): (Tools, bool) {
    if db.gate.maintenance || id !in db.tools.invocations || db.tools.invocations[id].status != ToolRunning then (db.tools, false)
    else
      var doc := db.tools.invocations[id];
      if Validate(db, now, doc, true).Err? then (Moved(db.tools, id, ToolCanceled, Some(PreExecutionAuthorityChanged)), false)
      else
        (match outcome
         case Answered => Moved(db.tools, id, ToolSucceeded, doc.error)
         case Errored => Moved(db.tools, id, ToolUnknown, Some(ExternalOutcomeUnknown))
         case Crashed => db.tools, true)
  }

  // --- Reconciliation -----------------------------------------------------------------

  /** What the backend's lookup says: no answer, done, or failed. */
  datatype Lookup = NoAnswer | DoneThere | FailedThere

  function ReconcileInvocation(db: Database, now: int, caller: Caller, id: InvocationId, ifMatch: nat, lookup: Lookup): Result<Tools> {
    var q :- Admit(db, now, caller, RECONCILING);
    :- Need(id in db.tools.invocations, NotFound);
    var doc := db.tools.invocations[id];
    :- Need(ifMatch == doc.version, VersionConflict);
    :- Need(doc.status == ToolUnknown, ReconciliationNotRequired);
    :- Need(doc.binding.tool in db.env.policies, NotFound);
    var policy := db.env.policies[doc.binding.tool];
    :- Need(policy.backend in db.env.backends, ToolUnavailable);
    var backend := db.env.backends[policy.backend];
    :- Need(backend.schema == doc.binding.schema && backend.resource == doc.binding.resource, BackendChanged);
    :- Need(lookup != NoAnswer, OutcomeUnknown);
    Ok(Moved(db.tools, id, if lookup == DoneThere then ToolSucceeded else ToolFailed, doc.error))
  }
}
