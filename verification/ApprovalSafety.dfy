/** Approvals bind one exact operation, are decided once and by someone else.

    Every operation is tied to its Run and to its own approval, handler by handler; and every external call is made
    under authority that is complete at that very moment. */
module ApprovalSafety {
  import opened Options
  import opened Tables
  import opened Access
  import opened Governance
  import opened Recovery
  import opened ControlPlane
  import opened ToolSafety
  import opened TaskSafety

  /** Every Run was claimed through a Session of the person it is delegated by. */
  ghost predicate Delegated(runs: map<RunId, TaskRun>, sessions: map<SessionId, Session>) {
    forall r :: r in runs ==> runs[r].session in sessions && sessions[runs[r].session].human == runs[r].delegator
  }

  /** The operation is of this Run, and its digest is that of its own binding and arguments. */
  ghost predicate Tied(v: Invocation, run: TaskRun) {
    && v.task == run.task && v.session == run.session && v.owner == run.owner && v.delegator == run.delegator
    && v.digest == v.binding && v.arguments == v.binding.arguments && v.binding.run == v.run && v.binding.session == v.session
  }

  /** Its approval, if it needs one, is of this operation alone. */
  ghost predicate OwnApproval(tools: Tools, i: InvocationId)
    requires i in tools.invocations
  {
    var v := tools.invocations[i];
    v.approval.Some? ==>
      && v.approval.value in tools.approvals
      && var a := tools.approvals[v.approval.value];
         a.invocation == i && a.requester == v.delegator && a.digest == v.digest
  }

  /** Awaiting means undecided; ready or running means approved, where approval is needed at all. */
  ghost predicate Standing(tools: Tools, i: InvocationId)
    requires i in tools.invocations && OwnApproval(tools, i)
  {
    var v := tools.invocations[i];
    && (v.status == AwaitingApproval ==> v.approval.Some? && tools.approvals[v.approval.value].status == Undecided)
    && (v.status in {ToolReady, ToolRunning} && v.approval.Some? ==> tools.approvals[v.approval.value].status == Approved)
  }

  /** A decision has a decider, and it is not the person who asked. */
  ghost predicate Independent(a: Approval) {
    && (a.status in {Approved, Declined} <==> a.decider.Some?)
    && a.decider != Some(a.requester)
  }

  ghost predicate Bound(runs: map<RunId, TaskRun>, tools: Tools) {
    && (forall i :: i in tools.invocations ==>
          && tools.invocations[i].run in runs && Tied(tools.invocations[i], runs[tools.invocations[i].run])
          && OwnApproval(tools, i) && Standing(tools, i))
    && (forall a :: a in tools.approvals ==>
          && tools.approvals[a].invocation in tools.invocations && tools.invocations[tools.approvals[a].invocation].approval == Some(a)
          && Independent(tools.approvals[a]))
  }

  lemma RunsKeepBound(runs: map<RunId, TaskRun>, later: map<RunId, TaskRun>, tools: Tools)
    requires Bound(runs, tools) && forall r :: r in runs ==> r in later && RunKept(runs[r], later[r])
    ensures Bound(later, tools)
  {
    forall i | i in tools.invocations ensures Tied(tools.invocations[i], later[tools.invocations[i].run]) {
      assert RunKept(runs[tools.invocations[i].run], later[tools.invocations[i].run]);
    }
  }

  /** One operation, and at most its own approval, change their standing. */
  lemma MovedBound(runs: map<RunId, TaskRun>, tools: Tools, later: Tools, i: InvocationId, a: Option<ApprovalId>)
    requires Bound(runs, tools) && i in tools.invocations && i in later.invocations
    requires later.invocations == tools.invocations[i := later.invocations[i]] && SameOperation(tools.invocations[i], later.invocations[i])
    requires a.None? ==> later.approvals == tools.approvals
    requires a.Some? ==>
               && a == tools.invocations[i].approval && a.value in later.approvals
               && later.approvals == tools.approvals[a.value := later.approvals[a.value]]
               && var b, c := tools.approvals[a.value], later.approvals[a.value];
                  c == b.(status := c.status, decider := c.decider, version := c.version) && Independent(c)
    requires var v := later.invocations[i];
             && (v.status == AwaitingApproval ==> v.approval.Some? && later.approvals[v.approval.value].status == Undecided)
             && (v.status in {ToolReady, ToolRunning} && v.approval.Some? ==> later.approvals[v.approval.value].status == Approved)
    ensures Bound(runs, later)
  {
    forall j | j in later.invocations
      ensures Tied(later.invocations[j], runs[later.invocations[j].run]) && OwnApproval(later, j) && Standing(later, j)
    {
      assert Tied(tools.invocations[j], runs[tools.invocations[j].run]) && OwnApproval(tools, j) && Standing(tools, j);
    }
    forall b | b in later.approvals
      ensures later.approvals[b].invocation in later.invocations && later.invocations[later.approvals[b].invocation].approval == Some(b)
              && Independent(later.approvals[b])
    {
    }
  }

  lemma RequestBound(db: Database, now: int, c: Caller, w: Wanted, newId: nat)
    requires Bound(db.execution.runs, db.tools) && Delegated(db.execution.runs, db.sessions)
    requires newId !in db.tools.invocations && newId !in db.tools.approvals
    ensures var r := RequestInvocation(db, now, c, w, newId); r.Ok? ==> Bound(db.execution.runs, r.value)
  {
    var r := RequestInvocation(db, now, c, w, newId);
    if r.Ok? && r.value != db.tools {
      RequestShape(db, now, c, w, newId);
      BornBound(db.execution.runs, db.tools, r.value, newId);
    }
  }

  /** What a new operation is born with. */
  ghost predicate Born(runs: map<RunId, TaskRun>, tools: Tools, later: Tools, newId: nat) {
    && newId in later.invocations && later.invocations == tools.invocations[newId := later.invocations[newId]]
    && var v := later.invocations[newId];
       && v.run in runs && Tied(v, runs[v.run])
       && (if v.approval.None? then later.approvals == tools.approvals && v.status == ToolReady
           else v.approval == Some(newId) && v.status == AwaitingApproval
                && later.approvals == tools.approvals[newId := Approval(newId, v.delegator, v.digest, Undecided, None, 1)])
  }

  lemma RequestShape(db: Database, now: int, c: Caller, w: Wanted, newId: nat)
    requires Delegated(db.execution.runs, db.sessions)
    ensures var r := RequestInvocation(db, now, c, w, newId);
            r.Ok? ==> r.value == db.tools || Born(db.execution.runs, db.tools, r.value, newId)
  {
    var r := RequestInvocation(db, now, c, w, newId);
    if r.Ok? && r.value != db.tools {
      var q := Admit(db, now, c, INVOKING).value;
      assert q.session == Some(db.execution.runs[w.run].session);
      assert q.user == db.sessions[q.session.value].human;
    }
  }

  lemma BornBound(runs: map<RunId, TaskRun>, tools: Tools, later: Tools, newId: nat)
    requires Bound(runs, tools) && Born(runs, tools, later, newId) && newId !in tools.invocations && newId !in tools.approvals
    ensures Bound(runs, later)
  {
    forall j | j in later.invocations
      ensures later.invocations[j].run in runs && Tied(later.invocations[j], runs[later.invocations[j].run]) && OwnApproval(later, j) && Standing(later, j)
    {
      if j != newId { assert Tied(tools.invocations[j], runs[tools.invocations[j].run]) && OwnApproval(tools, j) && Standing(tools, j); }
    }
  }

  lemma DecideBound(db: Database, now: int, c: Caller, id: ApprovalId, digest: Binding, approve: bool, ifMatch: nat)
    requires Bound(db.execution.runs, db.tools)
    ensures var r := DecideApproval(db, now, c, id, digest, approve, ifMatch); r.Ok? ==> Bound(db.execution.runs, r.value)
  {
    var r := DecideApproval(db, now, c, id, digest, approve, ifMatch);
    if r.Ok? {
      var i := db.tools.approvals[id].invocation;
      assert db.tools.invocations[i].approval == Some(id);
      MovedBound(db.execution.runs, db.tools, r.value, i, Some(id));
    }
  }

  lemma IntendBound(db: Database, now: int, id: InvocationId)
    requires Bound(db.execution.runs, db.tools)
    ensures Bound(db.execution.runs, Intend(db, now, id).0)
  {
    var later := Intend(db, now, id).0;
    if later != db.tools {
      var doc := db.tools.invocations[id];
      assert OwnApproval(db.tools, id) && Standing(db.tools, id);
      MovedBound(db.execution.runs, db.tools, later, id, if later.approvals == db.tools.approvals then None else doc.approval);
    }
  }

  lemma PerformBound(db: Database, now: int, id: InvocationId, outcome: Outcome)
    requires Bound(db.execution.runs, db.tools)
    ensures Bound(db.execution.runs, Perform(db, now, id, outcome).0)
  {
    var later := Perform(db, now, id, outcome).0;
    if later != db.tools {
      assert OwnApproval(db.tools, id) && Standing(db.tools, id);
      MovedBound(db.execution.runs, db.tools, later, id, None);
    }
  }

  lemma ReconcileBound(db: Database, now: int, c: Caller, id: InvocationId, ifMatch: nat, lookup: Lookup)
    requires Bound(db.execution.runs, db.tools)
    ensures var r := ReconcileInvocation(db, now, c, id, ifMatch, lookup); r.Ok? ==> Bound(db.execution.runs, r.value)
  {
    var r := ReconcileInvocation(db, now, c, id, ifMatch, lookup);
    if r.Ok? { MovedBound(db.execution.runs, db.tools, r.value, id, None); }
  }

  lemma QuarantineBound(db: Database)
    requires Bound(db.execution.runs, db.tools)
    ensures Bound(Quarantine(db).execution.runs, Quarantine(db).tools)
  {
    var q := Quarantine(db);
    forall i | i in q.tools.invocations
      ensures q.tools.invocations[i].run in q.execution.runs && Tied(q.tools.invocations[i], q.execution.runs[q.tools.invocations[i].run])
              && OwnApproval(q.tools, i) && Standing(q.tools, i)
    {
      assert Tied(db.tools.invocations[i], db.execution.runs[db.tools.invocations[i].run]) && OwnApproval(db.tools, i) && Standing(db.tools, i);
    }
  }

  // --- The authority of a call --------------------------------------------------------

  /** The Run is live under its lease, the latest of its task, and its task is RUNNING. */
  ghost predicate LiveWork(db: Database, now: int, v: Invocation) {
    && v.run in db.execution.runs && v.task in db.execution.tasks
    && var run := db.execution.runs[v.run];
       && run.task == v.task && run.status == RunRunning && now < run.expires && db.execution.tasks[v.task].status == Running
       && (forall s {:trigger Siblings(db.execution.runs, v.run, s)} :: Siblings(db.execution.runs, v.run, s) ==> db.execution.runs[s].attempt <= run.attempt)
  }

  /** The people behind it still stand: the delegator through a live Session, and the Owner. */
  ghost predicate LiveDelegation(db: Database, now: int, v: Invocation) {
    && v.session in db.sessions && SessionLive(db.sessions[v.session], now) && ToolsInvoke in db.sessions[v.session].scopes
    && db.sessions[v.session].human == v.delegator
    && ActiveWith(db.env, v.delegator, Member) && ActiveMember(db.env, v.owner)
  }

  /** The operation is exactly what was bound: same arguments, same policy and backend versions, in time. */
  ghost predicate AsBound(db: Database, now: int, v: Invocation) {
    && now < v.binding.expires && v.digest == v.binding && v.arguments == v.binding.arguments
    && v.binding.tool in db.env.policies
    && var policy := db.env.policies[v.binding.tool];
       && policy.enabled && policy.version == v.binding.policyVersion && policy.resourceVersion == v.binding.resourceVersion
       && policy.backend in db.env.backends
       && var backend := db.env.backends[policy.backend];
          backend.schema == v.binding.schema && backend.resource == v.binding.resource && v.arguments in backend.accepts
  }

  /** Someone other than the delegator, who may still review today, approved this very operation. */
  ghost predicate IndependentlyApproved(db: Database, i: InvocationId, v: Invocation) {
    exists a, reviewer :: a in db.tools.approvals && db.tools.approvals[a].invocation == i
      && db.tools.approvals[a].status == Approved && db.tools.approvals[a].digest == v.binding
      && db.tools.approvals[a].decider == Some(reviewer) && reviewer != v.delegator && ActiveWith(db.env, reviewer, Reviewer)
  }

  ghost predicate CallAuthorised(db: Database, now: int, i: InvocationId) {
    && !db.gate.maintenance && i in db.tools.invocations
    && var v := db.tools.invocations[i];
       && v.status == ToolRunning && LiveWork(db, now, v) && LiveDelegation(db, now, v) && AsBound(db, now, v)
       && (!db.env.policies[v.binding.tool].readOnly ==> IndependentlyApproved(db, i, v))
  }

  lemma ApprovalFound(db: Database, doc: Invocation, delegator: UserId, i: InvocationId)
    requires i in db.tools.invocations && db.tools.invocations[i] == doc && OwnApproval(db.tools, i) && doc.digest == doc.binding
    requires ValidateApproval(db, doc, delegator).Ok? && delegator == doc.delegator
    ensures IndependentlyApproved(db, i, doc)
  {
    var a := db.tools.approvals[doc.approval.value];
    assert a.decider == Some(a.decider.value);
  }

  lemma CallIsAuthorised(db: Database, now: int, i: InvocationId, outcome: Outcome)
    requires Bound(db.execution.runs, db.tools) && Delegated(db.execution.runs, db.sessions) && RunningIsLatest(db.execution.runs)
    requires Perform(db, now, i, outcome).1
    ensures CallAuthorised(db, now, i)
  {
    var v := db.tools.invocations[i];
    assert Tied(v, db.execution.runs[v.run]) && OwnApproval(db.tools, i);
    if !db.env.policies[v.binding.tool].readOnly { ApprovalFound(db, v, v.delegator, i); }
  }
}
