/** When an intent is committed, a call made, an approval decided and an outcome settled - exactly when - and what each of them does. */
module Decisions {
  import opened Options
  import opened Tables
  import opened Access
  import opened TaskFlow
  import opened Governance
  import opened ControlPlane
  import opened TaskSafety
  import opened ToolSafety
  import opened ApprovalSafety
  import opened Verdicts
  import I = Invariants
  import Guarantees
  import Histories

  // --- Authority, once more -------------------------------------------------------------

  /** All that an operation needs behind it: live work, live delegation, the operation as bound, and - `approved` - an
      independent approval unless it only reads. */
  ghost predicate Authority(db: Database, now: int, i: InvocationId, approved: bool)
    requires i in db.tools.invocations
  {
    var v := db.tools.invocations[i];
    && LiveWork(db, now, v) && LiveDelegation(db, now, v) && AsBound(db, now, v)
    && var policy := db.env.policies[v.binding.tool];
       && db.env.backends[policy.backend].readOnly == policy.readOnly
       && (approved && !policy.readOnly ==> IndependentlyApproved(db, i, v))
  }

  /** The tables keep what the checks of a tool operation rest on. */
  ghost predicate Kept(db: Database) {
    Bound(db.execution.runs, db.tools) && Delegated(db.execution.runs, db.sessions) && RunningIsLatest(db.execution.runs)
  }

  lemma ApprovalIff(db: Database, i: InvocationId)
    requires Kept(db) && i in db.tools.invocations
    ensures var v := db.tools.invocations[i]; ValidateApproval(db, v, v.delegator).Ok? <==> IndependentlyApproved(db, i, v)
  {
    var v := db.tools.invocations[i];
    assert OwnApproval(db.tools, i) && Tied(v, db.execution.runs[v.run]);
    if ValidateApproval(db, v, v.delegator).Ok? { ApprovalFound(db, v, v.delegator, i); }
  }

  lemma ValidIff(db: Database, now: int, i: InvocationId, approved: bool)
    requires Kept(db) && i in db.tools.invocations
    ensures Validate(db, now, db.tools.invocations[i], approved).Ok? <==> Authority(db, now, i, approved)
  {
    var v := db.tools.invocations[i];
    assert Tied(v, db.execution.runs[v.run]);
    ApprovalIff(db, i);
  }

  // --- The worker's first transaction -----------------------------------------------------

  ghost predicate Rewritten(tools: Tools, later: Tools, i: InvocationId, status: InvocationStatus, error: Option<ErrorCode>)
    requires i in tools.invocations
  {
    later.invocations == tools.invocations[i := tools.invocations[i].(status := status, error := error, version := tools.invocations[i].version + 1)]
  }

  /** Its approval, if still undecided, can no longer be decided; nothing else about approvals changes. */
  ghost predicate ApprovalExpires(tools: Tools, later: Tools, i: InvocationId)
    requires i in tools.invocations
  {
    && later.approvals.Keys == tools.approvals.Keys
    && forall a :: a in tools.approvals ==>
         later.approvals[a] == if tools.invocations[i].approval == Some(a) && tools.approvals[a].status == Undecided
                               then tools.approvals[a].(status := Expired, version := tools.approvals[a].version + 1) else tools.approvals[a]
  }

  /** What the first transaction leaves: a ready operation is started if and only if its authority is complete. */
  ghost predicate Intended(db: Database, now: int, i: InvocationId, later: Tools, committed: bool) {
    if db.gate.maintenance || i !in db.tools.invocations then later == db.tools && !committed
    else
      match db.tools.invocations[i].status
      case ToolRunning => Rewritten(db.tools, later, i, ToolUnknown, Some(WorkerInterrupted)) && later.approvals == db.tools.approvals && !committed
      case ToolReady =>
        if Authority(db, now, i, true)
        then Rewritten(db.tools, later, i, ToolRunning, db.tools.invocations[i].error) && later.approvals == db.tools.approvals && committed
        else Rewritten(db.tools, later, i, ToolCanceled, Some(AuthorityOrBindingChanged)) && ApprovalExpires(db.tools, later, i) && !committed
      case AwaitingApproval =>
        if Authority(db, now, i, false) then later == db.tools && !committed
        else Rewritten(db.tools, later, i, ToolCanceled, Some(AuthorityOrBindingChanged)) && ApprovalExpires(db.tools, later, i) && !committed
      case _ => later == db.tools && !committed
  }

  lemma IntentMeans(db: Database, now: int, i: InvocationId)
    requires Kept(db)
    ensures var (tools, committed) := Intend(db, now, i); Intended(db, now, i, tools, committed)
  {
    if i in db.tools.invocations {
      assert OwnApproval(db.tools, i);
      ValidIff(db, now, i, true);
      ValidIff(db, now, i, false);
    }
  }

  // --- The second -----------------------------------------------------------------------------

  /** The call is made if and only if the authority is still complete; otherwise the operation is canceled, uncalled. */
  ghost predicate Performed(db: Database, now: int, i: InvocationId, outcome: Outcome, later: Tools, called: bool) {
    if db.gate.maintenance || i !in db.tools.invocations || db.tools.invocations[i].status != ToolRunning then later == db.tools && !called
    else if Authority(db, now, i, true) then called && CallRecorded(db.tools, later, i, outcome)
    else !called && Rewritten(db.tools, later, i, ToolCanceled, Some(PreExecutionAuthorityChanged)) && later.approvals == db.tools.approvals
  }

  lemma PerformanceMeans(db: Database, now: int, i: InvocationId, outcome: Outcome)
    requires Kept(db)
    ensures var (tools, called) := Perform(db, now, i, outcome); Performed(db, now, i, outcome, tools, called)
  {
    PerformanceRecords(db, now, i, outcome);
    if i in db.tools.invocations { ValidIff(db, now, i, true); }
  }

  // --- Decisions and lookups ---------------------------------------------------------------------

  /** A person whom the write needs may act: account, membership and role, outside maintenance and the archive unless the
      write is for them. */
  ghost predicate PersonActs(db: Database, c: Caller, role: Role, inMaintenance: bool) {
    c.Human? && ActiveWith(db.env, c.user, role) && c.user in db.env.members && db.env.members[c.user].accountActive
    && (db.gate.maintenance ==> inMaintenance) && !db.archived
  }

  /** An approval may be decided by a Reviewer other than the requester, while it is undecided, under its current version,
      for exactly its binding, and while everything else the operation needs still stands. */
  ghost predicate MayDecide(db: Database, now: int, c: Caller, id: ApprovalId, bound: Binding, ifMatch: nat) {
    && PersonActs(db, c, Reviewer, false) && id in db.tools.approvals
    && var a := db.tools.approvals[id];
       && a.status == Undecided && a.version == ifMatch && a.digest == bound && a.requester != c.user && a.invocation in db.tools.invocations
       && db.tools.invocations[a.invocation].status == AwaitingApproval && Authority(db, now, a.invocation, false)
  }

  lemma DecisionMeans(db: Database, now: int, c: Caller, id: ApprovalId, bound: Binding, approve: bool, ifMatch: nat)
    requires Kept(db)
    ensures var r := DecideApproval(db, now, c, id, bound, approve, ifMatch);
            if MayDecide(db, now, c, id, bound, ifMatch) then r.Ok? && Decided(db.tools, r.value, id, bound, approve, c.user) else r.Err?
  {
    AdmittedIff(db, now, c, BY_REVIEWER);
    if id in db.tools.approvals && db.tools.approvals[id].invocation in db.tools.invocations {
      ValidIff(db, now, db.tools.approvals[id].invocation, false);
    }
    DecisionDecides(db, now, c, id, bound, approve, ifMatch);
  }

  /** An unknown outcome may be settled by an administrator, even in maintenance, under the operation's current version, by
      the very backend it was meant for, once that has an answer. */
  ghost predicate MaySettle(db: Database, c: Caller, i: InvocationId, ifMatch: nat, lookup: Lookup) {
    && PersonActs(db, c, Admin, true) && i in db.tools.invocations && lookup != Lookup.NoAnswer
    && var v := db.tools.invocations[i];
       && v.status == ToolUnknown && v.version == ifMatch && v.binding.tool in db.env.policies
       && db.env.policies[v.binding.tool].backend in db.env.backends
       && var backend := db.env.backends[db.env.policies[v.binding.tool].backend];
          backend.schema == v.binding.schema && backend.resource == v.binding.resource
  }

  lemma SettlementMeans(db: Database, now: int, c: Caller, i: InvocationId, ifMatch: nat, lookup: Lookup)
    ensures var r := ReconcileInvocation(db, now, c, i, ifMatch, lookup);
            if MaySettle(db, c, i, ifMatch, lookup) then r.Ok? && LookedUp(db.tools, r.value, i, lookup) else r.Err?
  {
    AdmittedIff(db, now, c, RECONCILING);
    ReconciliationSettles(db, now, c, i, ifMatch, lookup);
  }

  // --- Over every run ----------------------------------------------------------------------------------

  lemma RunKept(states: seq<World>, actions: seq<Action>, k: nat)
    requires IsRun(states, actions) && k < |states|
    ensures Kept(states[k].db)
  {
    I.RunOrderly(states, actions, k);
    assert I.WellKept(states[k].db);
  }

  /** What a tool step of a run did to the tables, the worker and the calls. */
  ghost predicate ToolStep(w: World, v: World, a: Action)
    requires a.WorkerIntends? || a.WorkerPerforms? || a.DoDecide? || a.DoReconcile?
  {
    match a
    case WorkerIntends(worker, i) =>
      v.calls == w.calls &&
      if worker in w.workers && w.workers[worker].Intending? then v.db.tools == w.db.tools && v.workers == w.workers
      else Intended(w.db, w.now, i, v.db.tools, worker in v.workers && v.workers[worker] == Intending(i))
    case WorkerPerforms(worker, outcome) =>
      if worker in w.workers && w.workers[worker].Intending?
      then var i := w.workers[worker].id;
           && v.workers == w.workers[worker := Idle] && v.calls in {w.calls, w.calls + [Call(i, outcome, w.db, w.now)]}
           && Performed(w.db, w.now, i, outcome, v.db.tools, v.calls != w.calls)
      else v.db.tools == w.db.tools && v.calls == w.calls && v.workers == w.workers
    case DoDecide(c, id, bound, approve, ifMatch) =>
      v.calls == w.calls &&
      if MayDecide(w.db, w.now, c, id, bound, ifMatch) then Decided(w.db.tools, v.db.tools, id, bound, approve, c.user) else v.db.tools == w.db.tools
    case DoReconcile(c, i, ifMatch, lookup) =>
      v.calls == w.calls && if MaySettle(w.db, c, i, ifMatch, lookup) then LookedUp(w.db.tools, v.db.tools, i, lookup) else v.db.tools == w.db.tools
  }

  lemma IntentStep(w: World, worker: WorkerId, i: InvocationId)
    requires Kept(w.db)
    ensures ToolStep(w, NextTool(w, WorkerIntends(worker, i)), WorkerIntends(worker, i))
  {
    if !(worker in w.workers && w.workers[worker].Intending?) { FreshIntentStep(w, worker, i); }
  }

  lemma FreshIntentStep(w: World, worker: WorkerId, i: InvocationId)
    requires Kept(w.db)
    ensures var v := NextIntent(w, worker, i);
            v.calls == w.calls && Intended(w.db, w.now, i, v.db.tools, worker in v.workers && v.workers[worker] == Intending(i))
  {
    IntentMeans(w.db, w.now, i);
  }

  lemma PerformanceStep(w: World, worker: WorkerId, outcome: Outcome)
    requires Kept(w.db)
    ensures ToolStep(w, NextTool(w, WorkerPerforms(worker, outcome)), WorkerPerforms(worker, outcome))
  {
    if worker in w.workers && w.workers[worker].Intending? { PerformanceMeans(w.db, w.now, w.workers[worker].id, outcome); }
  }

  lemma DecisionStep(w: World, a: Action)
    requires Kept(w.db) && a.DoDecide?
    ensures ToolStep(w, NextTool(w, a), a)
  {
    DecisionMeans(w.db, w.now, a.caller, a.approval, a.bound, a.approve, a.ifMatch);
  }

  lemma SettlementStep(w: World, a: Action)
    requires a.DoReconcile?
    ensures ToolStep(w, NextTool(w, a), a)
  {
    SettlementMeans(w.db, w.now, a.caller, a.invocation, a.ifMatch, a.lookup);
  }

  lemma ToolStepMeans(w: World, a: Action)
    requires Kept(w.db) && (a.WorkerIntends? || a.WorkerPerforms? || a.DoDecide? || a.DoReconcile?)
    ensures ToolStep(w, NextTool(w, a), a)
  {
    match a
    case WorkerIntends(worker, i) => IntentStep(w, worker, i);
    case WorkerPerforms(worker, outcome) => PerformanceStep(w, worker, outcome);
    case DoDecide(_, _, _, _, _) => DecisionStep(w, a);
    case DoReconcile(_, _, _, _) => SettlementStep(w, a);
  }

  lemma NextIsTool(w: World, a: Action)
    requires ToolAction(a)
    ensures var v := NextTool(w, a); Next(w, a) == v.(used := w.used + NewIds(a))
  {
  }

  /** In every run a worker's two transactions, a decision and a reconciliation do exactly this: an intent and a call need
      complete authority and follow from it; how the call went, the reviewer's verdict and the lookup's answer decide what
      is recorded; and what may not be done changes nothing. */
  lemma EveryToolStep(states: seq<World>, actions: seq<Action>, k: nat)
    requires IsRun(states, actions) && k < |actions|
    requires actions[k].WorkerIntends? || actions[k].WorkerPerforms? || actions[k].DoDecide? || actions[k].DoReconcile?
    ensures ToolStep(states[k], states[k + 1], actions[k])
  {
    RunKept(states, actions, k);
    assert StepsAt(states, actions, k);
    NextIsTool(states[k], actions[k]);
    ToolStepMeans(states[k], actions[k]);
  }

  // --- Calls ----------------------------------------------------------------------------------------------

  lemma OthersCallNothing(w: World, a: Action)
    requires !a.WorkerPerforms?
    ensures Next(w, a).calls == w.calls
  {
    if TaskAction(a) {
      I.TaskStepFrame(w, a);
    } else if DeliveryAction(a) {
      I.DeliveryStepLedger(w, a);
    } else if ToolAction(a) {
      I.OnlyPerformanceCalls(w, a);
    } else if !a.TakeBackup? {
      I.OtherStepFrame(w, a);
    }
  }

  /** Only a worker that holds the intent makes a call; its outcome is the one on record, and the rows say so. */
  lemma CallIsRecorded(states: seq<World>, actions: seq<Action>, k: nat)
    requires IsRun(states, actions) && k < |actions| && states[k + 1].calls != states[k].calls
    ensures var w, v, a := states[k], states[k + 1], actions[k];
            && a.WorkerPerforms? && a.worker in w.workers && w.workers[a.worker].Intending?
            && var i := w.workers[a.worker].id;
               v.calls == w.calls + [Call(i, a.outcome, w.db, w.now)] && CallRecorded(w.db.tools, v.db.tools, i, a.outcome)
  {
    assert StepsAt(states, actions, k);
    if !actions[k].WorkerPerforms? { OthersCallNothing(states[k], actions[k]); } else { EveryToolStep(states, actions, k); }
  }

  /** The step that made the call: before it the history is one call shorter. */
  lemma {:induction false} CallHasStep(states: seq<World>, actions: seq<Action>, k: nat, n: nat) returns (m: nat)
    requires IsRun(states, actions) && k < |states| && n < |states[k].calls|
    ensures m < k && |states[m].calls| == n && states[m + 1].calls == states[m].calls + [states[k].calls[n]]
  {
    if k > 0 {
      if states[k].calls == states[k - 1].calls {
        m := CallHasStep(states, actions, k - 1, n);
      } else {
        CallIsRecorded(states, actions, k - 1);
        if n < |states[k - 1].calls| { m := CallHasStep(states, actions, k - 1, n); } else { m := k - 1; }
      }
    } else {
      NoCallYet(states, actions);
    }
  }

  lemma NoCallYet(states: seq<World>, actions: seq<Action>)
    requires IsRun(states, actions)
    ensures states[0].calls == []
  {
  }

  /** Somebody else said yes to it: the approval of this operation was decided so, on exactly its binding, before step `m`,
      by the reviewer on record. */
  ghost predicate SaidYes(actions: seq<Action>, m: nat, db: Database, i: InvocationId)
    requires m <= |actions| && i in db.tools.invocations
  {
    exists x: Action, a: ApprovalId, reviewer: UserId :: x in actions[..m] && Decides(x, a, db.tools.invocations[i].binding, true, reviewer)
                             && a in db.tools.approvals && db.tools.approvals[a].invocation == i && db.tools.approvals[a].decider == Some(reviewer)
                             && reviewer != db.tools.invocations[i].delegator
  }

  lemma ApprovalWasGiven(actions: seq<Action>, m: nat, calls: seq<Call>, db: Database, i: InvocationId)
    requires m <= |actions| && i in db.tools.invocations && ToolsTrue(actions[..m], calls, db.tools) && IndependentlyApproved(db, i, db.tools.invocations[i])
    ensures SaidYes(actions, m, db, i)
  {
    var v := db.tools.invocations[i];
    var a, reviewer :| a in db.tools.approvals && db.tools.approvals[a].invocation == i
      && db.tools.approvals[a].status == Approved && db.tools.approvals[a].digest == v.binding
      && db.tools.approvals[a].decider == Some(reviewer) && reviewer != v.delegator && ActiveWith(db.env, reviewer, Reviewer);
    assert ApprovalTrue(actions[..m], a, db.tools.approvals[a]);
    var x :| x in actions[..m] && Decides(x, a, v.binding, true, reviewer);
  }

  lemma CallHadYes(states: seq<World>, actions: seq<Action>, m: nat, i: InvocationId)
    requires IsRun(states, actions) && m < |states| && i in states[m].db.tools.invocations && Authority(states[m].db, states[m].now, i, true)
    requires !states[m].db.env.policies[states[m].db.tools.invocations[i].binding.tool].readOnly
    ensures SaidYes(actions, m, states[m].db, i)
  {
    Histories.RowsAreTrue(states, actions, m);
    ApprovalWasGiven(actions, m, states[m].calls, states[m].db, i);
  }

  /** Every call of an operation that does not only read follows a reviewer's yes to that very operation, given earlier in the
      run by the person on record, who is not the one it is done for. */
  lemma EveryCallWasApproved(states: seq<World>, actions: seq<Action>, k: nat, n: nat) returns (m: nat)
    requires IsRun(states, actions) && k < |states| && n < |states[k].calls|
    ensures var c := states[k].calls[n];
            && m < k && |states[m].calls| == n && c.db == states[m].db && c.id in c.db.tools.invocations
            && c.db.tools.invocations[c.id].binding.tool in c.db.env.policies
            && (!c.db.env.policies[c.db.tools.invocations[c.id].binding.tool].readOnly ==> SaidYes(actions, m, c.db, c.id))
  {
    m := CallHasStep(states, actions, k, n);
    var c := states[k].calls[n];
    CallIsRecorded(states, actions, m);
    assert states[m + 1].calls[n] == c;
    EveryToolStep(states, actions, m);
    assert Authority(states[m].db, states[m].now, c.id, true);
    if !c.db.env.policies[c.db.tools.invocations[c.id].binding.tool].readOnly { CallHadYes(states, actions, m, c.id); }
  }

  lemma {:induction false} TimesAtLeast(calls: seq<Call>, i: InvocationId, m: nat, n: nat)
    requires m <= n < |calls| && calls[m].id == i && calls[n].id == i
    ensures Times(calls, i) >= if m == n then 1 else 2
    decreases |calls|
  {
    var front := calls[..|calls| - 1];
    if n < |front| { TimesAtLeast(front, i, m, n); } else if m < n { TimesAtLeast(front, i, m, m); }
  }

  /** A success without an error on record has exactly one call behind it, and that one was answered. */
  lemma SuccessWasAnswered(states: seq<World>, actions: seq<Action>, k: nat, i: InvocationId) returns (n: nat)
    requires IsRun(states, actions) && k < |states| && i in states[k].db.tools.invocations
    requires states[k].db.tools.invocations[i].status == ToolSucceeded && states[k].db.tools.invocations[i].error.None?
    ensures var calls := states[k].calls;
            n < |calls| && calls[n].id == i && calls[n].outcome == Outcome.Answered && forall m :: 0 <= m < |calls| && calls[m].id == i ==> m == n
  {
    Histories.RowsAreTrue(states, actions, k);
    EffectsAtMostOnce(states, actions, k, i);
    var calls := states[k].calls;
    assert OperationTrue(actions[..k], calls, i, states[k].db.tools.invocations[i]);
    n :| 0 <= n < |calls| && calls[n].id == i && calls[n].outcome == Outcome.Answered;
    forall m | 0 <= m < |calls| && calls[m].id == i ensures m == n {
      TimesAtLeast(calls, i, if m < n then m else n, if m < n then n else m);
    }
  }

  // --- Rejections and unknown outcomes -----------------------------------------------------------------------

  /** The operation is canceled, its approval stays declined, and it has never been called. */
  ghost predicate Refused(w: World, a: ApprovalId, i: InvocationId) {
    && i in w.db.tools.invocations && w.db.tools.invocations[i].status == ToolCanceled && Times(w.calls, i) == 0
    && a in w.db.tools.approvals && w.db.tools.approvals[a].status == Declined && w.db.tools.approvals[a].invocation == i
  }

  lemma RefusalAt(states: seq<World>, actions: seq<Action>, k: nat, next: nat, a: ApprovalId, i: InvocationId)
    requires IsRun(states, actions) && k < |actions| && next == k + 1 && !actions[k].RestoreBackup? && Refused(states[k], a, i)
    ensures Refused(states[next], a, i)
  {
    Guarantees.OperationsOnlyAdvance(states, actions, k);
    assert Advanced(states[k].db.tools.invocations[i], states[next].db.tools.invocations[i]);
    assert ApprovalKept(states[k].db.tools.approvals[a], states[next].db.tools.approvals[a]);
    EffectsAtMostOnce(states, actions, next, i);
  }

  lemma RefusalStarts(states: seq<World>, actions: seq<Action>, j: nat)
    requires IsRun(states, actions) && j < |actions| && actions[j].DoDecide? && !actions[j].approve
    requires MayDecide(states[j].db, states[j].now, actions[j].caller, actions[j].approval, actions[j].bound, actions[j].ifMatch)
    ensures Refused(states[j + 1], actions[j].approval, states[j].db.tools.approvals[actions[j].approval].invocation)
  {
    EveryToolStep(states, actions, j);
    EffectsAtMostOnce(states, actions, j + 1, states[j].db.tools.approvals[actions[j].approval].invocation);
  }

  /** A reviewer's no is final: the operation is canceled and never called, in every later state up to a restore. */
  lemma {:induction false} NoIsFinal(states: seq<World>, actions: seq<Action>, j: nat, k: nat)
    requires IsRun(states, actions) && j < k < |states| && actions[j].DoDecide? && !actions[j].approve
    requires MayDecide(states[j].db, states[j].now, actions[j].caller, actions[j].approval, actions[j].bound, actions[j].ifMatch)
    requires Guarantees.NoRestore(actions, j + 1, k)
    ensures Refused(states[k], actions[j].approval, states[j].db.tools.approvals[actions[j].approval].invocation)
    decreases k
  {
    if k == j + 1 {
      RefusalStarts(states, actions, j);
    } else {
      NoIsFinal(states, actions, j, k - 1);
      RefusalAt(states, actions, k - 1, k, actions[j].approval, states[j].db.tools.approvals[actions[j].approval].invocation);
    }
  }

  lemma OtherToolsLeaveUnknown(w: World, a: Action, i: InvocationId)
    requires (a.DoRequest? || a.WorkerGivesUp?) && i in w.db.tools.invocations && Possible(w, a) && Drawn(w.db, w.used)
    ensures i in NextTool(w, a).db.tools.invocations && NextTool(w, a).db.tools.invocations[i] == w.db.tools.invocations[i]
  {
    if a.DoRequest? { assert a.newId in NewIds(a); }
  }

  lemma UnknownStep(w: World, a: Action, i: InvocationId)
    requires Kept(w.db) && Possible(w, a) && Drawn(w.db, w.used) && ToolAction(a)
    requires i in w.db.tools.invocations && w.db.tools.invocations[i].status == ToolUnknown
    ensures var v := NextTool(w, a);
            i in v.db.tools.invocations && (v.db.tools.invocations[i] == w.db.tools.invocations[i]
                                            || (a.DoReconcile? && a.invocation == i && LookedUp(w.db.tools, v.db.tools, i, a.lookup)))
  {
    if a.DoRequest? || a.WorkerGivesUp? {
      OtherToolsLeaveUnknown(w, a, i);
    } else {
      ToolStepMeans(w, a);
      UnknownAfter(w, NextTool(w, a), a, i);
    }
  }

  lemma UnknownAfter(w: World, v: World, a: Action, i: InvocationId)
    requires (a.WorkerIntends? || a.WorkerPerforms? || a.DoDecide? || a.DoReconcile?) && ToolStep(w, v, a)
    requires i in w.db.tools.invocations && w.db.tools.invocations[i].status == ToolUnknown
    ensures i in v.db.tools.invocations && (v.db.tools.invocations[i] == w.db.tools.invocations[i]
                                            || (a.DoReconcile? && a.invocation == i && LookedUp(w.db.tools, v.db.tools, i, a.lookup)))
  {
  }

  lemma NonToolsLeaveTools(w: World, a: Action)
    requires !ToolAction(a) && !a.RestoreBackup?
    ensures Next(w, a).db.tools == w.db.tools
  {
    if TaskAction(a) {
      I.TaskStepFrame(w, a);
    } else if DeliveryAction(a) {
      DeliveryStepLeavesTools(w, a);
    } else {
      Histories.OthersLeaveRows(w, a);
    }
  }

  /** An unknown outcome stays unknown until a reconciliation settles it by what the backend's lookup said. */
  lemma UnknownUntilLookup(states: seq<World>, actions: seq<Action>, k: nat, i: InvocationId)
    requires IsRun(states, actions) && k < |actions| && !actions[k].RestoreBackup?
    requires i in states[k].db.tools.invocations && states[k].db.tools.invocations[i].status == ToolUnknown
    ensures var w, v, a := states[k], states[k + 1], actions[k];
            i in v.db.tools.invocations && (v.db.tools.invocations[i] == w.db.tools.invocations[i]
                                            || (a.DoReconcile? && a.invocation == i && LookedUp(w.db.tools, v.db.tools, i, a.lookup)))
  {
    RunKept(states, actions, k);
    Histories.RunGrounded(states, actions, k);
    assert StepsAt(states, actions, k);
    if ToolAction(actions[k]) {
      NextIsTool(states[k], actions[k]);
      UnknownStep(states[k], actions[k], i);
    } else {
      NonToolsLeaveTools(states[k], actions[k]);
    }
  }
}
