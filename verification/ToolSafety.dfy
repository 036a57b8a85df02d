/** Over every run an external call happens at most once per operation, and the recorded outcome is honest about it. */
module ToolSafety {
  import opened Options
  import opened Tables
  import opened Access
  import opened Governance
  import opened Recovery
  import opened ControlPlane

  ghost function Times(calls: seq<Call>, i: InvocationId): nat {
    if calls == [] then 0
    else Times(calls[..|calls| - 1], i) + (if calls[|calls| - 1].id == i then 1 else 0)
  }

  lemma TimesNext(calls: seq<Call>, c: Call, i: InvocationId)
    ensures Times(calls + [c], i) == Times(calls, i) + (if c.id == i then 1 else 0)
  {
    assert (calls + [c])[..|calls|] == calls;
  }

  /** AWAITING < READY < RUNNING < UNKNOWN < the three outcomes. */
  function Rank(s: InvocationStatus): nat {
    match s
    case AwaitingApproval => 0
    case ToolReady => 1
    case ToolRunning => 2
    case ToolUnknown => 3
    case _ => 4
  }

  /** What the operation is never changes; only its standing does. */
  ghost predicate SameOperation(a: Invocation, b: Invocation) {
    b == a.(status := b.status, error := b.error, version := b.version)
  }

  ghost predicate Advanced(a: Invocation, b: Invocation) {
    b == a || (SameOperation(a, b) && Rank(a.status) < Rank(b.status) && (a.status == ToolUnknown ==> b.status in {ToolSucceeded, ToolFailed}))
  }

  /** No operation disappears, new ones are new, and old ones only move up in rank. */
  ghost predicate ToolsAdvance(t: Tools, u: Tools, newIds: set<nat>) {
    && t.invocations.Keys <= u.invocations.Keys <= t.invocations.Keys + newIds
    && (forall i :: i in t.invocations ==> Advanced(t.invocations[i], u.invocations[i]))
  }

  /** A decided approval is final; what it decides about never changes. */
  ghost predicate ApprovalKept(a: Approval, b: Approval) {
    b == a || (a.status == Undecided && b == a.(status := b.status, decider := b.decider, version := b.version) && b.status != Undecided)
  }

  ghost predicate ApprovalsKept(t: Tools, u: Tools, newIds: set<nat>) {
    && t.approvals.Keys <= u.approvals.Keys <= t.approvals.Keys + newIds
    && (forall a :: a in t.approvals ==> ApprovalKept(t.approvals[a], u.approvals[a]))
  }

  lemma IntentAdvances(db: Database, now: int, id: InvocationId)
    ensures ToolsAdvance(db.tools, Intend(db, now, id).0, {})
    ensures ApprovalsKept(db.tools, Intend(db, now, id).0, {})
  {
  }

  lemma PerformanceAdvances(db: Database, now: int, id: InvocationId, outcome: Outcome)
    ensures ToolsAdvance(db.tools, Perform(db, now, id, outcome).0, {})
    ensures ApprovalsKept(db.tools, Perform(db, now, id, outcome).0, {})
  {
  }

  lemma RequestAdvances(db: Database, now: int, caller: Caller, w: Wanted, newId: nat)
    requires newId !in db.tools.invocations && newId !in db.tools.approvals
    ensures var r := RequestInvocation(db, now, caller, w, newId);
            r.Ok? ==> ToolsAdvance(db.tools, r.value, {newId}) && ApprovalsKept(db.tools, r.value, {newId})
  {
  }

  lemma DecisionAdvances(db: Database, now: int, caller: Caller, id: ApprovalId, digest: Binding, approve: bool, ifMatch: nat)
    ensures var r := DecideApproval(db, now, caller, id, digest, approve, ifMatch);
            r.Ok? ==> ToolsAdvance(db.tools, r.value, {}) && ApprovalsKept(db.tools, r.value, {})
  {
  }

  lemma ReconciliationAdvances(db: Database, now: int, caller: Caller, id: InvocationId, ifMatch: nat, lookup: Lookup)
    ensures var r := ReconcileInvocation(db, now, caller, id, ifMatch, lookup);
            r.Ok? ==> ToolsAdvance(db.tools, r.value, {}) && ApprovalsKept(db.tools, r.value, {})
  {
  }

  /** Steps that are not about tools leave them, the workers, the history and the backups alone. */
  ghost predicate ToolsUntouched(w: World, v: World) {
    v.db.tools == w.db.tools && v.workers == w.workers && v.calls == w.calls && v.backups == w.backups && w.used <= v.used
  }

  lemma InputStepLeavesTools(w: World, a: Action)
    requires a.DoCreateTask? || a.DoEditTask? || a.DoTransferTask? || a.DoAssignTask? || a.DoAddDependency? || a.DoRemoveDependency?
    ensures ToolsUntouched(w, NextTask(w, a))
  {
  }

  lemma RunStepLeavesTools(w: World, a: Action)
    requires a.DoCommand? || a.DoClaim? || a.DoHeartbeat? || a.DoReport? || a.WorkerReconciles?
    ensures ToolsUntouched(w, NextTask(w, a))
  {
  }

  lemma TaskStepLeavesTools(w: World, a: Action)
    requires TaskAction(a)
    ensures ToolsUntouched(w, NextTask(w, a))
  {
    if a.DoCommand? || a.DoClaim? || a.DoHeartbeat? || a.DoReport? || a.WorkerReconciles? {
      RunStepLeavesTools(w, a);
    } else {
      InputStepLeavesTools(w, a);
    }
  }

  lemma EvidenceStepLeavesTools(w: World, a: Action)
    requires a.DoUpload? || a.DoRegister? || a.DoVerify?
    ensures ToolsUntouched(w, NextDelivery(w, a))
  {
  }

  lemma DeliveryStepLeavesTools(w: World, a: Action)
    ensures ToolsUntouched(w, NextDelivery(w, a))
  {
    if a.DoUpload? || a.DoRegister? || a.DoVerify? { EvidenceStepLeavesTools(w, a); }
  }

  lemma OtherStepLeavesTools(w: World, a: Action)
    requires !a.TakeBackup? && !a.RestoreBackup?
    ensures ToolsUntouched(w, NextOther(w, a))
  {
  }

  lemma ToolStepAdvances(w: World, a: Action)
    requires Possible(w, a) && Drawn(w.db, w.used) && ToolAction(a)
    ensures ToolsAdvance(w.db.tools, NextTool(w, a).db.tools, NewIds(a))
    ensures ApprovalsKept(w.db.tools, NextTool(w, a).db.tools, NewIds(a))
  {
    match a
    case DoRequest(c, wanting, newId) =>
      assert newId in NewIds(a);
      RequestAdvances(w.db, w.now, c, wanting, newId);
    case DoDecide(c, approval, digest, approve, ifMatch) => DecisionAdvances(w.db, w.now, c, approval, digest, approve, ifMatch);
    case WorkerIntends(worker, id) => IntentAdvances(w.db, w.now, id);
    case WorkerPerforms(worker, outcome) =>
      if worker in w.workers && w.workers[worker].Intending? { PerformanceAdvances(w.db, w.now, w.workers[worker].id, outcome); }
    case WorkerGivesUp(worker) =>
    case DoReconcile(c, id, ifMatch, lookup) => ReconciliationAdvances(w.db, w.now, c, id, ifMatch, lookup);
  }

  /** Every step but a restore moves operations up in rank, keeps what they are, and keeps decisions final. */
  lemma StatusesOnlyAdvance(w: World, a: Action)
    requires Possible(w, a) && Drawn(w.db, w.used) && !a.RestoreBackup?
    ensures ToolsAdvance(w.db.tools, Next(w, a).db.tools, NewIds(a))
    ensures ApprovalsKept(w.db.tools, Next(w, a).db.tools, NewIds(a))
  {
    if TaskAction(a) {
      TaskStepLeavesTools(w, a);
    } else if DeliveryAction(a) {
      DeliveryStepLeavesTools(w, a);
    } else if ToolAction(a) {
      ToolStepAdvances(w, a);
    } else if !a.TakeBackup? {
      OtherStepLeavesTools(w, a);
    }
  }

  // --- The account of calls ---------------------------------------------------------

  predicate Startable(s: InvocationStatus) { s in {AwaitingApproval, ToolReady, ToolRunning} }

  /** What a stored row says about how often the call was made. */
  ghost predicate Honest(doc: Invocation, times: nat) {
    && (doc.status == ToolCanceled ==> times == 0)
    && (doc.status == ToolSucceeded && doc.error.None? ==> times == 1)
    && (doc.status == ToolUnknown ==> doc.error.Some?)
  }

  ghost predicate AllHonest(tools: Tools, calls: seq<Call>) {
    forall i :: i in tools.invocations ==> Honest(tools.invocations[i], Times(calls, i))
  }

  /** In the live database: nothing before RUNNING has been called. */
  ghost predicate NotYetCalled(tools: Tools, calls: seq<Call>) {
    forall i :: i in tools.invocations ==>
      && (tools.invocations[i].status in {AwaitingApproval, ToolReady} ==> Times(calls, i) == 0)
      && (Startable(tools.invocations[i].status) ==> tools.invocations[i].error.None?)
  }

  /** Each intent is held by one worker; while it can still act, the call has not been made. */
  ghost predicate IntentsUnique(w: World) {
    && (forall k :: k in w.workers && w.workers[k].Intending? ==> IntentSpent(w, w.workers[k].id))
    && (forall k, m :: k in w.workers && m in w.workers && k != m && w.workers[k].Intending? && w.workers[m].Intending?
          ==> w.workers[k].id != w.workers[m].id)
  }

  ghost predicate IntentSpent(w: World, i: InvocationId) {
    && i in w.used
    && (i in w.db.tools.invocations ==>
          && w.db.tools.invocations[i].status !in {AwaitingApproval, ToolReady}
          && (w.db.tools.invocations[i].status == ToolRunning ==> Times(w.calls, i) == 0))
  }

  ghost predicate CalledAtMostOnce(w: World) {
    forall i :: Times(w.calls, i) <= 1 && (Times(w.calls, i) > 0 ==> i in w.used)
  }

  /** What a backup canceled can never start in the live database. */
  ghost predicate CanceledIsDead(b: Tools, live: Tools) {
    forall i :: i in b.invocations && i in live.invocations && b.invocations[i].status == ToolCanceled
      ==> !Startable(live.invocations[i].status)
  }

  ghost predicate BackupsHonest(w: World) {
    forall k :: 0 <= k < |w.backups| ==>
      && w.backups[k].tools.invocations.Keys <= w.used
      && AllHonest(w.backups[k].tools, w.calls) && CanceledIsDead(w.backups[k].tools, w.db.tools)
  }

  ghost predicate Accounted(w: World) {
    && w.db.tools.invocations.Keys <= w.used
    && AllHonest(w.db.tools, w.calls) && NotYetCalled(w.db.tools, w.calls) && IntentsUnique(w) && CalledAtMostOnce(w) && BackupsHonest(w)
  }

  lemma FreshAccounted(w: World)
    requires Fresh(w)
    ensures Accounted(w)
  {
  }

  /** A step that leaves tools, workers and history alone. */
  lemma UntouchedAccounted(w: World, v: World)
    requires Accounted(w) && w.used <= v.used
    requires v.db.tools == w.db.tools && v.workers == w.workers && v.calls == w.calls && v.backups == w.backups
    ensures Accounted(v)
  {
    assert BackupsHonest(v);
    assert IntentsUnique(v);
  }

  /** The workers of `v` hold no intent that those of `w` did not. */
  ghost predicate NoNewIntent(w: World, v: World) {
    forall k :: k in v.workers && v.workers[k].Intending? ==> k in w.workers && v.workers[k] == w.workers[k]
  }

  lemma BackupsSurviveMove(w: World, v: World, i: InvocationId, doc: Invocation)
    requires Accounted(w) && w.used <= v.used && v.calls == w.calls && v.backups == w.backups
    requires v.db.tools.invocations == w.db.tools.invocations[i := doc]
    requires if i in w.db.tools.invocations then Rank(w.db.tools.invocations[i].status) < Rank(doc.status) else i !in w.used
    ensures BackupsHonest(v)
  {
    forall k | 0 <= k < |v.backups| ensures CanceledIsDead(v.backups[k].tools, v.db.tools) {
      assert CanceledIsDead(w.backups[k].tools, w.db.tools);
    }
  }

  /** One operation changes its standing without a call. */
  lemma QuietMoveAccounted(w: World, v: World, i: InvocationId, doc: Invocation)
    requires Accounted(w) && w.used <= v.used && v.calls == w.calls && v.backups == w.backups && NoNewIntent(w, v)
    requires v.db.tools.invocations == w.db.tools.invocations[i := doc] && i in v.used
    requires if i in w.db.tools.invocations then Rank(w.db.tools.invocations[i].status) < Rank(doc.status) else i !in w.used
    requires Honest(doc, Times(w.calls, i)) && doc.status != ToolRunning
    requires doc.status in {AwaitingApproval, ToolReady} ==> doc.error.None? && Times(w.calls, i) == 0
    requires doc.status in {AwaitingApproval, ToolReady} && i in w.db.tools.invocations ==> w.db.tools.invocations[i].status == AwaitingApproval
    ensures Accounted(v)
  {
    BackupsSurviveMove(w, v, i, doc);
    assert AllHonest(v.db.tools, v.calls) && NotYetCalled(v.db.tools, v.calls);
    forall k | k in v.workers && v.workers[k].Intending? ensures IntentSpent(v, v.workers[k].id) {
      assert IntentSpent(w, w.workers[k].id);
    }
    assert IntentsUnique(v);
    assert CalledAtMostOnce(v);
  }

  /** A worker commits its intent. */
  lemma IntentAccounted(w: World, v: World, worker: WorkerId, i: InvocationId, doc: Invocation)
    requires Accounted(w) && w.used <= v.used && v.calls == w.calls && v.backups == w.backups
    requires i in w.db.tools.invocations && w.db.tools.invocations[i].status == ToolReady
    requires v.db.tools.invocations == w.db.tools.invocations[i := doc] && v.workers == w.workers[worker := Intending(i)]
    requires doc.status == ToolRunning && doc.error == w.db.tools.invocations[i].error
    ensures Accounted(v)
  {
    BackupsSurviveMove(w, v, i, doc);
    assert AllHonest(v.db.tools, v.calls) && NotYetCalled(v.db.tools, v.calls);
    forall k | k in v.workers && v.workers[k].Intending? ensures IntentSpent(v, v.workers[k].id) {
      if k != worker { assert IntentSpent(w, w.workers[k].id); }
    }
    assert IntentsUnique(v);
    assert CalledAtMostOnce(v);
  }

  lemma IntendAccounted(w: World, worker: WorkerId, i: InvocationId)
    requires Accounted(w) && !(worker in w.workers && w.workers[worker].Intending?)
    ensures Accounted(NextIntent(w, worker, i))
  {
    var v := NextIntent(w, worker, i);
    var (tools, committed) := Intend(w.db, w.now, i);
    if tools == w.db.tools {
      assert !committed ==> v.workers == w.workers[worker := Idle];
      IdleAccounted(w, v);
    } else if committed {
      IntentAccounted(w, v, worker, i, tools.invocations[i]);
    } else {
      QuietMoveAccounted(w, v, i, tools.invocations[i]);
    }
  }

  /** A worker drops its intent, or finds nothing to do. */
  lemma IdleAccounted(w: World, v: World)
    requires Accounted(w) && w.used <= v.used && NoNewIntent(w, v)
    requires v.db.tools == w.db.tools && v.calls == w.calls && v.backups == w.backups
    ensures Accounted(v)
  {
    assert BackupsHonest(v);
    forall k | k in v.workers && v.workers[k].Intending? ensures IntentSpent(v, v.workers[k].id) {
      assert IntentSpent(w, w.workers[k].id);
    }
    assert IntentsUnique(v);
  }

  /** The call is made: by the one holder of the intent, for the first time. */
  lemma CallAccounted(w: World, v: World, worker: WorkerId, i: InvocationId, doc: Invocation, c: Call)
    requires Accounted(w) && w.used <= v.used && v.backups == w.backups
    requires worker in w.workers && w.workers[worker] == Intending(i) && v.workers == w.workers[worker := Idle]
    requires i in w.db.tools.invocations && w.db.tools.invocations[i].status == ToolRunning
    requires c.id == i && v.calls == w.calls + [c] && v.db.tools.invocations == w.db.tools.invocations[i := doc]
    requires doc == w.db.tools.invocations[i] || (doc.status == ToolSucceeded && doc.error.None?) || (doc.status == ToolUnknown && doc.error.Some?)
    ensures Accounted(v)
  {
    assert IntentSpent(w, i);
    forall j ensures Times(v.calls, j) == Times(w.calls, j) + (if j == i then 1 else 0) { TimesNext(w.calls, c, j); }
    forall k | k in v.workers && v.workers[k].Intending? ensures IntentSpent(v, v.workers[k].id) {
      assert IntentSpent(w, w.workers[k].id);
    }
    assert IntentsUnique(v);
    assert CalledAtMostOnce(v);
    forall k | 0 <= k < |v.backups| ensures AllHonest(v.backups[k].tools, v.calls) && CanceledIsDead(v.backups[k].tools, v.db.tools) {
      assert AllHonest(w.backups[k].tools, w.calls) && CanceledIsDead(w.backups[k].tools, w.db.tools);
    }
    assert BackupsHonest(v);
    assert NotYetCalled(v.db.tools, v.calls);
  }

  lemma PerformAccounted(w: World, worker: WorkerId, i: InvocationId, outcome: Outcome)
    requires Accounted(w) && worker in w.workers && w.workers[worker] == Intending(i)
    ensures Accounted(NextPerformance(w, worker, i, outcome))
  {
    var v := NextPerformance(w, worker, i, outcome);
    var (tools, called) := Perform(w.db, w.now, i, outcome);
    assert IntentSpent(w, i);
    if called {
      CallAccounted(w, v, worker, i, tools.invocations[i], Call(i, outcome, w.db, w.now));
    } else if tools == w.db.tools {
      IdleAccounted(w, v);
    } else {
      QuietMoveAccounted(w, v, i, tools.invocations[i]);
    }
  }

  lemma RequestAccounted(w: World, c: Caller, wanting: Wanted, newId: nat)
    requires Accounted(w) && newId !in w.used
    ensures Accounted(WithTools(w, RequestInvocation(w.db, w.now, c, wanting, newId)).(used := w.used + {newId}))
  {
    var r := RequestInvocation(w.db, w.now, c, wanting, newId);
    var v := WithTools(w, r).(used := w.used + {newId});
    if r.Ok? && r.value != w.db.tools {
      assert Times(w.calls, newId) == 0;
      QuietMoveAccounted(w, v, newId, r.value.invocations[newId]);
    } else {
      UntouchedAccounted(w, v);
    }
  }

  lemma DecideAccounted(w: World, c: Caller, approval: ApprovalId, digest: Binding, approve: bool, ifMatch: nat)
    requires Accounted(w)
    ensures Accounted(WithTools(w, DecideApproval(w.db, w.now, c, approval, digest, approve, ifMatch)))
  {
    var r := DecideApproval(w.db, w.now, c, approval, digest, approve, ifMatch);
    if r.Ok? {
      var i := w.db.tools.approvals[approval].invocation;
      QuietMoveAccounted(w, WithTools(w, r), i, r.value.invocations[i]);
    }
  }

  lemma ReconcileAccounted(w: World, c: Caller, i: InvocationId, ifMatch: nat, lookup: Lookup)
    requires Accounted(w)
    ensures Accounted(WithTools(w, ReconcileInvocation(w.db, w.now, c, i, ifMatch, lookup)))
  {
    var r := ReconcileInvocation(w.db, w.now, c, i, ifMatch, lookup);
    if r.Ok? {
      QuietMoveAccounted(w, WithTools(w, r), i, r.value.invocations[i]);
    }
  }

  lemma BackupAccounted(w: World)
    requires Accounted(w)
    ensures Accounted(w.(backups := w.backups + [w.db]))
  {
    var v := w.(backups := w.backups + [w.db]);
    assert BackupsHonest(v);
    forall k | k in v.workers && v.workers[k].Intending? ensures IntentSpent(v, v.workers[k].id) {
      assert IntentSpent(w, w.workers[k].id);
    }
    assert IntentsUnique(v);
  }

  lemma RestoreAccounted(w: World, index: nat)
    requires Accounted(w) && index < |w.backups|
    ensures Accounted(w.(db := Quarantine(w.backups[index])))
  {
    var b, v := w.backups[index], w.(db := Quarantine(w.backups[index]));
    assert AllHonest(b.tools, w.calls);
    forall i | i in v.db.tools.invocations
      ensures !Startable(v.db.tools.invocations[i].status) && Honest(v.db.tools.invocations[i], Times(w.calls, i))
    {
      assert Honest(b.tools.invocations[i], Times(w.calls, i));
    }
    forall k | k in v.workers && v.workers[k].Intending? ensures IntentSpent(v, v.workers[k].id) {
      assert IntentSpent(w, w.workers[k].id);
    }
    assert IntentsUnique(v);
    forall k | 0 <= k < |v.backups| ensures CanceledIsDead(v.backups[k].tools, v.db.tools) {
    }
    assert BackupsHonest(v);
  }

  lemma ToolStepAccounted(w: World, a: Action)
    requires Accounted(w) && Possible(w, a) && ToolAction(a) && !a.DoRequest?
    ensures Accounted(NextTool(w, a))
  {
    match a
    case DoDecide(c, approval, digest, approve, ifMatch) => DecideAccounted(w, c, approval, digest, approve, ifMatch);
    case WorkerIntends(worker, id) =>
      if !(worker in w.workers && w.workers[worker].Intending?) { IntendAccounted(w, worker, id); }
    case WorkerPerforms(worker, outcome) =>
      if worker in w.workers && w.workers[worker].Intending? { PerformAccounted(w, worker, w.workers[worker].id, outcome); }
    case WorkerGivesUp(worker) => IdleAccounted(w, NextTool(w, a));
    case DoReconcile(c, id, ifMatch, lookup) => ReconcileAccounted(w, c, id, ifMatch, lookup);
  }

  lemma StepAccounted(w: World, a: Action)
    requires Accounted(w) && Possible(w, a)
    ensures Accounted(Next(w, a))
  {
    if TaskAction(a) {
      TaskStepLeavesTools(w, a);
      UntouchedAccounted(w, Next(w, a));
    } else if DeliveryAction(a) {
      DeliveryStepLeavesTools(w, a);
      UntouchedAccounted(w, Next(w, a));
    } else if ToolAction(a) {
      ToolActionAccounted(w, a);
    } else {
      OtherStepAccounted(w, a);
    }
  }

  lemma ToolActionAccounted(w: World, a: Action)
    requires Accounted(w) && Possible(w, a) && ToolAction(a)
    ensures Accounted(Next(w, a))
  {
    if a.DoRequest? {
      assert a.newId in NewIds(a);
      RequestAccounted(w, a.caller, a.wanting, a.newId);
    } else {
      ToolStepAccounted(w, a);
      assert Next(w, a) == NextTool(w, a).(used := w.used + {});
      UntouchedAccounted(NextTool(w, a), Next(w, a));
    }
  }

  lemma OtherStepAccounted(w: World, a: Action)
    requires Accounted(w) && !TaskAction(a) && !DeliveryAction(a) && !ToolAction(a)
    ensures Accounted(Next(w, a))
  {
    if a.TakeBackup? {
      BackupAccounted(w);
      UntouchedAccounted(w.(backups := w.backups + [w.db]), Next(w, a));
    } else if a.RestoreBackup? {
      if a.index < |w.backups| {
        RestoreAccounted(w, a.index);
        UntouchedAccounted(w.(db := Quarantine(w.backups[a.index])), Next(w, a));
      } else {
        UntouchedAccounted(w, Next(w, a));
      }
    } else {
      OtherStepLeavesTools(w, a);
      UntouchedAccounted(w, Next(w, a));
    }
  }

  lemma AccountedAt(states: seq<World>, actions: seq<Action>, k: nat)
    requires IsRun(states, actions) && k < |actions| && Accounted(states[k])
    ensures Accounted(states[k + 1])
  {
    assert StepsAt(states, actions, k);
    StepAccounted(states[k], actions[k]);
  }

  lemma {:induction false} RunAccounted(states: seq<World>, actions: seq<Action>, k: nat)
    requires IsRun(states, actions) && k < |states|
    ensures Accounted(states[k])
  {
    if k == 0 {
      FreshAccounted(states[0]);
    } else {
      RunAccounted(states, actions, k - 1);
      AccountedAt(states, actions, k - 1);
    }
  }

  /** In every state of every run - any number of workers, crashes, approvals, maintenance windows and restores -
      the external call of an operation has been made at most once; CANCELED means never; a success the worker
      recorded (one without an error code) means exactly once; nothing awaiting approval or ready has been called. */
  lemma EffectsAtMostOnce(states: seq<World>, actions: seq<Action>, k: nat, i: InvocationId)
    requires IsRun(states, actions) && k < |states|
    ensures var v := states[k];
            && Times(v.calls, i) <= 1
            && (i in v.db.tools.invocations ==>
                  var doc := v.db.tools.invocations[i];
                  && (doc.status in {AwaitingApproval, ToolReady, ToolCanceled} ==> Times(v.calls, i) == 0)
                  && (doc.status == ToolSucceeded && doc.error.None? ==> Times(v.calls, i) == 1)
                  && (doc.status == ToolUnknown ==> doc.error.Some?))
  {
    RunAccounted(states, actions, k);
    var v := states[k];
    assert CalledAtMostOnce(v) && AllHonest(v.db.tools, v.calls) && NotYetCalled(v.db.tools, v.calls);
    if i in v.db.tools.invocations { assert Honest(v.db.tools.invocations[i], Times(v.calls, i)); }
  }
}
