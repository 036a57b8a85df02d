/** Which operations agents may ask for, and that each is asked for once: one row to a Session's key, over every run. */
module Requests {
  import opened Options
  import opened Tables
  import opened Access
  import opened Governance
  import opened Recovery
  import opened ControlPlane
  import opened RunWrites
  import I = Invariants
  import Histories
  import ToolSafety

  // --- What may be asked for --------------------------------------------------------------

  /** The arguments name a pull request of the repository at a head, and some evidence is that very pull request. */
  ghost predicate MergeShown(db: Database, repository: nat, w: Wanted) {
    exists a :: a in w.artifacts && a in db.evidence.artifacts && db.evidence.artifacts[a].kind == PullRequest
                && db.evidence.artifacts[a].revision == w.arguments.commit && db.evidence.artifacts[a].uri == Pull(repository, w.arguments.pullRequest)
  }

  /** The tool is enabled as the agent knows it and as the backend is configured, takes the arguments, and has its evidence:
      verified artifacts of this Run, for a merge the pull request at the head to be merged. */
  ghost predicate MayRequest(db: Database, now: int, c: Caller, w: Wanted) {
    && MayUse(db, now, c, ToolsInvoke, w.run, w.fence, w.ifMatch)
    && w.tool in db.env.policies && db.env.policies[w.tool].backend in db.env.backends
    && var policy := db.env.policies[w.tool];
       var backend := db.env.backends[policy.backend];
       && policy.enabled && policy.resourceVersion == w.resourceVersion && policy.schema == backend.schema && w.arguments in backend.accepts
       && (forall a :: a in w.artifacts ==> a in db.evidence.artifacts && db.evidence.artifacts[a].run == w.run
                                            && db.evidence.artifacts[a].verification == Verified)
       && (backend.merges.Some? ==> MergeShown(db, backend.merges.value, w))
  }

  /** The operation of this Session under this key. */
  ghost predicate Asked(tools: Tools, session: SessionId, key: nat, i: InvocationId) {
    i in tools.invocations && tools.invocations[i].session == session && tools.invocations[i].key == key
  }

  ghost predicate Repeats(db: Database, w: Wanted, i: InvocationId)
    requires i in db.tools.invocations && w.tool in db.env.policies
  {
    var v := db.tools.invocations[i];
    && v.run == w.run && v.binding.tool == w.tool && v.binding.arguments == w.arguments
    && v.binding.resourceVersion == db.env.policies[w.tool].resourceVersion && v.binding.artifacts == w.artifacts
  }

  /** One new operation, bound for half an hour to exactly what was asked and what is configured now: ready if it only reads,
      else awaiting its own approval, asked for by the person behind the agent. */
  ghost predicate RequestedSo(db: Database, now: int, c: Caller, w: Wanted, newId: nat, later: Tools)
    requires MayRequest(db, now, c, w)
  {
    var run, policy, user := db.execution.runs[w.run], db.env.policies[w.tool], db.sessions[c.session].human;
    var backend := db.env.backends[policy.backend];
    var b := Binding(c.session, w.run, w.tool, backend.schema, backend.resource, policy.resourceVersion, w.arguments, w.artifacts,
                     policy.version, now + 30 * 60);
    && later.invocations == db.tools.invocations[newId :=
         Invocation(w.run, run.task, c.session, run.owner, run.delegator, w.key, b, b, w.arguments,
                    if policy.readOnly then None else Some(newId), if policy.readOnly then ToolReady else AwaitingApproval, None, 1)]
    && later.approvals == if policy.readOnly then db.tools.approvals else db.tools.approvals[newId := Approval(newId, user, b, Undecided, None, 1)]
  }

  lemma {:induction false} EvidenceIff(db: Database, run: RunId, artifacts: seq<ArtifactId>)
    ensures CheckEvidence(db, run, artifacts) == Pass <==>
            forall a :: a in artifacts ==> a in db.evidence.artifacts && db.evidence.artifacts[a].run == run && db.evidence.artifacts[a].verification == Verified
  {
    if artifacts != [] {
      EvidenceIff(db, run, artifacts[1..]);
      assert forall a :: a in artifacts <==> a == artifacts[0] || a in artifacts[1..];
    }
  }

  lemma RequestMeans(db: Database, now: int, c: Caller, w: Wanted, newId: nat)
    requires OnePerKey(db.tools)
    ensures var r := RequestInvocation(db, now, c, w, newId);
            if !MayRequest(db, now, c, w) then r.Err?
            else if exists i :: Asked(db.tools, c.session, w.key, i)
            then forall i :: Asked(db.tools, c.session, w.key, i) ==> if Repeats(db, w, i) then r == Ok(db.tools) else r.Err?
            else r.Ok? && RequestedSo(db, now, c, w, newId, r.value)
  {
    UseIff(db, now, c, INVOKING, w.run, w.fence, w.ifMatch);
    EvidenceIff(db, w.run, w.artifacts);
    if MayRequest(db, now, c, w) {
      var prior := Prior(db.tools, c.session, w.key);
      assert forall i :: Asked(db.tools, c.session, w.key, i) <==> i in prior;
      forall i | Asked(db.tools, c.session, w.key, i) ensures i == LeastOf(prior) { assert SameKey(db.tools, i, LeastOf(prior)); }
    }
  }

  // --- One row to a key ------------------------------------------------------------------------

  ghost predicate SameKey(tools: Tools, i: InvocationId, j: InvocationId) {
    && i in tools.invocations && j in tools.invocations
    && tools.invocations[i].session == tools.invocations[j].session && tools.invocations[i].key == tools.invocations[j].key
  }

  ghost predicate OnePerKey(tools: Tools) { forall i, j {:trigger SameKey(tools, i, j)} :: SameKey(tools, i, j) ==> i == j }

  /** The same operations under the same keys. */
  ghost predicate SameKeys(x: Tools, y: Tools) {
    && y.invocations.Keys == x.invocations.Keys
    && forall i :: i in x.invocations ==> y.invocations[i].session == x.invocations[i].session && y.invocations[i].key == x.invocations[i].key
  }

  lemma SameKeysKeep(x: Tools, y: Tools)
    requires OnePerKey(x) && SameKeys(x, y)
    ensures OnePerKey(y)
  {
    forall i, j | SameKey(y, i, j) ensures i == j { assert SameKey(x, i, j); }
  }

  lemma RequestKeepsKeys(db: Database, now: int, c: Caller, w: Wanted, newId: nat)
    requires OnePerKey(db.tools) && newId !in db.tools.invocations
    ensures var r := RequestInvocation(db, now, c, w, newId); r.Ok? ==> OnePerKey(r.value)
  {
    RequestMeans(db, now, c, w, newId);
    var r := RequestInvocation(db, now, c, w, newId);
    if r.Ok? && !exists i :: Asked(db.tools, c.session, w.key, i) {
      forall i: InvocationId, j: InvocationId | SameKey(r.value, i, j) ensures i == j {
        if i != newId && j != newId {
          assert SameKey(db.tools, i, j);
        } else if i != j {
          assert Asked(db.tools, c.session, w.key, if i == newId then j else i);
          assert false;
        }
      }
    }
  }

  lemma IntentKeepsKeys(db: Database, now: int, i: InvocationId)
    ensures SameKeys(db.tools, Intend(db, now, i).0)
  {
  }

  lemma PerformanceKeepsKeys(db: Database, now: int, i: InvocationId, outcome: Outcome)
    ensures SameKeys(db.tools, Perform(db, now, i, outcome).0)
  {
  }

  lemma DecisionKeepsKeys(db: Database, now: int, c: Caller, id: ApprovalId, digest: Binding, approve: bool, ifMatch: nat)
    ensures var r := DecideApproval(db, now, c, id, digest, approve, ifMatch); r.Ok? ==> SameKeys(db.tools, r.value)
  {
  }

  lemma SettlementKeepsKeys(db: Database, now: int, c: Caller, i: InvocationId, ifMatch: nat, lookup: Lookup)
    ensures var r := ReconcileInvocation(db, now, c, i, ifMatch, lookup); r.Ok? ==> SameKeys(db.tools, r.value)
  {
  }

  lemma OthersKeepKeys(w: World, a: Action)
    requires ToolAction(a) && !a.DoRequest?
    ensures SameKeys(w.db.tools, NextTool(w, a).db.tools)
  {
    match a
    case WorkerIntends(worker, i) => IntentKeepsKeys(w.db, w.now, i);
    case WorkerPerforms(worker, outcome) =>
      if worker in w.workers && w.workers[worker].Intending? { PerformanceKeepsKeys(w.db, w.now, w.workers[worker].id, outcome); }
    case DoDecide(c, id, digest, approve, ifMatch) => DecisionKeepsKeys(w.db, w.now, c, id, digest, approve, ifMatch);
    case DoReconcile(c, i, ifMatch, lookup) => SettlementKeepsKeys(w.db, w.now, c, i, ifMatch, lookup);
    case _ =>
  }

  lemma ToolStepKeepsKeys(w: World, a: Action)
    requires ToolAction(a) && OnePerKey(w.db.tools) && Drawn(w.db, w.used) && Possible(w, a)
    ensures OnePerKey(NextTool(w, a).db.tools)
  {
    if a.DoRequest? {
      assert a.newId in NewIds(a);
      RequestKeepsKeys(w.db, w.now, a.caller, a.wanting, a.newId);
    } else {
      OthersKeepKeys(w, a);
      SameKeysKeep(w.db.tools, NextTool(w, a).db.tools);
    }
  }

  /** In the database and in every backup. */
  ghost predicate OnePerKeyEverywhere(w: World) {
    OnePerKey(w.db.tools) && forall k :: 0 <= k < |w.backups| ==> OnePerKey(w.backups[k].tools)
  }

  lemma QuarantineKeepsKeys(db: Database)
    requires OnePerKey(db.tools)
    ensures OnePerKey(Quarantine(db).tools)
  {
    SameKeysKeep(db.tools, Quarantine(db).tools);
  }

  lemma StepKeepsKeys(w: World, a: Action)
    requires OnePerKeyEverywhere(w) && Drawn(w.db, w.used) && Possible(w, a)
    ensures OnePerKeyEverywhere(Next(w, a))
  {
    if TaskAction(a) {
      I.TaskStepFrame(w, a);
    } else if DeliveryAction(a) {
      I.DeliveryStepLedger(w, a);
      ToolSafety.DeliveryStepLeavesTools(w, a);
    } else if ToolAction(a) {
      I.ToolStepFrame(w, a);
      ToolStepKeepsKeys(w, a);
    } else {
      Histories.OthersLeaveRows(w, a);
      if a.RestoreBackup? && a.index < |w.backups| { QuarantineKeepsKeys(w.backups[a.index]); }
    }
  }

  lemma KeysAt(states: seq<World>, actions: seq<Action>, k: nat, next: nat)
    requires IsRun(states, actions) && k < |actions| && next == k + 1 && OnePerKeyEverywhere(states[k])
    ensures OnePerKeyEverywhere(states[next])
  {
    I.RunOrderly(states, actions, k);
    assert StepsAt(states, actions, k);
    StepKeepsKeys(states[k], actions[k]);
  }

  lemma {:induction false} RunKeepsKeys(states: seq<World>, actions: seq<Action>, k: nat)
    requires IsRun(states, actions) && k < |states|
    ensures OnePerKeyEverywhere(states[k])
  {
    if k > 0 {
      RunKeepsKeys(states, actions, k - 1);
      KeysAt(states, actions, k - 1, k);
    }
  }

  /** A request that may be made and is new adds exactly the operation asked for; any other changes no operation. */
  ghost predicate RequestStep(w: World, v: World, c: Caller, wanting: Wanted, newId: nat) {
    if MayRequest(w.db, w.now, c, wanting) && !exists i :: Asked(w.db.tools, c.session, wanting.key, i)
    then RequestedSo(w.db, w.now, c, wanting, newId, v.db.tools) else v.db.tools == w.db.tools
  }

  lemma RequestStepMeans(w: World, a: Action)
    requires a.DoRequest? && OnePerKey(w.db.tools)
    ensures RequestStep(w, NextTool(w, a), a.caller, a.wanting, a.newId)
  {
    RequestMeans(w.db, w.now, a.caller, a.wanting, a.newId);
  }

  lemma RequestStepAt(states: seq<World>, actions: seq<Action>, k: nat)
    requires IsRun(states, actions) && k < |actions| && actions[k].DoRequest? && OnePerKey(states[k].db.tools)
    ensures RequestStep(states[k], states[k + 1], actions[k].caller, actions[k].wanting, actions[k].newId)
  {
    assert StepsAt(states, actions, k);
    RequestStepMeans(states[k], actions[k]);
  }

  /** In every run a Session's key stands for one operation at most, restores included: a request that may be made and is new
      adds exactly the operation asked for, and every other leaves the operations as they are. */
  lemma EveryRequest(states: seq<World>, actions: seq<Action>, k: nat)
    requires IsRun(states, actions) && k < |actions| && actions[k].DoRequest?
    ensures OnePerKey(states[k].db.tools) && OnePerKey(states[k + 1].db.tools)
    ensures RequestStep(states[k], states[k + 1], actions[k].caller, actions[k].wanting, actions[k].newId)
  {
    RunKeepsKeys(states, actions, k);
    RunKeepsKeys(states, actions, k + 1);
    RequestStepAt(states, actions, k);
  }
}
