/** The control plane as it works: handlers and workers that change rows step by step inside one
    transaction, proved against the functions the state machine is made of. */
module Store {
  import opened Options
  import opened Tables
  import opened Access
  import opened Dependencies
  import opened Snapshots
  import opened TaskFlow
  import opened Governance
  import opened Delivery
  import opened Recovery

  /** Committed or refused; a refusal rolls everything back. */
  ghost predicate Executed(before: Database, after: Database, r: Check, spec: Result<Execution>) {
    if spec.Ok? then r == Pass && after == before.(execution := spec.value) else r == Fail(spec.problem) && after == before
  }

  ghost predicate Evidenced(before: Database, after: Database, r: Check, spec: Result<Evidence>) {
    if spec.Ok? then r == Pass && after == before.(evidence := spec.value) else r == Fail(spec.problem) && after == before
  }

  ghost predicate Governed(before: Database, after: Database, r: Check, spec: Result<Tools>) {
    if spec.Ok? then r == Pass && after == before.(tools := spec.value) else r == Fail(spec.problem) && after == before
  }

  ghost predicate Guarded(before: Database, after: Database, r: Check, spec: Result<Gate>) {
    if spec.Ok? then r == Pass && after == before.(gate := spec.value) else r == Fail(spec.problem) && after == before
  }

  // --- Reading loops ---------------------------------------------------------------

  /** The entries so far, plus this one unless its Context is there; refused if it is there under another version. */
  method Join(entries: seq<Entry>, e: Entry) returns (r: Result<seq<Entry>>)
    ensures r == Joined(entries, e)
  {
    var present := false;
    for i := 0 to |entries|
      invariant forall j :: 0 <= j < i ==> entries[j].context == e.context ==> entries[j].version == e.version
      invariant present <==> exists j :: 0 <= j < i && entries[j].context == e.context
    {
      if entries[i].context == e.context {
        if entries[i].version != e.version { return Err(ContextConflict); }
        present := true;
      }
    }
    return Ok(if present then entries else entries + [e]);
  }

  lemma Reassociate<T>(a: seq<T>, b: seq<T>, c: seq<T>)
    ensures a + (b + c) == (a + b) + c
  {
  }

  method Select(env: Environment, contexts: map<ContextId, VersionId>) returns (entries: seq<Entry>)
    ensures entries == Selected(env, contexts)
  {
    var rows := Ascending(contexts.Keys);
    entries := [];
    while rows != []
      invariant entries + SelectedFrom(env, contexts, rows) == Selected(env, contexts)
    {
      Reassociate(entries, EntriesOf(env, contexts, rows[0]), SelectedFrom(env, contexts, rows[1..]));
      entries := entries + EntriesOf(env, contexts, rows[0]);
      rows := rows[1..];
    }
  }

  /** One artifact's Context, if it contributes one. */
  method CollectOne(env: Environment, a: Artifact, entries: seq<Entry>) returns (r: Result<seq<Entry>>)
    ensures var found := ApiEntry(env, a);
            r == if found.Err? then Err(found.problem) else if found.value.Some? then Joined(entries, found.value.value) else Ok(entries)
  {
    var found := ApiEntry(env, a);
    if found.Err? { return Err(found.problem); }
    if found.value.None? { return Ok(entries); }
    r := Join(entries, found.value.value);
  }

  /** The references and Contexts of the accepted artifacts, added one artifact at a time. */
  method Collect(env: Environment, evidence: Evidence, order: seq<ArtifactId>, base: seq<Entry>)
    returns (r: Result<seq<Entry>>, refs: seq<Ref>)
    requires forall a :: a in order ==> a in evidence.artifacts
    ensures r == Gather(env, evidence, order, base) && (r.Ok? ==> refs == RefsOf(evidence, order))
  {
    var entries, rows := base, order;
    refs := [];
    while rows != []
      invariant forall a :: a in rows ==> a in evidence.artifacts
      invariant Gather(env, evidence, order, base) == Gather(env, evidence, rows, entries)
      invariant refs + RefsOf(evidence, rows) == RefsOf(evidence, order)
    {
      Reassociate(refs, [RefOf(evidence, rows[0])], RefsOf(evidence, rows[1..]));
      refs := refs + [RefOf(evidence, rows[0])];
      var more := CollectOne(env, evidence.artifacts[rows[0]], entries);
      if more.Err? { return more, refs; }
      entries, rows := more.value, rows[1..];
    }
    return Ok(entries), refs;
  }

  /** Freezing a task's inputs: its own Contexts, then each accepted artifact's reference and Context. */
  method Freeze(env: Environment, x: Execution, evidence: Evidence, task: TaskId) returns (r: Result<Snapshot>)
    requires task in x.tasks
    ensures r == FreezeSnapshot(env, x, evidence, task)
  {
    var base := Select(env, x.tasks[task].contexts);
    if base == [] { return Err(ContextRequired); }
    var entries, refs := Collect(env, evidence, Ascending(Inputs(x, evidence, task)), base);
    if entries.Err? { return Err(entries.problem); }
    return Ok(Snapshot(SortByContext(entries.value), refs));
  }

  /** One version of each Context, or the first reason why not. */
  method ChooseVersions(env: Environment, versions: seq<VersionId>, published: bool) returns (r: Result<map<ContextId, VersionId>>)
    ensures r == Choose(env, versions, published, map[])
  {
    var chosen: map<ContextId, VersionId> := map[];
    for i := 0 to |versions|
      invariant Choose(env, versions, published, map[]) == Choose(env, versions[i..], published, chosen)
    {
      var v := versions[i];
      assert versions[i..][1..] == versions[i + 1..];
      if v !in env.versions || (published && !env.versions[v].published) { return Err(InvalidContext); }
      if env.versions[v].context in chosen { return Err(ContextConflict); }
      chosen := chosen[env.versions[v].context := v];
    }
    return Ok(chosen);
  }

  method CheckArtifacts(db: Database, run: RunId, artifacts: seq<ArtifactId>) returns (r: Check)
    ensures r == CheckEvidence(db, run, artifacts)
  {
    for i := 0 to |artifacts|
      invariant CheckEvidence(db, run, artifacts) == CheckEvidence(db, run, artifacts[i..])
    {
      assert artifacts[i..][1..] == artifacts[i + 1..];
      if artifacts[i] !in db.evidence.artifacts { return Fail(NotFound); }
      var a := db.evidence.artifacts[artifacts[i]];
      if a.run != run || a.verification != Verified { return Fail(InvalidToolEvidence); }
    }
    return Pass;
  }

  method FindMergeEvidence(db: Database, repository: nat, arguments: Arguments, artifacts: seq<ArtifactId>) returns (matched: bool)
    ensures matched <==> MergeEvidence(db, repository, arguments, artifacts)
  {
    matched := false;
    for i := 0 to |artifacts|
      invariant matched <==> exists j :: 0 <= j < i && artifacts[j] in db.evidence.artifacts &&
                               var a := db.evidence.artifacts[artifacts[j]];
                               a.kind == PullRequest && a.revision == arguments.commit && a.uri == Pull(repository, arguments.pullRequest)
    {
      if artifacts[i] in db.evidence.artifacts {
        var a := db.evidence.artifacts[artifacts[i]];
        if a.kind == PullRequest && a.revision == arguments.commit && a.uri == Pull(repository, arguments.pullRequest) { matched := true; }
      }
    }
  }

  class Rows {
    var tasks: map<TaskId, Task>
    var runs: map<RunId, TaskRun>
    var assignments: map<TaskId, Target>
    var dependencies: map<DependencyId, Dependency>
    var snapshots: map<SnapshotId, Snapshot>
    var nextFence: nat
    var artifacts: map<ArtifactId, Artifact>
    var contents: map<ContentId, Content>
    var invocations: map<InvocationId, Invocation>
    var approvals: map<ApprovalId, Approval>
    var maintenance: bool
    var recoveryPending: bool
    var resolved: map<ItemId, bool>
    var sessions: map<SessionId, Session>
    var archived: bool
    var version: nat
    var env: Environment

    function Work(): Execution
      reads this
    {
      Execution(tasks, runs, assignments, dependencies, snapshots, nextFence)
    }

    function State(): Database
      reads this
    {
      Database(Work(), Evidence(artifacts, contents), Tools(invocations, approvals),
               Gate(maintenance, recoveryPending, resolved), sessions, archived, version, env)
    }

    constructor (env: Environment)
      ensures State() == Database(Execution(map[], map[], map[], map[], map[], 1), Evidence(map[], map[]), Tools(map[], map[]),
                                  Gate(false, false, map[]), map[], false, 1, env)
    {
      tasks, runs, assignments, dependencies, snapshots, nextFence := map[], map[], map[], map[], map[], 1;
      artifacts, contents, invocations, approvals := map[], map[], map[], map[];
      maintenance, recoveryPending, resolved := false, false, map[];
      sessions, archived, version := map[], false, 1;
      this.env := env;
    }

    // --- Governed tools ----------------------------------------------------------------

    method SaveInvocation(id: InvocationId, doc: Invocation)
      modifies this`invocations
      ensures invocations == old(invocations)[id := Saved(doc)]
    {
      invocations := invocations[id := doc.(version := doc.version + 1)];
    }

    method Request(now: int, caller: Caller, w: Wanted, newId: nat) returns (r: Check)
      modifies this`invocations, this`approvals
      ensures Governed(old(State()), State(), r, RequestInvocation(old(State()), now, caller, w, newId))
    {
      var q := Admit(State(), now, caller, INVOKING);
      if q.Err? { return Fail(q.problem); }
      var run := ActiveRun(State(), now, q.value, w.run, w.fence, w.ifMatch);
      if run.Err? { return Fail(run.problem); }
      if w.tool !in env.policies { return Fail(NotFound); }
      var policy := env.policies[w.tool];
      if policy.backend !in env.backends { return Fail(ToolUnavailable); }
      var backend := env.backends[policy.backend];
      if !policy.enabled || policy.resourceVersion != w.resourceVersion || policy.schema != backend.schema { return Fail(PolicyChanged); }
      if w.arguments !in backend.accepts { return Fail(InvalidToolArguments); }
      var checked := CheckArtifacts(State(), w.run, w.artifacts);
      if checked.Fail? { return checked; }
      if backend.merges.Some? {
        var matched := FindMergeEvidence(State(), backend.merges.value, w.arguments, w.artifacts);
        if !matched { return Fail(MergeEvidenceRequired); }
      }
      var b := Bind(now, q.value, w, policy, backend);
      var doc := Requested(run.value, w, b, q.value, policy, newId);
      var prior := Prior(Tools(invocations, approvals), run.value.session, w.key);
      if prior != {} {
        if !SameRequest(invocations[LeastOf(prior)], w, policy) { return Fail(IdempotencyConflict); }
        return Pass;
      }
      invocations := invocations[newId := doc];
      if !policy.readOnly { approvals := approvals[newId := Approval(newId, q.value.user, b, Undecided, None, 1)]; }
      return Pass;
    }

    method Decide(now: int, caller: Caller, id: ApprovalId, digest: Binding, approve: bool, ifMatch: nat) returns (r: Check)
      modifies this`invocations, this`approvals
      ensures Governed(old(State()), State(), r, DecideApproval(old(State()), now, caller, id, digest, approve, ifMatch))
    {
      var q := Admit(State(), now, caller, BY_REVIEWER);
      if q.Err? { return Fail(q.problem); }
      if id !in approvals { return Fail(NotFound); }
      var doc := approvals[id];
      if ifMatch != doc.version { return Fail(VersionConflict); }
      if doc.requester == q.value.user { return Fail(SeparationRequired); }
      if doc.status != Undecided { return Fail(ApprovalFinal); }
      if doc.digest != digest { return Fail(BindingChanged); }
      if doc.invocation !in invocations { return Fail(NotFound); }
      var invocation := invocations[doc.invocation];
      if invocation.status != AwaitingApproval { return Fail(InvocationInactive); }
      var valid := Validate(State(), now, invocation, false);
      if valid.Err? { return Fail(valid.problem); }
      var status := Declined;
      var next := ToolCanceled;
      if approve { status, next := Approved, ToolReady; }
      approvals := approvals[id := doc.(status := status, decider := Some(q.value.user), version := doc.version + 1)];
      SaveInvocation(doc.invocation, invocation.(status := next));
      return Pass;
    }

    /** First transaction of the worker: commit the intent, or find out why there is none. */
    method IntendTool(now: int, id: InvocationId) returns (committed: bool)
      modifies this`invocations, this`approvals
      ensures State() == old(State()).(tools := Intend(old(State()), now, id).0) && committed == Intend(old(State()), now, id).1
    {
      committed := false;
      if maintenance || id !in invocations { return; }
      var doc := invocations[id];
      if doc.status == ToolRunning {
        SaveInvocation(id, doc.(status := ToolUnknown, error := Some(WorkerInterrupted)));
        return;
      }
      if doc.status != ToolReady && doc.status != AwaitingApproval { return; }
      var valid := Validate(State(), now, doc, doc.status == ToolReady);
      if valid.Err? {
        if doc.approval.Some? {
          if doc.approval.value !in approvals { return; }
          var approval := approvals[doc.approval.value];
          if approval.status == Undecided {
            approvals := approvals[doc.approval.value := approval.(status := Expired, version := approval.version + 1)];
          }
        }
        SaveInvocation(id, doc.(status := ToolCanceled, error := Some(AuthorityOrBindingChanged)));
        return;
      }
      if doc.status == AwaitingApproval { return; }
      SaveInvocation(id, doc.(status := ToolRunning));
      committed := true;
    }

    /** Second transaction: look again, call, record. `outcome` is how the call goes if it is made. */
    method PerformTool(now: int, id: InvocationId, outcome: Outcome) returns (called: bool)
      modifies this`invocations
      ensures State() == old(State()).(tools := Perform(old(State()), now, id, outcome).0)
      ensures called == Perform(old(State()), now, id, outcome).1
    {
      called := false;
      if maintenance || id !in invocations { return; }
      var doc := invocations[id];
      if doc.status != ToolRunning { return; }
      var valid := Validate(State(), now, doc, true);
      if valid.Err? {
        SaveInvocation(id, doc.(status := ToolCanceled, error := Some(PreExecutionAuthorityChanged)));
        return;
      }
      called := true;
      if outcome == Answered {
        SaveInvocation(id, doc.(status := ToolSucceeded));
      } else if outcome == Errored {
        SaveInvocation(id, doc.(status := ToolUnknown, error := Some(ExternalOutcomeUnknown)));
      }
    }

    method ReconcileTool(now: int, caller: Caller, id: InvocationId, ifMatch: nat, lookup: Lookup) returns (r: Check)
      modifies this`invocations
      ensures Governed(old(State()), State(), r, ReconcileInvocation(old(State()), now, caller, id, ifMatch, lookup))
    {
      var q := Admit(State(), now, caller, RECONCILING);
      if q.Err? { return Fail(q.problem); }
      if id !in invocations { return Fail(NotFound); }
      var doc := invocations[id];
      if ifMatch != doc.version { return Fail(VersionConflict); }
      if doc.status != ToolUnknown { return Fail(ReconciliationNotRequired); }
      if doc.binding.tool !in env.policies { return Fail(NotFound); }
      var policy := env.policies[doc.binding.tool];
      if policy.backend !in env.backends { return Fail(ToolUnavailable); }
      var backend := env.backends[policy.backend];
      if backend.schema != doc.binding.schema || backend.resource != doc.binding.resource { return Fail(BackendChanged); }
      if lookup == NoAnswer { return Fail(OutcomeUnknown); }
      var status := ToolSucceeded;
      if lookup == FailedThere { status := ToolFailed; }
      SaveInvocation(id, doc.(status := status));
      return Pass;
    }

    // --- Tasks and Runs -----------------------------------------------------------------

    method SaveTask(id: TaskId, t: Task)
      modifies this`tasks
      ensures tasks == old(tasks)[id := SavedTask(t)]
    {
      tasks := tasks[id := t.(version := t.version + 1)];
    }

    method SaveRun(id: RunId, run: TaskRun)
      modifies this`runs
      ensures runs == old(runs)[id := SavedRun(run)]
    {
      runs := runs[id := run.(version := run.version + 1)];
    }

    /** Resolve the task's evidence, then ask whether all it waits for is there. */
    method Recheck(id: TaskId) returns (ready: bool)
      requires id in tasks
      modifies this`dependencies
      ensures Work() == ResolveEvidence(old(Work()), Evidence(artifacts, contents), {id})
      ensures ready == TaskReady(env, Work(), Evidence(artifacts, contents), id)
    {
      dependencies := ResolveEvidence(Work(), Evidence(artifacts, contents), {id}).dependencies;
      ready := TaskReady(env, Work(), Evidence(artifacts, contents), id);
    }

    /** A READY task that the new dependency holds back becomes BLOCKED. */
    method AddEdge(id: TaskId, d: Dependency, newId: nat)
      requires id in tasks
      modifies this`tasks, this`dependencies
      ensures Work() == WithDependency(old(State()), id, d, newId)
    {
      var t := tasks[id];
      dependencies := dependencies[newId := d];
      if t.status == Ready {
        var ready := Recheck(id);
        if !ready { t := t.(status := Blocked); }
      }
      SaveTask(id, t);
    }

    method NewDependency(now: int, caller: Caller, id: TaskId, predecessor: TaskId, condition: Condition, ifMatch: nat, newId: nat) returns (r: Check)
      modifies this`tasks, this`dependencies
      ensures Executed(old(State()), State(), r, AddDependency(old(State()), now, caller, id, predecessor, condition, ifMatch, newId))
    {
      var q := Admit(State(), now, caller, BY_MEMBER);
      if q.Err? { return Fail(q.problem); }
      var task := OwnedTask(State(), q.value, id, ifMatch);
      if task.Err? { return Fail(task.problem); }
      if !Editable(task.value) { return Fail(InvalidTransition); }
      if predecessor !in tasks { return Fail(NotFound); }
      var reached := ReachableFrom(Edges(dependencies), id);
      if predecessor in reached || (predecessor, id) in Edges(dependencies) { return Fail(DependencyConflict); }
      AddEdge(id, Dependency(predecessor, id, condition, None), newId);
      return Pass;
    }

    method Create(now: int, caller: Caller, owner: UserId, repository: nat, versions: seq<VersionId>, criteria: nat, newId: nat) returns (r: Check)
      modifies this`tasks
      ensures Executed(old(State()), State(), r, CreateTask(old(State()), now, caller, owner, repository, versions, criteria, newId))
    {
      var q := Admit(State(), now, caller, BY_CONTRIBUTOR);
      if q.Err? { return Fail(q.problem); }
      if !ActiveMember(env, owner) { return Fail(InvalidOwner); }
      if repository !in env.repositories { return Fail(InvalidRepository); }
      var chosen := ChooseVersions(env, versions, false);
      if chosen.Err? { return Fail(chosen.problem); }
      tasks := tasks[newId := Task(owner, repository, Draft, false, true, criteria, chosen.value, 1)];
      return Pass;
    }

    method Assign(now: int, caller: Caller, id: TaskId, target: Target, ifMatch: nat) returns (r: Check)
      modifies this`tasks, this`assignments
      ensures Executed(old(State()), State(), r, AssignTask(old(State()), now, caller, id, target, ifMatch))
    {
      var q := Admit(State(), now, caller, BY_MEMBER);
      if q.Err? { return Fail(q.problem); }
      var task := OwnedTask(State(), q.value, id, ifMatch);
      if task.Err? { return Fail(task.problem); }
      if !Editable(task.value) { return Fail(InvalidTransition); }
      if target.ToAgent? && target.agent !in env.agents { return Fail(NotFound); }
      if target.OtherQueue? { return Fail(UnsupportedQueue); }
      assignments := assignments[id := target];
      SaveTask(id, task.value);
      return Pass;
    }

    method DropDependency(now: int, caller: Caller, id: TaskId, dependency: DependencyId, ifMatch: nat) returns (r: Check)
      modifies this`tasks, this`dependencies
      ensures Executed(old(State()), State(), r, RemoveDependency(old(State()), now, caller, id, dependency, ifMatch))
    {
      var q := Admit(State(), now, caller, BY_MEMBER);
      if q.Err? { return Fail(q.problem); }
      var task := OwnedTask(State(), q.value, id, ifMatch);
      if task.Err? { return Fail(task.problem); }
      if !Editable(task.value) { return Fail(InvalidTransition); }
      if dependency !in dependencies || dependencies[dependency].successor != id { return Fail(NotFound); }
      dependencies := dependencies - {dependency};
      SaveTask(id, task.value);
      return Pass;
    }

    method AuthoriseTask(id: TaskId, t: Task, command: Command) returns (r: Check)
      requires id in tasks
      modifies this`tasks, this`dependencies
      ensures Executed(old(State()), State(), r, Authorise(old(State()), id, t, command))
    {
      if t.status !in {Draft, Blocked} { return Fail(InvalidTransition); }
      var ran := RunsOf(runs, id) != {};
      if (command == Submit && ran) || (command == Retry && !ran) { return Fail(InvalidTransition); }
      if HasUnsettled(Tools(invocations, approvals), RunsOf(runs, id)) { return Fail(UnresolvedToolOperation); }
      var ready := Recheck(id);
      var status := Blocked;
      if ready { status := Ready; }
      SaveTask(id, t.(status := status, retry := true));
      return Pass;
    }

    method Cancel(id: TaskId, t: Task) returns (r: Check)
      modifies this`tasks, this`runs
      ensures Executed(old(State()), State(), r, CancelTask(old(State()), id, t))
    {
      if t.status in {Canceled, Done} { return Fail(InvalidTransition); }
      var live := LiveRuns(Work(), id);
      if live != {} {
        var run := LeastOf(live);
        SaveRun(run, runs[run].(status := RunCanceled));
      }
      SaveTask(id, t.(status := Canceled));
      return Pass;
    }

    method Command(now: int, caller: Caller, id: TaskId, command: Command, ifMatch: nat) returns (r: Check)
      modifies this`tasks, this`runs, this`dependencies
      ensures Executed(old(State()), State(), r, CommandTask(old(State()), now, caller, id, command, ifMatch))
    {
      var q := Admit(State(), now, caller, BY_MEMBER);
      if q.Err? { return Fail(q.problem); }
      var task := OwnedTask(State(), q.value, id, ifMatch);
      if task.Err? { return Fail(task.problem); }
      var t := task.value;
      if t.archived && command != TaskFlow.Restore { return Fail(TaskArchived); }
      match command {
        case Submit => r := AuthoriseTask(id, t, command);
        case Retry => r := AuthoriseTask(id, t, command);
        case Cancel => r := Cancel(id, t);
        case Archive =>
          if t.status !in {Done, Canceled} { return Fail(InvalidTransition); }
          if HasUnsettled(Tools(invocations, approvals), RunsOf(runs, id)) { return Fail(UnresolvedToolOperation); }
          SaveTask(id, t.(archived := true));
          return Pass;
        case Restore =>
          if !t.archived { return Fail(InvalidTransition); }
          SaveTask(id, t.(archived := false));
          return Pass;
      }
    }

    method StartRun(now: int, session: SessionId, user: UserId, id: TaskId, snapshot: Snapshot, newId: nat)
      requires id in tasks
      modifies this`tasks, this`runs, this`snapshots, this`nextFence
      ensures Work() == Claimed(old(Work()), id, snapshot, session, user, now, newId)
    {
      var t := tasks[id];
      var run := TaskRun(id, session, t.owner, user, LastAttempt(runs, id) + 1, newId, RunRunning, nextFence, now + LEASE, 1);
      runs := runs[newId := run];
      snapshots := snapshots[newId := snapshot];
      nextFence := nextFence + 1;
      SaveTask(id, t.(status := Running, retry := false));
    }

    method ClaimChosen(now: int, session: SessionId, user: UserId, id: TaskId, newId: nat) returns (r: Check)
      requires id in tasks
      modifies this`tasks, this`runs, this`dependencies, this`snapshots, this`nextFence
      ensures Executed(old(State()), State(), r, ClaimTask(old(State()), now, session, user, id, newId))
    {
      var before := dependencies;
      var ready := Recheck(id);
      if !ready {
        dependencies := before;
        return Fail(TaskBlocked);
      }
      var snapshot := Freeze(env, Work(), Evidence(artifacts, contents), id);
      if snapshot.Err? {
        dependencies := before;
        return Fail(snapshot.problem);
      }
      StartRun(now, session, user, id, snapshot.value, newId);
      return Pass;
    }

    method Claim(now: int, caller: Caller, wanted: Option<TaskId>, newId: nat) returns (r: Check, claimed: Option<TaskId>)
      modifies this`tasks, this`runs, this`dependencies, this`snapshots, this`nextFence
      ensures var spec := ClaimRun(old(State()), now, caller, wanted, newId);
              if spec.Ok? then r == Pass && claimed == Some(spec.value.task) && State() == old(State()).(execution := spec.value.execution)
              else r == Fail(spec.problem) && claimed == None && State() == old(State())
    {
      var chosen := ChooseTask(State(), now, caller, wanted);
      if chosen.Err? { return Fail(chosen.problem), None; }
      r := ClaimChosen(now, caller.session, sessions[caller.session].human, chosen.value, newId);
      claimed := if r == Pass then Some(chosen.value) else None;
    }

    method Heartbeat(now: int, caller: Caller, id: RunId, fence: nat, ifMatch: nat) returns (r: Check)
      modifies this`runs
      ensures Executed(old(State()), State(), r, HeartbeatRun(old(State()), now, caller, id, fence, ifMatch))
    {
      var q := Admit(State(), now, caller, RUNNING_WRITE);
      if q.Err? { return Fail(q.problem); }
      var run := ActiveRun(State(), now, q.value, id, fence, ifMatch);
      if run.Err? { return Fail(run.problem); }
      SaveRun(id, run.value.(expires := now + LEASE));
      return Pass;
    }

    method Report(now: int, caller: Caller, id: RunId, report: Report, fence: nat, ifMatch: nat) returns (r: Check)
      modifies this`runs, this`tasks
      ensures Executed(old(State()), State(), r, ReportRun(old(State()), now, caller, id, report, fence, ifMatch))
    {
      var q := Admit(State(), now, caller, RUNNING_WRITE);
      if q.Err? { return Fail(q.problem); }
      var active := ActiveRun(State(), now, q.value, id, fence, ifMatch);
      if active.Err? { return Fail(active.problem); }
      var run := active.value;
      if run.task !in tasks { return Fail(NotFound); }
      var t := tasks[run.task];
      if report.CompletionCandidate? {
        for i := 0 to |report.artifacts|
          invariant State() == old(State())
          invariant OwnEvidence(Evidence(artifacts, contents), id, report.artifacts[..i])
        {
          var a := report.artifacts[i];
          if a !in artifacts || artifacts[a].run != id || artifacts[a].verification != Verified { return Fail(ArtifactEvidenceRequired); }
        }
        assert report.artifacts[..|report.artifacts|] == report.artifacts;
        run, t := run.(status := RunSucceeded), t.(status := InReview);
      } else if report.Failure? {
        run, t := run.(status := RunFailed), t.(status := Blocked);
      }
      SaveRun(id, run);
      if !report.Progress? { SaveTask(run.task, t); }
      return Pass;
    }

    method Edit(now: int, caller: Caller, id: TaskId, repository: nat, versions: seq<VersionId>, criteria: nat, ifMatch: nat) returns (r: Check)
      modifies this`tasks
      ensures Executed(old(State()), State(), r, EditTask(old(State()), now, caller, id, repository, versions, criteria, ifMatch))
    {
      var q := Admit(State(), now, caller, BY_MEMBER);
      if q.Err? { return Fail(q.problem); }
      var task := OwnedTask(State(), q.value, id, ifMatch);
      if task.Err? { return Fail(task.problem); }
      var t := task.value;
      if t.archived { return Fail(TaskArchived); }
      if !Editable(t) { return Fail(InvalidTransition); }
      if HasLiveRun(Work(), id) { return Fail(RunActive); }
      if repository !in env.repositories { return Fail(InvalidRepository); }
      var chosen := ChooseVersions(env, versions, true);
      if chosen.Err? { return Fail(chosen.problem); }
      t := t.(repository := repository, criteria := criteria, contexts := chosen.value);
      t := t.(status := Draft, retry := false);
      SaveTask(id, t);
      return Pass;
    }

    method Transfer(now: int, caller: Caller, id: TaskId, owner: UserId, ifMatch: nat) returns (r: Check)
      modifies this`tasks
      ensures Executed(old(State()), State(), r, TransferTask(old(State()), now, caller, id, owner, ifMatch))
    {
      var q := Admit(State(), now, caller, BY_MEMBER);
      if q.Err? { return Fail(q.problem); }
      var task := OwnedTask(State(), q.value, id, ifMatch);
      if task.Err? { return Fail(task.problem); }
      var t := task.value;
      if t.archived { return Fail(TaskArchived); }
      if !Editable(t) { return Fail(InvalidTransition); }
      if owner == t.owner { return Fail(OwnerUnchanged); }
      if !ActiveMember(env, owner) { return Fail(InvalidOwner); }
      if HasLiveRun(Work(), id) { return Fail(RunActive); }
      SaveTask(id, t.(owner := owner, status := Draft, retry := false));
      return Pass;
    }

    /** The lost Runs, one after the other: each LOST, its task BLOCKED. */
    method CloseLost(lost: seq<RunId>)
      requires forall r :: r in lost ==> r in runs
      modifies this`runs, this`tasks
      ensures Work() == CloseRuns(old(Work()), lost)
    {
      var rows := lost;
      while rows != []
        invariant forall r :: r in rows ==> r in runs
        invariant State() == old(State()).(execution := Work())
        invariant CloseRuns(Work(), rows) == CloseRuns(old(Work()), lost)
      {
        var id := rows[0];
        var run := runs[id];
        SaveRun(id, run.(status := RunLost));
        if run.task in tasks { SaveTask(run.task, tasks[run.task].(status := Blocked)); }
        rows := rows[1..];
      }
    }

    /** Blocked but authorised tasks whose inputs have arrived become READY; none is authorised here. */
    method WakeWaiting(waiting: seq<TaskId>)
      requires forall t :: t in waiting ==> t in tasks
      modifies this`tasks, this`dependencies
      ensures Work() == RecheckAll(env, Evidence(artifacts, contents), old(Work()), waiting)
    {
      var rows := waiting;
      while rows != []
        invariant forall t :: t in rows ==> t in tasks
        invariant State() == old(State()).(execution := Work())
        invariant RecheckAll(env, Evidence(artifacts, contents), Work(), rows) == RecheckAll(env, Evidence(artifacts, contents), old(Work()), waiting)
      {
        var id := rows[0];
        var ready := Recheck(id);
        if ready { SaveTask(id, tasks[id].(status := Ready)); }
        rows := rows[1..];
      }
    }

    method Reconcile(now: int)
      modifies this`tasks, this`runs, this`dependencies
      ensures State() == old(State()).(execution := ReconcileProject(old(State()), now))
    {
      if maintenance { return; }
      CloseLost(Ascending(LostRuns(State(), now)));
      WakeWaiting(Ascending(Waiting(Work())));
    }

    // --- Evidence and review --------------------------------------------------------------

    method SaveArtifact(id: ArtifactId, a: Artifact)
      modifies this`artifacts
      ensures artifacts == old(artifacts)[id := a.(version := a.version + 1)]
    {
      artifacts := artifacts[id := a.(version := a.version + 1)];
    }

    method Register(now: int, caller: Caller, id: RunId, g: Registration, fence: nat, ifMatch: nat, newId: nat) returns (r: Check)
      modifies this`artifacts
      ensures Evidenced(old(State()), State(), r, RegisterArtifact(old(State()), now, caller, id, g, fence, ifMatch, newId))
    {
      var q := Admit(State(), now, caller, ARTIFACT_WRITE);
      if q.Err? { return Fail(q.problem); }
      var run := ActiveRun(State(), now, q.value, id, fence, ifMatch);
      if run.Err? { return Fail(run.problem); }
      var verification := CheckContent(State(), id, g);
      if verification.Err? { return Fail(verification.problem); }
      for i := 0 to |g.parents|
        invariant State() == old(State())
        invariant forall p :: p in g.parents[..i] ==> ValidParent(old(State()), id, run.value.snapshot, p)
      {
        if !ValidParent(State(), id, run.value.snapshot, g.parents[i]) { return Fail(InvalidParent); }
      }
      assert g.parents[..|g.parents|] == g.parents;
      if g.contextVersion.Some? && g.contextVersion.value !in env.versions { return Fail(NotFound); }
      artifacts := artifacts[newId := Artifact(id, run.value.task, g.kind, g.uri, g.revision, g.digest, g.contextVersion,
                                               verification.value, Pending, 1)];
      return Pass;
    }

    method Upload(now: int, caller: Caller, run: RunId, digest: Digest, media: nat, fence: nat, ifMatch: nat, newId: nat) returns (r: Check)
      modifies this`contents
      ensures Evidenced(old(State()), State(), r, UploadContent(old(State()), now, caller, run, digest, media, fence, ifMatch, newId))
    {
      var q := Admit(State(), now, caller, ARTIFACT_WRITE);
      if q.Err? { return Fail(q.problem); }
      var active := ActiveRun(State(), now, q.value, run, fence, ifMatch);
      if active.Err? { return Fail(active.problem); }
      contents := contents[newId := Content(run, digest, media)];
      return Pass;
    }

    method Verify(now: int, caller: Caller, id: ArtifactId, ifMatch: nat, provider: Provider) returns (r: Check)
      modifies this`artifacts
      ensures Evidenced(old(State()), State(), r, VerifyArtifact(old(State()), now, caller, id, ifMatch, provider))
    {
      var q := Admit(State(), now, caller, BY_REVIEWER);
      if q.Err? { return Fail(q.problem); }
      if id !in artifacts { return Fail(NotFound); }
      var doc := artifacts[id];
      if ifMatch != doc.version { return Fail(VersionConflict); }
      if doc.acceptance != Pending { return Fail(ArtifactFinal); }
      if doc.kind !in {Commit, PullRequest, CodeDiff} { return Fail(GitReferenceRequired); }
      if doc.uri.Stored? || doc.uri.OtherUrn? { return Fail(GitReferenceRequired); }
      if doc.run !in runs || runs[doc.run].task !in tasks { return Fail(NotFound); }
      if tasks[runs[doc.run].task].repository !in env.repositories { return Fail(NotFound); }
      if provider == Unreachable { return Fail(ProviderUnavailable); }
      var verification := Verified;
      if provider == Denies { verification := VerificationFailed; }
      SaveArtifact(id, doc.(verification := verification));
      return Pass;
    }

    method DecideEvidence(ghost before: Database, q: Access.Request, id: ArtifactId, accept: bool) returns (r: Check)
      requires id in artifacts && before == State().(evidence := before.evidence)
      modifies this`artifacts
      ensures Evidenced(old(State()), State(), r, DecideArtifact(before, q, old(State()).evidence, id, accept))
    {
      var doc := artifacts[id];
      if doc.acceptance != Pending { return Fail(ArtifactFinal); }
      if doc.run !in runs || runs[doc.run].task !in tasks { return Fail(NotFound); }
      var run := runs[doc.run];
      if tasks[run.task].status == Canceled || run.status in {RunCanceled, RunLost, RunFailed} { return Fail(RunNotReviewable); }
      if accept {
        if doc.verification != Verified { return Fail(UnverifiedArtifact); }
        if doc.kind == ApiDocument {
          var api := CheckApiContext(State(), q, doc);
          if api.Err? { return Fail(api.problem); }
        }
      }
      var acceptance := Rejected;
      if accept { acceptance := Accepted; }
      SaveArtifact(id, doc.(acceptance := acceptance));
      return Pass;
    }

    method ReviewEvidence(now: int, caller: Caller, id: ArtifactId, digest: Digest, accept: bool, ifMatch: nat) returns (r: Check)
      modifies this`artifacts
      ensures Evidenced(old(State()), State(), r, ReviewArtifact(old(State()), now, caller, id, digest, accept, ifMatch))
    {
      var q := Admit(State(), now, caller, BY_REVIEWER);
      if q.Err? { return Fail(q.problem); }
      if id !in artifacts { return Fail(NotFound); }
      if ifMatch != artifacts[id].version { return Fail(VersionConflict); }
      if digest != artifacts[id].digest { return Fail(EvidenceChanged); }
      r := DecideEvidence(State(), q.value, id, accept);
    }

    /** The reviewed artifacts, one after the other; what was accepted before a refusal is rolled back by the caller. */
    method ReviewArtifacts(ghost before: Database, q: Access.Request, run: RunId, refs: seq<Reviewed>, accept: bool) returns (r: Check)
      requires before == State()
      modifies this`artifacts
      ensures State() == before.(evidence := State().evidence)
      ensures var spec := ReviewAll(before, q, run, accept, {}, refs, before.evidence);
              if spec.Ok? then r == Pass && State().evidence == spec.value else r == Fail(spec.problem)
    {
      var seen: set<ArtifactId> := {};
      var rows := refs;
      while rows != []
        invariant State() == before.(evidence := State().evidence)
        invariant ReviewAll(before, q, run, accept, {}, refs, before.evidence) == ReviewAll(before, q, run, accept, seen, rows, State().evidence)
      {
        var ref := rows[0];
        if ref.artifact in seen { return Fail(DuplicateArtifact); }
        if ref.artifact !in artifacts { return Fail(NotFound); }
        var doc := artifacts[ref.artifact];
        if doc.run != run || doc.version != ref.version || doc.digest != ref.digest { return Fail(EvidenceChanged); }
        if accept {
          if doc.acceptance == Pending {
            var decided := DecideEvidence(before, q, ref.artifact, true);
            if decided.Fail? { return decided; }
          }
          if artifacts[ref.artifact].acceptance != Accepted || artifacts[ref.artifact].verification != Verified { return Fail(UnacceptedArtifact); }
        }
        seen := seen + {ref.artifact};
        rows := rows[1..];
      }
      return Pass;
    }

    method Review(now: int, caller: Caller, id: TaskId, run: RunId, refs: seq<Reviewed>, accept: bool, checks: seq<bool>, ifMatch: nat)
      returns (r: Check)
      modifies this`tasks, this`artifacts
      ensures var spec := ReviewTask(old(State()), now, caller, id, run, refs, accept, checks, ifMatch);
              if spec.Ok? then r == Pass && State() == old(State()).(execution := spec.value.execution, evidence := spec.value.evidence)
              else r == Fail(spec.problem) && State() == old(State())
    {
      var q := Admit(State(), now, caller, BY_MEMBER);
      if q.Err? { return Fail(q.problem); }
      if id !in tasks { return Fail(NotFound); }
      var t := tasks[id];
      if t.owner != q.value.user { return Fail(OwnerRequired); }
      if ifMatch != t.version { return Fail(VersionConflict); }
      if t.status != InReview { return Fail(InvalidTransition); }
      if run !in runs { return Fail(NotFound); }
      if runs[run].task != id || runs[run].status != RunSucceeded { return Fail(InvalidRun); }
      if runs[run].attempt != LastAttempt(runs, id) { return Fail(StaleReview); }
      if accept {
        if HasUnsettled(Tools(invocations, approvals), {run}) { return Fail(ToolOutcomeUnresolved); }
        if |checks| != t.criteria || false in checks { return Fail(AcceptanceIncomplete); }
      }
      var before := artifacts;
      var reviewed := ReviewArtifacts(State(), q.value, run, refs, accept);
      if reviewed.Fail? {
        artifacts := before;
        return reviewed;
      }
      t := t.(status := Blocked);
      if accept { t := t.(status := Done); }
      SaveTask(id, t.(retry := false));
      return Pass;
    }

    // --- The archive, maintenance and recovery ------------------------------------------------

    method OpenSession(now: int, caller: Caller, agent: nat, scopes: set<Scope>, expires: int, newId: nat) returns (r: Check)
      modifies this`sessions
      ensures var spec := CreateSession(old(State()), now, caller, agent, scopes, expires, newId);
              if spec.Ok? then r == Pass && State() == old(State()).(sessions := spec.value) else r == Fail(spec.problem) && State() == old(State())
    {
      var q := Admit(State(), now, caller, BY_CONTRIBUTOR);
      if q.Err? { return Fail(q.problem); }
      if agent !in env.agents { return Fail(NotFound); }
      if expires < now + 30 || expires > now + 24 * 3600 { return Fail(InvalidExpiry); }
      sessions := sessions[newId := Session(q.value.user, agent, scopes, expires, true, false, 1)];
      return Pass;
    }

    method Revoke(now: int, caller: Caller, id: SessionId, ifMatch: nat) returns (r: Check)
      modifies this`sessions
      ensures var spec := RevokeSession(old(State()), now, caller, id, ifMatch);
              if spec.Ok? then r == Pass && State() == old(State()).(sessions := spec.value) else r == Fail(spec.problem) && State() == old(State())
    {
      var q := Admit(State(), now, caller, BY_MEMBER);
      if q.Err? { return Fail(q.problem); }
      if id !in sessions { return Fail(Unauthenticated); }
      var s := sessions[id];
      if s.human != q.value.user && Admin !in q.value.roles { return Fail(DelegatorRequired); }
      if ifMatch != s.version { return Fail(VersionConflict); }
      if !s.active { return Fail(SessionInactive); }
      sessions := sessions[id := s.(active := false, version := s.version + 1)];
      return Pass;
    }

    method ShakeHands(now: int, caller: Caller) returns (r: Check)
      modifies this`sessions
      ensures var spec := Negotiate(old(State()), now, caller);
              if spec.Ok? then r == Pass && State() == old(State()).(sessions := spec.value) else r == Fail(spec.problem) && State() == old(State())
    {
      var q := Admit(State(), now, caller, SHAKING_HANDS);
      if q.Err? { return Fail(q.problem); }
      if caller.Human? { return Fail(AgentSessionRequired); }
      var s := sessions[caller.session];
      sessions := sessions[caller.session := s.(negotiated := true, version := s.version + 1)];
      return Pass;
    }

    /** Sessions ended from outside: a membership or an account was deactivated. */
    method RevokeSome(some: set<SessionId>)
      modifies this`sessions
      ensures sessions == RevokeAll(old(sessions), some)
    {
      sessions := RevokeAll(sessions, some);
    }

    method ArchiveOrRestore(now: int, caller: Caller, archive: bool, ifMatch: nat) returns (r: Check)
      modifies this`archived, this`version, this`sessions
      ensures var spec := ProjectCommand(old(State()), now, caller, archive, ifMatch);
              if spec.Ok? then r == Pass && State() == old(State()).(archived := spec.value.archived, version := spec.value.version, sessions := spec.value.sessions)
              else r == Fail(spec.problem) && State() == old(State())
    {
      var q := Admit(State(), now, caller, PROJECT_COMMAND);
      if q.Err? { return Fail(q.problem); }
      if ifMatch != version { return Fail(VersionConflict); }
      if archive && !Quiet(State()) { return Fail(ArchiveBlocked); }
      if archived == archive { return Fail(InvalidTransition); }
      if archive { sessions := RevokeAll(sessions, sessions.Keys); }
      archived, version := archive, version + 1;
      return Pass;
    }

    method EnterMaintenance(actor: UserId) returns (r: Check)
      modifies this`maintenance
      ensures Guarded(old(State()), State(), r, Recovery.EnterMaintenance(old(State()), actor))
    {
      if !IsAdmin(env, actor) { return Fail(AdministratorRequired); }
      if InFlight(Tools(invocations, approvals)) { return Fail(ToolsInFlight); }
      maintenance := true;
      return Pass;
    }

    method LeaveMaintenance(actor: UserId) returns (r: Check)
      modifies this`maintenance
      ensures Guarded(old(State()), State(), r, Recovery.LeaveMaintenance(old(State()), actor))
    {
      if !IsAdmin(env, actor) { return Fail(AdministratorRequired); }
      if recoveryPending || ItemsOpen(Gate(maintenance, recoveryPending, resolved)) { return Fail(RecoveryIncomplete); }
      maintenance := false;
      return Pass;
    }

    method LoadWork(x: Execution)
      modifies this`tasks, this`runs, this`assignments, this`dependencies, this`snapshots, this`nextFence
      ensures Work() == x
    {
      tasks, runs, assignments := x.tasks, x.runs, x.assignments;
      dependencies, snapshots, nextFence := x.dependencies, x.snapshots, x.nextFence;
    }

    method LoadEvidence(e: Evidence, t: Tools)
      modifies this`artifacts, this`contents, this`invocations, this`approvals
      ensures Evidence(artifacts, contents) == e && Tools(invocations, approvals) == t
    {
      artifacts, contents, invocations, approvals := e.artifacts, e.contents, t.invocations, t.approvals;
    }

    method LoadGate(g: Gate)
      modifies this`maintenance, this`recoveryPending, this`resolved
      ensures Gate(maintenance, recoveryPending, resolved) == g
    {
      maintenance, recoveryPending, resolved := g.maintenance, g.recoveryPending, g.resolved;
    }

    /** The tables as a backup held them. */
    method Load(db: Database)
      modifies this
      ensures State() == db
    {
      LoadWork(db.execution);
      LoadEvidence(db.evidence, db.tools);
      LoadGate(db.gate);
      sessions, archived := db.sessions, db.archived;
      version, env := db.version, db.env;
      assert Work() == db.execution;
    }

    /** Memberships, policies, backends, Contexts and the project's name are changed by others. */
    method ChangeOutside(env: Environment, renames: nat)
      modifies this`env, this`version
      ensures State() == old(State()).(env := env, version := old(version) + renames)
    {
      this.env, version := env, version + renames;
    }

    /** The first statements of the quarantine script: items are opened before statuses change, and one that is
        there already stays as it is. */
    method CloseGate()
      modifies this`maintenance, this`recoveryPending, this`sessions, this`resolved
      ensures maintenance && recoveryPending && sessions == RevokeAll(old(sessions), old(sessions).Keys)
      ensures resolved == Opened(old(resolved), NewItems(old(State())))
    {
      var items := NewItems(State());
      maintenance, recoveryPending := true, true;
      sessions := RevokeAll(sessions, sessions.Keys);
      resolved := Opened(resolved, items);
    }

    method QuarantineRestored()
      modifies this`maintenance, this`recoveryPending, this`sessions, this`resolved, this`invocations, this`runs, this`tasks
      ensures State() == Quarantine(old(State()))
    {
      CloseGate();
      invocations := AllUnknown(invocations);
      runs := AllLost(runs);
      tasks := AllBlocked(tasks);
    }

    method ResolveItem(item: ItemId, actor: UserId) returns (r: Check)
      modifies this`resolved
      ensures Guarded(old(State()), State(), r, Resolve(old(State()), item, actor))
    {
      if !maintenance { return Fail(NotPaused); }
      if item !in resolved || resolved[item] { return Fail(ItemUnavailable); }
      if !IsAdmin(env, actor) { return Fail(AdministratorRequired); }
      if item.ToolItem? {
        if item.invocation !in invocations || invocations[item.invocation].status !in {ToolSucceeded, ToolFailed} { return Fail(NotConfirmed); }
      }
      resolved := resolved[item := true];
      return Pass;
    }

    method Finish(actor: UserId) returns (r: Check)
      modifies this`recoveryPending
      ensures Guarded(old(State()), State(), r, FinishRecovery(old(State()), actor))
    {
      if !maintenance { return Fail(NotPaused); }
      var settled := forall i :: i in invocations ==> invocations[i].status !in {ToolUnknown, ToolRunning};
      var revoked := forall s :: s in sessions ==> !sessions[s].active;
      if !IsAdmin(env, actor) || ItemsOpen(Gate(maintenance, recoveryPending, resolved)) || !settled || !revoked { return Fail(RecoveryIncomplete); }
      recoveryPending := false;
      return Pass;
    }
  }
}
