/** The rows of one project's database and the small queries over them. */
module Tables {
  import opened Options

  /** The refusals of the control plane, named by their problem codes. */
  datatype Problem =
    | Unauthenticated | HumanRequired | AgentSessionRequired | DelegatorInactive | HumanNotProvisioned
    | MaintenanceOn | NotFound | Forbidden | ScopeDenied | DelegationDenied | ProjectArchived
    | VersionConflict | StaleFence | RunInactive | OwnerInactive | OwnerRequired | InvalidTransition
    | TaskArchived | UnsupportedQueue | DependencyConflict | UnresolvedToolOperation | HandshakeRequired
    | NoClaimableTask | TaskBlocked | ContextRequired | DependencyContextInvalid | ContextConflict
    | ArtifactEvidenceRequired | RunActive | InvalidContext | InvalidRepository | InvalidOwner | OwnerUnchanged
    | InvalidArtifactContent | ContentMismatch | ExternalReferenceRequired | InvalidParent
    | ArtifactFinal | GitReferenceRequired | ProviderUnavailable | RunNotReviewable | UnverifiedArtifact
    | ReviewerRequired | ApiContextMismatch | EvidenceChanged | InvalidRun | StaleReview
    | ToolOutcomeUnresolved | AcceptanceIncomplete | DuplicateArtifact | UnacceptedArtifact
    | BindingExpired | DelegationRevoked | ToolUnavailable | PolicyChanged | BindingChanged
    | ApprovalRequired | ReviewerRevoked | InvalidToolArguments | InvalidToolEvidence | MergeEvidenceRequired
    | IdempotencyConflict | SeparationRequired | ApprovalFinal | InvocationInactive
    | ReconciliationNotRequired | BackendChanged | OutcomeUnknown
    | ArchiveBlocked | DelegatorRequired | SessionInactive | InvalidExpiry
    | AdministratorRequired | ToolsInFlight | RecoveryIncomplete | NotPaused | ItemUnavailable | NotConfirmed

  datatype Result<+T> = Ok(value: T) | Err(problem: Problem) {
    predicate IsFailure() { Err? }
    function PropagateFailure<U>(): Result<U>
      requires Err?
    { Err(problem) }
    function Extract(): T
      requires Ok?
    { value }
  }

  datatype Check = Pass | Fail(problem: Problem) {
    predicate IsFailure() { Fail? }
    function PropagateFailure<U>(): Result<U>
      requires Fail?
    { Err(problem) }
  }

  function Need(condition: bool, problem: Problem): Check { if condition then Pass else Fail(problem) }

  // --- Rows --------------------------------------------------------------------

  type UserId = nat
  type SessionId = nat
  type TaskId = nat
  type RunId = nat
  type DependencyId = nat
  type SnapshotId = nat
  type ContextId = nat
  type VersionId = nat
  type ArtifactId = nat
  type ContentId = nat
  type ToolId = nat
  type InvocationId = nat
  type ApprovalId = nat
  type Digest = nat

  datatype Role = Member | Reviewer | Admin
  datatype Membership = Membership(active: bool, accountActive: bool, roles: set<Role>)

  /** What the operator configured: a backend's schema version, resource, and the arguments it accepts. */
  datatype Backend = Backend(schema: nat, resource: nat, readOnly: bool, merges: Option<nat>, accepts: set<Arguments>)
  datatype Arguments = Arguments(payload: nat, commit: nat, pullRequest: nat)
  datatype Policy = Policy(backend: nat, resource: nat, resourceVersion: nat, enabled: bool, readOnly: bool, schema: nat, version: nat)
  datatype ContextVersion = ContextVersion(context: ContextId, published: bool, digest: Digest, api: bool)

  /** Rows that other parts of the program change: people, tool policies and backends, Contexts, repositories. */
  datatype Environment = Environment(members: map<UserId, Membership>, policies: map<ToolId, Policy>,
                                     backends: map<nat, Backend>, versions: map<VersionId, ContextVersion>,
                                     repositories: set<nat>, agents: set<nat>)

  datatype Scope = Handshake | RunsClaim | RunsWrite | ArtifactsWrite | ToolsInvoke
  datatype Session = Session(human: UserId, agent: nat, scopes: set<Scope>, expires: int, active: bool, negotiated: bool, version: nat)

  datatype TaskStatus = Draft | Ready | Blocked | Running | InReview | Done | Canceled
  datatype Task = Task(owner: UserId, repository: nat, status: TaskStatus, archived: bool, retry: bool, criteria: nat,
                       contexts: map<ContextId, VersionId>, version: nat)

  datatype RunStatus = RunRunning | RunSucceeded | RunFailed | RunCanceled | RunLost
  datatype TaskRun = TaskRun(task: TaskId, session: SessionId, owner: UserId, delegator: UserId, attempt: nat,
                             snapshot: SnapshotId, status: RunStatus, fence: nat, expires: int, version: nat)

  datatype Target = ToAgent(agent: nat) | General | OtherQueue(name: nat)

  datatype Kind = Commit | PullRequest | CodeDiff | ApiDocument | OtherText
  datatype Condition = TaskDone | ArtifactAccepted(kind: Kind)
  datatype Dependency = Dependency(predecessor: TaskId, successor: TaskId, condition: Condition, resolved: Option<ArtifactId>)

  datatype Entry = Entry(context: ContextId, version: VersionId, digest: Digest)
  datatype Ref = Ref(artifact: ArtifactId, digest: Digest, version: nat, task: TaskId)
  datatype Snapshot = Snapshot(entries: seq<Entry>, refs: seq<Ref>)

  datatype Execution = Execution(tasks: map<TaskId, Task>, runs: map<RunId, TaskRun>, assignments: map<TaskId, Target>,
                                 dependencies: map<DependencyId, Dependency>, snapshots: map<SnapshotId, Snapshot>, nextFence: nat)

  datatype Uri = Stored(content: ContentId) | Pull(repository: nat, number: nat) | External(n: nat) | OtherUrn(n: nat)
  datatype Verification = Unverified | Verified | VerificationFailed
  datatype Acceptance = Pending | Accepted | Rejected
  datatype Artifact = Artifact(run: RunId, task: TaskId, kind: Kind, uri: Uri, revision: nat, digest: Digest,
                               contextVersion: Option<VersionId>, verification: Verification, acceptance: Acceptance, version: nat)
  datatype Content = Content(run: RunId, digest: Digest, media: nat)
  datatype Evidence = Evidence(artifacts: map<ArtifactId, Artifact>, contents: map<ContentId, Content>)

  datatype InvocationStatus = AwaitingApproval | ToolReady | ToolRunning | ToolUnknown | ToolSucceeded | ToolFailed | ToolCanceled
  datatype ErrorCode = WorkerInterrupted | AuthorityOrBindingChanged | PreExecutionAuthorityChanged
                     | ExternalOutcomeUnknown | RestoreOutcomeUnknown

  /** The exact operation. Its digest is injective, so the binding stands for its digest. */
  datatype Binding = Binding(session: SessionId, run: RunId, tool: ToolId, schema: nat, resource: nat, resourceVersion: nat,
                             arguments: Arguments, artifacts: seq<ArtifactId>, policyVersion: nat, expires: int)
  datatype Invocation = Invocation(run: RunId, task: TaskId, session: SessionId, owner: UserId, delegator: UserId, key: nat,
                                   binding: Binding, digest: Binding, arguments: Arguments, approval: Option<ApprovalId>,
                                   status: InvocationStatus, error: Option<ErrorCode>, version: nat)

  datatype ApprovalStatus = Undecided | Approved | Declined | Expired
  datatype Approval = Approval(invocation: InvocationId, requester: UserId, digest: Binding, status: ApprovalStatus,
                               decider: Option<UserId>, version: nat)
  datatype Tools = Tools(invocations: map<InvocationId, Invocation>, approvals: map<ApprovalId, Approval>)

  datatype ItemId = ToolItem(invocation: InvocationId) | RunItem(run: RunId)
  datatype Gate = Gate(maintenance: bool, recoveryPending: bool, resolved: map<ItemId, bool>)

  datatype Database = Database(execution: Execution, evidence: Evidence, tools: Tools, gate: Gate,
                               sessions: map<SessionId, Session>, archived: bool, version: nat, env: Environment)

  // --- Small queries -----------------------------------------------------------

  predicate HasRole(roles: set<Role>, role: Role) { Admin in roles || role in roles }

  predicate ActiveMember(env: Environment, user: UserId) {
    user in env.members && env.members[user].active && env.members[user].accountActive
  }

  predicate ActiveWith(env: Environment, user: UserId, role: Role) {
    ActiveMember(env, user) && HasRole(env.members[user].roles, role)
  }

  predicate SessionLive(s: Session, now: int) { s.active && now < s.expires }

  /** Awaiting approval, ready, running or unknown: the operation may still have an effect to account for. */
  predicate Unsettled(status: InvocationStatus) { status in {AwaitingApproval, ToolReady, ToolRunning, ToolUnknown} }

  predicate HasUnsettled(tools: Tools, runs: set<RunId>) {
    exists i :: i in tools.invocations && tools.invocations[i].run in runs && Unsettled(tools.invocations[i].status)
  }

  function RunsOf(runs: map<RunId, TaskRun>, task: TaskId): set<RunId> { set r | r in runs && runs[r].task == task }

  predicate IsLeast(m: nat, s: set<nat>) { m in s && forall k :: k in s ==> m <= k }
  predicate IsGreatest(m: nat, s: set<nat>) { m in s && forall k :: k in s ==> k <= m }

  function LeastOf(s: set<nat>): (m: nat)
    requires s != {}
    ensures m in s && forall k :: k in s ==> m <= k
  {
    HasLeast(s);
    var m :| m in s && IsLeast(m, s);
    m
  }

  lemma {:induction false} HasLeast(s: set<nat>)
    requires s != {}
    ensures exists m :: IsLeast(m, s)
  {
    var x :| x in s;
    var rest := s - {x};
    if rest == {} {
      assert forall k :: k in s && k != x ==> k in rest;
      assert IsLeast(x, s);
    } else {
      HasLeast(rest);
      var m :| IsLeast(m, rest);
      assert forall k :: k in s && k != x ==> k in rest;
      assert IsLeast(if x < m then x else m, s);
    }
  }

  function GreatestOf(s: set<nat>): (m: nat)
    requires s != {}
    ensures m in s && forall k :: k in s ==> k <= m
  {
    HasGreatest(s);
    var m :| m in s && IsGreatest(m, s);
    m
  }

  lemma {:induction false} HasGreatest(s: set<nat>)
    requires s != {}
    ensures exists m :: IsGreatest(m, s)
  {
    var x :| x in s;
    var rest := s - {x};
    if rest == {} {
      assert forall k :: k in s && k != x ==> k in rest;
      assert IsGreatest(x, s);
    } else {
      HasGreatest(rest);
      var m :| IsGreatest(m, rest);
      assert forall k :: k in s && k != x ==> k in rest;
      assert IsGreatest(if x > m then x else m, s);
    }
  }

  /** The ids in ascending order, as a query with ORDER BY id returns them. */
  function Ascending(s: set<nat>): (r: seq<nat>)
    ensures forall k :: k in r <==> k in s
    ensures forall i, j :: 0 <= i < j < |r| ==> r[i] < r[j]
    decreases |s|
  {
    if s == {} then [] else [LeastOf(s)] + Ascending(s - {LeastOf(s)})
  }

  /** The highest attempt of a task so far, zero if it never ran. */
  function LastAttempt(runs: map<RunId, TaskRun>, task: TaskId): (n: nat) {
    var attempts := set r | r in runs && runs[r].task == task :: runs[r].attempt;
    if attempts == {} then 0 else GreatestOf(attempts)
  }
}
