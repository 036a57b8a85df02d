/** What an agent may write to its Run - exactly when - and what each write leaves behind. */
module RunWrites {
  import opened Options
  import opened Tables
  import opened Access
  import opened TaskFlow
  import opened Governance
  import opened Delivery
  import opened ControlPlane
  import opened TaskSafety
  import opened EvidenceSafety
  import I = Invariants
  import Readiness

  /** A live Session with the scope, of a person who still works in the project, writes to its own running Run under the
      Run's fence and version, in time and for an Owner who is still there. */
  ghost predicate MayUse(db: Database, now: int, c: Caller, scope: Scope, r: RunId, fence: nat, ifMatch: nat) {
    && c.Agent? && c.session in db.sessions && !db.gate.maintenance && !db.archived
    && (var s := db.sessions[c.session]; s.active && now < s.expires && scope in s.scopes && ActiveWith(db.env, s.human, Member))
    && r in db.execution.runs
    && var run := db.execution.runs[r];
       && run.session == c.session && run.fence == fence && run.version == ifMatch
       && run.status == RunRunning && now < run.expires && ActiveMember(db.env, run.owner)
  }

  lemma UseIff(db: Database, now: int, c: Caller, op: Operation, r: RunId, fence: nat, ifMatch: nat)
    requires op in {RUNNING_WRITE, ARTIFACT_WRITE, INVOKING}
    ensures var q := Admit(db, now, c, op);
            (q.Ok? && ActiveRun(db, now, q.value, r, fence, ifMatch).Ok?) <==> MayUse(db, now, c, op.scope.value, r, fence, ifMatch)
  {
    AdmittedIff(db, now, c, op);
  }

  // --- Heartbeats and reports ------------------------------------------------------------

  /** A candidate names only verified artifacts of the Run itself. */
  ghost predicate Evident(e: Evidence, r: RunId, report: Report) {
    report.CompletionCandidate? ==>
      forall a :: a in report.artifacts ==> a in e.artifacts && e.artifacts[a].run == r && e.artifacts[a].verification == Verified
  }

  /** Progress touches the Run only; a candidate ends it and puts the task up for review; a failure blocks the task. */
  ghost predicate ReportedSo(x: Execution, y: Execution, r: RunId, report: Report)
    requires r in x.runs && x.runs[r].task in x.tasks
  {
    var run, t := x.runs[r], x.tasks[x.runs[r].task];
    && y.runs == x.runs[r := run.(version := run.version + 1, status := match report
                                                                        case Progress => RunRunning
                                                                        case CompletionCandidate(_) => RunSucceeded
                                                                        case Failure => RunFailed)]
    && y.tasks == (match report
                   case Progress => x.tasks
                   case CompletionCandidate(_) => x.tasks[run.task := t.(status := InReview, version := t.version + 1)]
                   case Failure => x.tasks[run.task := t.(status := Blocked, version := t.version + 1)])
    && y == x.(runs := y.runs, tasks := y.tasks)
  }

  lemma HeartbeatMeans(db: Database, now: int, c: Caller, r: RunId, fence: nat, ifMatch: nat)
    ensures var result := HeartbeatRun(db, now, c, r, fence, ifMatch);
            if MayUse(db, now, c, RunsWrite, r, fence, ifMatch)
            then result == Ok(db.execution.(runs := db.execution.runs[r := db.execution.runs[r].(expires := now + 90, version := ifMatch + 1)]))
            else result.Err?
  {
    UseIff(db, now, c, RUNNING_WRITE, r, fence, ifMatch);
  }

  lemma ReportMeans(db: Database, now: int, c: Caller, r: RunId, report: Report, fence: nat, ifMatch: nat)
    requires Sound(db.execution)
    ensures var result := ReportRun(db, now, c, r, report, fence, ifMatch);
            if MayUse(db, now, c, RunsWrite, r, fence, ifMatch) && Evident(db.evidence, r, report)
            then result.Ok? && db.execution.runs[r].task in db.execution.tasks && ReportedSo(db.execution, result.value, r, report)
            else result.Err?
  {
    UseIff(db, now, c, RUNNING_WRITE, r, fence, ifMatch);
  }

  // --- Uploads and registrations ------------------------------------------------------------

  /** A stored artifact is the very content uploaded by this Run; code is referenced, not stored. */
  ghost predicate Backed(e: Evidence, r: RunId, g: Registration) {
    g.uri.Stored? ==>
      && g.uri.content in e.contents && e.contents[g.uri.content] == Content(r, g.digest, g.media)
      && g.kind != Commit && g.kind != PullRequest
  }

  /** A parent is the Run's own, or an accepted artifact that is still just as frozen in the Run's snapshot. */
  ghost predicate Inherited(db: Database, r: RunId, p: ArtifactId)
    requires r in db.execution.runs
  {
    && p in db.evidence.artifacts
    && var a := db.evidence.artifacts[p];
       || a.run == r
       || (a.acceptance == Accepted && a.verification == Verified && db.execution.runs[r].snapshot in db.execution.snapshots
           && Ref(p, a.digest, a.version, a.task) in db.execution.snapshots[db.execution.runs[r].snapshot].refs)
  }

  ghost predicate MayRegister(db: Database, now: int, c: Caller, r: RunId, g: Registration, fence: nat, ifMatch: nat) {
    && MayUse(db, now, c, ArtifactsWrite, r, fence, ifMatch) && Backed(db.evidence, r, g)
    && (forall p :: p in g.parents ==> Inherited(db, r, p))
    && (g.contextVersion.Some? ==> g.contextVersion.value in db.env.versions)
  }

  /** A stored artifact is verified by its bytes; whatever it is, it has yet to be reviewed. */
  ghost function Registered(db: Database, r: RunId, g: Registration, newId: ArtifactId): Evidence
    requires r in db.execution.runs
  {
    var verification := if g.uri.Stored? then Verified else Unverified;
    db.evidence.(artifacts := db.evidence.artifacts[newId :=
      Artifact(r, db.execution.runs[r].task, g.kind, g.uri, g.revision, g.digest, g.contextVersion, verification, Pending, 1)])
  }

  lemma ParentIff(db: Database, r: RunId, p: ArtifactId)
    requires r in db.execution.runs
    ensures ValidParent(db, r, db.execution.runs[r].snapshot, p) <==> Inherited(db, r, p)
  {
    if p in db.evidence.artifacts && db.execution.runs[r].snapshot in db.execution.snapshots {
      var a, refs := db.evidence.artifacts[p], db.execution.snapshots[db.execution.runs[r].snapshot].refs;
      assert forall f :: f in refs && f.artifact == p && f.version == a.version && f.digest == a.digest && f.task == a.task
                         ==> f == Ref(p, a.digest, a.version, a.task);
    }
  }

  lemma RegistrationMeans(db: Database, now: int, c: Caller, r: RunId, g: Registration, fence: nat, ifMatch: nat, newId: ArtifactId)
    ensures var result := RegisterArtifact(db, now, c, r, g, fence, ifMatch, newId);
            if MayRegister(db, now, c, r, g, fence, ifMatch)
            then result == Ok(Registered(db, r, g, newId)) else result.Err?
  {
    UseIff(db, now, c, ARTIFACT_WRITE, r, fence, ifMatch);
    if r in db.execution.runs { forall p | p in g.parents { ParentIff(db, r, p); } }
  }

  lemma UploadMeans(db: Database, now: int, c: Caller, r: RunId, digest: Digest, media: nat, fence: nat, ifMatch: nat, newId: ContentId)
    ensures var result := UploadContent(db, now, c, r, digest, media, fence, ifMatch, newId);
            if MayUse(db, now, c, ArtifactsWrite, r, fence, ifMatch)
            then result == Ok(db.evidence.(contents := db.evidence.contents[newId := Content(r, digest, media)]))
            else result.Err?
  {
    UseIff(db, now, c, ARTIFACT_WRITE, r, fence, ifMatch);
  }

  // --- Over every run ---------------------------------------------------------------------------

  ghost predicate WriteStep(w: World, v: World, a: Action)
    requires a.DoHeartbeat? || a.DoReport? || a.DoUpload? || a.DoRegister?
  {
    var x, e := w.db.execution, w.db.evidence;
    && (a.DoHeartbeat? || a.DoReport? ==> v.db.evidence == e) && (a.DoUpload? || a.DoRegister? ==> v.db.execution == x)
    && match a
       case DoHeartbeat(c, r, fence, ifMatch) =>
         if MayUse(w.db, w.now, c, RunsWrite, r, fence, ifMatch)
         then v.db.execution == x.(runs := x.runs[r := x.runs[r].(expires := w.now + 90, version := ifMatch + 1)]) else v.db.execution == x
       case DoReport(c, r, report, fence, ifMatch) =>
         if MayUse(w.db, w.now, c, RunsWrite, r, fence, ifMatch) && Evident(e, r, report)
         then x.runs[r].task in x.tasks && ReportedSo(x, v.db.execution, r, report) else v.db.execution == x
       case DoUpload(c, r, digest, media, fence, ifMatch, newId) =>
         v.db.evidence == if MayUse(w.db, w.now, c, ArtifactsWrite, r, fence, ifMatch)
                          then e.(contents := e.contents[newId := Content(r, digest, media)]) else e
       case DoRegister(c, r, g, fence, ifMatch, newId) =>
         v.db.evidence == if MayRegister(w.db, w.now, c, r, g, fence, ifMatch) then Registered(w.db, r, g, newId) else e
  }

  lemma TaskWriteMeans(w: World, a: Action)
    requires (a.DoHeartbeat? || a.DoReport?) && Sound(w.db.execution)
    ensures WriteStep(w, NextTask(w, a), a)
  {
    match a
    case DoHeartbeat(c, r, fence, ifMatch) => HeartbeatMeans(w.db, w.now, c, r, fence, ifMatch);
    case DoReport(c, r, report, fence, ifMatch) => ReportMeans(w.db, w.now, c, r, report, fence, ifMatch);
  }

  lemma EvidenceWriteMeans(w: World, a: Action)
    requires a.DoUpload? || a.DoRegister?
    ensures WriteStep(w, NextDelivery(w, a), a)
  {
    match a
    case DoUpload(c, r, digest, media, fence, ifMatch, newId) => UploadMeans(w.db, w.now, c, r, digest, media, fence, ifMatch, newId);
    case DoRegister(c, r, g, fence, ifMatch, newId) => RegistrationMeans(w.db, w.now, c, r, g, fence, ifMatch, newId);
  }

  lemma WriteStepMeans(w: World, a: Action)
    requires (a.DoHeartbeat? || a.DoReport? || a.DoUpload? || a.DoRegister?) && Sound(w.db.execution)
    ensures WriteStep(w, Next(w, a), a)
  {
    if TaskAction(a) { TaskWriteMeans(w, a); } else { EvidenceWriteMeans(w, a); }
  }

  /** In every run, what an agent writes to a Run is done exactly when it may be, and does exactly this; anything else it
      sends changes nothing. */
  lemma EveryRunWrite(states: seq<World>, actions: seq<Action>, k: nat)
    requires IsRun(states, actions) && k < |actions|
    requires var a := actions[k]; a.DoHeartbeat? || a.DoReport? || a.DoUpload? || a.DoRegister?
    ensures WriteStep(states[k], states[k + 1], actions[k])
  {
    Readiness.RunFounded(states, actions, k);
    assert StepsAt(states, actions, k);
    WriteStepMeans(states[k], actions[k]);
  }
}
