/** Evidence and review: registration, verification, acceptance and the task review
    (internal/controlplane/artifacts.go and delivery.go). */
module Delivery {
  import opened Options
  import opened Tables
  import opened Access
  import opened TaskFlow

  function PutArtifact(evidence: Evidence, id: ArtifactId, a: Artifact): Evidence {
    evidence.(artifacts := evidence.artifacts[id := a.(version := a.version + 1)])
  }

  // --- Uploads and registrations -------------------------------------------------

  function UploadContent(db: Database, now: int, caller: Caller, run: RunId, digest: Digest, media: nat,
                         fence: nat, ifMatch: nat, newId: ContentId): Result<Evidence> {
    var q :- Admit(db, now, caller, ARTIFACT_WRITE);
    var r :- ActiveRun(db, now, q, run, fence, ifMatch);
    Ok(db.evidence.(contents := db.evidence.contents[newId := Content(run, digest, media)]))
  }

  /** A parent belongs to the same Run, or still matches an accepted dependency frozen at claim. */
  predicate ValidParent(db: Database, run: RunId, snapshot: SnapshotId, id: ArtifactId) {
    && id in db.evidence.artifacts
    && var a := db.evidence.artifacts[id];
       || a.run == run
       || (a.acceptance == Accepted && a.verification == Verified && snapshot in db.execution.snapshots
           && exists r :: r in db.execution.snapshots[snapshot].refs && r.artifact == id
                          && r.version == a.version && r.digest == a.digest && r.task == a.task)
  }

  datatype Registration = Registration(kind: Kind, uri: Uri, revision: nat, digest: Digest, media: nat,
                                       contextVersion: Option<VersionId>, parents: seq<ArtifactId>)

  function CheckContent(db: Database, run: RunId, r: Registration): Result<Verification> {
    if r.uri.Stored? then
      :- Need(r.uri.content in db.evidence.contents && db.evidence.contents[r.uri.content].run == run, InvalidArtifactContent);
      var stored := db.evidence.contents[r.uri.content];
      :- Need(r.digest == stored.digest && r.media == stored.media, ContentMismatch);
      :- Need(r.kind !in {Commit, PullRequest}, ExternalReferenceRequired);
      Ok(Verified)
    else Ok(Unverified)
  }

  function RegisterArtifact(db: Database, now: int, caller: Caller, id: RunId, r: Registration,
                            fence: nat, ifMatch: nat, newId: ArtifactId): Result<Evidence> {
    var q :- Admit(db, now, caller, ARTIFACT_WRITE);
    var run :- ActiveRun(db, now, q, id, fence, ifMatch);
    var verification :- CheckContent(db, id, r);
    :- Need(forall p :: p in r.parents ==> ValidParent(db, id, run.snapshot, p), InvalidParent);
    :- Need(r.contextVersion.None? || r.contextVersion.value in db.env.versions, NotFound);
    Ok(db.evidence.(artifacts := db.evidence.artifacts[newId :=
         Artifact(id, run.task, r.kind, r.uri, r.revision, r.digest, r.contextVersion, verification, Pending, 1)]))
  }

  // --- Verification and acceptance --------------------------------------------------

  /** The Git provider's answer, if the provider can be reached at all. */
  datatype Provider = Unreachable | Confirms | Denies

  function VerifyArtifact(db: Database, now: int, caller: Caller, id: ArtifactId, ifMatch: nat, provider: Provider): Result<Evidence> {
    var q :- Admit(db, now, caller, BY_REVIEWER);
    :- Need(id in db.evidence.artifacts, NotFound);
    var a := db.evidence.artifacts[id];
    :- Need(ifMatch == a.version, VersionConflict);
    :- Need(a.acceptance == Pending, ArtifactFinal);
    :- Need(a.kind in {Commit, PullRequest, CodeDiff}, GitReferenceRequired);
    :- Need(!a.uri.Stored? && !a.uri.OtherUrn?, GitReferenceRequired);
    :- Need(a.run in db.execution.runs && db.execution.runs[a.run].task in db.execution.tasks, NotFound);
    :- Need(db.execution.tasks[db.execution.runs[a.run].task].repository in db.env.repositories, NotFound);
    :- Need(provider != Unreachable, ProviderUnavailable);
    Ok(PutArtifact(db.evidence, id, a.(verification := if provider == Confirms then Verified else VerificationFailed)))
  }

  function CheckApiContext(db: Database, q: Request, a: Artifact): Result<()> {
    if !HasRole(q.roles, Reviewer) then Err(ReviewerRequired)
    else
      :- Need(a.contextVersion.Some? && a.contextVersion.value in db.env.versions, NotFound);
      var v := db.env.versions[a.contextVersion.value];
      :- Need(v.api && v.published && v.digest == a.digest, ApiContextMismatch);
      Ok(())
  }

  function DecideArtifact(db: Database, q: Request, evidence: Evidence, id: ArtifactId, accept: bool): Result<Evidence>
    requires id in evidence.artifacts
  {
    var a := evidence.artifacts[id];
    :- Need(a.acceptance == Pending, ArtifactFinal);
    :- Need(a.run in db.execution.runs && db.execution.runs[a.run].task in db.execution.tasks, NotFound);
    var run := db.execution.runs[a.run];
    :- Need(db.execution.tasks[run.task].status != Canceled && run.status !in {RunCanceled, RunLost, RunFailed}, RunNotReviewable);
    :- Need(!accept || a.verification == Verified, UnverifiedArtifact);
    var _ :- if accept && a.kind == ApiDocument then CheckApiContext(db, q, a) else Ok(());
    Ok(PutArtifact(evidence, id, a.(acceptance := if accept then Accepted else Rejected)))
  }

  function ReviewArtifact(db: Database, now: int, caller: Caller, id: ArtifactId, digest: Digest, accept: bool, ifMatch: nat): Result<Evidence> {
    var q :- Admit(db, now, caller, BY_REVIEWER);
    :- Need(id in db.evidence.artifacts, NotFound);
    var a := db.evidence.artifacts[id];
    :- Need(ifMatch == a.version, VersionConflict);
    :- Need(digest == a.digest, EvidenceChanged);
    DecideArtifact(db, q, db.evidence, id, accept)
  }

  // --- The task review ------------------------------------------------------------------

  datatype Reviewed = Reviewed(artifact: ArtifactId, version: nat, digest: Digest)

  /** One reviewed artifact: seen once, unchanged and of this Run; accepted now if it was still pending. */
  function ReviewOne(db: Database, q: Request, run: RunId, accept: bool, seen: set<ArtifactId>, ref: Reviewed, evidence: Evidence): Result<Evidence> {
    if ref.artifact in seen then Err(DuplicateArtifact)
    else
      :- Need(ref.artifact in evidence.artifacts, NotFound);
      var a := evidence.artifacts[ref.artifact];
      :- Need(a.run == run && a.version == ref.version && a.digest == ref.digest, EvidenceChanged);
      if !accept then Ok(evidence)
      else
        var decided :- if a.acceptance == Pending then DecideArtifact(db, q, evidence, ref.artifact, true) else Ok(evidence);
        :- Need(ref.artifact in decided.artifacts && decided.artifacts[ref.artifact].acceptance == Accepted
                && decided.artifacts[ref.artifact].verification == Verified, UnacceptedArtifact);
        Ok(decided)
  }

  function ReviewAll(db: Database, q: Request, run: RunId, accept: bool, seen: set<ArtifactId>, refs: seq<Reviewed>, evidence: Evidence): Result<Evidence>
    decreases |refs|
  {
    if refs == [] then Ok(evidence)
    else
      var next :- ReviewOne(db, q, run, accept, seen, refs[0], evidence);
      ReviewAll(db, q, run, accept, seen + {refs[0].artifact}, refs[1..], next)
  }

  datatype Verdict = Verdict(execution: Execution, evidence: Evidence)

  function ReviewTask(db: Database, now: int, caller: Caller, id: TaskId, run: RunId, refs: seq<Reviewed>, accept: bool,
                      checks: seq<bool>, ifMatch: nat): Result<Verdict> {
    var q :- Admit(db, now, caller, BY_MEMBER);
    :- Need(id in db.execution.tasks, NotFound);
    var t := db.execution.tasks[id];
    :- Need(t.owner == q.user, OwnerRequired);
    :- Need(ifMatch == t.version, VersionConflict);
    :- Need(t.status == InReview, InvalidTransition);
    :- Need(run in db.execution.runs, NotFound);
    :- Need(db.execution.runs[run].task == id && db.execution.runs[run].status == RunSucceeded, InvalidRun);
    :- Need(db.execution.runs[run].attempt == LastAttempt(db.execution.runs, id), StaleReview);
    :- Need(!accept || !HasUnsettled(db.tools, {run}), ToolOutcomeUnresolved);
    :- Need(!accept || (|checks| == t.criteria && false !in checks), AcceptanceIncomplete);
    var evidence :- ReviewAll(db, q, run, accept, {}, refs, db.evidence);
    Ok(Verdict(PutTask(db.execution, id, t.(status := if accept then Done else Blocked, retry := false)), evidence))
  }
}
