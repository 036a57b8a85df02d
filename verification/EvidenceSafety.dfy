/** Evidence is final once decided, accepted evidence is verified, and what a Run was frozen with stays
    valid for as long as the database lives.

    Each write of evidence is shown to keep what was decided; snapshots and resolved dependencies rest on that. */
module EvidenceSafety {
  import opened Options
  import opened Tables
  import opened Access
  import opened Snapshots
  import opened TaskFlow
  import opened Delivery
  import opened Recovery
  import opened TaskSafety

  // --- History --------------------------------------------------------------------

  /** A decided artifact never changes; an undecided one keeps what it is. */
  ghost predicate ArtifactKept(a: Artifact, b: Artifact) {
    b == a || (a.acceptance == Pending && b == a.(verification := b.verification, acceptance := b.acceptance, version := b.version))
  }

  ghost predicate AcceptedIsVerified(evidence: Evidence) {
    forall a :: a in evidence.artifacts && evidence.artifacts[a].acceptance == Accepted ==> evidence.artifacts[a].verification == Verified
  }

  ghost predicate EvidenceAdvances(e: Evidence, f: Evidence, newIds: set<nat>) {
    && e.artifacts.Keys <= f.artifacts.Keys <= e.artifacts.Keys + newIds
    && e.contents.Keys <= f.contents.Keys <= e.contents.Keys + newIds
    && (forall a :: a in e.artifacts ==> ArtifactKept(e.artifacts[a], f.artifacts[a]))
  }

  ghost predicate KeepsEvidence(e: Evidence, r: Result<Evidence>, newIds: set<nat>) {
    r.Ok? ==> EvidenceAdvances(e, r.value, newIds) && (AcceptedIsVerified(e) ==> AcceptedIsVerified(r.value))
  }

  lemma DecideKeeps(db: Database, q: Request, evidence: Evidence, id: ArtifactId, accept: bool)
    requires id in evidence.artifacts
    ensures KeepsEvidence(evidence, DecideArtifact(db, q, evidence, id, accept), {})
  {
  }

  lemma ReviewArtifactKeeps(db: Database, now: int, c: Caller, id: ArtifactId, digest: Digest, accept: bool, ifMatch: nat)
    ensures KeepsEvidence(db.evidence, ReviewArtifact(db, now, c, id, digest, accept, ifMatch), {})
  {
    var q := Admit(db, now, c, BY_REVIEWER);
    if q.Ok? && id in db.evidence.artifacts { DecideKeeps(db, q.value, db.evidence, id, accept); }
  }

  lemma EvidenceTransitively(e: Evidence, f: Evidence, g: Evidence)
    requires EvidenceAdvances(e, f, {}) && EvidenceAdvances(f, g, {})
    ensures EvidenceAdvances(e, g, {})
  {
    forall a | a in e.artifacts ensures ArtifactKept(e.artifacts[a], g.artifacts[a]) {
      assert ArtifactKept(e.artifacts[a], f.artifacts[a]) && ArtifactKept(f.artifacts[a], g.artifacts[a]);
    }
  }

  lemma ReviewOneKeeps(db: Database, q: Request, run: RunId, accept: bool, seen: set<ArtifactId>, ref: Reviewed, evidence: Evidence)
    ensures KeepsEvidence(evidence, ReviewOne(db, q, run, accept, seen, ref, evidence), {})
  {
    if ref.artifact in evidence.artifacts { DecideKeeps(db, q, evidence, ref.artifact, true); }
  }

  lemma {:induction false} ReviewAllKeeps(db: Database, q: Request, run: RunId, accept: bool, seen: set<ArtifactId>, refs: seq<Reviewed>, evidence: Evidence)
    ensures KeepsEvidence(evidence, ReviewAll(db, q, run, accept, seen, refs, evidence), {})
    decreases |refs|
  {
    if refs != [] {
      ReviewOneKeeps(db, q, run, accept, seen, refs[0], evidence);
      var next := ReviewOne(db, q, run, accept, seen, refs[0], evidence);
      if next.Ok? {
        var all := ReviewAll(db, q, run, accept, seen + {refs[0].artifact}, refs[1..], next.value);
        ReviewAllKeeps(db, q, run, accept, seen + {refs[0].artifact}, refs[1..], next.value);
        if all.Ok? { EvidenceTransitively(evidence, next.value, all.value); }
      }
    }
  }

  lemma ReviewTaskKeeps(db: Database, now: int, c: Caller, id: TaskId, run: RunId, refs: seq<Reviewed>, accept: bool, checks: seq<bool>, ifMatch: nat)
    ensures var r := ReviewTask(db, now, c, id, run, refs, accept, checks, ifMatch);
            r.Ok? ==> KeepsEvidence(db.evidence, Ok(r.value.evidence), {})
  {
    var q := Admit(db, now, c, BY_MEMBER);
    if q.Ok? { ReviewAllKeeps(db, q.value, run, accept, {}, refs, db.evidence); }
  }

  /** An accepting review leaves every named artifact accepted and verified, each named once, all of the reviewed Run. */
  lemma {:induction false} ReviewAllAccepts(db: Database, q: Request, run: RunId, seen: set<ArtifactId>, refs: seq<Reviewed>, evidence: Evidence, k: nat)
    requires ReviewAll(db, q, run, true, seen, refs, evidence).Ok? && k < |refs|
    ensures var e := ReviewAll(db, q, run, true, seen, refs, evidence).value;
            && refs[k].artifact !in seen && (forall j :: 0 <= j < k ==> refs[j].artifact != refs[k].artifact)
            && refs[k].artifact in e.artifacts && e.artifacts[refs[k].artifact].run == run && e.artifacts[refs[k].artifact].digest == refs[k].digest
            && e.artifacts[refs[k].artifact].acceptance == Accepted && e.artifacts[refs[k].artifact].verification == Verified
    decreases |refs|
  {
    var next := ReviewOne(db, q, run, true, seen, refs[0], evidence).value;
    ReviewOneKeeps(db, q, run, true, seen, refs[0], evidence);
    ReviewAllKeeps(db, q, run, true, seen + {refs[0].artifact}, refs[1..], next);
    if k > 0 {
      ReviewAllAccepts(db, q, run, seen + {refs[0].artifact}, refs[1..], next, k - 1);
      assert refs[1..][k - 1] == refs[k];
      forall j | 0 <= j < k ensures refs[j].artifact != refs[k].artifact {
        if j > 0 { assert refs[1..][j - 1] == refs[j]; }
      }
    }
  }

  // --- What rests on accepted evidence --------------------------------------------------

  /** Artifacts belong to their Run's task; a resolution names accepted evidence of the right kind from the predecessor. */
  ghost predicate Founded(x: Execution, evidence: Evidence) {
    && AcceptedIsVerified(evidence)
    && (forall a :: a in evidence.artifacts ==>
          evidence.artifacts[a].run in x.runs && x.runs[evidence.artifacts[a].run].task == evidence.artifacts[a].task)
    && (forall d :: d in x.dependencies && x.dependencies[d].resolved.Some? ==>
          Qualifies(x.runs, evidence, x.dependencies[d].resolved.value, x.dependencies[d]))
  }

  ghost predicate RefHolds(evidence: Evidence, r: Ref) {
    && r.artifact in evidence.artifacts
    && var a := evidence.artifacts[r.artifact];
       a.acceptance == Accepted && a.verification == Verified && r == Ref(r.artifact, a.digest, a.version, a.task)
  }

  ghost predicate Canonical(s: Snapshot) {
    && s.entries != [] && SortedByContext(s.entries)
    && forall i, j :: 0 <= i < j < |s.refs| ==> s.refs[i].artifact < s.refs[j].artifact
  }

  ghost predicate SnapshotHolds(evidence: Evidence, s: Snapshot) {
    Canonical(s) && forall i :: 0 <= i < |s.refs| ==> RefHolds(evidence, s.refs[i])
  }

  ghost predicate SnapshotsHold(x: Execution, evidence: Evidence) {
    forall s :: s in x.snapshots ==> SnapshotHolds(evidence, x.snapshots[s])
  }

  /** The resolutions of the dependencies: kept, newly and rightly found, or not there yet. */
  ghost predicate Resolutions(x: Execution, evidence: Evidence, y: Execution) {
    forall d :: d in y.dependencies && y.dependencies[d].resolved.Some? ==>
      || Qualifies(x.runs, evidence, y.dependencies[d].resolved.value, y.dependencies[d])
      || (d in x.dependencies && x.dependencies[d] == y.dependencies[d])
  }

  lemma ResolveResolutions(x: Execution, evidence: Evidence, tasks: set<TaskId>)
    ensures Resolutions(x, evidence, ResolveEvidence(x, evidence, tasks))
  {
  }

  /** Accepted evidence stays what it was, so every resolution and reference stays good. */
  lemma QualifiesStays(x: Execution, y: Execution, e: Evidence, f: Evidence, id: ArtifactId, d: Dependency)
    requires Qualifies(x.runs, e, id, d)
    requires forall r :: r in x.runs ==> r in y.runs && RunKept(x.runs[r], y.runs[r])
    requires forall a :: a in e.artifacts ==> a in f.artifacts && ArtifactKept(e.artifacts[a], f.artifacts[a])
    ensures Qualifies(y.runs, f, id, d)
  {
    assert ArtifactKept(e.artifacts[id], f.artifacts[id]);
    assert RunKept(x.runs[e.artifacts[id].run], y.runs[e.artifacts[id].run]);
  }

  lemma SnapshotStays(e: Evidence, f: Evidence, s: Snapshot)
    requires SnapshotHolds(e, s)
    requires forall a :: a in e.artifacts ==> a in f.artifacts && ArtifactKept(e.artifacts[a], f.artifacts[a])
    ensures SnapshotHolds(f, s)
  {
    forall i | 0 <= i < |s.refs| ensures RefHolds(f, s.refs[i]) {
      assert RefHolds(e, s.refs[i]);
    }
  }

  /** Task and Run writes: evidence unchanged, dependencies resolved from it. */
  lemma FoundedAfterTask(x: Execution, y: Execution, e: Evidence)
    requires Founded(x, e) && Resolutions(x, e, y)
    requires forall r :: r in x.runs ==> r in y.runs && RunKept(x.runs[r], y.runs[r])
    ensures Founded(y, e)
  {
    forall d | d in y.dependencies && y.dependencies[d].resolved.Some?
      ensures Qualifies(y.runs, e, y.dependencies[d].resolved.value, y.dependencies[d])
    {
      QualifiesStays(x, y, e, e, y.dependencies[d].resolved.value, y.dependencies[d]);
    }
    forall a | a in e.artifacts ensures e.artifacts[a].run in y.runs && y.runs[e.artifacts[a].run].task == e.artifacts[a].task {
      assert RunKept(x.runs[e.artifacts[a].run], y.runs[e.artifacts[a].run]);
    }
  }

  ghost predicate NewArtifactsPlaced(x: Execution, e: Evidence, f: Evidence) {
    forall a :: a in f.artifacts && a !in e.artifacts ==> f.artifacts[a].run in x.runs && x.runs[f.artifacts[a].run].task == f.artifacts[a].task
  }

  /** Evidence writes and reviews: Runs and dependencies unchanged. */
  lemma FoundedAfterDelivery(x: Execution, y: Execution, e: Evidence, f: Evidence, newIds: set<nat>)
    requires Founded(x, e) && SnapshotsHold(x, e) && EvidenceAdvances(e, f, newIds) && AcceptedIsVerified(f) && NewArtifactsPlaced(x, e, f)
    requires y.runs == x.runs && y.dependencies == x.dependencies && y.snapshots == x.snapshots
    ensures Founded(y, f) && SnapshotsHold(y, f)
  {
    forall d | d in y.dependencies && y.dependencies[d].resolved.Some?
      ensures Qualifies(y.runs, f, y.dependencies[d].resolved.value, y.dependencies[d])
    {
      QualifiesStays(x, y, e, f, y.dependencies[d].resolved.value, y.dependencies[d]);
    }
    forall s | s in y.snapshots ensures SnapshotHolds(f, y.snapshots[s]) {
      SnapshotStays(e, f, x.snapshots[s]);
    }
    forall a | a in f.artifacts ensures f.artifacts[a].run in y.runs && y.runs[f.artifacts[a].run].task == f.artifacts[a].task {
      if a in e.artifacts { assert ArtifactKept(e.artifacts[a], f.artifacts[a]); }
    }
  }

  // --- The claim freezes only accepted evidence ---------------------------------------------

  lemma InputHolds(x: Execution, evidence: Evidence, task: TaskId, a: ArtifactId)
    requires Founded(x, evidence) && a in Inputs(x, evidence, task)
    ensures RefHolds(evidence, RefOf(evidence, a))
  {
    var d :| d in x.dependencies && x.dependencies[d].resolved == Some(a);
    assert Qualifies(x.runs, evidence, a, x.dependencies[d]);
  }

  lemma FrozenRefs(env: Environment, x: Execution, evidence: Evidence, task: TaskId, i: nat)
    requires Founded(x, evidence) && task in x.tasks && FreezeSnapshot(env, x, evidence, task).Ok?
    requires i < |FreezeSnapshot(env, x, evidence, task).value.refs|
    ensures RefHolds(evidence, FreezeSnapshot(env, x, evidence, task).value.refs[i])
  {
    FrozenSnapshot(env, x, evidence, task);
    var order := Ascending(Inputs(x, evidence, task));
    assert order[i] in order;
    InputHolds(x, evidence, task, order[i]);
  }

  lemma FrozenHolds(env: Environment, x: Execution, evidence: Evidence, task: TaskId)
    requires Founded(x, evidence) && task in x.tasks && FreezeSnapshot(env, x, evidence, task).Ok?
    ensures SnapshotHolds(evidence, FreezeSnapshot(env, x, evidence, task).value)
  {
    var s := FreezeSnapshot(env, x, evidence, task).value;
    FrozenSnapshot(env, x, evidence, task);
    FrozenNotEmpty(env, x, evidence, task);
    forall i | 0 <= i < |s.refs| ensures RefHolds(evidence, s.refs[i]) { FrozenRefs(env, x, evidence, task, i); }
  }

  lemma InsertNotEmpty(s: seq<Entry>)
    ensures s != [] ==> SortByContext(s) != []
  {
    if s != [] { assert Insert(s[0], SortByContext(s[1..])) != []; }
  }

  lemma {:induction false} GatherNotEmpty(env: Environment, evidence: Evidence, order: seq<ArtifactId>, entries: seq<Entry>)
    requires entries != [] && (forall a :: a in order ==> a in evidence.artifacts) && Gather(env, evidence, order, entries).Ok?
    ensures Gather(env, evidence, order, entries).value != []
  {
    if order != [] {
      var found := ApiEntry(env, evidence.artifacts[order[0]]).value;
      var more := if found.Some? then Joined(entries, found.value) else Ok(entries);
      GatherNotEmpty(env, evidence, order[1..], more.value);
    }
  }

  lemma FrozenNotEmpty(env: Environment, x: Execution, evidence: Evidence, task: TaskId)
    requires task in x.tasks && FreezeSnapshot(env, x, evidence, task).Ok?
    ensures FreezeSnapshot(env, x, evidence, task).value.entries != []
  {
    var order := Ascending(Inputs(x, evidence, task));
    var base := Selected(env, x.tasks[task].contexts);
    GatherNotEmpty(env, evidence, order, base);
    InsertNotEmpty(Gather(env, evidence, order, base).value);
  }

  /** A frozen reference passes the parent check of every later registration of its Run. */
  lemma FrozenParentValid(db: Database, run: RunId, snapshot: SnapshotId, i: nat)
    requires SnapshotsHold(db.execution, db.evidence) && snapshot in db.execution.snapshots && i < |db.execution.snapshots[snapshot].refs|
    ensures ValidParent(db, run, snapshot, db.execution.snapshots[snapshot].refs[i].artifact)
  {
    var s := db.execution.snapshots[snapshot];
    assert SnapshotHolds(db.evidence, s) && RefHolds(db.evidence, s.refs[i]);
    assert s.refs[i] in s.refs;
  }
}
