/** Which evidence a claim finds, when it can be frozen, and what the snapshot then holds - told from the rows. */
module Freezing {
  import opened Options
  import opened Tables
  import opened Snapshots
  import opened EvidenceSafety

  /** An accepted and verified artifact of the kind, from a Run of the task. */
  ghost predicate Delivers(x: Execution, e: Evidence, a: ArtifactId, task: TaskId, kind: Kind) {
    && a in e.artifacts && e.artifacts[a].acceptance == Accepted && e.artifacts[a].verification == Verified && e.artifacts[a].kind == kind
    && e.artifacts[a].run in x.runs && x.runs[e.artifacts[a].run].task == task
  }

  /** The evidence of a dependency: what it has, else the first that has been delivered. */
  ghost predicate EvidenceFor(x: Execution, e: Evidence, d: Dependency, a: ArtifactId) {
    if d.resolved.Some? then d.resolved == Some(a)
    else d.condition.ArtifactAccepted? && Delivers(x, e, a, d.predecessor, d.condition.kind)
         && forall b :: Delivers(x, e, b, d.predecessor, d.condition.kind) ==> a <= b
  }

  ghost predicate InputOf(x: Execution, e: Evidence, t: TaskId, a: ArtifactId) {
    exists d :: d in x.dependencies && x.dependencies[d].successor == t && EvidenceFor(x, e, x.dependencies[d], a)
  }

  /** The task selects the Context, under the version, as it is. */
  ghost predicate Selects(env: Environment, t: Task, c: Entry) {
    c.context in t.contexts && t.contexts[c.context] == c.version && c.version in env.versions && env.versions[c.version].digest == c.digest
  }

  /** An API document still is what its published Context says. */
  ghost predicate StillMatches(env: Environment, a: Artifact) {
    a.contextVersion.Some? && a.contextVersion.value in env.versions
    && env.versions[a.contextVersion.value].published && env.versions[a.contextVersion.value].digest == a.digest
  }

  ghost predicate Brings(env: Environment, a: Artifact, c: Entry) {
    a.kind == ApiDocument && StillMatches(env, a)
    && c == Entry(env.versions[a.contextVersion.value].context, a.contextVersion.value, env.versions[a.contextVersion.value].digest)
  }

  /** What the snapshot of a task is to list: its own selection, and the Contexts of its API evidence. */
  ghost predicate ToList(db: Database, t: TaskId, c: Entry)
    requires t in db.execution.tasks
  {
    || Selects(db.env, db.execution.tasks[t], c)
    || exists a :: InputOf(db.execution, db.evidence, t, a) && a in db.evidence.artifacts && Brings(db.env, db.evidence.artifacts[a], c)
  }

  ghost predicate Matching(db: Database, t: TaskId) {
    forall a :: InputOf(db.execution, db.evidence, t, a) && a in db.evidence.artifacts && db.evidence.artifacts[a].kind == ApiDocument
                ==> StillMatches(db.env, db.evidence.artifacts[a])
  }

  /** All API evidence still matches, and no Context is wanted under two versions. */
  ghost predicate Agreeing(db: Database, t: TaskId)
    requires t in db.execution.tasks
  {
    Matching(db, t) && forall c, d :: ToList(db, t, c) && ToList(db, t, d) && c.context == d.context ==> c.version == d.version
  }

  /** The task selects something, and what is to be listed agrees. */
  ghost predicate MayFreeze(db: Database, t: TaskId)
    requires t in db.execution.tasks
  {
    (exists c :: Selects(db.env, db.execution.tasks[t], c)) && Agreeing(db, t)
  }

  /** Exactly what is to be listed, ascending; and one reference to each input as it is now, ascending. */
  ghost predicate FrozenSo(db: Database, t: TaskId, s: Snapshot)
    requires t in db.execution.tasks
  {
    && SortedByContext(s.entries) && (forall c :: c in s.entries <==> ToList(db, t, c))
    && (forall i, j :: 0 <= i < j < |s.refs| ==> s.refs[i].artifact < s.refs[j].artifact)
    && (forall a :: InputOf(db.execution, db.evidence, t, a) ==> a in db.evidence.artifacts && RefTo(db.evidence, a) in s.refs)
    && (forall f :: f in s.refs ==> InputOf(db.execution, db.evidence, t, f.artifact) && f.artifact in db.evidence.artifacts && f == RefTo(db.evidence, f.artifact))
  }

  ghost function RefTo(e: Evidence, a: ArtifactId): Ref
    requires a in e.artifacts
  {
    Ref(a, e.artifacts[a].digest, e.artifacts[a].version, e.artifacts[a].task)
  }

  // --- The source's way there ------------------------------------------------------------------

  lemma QualifiesIff(x: Execution, e: Evidence, a: ArtifactId, d: Dependency)
    ensures Qualifies(x.runs, e, a, d) <==> d.condition.ArtifactAccepted? && Delivers(x, e, a, d.predecessor, d.condition.kind)
  {
  }

  lemma ResolvedIff(x: Execution, e: Evidence, d: Dependency, a: ArtifactId)
    requires d.resolved.Some? ==> d.resolved.value in e.artifacts
    ensures Resolved(x.runs, e, d).resolved == Some(a) <==> EvidenceFor(x, e, d, a)
    ensures Resolved(x.runs, e, d).resolved.Some? ==> Resolved(x.runs, e, d).resolved.value in e.artifacts
  {
    var candidates := set a | a in e.artifacts && Qualifies(x.runs, e, a, d);
    forall b ensures b in candidates <==> d.condition.ArtifactAccepted? && Delivers(x, e, b, d.predecessor, d.condition.kind) { QualifiesIff(x, e, b, d); }
  }

  lemma InputsIff(x: Execution, e: Evidence, t: TaskId, a: ArtifactId)
    requires Founded(x, e)
    ensures a in Inputs(ResolveEvidence(x, e, {t}), e, t) <==> InputOf(x, e, t, a)
  {
    var y := ResolveEvidence(x, e, {t});
    forall d | d in x.dependencies && x.dependencies[d].successor == t
      ensures (y.dependencies[d].resolved == Some(a) <==> EvidenceFor(x, e, x.dependencies[d], a))
              && (y.dependencies[d].resolved.Some? ==> y.dependencies[d].resolved.value in e.artifacts)
    {
      ResolvedIff(x, e, x.dependencies[d], a);
    }
  }

  lemma SelectionIff(env: Environment, t: Task, c: Entry)
    ensures c in Selected(env, t.contexts) <==> Selects(env, t, c)
  {
    SelectedFromIsSorted(env, t.contexts, Ascending(t.contexts.Keys));
  }

  lemma EntryIff(env: Environment, a: Artifact, c: Entry)
    ensures ApiEntry(env, a) == Ok(Some(c)) <==> Brings(env, a, c)
    ensures ApiEntry(env, a).Ok? <==> (a.kind == ApiDocument ==> StillMatches(env, a))
  {
  }

  lemma ListedIff(db: Database, t: TaskId, order: seq<ArtifactId>, c: Entry)
    requires t in db.execution.tasks && Founded(db.execution, db.evidence) && forall a :: a in order ==> a in db.evidence.artifacts
    requires forall a :: a in order <==> InputOf(db.execution, db.evidence, t, a)
    ensures Listed(db.env, db.evidence, order, Selected(db.env, db.execution.tasks[t].contexts), c) <==> ToList(db, t, c)
  {
    SelectionIff(db.env, db.execution.tasks[t], c);
    forall a | a in order ensures ApiEntry(db.env, db.evidence.artifacts[a]) == Ok(Some(c)) <==> Brings(db.env, db.evidence.artifacts[a], c) {
      EntryIff(db.env, db.evidence.artifacts[a], c);
    }
  }

  lemma ConsistentIff(db: Database, t: TaskId, order: seq<ArtifactId>)
    requires t in db.execution.tasks && Founded(db.execution, db.evidence) && forall a :: a in order ==> a in db.evidence.artifacts
    requires forall a :: a in order <==> InputOf(db.execution, db.evidence, t, a)
    ensures Consistent(db.env, db.evidence, order, Selected(db.env, db.execution.tasks[t].contexts)) <==> Agreeing(db, t)
  {
    var base := Selected(db.env, db.execution.tasks[t].contexts);
    forall c ensures Listed(db.env, db.evidence, order, base, c) <==> ToList(db, t, c) { ListedIff(db, t, order, c); }
    MatchingIff(db, t, order);
  }

  lemma MatchingIff(db: Database, t: TaskId, order: seq<ArtifactId>)
    requires t in db.execution.tasks && Founded(db.execution, db.evidence) && forall a :: a in order ==> a in db.evidence.artifacts
    requires forall a :: a in order <==> InputOf(db.execution, db.evidence, t, a)
    ensures (forall a :: a in order ==> ApiEntry(db.env, db.evidence.artifacts[a]).Ok?) <==> Matching(db, t)
  {
    forall a | a in order
      ensures ApiEntry(db.env, db.evidence.artifacts[a]).Ok? <==> (db.evidence.artifacts[a].kind == ApiDocument ==> StillMatches(db.env, db.evidence.artifacts[a]))
    {
      EntryIff(db.env, db.evidence.artifacts[a], Entry(0, 0, 0));
    }
  }

  lemma BaseIff(env: Environment, t: Task)
    ensures Selected(env, t.contexts) != [] <==> exists c :: Selects(env, t, c)
  {
    var base := Selected(env, t.contexts);
    if base != [] { SelectionIff(env, t, base[0]); }
    if c: Entry :| Selects(env, t, c) { SelectionIff(env, t, c); }
  }

  lemma RefsAre(e: Evidence, order: seq<ArtifactId>)
    requires (forall a :: a in order ==> a in e.artifacts) && forall i, j :: 0 <= i < j < |order| ==> order[i] < order[j]
    ensures var refs := RefsOf(e, order);
            && (forall i, j :: 0 <= i < j < |refs| ==> refs[i].artifact < refs[j].artifact)
            && (forall a :: a in order ==> RefTo(e, a) in refs) && (forall f :: f in refs ==> f.artifact in order && f == RefTo(e, f.artifact))
  {
    var refs := RefsOf(e, order);
    forall a | a in order ensures RefTo(e, a) in refs {
      var i :| 0 <= i < |order| && order[i] == a;
      assert refs[i] == RefTo(e, a);
    }
  }

  /** The claim can freeze exactly what may be frozen, and freezes exactly what is to be listed and referred to. */
  lemma FreezeMeans(db: Database, t: TaskId)
    requires t in db.execution.tasks && Founded(db.execution, db.evidence)
    ensures var r := FreezeSnapshot(db.env, ResolveEvidence(db.execution, db.evidence, {t}), db.evidence, t);
            if MayFreeze(db, t) then r.Ok? && FrozenSo(db, t, r.value) else r.Err?
  {
    var y := ResolveEvidence(db.execution, db.evidence, {t});
    var order, base := Ascending(Inputs(y, db.evidence, t)), Selected(db.env, db.execution.tasks[t].contexts);
    forall a ensures a in order <==> InputOf(db.execution, db.evidence, t, a) { InputsIff(db.execution, db.evidence, t, a); }
    BaseIff(db.env, db.execution.tasks[t]);
    if base != [] {
      SelectedFromIsSorted(db.env, db.execution.tasks[t].contexts, Ascending(db.execution.tasks[t].contexts.Keys));
      GatherMeaning(db.env, db.evidence, order, base);
      ConsistentIff(db, t, order);
      if MayFreeze(db, t) {
        FrozenSnapshot(db.env, y, db.evidence, t);
        forall c ensures Listed(db.env, db.evidence, order, base, c) <==> ToList(db, t, c) { ListedIff(db, t, order, c); }
        RefsAre(db.evidence, order);
      }
    }
  }
}
