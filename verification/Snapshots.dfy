/** Freezing a task's inputs into a canonical snapshot (tasks_execution.go and dependency_evidence.go): the readiness
    of its dependencies, the selected Contexts, and what accepted evidence adds to them. */
module Snapshots {
  import opened Options
  import opened Tables

  // --- Dependency evidence -----------------------------------------------------

  predicate Qualifies(runs: map<RunId, TaskRun>, evidence: Evidence, id: ArtifactId, d: Dependency) {
    && d.condition.ArtifactAccepted? && id in evidence.artifacts
    && var a := evidence.artifacts[id];
       && a.run in runs && runs[a.run].task == d.predecessor
       && a.verification == Verified && a.acceptance == Accepted && a.kind == d.condition.kind
  }

  /** The dependency with its evidence: kept if present, else the first qualifying artifact by id. */
  function Resolved(runs: map<RunId, TaskRun>, evidence: Evidence, d: Dependency): Dependency {
    var candidates := set a | a in evidence.artifacts && Qualifies(runs, evidence, a, d);
    if d.resolved.Some? || candidates == {} then d else d.(resolved := Some(LeastOf(candidates)))
  }

  function ResolveEvidence(x: Execution, evidence: Evidence, tasks: set<TaskId>): Execution {
    x.(dependencies := map d | d in x.dependencies ::
         if x.dependencies[d].successor in tasks then Resolved(x.runs, evidence, x.dependencies[d]) else x.dependencies[d])
  }

  predicate Met(x: Execution, evidence: Evidence, d: Dependency) {
    match d.condition
    case TaskDone => d.predecessor in x.tasks && x.tasks[d.predecessor].status == Done
    case ArtifactAccepted(_) => d.resolved.Some? && Qualifies(x.runs, evidence, d.resolved.value, d)
  }

  /** `taskReady`, once the evidence has been resolved. */
  predicate TaskReady(env: Environment, x: Execution, evidence: Evidence, id: TaskId)
    requires id in x.tasks
  {
    var t := x.tasks[id];
    && (forall c :: c in t.contexts && t.contexts[c] in env.versions ==> env.versions[t.contexts[c]].published)
    && ActiveMember(env, t.owner)
    && forall d :: d in x.dependencies && x.dependencies[d].successor == id ==> Met(x, evidence, x.dependencies[d])
  }

  // --- The frozen list of Contexts ------------------------------------------------

  predicate SortedByContext(s: seq<Entry>) { forall i, j :: 0 <= i < j < |s| ==> s[i].context < s[j].context }

  /** No two entries of one Context. */
  predicate OnePerContext(s: seq<Entry>) { forall i, j :: 0 <= i < j < |s| ==> s[i].context != s[j].context }

  function Insert(e: Entry, s: seq<Entry>): seq<Entry> {
    if s == [] then [e] else if e.context <= s[0].context then [e] + s else [s[0]] + Insert(e, s[1..])
  }

  function SortByContext(s: seq<Entry>): seq<Entry> {
    if s == [] then [] else Insert(s[0], SortByContext(s[1..]))
  }

  lemma {:induction false} InsertSorts(e: Entry, s: seq<Entry>)
    requires SortedByContext(s) && forall x :: x in s ==> x.context != e.context
    ensures SortedByContext(Insert(e, s))
    ensures forall x :: x in Insert(e, s) <==> x == e || x in s
  {
    if s == [] {
    } else if e.context <= s[0].context {
      assert s[0] in s;
    } else {
      var rest := Insert(e, s[1..]);
      InsertSorts(e, s[1..]);
      assert s == [s[0]] + s[1..];
      forall j | 0 <= j < |rest| ensures s[0].context < rest[j].context {
        assert rest[j] in rest;
        if rest[j] != e { assert rest[j] in s[1..]; }
      }
    }
  }

  lemma {:induction false} SortSorts(s: seq<Entry>)
    requires OnePerContext(s)
    ensures SortedByContext(SortByContext(s))
    ensures forall x :: x in SortByContext(s) <==> x in s
  {
    if s != [] {
      SortSorts(s[1..]);
      assert s == [s[0]] + s[1..];
      InsertSorts(s[0], SortByContext(s[1..]));
    }
  }

  lemma BothEmpty(a: seq<Entry>, b: seq<Entry>)
    requires forall x :: x in a <==> x in b
    ensures |a| == 0 <==> |b| == 0
  {
    if |a| > 0 { assert a[0] in a; }
    if |b| > 0 { assert b[0] in b; }
  }

  /** An ascending list is determined by its elements. */
  lemma {:induction false} SortedIsUnique(a: seq<Entry>, b: seq<Entry>)
    requires SortedByContext(a) && SortedByContext(b) && (forall x :: x in a <==> x in b)
    ensures a == b
  {
    BothEmpty(a, b);
    if a != [] {
      assert a[0] in b && b[0] in a;
      assert a[0] == b[0] by {
        var i :| 0 <= i < |b| && b[i] == a[0];
        var j :| 0 <= j < |a| && a[j] == b[0];
        assert b[0].context <= a[0].context && a[0].context <= b[0].context;
      }
      forall x ensures x in a[1..] <==> x in b[1..] {
        if x in a[1..] {
          var i :| 1 <= i < |a| && a[i] == x;
          assert x in b && x.context != b[0].context;
        }
        if x in b[1..] {
          var i :| 1 <= i < |b| && b[i] == x;
          assert x in a && x.context != a[0].context;
        }
      }
      SortedIsUnique(a[1..], b[1..]);
      assert a == [a[0]] + a[1..] && b == [b[0]] + b[1..];
    }
  }

  /** The Contexts a task selects, in ascending order. */
  function Selected(env: Environment, contexts: map<ContextId, VersionId>): (s: seq<Entry>)
  {
    SelectedFrom(env, contexts, Ascending(contexts.Keys))
  }

  function EntriesOf(env: Environment, contexts: map<ContextId, VersionId>, c: ContextId): seq<Entry> {
    if c in contexts && contexts[c] in env.versions then [Entry(c, contexts[c], env.versions[contexts[c]].digest)] else []
  }

  function SelectedFrom(env: Environment, contexts: map<ContextId, VersionId>, order: seq<ContextId>): seq<Entry> {
    if order == [] then [] else EntriesOf(env, contexts, order[0]) + SelectedFrom(env, contexts, order[1..])
  }

  function RefOf(evidence: Evidence, id: ArtifactId): Ref
    requires id in evidence.artifacts
  {
    var a := evidence.artifacts[id];
    Ref(id, a.digest, a.version, a.task)
  }

  /** The entry an API artifact contributes, if it is one and still matches its published Context. */
  function ApiEntry(env: Environment, a: Artifact): Result<Option<Entry>> {
    if a.kind != ApiDocument then Ok(None)
    else if a.contextVersion.None? || a.contextVersion.value !in env.versions then Err(NotFound)
    else
      var v := env.versions[a.contextVersion.value];
      if !v.published || v.digest != a.digest then Err(DependencyContextInvalid)
      else Ok(Some(Entry(v.context, a.contextVersion.value, v.digest)))
  }

  /** Adding one entry: refused if the Context is there under another version, nothing if it is there already. */
  function Joined(entries: seq<Entry>, e: Entry): Result<seq<Entry>> {
    if exists i :: 0 <= i < |entries| && entries[i].context == e.context && entries[i].version != e.version then Err(ContextConflict)
    else if exists i :: 0 <= i < |entries| && entries[i].context == e.context then Ok(entries)
    else Ok(entries + [e])
  }

  function Gather(env: Environment, evidence: Evidence, order: seq<ArtifactId>, entries: seq<Entry>): Result<seq<Entry>>
    requires forall a :: a in order ==> a in evidence.artifacts
  {
    if order == [] then Ok(entries)
    else
      var found :- ApiEntry(env, evidence.artifacts[order[0]]);
      var more :- if found.Some? then Joined(entries, found.value) else Ok(entries);
      Gather(env, evidence, order[1..], more)
  }

  function RefsOf(evidence: Evidence, order: seq<ArtifactId>): seq<Ref>
    requires forall a :: a in order ==> a in evidence.artifacts
    ensures |RefsOf(evidence, order)| == |order|
    ensures forall i :: 0 <= i < |order| ==> RefsOf(evidence, order)[i] == RefOf(evidence, order[i])
  {
    if order == [] then [] else [RefOf(evidence, order[0])] + RefsOf(evidence, order[1..])
  }

  /** The artifacts a task's dependencies resolved to. */
  function Inputs(x: Execution, evidence: Evidence, task: TaskId): set<ArtifactId> {
    set d | d in x.dependencies && x.dependencies[d].successor == task && x.dependencies[d].resolved.Some?
            && x.dependencies[d].resolved.value in evidence.artifacts :: x.dependencies[d].resolved.value
  }

  function FreezeSnapshot(env: Environment, x: Execution, evidence: Evidence, task: TaskId): Result<Snapshot>
    requires task in x.tasks
  {
    var base := Selected(env, x.tasks[task].contexts);
    :- Need(base != [], ContextRequired);
    var order := Ascending(Inputs(x, evidence, task));
    var entries :- Gather(env, evidence, order, base);
    Ok(Snapshot(SortByContext(entries), RefsOf(evidence, order)))
  }

  // --- What the snapshot holds, whatever the order of the inputs -----------------------

  /** The entry is the version's own digest. */
  ghost predicate Honest(env: Environment, entries: seq<Entry>) {
    forall e :: e in entries ==> e.version in env.versions && e.digest == env.versions[e.version].digest
  }

  ghost predicate Contributes(env: Environment, evidence: Evidence, order: seq<ArtifactId>, e: Entry)
    requires forall a :: a in order ==> a in evidence.artifacts
  {
    exists a :: a in order && ApiEntry(env, evidence.artifacts[a]) == Ok(Some(e))
  }

  ghost predicate Listed(env: Environment, evidence: Evidence, order: seq<ArtifactId>, base: seq<Entry>, e: Entry)
    requires forall a :: a in order ==> a in evidence.artifacts
  {
    e in base || Contributes(env, evidence, order, e)
  }

  /** All API evidence still matches its Context, and no Context is wanted under two versions. */
  ghost predicate Consistent(env: Environment, evidence: Evidence, order: seq<ArtifactId>, base: seq<Entry>)
    requires forall a :: a in order ==> a in evidence.artifacts
  {
    && (forall a :: a in order ==> ApiEntry(env, evidence.artifacts[a]).Ok?)
    && (forall e, f :: Listed(env, evidence, order, base, e) && Listed(env, evidence, order, base, f) && e.context == f.context
          ==> e.version == f.version)
  }

  lemma JoinedAdds(env: Environment, entries: seq<Entry>, e: Entry)
    requires OnePerContext(entries) && Honest(env, entries) && Honest(env, [e])
    ensures Joined(entries, e).Ok? <==> forall x :: x in entries && x.context == e.context ==> x.version == e.version
    ensures Joined(entries, e).Ok? ==> var r := Joined(entries, e).value;
              OnePerContext(r) && Honest(env, r) && (forall x :: x in r <==> x in entries || x == e)
  {
    assert e in [e];
    if Joined(entries, e).Ok? && exists i :: 0 <= i < |entries| && entries[i].context == e.context {
      var i :| 0 <= i < |entries| && entries[i].context == e.context;
      assert entries[i] in entries && entries[i] == e;
    }
  }

  lemma ContributesStep(env: Environment, evidence: Evidence, order: seq<ArtifactId>, e: Entry)
    requires order != [] && forall a :: a in order ==> a in evidence.artifacts
    ensures Contributes(env, evidence, order, e)
            <==> ApiEntry(env, evidence.artifacts[order[0]]) == Ok(Some(e)) || Contributes(env, evidence, order[1..], e)
  {
    assert order == [order[0]] + order[1..];
  }

  lemma ListedStep(env: Environment, evidence: Evidence, order: seq<ArtifactId>, base: seq<Entry>, more: seq<Entry>)
    requires order != [] && forall a :: a in order ==> a in evidence.artifacts
    requires ApiEntry(env, evidence.artifacts[order[0]]).Ok?
    requires var found := ApiEntry(env, evidence.artifacts[order[0]]).value;
             forall x :: x in more <==> x in base || found == Some(x)
    ensures forall e :: Listed(env, evidence, order, base, e) <==> Listed(env, evidence, order[1..], more, e)
  {
    forall e ensures Listed(env, evidence, order, base, e) <==> Listed(env, evidence, order[1..], more, e) {
      ContributesStep(env, evidence, order, e);
    }
  }

  lemma ConsistentStep(env: Environment, evidence: Evidence, order: seq<ArtifactId>, base: seq<Entry>, more: seq<Entry>)
    requires order != [] && forall a :: a in order ==> a in evidence.artifacts
    requires ApiEntry(env, evidence.artifacts[order[0]]).Ok?
    requires var found := ApiEntry(env, evidence.artifacts[order[0]]).value;
             forall x :: x in more <==> x in base || found == Some(x)
    ensures Consistent(env, evidence, order, base) <==> Consistent(env, evidence, order[1..], more)
  {
    ListedStep(env, evidence, order, base, more);
    assert order == [order[0]] + order[1..];
  }

  /** The gathering succeeds exactly on consistent inputs, and then lists exactly what they contribute. */
  lemma {:induction false} GatherMeaning(env: Environment, evidence: Evidence, order: seq<ArtifactId>, base: seq<Entry>)
    requires OnePerContext(base) && Honest(env, base) && forall a :: a in order ==> a in evidence.artifacts
    ensures Gather(env, evidence, order, base).Ok? <==> Consistent(env, evidence, order, base)
    ensures Gather(env, evidence, order, base).Ok? ==>
              var r := Gather(env, evidence, order, base).value;
              OnePerContext(r) && Honest(env, r) && forall e :: e in r <==> Listed(env, evidence, order, base, e)
  {
    if order == [] {
      OneVersionEach(env, evidence, base);
    } else {
      var api := ApiEntry(env, evidence.artifacts[order[0]]);
      if api.Ok? {
        var more := if api.value.Some? then Joined(base, api.value.value) else Ok(base);
        if api.value.Some? { JoinedAdds(env, base, api.value.value); }
        if more.Ok? {
          ConsistentStep(env, evidence, order, base, more.value);
          ListedStep(env, evidence, order, base, more.value);
          GatherMeaning(env, evidence, order[1..], more.value);
        } else {
          ConflictIsInconsistent(env, evidence, order, base, api.value.value);
        }
      }
    }
  }

  lemma OneVersionEach(env: Environment, evidence: Evidence, base: seq<Entry>)
    requires OnePerContext(base)
    ensures Consistent(env, evidence, [], base)
  {
    forall e, f | Listed(env, evidence, [], base, e) && Listed(env, evidence, [], base, f) && e.context == f.context
      ensures e.version == f.version
    {
      var i :| 0 <= i < |base| && base[i] == e;
      var j :| 0 <= j < |base| && base[j] == f;
    }
  }

  lemma ConflictIsInconsistent(env: Environment, evidence: Evidence, order: seq<ArtifactId>, base: seq<Entry>, e: Entry)
    requires order != [] && forall a :: a in order ==> a in evidence.artifacts
    requires ApiEntry(env, evidence.artifacts[order[0]]) == Ok(Some(e)) && Joined(base, e).Err?
    ensures !Consistent(env, evidence, order, base)
  {
    var i :| 0 <= i < |base| && base[i].context == e.context && base[i].version != e.version;
    assert Listed(env, evidence, order, base, base[i]);
    assert Contributes(env, evidence, order, e);
    assert Listed(env, evidence, order, base, e);
  }

  /** The frozen entries do not depend on the order in which Contexts or evidence are visited. */
  lemma GatherIgnoresOrder(env: Environment, evidence: Evidence, order: seq<ArtifactId>, other: seq<ArtifactId>,
                           base: seq<Entry>, base': seq<Entry>)
    requires OnePerContext(base) && Honest(env, base) && OnePerContext(base')
    requires forall a :: a in order ==> a in evidence.artifacts
    requires (forall a :: a in order <==> a in other) && (forall e :: e in base <==> e in base')
    ensures Gather(env, evidence, order, base).Ok? <==> Gather(env, evidence, other, base').Ok?
    ensures Gather(env, evidence, order, base).Ok? ==>
              SortByContext(Gather(env, evidence, order, base).value) == SortByContext(Gather(env, evidence, other, base').value)
  {
    GatherMeaning(env, evidence, order, base);
    GatherMeaning(env, evidence, other, base');
    assert forall e :: Contributes(env, evidence, order, e) <==> Contributes(env, evidence, other, e);
    assert forall e :: Listed(env, evidence, order, base, e) <==> Listed(env, evidence, other, base', e);
    if Gather(env, evidence, order, base).Ok? {
      SortSorts(Gather(env, evidence, order, base).value);
      SortSorts(Gather(env, evidence, other, base').value);
      SortedIsUnique(SortByContext(Gather(env, evidence, order, base).value), SortByContext(Gather(env, evidence, other, base').value));
    }
  }

  lemma {:induction false} SelectedFromIsSorted(env: Environment, contexts: map<ContextId, VersionId>, order: seq<ContextId>)
    requires forall c :: c in order ==> c in contexts
    requires forall i, j :: 0 <= i < j < |order| ==> order[i] < order[j]
    ensures SortedByContext(SelectedFrom(env, contexts, order)) && Honest(env, SelectedFrom(env, contexts, order))
    ensures forall e :: e in SelectedFrom(env, contexts, order) <==>
              e.context in order && contexts[e.context] in env.versions
              && e == Entry(e.context, contexts[e.context], env.versions[contexts[e.context]].digest)
  {
    if order != [] {
      SelectedFromIsSorted(env, contexts, order[1..]);
      var rest := SelectedFrom(env, contexts, order[1..]);
      assert order == [order[0]] + order[1..];
      forall j | 0 <= j < |rest| ensures order[0] < rest[j].context {
        assert rest[j] in rest;
      }
    }
  }

  lemma FrozenEntries(env: Environment, evidence: Evidence, order: seq<ArtifactId>, base: seq<Entry>)
    requires SortedByContext(base) && Honest(env, base) && forall a :: a in order ==> a in evidence.artifacts
    requires Gather(env, evidence, order, base).Ok?
    ensures var entries := SortByContext(Gather(env, evidence, order, base).value);
            SortedByContext(entries) && forall e :: e in entries <==> Listed(env, evidence, order, base, e)
  {
    GatherMeaning(env, evidence, order, base);
    SortSorts(Gather(env, evidence, order, base).value);
  }

  /** A frozen snapshot lists each Context once, in ascending order: exactly the task's own selection
      and the Contexts of accepted API evidence; and one reference to each input, ascending. */
  lemma FrozenSnapshot(env: Environment, x: Execution, evidence: Evidence, task: TaskId)
    requires task in x.tasks && FreezeSnapshot(env, x, evidence, task).Ok?
    ensures var s := FreezeSnapshot(env, x, evidence, task).value;
            var order := Ascending(Inputs(x, evidence, task));
            && SortedByContext(s.entries)
            && (forall e :: e in s.entries <==> Listed(env, evidence, order, Selected(env, x.tasks[task].contexts), e))
            && s.refs == RefsOf(evidence, order)
            && (forall i, j :: 0 <= i < j < |order| ==> order[i] < order[j])
            && (forall a :: a in Inputs(x, evidence, task) <==> a in order)
  {
    var contexts := x.tasks[task].contexts;
    SelectedFromIsSorted(env, contexts, Ascending(contexts.Keys));
    FrozenEntries(env, evidence, Ascending(Inputs(x, evidence, task)), Selected(env, contexts));
  }
}
