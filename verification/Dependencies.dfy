/** The dependency graph of a project: which tasks a task reaches, and when one more edge closes a cycle (tasks_execution.go). */
module Dependencies {
  import opened Tables

  type Edge = (TaskId, TaskId)

  function Edges(dependencies: map<DependencyId, Dependency>): set<Edge> {
    set d | d in dependencies :: (dependencies[d].predecessor, dependencies[d].successor)
  }

  ghost predicate Path(edges: set<Edge>, p: seq<TaskId>) {
    |p| > 0 && forall i :: 0 <= i < |p| - 1 ==> (p[i], p[i + 1]) in edges
  }

  ghost predicate Joins(edges: set<Edge>, p: seq<TaskId>, a: TaskId, b: TaskId) {
    Path(edges, p) && p[0] == a && p[|p| - 1] == b
  }

  ghost predicate Reaches(edges: set<Edge>, a: TaskId, b: TaskId) {
    exists p :: Joins(edges, p, a, b)
  }

  /** No task waits for itself through any number of others. */
  ghost predicate Acyclic(edges: set<Edge>) {
    forall p :: Path(edges, p) && |p| > 1 ==> p[0] != p[|p| - 1]
  }

  lemma ReachesSelf(edges: set<Edge>, a: TaskId)
    ensures Reaches(edges, a, a)
  {
    assert Joins(edges, [a], a, a);
  }

  lemma ReachesFurther(edges: set<Edge>, a: TaskId, b: TaskId, c: TaskId)
    requires Reaches(edges, a, b) && (b, c) in edges
    ensures Reaches(edges, a, c)
  {
    var p :| Joins(edges, p, a, b);
    assert Joins(edges, p + [c], a, c);
  }

  lemma ReachesTransitively(edges: set<Edge>, a: TaskId, b: TaskId, c: TaskId)
    requires Reaches(edges, a, b) && Reaches(edges, b, c)
    ensures Reaches(edges, a, c)
  {
    var p :| Joins(edges, p, a, b);
    var q :| Joins(edges, q, b, c);
    var r := p + q[1..];
    forall i | 0 <= i < |r| - 1 ensures (r[i], r[i + 1]) in edges {
      if i >= |p| - 1 { assert (q[i - |p| + 1], q[i - |p| + 2]) in edges; }
    }
    assert Joins(edges, r, a, c);
  }

  /** A path through one more edge either does without it, or reaches its source and leaves from its target. */
  lemma {:induction false} PathSplits(edges: set<Edge>, e: Edge, p: seq<TaskId>)
    requires Path(edges + {e}, p)
    ensures Path(edges, p) || (Reaches(edges, p[0], e.0) && Reaches(edges, e.1, p[|p| - 1]))
  {
    if |p| > 1 {
      var n := |p| - 1;
      var front := p[..n];
      PathSplits(edges, e, front);
      assert (p[n - 1], p[n]) in edges + {e};
      if Path(edges, front) {
        if (p[n - 1], p[n]) !in edges {
          assert Joins(edges, front, p[0], e.0);
          ReachesSelf(edges, e.1);
        }
      } else if (p[n - 1], p[n]) in edges {
        ReachesFurther(edges, e.1, p[n - 1], p[n]);
      } else {
        ReachesSelf(edges, e.1);
      }
    }
  }

  /** One more edge keeps the graph acyclic exactly when its target does not already reach its source. */
  lemma AcyclicWithEdgeIff(edges: set<Edge>, e: Edge)
    requires Acyclic(edges)
    ensures Acyclic(edges + {e}) <==> !Reaches(edges, e.1, e.0)
  {
    if Reaches(edges, e.1, e.0) {
      var p :| Joins(edges, p, e.1, e.0);
      assert Path(edges + {e}, p + [e.1]);
    } else {
      forall p | Path(edges + {e}, p) && |p| > 1 ensures p[0] != p[|p| - 1] {
        PathSplits(edges, e, p);
        if !Path(edges, p) && p[0] == p[|p| - 1] { ReachesTransitively(edges, e.1, p[0], e.0); }
      }
    }
  }

  lemma FirstEdge(edges: set<Edge>, p: seq<TaskId>)
    requires Path(edges, p) && |p| > 1
    ensures (p[0], p[1]) in edges
  {
    assert (p[0], p[0 + 1]) in edges;
  }

  lemma NoEdgesAcyclic()
    ensures Acyclic({})
  {
    forall p | Path({}, p) ensures |p| <= 1 {
      if |p| > 1 { FirstEdge({}, p); }
    }
  }

  lemma FewerEdgesAcyclic(edges: set<Edge>, fewer: set<Edge>)
    requires Acyclic(edges) && fewer <= edges
    ensures Acyclic(fewer)
  {
    forall p | Path(fewer, p) && |p| > 1 ensures p[0] != p[|p| - 1] {
      assert Path(edges, p);
    }
  }

  /** What contains `a` and follows every edge contains all that `a` reaches. */
  lemma {:induction false} ClosedHoldsPath(edges: set<Edge>, closed: set<TaskId>, p: seq<TaskId>)
    requires Path(edges, p) && p[0] in closed
    requires forall e :: e in edges && e.0 in closed ==> e.1 in closed
    ensures p[|p| - 1] in closed
  {
    if |p| > 1 {
      ClosedHoldsPath(edges, closed, p[..|p| - 1]);
      assert (p[|p| - 2], p[|p| - 1]) in edges;
    }
  }

  /** The recursive query, frontier by frontier: exactly the tasks that `start` reaches. */
  method ReachableFrom(edges: set<Edge>, start: TaskId) returns (reached: set<TaskId>)
    ensures forall t :: t in reached <==> Reaches(edges, start, t)
  {
    reached := {start};
    var frontier := {start};
    ReachesSelf(edges, start);
    ghost var universe := {start} + set e | e in edges :: e.1;
    while frontier != {}
      invariant start in reached && frontier <= reached <= universe
      invariant forall t :: t in reached ==> Reaches(edges, start, t)
      invariant forall e :: e in edges && e.0 in reached - frontier ==> e.1 in reached
      decreases |universe - reached|, |frontier|
    {
      var next := (set e | e in edges && e.0 in frontier :: e.1) - reached;
      forall t | t in next ensures Reaches(edges, start, t) {
        var e :| e in edges && e.0 in frontier && e.1 == t;
        ReachesFurther(edges, start, e.0, t);
      }
      if next != {} {
        var t :| t in next;
        assert t in universe - reached;
        assert universe - (reached + next) < universe - reached;
        SmallerSet(universe - (reached + next), universe - reached);
      } else {
        SmallerSet({}, frontier);
      }
      reached := reached + next;
      frontier := next;
    }
    forall t | Reaches(edges, start, t) ensures t in reached {
      var p :| Joins(edges, p, start, t);
      ClosedHoldsPath(edges, reached, p);
    }
  }

  lemma {:induction false} SmallerSet<T>(a: set<T>, b: set<T>)
    requires a < b
    ensures |a| < |b|
  {
    var x :| x in b && x !in a;
    if a == {} {
    } else {
      var y :| y in a;
      assert x in b - {y} && x !in a - {y};
      SmallerSet(a - {y}, b - {y});
    }
  }
}
