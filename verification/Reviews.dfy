/** When evidence is verified, accepted and rejected, and a task with it - exactly when - and what each review does. */
module Reviews {
  import opened Options
  import opened Tables
  import opened Access
  import opened TaskFlow
  import opened Delivery
  import opened ControlPlane
  import opened TaskSafety
  import opened EvidenceSafety
  import opened Causes
  import Decisions
  import Guarantees
  import Readiness

  // --- One artifact -----------------------------------------------------------------------

  /** A reviewer asks the Git provider about a pending reference to code. */
  ghost predicate MayVerify(db: Database, c: Caller, id: ArtifactId, ifMatch: nat, provider: Provider) {
    && Decisions.PersonActs(db, c, Reviewer, false) && provider != Unreachable && id in db.evidence.artifacts
    && var a := db.evidence.artifacts[id];
       && a.version == ifMatch && a.acceptance == Pending && a.kind in {Commit, PullRequest, CodeDiff} && (a.uri.Pull? || a.uri.External?)
       && a.run in db.execution.runs && db.execution.runs[a.run].task in db.execution.tasks
       && db.execution.tasks[db.execution.runs[a.run].task].repository in db.env.repositories
  }

  /** Not yet decided, of a Run that did not fail, for a task that was not cancelled. */
  ghost predicate Undecided(db: Database, a: Artifact) {
    && a.acceptance == Pending && a.run in db.execution.runs && db.execution.runs[a.run].status in {RunRunning, RunSucceeded}
    && db.execution.runs[a.run].task in db.execution.tasks && db.execution.tasks[db.execution.runs[a.run].task].status != Canceled
  }

  /** What is verified may be accepted; an API document only by a reviewer, as the published API Context of its digest. */
  ghost predicate MayAccept(db: Database, user: UserId, a: Artifact) {
    && a.verification == Verified
    && (a.kind == ApiDocument ==>
          && ActiveWith(db.env, user, Reviewer) && a.contextVersion.Some? && a.contextVersion.value in db.env.versions
          && var v := db.env.versions[a.contextVersion.value]; v.api && v.published && v.digest == a.digest)
  }

  ghost predicate MayReview(db: Database, c: Caller, id: ArtifactId, digest: Digest, accept: bool, ifMatch: nat) {
    && Decisions.PersonActs(db, c, Reviewer, false) && id in db.evidence.artifacts
    && var a := db.evidence.artifacts[id];
       a.version == ifMatch && a.digest == digest && Undecided(db, a) && (accept ==> MayAccept(db, c.user, a))
  }

  ghost function Rewritten(e: Evidence, id: ArtifactId, verification: Verification, acceptance: Acceptance): Evidence
    requires id in e.artifacts
  {
    e.(artifacts := e.artifacts[id := e.artifacts[id].(verification := verification, acceptance := acceptance, version := e.artifacts[id].version + 1)])
  }

  lemma VerificationMeans(db: Database, now: int, c: Caller, id: ArtifactId, ifMatch: nat, provider: Provider)
    ensures var r := VerifyArtifact(db, now, c, id, ifMatch, provider);
            if MayVerify(db, c, id, ifMatch, provider)
            then r == Ok(Rewritten(db.evidence, id, if provider == Confirms then Verified else VerificationFailed, Pending)) else r.Err?
  {
    AdmittedIff(db, now, c, BY_REVIEWER);
  }

  lemma DecidedIff(db: Database, q: Request, e: Evidence, id: ArtifactId, accept: bool)
    requires id in e.artifacts && ActiveMember(db.env, q.user) && q.roles == db.env.members[q.user].roles
    ensures var r := DecideArtifact(db, q, e, id, accept);
            if Undecided(db, e.artifacts[id]) && (accept ==> MayAccept(db, q.user, e.artifacts[id]))
            then r == Ok(Rewritten(e, id, e.artifacts[id].verification, if accept then Accepted else Rejected)) else r.Err?
  {
    var a := e.artifacts[id];
    if a.run in db.execution.runs {
      var status := db.execution.runs[a.run].status;
      assert status.RunRunning? || status.RunSucceeded? || status.RunFailed? || status.RunCanceled? || status.RunLost?;
    }
    if a.verification == Verified && a.kind == ApiDocument { ApiContextIff(db, q, a); }
  }

  lemma ApiContextIff(db: Database, q: Request, a: Artifact)
    requires ActiveMember(db.env, q.user) && q.roles == db.env.members[q.user].roles && a.verification == Verified && a.kind == ApiDocument
    ensures CheckApiContext(db, q, a).Ok? <==> MayAccept(db, q.user, a)
  {
  }

  lemma ReviewMeans(db: Database, now: int, c: Caller, id: ArtifactId, digest: Digest, accept: bool, ifMatch: nat)
    ensures var r := ReviewArtifact(db, now, c, id, digest, accept, ifMatch);
            if MayReview(db, c, id, digest, accept, ifMatch)
            then r == Ok(Rewritten(db.evidence, id, db.evidence.artifacts[id].verification, if accept then Accepted else Rejected)) else r.Err?
  {
    AdmittedIff(db, now, c, BY_REVIEWER);
    var q := Admit(db, now, c, BY_REVIEWER);
    if q.Ok? && id in db.evidence.artifacts { DecidedIff(db, q.value, db.evidence, id, accept); }
  }

  // --- A task with its evidence ----------------------------------------------------------------

  /** The reviewer has seen the artifact as it is now, and it is of this Run. */
  ghost predicate Seen(e: Evidence, run: RunId, ref: Reviewed) {
    ref.artifact in e.artifacts && var a := e.artifacts[ref.artifact]; a.run == run && a.version == ref.version && a.digest == ref.digest
  }

  ghost predicate Acceptable(db: Database, user: UserId, a: Artifact) {
    a.verification == Verified && (a.acceptance == Accepted || (a.acceptance == Pending && MayAccept(db, user, a)))
  }

  /** Each artifact is named once, and seen as it is; to be accepted, each has been or may be accepted. */
  ghost predicate Presentable(db: Database, user: UserId, e: Evidence, run: RunId, accept: bool, refs: seq<Reviewed>) {
    && (forall i, j :: 0 <= i < j < |refs| ==> refs[i].artifact != refs[j].artifact)
    && (forall i :: 0 <= i < |refs| ==> Seen(e, run, refs[i]) && (accept ==> Acceptable(db, user, e.artifacts[refs[i].artifact])))
  }

  /** What was named and pending is accepted, nothing else changes. */
  ghost function AllAccepted(e: Evidence, accept: bool, refs: seq<Reviewed>): Evidence {
    e.(artifacts := map id | id in e.artifacts ::
         if accept && Names(refs, id) && e.artifacts[id].acceptance == Pending
         then e.artifacts[id].(acceptance := Accepted, version := e.artifacts[id].version + 1) else e.artifacts[id])
  }

  /** As much of a review as the artifact loop rests on. */
  ghost predicate UnderReview(db: Database, q: Request, run: RunId) {
    && ActiveMember(db.env, q.user) && q.roles == db.env.members[q.user].roles
    && run in db.execution.runs && db.execution.runs[run].status == RunSucceeded
    && db.execution.runs[run].task in db.execution.tasks && db.execution.tasks[db.execution.runs[run].task].status == InReview
  }

  lemma OneMeans(db: Database, q: Request, run: RunId, accept: bool, seen: set<ArtifactId>, ref: Reviewed, e: Evidence)
    requires UnderReview(db, q, run)
    ensures var r := ReviewOne(db, q, run, accept, seen, ref, e);
            if ref.artifact !in seen && Seen(e, run, ref) && (accept ==> Acceptable(db, q.user, e.artifacts[ref.artifact]))
            then r == Ok(AllAccepted(e, accept, [ref])) else r.Err?
  {
    if ref.artifact in e.artifacts {
      DecidedIff(db, q, e, ref.artifact, true);
      OneAccepted(e, accept, ref);
    }
  }

  lemma OneAccepted(e: Evidence, accept: bool, ref: Reviewed)
    requires ref.artifact in e.artifacts
    ensures AllAccepted(e, accept, [ref]) == if accept && e.artifacts[ref.artifact].acceptance == Pending
                                             then Rewritten(e, ref.artifact, e.artifacts[ref.artifact].verification, Accepted) else e
  {
    assert [ref][0].artifact == ref.artifact;
    var f := if accept && e.artifacts[ref.artifact].acceptance == Pending
             then Rewritten(e, ref.artifact, e.artifacts[ref.artifact].verification, Accepted) else e;
    assert AllAccepted(e, accept, [ref]).artifacts == f.artifacts;
  }

  lemma FirstThenRest(e: Evidence, accept: bool, refs: seq<Reviewed>)
    requires refs != [] && forall i, j :: 0 <= i < j < |refs| ==> refs[i].artifact != refs[j].artifact
    ensures AllAccepted(AllAccepted(e, accept, [refs[0]]), accept, refs[1..]) == AllAccepted(e, accept, refs)
  {
    var f := AllAccepted(e, accept, [refs[0]]);
    forall id ensures Names(refs, id) <==> Names([refs[0]], id) || Names(refs[1..], id) {
      if Names(refs, id) {
        var i :| 0 <= i < |refs| && refs[i].artifact == id;
        if i == 0 { assert [refs[0]][0].artifact == id; } else { assert refs[1..][i - 1].artifact == id; }
      }
      if Names([refs[0]], id) { assert refs[0].artifact == id; }
      if Names(refs[1..], id) {
        var i :| 0 <= i < |refs[1..]| && refs[1..][i].artifact == id;
        assert refs[i + 1].artifact == id;
      }
    }
  }

  /** The first reference leaves the others' artifacts as they are. */
  lemma RestPresentable(db: Database, user: UserId, e: Evidence, run: RunId, accept: bool, refs: seq<Reviewed>)
    requires refs != [] && forall i :: 0 < i < |refs| ==> refs[0].artifact != refs[i].artifact
    requires Seen(e, run, refs[0]) && (accept ==> Acceptable(db, user, e.artifacts[refs[0].artifact]))
    ensures Presentable(db, user, AllAccepted(e, accept, [refs[0]]), run, accept, refs[1..]) <==> Presentable(db, user, e, run, accept, refs)
  {
    var f, rest := AllAccepted(e, accept, [refs[0]]), refs[1..];
    assert forall i :: 0 <= i < |rest| ==> rest[i] == refs[i + 1];
    forall i | 0 < i < |refs| ensures Seen(f, run, refs[i]) <==> Seen(e, run, refs[i]) { Untouched(e, accept, refs[0], refs[i].artifact); }
    forall i | 0 < i < |refs| && Seen(e, run, refs[i]) ensures f.artifacts[refs[i].artifact] == e.artifacts[refs[i].artifact] {
      Untouched(e, accept, refs[0], refs[i].artifact);
    }
    if Presentable(db, user, f, run, accept, rest) {
      forall i, j | 0 <= i < j < |refs| ensures refs[i].artifact != refs[j].artifact { if i > 0 { assert rest[i - 1].artifact != rest[j - 1].artifact; } }
      forall i | 0 <= i < |refs| ensures Seen(e, run, refs[i]) && (accept ==> Acceptable(db, user, e.artifacts[refs[i].artifact])) {
        if i > 0 { assert Seen(f, run, rest[i - 1]); }
      }
    }
    if Presentable(db, user, e, run, accept, refs) {
      forall i | 0 <= i < |rest| ensures Seen(f, run, rest[i]) && (accept ==> Acceptable(db, user, f.artifacts[rest[i].artifact])) {
        assert Seen(e, run, refs[i + 1]);
      }
    }
  }

  lemma Untouched(e: Evidence, accept: bool, ref: Reviewed, id: ArtifactId)
    requires ref.artifact != id
    ensures var f := AllAccepted(e, accept, [ref]); (id in f.artifacts <==> id in e.artifacts) && (id in e.artifacts ==> f.artifacts[id] == e.artifacts[id])
  {
    assert !Names([ref], id);
  }

  /** The loop over the artifacts goes through exactly when they can be presented, and accepts exactly what was pending. */
  lemma {:induction false} LoopMeans(db: Database, q: Request, run: RunId, accept: bool, seen: set<ArtifactId>, refs: seq<Reviewed>, e: Evidence)
    requires UnderReview(db, q, run)
    ensures var r := ReviewAll(db, q, run, accept, seen, refs, e);
            if (forall i :: 0 <= i < |refs| ==> refs[i].artifact !in seen) && Presentable(db, q.user, e, run, accept, refs)
            then r == Ok(AllAccepted(e, accept, refs)) else r.Err?
    decreases |refs|
  {
    if refs == [] {
      assert AllAccepted(e, accept, refs) == e;
    } else {
      OneMeans(db, q, run, accept, seen, refs[0], e);
      var first := ReviewOne(db, q, run, accept, seen, refs[0], e);
      if first.Ok? {
        var more := seen + {refs[0].artifact};
        LoopMeans(db, q, run, accept, more, refs[1..], first.value);
        assert forall i :: 0 <= i < |refs[1..]| ==> refs[1..][i] == refs[i + 1];
        if forall i :: 0 < i < |refs| ==> refs[0].artifact != refs[i].artifact {
          RestPresentable(db, q.user, e, run, accept, refs);
          if Presentable(db, q.user, e, run, accept, refs) { FirstThenRest(e, accept, refs); }
          assert (forall i :: 0 <= i < |refs[1..]| ==> refs[1..][i].artifact !in more) <==> (forall i :: 0 < i < |refs| ==> refs[i].artifact !in seen);
        } else {
          var i :| 0 < i < |refs| && refs[0].artifact == refs[i].artifact;
          assert refs[1..][i - 1].artifact in more;
        }
      }
    }
  }

  /** The Owner, and nobody else, reviews the newest Run of a task that is up for review; to accept it, nothing of the Run may
      be unsettled, every acceptance criterion must be checked and met, and the evidence presentable. */
  ghost predicate MayConclude(db: Database, c: Caller, t: TaskId, run: RunId, refs: seq<Reviewed>, accept: bool, checks: seq<bool>, ifMatch: nat) {
    && Readiness.MemberActs(db, c) && t in db.execution.tasks && run in db.execution.runs
    && var task := db.execution.tasks[t];
       && task.owner == c.user && task.version == ifMatch && task.status == InReview
       && db.execution.runs[run].task == t && db.execution.runs[run].status == RunSucceeded
       && (forall r :: r in db.execution.runs && db.execution.runs[r].task == t ==> db.execution.runs[r].attempt <= db.execution.runs[run].attempt)
       && (accept ==>
             && (forall i :: i in db.tools.invocations && db.tools.invocations[i].run == run
                             ==> db.tools.invocations[i].status in {ToolSucceeded, ToolFailed, ToolCanceled})
             && |checks| == task.criteria && forall i :: 0 <= i < |checks| ==> checks[i])
       && Presentable(db, c.user, db.evidence, run, accept, refs)
  }

  ghost function Concluded(x: Execution, t: TaskId, accept: bool): Execution
    requires t in x.tasks
  {
    x.(tasks := x.tasks[t := x.tasks[t].(status := if accept then Done else Blocked, retry := false, version := x.tasks[t].version + 1)])
  }

  lemma NewestIff(x: Execution, t: TaskId, run: RunId)
    requires run in x.runs && x.runs[run].task == t
    ensures x.runs[run].attempt == LastAttempt(x.runs, t) <==>
            forall r :: r in x.runs && x.runs[r].task == t ==> x.runs[r].attempt <= x.runs[run].attempt
  {
    LastAttemptIsLast(x.runs, t);
  }

  lemma SettledIff(tools: Tools, run: RunId)
    ensures !HasUnsettled(tools, {run}) <==>
            forall i :: i in tools.invocations && tools.invocations[i].run == run ==> tools.invocations[i].status in {ToolSucceeded, ToolFailed, ToolCanceled}
  {
    forall i | i in tools.invocations { Guarantees.SettledMeans(tools.invocations[i].status); }
  }

  lemma ChecksIff(checks: seq<bool>)
    ensures false !in checks <==> forall i :: 0 <= i < |checks| ==> checks[i]
  {
  }

  lemma ConclusionMeans(db: Database, now: int, c: Caller, t: TaskId, run: RunId, refs: seq<Reviewed>, accept: bool, checks: seq<bool>, ifMatch: nat)
    ensures var r := ReviewTask(db, now, c, t, run, refs, accept, checks, ifMatch);
            if MayConclude(db, c, t, run, refs, accept, checks, ifMatch)
            then r == Ok(Verdict(Concluded(db.execution, t, accept), AllAccepted(db.evidence, accept, refs))) else r.Err?
  {
    AdmittedIff(db, now, c, BY_MEMBER);
    SettledIff(db.tools, run);
    ChecksIff(checks);
    var q := Admit(db, now, c, BY_MEMBER);
    if q.Ok? && t in db.execution.tasks && run in db.execution.runs && db.execution.runs[run].task == t {
      NewestIff(db.execution, t, run);
      if UnderReview(db, q.value, run) { LoopMeans(db, q.value, run, accept, {}, refs, db.evidence); }
    }
  }

  // --- Over every run ------------------------------------------------------------------------------

  ghost predicate ReviewStep(w: World, v: World, a: Action)
    requires a.DoVerify? || a.DoReviewArtifact? || a.DoReviewTask?
  {
    var x, e := w.db.execution, w.db.evidence;
    match a
    case DoVerify(c, id, ifMatch, provider) =>
      && v.db.execution == x
      && v.db.evidence == (if MayVerify(w.db, c, id, ifMatch, provider)
                           then Rewritten(e, id, if provider == Confirms then Verified else VerificationFailed, Pending) else e)
    case DoReviewArtifact(c, id, digest, accept, ifMatch) =>
      && v.db.execution == x
      && v.db.evidence == (if MayReview(w.db, c, id, digest, accept, ifMatch)
                           then Rewritten(e, id, e.artifacts[id].verification, if accept then Accepted else Rejected) else e)
    case DoReviewTask(c, t, run, refs, accept, checks, ifMatch) =>
      if MayConclude(w.db, c, t, run, refs, accept, checks, ifMatch)
      then v.db.execution == Concluded(x, t, accept) && v.db.evidence == AllAccepted(e, accept, refs)
      else v.db.execution == x && v.db.evidence == e
  }

  lemma ReviewStepMeans(w: World, a: Action)
    requires a.DoVerify? || a.DoReviewArtifact? || a.DoReviewTask?
    ensures ReviewStep(w, NextDelivery(w, a), a)
  {
    match a
    case DoVerify(c, id, ifMatch, provider) => VerificationMeans(w.db, w.now, c, id, ifMatch, provider);
    case DoReviewArtifact(c, id, digest, accept, ifMatch) => ReviewMeans(w.db, w.now, c, id, digest, accept, ifMatch);
    case DoReviewTask(c, t, run, refs, accept, checks, ifMatch) => ConclusionMeans(w.db, w.now, c, t, run, refs, accept, checks, ifMatch);
  }

  lemma NextIsDelivery(w: World, a: Action)
    requires DeliveryAction(a)
    ensures var v := NextDelivery(w, a); Next(w, a) == v.(used := w.used + NewIds(a))
  {
  }

  /** In every run a review is done exactly when it may be, and does exactly this: the provider's answer decides a
      verification, the reviewer's word an artifact, the Owner's word the task - which, accepted, takes with it exactly the
      pending artifacts that were named. Any other review changes nothing. */
  lemma EveryReview(states: seq<World>, actions: seq<Action>, k: nat)
    requires IsRun(states, actions) && k < |actions|
    requires var a := actions[k]; a.DoVerify? || a.DoReviewArtifact? || a.DoReviewTask?
    ensures ReviewStep(states[k], states[k + 1], actions[k])
  {
    assert StepsAt(states, actions, k);
    NextIsDelivery(states[k], actions[k]);
    ReviewStepMeans(states[k], actions[k]);
  }
}
