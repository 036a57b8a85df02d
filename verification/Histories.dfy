/** What the rows of every run say about its past, and what each call, decision and lookup of a run does. */
module Histories {
  import opened Options
  import opened Tables
  import opened Access
  import opened TaskFlow
  import opened Governance
  import opened Delivery
  import opened Recovery
  import opened ControlPlane
  import opened TaskSafety
  import opened ToolSafety
  import opened ApprovalSafety
  import opened EvidenceSafety
  import opened Causes
  import opened Verdicts
  import I = Invariants
  import Guarantees

  // --- The rows of every run are true ------------------------------------------------------

  lemma TaskStepKeepsRuns(w: World, a: Action)
    requires TaskAction(a) && Sound(w.db.execution) && Drawn(w.db, w.used) && Possible(w, a)
    ensures var x, y := w.db.execution, NextTask(w, a).db.execution;
            forall r :: r in x.runs && r in y.runs ==> y.runs[r].task == x.runs[r].task
  {
    I.TaskStepKeeps(w, a);
    var x, y := w.db.execution, NextTask(w, a).db.execution;
    forall r | r in x.runs && r in y.runs ensures y.runs[r].task == x.runs[r].task { assert RunKept(x.runs[r], y.runs[r]); }
  }

  lemma TaskGroupTrue(w: World, acts: seq<Action>, a: Action)
    requires TaskAction(a) && WorkTrue(acts, w.db.execution) && Sound(w.db.execution) && Drawn(w.db, w.used) && Possible(w, a)
    ensures WorkTrue(acts + [a], NextTask(w, a).db.execution)
  {
    TaskStepMoves(w, a);
    TaskStepKeepsRuns(w, a);
    MovesStayTrue(acts, a, w.db.execution, NextTask(w, a).db.execution);
  }

  lemma DeliveryGroupTrue(w: World, acts: seq<Action>, a: Action)
    requires DeliveryAction(a) && WorkTrue(acts, w.db.execution) && EvidenceTrue(acts, w.db.evidence) && Drawn(w.db, w.used) && Possible(w, a)
    ensures WorkTrue(acts + [a], NextDelivery(w, a).db.execution) && EvidenceTrue(acts + [a], NextDelivery(w, a).db.evidence)
  {
    I.DeliveryStepMoves(w, a);
    EvidenceStepMoves(w, a);
    EvidenceMovesStayTrue(acts, a, w.db.evidence, NextDelivery(w, a).db.evidence);
    if a.DoReviewTask? {
      ReviewMoves(w, a);
    } else {
      I.OnlyReviewsMoveTasks(w, a);
      NothingMoves(a, w.now, w.db.execution);
    }
    MovesStayTrue(acts, a, w.db.execution, NextDelivery(w, a).db.execution);
  }

  lemma QuarantineTrue(acts: seq<Action>, calls: seq<Call>, db: Database, a: Action)
    requires RowsTrue(acts, calls, db) && a.RestoreBackup?
    ensures RowsTrue(acts + [a], calls, Quarantine(db))
  {
    QuarantineMoves(db, a);
    MovesStayTrue(acts, a, db.execution, Quarantine(db).execution);
    EvidenceStaysTrue(acts, acts + [a], db.evidence);
    ToolsStayTrue(acts, acts + [a], calls, calls, db.tools);
    RewriteStaysTrue(acts + [a], calls, db.tools, Quarantine(db).tools);
  }

  lemma RowsStayTrue(acts: seq<Action>, later: seq<Action>, calls: seq<Call>, more: seq<Call>, db: Database)
    requires Longer(acts, later, calls, more) && RowsTrue(acts, calls, db)
    ensures RowsTrue(later, more, db)
  {
    ToolsStayTrue(acts, later, calls, more, db.tools);
    WorkStaysTrue(acts, later, db.execution);
    EvidenceStaysTrue(acts, later, db.evidence);
  }

  lemma BackupsStayTrue(acts: seq<Action>, later: seq<Action>, w: World, v: World)
    requires AllTrue(acts, w) && Longer(acts, later, w.calls, v.calls) && v.backups in {w.backups, w.backups + [w.db]}
    ensures forall k :: 0 <= k < |v.backups| ==> RowsTrue(later, v.calls, v.backups[k])
  {
    forall k | 0 <= k < |v.backups| ensures RowsTrue(later, v.calls, v.backups[k]) {
      if k < |w.backups| { RowsStayTrue(acts, later, w.calls, v.calls, w.backups[k]); } else { RowsStayTrue(acts, later, w.calls, v.calls, w.db); }
    }
  }

  /** A step of the groups that leave the backups alone. */
  lemma TaskStepTrue(w: World, acts: seq<Action>, a: Action)
    requires TaskAction(a) && AllTrue(acts, w) && Sound(w.db.execution) && Drawn(w.db, w.used) && Possible(w, a)
    ensures AllTrue(acts + [a], NextTask(w, a))
  {
    I.TaskStepFrame(w, a);
    RowsStayTrue(acts, acts + [a], w.calls, w.calls, w.db);
    TaskGroupTrue(w, acts, a);
    BackupsStayTrue(acts, acts + [a], w, NextTask(w, a));
  }

  lemma DeliveryStepTrue(w: World, acts: seq<Action>, a: Action)
    requires DeliveryAction(a) && AllTrue(acts, w) && Drawn(w.db, w.used) && Possible(w, a)
    ensures AllTrue(acts + [a], NextDelivery(w, a))
  {
    I.DeliveryStepMoves(w, a);
    RowsStayTrue(acts, acts + [a], w.calls, w.calls, w.db);
    DeliveryGroupTrue(w, acts, a);
    BackupsStayTrue(acts, acts + [a], w, NextDelivery(w, a));
  }

  lemma ToolGroupTrue(w: World, acts: seq<Action>, a: Action)
    requires ToolAction(a) && AllTrue(acts, w) && NotYetCalled(w.db.tools, w.calls) && AllHonest(w.db.tools, w.calls)
    ensures AllTrue(acts + [a], NextTool(w, a))
  {
    var v := NextTool(w, a);
    I.ToolStepFrame(w, a);
    RowsStayTrue(acts, acts + [a], w.calls, w.calls, w.db);
    ToolStepTrue(w, acts + [a], a);
    CallsGrow(w, a);
    BackupsStayTrue(acts, acts + [a], w, v);
  }

  lemma CallsGrow(w: World, a: Action)
    requires ToolAction(a)
    ensures w.calls <= NextTool(w, a).calls
  {
    if !a.WorkerPerforms? { I.OnlyPerformanceCalls(w, a); }
  }

  lemma OtherStepTrue(w: World, acts: seq<Action>, a: Action)
    requires !TaskAction(a) && !DeliveryAction(a) && !ToolAction(a) && AllTrue(acts, w)
    ensures AllTrue(acts + [a], NextOther(w, a))
  {
    var v := NextOther(w, a);
    RowsStayTrue(acts, acts + [a], w.calls, w.calls, w.db);
    OthersLeaveRows(w, a);
    BackupsStayTrue(acts, acts + [a], w, v);
    if a.RestoreBackup? && a.index < |w.backups| { QuarantineTrue(acts, w.calls, w.backups[a.index], a); }
  }

  lemma OthersLeaveRows(w: World, a: Action)
    requires !TaskAction(a) && !DeliveryAction(a) && !ToolAction(a)
    ensures var v := NextOther(w, a);
            && v.calls == w.calls && v.backups in {w.backups, w.backups + [w.db]}
            && (if a.RestoreBackup? && a.index < |w.backups| then v.db == Quarantine(w.backups[a.index])
                else v.db.execution == w.db.execution && v.db.evidence == w.db.evidence && v.db.tools == w.db.tools)
  {
  }

  lemma UsedIsNoMatter(acts: seq<Action>, w: World, v: World)
    requires AllTrue(acts, w) && v.db == w.db && v.calls == w.calls && v.backups == w.backups
    ensures AllTrue(acts, v)
  {
  }

  /** As much of the invariants as a true step rests on. */
  ghost predicate Grounded(w: World) {
    Sound(w.db.execution) && Drawn(w.db, w.used) && NotYetCalled(w.db.tools, w.calls) && AllHonest(w.db.tools, w.calls)
  }

  lemma RunGrounded(states: seq<World>, actions: seq<Action>, k: nat)
    requires IsRun(states, actions) && k < |states|
    ensures Grounded(states[k])
  {
    I.RunOrderly(states, actions, k);
    RunAccounted(states, actions, k);
  }

  lemma StepTrue(w: World, acts: seq<Action>, a: Action)
    requires AllTrue(acts, w) && Grounded(w) && Possible(w, a)
    ensures AllTrue(acts + [a], Next(w, a))
  {
    if TaskAction(a) {
      TaskStepTrue(w, acts, a);
      UsedIsNoMatter(acts + [a], NextTask(w, a), Next(w, a));
    } else if DeliveryAction(a) {
      DeliveryStepTrue(w, acts, a);
      UsedIsNoMatter(acts + [a], NextDelivery(w, a), Next(w, a));
    } else if ToolAction(a) {
      ToolGroupTrue(w, acts, a);
      UsedIsNoMatter(acts + [a], NextTool(w, a), Next(w, a));
    } else {
      OtherStepTrue(w, acts, a);
      UsedIsNoMatter(acts + [a], NextOther(w, a), Next(w, a));
    }
  }

  lemma FreshTrue(w: World)
    requires Fresh(w)
    ensures AllTrue([], w)
  {
  }

  lemma StepTrueAt(states: seq<World>, actions: seq<Action>, k: nat, acts: seq<Action>)
    requires IsRun(states, actions) && k < |actions| && AllTrue(acts, states[k])
    ensures AllTrue(acts + [actions[k]], states[k + 1])
  {
    RunGrounded(states, actions, k);
    assert StepsAt(states, actions, k);
    StepTrue(states[k], acts, actions[k]);
  }

  lemma TrueAt(states: seq<World>, actions: seq<Action>, k: nat, next: nat)
    requires IsRun(states, actions) && k < |actions| && next == k + 1 && AllTrue(actions[..k], states[k])
    ensures AllTrue(actions[..next], states[next])
  {
    StepTrueAt(states, actions, k, actions[..k]);
    assert actions[..next] == actions[..k] + [actions[k]];
  }

  lemma {:induction false} RunTrueThroughout(states: seq<World>, actions: seq<Action>, k: nat)
    requires IsRun(states, actions) && k < |states|
    ensures AllTrue(actions[..k], states[k])
  {
    if k == 0 {
      FreshTrue(states[0]);
      assert actions[..0] == [];
    } else {
      RunTrueThroughout(states, actions, k - 1);
      TrueAt(states, actions, k - 1, k);
    }
  }

  /** In every state of every run, restores included, the rows tell the truth: APPROVED and DECLINED were decided so, on
      that exact binding, by the person on record; a success without an error was answered by its call, and all other
      outcomes were found by lookup; DONE was accepted, CANCELED cancelled, an ended Run reported, cancelled or lost, as
      it says; and an artifact is accepted, rejected, verified or refuted only because someone did so. */
  lemma RowsAreTrue(states: seq<World>, actions: seq<Action>, k: nat)
    requires IsRun(states, actions) && k < |states|
    ensures RowsTrue(actions[..k], states[k].calls, states[k].db)
  {
    RunTrueThroughout(states, actions, k);
  }

  // --- Every change has its cause -----------------------------------------------------------

  /** Standing changes only for its reasons, and whoever gives a reason gets the change. */
  ghost predicate Caused(a: Action, now: int, x: Database, y: Database) {
    && ExecutionMoves(a, x.execution, y.execution) && Effective(a, now, x.execution, y.execution)
    && EvidenceMoved(a, x.evidence, y.evidence) && EvidenceEffective(a, x.evidence, y.evidence)
  }

  /** What a step starts from: the database, or the backup that it restores. */
  ghost function Start(w: World, a: Action): Database { if a.RestoreBackup? && a.index < |w.backups| then w.backups[a.index] else w.db }

  lemma EvidenceStands(a: Action, e: Evidence)
    ensures EvidenceMoved(a, e, e) && EvidenceEffective(a, e, e)
  {
  }

  lemma TaskStepCaused(w: World, a: Action, y: Database)
    requires TaskAction(a) && y == NextTask(w, a).db
    ensures Caused(a, w.now, w.db, y)
  {
    I.TaskStepFrame(w, a);
    TaskStepMoves(w, a);
    EvidenceStands(a, w.db.evidence);
  }

  lemma DeliveryStepCaused(w: World, a: Action, y: Database)
    requires DeliveryAction(a) && y == NextDelivery(w, a).db
    ensures Caused(a, w.now, w.db, y)
  {
    EvidenceStepMoves(w, a);
    if a.DoReviewTask? {
      ReviewMoves(w, a);
    } else {
      I.OnlyReviewsMoveTasks(w, a);
      NothingMoves(a, w.now, w.db.execution);
    }
  }

  lemma ToolStepCaused(w: World, a: Action, y: Database)
    requires ToolAction(a) && y == NextTool(w, a).db
    ensures Caused(a, w.now, w.db, y)
  {
    I.ToolStepFrame(w, a);
    NothingMoves(a, w.now, w.db.execution);
    EvidenceStands(a, w.db.evidence);
  }

  lemma OtherStepCaused(w: World, a: Action, y: Database)
    requires !TaskAction(a) && !DeliveryAction(a) && !ToolAction(a) && y == NextOther(w, a).db
    ensures Caused(a, w.now, Start(w, a), y)
  {
    OthersLeaveRows(w, a);
    if a.RestoreBackup? && a.index < |w.backups| {
      QuarantineCaused(w.backups[a.index], w.now, a);
    } else {
      NothingMoves(a, w.now, w.db.execution);
      EvidenceStands(a, w.db.evidence);
    }
  }

  lemma QuarantineCaused(db: Database, now: int, a: Action)
    requires a.RestoreBackup?
    ensures Caused(a, now, db, Quarantine(db))
  {
    QuarantineMoves(db, a);
    EvidenceStands(a, db.evidence);
  }

  lemma GroupCaused(w: World, a: Action, y: Database)
    requires y == (if TaskAction(a) then NextTask(w, a) else if DeliveryAction(a) then NextDelivery(w, a)
                   else if ToolAction(a) then NextTool(w, a) else NextOther(w, a)).db
    requires a.RestoreBackup? ==> !TaskAction(a) && !DeliveryAction(a) && !ToolAction(a)
    ensures Caused(a, w.now, Start(w, a), y)
  {
    if TaskAction(a) {
      TaskStepCaused(w, a, y);
    } else if DeliveryAction(a) {
      DeliveryStepCaused(w, a, y);
    } else if ToolAction(a) {
      ToolStepCaused(w, a, y);
    } else {
      OtherStepCaused(w, a, y);
    }
  }

  lemma StepCaused(w: World, a: Action)
    ensures Caused(a, w.now, Start(w, a), Next(w, a).db)
  {
    GroupCaused(w, a, Next(w, a).db);
  }

  /** Over every run, each step moves tasks, Runs and artifacts only as its action may, and moves those that its action
      decides; a restore starts from the backup. */
  lemma EveryMoveHasItsCause(states: seq<World>, actions: seq<Action>, k: nat)
    requires IsRun(states, actions) && k < |actions|
    ensures Caused(actions[k], states[k].now, Start(states[k], actions[k]), states[k + 1].db)
  {
    assert StepsAt(states, actions, k);
    StepCaused(states[k], actions[k]);
  }
}
