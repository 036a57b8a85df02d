/** No task runs, or waits to run, unless its Owner or an administrator said so since the last restore. */
module Mandates {
  import opened Options
  import opened Tables
  import opened TaskFlow
  import opened ControlPlane
  import opened TaskSafety
  import opened Readiness
  import I = Invariants
  import Histories
  import Operators
  import Reviews
  import RunWrites
  import TaskWrites

  /** It runs, may be claimed, or will be woken by the worker. */
  ghost predicate Awake(x: Execution, t: TaskId) {
    t in x.tasks && (x.tasks[t].status == Ready || x.tasks[t].status == Running || (x.tasks[t].status == Blocked && x.tasks[t].retry))
  }

  /** A command by someone who may authorise the task. */
  ghost predicate Commands(w: World, a: Action, t: TaskId) {
    a.DoCommand? && a.task == t && a.command in {Submit, Retry} && MayAuthorise(w.db, a.caller, t, a.command, a.ifMatch)
  }

  ghost predicate Restores(w: World, a: Action) { a.RestoreBackup? && a.index < |w.backups| }

  // --- One step ---------------------------------------------------------------------------

  lemma RunningBefore(x: Execution, r: RunId)
    requires Sound(x) && r in x.runs && x.runs[r].status == RunRunning
    ensures Awake(x, x.runs[r].task)
  {
  }

  lemma WorkWakes(w: World, v: World, a: Action, t: TaskId)
    requires a.DoClaim? || (a.DoCommand? && a.command in {Submit, Retry}) || a.WorkerReconciles?
    requires Sound(w.db.execution) && WorkStep(w, v, a) && Awake(v.db.execution, t)
    ensures Awake(w.db.execution, t) || Commands(w, a, t)
  {
    if a.WorkerReconciles? && LosesRun(w.db, w.now, t) {
      var r :| r in w.db.execution.runs && w.db.execution.runs[r].task == t && Lapsed(w.db, w.now, r);
      RunningBefore(w.db.execution, r);
    }
  }

  lemma InputsWake(w: World, v: World, a: Action, t: TaskId)
    requires a.DoCreateTask? || a.DoEditTask? || a.DoTransferTask? || a.DoAssignTask? || a.DoAddDependency? || a.DoRemoveDependency?
             || (a.DoCommand? && a.command !in {Submit, Retry})
    requires TaskWrites.TaskStep(w, v, a) && Awake(v.db.execution, t)
    ensures Awake(w.db.execution, t)
  {
  }

  lemma RunWritesWake(w: World, v: World, a: Action, t: TaskId)
    requires a.DoHeartbeat? || a.DoReport? || a.DoUpload? || a.DoRegister?
    requires Sound(w.db.execution) && RunWrites.WriteStep(w, v, a) && Awake(v.db.execution, t)
    ensures Awake(w.db.execution, t)
  {
    if (a.DoHeartbeat? || a.DoReport?) && a.run in w.db.execution.runs && w.db.execution.runs[a.run].status == RunRunning {
      RunningBefore(w.db.execution, a.run);
    }
  }

  lemma ReviewsWake(w: World, v: World, a: Action, t: TaskId)
    requires a.DoVerify? || a.DoReviewArtifact? || a.DoReviewTask?
    requires Reviews.ReviewStep(w, v, a) && Awake(v.db.execution, t)
    ensures Awake(w.db.execution, t)
  {
  }

  lemma RestoreWakesNothing(w: World, v: World, a: Action, t: TaskId)
    requires Restores(w, a) && Operators.OperatorStep(w, v, a)
    ensures !Awake(v.db.execution, t)
  {
  }

  lemma TaskStepWakes(states: seq<World>, actions: seq<Action>, k: nat, t: TaskId)
    requires IsRun(states, actions) && k < |actions| && TaskAction(actions[k]) && Awake(states[k + 1].db.execution, t)
    ensures Awake(states[k].db.execution, t) || Commands(states[k], actions[k], t)
  {
    var w, v, a := states[k], states[k + 1], actions[k];
    RunFounded(states, actions, k);
    if a.DoClaim? || (a.DoCommand? && a.command in {Submit, Retry}) || a.WorkerReconciles? {
      EveryWorkStep(states, actions, k);
      WorkWakes(w, v, a, t);
    } else if a.DoHeartbeat? || a.DoReport? {
      RunWrites.EveryRunWrite(states, actions, k);
      RunWritesWake(w, v, a, t);
    } else {
      TaskWrites.EveryTaskWrite(states, actions, k);
      InputsWake(w, v, a, t);
    }
  }

  lemma DeliveryStepWakes(states: seq<World>, actions: seq<Action>, k: nat, t: TaskId)
    requires IsRun(states, actions) && k < |actions| && DeliveryAction(actions[k]) && Awake(states[k + 1].db.execution, t)
    ensures Awake(states[k].db.execution, t)
  {
    var w, v, a := states[k], states[k + 1], actions[k];
    RunFounded(states, actions, k);
    if a.DoUpload? || a.DoRegister? {
      RunWrites.EveryRunWrite(states, actions, k);
      RunWritesWake(w, v, a, t);
    } else {
      Reviews.EveryReview(states, actions, k);
      ReviewsWake(w, v, a, t);
    }
  }

  lemma OthersLeaveWork(w: World, a: Action)
    requires !TaskAction(a) && !DeliveryAction(a) && !Restores(w, a)
    ensures Next(w, a).db.execution == w.db.execution
  {
    if ToolAction(a) { I.ToolStepFrame(w, a); } else { Histories.OthersLeaveRows(w, a); }
  }

  lemma OtherStepWakes(states: seq<World>, actions: seq<Action>, k: nat, t: TaskId)
    requires IsRun(states, actions) && k < |actions| && !TaskAction(actions[k]) && !DeliveryAction(actions[k]) && Awake(states[k + 1].db.execution, t)
    ensures Awake(states[k].db.execution, t) && !Restores(states[k], actions[k])
  {
    if Restores(states[k], actions[k]) {
      Operators.EveryOperatorStep(states, actions, k);
      RestoreWakesNothing(states[k], states[k + 1], actions[k], t);
    } else {
      assert StepsAt(states, actions, k);
      OthersLeaveWork(states[k], actions[k]);
    }
  }

  lemma StepWakes(states: seq<World>, actions: seq<Action>, k: nat, t: TaskId)
    requires IsRun(states, actions) && k < |actions| && Awake(states[k + 1].db.execution, t)
    ensures !Restores(states[k], actions[k]) && (Awake(states[k].db.execution, t) || Commands(states[k], actions[k], t))
  {
    if TaskAction(actions[k]) {
      TaskStepWakes(states, actions, k, t);
    } else if DeliveryAction(actions[k]) {
      DeliveryStepWakes(states, actions, k, t);
    } else {
      OtherStepWakes(states, actions, k, t);
    }
  }

  // --- Every run ------------------------------------------------------------------------------

  lemma NothingAwakeYet(states: seq<World>, actions: seq<Action>, t: TaskId)
    requires IsRun(states, actions)
    ensures !Awake(states[0].db.execution, t)
  {
  }

  /** A task that runs, may be claimed or will be woken was submitted or retried by someone who might, and no backup has been
      restored since: what a restore brings back does nothing until people command it again. */
  lemma {:induction false} AwakeWasCommanded(states: seq<World>, actions: seq<Action>, k: nat, t: TaskId) returns (j: nat)
    requires IsRun(states, actions) && k < |states| && Awake(states[k].db.execution, t)
    ensures j < k && Commands(states[j], actions[j], t) && forall m :: j < m < k ==> !Restores(states[m], actions[m])
    decreases k
  {
    if k == 0 {
      NothingAwakeYet(states, actions, t);
    } else {
      StepWakes(states, actions, k - 1, t);
      if Commands(states[k - 1], actions[k - 1], t) { j := k - 1; } else { j := AwakeWasCommanded(states, actions, k - 1, t); }
    }
  }
}
