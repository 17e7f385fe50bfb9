/** The failover workflows: the lists of tasks, the engine that runs them, and the
    effects their documentation gives them. */
module Workflow {
  import opened Records

  datatype Action = Enable | Disable | Transition

  datatype Task =
    | ValidateFailover | AcquireLock
    | UpdateNetworkResources(action: Action)
    | ScaleDownWorkloads | DisableFluxReconciliation | WaitForWorkloadsScaledDown
    | DemoteVolumes | WaitForVolumesDemoted
    | MarkVolumesReadyForPromotion | WaitForVolumesReadyForPromotion
    | PromoteVolumes | WaitForVolumesPromoted | VerifyDataAvailability
    | ScaleUpWorkloads | TriggerFluxReconciliation | WaitForTargetReady
    | MarkTargetReadyForTraffic | WaitForTargetReadyForTraffic
    | MarkTrafficTransitionComplete | WaitForTrafficTransitionComplete
    | UpdateGlobalState | RecordFailoverHistory | ReleaseLock

  datatype Mode = CONSISTENCY | UPTIME

  // ---- the lists ----

  const INITIALIZATION := [ValidateFailover, AcquireLock]
  const COMPLETION := [UpdateGlobalState, RecordFailoverHistory, ReleaseLock]

  const CONSISTENCY_SOURCE := [
    UpdateNetworkResources(Disable), ScaleDownWorkloads, DisableFluxReconciliation, WaitForWorkloadsScaledDown,
    DemoteVolumes, WaitForVolumesDemoted, MarkVolumesReadyForPromotion]

  const CONSISTENCY_TARGET := [
    WaitForVolumesReadyForPromotion, PromoteVolumes, WaitForVolumesPromoted, VerifyDataAvailability,
    ScaleUpWorkloads, TriggerFluxReconciliation, WaitForTargetReady, UpdateNetworkResources(Enable)]

  function UptimeTarget(action: Action): seq<Task> {
    [PromoteVolumes, WaitForVolumesPromoted, VerifyDataAvailability,
     ScaleUpWorkloads, TriggerFluxReconciliation, WaitForTargetReady, MarkTargetReadyForTraffic,
     WaitForTargetReadyForTraffic, UpdateNetworkResources(action), MarkTrafficTransitionComplete]
  }

  const UPTIME_SOURCE := [
    WaitForTrafficTransitionComplete,
    UpdateNetworkResources(Disable), ScaleDownWorkloads, DisableFluxReconciliation, WaitForWorkloadsScaledDown,
    DemoteVolumes, WaitForVolumesDemoted]

  /** The source is shut down before the target is activated. */
  const CONSISTENCY_TASKS: seq<Task> := INITIALIZATION + CONSISTENCY_SOURCE + CONSISTENCY_TARGET + COMPLETION

  /** The target serves before the source is shut down. */
  const UPTIME_TASKS: seq<Task> := INITIALIZATION + UptimeTarget(Transition) + UPTIME_SOURCE + COMPLETION

  /** The adapter's list: everything, on one cluster. */
  function AdapterTasks(mode: Mode): seq<Task> {
    if mode == UPTIME then UPTIME_TASKS else CONSISTENCY_TASKS
  }

  /** The cluster a task belongs to. */
  predicate OnSource(t: Task) {
    || t == UpdateNetworkResources(Disable) || t.ScaleDownWorkloads? || t.DisableFluxReconciliation?
    || t.WaitForWorkloadsScaledDown? || t.DemoteVolumes? || t.WaitForVolumesDemoted?
    || t.MarkVolumesReadyForPromotion? || t.WaitForTrafficTransitionComplete?
  }

  predicate OnBoth(t: Task) {
    || t.ValidateFailover? || t.AcquireLock? || t.UpdateGlobalState? || t.RecordFailoverHistory? || t.ReleaseLock?
  }

  predicate Concerns(t: Task, isSource: bool, isTarget: bool) {
    OnBoth(t) || if OnSource(t) then isSource else isTarget
  }

  /** A cluster's part of a list: a cluster that is not the source skips the source's
      tasks, and likewise for the target. */
  function Projection(tasks: seq<Task>, isSource: bool, isTarget: bool): seq<Task> {
    if tasks == [] then []
    else
      var t := tasks[0];
      var rest := Projection(tasks[1..], isSource, isTarget);
      if Concerns(t, isSource, isTarget)
      then [if t == UpdateNetworkResources(Transition) then UpdateNetworkResources(Enable) else t] + rest
      else rest
  }

  /** The tasks of a workflow's stages, in order. */
  function TasksOf(stages: seq<seq<Task>>): seq<Task> {
    if stages == [] then [] else stages[0] + TasksOf(stages[1..])
  }

  lemma {:induction false} TasksOfAppend(stages: seq<seq<Task>>, stage: seq<Task>)
    ensures TasksOf(stages + [stage]) == TasksOf(stages) + stage
  {
    if stages == [] {
      assert stages + [stage] == [stage];
    } else {
      assert (stages + [stage])[1..] == stages[1..] + [stage];
      TasksOfAppend(stages[1..], stage);
    }
  }

  lemma {:induction false} ProjectionAppend(s: seq<Task>, s': seq<Task>, isSource: bool, isTarget: bool)
    ensures Projection(s + s', isSource, isTarget)
            == Projection(s, isSource, isTarget) + Projection(s', isSource, isTarget)
  {
    if s == [] {
      assert s + s' == s';
    } else {
      assert (s + s')[1..] == s[1..] + s';
      ProjectionAppend(s[1..], s', isSource, isTarget);
    }
  }

  /** Every task is the source's, or every task is the target's or, for None, everybody's. */
  predicate AllOn(s: seq<Task>, side: Option<bool>) {
    forall i :: 0 <= i < |s| ==>
      && (if side.None? then OnBoth(s[i]) else !OnBoth(s[i]) && OnSource(s[i]) == side.value)
      && s[i] != UpdateNetworkResources(Transition)
  }

  /** A stretch of one cluster's tasks is kept or skipped as a whole. */
  lemma {:induction false} OneSide(s: seq<Task>, side: Option<bool>, isSource: bool, isTarget: bool)
    requires AllOn(s, side)
    ensures Projection(s, isSource, isTarget)
         == if side.None? || (if side.value then isSource else isTarget) then s else []
  {
    if s != [] {
      OneSide(s[1..], side, isSource, isTarget);
    }
  }

  lemma Sides()
    ensures AllOn(INITIALIZATION, None) && AllOn(COMPLETION, None)
    ensures AllOn(CONSISTENCY_SOURCE, Some(true)) && AllOn(UPTIME_SOURCE, Some(true))
  {
  }

  lemma TargetSide()
    ensures AllOn(CONSISTENCY_TARGET, Some(false)) && AllOn(TARGET_READY, Some(false))
  {
  }

  lemma FourParts(a: seq<Task>, b: seq<Task>, c: seq<Task>, d: seq<Task>, isSource: bool, isTarget: bool)
    ensures Projection(a + b + c + d, isSource, isTarget)
         == Projection(a, isSource, isTarget) + Projection(b, isSource, isTarget)
            + Projection(c, isSource, isTarget) + Projection(d, isSource, isTarget)
  {
    ProjectionAppend(a + b + c, d, isSource, isTarget);
    ProjectionAppend(a + b, c, isSource, isTarget);
    ProjectionAppend(a, b, isSource, isTarget);
  }

  lemma FourSides(a: seq<Task>, b: seq<Task>, sideB: bool, c: seq<Task>, sideC: bool, d: seq<Task>, isSource: bool,
                  isTarget: bool)
    requires AllOn(a, None) && AllOn(b, Some(sideB)) && AllOn(c, Some(sideC)) && AllOn(d, None)
    ensures Projection(a + b + c + d, isSource, isTarget)
         == a + (if (if sideB then isSource else isTarget) then b else [])
              + (if (if sideC then isSource else isTarget) then c else []) + d
  {
    FourParts(a, b, c, d, isSource, isTarget);
    OneSide(a, None, isSource, isTarget);
    OneSide(b, Some(sideB), isSource, isTarget);
    OneSide(c, Some(sideC), isSource, isTarget);
    OneSide(d, None, isSource, isTarget);
  }

  lemma ConsistencyProjection(isSource: bool, isTarget: bool)
    ensures Projection(CONSISTENCY_TASKS, isSource, isTarget)
         == INITIALIZATION + (if isSource then CONSISTENCY_SOURCE else [])
            + (if isTarget then CONSISTENCY_TARGET else []) + COMPLETION
  {
    Sides();
    TargetSide();
    FourSides(INITIALIZATION, CONSISTENCY_SOURCE, true, CONSISTENCY_TARGET, false, COMPLETION, isSource, isTarget);
  }

  /** The target's part of the uptime list, up to the switch of the traffic. */
  const TARGET_READY := [
    PromoteVolumes, WaitForVolumesPromoted, VerifyDataAvailability,
    ScaleUpWorkloads, TriggerFluxReconciliation, WaitForTargetReady,
    MarkTargetReadyForTraffic, WaitForTargetReadyForTraffic]

  lemma TransitionProjection(isSource: bool, isTarget: bool)
    ensures Projection(UptimeTarget(Transition), isSource, isTarget) == if isTarget then UptimeTarget(Enable) else []
  {
    TargetSide();
    var after := [MarkTrafficTransitionComplete];
    OneSide(TARGET_READY, Some(false), isSource, isTarget);
    OneSide(after, Some(false), isSource, isTarget);
    SwitchProjection(TARGET_READY, after, isSource, isTarget);
    UptimeTargetParts(Transition);
    UptimeTargetParts(Enable);
  }

  lemma UptimeTargetParts(action: Action)
    ensures UptimeTarget(action) == TARGET_READY + [UpdateNetworkResources(action)] + [MarkTrafficTransitionComplete]
  {
  }

  lemma SwitchProjection(before: seq<Task>, after: seq<Task>, isSource: bool, isTarget: bool)
    ensures Projection(before + [UpdateNetworkResources(Transition)] + after, isSource, isTarget)
         == Projection(before, isSource, isTarget) + (if isTarget then [UpdateNetworkResources(Enable)] else [])
            + Projection(after, isSource, isTarget)
  {
    var switch := [UpdateNetworkResources(Transition)];
    FourParts(before, switch, after, [], isSource, isTarget);
    assert before + switch + after + [] == before + switch + after;
    assert switch[1..] == [];
  }

  lemma UptimeProjection(isSource: bool, isTarget: bool)
    ensures Projection(UPTIME_TASKS, isSource, isTarget)
         == INITIALIZATION + (if isTarget then UptimeTarget(Enable) else [])
            + (if isSource then UPTIME_SOURCE else []) + COMPLETION
  {
    Sides();
    FourParts(INITIALIZATION, UptimeTarget(Transition), UPTIME_SOURCE, COMPLETION, isSource, isTarget);
    OneSide(INITIALIZATION, None, isSource, isTarget);
    OneSide(COMPLETION, None, isSource, isTarget);
    OneSide(UPTIME_SOURCE, Some(true), isSource, isTarget);
    TransitionProjection(isSource, isTarget);
  }

  // ---- the factory ----

  class Factory {
    const isSource: bool
    const isTarget: bool
    var stages: seq<seq<Task>>

    constructor (isSource: bool, isTarget: bool)
      ensures this.isSource == isSource && this.isTarget == isTarget && stages == []
    {
      this.isSource, this.isTarget, stages := isSource, isTarget, [];
    }

    method Append(stage: seq<Task>)
      modifies this
      ensures stages == old(stages) + [stage]
      ensures TasksOf(stages) == TasksOf(old(stages)) + stage
    {
      TasksOfAppend(stages, stage);
      stages := stages + [stage];
    }

    /** The factory appends the stages that concern its cluster: the workflow is the
        cluster's part of the adapter's list. */
    method CreateConsistencyModeWorkflow()
      modifies this
      ensures TasksOf(stages) == Projection(CONSISTENCY_TASKS, isSource, isTarget)
    {
      ConsistencyProjection(isSource, isTarget);
      stages := [];
      Append([ValidateFailover, AcquireLock]);
      if isSource {
        Append([UpdateNetworkResources(Disable), ScaleDownWorkloads,
                DisableFluxReconciliation, WaitForWorkloadsScaledDown]);
        Append([DemoteVolumes, WaitForVolumesDemoted, MarkVolumesReadyForPromotion]);
      }
      if isTarget {
        Append([WaitForVolumesReadyForPromotion, PromoteVolumes, WaitForVolumesPromoted, VerifyDataAvailability]);
        Append([ScaleUpWorkloads, TriggerFluxReconciliation, WaitForTargetReady, UpdateNetworkResources(Enable)]);
      }
      Append([UpdateGlobalState, RecordFailoverHistory, ReleaseLock]);
    }

    method CreateUptimeModeWorkflow()
      modifies this
      ensures TasksOf(stages) == Projection(UPTIME_TASKS, isSource, isTarget)
    {
      UptimeProjection(isSource, isTarget);
      stages := [];
      Append([ValidateFailover, AcquireLock]);
      if isTarget {
        Append([PromoteVolumes, WaitForVolumesPromoted, VerifyDataAvailability,
                ScaleUpWorkloads, TriggerFluxReconciliation, WaitForTargetReady, MarkTargetReadyForTraffic]);
        Append([WaitForTargetReadyForTraffic, UpdateNetworkResources(Enable), MarkTrafficTransitionComplete]);
      }
      if isSource {
        Append([WaitForTrafficTransitionComplete,
                UpdateNetworkResources(Disable), ScaleDownWorkloads,
                DisableFluxReconciliation, WaitForWorkloadsScaledDown,
                DemoteVolumes, WaitForVolumesDemoted]);
      }
      Append([UpdateGlobalState, RecordFailoverHistory, ReleaseLock]);
    }
  }
}
