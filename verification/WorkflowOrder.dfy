/** The order of the tasks in the workflows' lists. */
module WorkflowOrder {
  import opened Workflow

  const DISABLE := UpdateNetworkResources(Disable)
  const ENABLE := UpdateNetworkResources(Enable)

  /** The tasks that have to be finished before a task. In both modes traffic leaves the
      source before its workloads stop, Flux is told to leave them alone and they stop
      before its volumes are demoted, and traffic only goes to a target that is ready. In
      consistency mode the target starts after the source's volumes are demoted; in uptime
      mode the source stops after the traffic goes to the target. A wait that gives up has
      to come after its mark. */
  function Needs(t: Task, mode: Mode, coded: bool): set<Task> {
    var switched := if mode == UPTIME then {WaitForTrafficTransitionComplete} else {};
    var handedOver := if mode == CONSISTENCY then {WaitForVolumesReadyForPromotion} else {};
    match t
    case UpdateNetworkResources(Disable) => switched
    case UpdateNetworkResources(_) => {WaitForVolumesPromoted, WaitForTargetReady}
    case ScaleDownWorkloads => switched + {DISABLE}
    case WaitForWorkloadsScaledDown => {ScaleDownWorkloads, DisableFluxReconciliation}
    case DemoteVolumes => switched + {DISABLE, WaitForWorkloadsScaledDown}
    case WaitForVolumesDemoted => {DemoteVolumes}
    case MarkVolumesReadyForPromotion => {WaitForVolumesDemoted, WaitForWorkloadsScaledDown}
    case WaitForVolumesReadyForPromotion => if coded then {MarkVolumesReadyForPromotion} else {}
    case PromoteVolumes => handedOver
    case WaitForVolumesPromoted => {PromoteVolumes}
    case ScaleUpWorkloads => handedOver
    case TriggerFluxReconciliation => handedOver
    case WaitForTargetReady => {ScaleUpWorkloads}
    case WaitForTargetReadyForTraffic => if coded then {MarkTargetReadyForTraffic} else {}
    case MarkTrafficTransitionComplete => {ENABLE}
    case WaitForTrafficTransitionComplete => if coded then {MarkTrafficTransitionComplete} else {}
    case _ => {}
  }

  /** Both ways to send traffic to the target have the same effect. */
  function Standard(t: Task): Task {
    if t == UpdateNetworkResources(Transition) then ENABLE else t
  }

  function Done(tasks: seq<Task>): set<Task> {
    if tasks == [] then {} else Done(tasks[..|tasks| - 1]) + {Standard(tasks[|tasks| - 1])}
  }

  /** Each task of the list comes after the tasks it needs. */
  predicate Ordered(tasks: seq<Task>, mode: Mode, coded: bool) {
    forall j :: 0 <= j < |tasks| ==> Needs(tasks[j], mode, coded) <= Done(tasks[..j])
  }

  // ---- the lists of the adapter and of the factory ----

  /** Where a task stands in the adapter's list. */
  function Position(t: Task, mode: Mode): nat {
    match t
    case ValidateFailover => 0
    case AcquireLock => 1
    case UpdateNetworkResources(Disable) => if mode == UPTIME then 13 else 2
    case ScaleDownWorkloads => if mode == UPTIME then 14 else 3
    case DisableFluxReconciliation => if mode == UPTIME then 15 else 4
    case WaitForWorkloadsScaledDown => if mode == UPTIME then 16 else 5
    case DemoteVolumes => if mode == UPTIME then 17 else 6
    case WaitForVolumesDemoted => if mode == UPTIME then 18 else 7
    case MarkVolumesReadyForPromotion => 8
    case WaitForVolumesReadyForPromotion => 9
    case PromoteVolumes => if mode == UPTIME then 2 else 10
    case WaitForVolumesPromoted => if mode == UPTIME then 3 else 11
    case VerifyDataAvailability => if mode == UPTIME then 4 else 12
    case ScaleUpWorkloads => if mode == UPTIME then 5 else 13
    case TriggerFluxReconciliation => if mode == UPTIME then 6 else 14
    case WaitForTargetReady => if mode == UPTIME then 7 else 15
    case MarkTargetReadyForTraffic => 8
    case WaitForTargetReadyForTraffic => 9
    case UpdateNetworkResources(_) => if mode == UPTIME then 10 else 16
    case MarkTrafficTransitionComplete => 11
    case WaitForTrafficTransitionComplete => 12
    case UpdateGlobalState => if mode == UPTIME then 19 else 17
    case RecordFailoverHistory => if mode == UPTIME then 20 else 18
    case ReleaseLock => if mode == UPTIME then 21 else 19
  }

  predicate InMode(t: Task, mode: Mode) {
    match t
    case MarkVolumesReadyForPromotion => mode == CONSISTENCY
    case WaitForVolumesReadyForPromotion => mode == CONSISTENCY
    case MarkTargetReadyForTraffic => mode == UPTIME
    case WaitForTargetReadyForTraffic => mode == UPTIME
    case MarkTrafficTransitionComplete => mode == UPTIME
    case WaitForTrafficTransitionComplete => mode == UPTIME
    case _ => true
  }

  lemma NeedsStandEarlier(t: Task, a: Task, mode: Mode)
    requires InMode(t, mode) && a in Needs(t, mode, true)
    ensures InMode(a, mode) && Position(a, mode) < Position(t, mode) && a == Standard(a)
  {
  }

  /** The adapter's lists: position by position. */
  lemma ConsistencyPositions(t: Task, j: nat)
    requires j < |CONSISTENCY_TASKS| && CONSISTENCY_TASKS[j] == t
    ensures InMode(t, CONSISTENCY) && Position(t, CONSISTENCY) == j
  {
  }

  lemma ConsistencyMembers(t: Task)
    requires InMode(t, CONSISTENCY) && t == Standard(t)
    ensures Position(t, CONSISTENCY) < |CONSISTENCY_TASKS| && CONSISTENCY_TASKS[Position(t, CONSISTENCY)] == t
  {
  }

  lemma UptimePositions(t: Task, j: nat)
    requires j < |UPTIME_TASKS| && UPTIME_TASKS[j] == t
    ensures InMode(t, UPTIME) && Position(t, UPTIME) == j
  {
  }

  lemma UptimeMembers(t: Task)
    requires InMode(t, UPTIME) && t == Standard(t)
    ensures Position(t, UPTIME) < |UPTIME_TASKS| && Standard(UPTIME_TASKS[Position(t, UPTIME)]) == t
  {
  }

  lemma {:induction false} DoneAt(tasks: seq<Task>, i: nat, j: nat)
    requires i < j <= |tasks|
    ensures Standard(tasks[i]) in Done(tasks[..j])
    decreases j
  {
    assert tasks[..j][..j - 1] == tasks[..j - 1];
    if i < j - 1 { DoneAt(tasks, i, j - 1); }
  }

  /** In the adapter's lists every task comes after what it needs, even if the waits for
      the other cluster give up: the marks come first in the same list. */
  lemma AdapterIsOrdered(mode: Mode, coded: bool)
    ensures Ordered(AdapterTasks(mode), mode, coded)
  {
    var tasks := AdapterTasks(mode);
    forall j, a | 0 <= j < |tasks| && a in Needs(tasks[j], mode, coded) ensures a in Done(tasks[..j]) {
      if mode == UPTIME { UptimePositions(tasks[j], j); } else { ConsistencyPositions(tasks[j], j); }
      NeedsStandEarlier(tasks[j], a, mode);
      if mode == UPTIME { UptimeMembers(a); } else { ConsistencyMembers(a); }
      DoneAt(tasks, Position(a, mode), j);
    }
  }

  lemma OrderedSnoc(tasks: seq<Task>, t: Task, mode: Mode, coded: bool)
    ensures Ordered(tasks + [t], mode, coded) <==> Ordered(tasks, mode, coded) && Needs(t, mode, coded) <= Done(tasks)
    ensures Done(tasks + [t]) == Done(tasks) + {Standard(t)}
  {
    var all := tasks + [t];
    assert forall j :: 0 <= j <= |tasks| ==> all[..j] == tasks[..j];
    assert tasks[..|tasks|] == tasks && all[|tasks|] == t;
    assert Ordered(all, mode, coded) ==> Ordered(tasks, mode, coded) by {
      forall j | Ordered(all, mode, coded) && 0 <= j < |tasks|
        ensures Needs(tasks[j], mode, coded) <= Done(tasks[..j])
      {
        assert all[j] == tasks[j];
      }
    }
  }

  /** The part of a list that keeps its promise: any, if the waits for the other cluster
      block; as coded, not the target's part alone in consistency mode, nor the source's in
      uptime mode, for they hold the wait and not the mark. */
  predicate Reliable(mode: Mode, coded: bool, isSource: bool, isTarget: bool) {
    coded ==> if mode == CONSISTENCY then isTarget ==> isSource else isSource ==> isTarget
  }

  /** What a task of such a part needs is in the same part. */
  lemma NeedsAreNear(t: Task, a: Task, mode: Mode, coded: bool, isSource: bool, isTarget: bool)
    requires InMode(t, mode) && Reliable(mode, coded, isSource, isTarget)
    requires Concerns(t, isSource, isTarget) && a in Needs(t, mode, coded)
    ensures Concerns(a, isSource, isTarget)
  {
  }

  lemma ProjectionSnoc(tasks: seq<Task>, t: Task, isSource: bool, isTarget: bool)
    ensures Projection(tasks + [t], isSource, isTarget)
         == Projection(tasks, isSource, isTarget) + (if Concerns(t, isSource, isTarget) then [Standard(t)] else [])
  {
    ProjectionAppend(tasks, [t], isSource, isTarget);
  }

  ghost predicate DonePart(tasks: seq<Task>, part: seq<Task>, isSource: bool, isTarget: bool) {
    forall a :: a in Done(part) <==> a in Done(tasks) && Concerns(a, isSource, isTarget)
  }

  lemma NeedsAreDone(tasks: seq<Task>, part: seq<Task>, t: Task, mode: Mode, coded: bool,
                     isSource: bool, isTarget: bool)
    requires DonePart(tasks, part, isSource, isTarget) && InMode(t, mode) && Reliable(mode, coded, isSource, isTarget)
    requires Needs(t, mode, coded) <= Done(tasks) && Concerns(t, isSource, isTarget)
    ensures Needs(Standard(t), mode, coded) <= Done(part)
  {
    forall a | a in Needs(Standard(t), mode, coded) ensures a in Done(part) {
      NeedsAreNear(t, a, mode, coded, isSource, isTarget);
    }
  }

  lemma OneMoreTask(tasks: seq<Task>, part: seq<Task>, t: Task, mode: Mode, coded: bool,
                    isSource: bool, isTarget: bool, part': seq<Task>)
    requires DonePart(tasks, part, isSource, isTarget) && Ordered(part, mode, coded)
    requires InMode(t, mode) && Reliable(mode, coded, isSource, isTarget) && Needs(t, mode, coded) <= Done(tasks)
    requires part' == part + (if Concerns(t, isSource, isTarget) then [Standard(t)] else [])
    ensures DonePart(tasks + [t], part', isSource, isTarget) && Ordered(part', mode, coded)
  {
    OrderedSnoc(tasks, t, mode, coded);
    if Concerns(t, isSource, isTarget) {
      NeedsAreDone(tasks, part, t, mode, coded, isSource, isTarget);
      OrderedSnoc(part, Standard(t), mode, coded);
    } else {
      assert part' == part;
    }
  }

  predicate AllInMode(tasks: seq<Task>, mode: Mode) {
    forall j :: 0 <= j < |tasks| ==> InMode(tasks[j], mode)
  }

  lemma AdapterIsInMode(mode: Mode)
    ensures AllInMode(AdapterTasks(mode), mode)
  {
    var tasks := AdapterTasks(mode);
    forall j | 0 <= j < |tasks| ensures InMode(tasks[j], mode) {
      if mode == UPTIME { UptimePositions(tasks[j], j); } else { ConsistencyPositions(tasks[j], j); }
    }
  }

  /** A reliable part of an ordered list is ordered. */
  lemma {:induction false} ProjectionIsOrdered(tasks: seq<Task>, mode: Mode, coded: bool, isSource: bool,
                                               isTarget: bool)
    requires Ordered(tasks, mode, coded) && AllInMode(tasks, mode) && Reliable(mode, coded, isSource, isTarget)
    ensures Ordered(Projection(tasks, isSource, isTarget), mode, coded)
    ensures DonePart(tasks, Projection(tasks, isSource, isTarget), isSource, isTarget)
  {
    if tasks == [] {
      assert Done([]) == {};
    } else {
      var n := |tasks| - 1;
      var before, t := tasks[..n], tasks[n];
      assert tasks == before + [t];
      OrderedSnoc(before, t, mode, coded);
      ProjectionIsOrdered(before, mode, coded, isSource, isTarget);
      ProjectionSnoc(before, t, isSource, isTarget);
      OneMoreTask(before, Projection(before, isSource, isTarget), t, mode, coded, isSource, isTarget,
                  Projection(tasks, isSource, isTarget));
    }
  }
}
