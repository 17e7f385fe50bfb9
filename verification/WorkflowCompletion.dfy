/** What a failover that succeeds has brought about, that one can always still succeed, and
    that nothing is changed without the lock. */
module WorkflowCompletion {
  import opened Records
  import opened Workflow
  import opened WorkflowOrder
  import opened WorkflowEffects
  import opened WorkflowRun
  import opened WorkflowFailures

  // ---- success ----

  /** The target serves, has the traffic, and Flux is back. */
  predicate TargetIsUp(c: Clusters) {
    Serves(c.target, c) && c.target.traffic && !c.target.ignored
  }

  /** The source has neither traffic nor a primary volume, and no workload unless the wait
      for its pods finished early. */
  predicate SourceIsDown(c: Clusters) {
    && !c.source.traffic && c.source.spec == {} && c.source.primary == {}
    && (c.early || (c.source.desired == {} && c.source.running == {} && c.source.ignored))
  }

  predicate FailedOver(c: Clusters, mode: Mode) {
    && TargetIsUp(c) && SourceIsDown(c)
    && c.marks.verified && c.marks.transferred && c.marks.recorded
    && (if mode == UPTIME then c.marks.targetReady && c.marks.transitioned else c.marks.volumesReady)
  }

  /** What a finished task leaves behind is still there when the adapter's list is finished. */
  lemma FinishedTaskLasts(w: World, id: nat, mode: Mode, coded: bool, t: Task)
    requires Inv(w, mode, coded) && At(w, id, AdapterTasks(mode), |AdapterTasks(mode)|)
    requires InMode(t, mode) && t == Standard(t)
    ensures Fact(w.clusters, t)
  {
    var tasks := AdapterTasks(mode);
    assert RunnerOk(w.clusters, w.runners[id], mode, coded);
    if mode == UPTIME { UptimeMembers(t); } else { ConsistencyMembers(t); }
    DoneAt(tasks, Position(t, mode), |tasks|);
  }

  lemma TargetComesUp(w: World, id: nat, mode: Mode, coded: bool)
    requires Inv(w, mode, coded) && At(w, id, AdapterTasks(mode), |AdapterTasks(mode)|)
    ensures TargetIsUp(w.clusters)
  {
    FinishedTaskLasts(w, id, mode, coded, ENABLE);
    FinishedTaskLasts(w, id, mode, coded, WaitForVolumesPromoted);
    FinishedTaskLasts(w, id, mode, coded, WaitForTargetReady);
    FinishedTaskLasts(w, id, mode, coded, TriggerFluxReconciliation);
  }

  lemma SourceGoesDown(w: World, id: nat, mode: Mode, coded: bool)
    requires Inv(w, mode, coded) && At(w, id, AdapterTasks(mode), |AdapterTasks(mode)|)
    ensures SourceIsDown(w.clusters)
  {
    FinishedTaskLasts(w, id, mode, coded, DISABLE);
    FinishedTaskLasts(w, id, mode, coded, WaitForWorkloadsScaledDown);
    FinishedTaskLasts(w, id, mode, coded, WaitForVolumesDemoted);
  }

  /** An engine that has finished the adapter's list has failed over. */
  lemma FinishedListFailsOver(w: World, id: nat, mode: Mode, coded: bool)
    requires Inv(w, mode, coded) && At(w, id, AdapterTasks(mode), |AdapterTasks(mode)|)
    ensures FailedOver(w.clusters, mode)
  {
    TargetComesUp(w, id, mode, coded);
    SourceGoesDown(w, id, mode, coded);
    FinishedTaskLasts(w, id, mode, coded, VerifyDataAvailability);
    FinishedTaskLasts(w, id, mode, coded, UpdateGlobalState);
    FinishedTaskLasts(w, id, mode, coded, RecordFailoverHistory);
    if mode == UPTIME {
      FinishedTaskLasts(w, id, mode, coded, WaitForTargetReadyForTraffic);
      FinishedTaskLasts(w, id, mode, coded, WaitForTrafficTransitionComplete);
    } else {
      FinishedTaskLasts(w, id, mode, coded, WaitForVolumesReadyForPromotion);
    }
  }

  /** The invariant is kept from any state on. */
  lemma {:induction false} RunKeepsInv(coded: bool, w: World, es: seq<Event>, mode: Mode)
    requires Inv(w, mode, coded) && AllOrdered(es, mode, coded)
    ensures Inv(Run(coded, w, es), mode, coded)
  {
    if es != [] {
      var n := |es| - 1;
      assert es[n] in es && forall e :: e in es[..n] ==> e in es;
      RunKeepsInv(coded, w, es[..n], mode);
      NextKeepsInv(coded, Run(coded, w, es[..n]), es[n], mode);
    }
  }

  // ---- the marks ----

  /** The mark that a task sets. */
  predicate Marked(m: Marks, t: Task) {
    match t
    case MarkVolumesReadyForPromotion => m.volumesReady
    case MarkTargetReadyForTraffic => m.targetReady
    case MarkTrafficTransitionComplete => m.transitioned
    case VerifyDataAvailability => m.verified
    case UpdateGlobalState => m.transferred
    case RecordFailoverHistory => m.recorded
    case _ => false
  }

  predicate SetsMark(t: Task) {
    t in {MarkVolumesReadyForPromotion, MarkTargetReadyForTraffic, MarkTrafficTransitionComplete,
          VerifyDataAvailability, UpdateGlobalState, RecordFailoverHistory}
  }

  /** The event has an engine carry out the task. */
  predicate CarriesOut(w: World, e: Event, t: Task) {
    e.Exec? && Active(w, e.id) && w.runners[e.id].tasks[w.runners[e.id].pc] == t && e.fate != Dropped
  }

  lemma EffectOnMarks(c: Clusters, t: Task, part: set<string>, mark: Task)
    requires SetsMark(mark)
    ensures Marked(Effect(c, t, part).marks, mark) <==> Marked(c.marks, mark) || t == mark
  {
  }

  lemma NextMarks(coded: bool, w: World, e: Event, mark: Task)
    requires SetsMark(mark)
    ensures Marked(Next(coded, w, e).clusters.marks, mark) <==> Marked(w.clusters.marks, mark) || CarriesOut(w, e, mark)
  {
    if e.Exec? && Active(w, e.id) {
      var t := w.runners[e.id].tasks[w.runners[e.id].pc];
      EffectOnMarks(w.clusters, t, e.part, mark);
      EffectOnMarks(w.clusters, t, Everything(w.clusters), mark);
    }
  }

  predicate CarriedOutAt(coded: bool, w: World, es: seq<Event>, n: nat, mark: Task) {
    n < |es| && CarriesOut(Run(coded, w, es[..n]), es[n], mark)
  }

  ghost predicate CarriedOut(coded: bool, w: World, es: seq<Event>, mark: Task) {
    exists n: nat :: CarriedOutAt(coded, w, es, n, mark)
  }

  lemma SamePrefix(coded: bool, w: World, es: seq<Event>, e: Event, n: nat, mark: Task)
    ensures CarriedOutAt(coded, w, es + [e], n, mark) <==>
              if n == |es| then CarriesOut(Run(coded, w, es), e, mark) else CarriedOutAt(coded, w, es, n, mark)
  {
    if n <= |es| { assert (es + [e])[..n] == es[..n]; }
    assert es[..|es|] == es;
  }

  lemma CarriedOutLater(coded: bool, w: World, es: seq<Event>, e: Event, mark: Task)
    ensures CarriedOut(coded, w, es + [e], mark)
       <==> CarriedOut(coded, w, es, mark) || CarriesOut(Run(coded, w, es), e, mark)
  {
    if CarriedOut(coded, w, es + [e], mark) {
      var n: nat :| CarriedOutAt(coded, w, es + [e], n, mark);
      SamePrefix(coded, w, es, e, n, mark);
    }
    if CarriedOut(coded, w, es, mark) {
      var n: nat :| CarriedOutAt(coded, w, es, n, mark);
      SamePrefix(coded, w, es, e, n, mark);
    }
    SamePrefix(coded, w, es, e, |es|, mark);
  }

  /** In every run a mark is there exactly if some engine has carried out its task. */
  lemma {:induction false} MarksAreEarned(coded: bool, volumes: set<string>, workloads: set<string>, es: seq<Event>,
                                          mark: Task)
    requires SetsMark(mark)
    ensures var w0 := Begin(volumes, workloads);
            Marked(Run(coded, w0, es).clusters.marks, mark) <==> CarriedOut(coded, w0, es, mark)
  {
    if es != [] {
      var n, w0 := |es| - 1, Begin(volumes, workloads);
      MarksAreEarned(coded, volumes, workloads, es[..n], mark);
      NextMarks(coded, Run(coded, w0, es[..n]), es[n], mark);
      CarriedOutLater(coded, w0, es[..n], es[n], mark);
      assert es == es[..n] + [es[n]];
    }
  }

  // ---- the lock ----

  /** A list validates, takes the lock, and at its very end releases it. */
  predicate HasEnds(tasks: seq<Task>) {
    && |tasks| >= 5 && tasks[0].ValidateFailover? && tasks[1].AcquireLock? && tasks[|tasks| - 1].ReleaseLock?
    && forall i :: 2 <= i < |tasks| - 1 ==> !tasks[i].AcquireLock? && !tasks[i].ReleaseLock?
  }

  /** The engine has the lock from its second task to its last one. */
  predicate LeaseOk(r: Runner) {
    && HasEnds(r.tasks) && r.pc <= |r.tasks|
    && (!r.failed ==> (r.leased <==> 2 <= r.pc < |r.tasks|))
    && (r.failed ==> (r.leased ==> 0 < r.pc < |r.tasks|) && (2 <= r.pc < |r.tasks| - 1 ==> r.leased))
  }

  ghost predicate LeasesOk(w: World) {
    forall id :: id in w.runners ==> LeaseOk(w.runners[id])
  }

  lemma NoLockTasks(stage: seq<Task>)
    requires stage in {CONSISTENCY_SOURCE, CONSISTENCY_TARGET, UptimeTarget(Transition), UptimeTarget(Enable),
                       UPTIME_SOURCE, []}
    ensures forall i :: 0 <= i < |stage| ==> !stage[i].AcquireLock? && !stage[i].ReleaseLock?
  {
  }

  lemma EndsAround(a: seq<Task>, b: seq<Task>)
    requires forall i :: 0 <= i < |a| ==> !a[i].AcquireLock? && !a[i].ReleaseLock?
    requires forall i :: 0 <= i < |b| ==> !b[i].AcquireLock? && !b[i].ReleaseLock?
    ensures HasEnds(INITIALIZATION + a + b + COMPLETION)
  {
    var tasks := INITIALIZATION + a + b + COMPLETION;
    var middle := a + b + [UpdateGlobalState, RecordFailoverHistory];
    assert tasks == INITIALIZATION + middle + [ReleaseLock];
    forall i | 0 <= i < |middle| ensures !middle[i].AcquireLock? && !middle[i].ReleaseLock? {
      if i < |a| { assert middle[i] == a[i]; } else if i < |a| + |b| { assert middle[i] == b[i - |a|]; }
    }
  }

  /** Every list, the adapter's or a part of it, has these ends. */
  lemma ListHasEnds(tasks: seq<Task>, mode: Mode, parts: Parts)
    requires IsList(tasks, mode, parts)
    ensures HasEnds(tasks)
  {
    if tasks == AdapterTasks(mode) {
      AdapterHasEnds(mode);
    } else {
      var p :| p in parts && tasks == Projection(AdapterTasks(mode), p.0, p.1);
      PartHasEnds(mode, p.0, p.1);
    }
  }

  lemma AdapterHasEnds(mode: Mode)
    ensures HasEnds(AdapterTasks(mode))
  {
    var a, b := if mode == UPTIME then UptimeTarget(Transition) else CONSISTENCY_SOURCE,
                if mode == UPTIME then UPTIME_SOURCE else CONSISTENCY_TARGET;
    NoLockTasks(a);
    NoLockTasks(b);
    EndsAround(a, b);
  }

  lemma PartHasEnds(mode: Mode, isSource: bool, isTarget: bool)
    ensures HasEnds(Projection(AdapterTasks(mode), isSource, isTarget))
  {
    var first := if mode == UPTIME then isTarget else isSource;
    var second := if mode == UPTIME then isSource else isTarget;
    var a := if !first then [] else if mode == UPTIME then UptimeTarget(Enable) else CONSISTENCY_SOURCE;
    var b := if !second then [] else if mode == UPTIME then UPTIME_SOURCE else CONSISTENCY_TARGET;
    if mode == UPTIME { UptimeProjection(isSource, isTarget); } else { ConsistencyProjection(isSource, isTarget); }
    NoLockTasks(a);
    NoLockTasks(b);
    EndsAround(a, b);
  }

  lemma StepKeepsLease(coded: bool, w: World, id: nat, fate: Fate, part: set<string>)
    requires Active(w, id) && LeaseOk(w.runners[id])
    ensures LeaseOk(StepExec(coded, w, id, fate, part).runners[id])
  {
  }

  lemma NextKeepsLeases(coded: bool, w: World, e: Event)
    requires LeasesOk(w) && (e.Start? ==> HasEnds(e.tasks))
    ensures LeasesOk(Next(coded, w, e))
  {
    if e.Exec? && Active(w, e.id) { StepKeepsLease(coded, w, e.id, e.fate, e.part); }
  }

  /** Lists of either mode, and any of their parts. */
  ghost predicate StartsAny(es: seq<Event>, parts: Parts) {
    forall e :: e in es && e.Start? ==> IsList(e.tasks, CONSISTENCY, parts) || IsList(e.tasks, UPTIME, parts)
  }

  lemma {:induction false} LeasesHold(coded: bool, w: World, es: seq<Event>, parts: Parts)
    requires LeasesOk(w) && StartsAny(es, parts)
    ensures LeasesOk(Run(coded, w, es))
  {
    if es != [] {
      var n := |es| - 1;
      assert es[n] in es && forall e :: e in es[..n] ==> e in es;
      LeasesHold(coded, w, es[..n], parts);
      if es[n].Start? {
        ListHasEnds(es[n].tasks, if IsList(es[n].tasks, UPTIME, parts) then UPTIME else CONSISTENCY, parts);
      }
      NextKeepsLeases(coded, Run(coded, w, es[..n]), es[n]);
    }
  }

  lemma EndsHaveNoEffect(coded: bool, w: World, id: nat, fate: Fate, part: set<string>)
    requires Active(w, id) && LeaseOk(w.runners[id]) && w.runners[id].pc < 2
    ensures StepExec(coded, w, id, fate, part).clusters == w.clusters
  {
    var t := w.runners[id].tasks[w.runners[id].pc];
    assert t.ValidateFailover? || t.AcquireLock?;
  }

  /** The engine failed after it took the lock and before it came to release it. */
  predicate FailedInBetween(r: Runner) {
    r.failed && 2 <= r.pc < |r.tasks| - 1
  }

  /** In every run, of any mixture of lists of both modes and their parts, an engine changes
      the clusters only while it has the lock; and an engine that fails in between leaves
      the lock behind, to expire. */
  lemma NothingChangesWithoutTheLock(coded: bool, parts: Parts, volumes: set<string>, workloads: set<string>,
                                     es: seq<Event>, e: Event)
    requires StartsAny(es, parts) && e.Exec?
    ensures var w := Run(coded, Begin(volumes, workloads), es);
            var w' := Next(coded, w, e);
            && (w'.clusters != w.clusters ==> e.id in w.runners && w.runners[e.id].leased)
            && (forall id :: id in w.runners && w.runners[id].pc == |w.runners[id].tasks| ==> !w.runners[id].leased)
            && (forall id :: id in w.runners && FailedInBetween(w.runners[id]) ==> w.runners[id].leased)
  {
    LeasesHold(coded, Begin(volumes, workloads), es, parts);
    var w := Run(coded, Begin(volumes, workloads), es);
    if Active(w, e.id) && w.runners[e.id].pc < 2 { EndsHaveNoEffect(coded, w, e.id, e.fate, e.part); }
  }

  // ---- a failover can always succeed ----

  function PodsSettled(s: Site, ps: set<string>): Site {
    s.(running := (s.running - ps) + (s.desired * ps))
  }

  function PodsSettledAt(c: Clusters, at: Where, ps: set<string>): Clusters {
    if at == Source then c.(source := PodsSettled(c.source, ps)) else c.(target := PodsSettled(c.target, ps))
  }

  lemma SettlePods(c: Clusters, at: Where, ps: set<string>, p: string)
    requires p in ps
    ensures Moved(PodsSettledAt(c, at, ps - {p}), Pods(at, p)) == PodsSettledAt(c, at, ps)
  {
    var s := if at == Source then c.source else c.target;
    assert PodsSettled(s, ps) == StepPods(PodsSettled(s, ps - {p}), p);
  }

  /** The pods of a cluster follow the scale. */
  lemma {:induction false} PodsFollow(coded: bool, w: World, es: seq<Event>, at: Where, ps: set<string>)
    returns (es': seq<Event>)
    requires NoStarts(es)
    ensures NoStarts(es')
    ensures var v, v' := Run(coded, w, es), Run(coded, w, es');
            v'.runners == v.runners && v'.clusters == PodsSettledAt(v.clusters, at, ps)
    decreases ps
  {
    var c := Run(coded, w, es).clusters;
    if ps == {} {
      es' := es;
      assert PodsSettled(c.source, {}) == c.source && PodsSettled(c.target, {}) == c.target;
    } else {
      var p :| p in ps;
      es' := PodsFollow(coded, w, es, at, ps - {p});
      es' := Then(coded, w, es', Cluster(Pods(at, p)));
      SettlePods(c, at, ps, p);
    }
  }

  /** What a wait waits for comes about in the clusters' own time. */
  lemma WaitEnds(coded: bool, w: World, es: seq<Event>, t: Task, mode: Mode) returns (es': seq<Event>)
    requires NoStarts(es)
    requires var c := Run(coded, w, es).clusters;
             && Bounds(c) && Prior(c, t, mode, true)
             && (t.WaitForWorkloadsScaledDown? ==> c.source.desired == {})
    ensures NoStarts(es')
    ensures var v, v' := Run(coded, w, es), Run(coded, w, es');
            && v'.runners == v.runners && v'.clusters.source.desired == v.clusters.source.desired
            && Ready(v'.clusters, t, coded)
  {
    var c := Run(coded, w, es).clusters;
    es' := es;
    match t
    case WaitForWorkloadsScaledDown =>
      es' := PodsFollow(coded, w, es, Source, c.workloads);
      assert PodsSettled(c.source, c.workloads).running == {};
    case WaitForVolumesDemoted =>
      assert Fact(c, DemoteVolumes);
      es' := Settles(coded, w, es, Source, c.volumes);
      assert Settled(c.source, c.volumes).primary == {};
    case WaitForVolumesPromoted =>
      assert Fact(c, PromoteVolumes);
      es' := Settles(coded, w, es, Target, c.volumes);
      assert Settled(c.target, c.volumes).primary == c.volumes;
    case WaitForTargetReady =>
      assert Fact(c, ScaleUpWorkloads);
      es' := PodsFollow(coded, w, es, Target, c.workloads);
      assert PodsSettled(c.target, c.workloads).running == c.workloads;
    case WaitForVolumesReadyForPromotion => assert Fact(c, MarkVolumesReadyForPromotion);
    case WaitForTargetReadyForTraffic => assert Fact(c, MarkTargetReadyForTraffic);
    case WaitForTrafficTransitionComplete => assert Fact(c, MarkTrafficTransitionComplete);
    case _ =>
  }

  /** On its way the engine has scaled the source down, if it has come to that. */
  predicate ScaledDownBy(c: Clusters, tasks: seq<Task>, pc: nat) {
    pc <= |tasks| && (ScaleDownWorkloads in Done(tasks[..pc]) ==> c.source.desired == {})
  }

  lemma OneMoreFinished(c: Clusters, tasks: seq<Task>, pc: nat)
    requires Bounds(c) && pc < |tasks| && ScaledDownBy(c, tasks, pc)
    ensures ScaledDownBy(Concluded(c, tasks[pc]), tasks, pc + 1)
  {
    EffectDesired(c, tasks[pc], Everything(c));
    assert tasks[..pc + 1][..pc] == tasks[..pc];
  }

  /** The rest of an ordered list can be finished. */
  lemma {:induction false} ListEnds(coded: bool, w: World, es: seq<Event>, id: nat, tasks: seq<Task>, pc: nat,
                                    mode: Mode)
    returns (es': seq<Event>)
    requires Inv(w, mode, coded) && NoStarts(es) && Ordered(tasks, mode, true)
    requires At(Run(coded, w, es), id, tasks, pc) && ScaledDownBy(Run(coded, w, es).clusters, tasks, pc)
    ensures NoStarts(es') && At(Run(coded, w, es'), id, tasks, |tasks|)
    decreases |tasks| - pc
  {
    es' := es;
    if pc < |tasks| {
      es' := WaitBefore(coded, w, es, id, tasks, pc, mode);
      RunKeepsInv(coded, w, es', mode);
      OneMoreFinished(Run(coded, w, es').clusters, tasks, pc);
      es' := Concludes(coded, w, es', id, tasks, pc);
      es' := ListEnds(coded, w, es', id, tasks, pc + 1, mode);
    }
  }

  lemma WaitBefore(coded: bool, w: World, es: seq<Event>, id: nat, tasks: seq<Task>, pc: nat, mode: Mode)
    returns (es': seq<Event>)
    requires Inv(w, mode, coded) && NoStarts(es) && Ordered(tasks, mode, true) && pc < |tasks|
    requires At(Run(coded, w, es), id, tasks, pc) && ScaledDownBy(Run(coded, w, es).clusters, tasks, pc)
    ensures NoStarts(es') && At(Run(coded, w, es'), id, tasks, pc)
    ensures ScaledDownBy(Run(coded, w, es').clusters, tasks, pc) && Ready(Run(coded, w, es').clusters, tasks[pc], coded)
  {
    RunKeepsInv(coded, w, es, mode);
    var v := Run(coded, w, es);
    assert RunnerOk(v.clusters, v.runners[id], mode, coded);
    assert Needs(tasks[pc], mode, true) <= Done(tasks[..pc]);
    if tasks[pc].WaitForWorkloadsScaledDown? { assert ScaleDownWorkloads in Needs(tasks[pc], mode, true); }
    es' := WaitEnds(coded, w, es, tasks[pc], mode);
  }

  /** From every state that a run can reach, a failover that starts then can succeed, in
      both modes and whether or not the waits for the other cluster give up. */
  lemma FailoverCanSucceed(coded: bool, w: World, mode: Mode) returns (id: nat, es: seq<Event>)
    requires Inv(w, mode, coded)
    ensures id !in w.runners && NoStarts(es)
    ensures var w' := Run(coded, w, [Start(id, AdapterTasks(mode))] + es);
            At(w', id, AdapterTasks(mode), |AdapterTasks(mode)|) && FailedOver(w'.clusters, mode)
  {
    var tasks := AdapterTasks(mode);
    id := Unused(w.runners.Keys);
    var start := [Start(id, tasks)];
    assert [] + start == start;
    RunSnoc(coded, w, [], start[0]);
    AdapterIsOrdered(mode, true);
    AdapterIsOrdered(mode, coded);
    NextKeepsInv(coded, w, start[0], mode);
    var w1 := Run(coded, w, start);
    assert Done(tasks[..0]) == {};
    es := ListEnds(coded, w1, [], id, tasks, 0, mode);
    RunAppend(coded, w, start, es);
    RunKeepsInv(coded, w1, es, mode);
    FinishedListFailsOver(Run(coded, w1, es), id, mode, coded);
  }
}
