/** When the promises of the two modes fail: exactly which lists keep them although the
    waits for the other cluster give up, and what a wait that finishes early lets happen. */
module WorkflowFailures {
  import opened Records
  import opened Workflow
  import opened WorkflowOrder
  import opened WorkflowEffects
  import opened WorkflowRun

  // ---- going on from a state ----

  ghost predicate NoStarts(es: seq<Event>) {
    forall e :: e in es ==> !e.Start?
  }

  lemma Then(coded: bool, w: World, es: seq<Event>, e: Event) returns (es': seq<Event>)
    requires NoStarts(es) && !e.Start?
    ensures es' == es + [e] && NoStarts(es') && Run(coded, w, es') == Next(coded, Run(coded, w, es), e)
  {
    es' := es + [e];
    RunSnoc(coded, w, es, e);
  }

  /** The engine has finished the first `pc` tasks of a list, and goes on. */
  predicate At(w: World, id: nat, tasks: seq<Task>, pc: nat) {
    && id in w.runners && w.runners[id].tasks == tasks && w.runners[id].pc == pc && !w.runners[id].failed
  }

  /** Its next task succeeds. */
  lemma Concludes(coded: bool, w: World, es: seq<Event>, id: nat, tasks: seq<Task>, pc: nat) returns (es': seq<Event>)
    requires NoStarts(es) && At(Run(coded, w, es), id, tasks, pc) && pc < |tasks|
    requires Ready(Run(coded, w, es).clusters, tasks[pc], coded)
    ensures NoStarts(es') && At(Run(coded, w, es'), id, tasks, pc + 1)
    ensures Run(coded, w, es').clusters == Concluded(Run(coded, w, es).clusters, tasks[pc])
  {
    es' := Then(coded, w, es, Exec(id, Ack, {}));
  }

  function Settled(s: Site, volumes: set<string>): Site {
    s.(primary := (s.primary - volumes) + (s.spec * volumes))
  }

  function SettledAt(c: Clusters, at: Where, volumes: set<string>): Clusters {
    if at == Source then c.(source := Settled(c.source, volumes)) else c.(target := Settled(c.target, volumes))
  }

  lemma SettleOne(c: Clusters, at: Where, volumes: set<string>, v: string)
    requires v in volumes
    ensures Moved(SettledAt(c, at, volumes - {v}), Volume(at, v)) == SettledAt(c, at, volumes)
  {
    var s := if at == Source then c.source else c.target;
    assert Settled(s, volumes) == StepVolume(Settled(s, volumes - {v}), v);
  }

  /** The volumes of a cluster follow what is asked of them. */
  lemma {:induction false} Settles(coded: bool, w: World, es: seq<Event>, at: Where, volumes: set<string>)
    returns (es': seq<Event>)
    requires NoStarts(es)
    ensures NoStarts(es')
    ensures var v, v' := Run(coded, w, es), Run(coded, w, es');
            v'.runners == v.runners && v'.clusters == SettledAt(v.clusters, at, volumes)
    decreases volumes
  {
    var c := Run(coded, w, es).clusters;
    if volumes == {} {
      es' := es;
      assert Settled(c.source, {}) == c.source && Settled(c.target, {}) == c.target;
    } else {
      var v :| v in volumes;
      es' := Settles(coded, w, es, at, volumes - {v});
      es' := Then(coded, w, es', Cluster(Volume(at, v)));
      SettleOne(c, at, volumes, v);
    }
  }

  // ---- the target takes over ----

  predicate HoldsTakeover(tasks: seq<Task>, k: nat) {
    && |tasks| >= k + 5 && tasks[k] == WaitForVolumesReadyForPromotion && tasks[k + 1] == PromoteVolumes
    && tasks[k + 2] == WaitForVolumesPromoted && tasks[k + 3] == VerifyDataAvailability
    && tasks[k + 4] == ScaleUpWorkloads
  }

  /** What the target's tasks leave alone. */
  predicate SameSource(c: Clusters, c': Clusters) {
    && c'.source == c.source && c'.volumes == c.volumes && c'.workloads == c.workloads && c'.early == c.early
    && Bounds(c')
  }

  lemma TargetTask(c: Clusters, t: Task)
    requires Bounds(c)
    requires t in {WaitForVolumesReadyForPromotion, PromoteVolumes, WaitForVolumesPromoted, VerifyDataAvailability,
                   ScaleUpWorkloads}
    ensures var c' := Concluded(c, t);
            && SameSource(c, c') && c'.target.primary == c.target.primary
            && (if t.PromoteVolumes? then c'.target.spec == c.volumes else c'.target.spec == c.target.spec)
            && (t.ScaleUpWorkloads? ==> c'.target.desired == c.workloads)
  {
  }

  lemma TargetSettled(c: Clusters)
    requires Bounds(c) && c.target.spec == c.volumes
    ensures var c' := SettledAt(c, Target, c.volumes);
            SameSource(c, c') && c'.target.primary == c.volumes && c'.target.spec == c.volumes
  {
    assert (c.target.primary - c.volumes) + (c.target.spec * c.volumes) == c.volumes;
  }

  lemma TakesOver(coded: bool, w: World, es: seq<Event>, id: nat, tasks: seq<Task>, k: nat) returns (es': seq<Event>)
    requires NoStarts(es) && At(Run(coded, w, es), id, tasks, k) && HoldsTakeover(tasks, k)
    requires var c := Run(coded, w, es).clusters; Bounds(c) && (coded || c.marks.volumesReady)
    ensures NoStarts(es')
    ensures var c, c' := Run(coded, w, es).clusters, Run(coded, w, es').clusters;
            SameSource(c, c') && c'.target.primary == c.volumes && c'.target.desired == c.workloads
  {
    var c := Run(coded, w, es).clusters;
    TargetTask(c, tasks[k]);
    es' := Concludes(coded, w, es, id, tasks, k);
    TargetTask(Run(coded, w, es').clusters, tasks[k + 1]);
    es' := Concludes(coded, w, es', id, tasks, k + 1);
    TargetSettled(Run(coded, w, es').clusters);
    es' := Settles(coded, w, es', Target, c.volumes);
    es' := Activates(coded, w, es', id, tasks, k);
  }

  lemma Activates(coded: bool, w: World, es: seq<Event>, id: nat, tasks: seq<Task>, k: nat) returns (es': seq<Event>)
    requires NoStarts(es) && At(Run(coded, w, es), id, tasks, k + 2) && HoldsTakeover(tasks, k)
    requires var c := Run(coded, w, es).clusters; Bounds(c) && c.target.primary == c.volumes
    ensures NoStarts(es')
    ensures var c, c' := Run(coded, w, es).clusters, Run(coded, w, es').clusters;
            SameSource(c, c') && c'.target.primary == c.volumes && c'.target.desired == c.workloads
  {
    TargetTask(Run(coded, w, es).clusters, tasks[k + 2]);
    es' := Concludes(coded, w, es, id, tasks, k + 2);
    TargetTask(Run(coded, w, es').clusters, tasks[k + 3]);
    es' := Concludes(coded, w, es', id, tasks, k + 3);
    TargetTask(Run(coded, w, es').clusters, tasks[k + 4]);
    es' := Concludes(coded, w, es', id, tasks, k + 4);
  }

  /** A workload's pods come up. */
  lemma ComesUp(coded: bool, w: World, es: seq<Event>, at: Where, p: string) returns (es': seq<Event>)
    requires NoStarts(es)
    requires var c := Run(coded, w, es).clusters; p in (if at == Source then c.source else c.target).desired
    ensures NoStarts(es')
    ensures var c, c' := Run(coded, w, es).clusters, Run(coded, w, es').clusters;
            && c'.early == c.early
            && if at == Source
               then c' == c.(source := c.source.(running := c.source.running + {p}))
               else c' == c.(target := c.target.(running := c.target.running + {p}))
  {
    es' := Then(coded, w, es, Cluster(Pods(at, p)));
  }

  // ---- one engine from the beginning ----

  function Started(volumes: set<string>, workloads: set<string>, tasks: seq<Task>): World {
    World(Init(volumes, workloads), map[0 := Runner(tasks, 0, false, false)])
  }

  /** The run that starts one list and goes on without another. */
  function From(tasks: seq<Task>, later: seq<Event>): seq<Event> {
    [Start(0, tasks)] + later
  }

  lemma RunFrom(coded: bool, volumes: set<string>, workloads: set<string>, tasks: seq<Task>, later: seq<Event>)
    ensures Run(coded, Begin(volumes, workloads), From(tasks, later))
         == Run(coded, Started(volumes, workloads, tasks), later)
  {
    var w, start := Begin(volumes, workloads), [Start(0, tasks)];
    assert [] + start == start;
    RunSnoc(coded, w, [], Start(0, tasks));
    RunAppend(coded, w, start, later);
  }

  lemma FromStarts(tasks: seq<Task>, later: seq<Event>, mode: Mode, parts: Parts)
    requires NoStarts(later) && IsList(tasks, mode, parts)
    ensures Starts(From(tasks, later), mode, parts)
  {
  }

  lemma StartsIn(mode: Mode, parts: Parts, p: (bool, bool))
    requires p in parts
    ensures IsList(Projection(AdapterTasks(mode), p.0, p.1), mode, parts)
  {
  }

  lemma InitIsBounded(volumes: set<string>, workloads: set<string>)
    ensures Bounds(Init(volumes, workloads)) && !Init(volumes, workloads).early
  {
  }

  /** A run that is not early at its end never was. */
  lemma {:induction false} NeverWasEarly(coded: bool, w: World, es: seq<Event>)
    requires !Run(coded, w, es).clusters.early
    ensures NeverEarly(coded, w, es) && !w.clusters.early
  {
    if es != [] {
      var n := |es| - 1;
      NextIsEarlyIff(coded, Run(coded, w, es[..n]), es[n]);
      NeverWasEarly(coded, w, es[..n]);
      forall i | 0 <= i < |es| ensures !FinishesEarly(Run(coded, w, es[..i]), es[i]) {
        if i < n { assert es[..n][..i] == es[..i]; }
      }
    }
  }

  lemma PartsStart()
    ensures var target := Projection(CONSISTENCY_TASKS, false, true);
            |target| > 6 && target[..2] == INITIALIZATION && HoldsTakeover(target, 2)
    ensures var source := Projection(UPTIME_TASKS, true, false);
            |source| > 3 && source[..2] == INITIALIZATION
            && source[2] == WaitForTrafficTransitionComplete && source[3] == DISABLE
  {
    ConsistencyProjection(false, true);
    UptimeProjection(true, false);
    StartOf(CONSISTENCY_TARGET);
    StartOf(UPTIME_SOURCE);
    assert INITIALIZATION + [] + CONSISTENCY_TARGET == INITIALIZATION + CONSISTENCY_TARGET;
    assert INITIALIZATION + [] + UPTIME_SOURCE == INITIALIZATION + UPTIME_SOURCE;
  }

  lemma StartOf(part: seq<Task>)
    ensures var all := INITIALIZATION + part + COMPLETION;
            |all| > |part| + 2 && all[..2] == INITIALIZATION && forall i :: 0 <= i < |part| ==> all[i + 2] == part[i]
  {
  }

  /** The tasks that every list begins with have no effect here. */
  lemma Initialized(coded: bool, w: World, id: nat, tasks: seq<Task>) returns (es: seq<Event>)
    requires At(w, id, tasks, 0) && |tasks| > 2 && tasks[..2] == INITIALIZATION
    ensures NoStarts(es) && At(Run(coded, w, es), id, tasks, 2) && Run(coded, w, es).clusters == w.clusters
  {
    assert tasks[0] == tasks[..2][0] && tasks[1] == tasks[..2][1];
    es := Concludes(coded, w, [], id, tasks, 0);
    es := Concludes(coded, w, es, id, tasks, 1);
  }

  // ---- the waits as coded ----

  lemma TargetAlone(volumes: set<string>, workloads: set<string>, p: string, tasks: seq<Task>)
    returns (later: seq<Event>)
    requires |tasks| > 6 && tasks[..2] == INITIALIZATION && HoldsTakeover(tasks, 2)
    requires p in workloads || workloads == {}
    ensures NoStarts(later)
    ensures var c := Run(true, Started(volumes, workloads, tasks), later).clusters;
            && c.source == Init(volumes, workloads).source && c.target.primary == volumes && !c.early
            && (p in workloads ==> p in c.target.running)
  {
    var w := Started(volumes, workloads, tasks);
    InitIsBounded(volumes, workloads);
    later := Initialized(true, w, 0, tasks);
    later := TakesOver(true, w, later, 0, tasks, 2);
    if p in workloads { later := ComesUp(true, w, later, Target, p); }
  }

  lemma TargetAloneFrom(volumes: set<string>, workloads: set<string>, p: string, tasks: seq<Task>, parts: Parts)
    returns (es: seq<Event>)
    requires |tasks| > 6 && tasks[..2] == INITIALIZATION && HoldsTakeover(tasks, 2)
    requires IsList(tasks, CONSISTENCY, parts) && (p in workloads || workloads == {})
    ensures Starts(es, CONSISTENCY, parts)
    ensures var c := Run(true, Begin(volumes, workloads), es).clusters;
            && c.source == Init(volumes, workloads).source && c.target.primary == volumes
            && (p in workloads ==> p in c.target.running)
    ensures NeverEarly(true, Begin(volumes, workloads), es)
  {
    var later := TargetAlone(volumes, workloads, p, tasks);
    es := From(tasks, later);
    RunFrom(true, volumes, workloads, tasks, later);
    FromStarts(tasks, later, CONSISTENCY, parts);
    NeverWasEarly(true, Begin(volumes, workloads), es);
  }

  /** As coded, the target's part of the consistency list alone makes the volumes primary on
      both clusters, and then workloads run on both: its wait gives up. */
  lemma GivingUpBreaksConsistency(volumes: set<string>, workloads: set<string>, p: string) returns (es: seq<Event>)
    requires p in workloads || workloads == {}
    ensures Starts(es, CONSISTENCY, {(false, true)})
    ensures var c := Run(true, Begin(volumes, workloads), es).clusters;
            && c.source.primary == volumes == c.target.primary && c.source.running == workloads
            && (p in workloads ==> p in c.target.running)
    ensures NeverEarly(true, Begin(volumes, workloads), es)
  {
    PartsStart();
    StartsIn(CONSISTENCY, {(false, true)}, (false, true));
    es := TargetAloneFrom(volumes, workloads, p, TargetList(), {(false, true)});
  }

  lemma TrafficIsGone(c: Clusters)
    requires !c.target.traffic
    ensures var c' := Concluded(Concluded(c, WaitForTrafficTransitionComplete), DISABLE);
            !c'.source.traffic && !c'.target.traffic
  {
  }

  lemma SourceAlone(volumes: set<string>, workloads: set<string>, tasks: seq<Task>) returns (later: seq<Event>)
    requires |tasks| > 3 && tasks[..2] == INITIALIZATION
    requires tasks[2] == WaitForTrafficTransitionComplete && tasks[3] == DISABLE
    ensures NoStarts(later)
    ensures var c := Run(true, Started(volumes, workloads, tasks), later).clusters;
            !c.source.traffic && !c.target.traffic
  {
    var w := Started(volumes, workloads, tasks);
    later := Initialized(true, w, 0, tasks);
    TrafficIsGone(w.clusters);
    later := Concludes(true, w, later, 0, tasks, 2);
    later := Concludes(true, w, later, 0, tasks, 3);
  }

  /** As coded, the source's part of the uptime list alone takes the group out of service. */
  lemma GivingUpBreaksUptime(volumes: set<string>, workloads: set<string>) returns (es: seq<Event>)
    ensures Starts(es, UPTIME, {(true, false)})
    ensures var c := Run(true, Begin(volumes, workloads), es).clusters; !c.source.traffic && !c.target.traffic
  {
    var tasks := Projection(UPTIME_TASKS, true, false);
    PartsStart();
    var later := SourceAlone(volumes, workloads, tasks);
    es := From(tasks, later);
    RunFrom(true, volumes, workloads, tasks, later);
    StartsIn(UPTIME, {(true, false)}, (true, false));
    FromStarts(tasks, later, UPTIME, {(true, false)});
  }

  lemma MoreParts(es: seq<Event>, mode: Mode, parts: Parts, parts': Parts)
    requires Starts(es, mode, parts) && parts <= parts'
    ensures Starts(es, mode, parts')
  {
  }

  ghost predicate VolumesStayApart(volumes: set<string>, workloads: set<string>, parts: Parts) {
    forall es {:trigger Starts(es, CONSISTENCY, parts)} :: Starts(es, CONSISTENCY, parts) ==>
      VolumesApart(Run(true, Begin(volumes, workloads), es).clusters)
  }

  ghost predicate WorkloadsStayApart(volumes: set<string>, workloads: set<string>, parts: Parts) {
    forall es {:trigger Starts(es, CONSISTENCY, parts)} :: Starts(es, CONSISTENCY, parts) ==>
      NeverEarly(true, Begin(volumes, workloads), es) ==>
        WorkloadsApart(Run(true, Begin(volumes, workloads), es).clusters)
  }

  ghost predicate StaysAvailable(volumes: set<string>, workloads: set<string>, parts: Parts) {
    forall es {:trigger Starts(es, UPTIME, parts)} :: Starts(es, UPTIME, parts) ==>
      Available(Run(true, Begin(volumes, workloads), es).clusters)
  }

  /** Exactly when consistency holds although the waits give up: every run of the adapter's
      list and of these parts of it keeps its promise if and only if the target's part alone
      is not among them, or there is nothing to keep apart. */
  lemma ConsistencyAsCodedIff(volumes: set<string>, workloads: set<string>, parts: Parts)
    ensures VolumesStayApart(volumes, workloads, parts) <==> (false, true) !in parts || volumes == {}
    ensures WorkloadsStayApart(volumes, workloads, parts) <==> (false, true) !in parts || workloads == {}
  {
    if (false, true) in parts {
      var p := if workloads == {} then "" else (var p :| p in workloads; p);
      var es := GivingUpBreaksConsistency(volumes, workloads, p);
      MoreParts(es, CONSISTENCY, {(false, true)}, parts);
      if volumes != {} { var v :| v in volumes; }
    }
    forall es | Starts(es, CONSISTENCY, parts)
      ensures (false, true) !in parts || volumes == {} ==>
                VolumesApart(Run(true, Begin(volumes, workloads), es).clusters)
      ensures (false, true) !in parts || workloads == {} ==>
                NeverEarly(true, Begin(volumes, workloads), es) ==>
                  WorkloadsApart(Run(true, Begin(volumes, workloads), es).clusters)
    {
      if (false, true) !in parts {
        NeverBothPrimary(true, parts, volumes, workloads, es);
      } else {
        BoundsHold(true, volumes, workloads, es);
      }
    }
  }

  /** Exactly when uptime holds although the waits give up. */
  lemma UptimeAsCodedIff(volumes: set<string>, workloads: set<string>, parts: Parts)
    ensures StaysAvailable(volumes, workloads, parts) <==> (true, false) !in parts
  {
    if (true, false) in parts {
      var es := GivingUpBreaksUptime(volumes, workloads);
      MoreParts(es, UPTIME, {(true, false)}, parts);
    } else {
      forall es | Starts(es, UPTIME, parts) ensures Available(Run(true, Begin(volumes, workloads), es).clusters) {
        AlwaysAvailable(true, parts, volumes, workloads, es);
      }
    }
  }

  /** Whatever lists are run. */
  lemma {:induction false} BoundsHold(coded: bool, volumes: set<string>, workloads: set<string>, es: seq<Event>)
    ensures var c := Run(coded, Begin(volumes, workloads), es).clusters;
            Bounds(c) && c.volumes == volumes && c.workloads == workloads
  {
    if es != [] {
      var n := |es| - 1;
      BoundsHold(coded, volumes, workloads, es[..n]);
      NextAdvances(coded, Run(coded, Begin(volumes, workloads), es[..n]), es[n]);
    }
  }

  lemma NextAdvances(coded: bool, w: World, e: Event)
    requires Bounds(w.clusters)
    ensures var c := Next(coded, w, e).clusters;
            Bounds(c) && c.volumes == w.clusters.volumes && c.workloads == w.clusters.workloads
  {
    match e
    case Start(_, _) =>
    case Exec(id, _, part) =>
      if Active(w, id) {
        EffectAdvances(w.clusters, w.runners[id].tasks[w.runners[id].pc], part);
        EffectAdvances(w.clusters, w.runners[id].tasks[w.runners[id].pc], Everything(w.clusters));
      }
    case Cluster(m) => MoveAdvances(w.clusters, m);
  }

  // ---- a wait that finishes early ----

  predicate HaveLists(w: World, parts: Parts) {
    forall id :: id in w.runners ==> IsList(w.runners[id].tasks, CONSISTENCY, parts)
  }

  lemma NextHasLists(coded: bool, w: World, e: Event, parts: Parts)
    requires HaveLists(w, parts) && (e.Start? ==> IsList(e.tasks, CONSISTENCY, parts))
    ensures HaveLists(Next(coded, w, e), parts)
  {
  }

  lemma {:induction false} RunnersHaveLists(coded: bool, w: World, es: seq<Event>, parts: Parts)
    requires Starts(es, CONSISTENCY, parts) && HaveLists(w, parts)
    ensures HaveLists(Run(coded, w, es), parts)
  {
    if es != [] {
      var n := |es| - 1;
      assert es[n] in es && forall e :: e in es[..n] ==> e in es;
      RunnersHaveLists(coded, w, es[..n], parts);
      NextHasLists(coded, Run(coded, w, es[..n]), es[n], parts);
    }
  }

  /** The source's tasks after the wait for its pods. */
  predicate HoldsHandover(tasks: seq<Task>, k: nat) {
    && |tasks| >= k + 3 && tasks[k] == DemoteVolumes && tasks[k + 1] == WaitForVolumesDemoted
    && tasks[k + 2] == MarkVolumesReadyForPromotion
  }

  /** Where the wait stands, and what comes after it. */
  predicate HoldsWait(tasks: seq<Task>, pc: nat) {
    pc < |tasks| && tasks[pc] == WaitForWorkloadsScaledDown ==>
      && HoldsHandover(tasks, pc + 1)
      && (PromoteVolumes in tasks ==> HoldsTakeover(tasks, pc + 4))
  }

  lemma WaitInWhole(pc: nat)
    ensures HoldsWait(INITIALIZATION + CONSISTENCY_SOURCE + CONSISTENCY_TARGET + COMPLETION, pc)
  {
  }

  lemma WaitInSource(pc: nat)
    ensures HoldsWait(INITIALIZATION + CONSISTENCY_SOURCE + COMPLETION, pc)
  {
  }

  lemma NoWaitInTarget(tasks: seq<Task>)
    requires forall t :: t in tasks ==> t in CONSISTENCY_TARGET
    ensures WaitForWorkloadsScaledDown !in INITIALIZATION + tasks + COMPLETION
  {
  }

  lemma WaitInList(tasks: seq<Task>, parts: Parts, pc: nat)
    requires IsList(tasks, CONSISTENCY, parts)
    ensures HoldsWait(tasks, pc)
  {
    if tasks == CONSISTENCY_TASKS {
      WaitInWhole(pc);
    } else {
      var p :| p in parts && tasks == Projection(CONSISTENCY_TASKS, p.0, p.1);
      WaitInPart(p.0, p.1, pc);
    }
  }

  lemma WaitInPart(isSource: bool, isTarget: bool, pc: nat)
    ensures HoldsWait(Projection(CONSISTENCY_TASKS, isSource, isTarget), pc)
  {
    ConsistencyProjection(isSource, isTarget);
    if isSource {
      if isTarget {
        WaitInWhole(pc);
      } else {
        assert INITIALIZATION + CONSISTENCY_SOURCE + [] + COMPLETION
            == INITIALIZATION + CONSISTENCY_SOURCE + COMPLETION;
        WaitInSource(pc);
      }
    } else {
      var target := if isTarget then CONSISTENCY_TARGET else [];
      assert INITIALIZATION + [] + target + COMPLETION == INITIALIZATION + target + COMPLETION;
      NoWaitInTarget(target);
    }
  }

  /** What the rest of the source's tasks leaves alone. */
  predicate SameTarget(c: Clusters, c': Clusters) {
    && c'.target == c.target && c'.volumes == c.volumes && c'.workloads == c.workloads
    && c'.source.desired == c.source.desired && c'.source.running == c.source.running
    && Bounds(c')
  }

  lemma SourceTask(c: Clusters, t: Task)
    requires Bounds(c) && t in {DemoteVolumes, WaitForVolumesDemoted, MarkVolumesReadyForPromotion}
    ensures var c' := Concluded(c, t);
            && SameTarget(c, c') && c'.source.primary == c.source.primary
            && (t.DemoteVolumes? ==> c'.source.spec == {})
            && (t.MarkVolumesReadyForPromotion? ==> c'.marks.volumesReady)
  {
  }

  lemma SourceSettled(c: Clusters)
    requires Bounds(c) && c.source.spec == {}
    ensures var c' := SettledAt(c, Source, c.volumes); SameTarget(c, c') && c'.source.primary == {}
  {
    assert (c.source.primary - c.volumes) + (c.source.spec * c.volumes) == {};
  }

  /** The engine goes on to the mark. */
  lemma HandsOver(coded: bool, w: World, es: seq<Event>, id: nat, tasks: seq<Task>, k: nat) returns (es': seq<Event>)
    requires NoStarts(es) && At(Run(coded, w, es), id, tasks, k) && HoldsHandover(tasks, k)
    requires Bounds(Run(coded, w, es).clusters)
    ensures NoStarts(es') && At(Run(coded, w, es'), id, tasks, k + 3)
    ensures var c, c' := Run(coded, w, es).clusters, Run(coded, w, es').clusters;
            SameTarget(c, c') && c'.source.primary == {} && c'.marks.volumesReady
  {
    var c := Run(coded, w, es).clusters;
    SourceTask(c, tasks[k]);
    es' := Concludes(coded, w, es, id, tasks, k);
    SourceSettled(Run(coded, w, es').clusters);
    es' := Settles(coded, w, es', Source, c.volumes);
    SourceTask(Run(coded, w, es').clusters, tasks[k + 1]);
    es' := Concludes(coded, w, es', id, tasks, k + 1);
    SourceTask(Run(coded, w, es').clusters, tasks[k + 2]);
    es' := Concludes(coded, w, es', id, tasks, k + 2);
  }

  /** Both clusters' pods of a workload come up that is scaled up on both. */
  lemma BothComeUp(coded: bool, w: World, es: seq<Event>, p: string) returns (es': seq<Event>)
    requires NoStarts(es)
    requires var c := Run(coded, w, es).clusters; p in c.source.desired && p in c.target.desired
    ensures NoStarts(es')
    ensures var c, c' := Run(coded, w, es).clusters, Run(coded, w, es').clusters;
            && p in c'.source.running && p in c'.target.running
            && c'.source.primary == c.source.primary && c'.target.primary == c.target.primary
  {
    es' := ComesUp(coded, w, es, Source, p);
    es' := ComesUp(coded, w, es', Target, p);
  }

  /** The target's tasks, by an engine of its own. */
  function TargetList(): seq<Task> {
    Projection(CONSISTENCY_TASKS, false, true)
  }

  lemma NewEngine(coded: bool, w: World) returns (later: seq<Event>, id: nat)
    requires Bounds(w.clusters) && (coded || w.clusters.marks.volumesReady)
    ensures NoStarts(later)
    ensures var c, c' := w.clusters, Run(coded, w, [Start(id, TargetList())] + later).clusters;
            SameSource(c, c') && c'.target.primary == c.volumes && c'.target.desired == c.workloads
  {
    id := Unused(w.runners.Keys);
    var start := [Start(id, TargetList())];
    assert [] + start == start;
    RunSnoc(coded, w, [], Start(id, TargetList()));
    var w' := Run(coded, w, start);
    PartsStart();
    later := Initialized(coded, w', id, TargetList());
    later := TakesOver(coded, w', later, id, TargetList(), 2);
    RunAppend(coded, w, start, later);
  }

  lemma {:induction false} Unused(ids: set<nat>) returns (id: nat)
    ensures forall i :: i in ids ==> i < id
  {
    if ids == {} {
      id := 0;
    } else {
      var i :| i in ids;
      var rest := Unused(ids - {i});
      assert forall j :: j in ids ==> j == i || j in ids - {i};
      id := if i < rest then rest else i + 1;
    }
  }

  /** After the wait has finished early, in the state `w`: the same engine takes over, or
      another one that runs the target's part. */
  lemma EarlyGoesOn(coded: bool, w: World, parts: Parts, id: nat, tasks: seq<Task>, k: nat, p: string)
    returns (later: seq<Event>)
    requires At(w, id, tasks, k) && HoldsHandover(tasks, k) && Bounds(w.clusters) && p in w.clusters.source.desired
    requires HoldsTakeover(tasks, k + 3) || (false, true) in parts
    ensures Starts(later, CONSISTENCY, parts) && (HoldsTakeover(tasks, k + 3) ==> NoStarts(later))
    ensures var c := Run(coded, w, later).clusters;
            && p in c.source.running && p in c.target.running
            && c.source.primary == {} && c.target.primary == w.clusters.volumes
  {
    var first := HandsOver(coded, w, [], id, tasks, k);
    var w' := Run(coded, w, first);
    var second: seq<Event>;
    if HoldsTakeover(tasks, k + 3) {
      second := TakesOver(coded, w', [], id, tasks, k + 3);
    } else {
      var n;
      second, n := NewEngine(coded, w');
      second := [Start(n, TargetList())] + second;
      StartsIn(CONSISTENCY, parts, (false, true));
    }
    var third := BothComeUp(coded, Run(coded, w', second), [], p);
    RunAppend(coded, w, first, second);
    RunAppend(coded, w, first + second, third);
    later := first + second + third;
  }

  lemma EarlyStep(coded: bool, w: World, e: Event)
    requires FinishesEarly(w, e)
    ensures var r, w' := w.runners[e.id], Next(coded, w, e);
            At(w', e.id, r.tasks, r.pc + 1) && w'.clusters.source.desired == w.clusters.source.desired
  {
  }

  /** The state after such a wait: the engine has the rest of its list before it. */
  lemma FinishedEarly(coded: bool, parts: Parts, volumes: set<string>, workloads: set<string>, es: seq<Event>, e: Event)
    requires Starts(es, CONSISTENCY, parts) && FinishesEarly(Run(coded, Begin(volumes, workloads), es), e)
    ensures var w := Run(coded, Begin(volumes, workloads), es);
            var r, w' := w.runners[e.id], Next(coded, w, e);
            && At(w', e.id, r.tasks, r.pc + 1) && HoldsHandover(r.tasks, r.pc + 1)
            && (PromoteVolumes in r.tasks ==> HoldsTakeover(r.tasks, r.pc + 4))
            && Bounds(w'.clusters) && w'.clusters.volumes == volumes
            && w'.clusters.source.desired == w.clusters.source.desired
  {
    var w0 := Begin(volumes, workloads);
    var w := Run(coded, w0, es);
    BoundsHold(coded, volumes, workloads, es);
    NextAdvances(coded, w, e);
    EarlyStep(coded, w, e);
    RunnersHaveLists(coded, w0, es, parts);
    WaitInList(w.runners[e.id].tasks, parts, w.runners[e.id].pc);
  }

  /** Any run in which the wait for the source's pods finishes while a workload is scaled up
      can be continued until the workload runs on both clusters, the source's volumes
      demoted and the target's primary: by the same engine if it runs the whole list, and
      otherwise by one that runs the target's part. */
  lemma EarlyFinishLetsBothRun(coded: bool, parts: Parts, volumes: set<string>, workloads: set<string>,
                               es: seq<Event>, e: Event, p: string) returns (later: seq<Event>)
    requires Starts(es, CONSISTENCY, parts)
    requires var w := Run(coded, Begin(volumes, workloads), es);
             && FinishesEarly(w, e) && p in w.clusters.source.desired
             && (PromoteVolumes in w.runners[e.id].tasks || (false, true) in parts)
    ensures Starts(es + [e] + later, CONSISTENCY, parts)
    ensures PromoteVolumes in Run(coded, Begin(volumes, workloads), es).runners[e.id].tasks ==> NoStarts(later)
    ensures var c := Run(coded, Begin(volumes, workloads), es + [e] + later).clusters;
            && p in c.source.running && p in c.target.running
            && c.source.primary == {} && c.target.primary == volumes
  {
    var w0 := Begin(volumes, workloads);
    var w := Run(coded, w0, es);
    var r := w.runners[e.id];
    FinishedEarly(coded, parts, volumes, workloads, es, e);
    RunSnoc(coded, w0, es, e);
    later := EarlyGoesOn(coded, Next(coded, w, e), parts, e.id, r.tasks, r.pc + 1, p);
    RunAppend(coded, w0, es + [e], later);
  }

  // ---- Flux ----

  lemma ListStart()
    ensures |CONSISTENCY_TASKS| > 13 && CONSISTENCY_TASKS[..2] == INITIALIZATION && CONSISTENCY_TASKS[2] == DISABLE
    ensures CONSISTENCY_TASKS[3] == ScaleDownWorkloads && CONSISTENCY_TASKS[4] == DisableFluxReconciliation
    ensures CONSISTENCY_TASKS[5] == WaitForWorkloadsScaledDown && CONSISTENCY_TASKS[10] == PromoteVolumes
  {
  }

  /** Scaled down, its pods gone, and scaled up again. */
  lemma ScaledUpAgain(volumes: set<string>, p: string, tasks: seq<Task>) returns (later: seq<Event>)
    requires |tasks| > 5 && tasks[..2] == INITIALIZATION && tasks[2] == DISABLE && tasks[3] == ScaleDownWorkloads
    ensures NoStarts(later)
    ensures var w := Run(false, Started(volumes, {p}, tasks), later);
            At(w, 0, tasks, 4) && w.clusters.source.running == {} && w.clusters.source.desired == {p}
  {
    var w := Started(volumes, {p}, tasks);
    later := Initialized(false, w, 0, tasks);
    later := Concludes(false, w, later, 0, tasks, 2);
    var c := Run(false, w, later).clusters;
    assert c.source.desired - Everything(c) == {} && {p} - {p} == {} && {} + {p} == {p};
    later := Concludes(false, w, later, 0, tasks, 3);
    later := Then(false, w, later, Cluster(Pods(Source, p)));
    later := Then(false, w, later, Cluster(Reconcile(Source, p)));
  }

  /** Flux can scale a workload of the source up again between the task that scales it down
      and the task that tells Flux to leave it alone. The wait for its pods then finishes
      early, and in the end the workload runs on both clusters, although the one engine
      runs the whole list and every wait blocks. */
  lemma FluxMakesBothRun(volumes: set<string>, p: string) returns (es: seq<Event>)
    ensures Starts(es, CONSISTENCY, {})
    ensures var c := Run(false, Begin(volumes, {p}), es).clusters;
            && c.source.running == {p} && c.target.running == {p}
            && c.source.primary == {} && c.target.primary == volumes
  {
    var tasks, w0 := CONSISTENCY_TASKS, Started(volumes, {p}, CONSISTENCY_TASKS);
    ListStart();
    var later := ScaledUpAgain(volumes, p, tasks);
    later := Concludes(false, w0, later, 0, tasks, 4);
    RunFrom(false, volumes, {p}, tasks, later);
    FromStarts(tasks, later, CONSISTENCY, {});
    var first, e := From(tasks, later), Exec(0, Ack, {});
    later := EarlyFinishLetsBothRun(false, {}, volumes, {p}, first, e, p);
    es := first + [e] + later;
    BoundsHold(false, volumes, {p}, es);
  }
}
