/** Runs of the failover workflows: engines on either cluster take their tasks in order,
    interleaved with each other and with what the clusters do in their own time. A task
    may fail before it has acted, or after it has acted on a part. */
module WorkflowRun {
  import opened Records
  import opened Workflow
  import opened WorkflowOrder
  import opened WorkflowEffects

  /** `leased`: the lock carries the token that this engine has taken. */
  datatype Runner = Runner(tasks: seq<Task>, pc: nat, failed: bool, leased: bool)

  datatype World = World(clusters: Clusters, runners: map<nat, Runner>)

  datatype Event =
    | Start(id: nat, tasks: seq<Task>)
    | Exec(id: nat, fate: Fate, part: set<string>)
    | Cluster(move: Move)

  function Begin(volumes: set<string>, workloads: set<string>): World {
    World(Init(volumes, workloads), map[])
  }

  predicate Active(w: World, id: nat) {
    id in w.runners && !w.runners[id].failed && w.runners[id].pc < |w.runners[id].tasks|
  }

  /** A task with a fate: the clusters afterwards, and whether it succeeded. */
  function Executed(c: Clusters, t: Task, coded: bool, fate: Fate, part: set<string>): (Clusters, bool) {
    match fate
    case Dropped => (c, false)
    case LostAck => (Effect(c, t, part), false)
    case Ack => if Ready(c, t, coded) then (Concluded(c, t), true) else (c, false)
  }

  /** Whether the lock carries the engine's token after a task with a fate. */
  function LeasedAfter(leased: bool, t: Task, fate: Fate): bool {
    if fate == Dropped then leased
    else if t.AcquireLock? then true
    else if t.ReleaseLock? then false
    else leased
  }

  /** The engine's next task: in order, and nothing after a failure. */
  function StepExec(coded: bool, w: World, id: nat, fate: Fate, part: set<string>): World
    requires Active(w, id)
  {
    var r := w.runners[id].(leased := LeasedAfter(w.runners[id].leased, w.runners[id].tasks[w.runners[id].pc], fate));
    var (c, ok) := Executed(w.clusters, r.tasks[r.pc], coded, fate, part);
    World(c, w.runners[id := if ok then r.(pc := r.pc + 1) else r.(failed := true)])
  }

  function Next(coded: bool, w: World, e: Event): World {
    match e
    case Start(id, tasks) =>
      if id in w.runners then w else w.(runners := w.runners[id := Runner(tasks, 0, false, false)])
    case Exec(id, fate, part) => if Active(w, id) then StepExec(coded, w, id, fate, part) else w
    case Cluster(m) => w.(clusters := Moved(w.clusters, m))
  }

  function Run(coded: bool, w: World, es: seq<Event>): World {
    if es == [] then w else Next(coded, Run(coded, w, es[..|es| - 1]), es[|es| - 1])
  }

  lemma RunSnoc(coded: bool, w: World, es: seq<Event>, e: Event)
    ensures Run(coded, w, es + [e]) == Next(coded, Run(coded, w, es), e)
  {
    assert (es + [e])[..|es|] == es;
  }

  lemma {:induction false} RunAppend(coded: bool, w: World, es: seq<Event>, es': seq<Event>)
    ensures Run(coded, w, es + es') == Run(coded, Run(coded, w, es), es')
  {
    if es' == [] {
      assert es + es' == es;
    } else {
      var n := |es'| - 1;
      assert (es + es')[..|es + es'| - 1] == es + es'[..n];
      RunAppend(coded, w, es, es'[..n]);
    }
  }

  // ---- what every run keeps ----

  predicate RunnerOk(c: Clusters, r: Runner, mode: Mode, coded: bool) {
    r.pc <= |r.tasks| && Ordered(r.tasks, mode, coded) && forall t :: t in Done(r.tasks[..r.pc]) ==> Fact(c, t)
  }

  ghost predicate Inv(w: World, mode: Mode, coded: bool) {
    && Bounds(w.clusters) && TrafficOk(w.clusters) && ModeOk(w.clusters, mode)
    && forall id :: id in w.runners ==> RunnerOk(w.clusters, w.runners[id], mode, coded)
  }

  lemma RunnerStaysOk(c: Clusters, c': Clusters, r: Runner, mode: Mode, coded: bool)
    requires Bounds(c) && Bounds(c') && Advances(c, c') && RunnerOk(c, r, mode, coded)
    ensures RunnerOk(c', r, mode, coded)
  {
    forall t | t in Done(r.tasks[..r.pc]) ensures Fact(c', t) { FactStays(c, c', t); }
  }

  lemma RunnerMovesOn(c: Clusters, r: Runner, mode: Mode, coded: bool)
    requires RunnerOk(c, r, mode, coded) && r.pc < |r.tasks| && Fact(c, Standard(r.tasks[r.pc]))
    ensures RunnerOk(c, r.(pc := r.pc + 1), mode, coded)
  {
    assert r.tasks[..r.pc + 1][..r.pc] == r.tasks[..r.pc];
  }

  /** The list has made sure of what a task needs before it. */
  lemma TaskIsPrepared(c: Clusters, r: Runner, mode: Mode, coded: bool)
    requires RunnerOk(c, r, mode, coded) && r.pc < |r.tasks|
    ensures Prior(c, r.tasks[r.pc], mode, coded)
  {
  }

  lemma ExecutedIsSafe(c: Clusters, t: Task, coded: bool, fate: Fate, part: set<string>, mode: Mode)
    requires Bounds(c) && TrafficOk(c) && ModeOk(c, mode) && Prior(c, t, mode, coded)
    ensures var (c', ok) := Executed(c, t, coded, fate, part);
            && Bounds(c') && Advances(c, c') && TrafficOk(c') && ModeOk(c', mode)
            && (ok ==> Fact(c', Standard(t)))
  {
    if fate == LostAck {
      EffectIsSafe(c, t, part, coded, mode);
    } else if fate == Ack && Ready(c, t, coded) {
      ConcludedIsSafe(c, t, coded, mode);
    } else {
      EffectAdvances(c, ValidateFailover, {});
    }
  }

  lemma ExecKeepsInv(coded: bool, w: World, id: nat, fate: Fate, part: set<string>, mode: Mode)
    requires Inv(w, mode, coded) && Active(w, id)
    ensures Inv(StepExec(coded, w, id, fate, part), mode, coded)
    ensures Advances(w.clusters, StepExec(coded, w, id, fate, part).clusters)
  {
    var w', r := StepExec(coded, w, id, fate, part), w.runners[id];
    assert RunnerOk(w.clusters, r, mode, coded);
    TaskIsPrepared(w.clusters, r, mode, coded);
    ExecutedIsSafe(w.clusters, r.tasks[r.pc], coded, fate, part, mode);
    forall i | i in w'.runners ensures RunnerOk(w'.clusters, w'.runners[i], mode, coded) {
      RunnerStaysOk(w.clusters, w'.clusters, w.runners[i], mode, coded);
      if i == id && w'.runners[i].pc != r.pc { RunnerMovesOn(w'.clusters, r, mode, coded); }
    }
  }

  lemma MoveKeepsInv(w: World, m: Move, mode: Mode, coded: bool)
    requires Inv(w, mode, coded)
    ensures Inv(w.(clusters := Moved(w.clusters, m)), mode, coded)
  {
    MoveAdvances(w.clusters, m);
    MoveKeepsSafety(w.clusters, m, mode);
    forall i | i in w.runners ensures RunnerOk(Moved(w.clusters, m), w.runners[i], mode, coded) {
      RunnerStaysOk(w.clusters, Moved(w.clusters, m), w.runners[i], mode, coded);
    }
  }

  lemma StartKeepsInv(w: World, id: nat, tasks: seq<Task>, mode: Mode, coded: bool)
    requires Inv(w, mode, coded) && Ordered(tasks, mode, coded)
    ensures Inv(w.(runners := w.runners[id := Runner(tasks, 0, false, false)]), mode, coded)
  {
    assert Done([]) == {};
  }

  lemma NextKeepsInv(coded: bool, w: World, e: Event, mode: Mode)
    requires Inv(w, mode, coded) && (e.Start? ==> Ordered(e.tasks, mode, coded))
    ensures Inv(Next(coded, w, e), mode, coded)
    ensures Next(coded, w, e).clusters.volumes == w.clusters.volumes
            && Next(coded, w, e).clusters.workloads == w.clusters.workloads
  {
    match e
    case Start(id, tasks) => StartKeepsInv(w, id, tasks, mode, coded);
    case Exec(id, fate, part) => if Active(w, id) { ExecKeepsInv(coded, w, id, fate, part, mode); }
    case Cluster(m) => MoveKeepsInv(w, m, mode, coded);
  }

  /** Only lists in which each task comes after the tasks it needs. */
  predicate AllOrdered(es: seq<Event>, mode: Mode, coded: bool) {
    forall e :: e in es && e.Start? ==> Ordered(e.tasks, mode, coded)
  }

  lemma {:induction false} Reachable(coded: bool, volumes: set<string>, workloads: set<string>, es: seq<Event>,
                                     mode: Mode)
    requires AllOrdered(es, mode, coded)
    ensures var w := Run(coded, Begin(volumes, workloads), es);
            Inv(w, mode, coded) && w.clusters.volumes == volumes && w.clusters.workloads == workloads
  {
    if es != [] {
      var n := |es| - 1;
      assert forall e :: e in es[..n] ==> e in es;
      assert es[n] in es;
      Reachable(coded, volumes, workloads, es[..n], mode);
      NextKeepsInv(coded, Run(coded, Begin(volumes, workloads), es[..n]), es[n], mode);
    }
  }

  /** Which parts of the adapter's list the clusters of a run may start. */
  type Parts = set<(bool, bool)>

  /** The adapter's list, or one of these parts of it, as the factory creates it for a
      cluster that is the source or not, and the target or not. */
  predicate IsList(tasks: seq<Task>, mode: Mode, parts: Parts) {
    || tasks == AdapterTasks(mode)
    || exists p :: p in parts && tasks == Projection(AdapterTasks(mode), p.0, p.1)
  }

  ghost predicate Starts(es: seq<Event>, mode: Mode, parts: Parts) {
    forall e :: e in es && e.Start? ==> IsList(e.tasks, mode, parts)
  }

  /** Parts that are all reliable: any, if the waits for the other cluster block. */
  predicate AllReliable(parts: Parts, mode: Mode, coded: bool) {
    forall p :: p in parts ==> Reliable(mode, coded, p.0, p.1)
  }

  lemma StartsAreOrdered(es: seq<Event>, mode: Mode, coded: bool, parts: Parts)
    requires Starts(es, mode, parts) && AllReliable(parts, mode, coded)
    ensures AllOrdered(es, mode, coded)
  {
    AdapterIsOrdered(mode, coded);
    AdapterIsInMode(mode);
    forall e | e in es && e.Start? ensures Ordered(e.tasks, mode, coded) {
      if e.tasks != AdapterTasks(mode) {
        var p :| p in parts && e.tasks == Projection(AdapterTasks(mode), p.0, p.1);
        ProjectionIsOrdered(AdapterTasks(mode), mode, coded, p.0, p.1);
      }
    }
  }

  // ---- the two promises ----

  /** A wait for the source's pods finishes while a workload of the source is scaled up. */
  predicate FinishesEarly(w: World, e: Event) {
    && e.Exec? && e.fate == Ack && Active(w, e.id)
    && w.runners[e.id].tasks[w.runners[e.id].pc] == WaitForWorkloadsScaledDown
    && w.clusters.source.running == {} && w.clusters.source.desired != {}
  }

  ghost predicate NeverEarly(coded: bool, w: World, es: seq<Event>) {
    forall i {:trigger es[..i]} :: 0 <= i < |es| ==> !FinishesEarly(Run(coded, w, es[..i]), es[i])
  }

  lemma NextIsEarlyIff(coded: bool, w: World, e: Event)
    ensures Next(coded, w, e).clusters.early <==> w.clusters.early || FinishesEarly(w, e)
  {
    if e.Exec? && Active(w, e.id) {
      EffectIsNotEarly(w.clusters, w.runners[e.id].tasks[w.runners[e.id].pc], e.part);
    }
  }

  lemma {:induction false} NothingIsEarly(coded: bool, w: World, es: seq<Event>)
    requires !w.clusters.early && NeverEarly(coded, w, es)
    ensures !Run(coded, w, es).clusters.early
  {
    if es != [] {
      var n := |es| - 1;
      forall i | 0 <= i < n ensures !FinishesEarly(Run(coded, w, es[..n][..i]), es[..n][i]) {
        assert es[..n][..i] == es[..i];
      }
      NothingIsEarly(coded, w, es[..n]);
      NextIsEarlyIff(coded, Run(coded, w, es[..n]), es[n]);
    }
  }

  predicate VolumesApart(c: Clusters) {
    c.source.primary !! c.target.primary
  }

  /** No target workload runs while a source workload runs, and no volume of the source is
      demoted under a running workload. */
  predicate WorkloadsApart(c: Clusters) {
    && (c.source.running == {} || c.target.running == {})
    && (c.source.spec != c.volumes ==> c.source.running == {})
  }

  /** Consistency: however many engines run the adapter's list or reliable parts of it on
      either cluster, interleaved with each other and with the clusters' own steps, and
      wherever tasks fail, no volume is ever primary on both clusters. If moreover no wait
      for the source's pods finishes while a workload of the source is scaled up, target
      workloads never run while source workloads run. Traffic only goes to a cluster that
      serves. */
  lemma NeverBothPrimary(coded: bool, parts: Parts, volumes: set<string>, workloads: set<string>, es: seq<Event>)
    requires Starts(es, CONSISTENCY, parts) && AllReliable(parts, CONSISTENCY, coded)
    ensures var c := Run(coded, Begin(volumes, workloads), es).clusters;
            && VolumesApart(c)
            && (NeverEarly(coded, Begin(volumes, workloads), es) ==> WorkloadsApart(c))
            && (c.source.traffic ==> Serves(c.source, c)) && (c.target.traffic ==> Serves(c.target, c))
  {
    StartsAreOrdered(es, CONSISTENCY, coded, parts);
    Reachable(coded, volumes, workloads, es, CONSISTENCY);
    if NeverEarly(coded, Begin(volumes, workloads), es) { NothingIsEarly(coded, Begin(volumes, workloads), es); }
  }

  predicate Available(c: Clusters) {
    exists s :: s in [c.source, c.target] && s.traffic && s.primary == c.volumes && s.running == c.workloads
  }

  /** Uptime: in every state of every such run one cluster has all volumes primary, all
      workloads running, and traffic directed to it. */
  lemma AlwaysAvailable(coded: bool, parts: Parts, volumes: set<string>, workloads: set<string>, es: seq<Event>)
    requires Starts(es, UPTIME, parts) && AllReliable(parts, UPTIME, coded)
    ensures var c := Run(coded, Begin(volumes, workloads), es).clusters;
            Available(c) && c.volumes == volumes && c.workloads == workloads
  {
    StartsAreOrdered(es, UPTIME, coded, parts);
    Reachable(coded, volumes, workloads, es, UPTIME);
    var c := Run(coded, Begin(volumes, workloads), es).clusters;
    assert c.source in [c.source, c.target] && c.target in [c.source, c.target];
  }

  // ---- Flux ----

  /** Flux scales a workload of the source up that is scaled down, having not been told to
      leave the workloads alone. */
  predicate Reverts(w: World, e: Event) {
    && e.Cluster? && e.move.Reconcile? && e.move.at == Source && e.move.workload in w.clusters.workloads
    && e.move.workload !in w.clusters.source.desired && !w.clusters.source.ignored
  }

  ghost predicate FluxKeepsOut(coded: bool, w: World, es: seq<Event>) {
    forall i {:trigger es[..i]} :: 0 <= i < |es| ==> !Reverts(Run(coded, w, es[..i]), es[i])
  }

  predicate ScaledDown(w: World, id: nat) {
    id in w.runners && w.runners[id].pc <= |w.runners[id].tasks|
      && ScaleDownWorkloads in Done(w.runners[id].tasks[..w.runners[id].pc])
    ==> w.clusters.source.desired == {}
  }

  ghost predicate ScaleInv(w: World) {
    Bounds(w.clusters) && forall id {:trigger ScaledDown(w, id)} :: ScaledDown(w, id)
  }

  lemma EffectDesired(c: Clusters, t: Task, part: set<string>)
    requires Bounds(c)
    ensures Bounds(Effect(c, t, part)) && Effect(c, t, part).source.desired <= c.source.desired
    ensures t == ScaleDownWorkloads ==> Effect(c, t, Everything(c)).source.desired == {}
  {
    EffectAdvances(c, t, part);
  }

  lemma MoveDesired(w: World, m: Move)
    requires Bounds(w.clusters) && !Reverts(w, Cluster(m))
    ensures Bounds(Moved(w.clusters, m)) && Moved(w.clusters, m).source.desired <= w.clusters.source.desired
  {
    MoveAdvances(w.clusters, m);
  }

  /** The event finishes a task that scales the source down. */
  predicate ScalesDown(w: World, e: Event) {
    && e.Exec? && Active(w, e.id) && e.fate == Ack
    && w.runners[e.id].tasks[w.runners[e.id].pc] == ScaleDownWorkloads
  }

  lemma DesiredAfter(coded: bool, w: World, e: Event)
    requires Bounds(w.clusters) && !Reverts(w, e)
    ensures var c := Next(coded, w, e).clusters;
            && Bounds(c) && c.source.desired <= w.clusters.source.desired
            && (ScalesDown(w, e) ==> c.source.desired == {})
  {
    match e
    case Start(_, _) =>
    case Exec(id, _, part) =>
      if Active(w, id) {
        EffectDesired(w.clusters, w.runners[id].tasks[w.runners[id].pc], part);
        EffectDesired(w.clusters, w.runners[id].tasks[w.runners[id].pc], Everything(w.clusters));
      }
    case Cluster(m) => MoveDesired(w, m);
  }

  lemma ScaledDownAfter(coded: bool, w: World, e: Event, id: nat)
    requires ScaleInv(w) && !Reverts(w, e)
    ensures ScaledDown(Next(coded, w, e), id)
  {
    var w' := Next(coded, w, e);
    DesiredAfter(coded, w, e);
    assert ScaledDown(w, id);
    if id in w.runners && w'.runners[id].pc == w.runners[id].pc + 1 <= |w.runners[id].tasks| {
      var r := w.runners[id];
      assert r.tasks[..r.pc + 1][..r.pc] == r.tasks[..r.pc];
    } else if id !in w.runners {
      assert Done([]) == {};
    }
  }

  lemma {:induction false} ScaleHolds(coded: bool, volumes: set<string>, workloads: set<string>, es: seq<Event>)
    requires FluxKeepsOut(coded, Begin(volumes, workloads), es)
    ensures ScaleInv(Run(coded, Begin(volumes, workloads), es))
  {
    if es != [] {
      var n, w0 := |es| - 1, Begin(volumes, workloads);
      forall i | 0 <= i < n ensures !Reverts(Run(coded, w0, es[..n][..i]), es[..n][i]) {
        assert es[..n][..i] == es[..i];
      }
      ScaleHolds(coded, volumes, workloads, es[..n]);
      DesiredAfter(coded, Run(coded, w0, es[..n]), es[n]);
      forall id ensures ScaledDown(Run(coded, w0, es), id) {
        ScaledDownAfter(coded, Run(coded, w0, es[..n]), es[n], id);
      }
    }
  }

  /** If Flux never scales a workload of the source up that was scaled down, before it is
      told to leave them alone, no wait finishes early. */
  lemma FluxKeepsOutIsNeverEarly(coded: bool, parts: Parts, volumes: set<string>, workloads: set<string>,
                                 es: seq<Event>)
    requires Starts(es, CONSISTENCY, parts) && AllReliable(parts, CONSISTENCY, coded)
    requires FluxKeepsOut(coded, Begin(volumes, workloads), es)
    ensures NeverEarly(coded, Begin(volumes, workloads), es)
  {
    var w0 := Begin(volumes, workloads);
    forall i | 0 <= i < |es| ensures !FinishesEarly(Run(coded, w0, es[..i]), es[i]) {
      forall k | 0 <= k < i ensures !Reverts(Run(coded, w0, es[..i][..k]), es[..i][k]) {
        assert es[..i][..k] == es[..k];
      }
      ScaleHolds(coded, volumes, workloads, es[..i]);
      assert forall e :: e in es[..i] ==> e in es;
      StartsAreOrdered(es[..i], CONSISTENCY, coded, parts);
      Reachable(coded, volumes, workloads, es[..i], CONSISTENCY);
      ScaledDownIsNotEarly(coded, Run(coded, w0, es[..i]), es[i]);
    }
  }

  lemma ScaledDownIsNotEarly(coded: bool, w: World, e: Event)
    requires ScaleInv(w) && Inv(w, CONSISTENCY, coded)
    ensures !FinishesEarly(w, e)
  {
    assert ScaleDownWorkloads in Needs(WaitForWorkloadsScaledDown, CONSISTENCY, coded);
    if e.Exec? && Active(w, e.id) {
      assert RunnerOk(w.clusters, w.runners[e.id], CONSISTENCY, coded) && ScaledDown(w, e.id);
    }
  }
}
