/** What the tasks of a failover do to the two clusters, as their documentation says,
    and what stays true of the clusters when the tasks come in the right order. */
module WorkflowEffects {
  import opened Records
  import opened Workflow
  import opened WorkflowOrder

  /** What is asked of a cluster's volumes and workloads, and what they are. */
  datatype Site = Site(
    spec: set<string>,     // volumes whose replicationState is primary
    primary: set<string>,  // volumes that are primary
    desired: set<string>,  // workloads scaled up
    running: set<string>,  // workloads with pods
    ignored: bool,         // Flux is told to leave the workloads alone
    traffic: bool)         // DNS points here

  /** What tasks leave for others to see. */
  datatype Marks = Marks(
    volumesReady: bool, targetReady: bool, transitioned: bool,
    verified: bool,     // the data on the target has been looked at
    transferred: bool,  // the global state names the target
    recorded: bool)     // the history has the failover

  datatype Clusters = Clusters(
    volumes: set<string>, workloads: set<string>,
    source: Site, target: Site,
    marks: Marks,
    early: bool)  // the wait for the source's pods has finished while a workload was scaled up

  datatype Where = Source | Target

  /** What the clusters do in their own time: pods follow the scale, volumes follow their
      replicationState, and Flux restores the scale. */
  datatype Move =
    | Pods(at: Where, workload: string)
    | Volume(at: Where, volume: string)
    | Reconcile(at: Where, workload: string)

  function Init(volumes: set<string>, workloads: set<string>): Clusters {
    Clusters(volumes, workloads,
             Site(volumes, volumes, workloads, workloads, false, true),
             Site({}, {}, {}, {}, true, false),
             Marks(false, false, false, false, false, false), false)
  }

  /** What a wait waits for. As coded, the waits for the other cluster give up and report
      success; as documented, they do not. */
  predicate Ready(c: Clusters, t: Task, coded: bool) {
    match t
    case WaitForWorkloadsScaledDown => c.source.running == {}
    case WaitForVolumesDemoted => c.source.primary == {}
    case WaitForVolumesPromoted => c.target.primary == c.volumes
    case WaitForTargetReady => c.target.running == c.workloads
    case WaitForVolumesReadyForPromotion => coded || c.marks.volumesReady
    case WaitForTargetReadyForTraffic => coded || c.marks.targetReady
    case WaitForTrafficTransitionComplete => coded || c.marks.transitioned
    case _ => true
  }

  /** A task's effect on `part` of the volumes and workloads. */
  function Effect(c: Clusters, t: Task, part: set<string>): Clusters {
    match t
    case UpdateNetworkResources(Disable) => c.(source := c.source.(traffic := false))
    case UpdateNetworkResources(_) => c.(target := c.target.(traffic := true))
    case ScaleDownWorkloads => c.(source := c.source.(desired := c.source.desired - part))
    case DisableFluxReconciliation => c.(source := c.source.(ignored := true))
    case DemoteVolumes => c.(source := c.source.(spec := c.source.spec - part))
    case MarkVolumesReadyForPromotion => c.(marks := c.marks.(volumesReady := true))
    case PromoteVolumes => c.(target := c.target.(spec := c.target.spec + part * c.volumes))
    case ScaleUpWorkloads => c.(target := c.target.(desired := c.target.desired + part * c.workloads))
    case TriggerFluxReconciliation => c.(target := c.target.(ignored := false))
    case MarkTargetReadyForTraffic => c.(marks := c.marks.(targetReady := true))
    case MarkTrafficTransitionComplete => c.(marks := c.marks.(transitioned := true))
    case VerifyDataAvailability => c.(marks := c.marks.(verified := true))
    case UpdateGlobalState => c.(marks := c.marks.(transferred := true))
    case RecordFailoverHistory => c.(marks := c.marks.(recorded := true))
    case _ => c
  }

  function Everything(c: Clusters): set<string> {
    c.volumes + c.workloads
  }

  function StepPods(s: Site, p: string): Site {
    s.(running := if p in s.desired then s.running + {p} else s.running - {p})
  }

  function StepVolume(s: Site, v: string): Site {
    s.(primary := if v in s.spec then s.primary + {v} else s.primary - {v})
  }

  function OneSite(s: Site, m: Move): Site {
    match m
    case Pods(_, p) => StepPods(s, p)
    case Volume(_, v) => StepVolume(s, v)
    case Reconcile(_, p) => if s.ignored then s else s.(desired := s.desired + {p})
  }

  function Moved(c: Clusters, m: Move): Clusters {
    if m.Reconcile? && m.workload !in c.workloads then c
    else if m.at == Target then c.(target := OneSite(c.target, m))
    else c.(source := OneSite(c.source, m))
  }

  /** The clusters after a task that succeeds. */
  function Concluded(c: Clusters, t: Task): Clusters {
    Effect(c, t, Everything(c)).(early := c.early || IsEarly(c, t))
  }

  /** The wait for the source's pods looks at the pods only, not at the scale. */
  predicate IsEarly(c: Clusters, t: Task) {
    t.WaitForWorkloadsScaledDown? && c.source.desired != {}
  }

  // ---- what a finished task leaves behind ----

  /** The source's workloads have stopped, and nothing will start them. */
  predicate Stopped(c: Clusters) {
    c.source.ignored && c.source.desired == {} && c.source.running == {}
  }

  predicate Fact(c: Clusters, t: Task) {
    match t
    case UpdateNetworkResources(Disable) => !c.source.traffic
    case UpdateNetworkResources(_) => c.target.traffic
    case DisableFluxReconciliation => c.source.ignored
    case WaitForWorkloadsScaledDown => c.early || Stopped(c)
    case DemoteVolumes => c.source.spec == {}
    case WaitForVolumesDemoted => c.source.spec == {} && c.source.primary == {}
    case MarkVolumesReadyForPromotion => c.marks.volumesReady
    case WaitForVolumesReadyForPromotion => c.marks.volumesReady
    case PromoteVolumes => c.target.spec == c.volumes
    case WaitForVolumesPromoted => c.target.spec == c.volumes && c.target.primary == c.volumes
    case ScaleUpWorkloads => c.target.desired == c.workloads
    case WaitForTargetReady => c.target.desired == c.workloads && c.target.running == c.workloads
    case TriggerFluxReconciliation => !c.target.ignored
    case MarkTargetReadyForTraffic => c.marks.targetReady
    case WaitForTargetReadyForTraffic => c.marks.targetReady
    case MarkTrafficTransitionComplete => c.marks.transitioned
    case WaitForTrafficTransitionComplete => c.marks.transitioned
    case VerifyDataAvailability => c.marks.verified
    case UpdateGlobalState => c.marks.transferred
    case RecordFailoverHistory => c.marks.recorded
    case _ => true
  }

  predicate Within(s: Site, volumes: set<string>, workloads: set<string>) {
    s.spec <= volumes && s.primary <= volumes && s.desired <= workloads && s.running <= workloads
  }

  predicate Bounds(c: Clusters) {
    Within(c.source, c.volumes, c.workloads) && Within(c.target, c.volumes, c.workloads)
  }

  predicate ShutsDown(s: Site, s': Site) {
    && (s'.traffic ==> s.traffic)
    && s'.spec <= s.spec
    && (forall v :: v in s'.primary ==> v in s.primary || v in s.spec)
    && (s.ignored ==>
          && s'.ignored && s'.desired <= s.desired
          && forall p :: p in s'.running ==> p in s.running || p in s.desired)
  }

  predicate StartsUp(s: Site, s': Site) {
    && (s.traffic ==> s'.traffic) && (s'.ignored ==> s.ignored)
    && s.spec <= s'.spec
    && (forall v :: v in s.primary && v in s.spec ==> v in s'.primary)
    && s.desired <= s'.desired
    && (forall p :: p in s.running && p in s.desired ==> p in s'.running)
  }

  /** Marks are never taken back. */
  predicate KeepsMarks(m: Marks, m': Marks) {
    && (m.volumesReady ==> m'.volumesReady) && (m.targetReady ==> m'.targetReady)
    && (m.transitioned ==> m'.transitioned) && (m.verified ==> m'.verified)
    && (m.transferred ==> m'.transferred) && (m.recorded ==> m'.recorded)
  }

  /** The source only ever shuts down, and the target only ever starts. */
  predicate Advances(c: Clusters, c': Clusters) {
    && c'.volumes == c.volumes && c'.workloads == c.workloads
    && KeepsMarks(c.marks, c'.marks) && (c.early ==> c'.early)
    && ShutsDown(c.source, c'.source) && StartsUp(c.target, c'.target)
  }

  /** A task that only sets a mark, or nothing. */
  lemma MarkEffect(c: Clusters, c': Clusters)
    requires Bounds(c) && c' == c.(marks := c'.marks) && KeepsMarks(c.marks, c'.marks)
    ensures Bounds(c') && Advances(c, c')
  {
  }

  lemma SourceEffect(c: Clusters, s: Site)
    requires Bounds(c) && (s.traffic ==> c.source.traffic) && s.spec <= c.source.spec && s.primary == c.source.primary
    requires s.desired <= c.source.desired && s.running == c.source.running && (c.source.ignored ==> s.ignored)
    ensures Bounds(c.(source := s)) && Advances(c, c.(source := s))
  {
  }

  lemma TargetEffect(c: Clusters, s: Site)
    requires Bounds(c) && (c.target.traffic ==> s.traffic) && s.primary == c.target.primary
             && s.running == c.target.running && (s.ignored ==> c.target.ignored)
    requires c.target.spec <= s.spec <= c.volumes && c.target.desired <= s.desired <= c.workloads
    ensures Bounds(c.(target := s)) && Advances(c, c.(target := s))
  {
  }

  lemma EffectAdvances(c: Clusters, t: Task, part: set<string>)
    requires Bounds(c)
    ensures Bounds(Effect(c, t, part)) && Advances(c, Effect(c, t, part))
  {
    if OnSource(t) && !t.MarkVolumesReadyForPromotion? {
      SourceTaskAdvances(c, t, part);
    } else if ActsOnTarget(t) {
      TargetTaskAdvances(c, t, part);
    } else {
      MarkTaskAdvances(c, t, part);
    }
  }

  predicate ActsOnTarget(t: Task) {
    (t.UpdateNetworkResources? && !t.action.Disable?) || t.PromoteVolumes? || t.ScaleUpWorkloads?
    || t.TriggerFluxReconciliation?
  }

  lemma TargetTaskAdvances(c: Clusters, t: Task, part: set<string>)
    requires Bounds(c) && ActsOnTarget(t)
    ensures Bounds(Effect(c, t, part)) && Advances(c, Effect(c, t, part))
  {
    TargetEffect(c, Effect(c, t, part).target);
  }

  lemma MarkTaskAdvances(c: Clusters, t: Task, part: set<string>)
    requires Bounds(c) && !ActsOnTarget(t) && (OnSource(t) ==> t.MarkVolumesReadyForPromotion?)
    ensures Bounds(Effect(c, t, part)) && Advances(c, Effect(c, t, part))
  {
    MarkEffect(c, Effect(c, t, part));
  }

  lemma SourceTaskAdvances(c: Clusters, t: Task, part: set<string>)
    requires Bounds(c) && OnSource(t) && !t.MarkVolumesReadyForPromotion?
    ensures Bounds(Effect(c, t, part)) && Advances(c, Effect(c, t, part))
  {
    SourceEffect(c, Effect(c, t, part).source);
  }

  lemma PodsAdvance(s: Site, p: string)
    ensures ShutsDown(s, StepPods(s, p)) && StartsUp(s, StepPods(s, p))
  {
  }

  lemma VolumeAdvances(s: Site, v: string)
    ensures ShutsDown(s, StepVolume(s, v)) && StartsUp(s, StepVolume(s, v))
  {
  }

  lemma SiteMoves(s: Site, m: Move)
    ensures ShutsDown(s, OneSite(s, m)) && StartsUp(s, OneSite(s, m))
  {
    match m
    case Pods(_, p) => PodsAdvance(s, p);
    case Volume(_, v) => VolumeAdvances(s, v);
    case Reconcile(_, _) =>
  }

  lemma SourceMoves(c: Clusters, m: Move)
    requires Bounds(c) && m.at == Source
    ensures Bounds(Moved(c, m)) && Advances(c, Moved(c, m))
  {
    SiteMoves(c.source, m);
  }

  lemma TargetMoves(c: Clusters, m: Move)
    requires Bounds(c) && m.at == Target
    ensures Bounds(Moved(c, m)) && Advances(c, Moved(c, m))
  {
    SiteMoves(c.target, m);
  }

  lemma MoveAdvances(c: Clusters, m: Move)
    requires Bounds(c)
    ensures Bounds(Moved(c, m)) && Advances(c, Moved(c, m))
  {
    if m.at == Source { SourceMoves(c, m); } else { TargetMoves(c, m); }
  }

  lemma FactStays(c: Clusters, c': Clusters, t: Task)
    requires Bounds(c) && Bounds(c') && Advances(c, c') && Fact(c, t)
    ensures Fact(c', t)
  {
  }

  /** What the order of the list makes sure of before a task is executed. */
  predicate Prior(c: Clusters, t: Task, mode: Mode, coded: bool) {
    forall a :: a in Needs(t, mode, coded) ==> Fact(c, a)
  }

  lemma FinishedTask(coded: bool, c: Clusters, mode: Mode, t: Task)
    requires Bounds(c) && Prior(c, t, mode, coded) && Ready(c, t, coded)
    ensures Fact(Concluded(c, t), Standard(t))
  {
    match t
    case WaitForWorkloadsScaledDown => assert DisableFluxReconciliation in Needs(t, mode, coded);
    case WaitForVolumesDemoted => assert DemoteVolumes in Needs(t, mode, coded);
    case WaitForVolumesPromoted => assert PromoteVolumes in Needs(t, mode, coded);
    case WaitForTargetReady => assert ScaleUpWorkloads in Needs(t, mode, coded);
    case WaitForVolumesReadyForPromotion => if coded { assert MarkVolumesReadyForPromotion in Needs(t, mode, coded); }
    case WaitForTargetReadyForTraffic => if coded { assert MarkTargetReadyForTraffic in Needs(t, mode, coded); }
    case WaitForTrafficTransitionComplete => if coded { assert MarkTrafficTransitionComplete in Needs(t, mode, coded); }
    case _ =>
  }

  // ---- safety ----

  predicate Serves(s: Site, c: Clusters) {
    s.spec == c.volumes && s.primary == c.volumes && s.desired == c.workloads && s.running == c.workloads
  }

  predicate Idle(s: Site) {
    s.spec == {} && s.primary == {} && s.desired == {} && s.running == {} && s.ignored
  }

  /** Traffic only goes to the source while it serves, and its volumes are only demoted
      once its workloads have stopped. */
  predicate SourceOk(c: Clusters) {
    && (c.source.traffic ==> Serves(c.source, c))
    && (c.source.spec != c.volumes ==> c.early || Stopped(c))
  }

  predicate TrafficOk(c: Clusters) {
    SourceOk(c) && (c.target.traffic ==> Serves(c.target, c))
  }

  predicate ModeOk(c: Clusters, mode: Mode) {
    if mode == CONSISTENCY then
      if c.marks.volumesReady then c.source.spec == {} && c.source.primary == {} && (c.early || Stopped(c))
      else Idle(c.target)
    else
      if c.marks.transitioned then c.target.traffic else c.source.traffic
  }

  lemma EffectKeepsSource(c: Clusters, t: Task, part: set<string>, mode: Mode, coded: bool)
    requires Bounds(c) && SourceOk(c) && Prior(c, t, mode, coded)
    ensures SourceOk(Effect(c, t, part))
  {
    match t
    case ScaleDownWorkloads => assert DISABLE in Needs(t, mode, coded);
    case DemoteVolumes => assert DISABLE in Needs(t, mode, coded)
        && WaitForWorkloadsScaledDown in Needs(t, mode, coded);
    case _ =>
  }

  lemma EffectKeepsTraffic(c: Clusters, t: Task, part: set<string>, mode: Mode, coded: bool)
    requires Bounds(c) && TrafficOk(c) && Prior(c, t, mode, coded)
    ensures TrafficOk(Effect(c, t, part))
  {
    EffectKeepsSource(c, t, part, mode, coded);
    if t.UpdateNetworkResources? && t != DISABLE {
      assert WaitForVolumesPromoted in Needs(t, mode, coded) && WaitForTargetReady in Needs(t, mode, coded);
    }
  }

  lemma EffectKeepsMode(c: Clusters, t: Task, part: set<string>, mode: Mode, coded: bool)
    requires Bounds(c) && TrafficOk(c) && ModeOk(c, mode) && Prior(c, t, mode, coded)
    ensures ModeOk(Effect(c, t, part), mode)
  {
    match t
    case UpdateNetworkResources(Disable) =>
      if mode == UPTIME { assert WaitForTrafficTransitionComplete in Needs(t, mode, coded); }
    case UpdateNetworkResources(_) =>
      assert WaitForVolumesPromoted in Needs(t, mode, coded) && WaitForTargetReady in Needs(t, mode, coded);
    case MarkVolumesReadyForPromotion =>
      assert WaitForVolumesDemoted in Needs(t, mode, coded) && WaitForWorkloadsScaledDown in Needs(t, mode, coded);
    case PromoteVolumes =>
      if mode == CONSISTENCY { assert WaitForVolumesReadyForPromotion in Needs(t, mode, coded); }
    case ScaleUpWorkloads =>
      if mode == CONSISTENCY { assert WaitForVolumesReadyForPromotion in Needs(t, mode, coded); }
    case TriggerFluxReconciliation =>
      if mode == CONSISTENCY { assert WaitForVolumesReadyForPromotion in Needs(t, mode, coded); }
    case MarkTrafficTransitionComplete => assert ENABLE in Needs(t, mode, coded);
    case _ =>
  }

  lemma EffectIsSafe(c: Clusters, t: Task, part: set<string>, coded: bool, mode: Mode)
    requires Bounds(c) && TrafficOk(c) && ModeOk(c, mode) && Prior(c, t, mode, coded)
    ensures var c' := Effect(c, t, part); Bounds(c') && Advances(c, c') && TrafficOk(c') && ModeOk(c', mode)
  {
    EffectAdvances(c, t, part);
    EffectKeepsTraffic(c, t, part, mode, coded);
    EffectKeepsMode(c, t, part, mode, coded);
  }

  lemma EarlyIsSafe(c: Clusters, c': Clusters, early: bool, mode: Mode)
    requires Bounds(c') && Advances(c, c') && TrafficOk(c') && ModeOk(c', mode) && (c'.early ==> early)
    ensures var c'' := c'.(early := early); Bounds(c'') && Advances(c, c'') && TrafficOk(c'') && ModeOk(c'', mode)
  {
  }

  lemma ConcludedIsSafe(c: Clusters, t: Task, coded: bool, mode: Mode)
    requires Bounds(c) && TrafficOk(c) && ModeOk(c, mode) && Prior(c, t, mode, coded) && Ready(c, t, coded)
    ensures var c' := Concluded(c, t);
            && Bounds(c') && Advances(c, c') && TrafficOk(c') && ModeOk(c', mode) && Fact(c', Standard(t))
  {
    var c' := Effect(c, t, Everything(c));
    EffectIsSafe(c, t, Everything(c), coded, mode);
    EffectIsNotEarly(c, t, Everything(c));
    EarlyIsSafe(c, c', c.early || IsEarly(c, t), mode);
    FinishedTask(coded, c, mode, t);
  }

  lemma EffectIsNotEarly(c: Clusters, t: Task, part: set<string>)
    ensures Effect(c, t, part).early == c.early
  {
  }

  lemma PodsKeepSafety(c: Clusters, at: Where, p: string, mode: Mode)
    requires Bounds(c) && TrafficOk(c) && ModeOk(c, mode)
    ensures TrafficOk(Moved(c, Pods(at, p))) && ModeOk(Moved(c, Pods(at, p)), mode)
  {
  }

  lemma VolumeKeepsSafety(c: Clusters, at: Where, v: string, mode: Mode)
    requires Bounds(c) && TrafficOk(c) && ModeOk(c, mode)
    ensures TrafficOk(Moved(c, Volume(at, v))) && ModeOk(Moved(c, Volume(at, v)), mode)
  {
  }

  lemma FluxKeepsSafety(c: Clusters, at: Where, p: string, mode: Mode)
    requires Bounds(c) && TrafficOk(c) && ModeOk(c, mode)
    ensures TrafficOk(Moved(c, Reconcile(at, p))) && ModeOk(Moved(c, Reconcile(at, p)), mode)
  {
  }

  lemma MoveKeepsSafety(c: Clusters, m: Move, mode: Mode)
    requires Bounds(c) && TrafficOk(c) && ModeOk(c, mode)
    ensures TrafficOk(Moved(c, m)) && ModeOk(Moved(c, m), mode)
  {
    match m
    case Pods(at, p) => PodsKeepSafety(c, at, p, mode);
    case Volume(at, v) => VolumeKeepsSafety(c, at, v, mode);
    case Reconcile(at, p) => FluxKeepsSafety(c, at, p, mode);
  }
}
