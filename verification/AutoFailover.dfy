/** The automatic failover trigger, and the validation its target has to pass. */
module AutoFailover {
  import opened Records
  import opened ClusterView

  function DefaultTimeout(): int {
    300 * NANOS
  }

  predicate IsHealthyStandby(e: ClusterInfo) {
    e.role == STANDBY && (e.health == "OK" || e.health == "DEGRADED")
  }

  /** hasHeartbeatTimeout: no timeout without a readable heartbeat; five minutes unless
      the group has a readable timeout. */
  predicate HasHeartbeatTimeout(primary: ClusterInfo, timeout: Option<int>, now: nat) {
    && primary.lastHeartbeat.Some?
    && now - primary.lastHeartbeat.value * NANOS > (if timeout.Some? then timeout.value else DefaultTimeout())
  }

  method FindPrimaryCluster(clusters: seq<ClusterInfo>) returns (primary: Option<ClusterInfo>)
    ensures primary.None? <==> forall e :: e in clusters ==> e.role != PRIMARY
    ensures primary.Some? ==>
              exists i :: 0 <= i < |clusters| && clusters[i] == primary.value && clusters[i].role == PRIMARY
                          && forall j :: 0 <= j < i ==> clusters[j].role != PRIMARY
  {
    var i := 0;
    while i < |clusters|
      invariant 0 <= i <= |clusters|
      invariant forall j :: 0 <= j < i ==> clusters[j].role != PRIMARY
    {
      if clusters[i].role == PRIMARY {
        return Some(clusters[i]);
      }
      i := i + 1;
    }
    return None;
  }

  method FindHealthyStandbyCluster(clusters: seq<ClusterInfo>) returns (standby: Option<ClusterInfo>)
    ensures standby.None? <==> forall e :: e in clusters ==> !IsHealthyStandby(e)
    ensures standby.Some? ==>
              exists i :: 0 <= i < |clusters| && clusters[i] == standby.value && IsHealthyStandby(clusters[i])
                          && forall j :: 0 <= j < i ==> !IsHealthyStandby(clusters[j])
  {
    var i := 0;
    while i < |clusters|
      invariant 0 <= i <= |clusters|
      invariant forall j :: 0 <= j < i ==> !IsHealthyStandby(clusters[j])
    {
      if clusters[i].role == STANDBY && (clusters[i].health == "OK" || clusters[i].health == "DEGRADED") {
        assert clusters[i] in clusters;
        return Some(clusters[i]);
      }
      i := i + 1;
    }
    return None;
  }

  /** Whether the group fails over by itself, stated without the order of its list: it has
      a primary whose heartbeat is too old, and a healthy standby. */
  ghost predicate NeedsFailover(clusters: seq<ClusterInfo>, timeout: Option<int>, now: nat) {
    && (exists e :: e in clusters && e.role == PRIMARY && HasHeartbeatTimeout(e, timeout, now))
    && (exists e :: e in clusters && IsHealthyStandby(e))
  }

  predicate OnePrimary(clusters: seq<ClusterInfo>) {
    forall e, e' :: e in clusters && e' in clusters && e.role == PRIMARY && e'.role == PRIMARY ==> e == e'
  }

  /** checkGroupNeedsFailover. An unhealthy primary does not matter by itself:
      hasBeenUnhealthyLongEnough, which the source asks then, always says no. */
  method CheckGroupNeedsFailover(clusters: seq<ClusterInfo>, timeout: Option<int>, now: nat)
    returns (target: Option<string>)
    ensures OnePrimary(clusters) ==> (target.Some? <==> NeedsFailover(clusters, timeout, now))
    ensures target.Some? ==>
              exists e, e' :: e in clusters && IsHealthyStandby(e) && e.name == target.value
                              && e' in clusters && e'.role == PRIMARY && HasHeartbeatTimeout(e', timeout, now)
  {
    var primary := FindPrimaryCluster(clusters);
    if primary.None? {
      return None;
    }
    var standby := FindHealthyStandbyCluster(clusters);
    if standby.None? {
      return None;
    }
    assert primary.value in clusters && standby.value in clusters;
    if HasHeartbeatTimeout(primary.value, timeout, now) {
      return Some(standby.value.name);
    }
    return None;
  }

  // ---- ValidateFailoverTask ----

  /** What the task demands: the target is listed, some cluster is PRIMARY, and, unless
      forced, the target is a healthy standby and the active cluster is a PRIMARY. */
  ghost predicate Valid(clusters: seq<ClusterInfo>, active: string, target: string, force: bool) {
    && (exists e :: e in clusters && e.name == target)
    && (exists e :: e in clusters && e.role == PRIMARY)
    && (!force ==> (exists e :: e in clusters && e.name == target && IsHealthyStandby(e))
                   && (exists e :: e in clusters && e.name == active && e.role == PRIMARY))
  }

  method ValidateFailover(clusters: seq<ClusterInfo>, active: string, target: string, force: bool) returns (ok: bool)
    ensures ok <==> Valid(clusters, active, target, force)
  {
    var targetExists, targetHealthy, sourceExists, sourceIsActive := false, false, false, false;
    var i := 0;
    while i < |clusters|
      invariant 0 <= i <= |clusters|
      invariant targetExists <==> exists e :: e in clusters[..i] && e.name == target
      invariant targetHealthy <==> exists e :: e in clusters[..i] && e.name == target && IsHealthyStandby(e)
      invariant sourceExists <==> exists e :: e in clusters[..i] && e.role == PRIMARY
      invariant sourceIsActive <==> exists e :: e in clusters[..i] && e.name == active && e.role == PRIMARY
    {
      var cluster := clusters[i];
      assert clusters[..i + 1] == clusters[..i] + [cluster];
      if cluster.name == target {
        targetExists := true;
        if cluster.role == STANDBY && (cluster.health == "OK" || cluster.health == "DEGRADED") {
          targetHealthy := true;
        }
      }
      if cluster.role == PRIMARY {
        sourceExists := true;
        if cluster.name == active {
          sourceIsActive := true;
        }
      }
      i := i + 1;
    }
    assert clusters[..i] == clusters;
    ok := targetExists && (targetHealthy || force) && sourceExists && (sourceIsActive || force);
  }

  /** On a status that updateLocalStatus built, whatever target the trigger chooses passes
      the validation without force, and is not the active cluster. */
  lemma ChosenTargetIsAdmissible(clusters: seq<ClusterInfo>, self: string, active: string, rows: Rows, at: nat,
                                 target: ClusterInfo, primary: ClusterInfo)
    requires ShowsView(clusters, self, active, rows, at)
    requires target in clusters && IsHealthyStandby(target) && primary in clusters && primary.role == PRIMARY
    ensures Valid(clusters, active, target.name, false)
    ensures target.name != active && primary.name == active
  {
    OrderDoesNotMatter(clusters, self, active, rows, at);
  }

  lemma TriggerOnTheList(clusters: seq<ClusterInfo>, self: string, active: string, rows: Rows, at: nat,
                         timeout: Option<int>, now: nat)
    requires ShowsView(clusters, self, active, rows, at)
    ensures OnePrimary(clusters)
    ensures NeedsFailover(clusters, timeout, now) <==>
            && (active == self || active in rows)
            && HasHeartbeatTimeout(InfoOf(active, self, active, rows, at), timeout, now)
            && (|| self != active
                || exists name :: name in rows && name != self && rows[name].health in ["OK", "DEGRADED"])
  {
    OrderDoesNotMatter(clusters, self, active, rows, at);
    var view :| IsView(view, self, active, rows, at) && multiset(clusters) == multiset(view);
    SameMembers(clusters, view);
    assert InfoOf(self, self, active, rows, at) in clusters;
    if active == self || active in rows { assert InfoOf(active, self, active, rows, at) in clusters; }
    forall name | name in rows && name != self ensures InfoOf(name, self, active, rows, at) in clusters {}
  }

  /** The heartbeat that a status built at `at` shows for its active cluster; one that does
      not parse is as old as the status. */
  function ShownHeartbeat(self: string, active: string, rows: Rows, at: nat): nat
    requires active == self || active in rows
  {
    if active == self || rows[active].lastHeartbeat.None? then Seconds(at) else rows[active].lastHeartbeat.value
  }

  lemma TimeoutOfShown(self: string, active: string, rows: Rows, at: nat, timeout: Option<int>, now: nat)
    requires active == self || active in rows
    ensures HasHeartbeatTimeout(InfoOf(active, self, active, rows, at), timeout, now) <==>
              now - ShownHeartbeat(self, active, rows, at) * NANOS
              > if timeout.Some? then timeout.value else 300_000_000_000
  {
  }

  /** On such a status the decision is that of the rows alone: the active cluster's
      heartbeat is too old, and some other cluster is healthy. */
  lemma TriggerOnAView(clusters: seq<ClusterInfo>, self: string, active: string, rows: Rows, at: nat,
                       timeout: Option<int>, now: nat)
    requires ShowsView(clusters, self, active, rows, at)
    ensures OnePrimary(clusters)
    ensures NeedsFailover(clusters, timeout, now) <==>
            && (active == self || active in rows)
            && now - ShownHeartbeat(self, active, rows, at) * NANOS
               > (if timeout.Some? then timeout.value else 300_000_000_000)
            && (|| self != active
                || exists name :: name in rows && name != self && rows[name].health in ["OK", "DEGRADED"])
  {
    TriggerOnTheList(clusters, self, active, rows, at, timeout, now);
    if active == self || active in rows { TimeoutOfShown(self, active, rows, at, timeout, now); }
  }
}
