/** The view of the group that each cluster derives from the table: the list of
    clusters, the role it takes itself, and the automatic choice of a failover target. */
module ClusterView {
  import opened Records
  import Cache = ServiceCache

  /** A heartbeat is kept in whole seconds; None stands for one that is empty or does not parse. */
  datatype ClusterInfo = ClusterInfo(name: string, role: State, health: string, lastHeartbeat: Option<nat>)

  datatype StatusRecord = StatusRecord(health: string, lastHeartbeat: Option<nat>)

  type Rows = map<string, StatusRecord>

  // ---- the list of clusters ----

  /** The owner if the config read gave one; failing that, what the status said; failing
      that, this cluster. */
  function ActiveAfter(active: string, owner: Option<string>, self: string): string {
    if owner.Some? && owner.value != "" then owner.value
    else if active == "" then self else active
  }

  function RoleOf(name: string, active: string): State {
    if name == active then PRIMARY else STANDBY
  }

  /** What the list says about a cluster. Every cluster reports itself healthy and alive. */
  function InfoOf(name: string, self: string, active: string, rows: Rows, now: nat): ClusterInfo
    requires name == self || name in rows
  {
    if name == self then ClusterInfo(self, RoleOf(self, active), "OK", Some(Seconds(now)))
    else ClusterInfo(name, RoleOf(name, active), rows[name].health,
                     if rows[name].lastHeartbeat.Some? then rows[name].lastHeartbeat else Some(Seconds(now)))
  }

  predicate DistinctNames(list: seq<ClusterInfo>) {
    forall i, j :: 0 <= i < j < |list| ==> list[i].name != list[j].name
  }

  /** A list with this cluster and every cluster that has a row, once each, in some order. */
  ghost predicate IsView(list: seq<ClusterInfo>, self: string, active: string, rows: Rows, now: nat) {
    && DistinctNames(list)
    && (forall e :: e in list ==> (e.name == self || e.name in rows) && e == InfoOf(e.name, self, active, rows, now))
    && (forall name :: name == self || name in rows ==> InfoOf(name, self, active, rows, now) in list)
  }

  /** A list with this cluster and the clusters of `done`, once each. */
  ghost predicate IsPartial(list: seq<ClusterInfo>, self: string, active: string, rows: Rows, now: nat,
                            done: set<string>) {
    && done <= rows.Keys && DistinctNames(list)
    && (forall e :: e in list ==> (e.name == self || e.name in done) && e == InfoOf(e.name, self, active, rows, now))
    && (forall name :: name == self || name in done ==> InfoOf(name, self, active, rows, now) in list)
  }

  lemma OneMoreCluster(list: seq<ClusterInfo>, self: string, active: string, rows: Rows, now: nat, done: set<string>,
                       name: string)
    requires IsPartial(list, self, active, rows, now, done) && name in rows && name !in done
    ensures name == self ==> IsPartial(list, self, active, rows, now, done + {name})
    ensures name != self
            ==> IsPartial(list + [InfoOf(name, self, active, rows, now)], self, active, rows, now, done + {name})
  {
  }

  /** The health updateLocalStatus reports: that of the first PRIMARY. */
  function HealthIn(list: seq<ClusterInfo>): string {
    if list == [] then "UNKNOWN"
    else if list[0].role == PRIMARY then list[0].health
    else HealthIn(list[1..])
  }

  lemma {:induction false} HealthInAt(list: seq<ClusterInfo>, e: ClusterInfo)
    requires e in list && e.role == PRIMARY
    requires forall e' :: e' in list && e'.role == PRIMARY ==> e'.health == e.health
    ensures HealthIn(list) == e.health
  {
    assert list[0] in list;
    if list[0].role != PRIMARY {
      HealthInAt(list[1..], e);
    }
  }

  lemma {:induction false} NoPrimaryIsUnknown(list: seq<ClusterInfo>)
    requires forall e :: e in list ==> e.role != PRIMARY
    ensures HealthIn(list) == "UNKNOWN"
  {
    if list != [] {
      assert list[0] in list;
      NoPrimaryIsUnknown(list[1..]);
    }
  }

  /** The list is a view, up to its order. */
  ghost predicate ShowsView(list: seq<ClusterInfo>, self: string, active: string, rows: Rows, now: nat) {
    exists view :: IsView(view, self, active, rows, now) && multiset(list) == multiset(view)
  }

  lemma SameMembers(list: seq<ClusterInfo>, list': seq<ClusterInfo>)
    requires multiset(list) == multiset(list')
    ensures forall e :: e in list <==> e in list'
  {
    forall e ensures e in list <==> e in list' {
      assert e in list <==> e in multiset(list);
      assert e in list' <==> e in multiset(list');
    }
  }

  /** Exactly the active cluster is PRIMARY, if it is listed, and the health is its
      health: in whatever order the rows were visited. */
  lemma OrderDoesNotMatter(list: seq<ClusterInfo>, self: string, active: string, rows: Rows, now: nat)
    requires ShowsView(list, self, active, rows, now)
    ensures forall e :: e in list ==> (e.role == PRIMARY <==> e.name == active)
    ensures HealthIn(list) == if active == self then "OK" else if active in rows then rows[active].health else "UNKNOWN"
  {
    var view :| IsView(view, self, active, rows, now) && multiset(list) == multiset(view);
    SameMembers(list, view);
    if active == self || active in rows {
      HealthInAt(list, InfoOf(active, self, active, rows, now));
    } else {
      NoPrimaryIsUnknown(list);
    }
  }

  // ---- change detection ----

  /** The old list by name; of several entries with a name, the last counts. */
  function ByName(list: seq<ClusterInfo>): map<string, ClusterInfo> {
    if list == [] then map[] else ByName(list[..|list| - 1])[list[|list| - 1].name := list[|list| - 1]]
  }

  lemma {:induction false} ByNameIsFromTheList(list: seq<ClusterInfo>)
    ensures forall name :: name in ByName(list) ==> ByName(list)[name] in list && ByName(list)[name].name == name
    ensures forall e :: e in list ==> e.name in ByName(list)
  {
    if list != [] {
      ByNameIsFromTheList(list[..|list| - 1]);
    }
  }

  /** updateLocalStatus' comparison of the two lists. */
  predicate Unchanged(before: seq<ClusterInfo>, after: seq<ClusterInfo>) {
    |before| == |after|
    && forall i :: 0 <= i < |after| ==> after[i].name in ByName(before) && ByName(before)[after[i].name] == after[i]
  }

  /** Pigeonhole: as many entries, none of them missing, none twice. */
  lemma AllPresentIsPermutation(before: seq<ClusterInfo>, after: seq<ClusterInfo>)
    requires DistinctNames(after) && |before| == |after| && forall e :: e in after ==> e in before
    ensures multiset(before) == multiset(after)
  {
    forall e ensures multiset(after)[e] <= multiset(before)[e] {
      if e in after {
        AtMostOnce(after, e);
        assert e in multiset(before);
      } else {
        assert e !in multiset(after);
      }
    }
    assert multiset(after) <= multiset(before);
    assert |multiset(before) - multiset(after)| == 0;
  }

  lemma {:induction false} AtMostOnce(list: seq<ClusterInfo>, e: ClusterInfo)
    requires DistinctNames(list)
    ensures multiset(list)[e] <= 1
  {
    if list != [] {
      var n := |list| - 1;
      AtMostOnce(list[..n], e);
      assert list == list[..n] + [list[n]];
      if list[n] == e {
        assert e !in list[..n];
        assert e !in multiset(list[..n]);
      }
    }
  }

  /** The comparison finds no change exactly when the old list is a permutation of the new. */
  lemma UnchangedIffPermutation(before: seq<ClusterInfo>, after: seq<ClusterInfo>)
    requires DistinctNames(after)
    ensures Unchanged(before, after) <==> multiset(before) == multiset(after)
  {
    ByNameIsFromTheList(before);
    if Unchanged(before, after) {
      AllPresentIsPermutation(before, after);
    }
    if multiset(before) == multiset(after) {
      SameMembers(before, after);
      assert |before| == |multiset(before)| == |multiset(after)| == |after|;
      forall i | 0 <= i < |after| ensures after[i].name in ByName(before) && ByName(before)[after[i].name] == after[i] {
        assert after[i] in before;
        var e := ByName(before)[after[i].name];
        var j :| 0 <= j < |after| && after[j] == e;
      }
    }
  }

  // ---- one cluster's manager ----

  /** The status of a FailoverGroup resource, which updateLocalStatus updates in place. */
  class FailoverGroup {
    var activeCluster: string
    var thisCluster: string
    var dbSyncStatus: string
    var clusters: seq<ClusterInfo>
    var health: string

    constructor ()
      ensures activeCluster == "" && thisCluster == "" && dbSyncStatus == "" && clusters == [] && health == ""
    {
      activeCluster, thisCluster, dbSyncStatus, clusters, health := "", "", "", [], "";
    }
  }

  function Known(known: map<string, seq<string>>, key: string): seq<string> {
    if key in known then known[key] else []
  }

  class Manager {
    const clusterName: string
    var knownClusters: map<string, seq<string>>

    constructor (clusterName: string)
      ensures this.clusterName == clusterName && knownClusters == map[]
    {
      this.clusterName, knownClusters := clusterName, map[];
    }

    /** trackKnownCluster: the name is added once, at the end, and nothing else changes. */
    method TrackKnownCluster(key: string, name: string)
      modifies this
      ensures knownClusters == old(knownClusters)[key := Known(knownClusters, key)]
      ensures Known(knownClusters, key) == if name in Known(old(knownClusters), key) then Known(old(knownClusters), key)
                                           else Known(old(knownClusters), key) + [name]
      ensures NoRepeats(Known(old(knownClusters), key)) ==> NoRepeats(Known(knownClusters, key))
    {
      if key !in knownClusters {
        knownClusters := knownClusters[key := [name]];
        return;
      }
      var i := 0;
      while i < |knownClusters[key]|
        invariant 0 <= i <= |knownClusters[key]|
        invariant name !in knownClusters[key][..i]
      {
        if knownClusters[key][i] == name {
          assert knownClusters == knownClusters[key := Known(knownClusters, key)];
          return;
        }
        i := i + 1;
      }
      knownClusters := knownClusters[key := knownClusters[key] + [name]];
    }

    /** The list of clusters from the status rows, which are visited in any order. */
    method BuildClusters(key: string, active: string, rows: Rows, now: nat) returns (list: seq<ClusterInfo>)
      modifies this
      ensures IsView(list, clusterName, active, rows, now)
      ensures forall name :: name in Known(knownClusters, key) <==>
                               name in Known(old(knownClusters), key) || (name in rows && name != clusterName)
      ensures NoRepeats(Known(old(knownClusters), key)) ==> NoRepeats(Known(knownClusters, key))
      ensures forall key' :: key' != key ==> Known(knownClusters, key') == Known(old(knownClusters), key')
    {
      list := [ClusterInfo(clusterName, if active == clusterName then PRIMARY else STANDBY, "OK", Some(Seconds(now)))];
      var left := rows.Keys;
      while left != {}
        invariant left <= rows.Keys
        invariant IsPartial(list, clusterName, active, rows, now, rows.Keys - left)
        invariant forall name :: name in Known(knownClusters, key) <==>
                                   name in Known(old(knownClusters), key)
                                       || (name in rows.Keys - left && name != clusterName)
        invariant NoRepeats(Known(old(knownClusters), key)) ==> NoRepeats(Known(knownClusters, key))
        invariant forall key' :: key' != key ==> Known(knownClusters, key') == Known(old(knownClusters), key')
      {
        var name :| name in left;
        OneMoreCluster(list, clusterName, active, rows, now, rows.Keys - left, name);
        assert rows.Keys - left + {name} == rows.Keys - (left - {name});
        left := left - {name};
        if name == clusterName {
          continue;
        }
        var role := if name == active then PRIMARY else STANDBY;
        var lastHeartbeat := Some(Seconds(now));
        if rows[name].lastHeartbeat.Some? {
          lastHeartbeat := rows[name].lastHeartbeat;
        }
        list := list + [ClusterInfo(name, role, rows[name].health, lastHeartbeat)];
        TrackKnownCluster(key, name);
      }
    }

    /** The comparison with the old list. */
    method ClustersChanged(before: seq<ClusterInfo>, after: seq<ClusterInfo>) returns (changed: bool)
      requires DistinctNames(after)
      ensures changed <==> multiset(before) != multiset(after)
    {
      UnchangedIffPermutation(before, after);
      changed := |before| != |after|;
      if !changed {
        var existing := map[];
        var i := 0;
        while i < |before|
          invariant 0 <= i <= |before|
          invariant existing == ByName(before[..i])
        {
          existing := existing[before[i].name := before[i]];
          i := i + 1;
          assert before[..i][..i - 1] == before[..i - 1];
        }
        assert before[..i] == before;
        i := 0;
        while i < |after|
          invariant 0 <= i <= |after|
          invariant forall j :: 0 <= j < i ==> after[j].name in existing && existing[after[j].name] == after[j]
        {
          if after[i].name !in existing {
            return true;
          }
          var e := existing[after[i].name];
          if e.role != after[i].role || e.health != after[i].health || e.lastHeartbeat != after[i].lastHeartbeat {
            return true;
          }
          ByNameIsFromTheList(before);
          i := i + 1;
        }
      }
    }

    /** The health of the first PRIMARY in a list. */
    method PrimaryHealth(list: seq<ClusterInfo>) returns (health: string)
      ensures health == HealthIn(list)
    {
      health := "UNKNOWN";
      var i := 0;
      while i < |list|
        invariant 0 <= i <= |list|
        invariant HealthIn(list) == HealthIn(list[i..])
        invariant health == "UNKNOWN"
      {
        if list[i].role == PRIMARY {
          return list[i].health;
        }
        i := i + 1;
      }
    }

    /** Build the list anew, and put it in place unless it is a permutation of the old one. */
    method RefreshClusters(group: FailoverGroup, key: string, rows: Rows, now: nat) returns (changed: bool)
      modifies this, group`clusters
      ensures ShowsView(group.clusters, clusterName, group.activeCluster, rows, now)
      ensures changed <==> !ShowsView(old(group.clusters), clusterName, group.activeCluster, rows, now)
      ensures changed <==> group.clusters != old(group.clusters)
    {
      var newClusters := BuildClusters(key, group.activeCluster, rows, now);
      changed := ClustersChanged(group.clusters, newClusters);
      OnlyOneView(group.clusters, newClusters, clusterName, group.activeCluster, rows, now);
      if changed {
        group.clusters := newClusters;
      }
    }

    /** The end of updateLocalStatus: the health, and the updates of the resource. */
    method ReportHealth(group: FailoverGroup, changed: bool, saved: (bool, bool)) returns (updated: bool, ok: bool)
      modifies group`health, group`dbSyncStatus
      ensures group.health == HealthIn(group.clusters)
      ensures updated <==> changed || group.health != old(group.health)
      ensures ok ==> group.dbSyncStatus == "Synced"
      ensures ok <==> (updated ==> saved.0) && (saved.1 || old(group.dbSyncStatus) == "Synced")
    {
      updated := changed;
      var newHealth := PrimaryHealth(group.clusters);
      if group.health != newHealth {
        group.health := newHealth;
        updated := true;
      }
      if updated && !saved.0 {
        return updated, false;
      }
      if group.dbSyncStatus != "Synced" {
        group.dbSyncStatus := "Synced";
        return updated, saved.1;
      }
      return updated, true;
    }

    /** updateLocalStatus. `owner` is the owner in the config, if it could be read, and
        `rows` are the status rows, none if they could not; `saved` says whether each
        update of the resource succeeds. The list is left alone exactly when it already is
        a permutation of the new one. */
    method UpdateLocalStatus(group: FailoverGroup, key: string, owner: Option<string>, rows: Rows, now: nat,
                             saved: (bool, bool))
      returns (updated: bool, ok: bool)
      modifies this, group
      ensures group.activeCluster == ActiveAfter(old(group.activeCluster), owner, clusterName)
      ensures group.thisCluster == clusterName
      ensures ShowsView(group.clusters, clusterName, group.activeCluster, rows, now)
      ensures var before := if old(group.activeCluster) == "" then [] else old(group.clusters);
              ShowsView(before, clusterName, group.activeCluster, rows, now) <==> group.clusters == before
      ensures group.health == HealthIn(group.clusters)
      ensures clusterName != "" ==>
                (updated <==> || old(group.activeCluster) != group.activeCluster
                              || old(group.thisCluster) != clusterName
                              || old(group.clusters) != group.clusters
                              || old(group.health) != group.health)
      ensures ok ==> group.dbSyncStatus == "Synced"
      ensures ok <==>
                && (updated ==> saved.0)
                && (saved.1 || (old(group.activeCluster) != "" && old(group.dbSyncStatus) == "Synced"))
    {
      var first := group.activeCluster == "";
      if first {
        group.thisCluster, group.dbSyncStatus, group.clusters := clusterName, "Syncing", [];
      } else if group.dbSyncStatus == "" {
        group.dbSyncStatus := "Syncing";
      }
      updated := false;
      if group.thisCluster != clusterName {
        group.thisCluster := clusterName;
        updated := true;
      }
      var active := group.activeCluster;
      if owner.Some? && owner.value != "" {
        active := owner.value;
      } else if active == "" {
        active := clusterName;
      }
      if group.activeCluster != active {
        group.activeCluster := active;
        updated := true;
      }
      var changed := RefreshClusters(group, key, rows, now);
      updated := updated || changed;
      updated, ok := ReportHealth(group, updated, saved);
    }

    /** A periodic pass: SyncWithDynamoDB, then UpdateDynamoDBStatus if it went well. */
    method SyncPass(group: FailoverGroup, key: string, owner: Option<string>, rows: Rows, now: nat, saved: (bool, bool))
      returns (written: Option<State>)
      modifies this, group
      ensures group.activeCluster == ActiveAfter(old(group.activeCluster), owner, clusterName)
      ensures written.Some?
              ==> written.value == RoleOf(clusterName, ActiveAfter(old(group.activeCluster), owner, clusterName))
      ensures saved == (true, true) ==> written.Some?
    {
      var updated, ok := UpdateLocalStatus(group, key, owner, rows, now, saved);
      if !ok {
        return None;
      }
      return Some(DetermineClusterRole(group));
    }

    /** determineClusterRole. */
    function DetermineClusterRole(group: FailoverGroup): State
      reads group
    {
      RoleOf(clusterName, group.activeCluster)
    }
  }

  /** A list that differs from one view, up to order, shows no view. */
  lemma OnlyOneView(list: seq<ClusterInfo>, view: seq<ClusterInfo>, self: string, active: string, rows: Rows, now: nat)
    requires IsView(view, self, active, rows, now)
    ensures ShowsView(list, self, active, rows, now) <==> multiset(list) == multiset(view)
  {
    if ShowsView(list, self, active, rows, now) {
      var view' :| IsView(view', self, active, rows, now) && multiset(list) == multiset(view');
      AllViewsAreOne(view', view, self, active, rows, now);
    }
  }

  lemma AllViewsAreOne(view: seq<ClusterInfo>, view': seq<ClusterInfo>, self: string, active: string, rows: Rows,
                       now: nat)
    requires IsView(view, self, active, rows, now) && IsView(view', self, active, rows, now)
    ensures multiset(view) == multiset(view')
  {
    forall e ensures multiset(view)[e] == multiset(view')[e] {
      AtMostOnce(view, e);
      AtMostOnce(view', e);
      assert e in view <==> e in view';
      assert e in view <==> e in multiset(view);
      assert e in view' <==> e in multiset(view');
    }
  }

  /** The config read `id` of a pass started when the owner had been the same for one TTL
      of the service cache. */
  ghost predicate SettledRead(ttl: nat, table: map<string, GroupConfig>, es: seq<Cache.Event<GroupConfig>>,
                              since: nat, start: nat, id: nat, owner: string)
  {
    && since <= start <= |es|
    && Cache.Run(ttl, table, es[..since]).now + ttl <= Cache.Run(ttl, table, es[..start]).now
    && var gets := Cache.Run(ttl, table, es).gets;
       && id in gets && (gets[id].Hit? || gets[id].Returned?) && id !in Cache.Run(ttl, table, es[..start]).gets
       && Cache.Settled(ttl, table, es, since, gets[id].key, (c: GroupConfig) => c.owner == owner)
  }

  /** Such a read returns the owner, by hit or by miss. */
  lemma {:induction false} SettledReadIsTheOwner(ttl: nat, table: map<string, GroupConfig>,
                                                 es: seq<Cache.Event<GroupConfig>>,
                                                 since: nat, start: nat, id: nat, owner: string)
    requires SettledRead(ttl, table, es, since, start, id, owner)
    ensures Cache.Run(ttl, table, es).gets[id].value.owner == owner
  {
    Cache.SettledAfterATtl(ttl, table, es, since, start, id, (c: GroupConfig) => c.owner == owner);
  }

  /** Role convergence: once the owner in the table has stayed the same for one TTL of the
      service cache, any pass whose config read starts then writes PRIMARY exactly on the
      owner, by hit or by miss and whatever its status said before. */
  method RolesConverge(m: Manager, group: FailoverGroup, key: string, read: GroupConfig, rows: Rows, now: nat,
                       saved: (bool, bool),
                       ghost ttl: nat, ghost table: map<string, GroupConfig>, ghost es: seq<Cache.Event<GroupConfig>>,
                       ghost since: nat, ghost start: nat, ghost id: nat, ghost owner: string)
    returns (written: Option<State>)
    requires owner != "" && SettledRead(ttl, table, es, since, start, id, owner)
    requires var g := Cache.Run(ttl, table, es).gets[id]; read == if g.Hit? then Cache.Seen(g) else g.value
    modifies m, group
    ensures written.Some? ==> (written.value == PRIMARY <==> m.clusterName == owner)
    ensures saved == (true, true) ==> written.Some?
  {
    SettledReadIsTheOwner(ttl, table, es, since, start, id, owner);
    written := m.SyncPass(group, key, Some(read.owner), rows, now, saved);
  }
}
