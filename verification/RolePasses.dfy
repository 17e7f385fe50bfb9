/** The roles that the periodic passes of a cluster write, pass after pass, with config reads
    that fail and updates of the resource that fail in between. */
module RolePasses {
  import opened Records
  import opened ClusterView

  /** What a pass meets: the owner if the config could be read, the status rows, the clock,
      and whether each update of the resource succeeds. */
  datatype Pass = Pass(owner: Option<string>, rows: Rows, now: nat, saved: (bool, bool))

  /** The pass reads an owner. */
  predicate Reads(p: Pass) {
    p.owner.Some? && p.owner.value != ""
  }

  /** Pass `k` is the last one before pass `n` whose read got into the resource. */
  predicate LastKept(passes: seq<Pass>, n: nat, k: nat) {
    && k < n <= |passes| && Reads(passes[k]) && passes[k].saved.0
    && forall j :: k < j < n ==> !(Reads(passes[j]) && passes[j].saved.0)
  }

  /** Pass `n` goes by the read of pass `k`: its own, or the last one that was kept. */
  predicate GoesBy(passes: seq<Pass>, n: nat, k: nat) {
    n < |passes| && if Reads(passes[n]) then k == n else LastKept(passes, n, k)
  }

  /** The role that pass `n` writes: that of the owner in the read it goes by; without any
      such read, PRIMARY exactly if the status named this cluster at first, or nobody. */
  ghost predicate RoleIsRight(self: string, first: string, passes: seq<Pass>, n: nat, role: State)
    requires n < |passes|
  {
    && role in {PRIMARY, STANDBY}
    && (forall k: nat {:trigger GoesBy(passes, n, k)} ::
          GoesBy(passes, n, k) ==> (role == PRIMARY <==> passes[k].owner.value == self))
    && ((forall k: nat :: !GoesBy(passes, n, k)) ==> (role == PRIMARY <==> first in {self, ""}))
  }

  ghost predicate RolesAreRight(self: string, first: string, passes: seq<Pass>, written: seq<Option<State>>) {
    && |written| <= |passes|
    && forall n :: 0 <= n < |written| && written[n].Some? ==> RoleIsRight(self, first, passes, n, written[n].value)
  }

  /** The active cluster in the resource before pass `n`. */
  ghost predicate ActiveIsRight(self: string, first: string, passes: seq<Pass>, n: nat, active: string) {
    && (forall k: nat {:trigger LastKept(passes, n, k)} :: LastKept(passes, n, k) ==> active == passes[k].owner.value)
    && ((forall k: nat :: !LastKept(passes, n, k)) ==> active == first || (first == "" && active == self))
  }

  lemma NextActive(self: string, first: string, passes: seq<Pass>, n: nat, active: string, active': string)
    requires n < |passes| && ActiveIsRight(self, first, passes, n, active)
    requires active' == if !passes[n].saved.0 then active
                        else if Reads(passes[n]) then passes[n].owner.value
                        else if active == "" then self else active
    ensures ActiveIsRight(self, first, passes, n + 1, active')
  {
    if Reads(passes[n]) && passes[n].saved.0 {
      assert LastKept(passes, n + 1, n);
    } else {
      forall k: nat ensures LastKept(passes, n + 1, k) <==> LastKept(passes, n, k) {}
      forall k: nat | LastKept(passes, n + 1, k) ensures active' == passes[k].owner.value {
        assert LastKept(passes, n, k);
      }
    }
  }

  lemma RoleFromActive(self: string, first: string, passes: seq<Pass>, n: nat, active: string, role: State)
    requires n < |passes| && ActiveIsRight(self, first, passes, n, active)
    requires role == if Reads(passes[n]) then (if passes[n].owner.value == self then PRIMARY else STANDBY)
                     else if active in {self, ""} then PRIMARY else STANDBY
    ensures RoleIsRight(self, first, passes, n, role)
  {
    if Reads(passes[n]) {
      assert GoesBy(passes, n, n);
    } else {
      forall k: nat ensures GoesBy(passes, n, k) <==> LastKept(passes, n, k) {}
      forall k: nat | GoesBy(passes, n, k) ensures role == PRIMARY <==> passes[k].owner.value == self {
        assert active == passes[k].owner.value;
      }
    }
  }

  /** One pass on a copy of the stored resource. The resource is stored again unless its
      first update fails; of the sync flag it keeps whether it is "Synced". */
  method StoredPass(m: Manager, stored: FailoverGroup, key: string, p: Pass) returns (written: Option<State>)
    modifies m, stored
    ensures stored.activeCluster == if !p.saved.0 then old(stored.activeCluster)
                                    else if Reads(p) then p.owner.value
                                    else if old(stored.activeCluster) == "" then m.clusterName
                                    else old(stored.activeCluster)
    ensures written.Some? ==>
              written.value == if Reads(p) then (if p.owner.value == m.clusterName then PRIMARY else STANDBY)
                               else if old(stored.activeCluster) in {m.clusterName, ""} then PRIMARY else STANDBY
    ensures p.saved == (true, true) ==> written.Some?
  {
    var group := new FailoverGroup();
    group.activeCluster, group.thisCluster, group.dbSyncStatus := stored.activeCluster, stored.thisCluster,
      stored.dbSyncStatus;
    group.clusters, group.health := stored.clusters, stored.health;
    written := m.SyncPass(group, key, p.owner, p.rows, p.now, p.saved);
    if p.saved.0 {
      stored.activeCluster, stored.thisCluster := group.activeCluster, group.thisCluster;
      stored.clusters, stored.health := group.clusters, group.health;
    }
    if written.Some? {
      stored.dbSyncStatus := group.dbSyncStatus;
    }
  }

  /** Pass after pass: whatever reads and updates fail, a role that is written is that of the
      owner in the last read that was kept. A failed read by itself never makes a cluster
      claim the group. */
  method PeriodicPasses(m: Manager, stored: FailoverGroup, key: string, passes: seq<Pass>)
    returns (written: seq<Option<State>>)
    modifies m, stored
    ensures |written| == |passes|
    ensures RolesAreRight(m.clusterName, old(stored.activeCluster), passes, written)
    ensures forall n :: 0 <= n < |passes| && passes[n].saved == (true, true) ==> written[n].Some?
  {
    written := [];
    ghost var first := stored.activeCluster;
    var i := 0;
    while i < |passes|
      invariant 0 <= i <= |passes| && |written| == i
      invariant ActiveIsRight(m.clusterName, first, passes, i, stored.activeCluster)
      invariant RolesAreRight(m.clusterName, first, passes, written)
      invariant forall n :: 0 <= n < i && passes[n].saved == (true, true) ==> written[n].Some?
    {
      ghost var before := stored.activeCluster;
      var role := StoredPass(m, stored, key, passes[i]);
      if role.Some? { RoleFromActive(m.clusterName, first, passes, i, before, role.value); }
      NextActive(m.clusterName, first, passes, i, before, stored.activeCluster);
      written := written + [role];
      i := i + 1;
    }
  }

  /** So of two clusters whose last reads agree on the owner only one writes PRIMARY, and it
      is the owner. */
  lemma OneWritesPrimary(self: string, first: string, passes: seq<Pass>, written: seq<Option<State>>, n: nat, k: nat,
                         self': string, first': string, passes': seq<Pass>, written': seq<Option<State>>, n': nat,
                         k': nat)
    requires RolesAreRight(self, first, passes, written) && RolesAreRight(self', first', passes', written')
    requires n < |written| && n' < |written'| && written[n] == written'[n'] == Some(PRIMARY)
    requires GoesBy(passes, n, k) && GoesBy(passes', n', k') && passes[k].owner == passes'[k'].owner
    ensures self == self' && passes[k].owner == Some(self)
  {
    assert RoleIsRight(self, first, passes, n, PRIMARY) && RoleIsRight(self', first', passes', n', PRIMARY);
  }
}
