/** The automatic trigger over runs: passes fetch the heartbeats, build the list of clusters
    from them, and the trigger looks at the list a while later. */
module TriggerRuns {
  import opened Records
  import opened StalePeers
  import opened AutoFailover
  import View = ClusterView

  /** The status rows that a pass was shown, with any health. */
  predicate Sees(rows: View.Rows, shown: Heartbeats) {
    rows.Keys == shown.Keys && forall name :: name in shown ==> rows[name].lastHeartbeat == Some(shown[name])
  }

  /** The limit in nanoseconds: five minutes if the group's timeout does not parse. */
  predicate IsLimit(timeout: Option<int>, limit: int) {
    if timeout.Some? then limit == timeout.value else limit == 5 * 60 * 1_000_000_000
  }

  /** The pass `id`, for the group of which `active` is the primary, has fetched its rows,
      and the list that it built at the time `built` shows them. */
  ghost predicate Listed(w: World, id: nat, group: string, active: string, clusters: seq<View.ClusterInfo>,
                         rows: View.Rows, built: nat)
  {
    && id in w.passes && w.passes[id].Fetched? && w.passes[id].group == group
    && w.passes[id].at <= built <= w.now && Sees(rows, w.passes[id].shown)
    && View.ShowsView(clusters, w.passes[id].self, active, rows, built)
  }

  /** Whether the trigger goes off on such a list, by the heartbeats alone: on another
      cluster, if the primary has a row and its heartbeat is older than the limit; on the
      primary itself, if its list is that old and another cluster is healthy. */
  lemma TriggerIff(w: World, id: nat, group: string, active: string, clusters: seq<View.ClusterInfo>, rows: View.Rows,
                   built: nat, timeout: Option<int>, limit: int)
    requires Listed(w, id, group, active, clusters, rows, built) && IsLimit(timeout, limit)
    ensures OnePrimary(clusters)
    ensures var p := w.passes[id];
            NeedsFailover(clusters, timeout, w.now) <==>
              if p.self == active
              then w.now > Seconds(built) * NANOS + limit
                   && exists name :: name in rows && name != active && rows[name].health in ["OK", "DEGRADED"]
              else active in p.shown && w.now > p.shown[active] * NANOS + limit
  {
    TriggerOnAView(clusters, w.passes[id].self, active, rows, built, timeout, w.now);
  }

  /** A primary that reports on time is never failed over by the trigger, on whichever
      cluster it runs, if the report interval, the age of the list and the second that a
      stored time has lost are within the limit. */
  lemma {:induction false} PunctualPrimaryIsKept(es: seq<Event>, group: string, active: string, period: nat, delay: nat,
                                                 id: nat, clusters: seq<View.ClusterInfo>, rows: View.Rows, built: nat,
                                                 timeout: Option<int>, limit: int)
    requires AlwaysOnTime(es, (group, active), period, delay) && IsLimit(timeout, limit)
    requires period + delay + NANOS <= limit + 1
    requires Listed(Run(es), id, group, active, clusters, rows, built) && active !in Run(es).passes[id].other
    ensures !NeedsFailover(clusters, timeout, Run(es).now)
  {
    var w, peer := Run(es), (group, active);
    InvHolds(es, peer, period, delay);
    assert es[..|es|] == es;
    assert OnTime(w, peer, period, delay) && PassOk(w.passes[id], peer, period, delay);
    TriggerIff(w, id, group, active, clusters, rows, built, timeout, limit);
  }

  /** No heartbeat after the time `last` has been reported for the primary. */
  predicate SilentAfter(es: seq<Event>, peer: Row, last: nat) {
    forall e :: e in es && e.Beat? && e.row == peer ==> e.taken <= last
  }

  /** The pass was shown the peer's own row. */
  predicate ShowsRow(p: Pass, peer: Row) {
    p.group == peer.0 && peer.1 in p.shown && peer.1 !in p.other
  }

  predicate ShownUntil(w: World, peer: Row, last: nat) {
    && (peer in w.rows ==> w.rows[peer] <= Seconds(last))
    && forall id :: id in w.passes && ShowsRow(w.passes[id], peer) ==> w.passes[id].shown[peer.1] <= Seconds(last)
  }

  lemma NextShowsUntil(w: World, e: Event, peer: Row, last: nat)
    requires ShownUntil(w, peer, last) && (e.Beat? && e.row == peer ==> e.taken <= last)
    ensures ShownUntil(Next(w, e), peer, last)
  {
  }

  lemma {:induction false} SilentIsShown(es: seq<Event>, peer: Row, last: nat)
    requires SilentAfter(es, peer, last)
    ensures ShownUntil(Run(es), peer, last)
  {
    if es != [] {
      var n := |es| - 1;
      assert es[n] in es && forall e :: e in es[..n] ==> e in es;
      SilentIsShown(es[..n], peer, last);
      NextShowsUntil(Run(es[..n]), es[n], peer, last);
    }
  }

  /** A primary that has been silent for longer than the limit is given a target by every
      check on another cluster whose list has the primary's row. */
  lemma {:induction false} SilentPrimaryIsFailedOver(es: seq<Event>, group: string, active: string, last: nat, id: nat,
                                                     clusters: seq<View.ClusterInfo>, rows: View.Rows, built: nat,
                                                     timeout: Option<int>, limit: int)
    requires SilentAfter(es, (group, active), last) && Run(es).now > last + limit && IsLimit(timeout, limit)
    requires Listed(Run(es), id, group, active, clusters, rows, built)
    requires var p := Run(es).passes[id]; p.self != active && active in p.shown && active !in p.other
    ensures NeedsFailover(clusters, timeout, Run(es).now)
  {
    SilentIsShown(es, (group, active), last);
    TriggerIff(Run(es), id, group, active, clusters, rows, built, timeout, limit);
  }

  /** One whose row was removed as stale is not: a pass that fetches the rows then gives a
      list without a primary, and no check of it goes off, ever. */
  lemma RemovedPrimaryIsNotFailedOver(es: seq<Event>, group: string, active: string, self: string, read: set<string>,
                                      id: nat, clusters: seq<View.ClusterInfo>, rows: View.Rows, built: nat,
                                      later: nat, timeout: Option<int>)
    requires (group, active) !in Run(es).rows && self != active
    requires var w := Next(Run(es), Fetch(id, group, self, read)).(now := later);
             Listed(w, id, group, active, clusters, rows, built)
    ensures !NeedsFailover(clusters, timeout, later)
  {
    var w := Next(Run(es), Fetch(id, group, self, read)).(now := later);
    var limit := if timeout.Some? then timeout.value else 5 * 60 * 1_000_000_000;
    TriggerIff(w, id, group, active, clusters, rows, built, timeout, limit);
  }

  /** Such a run: the primary falls silent, and a pass removes its row as soon as five
      minutes have passed. */
  lemma SilentPrimaryIsForgotten(peer: Row, self: string) returns (es: seq<Event>)
    requires peer.1 != self
    ensures SilentAfter(es, peer, 0) && peer in Run(es).beats && peer !in Run(es).rows
    ensures Run(es).now == 5 * 60 * 1_000_000_000 + 1 && forall e :: e in es ==> !e.Scan?
  {
    es := [];
    es := OneMore(es, Beat(peer, 0));
    es := OneMore(es, Tick(STALE + 1));
    OwnRowIsFetched(Run(es), peer, self);
    es := OneMore(es, Fetch(0, peer.0, self, {peer.1}));
    LatePass(Run(es), peer, self, STALE + 1);
    es := OneMore(es, Clock(0));
    es := OneMore(es, Remove(0, peer.1));
  }

  lemma OneMore(es: seq<Event>, e: Event) returns (es': seq<Event>)
    ensures es' == es + [e] && Run(es') == Next(Run(es), e)
  {
    es' := es + [e];
    RunSnoc(es, e);
  }

  /** The list of two clusters. */
  lemma ListOfTwo(self: string, active: string, built: nat) returns (rows: View.Rows, clusters: seq<View.ClusterInfo>)
    requires self != active
    ensures Sees(rows, map[active := 0]) && View.ShowsView(clusters, self, active, rows, built)
  {
    rows := map[active := View.StatusRecord("OK", Some(0))];
    clusters := [View.InfoOf(self, self, active, rows, built), View.InfoOf(active, self, active, rows, built)];
    assert View.IsView(clusters, self, active, rows, built);
  }

  /** The bound is sharp for every report interval, every delay and every limit: one
      nanosecond more, and a primary that is on time is failed over. */
  lemma TriggerBoundIsSharp(group: string, active: string, self: string, period: nat, delay: nat, timeout: Option<int>,
                            limit: int)
    returns (es: seq<Event>, rows: View.Rows, clusters: seq<View.ClusterInfo>)
    requires active != self && period > 0 && IsLimit(timeout, limit) && period + delay + NANOS > limit + 1
    ensures AlwaysOnTime(es, (group, active), period, delay) && forall e :: e in es ==> !e.Scan?
    ensures Listed(Run(es), 0, group, active, clusters, rows, Run(es).now) && active !in Run(es).passes[0].other
    ensures NeedsFailover(clusters, timeout, Run(es).now)
  {
    var peer := (group, active);
    es := Reported(peer, period, delay);
    var at := NANOS - 1 + period;
    OwnRowIsFetched(Run(es), peer, self);
    es := Extend(es, Fetch(0, group, self, {active}), peer, period, delay);
    es := WaitOut(es, peer, self, at, delay, period, delay);
    rows, clusters := ListOfTwo(self, active, Run(es).now);
    TriggerIff(Run(es), 0, group, active, clusters, rows, Run(es).now, timeout, limit);
  }
}
