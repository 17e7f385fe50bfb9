/** The removal of peers whose status is too old, by passes that overlap the peers' own
    status updates. */
module StalePeers {
  import opened Records

  /** The age beyond which a peer's row is removed. */
  const STALE: nat := 300 * NANOS

  /** The rows of the group: for each cluster the whole second of its last heartbeat. */
  type Heartbeats = map<string, nat>

  predicate IsStale(heartbeat: nat, now: nat) {
    now - heartbeat * NANOS > STALE
  }

  /** The rows a pass of `self` asks to remove. */
  predicate ToRemove(self: string, fetched: Heartbeats, now: nat, name: string) {
    name in fetched && name != self && IsStale(fetched[name], now)
  }

  /** CleanupStaleClusterStatuses over the shared rows: of the rows fetched it removes
      exactly the other clusters' that are older than five minutes, except those whose
      removal the store refuses, and it never touches its own. */
  class Statuses {
    var rows: Heartbeats

    constructor ()
      ensures rows == map[]
    {
      rows := map[];
    }

    method CleanupStaleClusterStatuses(self: string, fetched: Heartbeats, now: nat, refused: set<string>)
      returns (requested: set<string>)
      modifies this
      ensures forall name :: name in requested <==> ToRemove(self, fetched, now, name)
      ensures rows == old(rows) - (requested - refused)
      ensures self in old(rows) ==> self in rows && rows[self] == old(rows)[self]
    {
      requested := {};
      var left := fetched.Keys;
      while left != {}
        invariant left <= fetched.Keys
        invariant forall name :: name in requested <==> name !in left && ToRemove(self, fetched, now, name)
        invariant rows == old(rows) - (requested - refused)
      {
        var name :| name in left;
        left := left - {name};
        if name == self {
          continue;
        }
        var age := now - fetched[name] * NANOS;
        if age > STALE {
          requested := requested + {name};
          if name !in refused {
            rows := rows - {name};
          }
        }
      }
    }
  }

  // ---- every pass at once ----

  /** A cluster's row in a group. */
  type Row = (string, string)

  type Rows = map<Row, nat>

  /** A pass of cluster `self` for a group: the heartbeats it was shown by name, and the
      names whose heartbeat was not that of the group's present row. */
  datatype Pass =
    | Fetched(group: string, self: string, shown: Heartbeats, other: set<string>, at: nat)
    | Checking(group: string, self: string, shown: Heartbeats, other: set<string>, now: nat)

  /** `beats` keeps the time that each cluster's last written status update took for its
      timestamp; the row is written then or later. `past` are all tables so far. */
  datatype World = World(now: nat, rows: Rows, beats: map<Row, nat>, past: seq<Rows>, passes: map<nat, Pass>)

  /** Where a scan finds the row it shows for a name: in any group, now or in the past. */
  datatype Source = Source(group: string, moment: nat)

  datatype Event =
    | Tick(d: nat)
    | Beat(row: Row, taken: nat)
    | Fetch(id: nat, group: string, self: string, read: set<string>)            // some batch is answered
    | Scan(id: nat, group: string, self: string, found: map<string, Source>)    // none is
    | Clock(id: nat)
    | Remove(id: nat, name: string)

  const START := World(0, map[], map[], [map[]], map[])

  function SetRows(w: World, rows: Rows): World {
    w.(rows := rows, past := w.past + [rows])
  }

  /** The group's own rows, of the names that were read. */
  function OwnRows(w: World, group: string, read: set<string>): Heartbeats {
    map name | name in read && (group, name) in w.rows :: w.rows[(group, name)]
  }

  /** What the scan shows: it has no condition on the group, and it is not consistent. */
  function Scanned(w: World, found: map<string, Source>): Heartbeats {
    map name | name in found && found[name].moment < |w.past| && (found[name].group, name) in w.past[found[name].moment]
      :: w.past[found[name].moment][(found[name].group, name)]
  }

  function Others(w: World, group: string, shown: Heartbeats): set<string> {
    set name | name in shown && !((group, name) in w.rows && w.rows[(group, name)] == shown[name])
  }

  function SetPass(w: World, id: nat, p: Pass): World {
    w.(passes := w.passes[id := p])
  }

  function Next(w: World, e: Event): World {
    match e
    case Tick(d) => w.(now := w.now + d)
    case Beat(row, taken) =>
      if taken <= w.now then SetRows(w, w.rows[row := Seconds(taken)]).(beats := w.beats[row := taken]) else w
    case Fetch(id, group, self, read) => SetPass(w, id, Fetched(group, self, OwnRows(w, group, read), {}, w.now))
    case Scan(id, group, self, found) =>
      var shown := Scanned(w, found);
      SetPass(w, id, Fetched(group, self, shown, Others(w, group, shown), w.now))
    case Clock(id) =>
      if id in w.passes && w.passes[id].Fetched? then
        var p := w.passes[id];
        SetPass(w, id, Checking(p.group, p.self, p.shown, p.other, w.now))
      else w
    case Remove(id, name) =>
      if id in w.passes && w.passes[id].Checking?
          && ToRemove(w.passes[id].self, w.passes[id].shown, w.passes[id].now, name)
      then SetRows(w, w.rows - {(w.passes[id].group, name)}) else w
  }

  function Run(es: seq<Event>): World {
    if es == [] then START else Next(Run(es[..|es| - 1]), es[|es| - 1])
  }

  /** In this state the peer's last timestamp is at most `period` old, and no pass waits
      longer than `delay` between its fetch and its clock. */
  predicate OnTime(w: World, peer: Row, period: nat, delay: nat) {
    && (peer in w.beats ==> w.now <= w.beats[peer] + period)
    && forall id :: id in w.passes && w.passes[id].Fetched? ==> w.now <= w.passes[id].at + delay
  }

  ghost predicate AlwaysOnTime(es: seq<Event>, peer: Row, period: nat, delay: nat) {
    forall i {:trigger es[..i]} :: 0 <= i <= |es| ==> OnTime(Run(es[..i]), peer, period, delay)
  }

  /** The bound: the age of a timestamp, the delay of a pass, and the second that a stored
      time has lost, together at most five minutes. */
  predicate Within(period: nat, delay: nat) {
    period + delay + 1_000_000_000 <= 5 * 60 * 1_000_000_000 + 1
  }

  /** A pass that was shown the peer's own row will not find it stale. */
  predicate PassOk(p: Pass, peer: Row, period: nat, delay: nat) {
    p.group == peer.0 && peer.1 in p.shown && peer.1 !in p.other ==>
      match p
      case Fetched(_, _, shown, _, at) => at < shown[peer.1] * NANOS + NANOS + period
      case Checking(_, _, shown, _, now) => now < shown[peer.1] * NANOS + NANOS + period + delay
  }

  predicate Inv(w: World, peer: Row, period: nat, delay: nat) {
    && (peer in w.rows ==> peer in w.beats && w.rows[peer] == Seconds(w.beats[peer]))
    && forall id :: id in w.passes ==> PassOk(w.passes[id], peer, period, delay)
  }

  lemma FetchIsOk(w: World, group: string, self: string, shown: Heartbeats, peer: Row, period: nat, delay: nat)
    requires Inv(w, peer, period, delay) && OnTime(w, peer, period, delay)
    ensures PassOk(Fetched(group, self, shown, Others(w, group, shown), w.now), peer, period, delay)
  {
  }

  lemma NextKeepsInv(w: World, e: Event, peer: Row, period: nat, delay: nat)
    requires Inv(w, peer, period, delay) && OnTime(w, peer, period, delay)
    ensures Inv(Next(w, e), peer, period, delay)
  {
    match e
    case Fetch(_, group, self, read) =>
      FetchIsOk(w, group, self, OwnRows(w, group, read), peer, period, delay);
      assert Others(w, group, OwnRows(w, group, read)) == {};
    case Scan(_, group, self, found) => FetchIsOk(w, group, self, Scanned(w, found), peer, period, delay);
    case _ =>
  }

  lemma RunSnoc(es: seq<Event>, e: Event)
    ensures Run(es + [e]) == Next(Run(es), e)
  {
    assert (es + [e])[..|es|] == es;
  }

  lemma PrefixOnTime(es: seq<Event>, n: nat, peer: Row, period: nat, delay: nat)
    requires n <= |es| && AlwaysOnTime(es, peer, period, delay)
    ensures AlwaysOnTime(es[..n], peer, period, delay)
  {
    forall i | 0 <= i <= n ensures OnTime(Run(es[..n][..i]), peer, period, delay) { assert es[..n][..i] == es[..i]; }
  }

  lemma {:induction false} InvHolds(es: seq<Event>, peer: Row, period: nat, delay: nat)
    requires AlwaysOnTime(es, peer, period, delay)
    ensures Inv(Run(es), peer, period, delay)
  {
    if es != [] {
      var n := |es| - 1;
      PrefixOnTime(es, n, peer, period, delay);
      InvHolds(es[..n], peer, period, delay);
      NextKeepsInv(Run(es[..n]), es[n], peer, period, delay);
    }
  }

  // ---- when a punctual peer is removed ----

  /** The event removes the peer's row, by a pass that was shown another row under its name:
      of another group, or a past one. */
  predicate RemovesByOther(w: World, e: Event, peer: Row) {
    && e.Remove? && e.name == peer.1 && e.id in w.passes && w.passes[e.id].Checking?
    && w.passes[e.id].group == peer.0 && peer.1 in w.passes[e.id].other
    && ToRemove(w.passes[e.id].self, w.passes[e.id].shown, w.passes[e.id].now, peer.1)
  }

  predicate Beats(w: World, e: Event, peer: Row) {
    e.Beat? && e.row == peer && e.taken <= w.now
  }

  lemma RowAfter(w: World, e: Event, peer: Row, period: nat, delay: nat)
    requires Inv(w, peer, period, delay) && Within(period, delay)
    ensures peer in Next(w, e).rows <==> Beats(w, e, peer) || (peer in w.rows && !RemovesByOther(w, e, peer))
    ensures peer in Next(w, e).beats <==> Beats(w, e, peer) || peer in w.beats
  {
  }

  /** Event `j` removes the peer's row in that way, and the peer has not reported since. */
  predicate LastRemoval(es: seq<Event>, j: nat, peer: Row) {
    && j < |es| && RemovesByOther(Run(es[..j]), es[j], peer)
    && forall m :: j < m < |es| ==> !Beats(Run(es[..m]), es[m], peer)
  }

  lemma LastRemovalLater(es: seq<Event>, e: Event, peer: Row)
    ensures (exists j: nat :: LastRemoval(es + [e], j, peer))
        <==> RemovesByOther(Run(es), e, peer) || (!Beats(Run(es), e, peer) && exists j: nat :: LastRemoval(es, j, peer))
  {
    var all, n := es + [e], |es|;
    assert forall i :: 0 <= i <= n ==> all[..i] == es[..i];
    assert es[..n] == es;
    if j: nat :| LastRemoval(es, j, peer) && !Beats(Run(es), e, peer) { assert LastRemoval(all, j, peer); }
    if RemovesByOther(Run(es), e, peer) { assert LastRemoval(all, n, peer); }
    if j: nat :| LastRemoval(all, j, peer) && j < n {
      assert all[n] == e && all[..n] == es;
      assert forall m :: j < m < n ==> all[m] == es[m];
      assert LastRemoval(es, j, peer);
    }
  }

  /** A peer that is on time has no row exactly when, since its last report, a pass removed
      it that had been shown another row under its name and found that one stale. Whatever
      passes of any groups and clusters overlap its updates, its own row is never found
      stale; and while the row is there it tells the last report. */
  lemma {:induction false} PunctualPeerIsMissingIff(es: seq<Event>, peer: Row, period: nat, delay: nat)
    requires AlwaysOnTime(es, peer, period, delay) && Within(period, delay) && peer in Run(es).beats
    ensures peer !in Run(es).rows <==> exists j: nat :: LastRemoval(es, j, peer)
    ensures peer in Run(es).rows ==> Run(es).rows[peer] == Seconds(Run(es).beats[peer])
  {
    var n := |es| - 1;
    var w, e := Run(es[..n]), es[n];
    assert es == es[..n] + [e];
    PrefixOnTime(es, n, peer, period, delay);
    InvHolds(es[..n], peer, period, delay);
    InvHolds(es, peer, period, delay);
    RowAfter(w, e, peer, period, delay);
    LastRemovalLater(es[..n], e, peer);
    if peer in w.beats { PunctualPeerIsMissingIff(es[..n], peer, period, delay); }
  }

  /** A scan of the peer's group shows under its name no row but its own present one. */
  predicate ShowsOwn(w: World, e: Event, peer: Row) {
    e.Scan? && e.group == peer.0 ==> peer.1 !in Others(w, e.group, Scanned(w, e.found))
  }

  ghost predicate AlwaysShowsOwn(es: seq<Event>, peer: Row) {
    forall i {:trigger es[..i]} :: 0 <= i < |es| ==> ShowsOwn(Run(es[..i]), es[i], peer)
  }

  predicate NoOther(w: World, peer: Row) {
    forall id :: id in w.passes && w.passes[id].group == peer.0 ==> peer.1 !in w.passes[id].other
  }

  lemma NextKeepsNoOther(w: World, e: Event, peer: Row)
    requires NoOther(w, peer) && ShowsOwn(w, e, peer)
    ensures NoOther(Next(w, e), peer)
  {
  }

  lemma {:induction false} NoOtherHolds(es: seq<Event>, peer: Row)
    requires AlwaysShowsOwn(es, peer)
    ensures NoOther(Run(es), peer)
  {
    if es != [] {
      var n := |es| - 1;
      forall i | 0 <= i < n ensures ShowsOwn(Run(es[..n][..i]), es[..n][i], peer) { assert es[..n][..i] == es[..i]; }
      NoOtherHolds(es[..n], peer);
      NextKeepsNoOther(Run(es[..n]), es[n], peer);
    }
  }

  /** So where no scan of the group shows another row under its name, in particular where
      every fetch has some batch answered, a peer that is on time always has its row. */
  lemma {:induction false} PunctualPeerStays(es: seq<Event>, peer: Row, period: nat, delay: nat)
    requires AlwaysOnTime(es, peer, period, delay) && Within(period, delay) && peer in Run(es).beats
    requires AlwaysShowsOwn(es, peer)
    ensures peer in Run(es).rows && Run(es).rows[peer] == Seconds(Run(es).beats[peer])
  {
    PunctualPeerIsMissingIff(es, peer, period, delay);
    forall j: nat | j < |es| ensures !LastRemoval(es, j, peer) {
      forall i | 0 <= i < j ensures ShowsOwn(Run(es[..j][..i]), es[..j][i], peer) { assert es[..j][..i] == es[..i]; }
      NoOtherHolds(es[..j], peer);
    }
  }

  // ---- runs ----

  lemma Extend(es: seq<Event>, e: Event, peer: Row, period: nat, delay: nat) returns (es': seq<Event>)
    requires AlwaysOnTime(es, peer, period, delay) && OnTime(Next(Run(es), e), peer, period, delay)
    ensures es' == es + [e] && Run(es') == Next(Run(es), e) && AlwaysOnTime(es', peer, period, delay)
  {
    es' := es + [e];
    RunSnoc(es, e);
    forall i | 0 <= i <= |es'| ensures OnTime(Run(es'[..i]), peer, period, delay) {
      if i <= |es| { assert es'[..i] == es[..i]; } else { assert es'[..i] == es'; }
    }
  }

  lemma Started(peer: Row, period: nat, delay: nat)
    ensures AlwaysOnTime([], peer, period, delay) && Run([]) == START
  {
  }

  /** What the steps of a run without passes leave alone. */
  predicate NoPasses(w: World) {
    w.passes == map[]
  }

  /** Another group's row for the name, five minutes before the peer reports. */
  lemma OldNamesake(group: string, group': string, name: string, period: nat, delay: nat) returns (es: seq<Event>)
    requires group != group'
    ensures AlwaysOnTime(es, (group, name), period, delay)
    ensures var w, peer := Run(es), (group, name);
            && NoPasses(w) && w.now == STALE + 1 && peer in w.beats && w.beats[peer] == w.now
            && peer in w.rows && w.rows[peer] == Seconds(w.now)
            && |w.past| > 1 && (group', name) in w.past[1] && w.past[1][(group', name)] == 0
  {
    var peer := (group, name);
    Started(peer, period, delay);
    es := Extend([], Beat((group', name), 0), peer, period, delay);
    assert Run(es).past == [map[], Run(es).rows];
    es := Extend(es, Tick(STALE + 1), peer, period, delay);
    var before := Run(es);
    es := Extend(es, Beat(peer, STALE + 1), peer, period, delay);
    assert Run(es).past[1] == before.past[1];
  }

  /** A pass whose batches all failed, and which is shown that row. */
  lemma ScanRemoves(w: World, group: string, group': string, name: string, self: string)
    requires NoPasses(w) && name != self && w.now == STALE + 1
    requires (group, name) in w.rows && w.rows[(group, name)] == Seconds(w.now)
    requires |w.past| > 1 && (group', name) in w.past[1] && w.past[1][(group', name)] == 0
    ensures var w1 := Next(w, Scan(0, group, self, map[name := Source(group', 1)]));
            var w2 := Next(w1, Clock(0));
            var w3 := Next(w2, Remove(0, name));
            && w1.passes.Keys == {0} && w1.passes[0].Fetched? && w1.passes[0].at == w.now
            && w2.passes.Keys == {0} && w2.passes[0].Checking? && w3.passes == w2.passes
            && w1.now == w2.now == w3.now == w.now && w1.beats == w2.beats == w3.beats == w.beats
            && (group, name) !in w3.rows
  {
    var found := map[name := Source(group', 1)];
    assert name in Scanned(w, found) && Scanned(w, found)[name] == 0;
    var w1 := Next(w, Scan(0, group, self, found));
    assert w1.passes[0].shown[name] == 0;
    var w2 := Next(w1, Clock(0));
    assert w2.passes[0] == Checking(group, self, w1.passes[0].shown, w1.passes[0].other, w.now);
  }

  /** A peer that has just reported is removed: a pass whose batches all failed is shown the
      old row of a cluster of that name in another group. */
  lemma ScanRemovesAPunctualPeer(group: string, group': string, name: string, self: string, period: nat, delay: nat)
    returns (es: seq<Event>)
    requires group != group' && name != self
    ensures AlwaysOnTime(es, (group, name), period, delay)
    ensures var w := Run(es); (group, name) in w.beats && w.beats[(group, name)] == w.now && (group, name) !in w.rows
  {
    var peer := (group, name);
    es := OldNamesake(group, group', name, period, delay);
    ScanRemoves(Run(es), group, group', name, self);
    es := Extend(es, Scan(0, group, self, map[name := Source(group', 1)]), peer, period, delay);
    es := Extend(es, Clock(0), peer, period, delay);
    es := Extend(es, Remove(0, name), peer, period, delay);
  }

  /** A peer that reports just before a second ends. */
  lemma Reported(peer: Row, period: nat, delay: nat) returns (es: seq<Event>)
    ensures AlwaysOnTime(es, peer, period, delay) && forall e :: e in es ==> !e.Scan?
    ensures var w := Run(es);
            && NoPasses(w) && w.now == NANOS - 1 + period && peer in w.beats && w.beats[peer] == NANOS - 1
            && peer in w.rows && w.rows[peer] == 0
  {
    Started(peer, period, delay);
    es := Extend([], Tick(NANOS - 1), peer, period, delay);
    es := Extend(es, Beat(peer, NANOS - 1), peer, period, delay);
    es := Extend(es, Tick(period), peer, period, delay);
  }

  /** A pass that has fetched the peer's own row, of heartbeat 0, and no other pass. */
  predicate OnePass(w: World, peer: Row, self: string, at: nat) {
    w.passes == map[0 := Fetched(peer.0, self, map[peer.1 := 0], {}, at)]
  }

  lemma OwnRowIsFetched(w: World, peer: Row, self: string)
    requires NoPasses(w) && peer in w.rows && w.rows[peer] == 0
    ensures var w' := Next(w, Fetch(0, peer.0, self, {peer.1}));
            w' == w.(passes := w'.passes) && OnePass(w', peer, self, w.now)
  {
    assert OwnRows(w, peer.0, {peer.1}) == map[peer.1 := 0];
  }

  /** Time passes before the pass goes on, while the peer keeps reporting. */
  lemma WaitOut(es: seq<Event>, peer: Row, self: string, at: nat, left: nat, period: nat, delay: nat)
    returns (es': seq<Event>)
    requires AlwaysOnTime(es, peer, period, delay) && period > 0 && forall e :: e in es ==> !e.Scan?
    requires var w := Run(es); peer in w.beats && OnePass(w, peer, self, at) && w.now + left <= at + delay
    ensures AlwaysOnTime(es', peer, period, delay) && forall e :: e in es' ==> !e.Scan?
    ensures var w := Run(es'); peer in w.beats && OnePass(w, peer, self, at) && w.now == Run(es).now + left
    decreases left
  {
    es' := es;
    if left > 0 {
      var now, d := Run(es).now, if left < period then left else period;
      es' := Extend(es', Beat(peer, now), peer, period, delay);
      es' := Extend(es', Tick(d), peer, period, delay);
      es' := WaitOut(es', peer, self, at, left - d, period, delay);
    }
  }

  /** Then the pass goes on, and finds the row it fetched stale. */
  lemma LatePass(w: World, peer: Row, self: string, at: nat)
    requires OnePass(w, peer, self, at) && peer.1 != self && w.now > STALE
    ensures var w1 := Next(w, Clock(0));
            var w2 := Next(w1, Remove(0, peer.1));
            && w1.now == w2.now == w.now && w1.beats == w2.beats == w.beats
            && w1.passes.Keys == {0} && w1.passes[0].Checking? && w2.passes == w1.passes && peer !in w2.rows
  {
    var w1 := Next(w, Clock(0));
    assert w1.passes == map[0 := Checking(peer.0, self, map[peer.1 := 0], {}, w.now)];
  }

  lemma Judged(es: seq<Event>, peer: Row, self: string, at: nat, period: nat, delay: nat) returns (es': seq<Event>)
    requires AlwaysOnTime(es, peer, period, delay) && forall e :: e in es ==> !e.Scan?
    requires var w := Run(es); OnePass(w, peer, self, at) && peer.1 != self && w.now > STALE && peer in w.beats
    ensures AlwaysOnTime(es', peer, period, delay) && forall e :: e in es' ==> !e.Scan?
    ensures peer in Run(es').beats && peer !in Run(es').rows
  {
    LatePass(Run(es), peer, self, at);
    assert es[..|es|] == es;
    assert OnTime(Run(es), peer, period, delay);
    es' := Extend(es, Clock(0), peer, period, delay);
    es' := Extend(es', Remove(0, peer.1), peer, period, delay);
  }

  /** The bound is sharp, for every period and every delay: one nanosecond more, and a peer
      that is on time is removed, by a pass that judges the row it fetched just before the
      peer's next report. */
  lemma BoundIsSharp(peer: Row, other: string, period: nat, delay: nat) returns (es: seq<Event>)
    requires peer.1 != other && period > 0 && !Within(period, delay)
    ensures AlwaysOnTime(es, peer, period, delay) && peer in Run(es).beats && peer !in Run(es).rows
    ensures forall e :: e in es ==> !e.Scan?
  {
    es := Reported(peer, period, delay);
    var now := NANOS - 1 + period;
    OwnRowIsFetched(Run(es), peer, other);
    es := Extend(es, Fetch(0, peer.0, other, {peer.1}), peer, period, delay);
    es := WaitOut(es, peer, other, now, delay, period, delay);
    es := Judged(es, peer, other, now, period, delay);
  }
}
