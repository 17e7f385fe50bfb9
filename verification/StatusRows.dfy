/** The status rows in every run, whoever writes them: which row says PRIMARY although
    its cluster is not the owner. */
module StatusRows {
  import opened Records
  import opened Protocol
  import opened ProtocolInvariants
  import opened ProtocolTheorems

  /** The event starts or ends the write `id`. */
  predicate Touches(e: Event, id: nat) {
    ((e.ReadSync? && e.cluster != "") || e.ReadHeartbeat? || e.Decide? || e.WriteStatus?) && e.id == id
  }

  /** The event decides on a row of the cluster, for the write `id`. */
  predicate Decides(e: Event, id: nat, k: string) {
    Touches(e, id) && !e.WriteStatus? && e.cluster == k
  }

  /** When that row is a PRIMARY one: a synchronisation found its cluster to be the owner,
      or created the group; a heartbeat failed to read, found no row, or found a PRIMARY
      one; a view or a task chose it. */
  predicate SaysPrimary(w: World, e: Event)
    requires e.ReadSync? || e.ReadHeartbeat? || e.Decide?
  {
    match e
    case ReadSync(_, k) => w.table.config.Some? ==> w.table.config.value.owner == k
    case ReadHeartbeat(_, k, failed) => failed || k !in w.table.status || w.table.status[k].state == PRIMARY
    case Decide(_, _, row) => row.state == PRIMARY
  }

  /** The row it decides on: a synchronisation says OK, and STANDBY unless it found its
      cluster to be the owner; a heartbeat keeps the row it read. */
  function DecidedRow(w: World, e: Event): StatusRow
    requires e.ReadSync? || e.ReadHeartbeat? || e.Decide?
  {
    match e
    case ReadSync(_, k) =>
      StatusRow(OK, if w.table.config.Some? && w.table.config.value.owner != k then STANDBY else PRIMARY)
    case ReadHeartbeat(_, k, failed) =>
      if failed || k !in w.table.status then StatusRow(OK, PRIMARY) else w.table.status[k]
    case Decide(_, _, row) => row
  }

  predicate MovesCluster(c: Commit, k: string) {
    c.origin.Moved? && (c.origin.source == k || c.origin.target == k)
  }

  /** The event puts or removes the row of the cluster. */
  predicate Puts(w: World, e: Event, k: string) {
    match e
    case Sync(cluster) => cluster == k && k != ""
    case WriteStatus(id) => id in w.decided && w.decided[id].cluster == k
    case Forget(cluster) => cluster == k
    case Act(_, _, _) =>
      var commits := Next(w, e).commits;
      |commits| > |w.commits| && MovesCluster(commits[|commits| - 1], k)
    case _ => false
  }

  /** The state of a row, if there is one. */
  function StateOf(w: World, k: string): Option<State> {
    if k in w.table.status then Some(w.table.status[k].state) else None
  }

  predicate SameRow(w: World, w': World, k: string) {
    StateOf(w', k) == StateOf(w, k) && (k in w'.late <==> k in w.late)
  }

  lemma StepRow(w: World, id: nat, fate: Fate, stale: nat, k: string)
    requires id in w.clients && !Puts(w, Act(id, fate, stale), k)
    ensures SameRow(w, Step(w, id, fate, stale), k)
  {
    var c := w.clients[id];
    match c.pc
    case CheckLock =>
    case CheckLease =>
    case ReadConfig(_) =>
    case CreateConfig(_) =>
    case CheckHealth =>
    case LeaseClock =>
    case LeasePut(_) =>
    case Transact => TransactRow(w, id, c, fate, k);
    case WriteHistory =>
    case PutConfig =>
    case Release =>
    case Holding =>
    case Done =>
  }

  lemma TransactRow(w: World, id: nat, c: Client, fate: Fate, k: string)
    requires var commits := StepTransact(w, id, c, fate).commits;
             |commits| > |w.commits| ==> !MovesCluster(commits[|commits| - 1], k)
    ensures SameRow(w, StepTransact(w, id, c, fate), k)
  {
  }

  lemma NextRow(w: World, e: Event, k: string)
    requires !Puts(w, e, k)
    ensures SameRow(w, Next(w, e), k)
  {
    match e
    case Act(id, fate, stale) => if id in w.clients { StepRow(w, id, fate, stale, k); }
    case _ =>
  }

  predicate SameDecision(w: World, w': World, id: nat) {
    (id in w'.decided <==> id in w.decided) && (id in w.decided ==> w'.decided[id] == w.decided[id])
  }

  lemma NextDecision(w: World, e: Event, id: nat)
    requires !Touches(e, id)
    ensures SameDecision(w, Next(w, e), id)
  {
  }

  lemma DecisionMade(w: World, e: Event, id: nat, k: string)
    requires Decides(e, id, k)
    ensures id in Next(w, e).decided && Next(w, e).decided[id].cluster == k
    ensures Next(w, e).decided[id].row == DecidedRow(w, e)
    ensures DecidedRow(w, e).state == PRIMARY <==> SaysPrimary(w, e)
  {
  }

  /** A write that puts a row removes its own decision, and makes the row a late one. */
  lemma WriteEffect(w: World, id: nat)
    requires id in w.decided
    ensures var w', d := Next(w, WriteStatus(id)), w.decided[id];
            StateOf(w', d.cluster) == Some(d.row.state) && d.cluster in w'.late && id !in w'.decided
  {
  }

  // ---- the events that a row comes from ----

  function At(es: seq<Event>, i: nat): World
    requires i <= |es|
  {
    Run(Init(), es[..i])
  }

  lemma AtNext(es: seq<Event>, i: nat)
    requires i < |es|
    ensures At(es, i + 1) == Next(At(es, i), es[i])
  {
    assert es[..i + 1] == es[..i] + [es[i]];
    RunSnoc(Init(), es[..i], es[i]);
  }

  /** Event `i` decides on a row of `k` for the write `id`, which nothing touches up to `end`. */
  predicate Pending(es: seq<Event>, i: nat, end: nat, id: nat, k: string) {
    && i < end <= |es| && Decides(es[i], id, k)
    && forall m :: i < m < end ==> !Touches(es[m], id)
  }

  /** Event `j` writes what event `i` decided for `k`, and it is the last to put that row
      up to `end`. */
  predicate LastPut(es: seq<Event>, i: nat, j: nat, end: nat, k: string) {
    && i < j < end <= |es| && es[j].WriteStatus? && Pending(es, i, j, es[j].id, k)
    && forall m :: j < m < end ==> !Puts(At(es, m), es[m], k)
  }

  /** Forwards: a pending decision is kept. */
  lemma {:induction false} PendingIsDecided(es: seq<Event>, i: nat, end: nat, id: nat, k: string)
    requires Pending(es, i, end, id, k)
    ensures var w := At(es, end);
            id in w.decided && w.decided[id] == Decision(k, DecidedRow(At(es, i), es[i]))
    decreases end
  {
    AtNext(es, end - 1);
    if end == i + 1 {
      DecisionMade(At(es, i), es[i], id, k);
    } else {
      PendingIsDecided(es, i, end - 1, id, k);
      NextDecision(At(es, end - 1), es[end - 1], id);
    }
  }

  /** Forwards: a row put last by a late write says what was decided. */
  lemma {:induction false} LastPutIsLate(es: seq<Event>, i: nat, j: nat, end: nat, k: string)
    requires LastPut(es, i, j, end, k)
    ensures var w := At(es, end);
            && k in w.late && StateOf(w, k) == Some(DecidedRow(At(es, i), es[i]).state)
            && (StateOf(w, k) == Some(PRIMARY) <==> SaysPrimary(At(es, i), es[i]))
    decreases end
  {
    AtNext(es, end - 1);
    if end == j + 1 {
      PendingIsDecided(es, i, j, es[j].id, k);
      WriteEffect(At(es, j), es[j].id);
    } else {
      LastPutIsLate(es, i, j, end - 1, k);
      NextRow(At(es, end - 1), es[end - 1], k);
    }
  }

  /** Backwards: every decision under way comes from an event. */
  lemma {:induction false} DecisionHasAnEvent(es: seq<Event>, end: nat, id: nat) returns (i: nat)
    requires end <= |es| && id in At(es, end).decided
    ensures Pending(es, i, end, id, At(es, end).decided[id].cluster)
    decreases end
  {
    assert end > 0 by { assert es[..0] == []; }
    var w, e := At(es, end - 1), es[end - 1];
    AtNext(es, end - 1);
    if Touches(e, id) {
      DecidedByEvent(w, e, id);
      i := end - 1;
    } else {
      NextDecision(w, e, id);
      i := DecisionHasAnEvent(es, end - 1, id);
    }
  }

  lemma DecidedByEvent(w: World, e: Event, id: nat)
    requires Touches(e, id) && id in Next(w, e).decided
    ensures e.WriteStatus? ==> id !in w.decided
    ensures !e.WriteStatus? ==> Decides(e, id, Next(w, e).decided[id].cluster)
  {
  }

  /** Backwards: every late row comes from a decision and a write. */
  lemma {:induction false} LateRowHasEvents(es: seq<Event>, end: nat, k: string) returns (i: nat, j: nat)
    requires end <= |es| && k in At(es, end).late
    ensures LastPut(es, i, j, end, k)
    decreases end
  {
    assert end > 0 by { assert es[..0] == []; }
    var w, e := At(es, end - 1), es[end - 1];
    AtNext(es, end - 1);
    if Puts(w, e, k) {
      OnlyWritesAreLate(w, e, k);
      i := DecisionHasAnEvent(es, end - 1, e.id);
      j := end - 1;
    } else {
      NextRow(w, e, k);
      i, j := LateRowHasEvents(es, end - 1, k);
      LastPutStays(es, i, j, end - 1, k);
    }
  }

  lemma LastPutStays(es: seq<Event>, i: nat, j: nat, end: nat, k: string)
    requires LastPut(es, i, j, end, k) && end < |es| && !Puts(At(es, end), es[end], k)
    ensures LastPut(es, i, j, end + 1, k)
  {
  }

  lemma OnlyWritesAreLate(w: World, e: Event, k: string)
    requires Puts(w, e, k) && k in Next(w, e).late
    ensures e.WriteStatus? && e.id in w.decided && w.decided[e.id].cluster == k
  {
    if e.Act? && e.id in w.clients { MovedRowsAreCurrent(w, e.id, e.fate, e.stale, k); }
  }

  lemma MovedRowsAreCurrent(w: World, id: nat, fate: Fate, stale: nat, k: string)
    requires id in w.clients
    requires var commits := Step(w, id, fate, stale).commits;
             |commits| > |w.commits| && MovesCluster(commits[|commits| - 1], k)
    ensures k !in Step(w, id, fate, stale).late
  {
    var c := w.clients[id];
    match c.pc
    case CheckLock =>
    case CheckLease =>
    case ReadConfig(_) =>
    case CreateConfig(_) =>
    case CheckHealth =>
    case LeaseClock =>
    case LeasePut(_) =>
    case Transact =>
    case WriteHistory =>
    case PutConfig =>
    case Release =>
    case Holding =>
    case Done =>
  }

  // ---- the theorem ----

  /** The row says PRIMARY although its cluster does not own the group. */
  predicate Mislabelled(w: World, k: string) {
    k in w.table.status && w.table.status[k].state == PRIMARY
        && !(w.table.config.Some? && w.table.config.value.owner == k)
  }

  /** The last event to put the row wrote a PRIMARY row that was decided earlier. */
  ghost predicate PutAsPrimary(es: seq<Event>, k: string) {
    exists i: nat, j: nat :: LastPut(es, i, j, |es|, k) && SaysPrimary(At(es, i), es[i])
  }

  lemma PutAsPrimaryIff(es: seq<Event>, k: string)
    ensures PutAsPrimary(es, k) <==> k in At(es, |es|).late && StateOf(At(es, |es|), k) == Some(PRIMARY)
  {
    if PutAsPrimary(es, k) {
      var i: nat, j: nat :| LastPut(es, i, j, |es|, k) && SaysPrimary(At(es, i), es[i]);
      LastPutIsLate(es, i, j, |es|, k);
    }
    if k in At(es, |es|).late {
      var i, j := LateRowHasEvents(es, |es|, k);
      LastPutIsLate(es, i, j, |es|, k);
    }
  }

  /** In every run, whatever synchronisations, heartbeats, views, tasks, removals and
      transactions are interleaved in however many steps: a row is PRIMARY without being
      the owner's exactly when its cluster is not the owner and the last event to put the
      row wrote a PRIMARY row decided earlier. */
  lemma {:induction false} MislabelledIff(es: seq<Event>, k: string)
    ensures var w := Run(Init(), es);
            Mislabelled(w, k) <==> !(w.table.config.Some? && w.table.config.value.owner == k) && PutAsPrimary(es, k)
  {
    Reachable(es);
    assert es[..|es|] == es;
    PutAsPrimaryIff(es, k);
  }

  /** Such a run: a heartbeat that fails to read makes a second PRIMARY row. */
  lemma FailedHeartbeatMislabels(a: string, b: string)
    requires a != b && a != ""
    ensures var w := Run(Init(), [Sync(a)] + [ReadHeartbeat(0, b, true)] + [WriteStatus(0)]);
            w.table.config.Some? && w.table.config.value.owner == a && Mislabelled(w, b)
            && a in w.table.status && w.table.status[a].state == PRIMARY
  {
    RunSnoc(Init(), [Sync(a)] + [ReadHeartbeat(0, b, true)], WriteStatus(0));
    RunSnoc(Init(), [Sync(a)], ReadHeartbeat(0, b, true));
    assert [] + [Sync(a)] == [Sync(a)];
    RunSnoc(Init(), [], Sync(a));
  }
}
