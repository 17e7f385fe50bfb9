/** Every status row, whole, as the last events about it left it. */
module StatusHistory {
  import opened Records
  import opened Protocol
  import opened ProtocolInvariants
  import opened ProtocolTheorems
  import opened StatusRows

  function RowOf(w: World, k: string): Option<StatusRow> {
    if k in w.table.status then Some(w.table.status[k]) else None
  }

  /** The move that an event commits. */
  function MoveMade(w: World, e: Event): Option<Origin> {
    var commits := Next(w, e).commits;
    if |commits| > |w.commits| && commits[|commits| - 1].origin.Moved? then Some(commits[|commits| - 1].origin)
    else None
  }

  /** What an event makes of the row of cluster `k`. A move relabels the rows of its two
      clusters: PRIMARY for the target, and for the source the kind of operation that left
      it. It keeps the health of a row, and a row that it creates is read as OK. */
  function RowAfter(w: World, e: Event, k: string, row: Option<StatusRow>): Option<StatusRow> {
    match e
    case Sync(cluster) =>
      if cluster != k || k == "" then row
      else
        var config := Next(w, e).table.config;
        Some(StatusRow(OK, if config.Some? && config.value.owner == k then PRIMARY else STANDBY))
    case WriteStatus(id) => if id in w.decided && w.decided[id].cluster == k then Some(w.decided[id].row) else row
    case Forget(cluster) => if cluster == k then None else row
    case Report(cluster, health) => if cluster == k && row.Some? then Some(row.value.(health := health)) else row
    case Act(id, _, _) =>
      var move := MoveMade(w, e);
      var health := if row.Some? then row.value.health else OK;
      if move.None? then row
      else if k == move.value.target then Some(StatusRow(health, PRIMARY))
      else if k == move.value.source then
        Some(StatusRow(health, if id in w.clients && w.clients[id].op.Failback? then FAILBACK else FAILOVER))
      else row
    case _ => row
  }

  /** The row of a cluster as the events tell it. */
  function Told(es: seq<Event>, k: string): Option<StatusRow> {
    if es == [] then None
    else
      var n := |es| - 1;
      RowAfter(Run(Init(), es[..n]), es[n], k, Told(es[..n], k))
  }

  lemma OnlyMovesTouchRows(w: World, id: nat, fate: Fate, stale: nat, k: string)
    requires id in w.clients && !w.clients[id].pc.Transact?
    ensures RowOf(Step(w, id, fate, stale), k) == RowOf(w, k)
    ensures MoveMade(w, Act(id, fate, stale)).None?
  {
    var c := w.clients[id];
    match c.pc
    case CheckLock =>
    case CheckLease =>
    case ReadConfig(_) =>
    case CreateConfig(_) =>
    case CheckHealth =>
    case LeaseClock =>
    case LeasePut(_) =>
    case WriteHistory =>
    case PutConfig =>
    case Release =>
    case Holding =>
    case Done =>
  }

  lemma MoveTouchesTwoRows(w: World, id: nat, fate: Fate, stale: nat, k: string)
    requires id in w.clients && w.clients[id].pc.Transact?
    ensures var e := Act(id, fate, stale);
            RowOf(Step(w, id, fate, stale), k) == RowAfter(w, e, k, RowOf(w, k))
  {
  }

  lemma NextRowIs(w: World, e: Event, k: string)
    ensures RowOf(Next(w, e), k) == RowAfter(w, e, k, RowOf(w, k))
  {
    match e
    case Act(id, fate, stale) =>
      if id in w.clients {
        if w.clients[id].pc.Transact? { MoveTouchesTwoRows(w, id, fate, stale, k); }
        else { OnlyMovesTouchRows(w, id, fate, stale, k); }
      }
    case _ =>
  }

  /** In every run every row is what the events tell: its health is the one last written or
      reported for it, whatever operations moved ownership in between, and OK for a row that
      a move created; its state is the one last written for it, or the label of the last move
      from or to its cluster. */
  lemma {:induction false} RowIsTold(es: seq<Event>, k: string)
    ensures RowOf(Run(Init(), es), k) == Told(es, k)
  {
    if es != [] {
      var n := |es| - 1;
      RowIsTold(es[..n], k);
      NextRowIs(Run(Init(), es[..n]), es[n], k);
    }
  }

  /** No step of any operation changes the health of a row, and a row that it creates is OK. */
  lemma {:induction false} OperationsKeepHealth(es: seq<Event>, id: nat, fate: Fate, stale: nat, k: string)
    ensures var w := Run(Init(), es);
            var w' := Next(w, Act(id, fate, stale));
            && (k in w.table.status ==> k in w'.table.status && w'.table.status[k].health == w.table.status[k].health)
            && (k !in w.table.status && k in w'.table.status ==> w'.table.status[k].health == OK)
  {
    NextRowIs(Run(Init(), es), Act(id, fate, stale), k);
  }

  /** When ownership moves, the target's row says PRIMARY, the source's row says which kind
      of operation left it, and every other row stays. */
  lemma {:induction false} MovesLabelRows(es: seq<Event>, id: nat, fate: Fate, stale: nat, k: string)
    requires var w := Run(Init(), es); id in w.clients && MoveMade(w, Act(id, fate, stale)).Some?
    ensures var w := Run(Init(), es);
            var w', move := Next(w, Act(id, fate, stale)), MoveMade(w, Act(id, fate, stale)).value;
            && move.source in w'.table.status && move.target in w'.table.status && move.source != move.target
            && w'.table.status[move.target].state == PRIMARY
            && w'.table.status[move.source].state == (if w.clients[id].op == Failback then FAILBACK else FAILOVER)
            && (k != move.source && k != move.target ==> RowOf(w', k) == RowOf(w, k))
  {
    var w, e := Run(Init(), es), Act(id, fate, stale);
    var move := MoveMade(w, e).value;
    MoveHasTwoEnds(es, e);
    NextRowIs(w, e, k);
    NextRowIs(w, e, move.source);
    NextRowIs(w, e, move.target);
  }

  lemma {:induction false} MoveHasTwoEnds(es: seq<Event>, e: Event)
    requires MoveMade(Run(Init(), es), e).Some?
    ensures var move := MoveMade(Run(Init(), es), e).value; move.source != move.target
  {
    Reachable(es + [e]);
    RunSnoc(Init(), es, e);
    var commits := Next(Run(Init(), es), e).commits;
    assert LinkAt(commits, |commits| - 1);
  }
}
