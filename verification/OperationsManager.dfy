/** The operations of the managers, run against a table that other callers use too.

    `Store` is the table together with the run of the protocol that led to it. Before
    each of its own accesses an operation lets the other callers act; `alone` stores
    are undisturbed and answer everything, which gives the sequential behaviour. */
module Operations {
  import opened Records
  import opened Protocol
  import opened ProtocolInvariants
  import opened ProtocolTheorems

  predicate By(e: Event, me: nat) {
    e.Act? && e.id == me
  }

  /** What other callers' events leave of a caller, of the commits and of the time. */
  lemma {:induction false} OthersLeaveCaller(w: World, es: seq<Event>, me: nat)
    requires me in w.clients && forall i :: 0 <= i < |es| ==> !By(es[i], me)
    ensures var w' := Run(w, es);
            me in w'.clients && w'.clients[me] == w.clients[me] && w.commits <= w'.commits && w.now <= w'.now
  {
    if es != [] {
      var n := |es| - 1;
      OthersLeaveCaller(w, es[..n], me);
      NextLeavesCaller(Run(w, es[..n]), es[n], me);
    }
  }

  lemma NextLeavesCaller(w: World, e: Event, me: nat)
    requires me in w.clients && !By(e, me)
    ensures var w' := Next(w, e);
            me in w'.clients && w'.clients[me] == w.clients[me] && w.commits <= w'.commits && w.now <= w'.now
  {
    match e
    case Act(id, fate, stale) => if id in w.clients { StepLeavesCaller(w, id, fate, stale, me); }
    case _ =>
  }

  lemma StepLeavesCaller(w: World, id: nat, fate: Fate, stale: nat, me: nat)
    requires id in w.clients && me in w.clients && id != me
    ensures var w' := Step(w, id, fate, stale);
            me in w'.clients && w'.clients[me] == w.clients[me] && w.commits <= w'.commits && w.now == w'.now
  {
    StepIsLocal(w, id, fate, stale);
    StepOnlyAppends(w, id, fate, stale);
  }

  lemma StepOnlyAppends(w: World, id: nat, fate: Fate, stale: nat)
    requires id in w.clients
    ensures var w' := Step(w, id, fate, stale); w.commits <= w'.commits && w.now == w'.now
  {
    var c := w.clients[id];
    match c.pc
    case CheckLock =>
    case CheckLease =>
    case ReadConfig(_) =>
    case CreateConfig(_) =>
    case CheckHealth =>
    case LeaseClock =>
    case LeasePut(_) =>
    case Transact =>
    case WriteHistory =>
    case PutConfig =>
    case Release =>
    case Holding =>
    case Done =>
  }

  lemma ActKeepsCallers(w: World, id: nat, fate: Fate, stale: nat)
    ensures Next(w, Act(id, fate, stale)).clients.Keys == w.clients.Keys
  {
    if id in w.clients {
      StepIsLocal(w, id, fate, stale);
      StepAddsNobody(w, id, fate, stale);
    }
  }

  class Store {
    var table: Table
    var locks: seq<Option<LockRow>>  // what a read that is not consistent may return
    var now: nat
    const alone: bool
    ghost var events: seq<Event>

    constructor (alone: bool)
      ensures Valid() && this.alone == alone && table == EMPTY_TABLE
    {
      table, locks, now, events := EMPTY_TABLE, [None], 0, [];
      this.alone := alone;
    }

    ghost function World(): World
      reads this
    {
      Run(Init(), events)
    }

    /** The table is the one the protocol has after `events`. */
    ghost predicate Valid()
      reads this
    {
      World().table == table && World().locks == locks && World().now == now
    }

    /** Caller `me` is in state `c`. */
    ghost predicate At(me: nat, c: Client)
      reads this
    {
      me in World().clients && World().clients[me] == c
    }

    /** Lets the other callers act and time pass: this contract is all that an
        operation may rely on between two of its own accesses. */
    method Others(ghost me: nat, ghost c: Client)
      requires Valid() && At(me, c)
      modifies this
      ensures Valid() && At(me, c)
      ensures old(events) <= events && forall i :: |old(events)| <= i < |events| ==> !By(events[i], me)
      ensures alone ==> table == old(table) && locks == old(locks)
      ensures old(now) <= now && (alone ==> World() == old(World()).(now := now))
    {
      var d: nat := *;
      Happened(Tick(d));
      now := now + d;
    }

    /** How the store treats the next access. */
    method Answer() returns (fate: Fate)
      ensures alone ==> fate == Ack
    {
      if alone {
        fate := Ack;
      } else {
        fate := *;
      }
    }

    ghost method Happened(e: Event)
      modifies this`events
      ensures events == old(events) + [e]
      ensures World() == Next(old(World()), e)
      ensures e.Act? ==> Callers() == old(Callers())
      ensures e.Begin? ==> Callers() <= old(Callers()) + {e.id}
    {
      RunSnoc(Init(), events, e);
      if e.Act? { ActKeepsCallers(World(), e.id, e.fate, e.stale); }
      events := events + [e];
    }

    /** Who has ever begun an operation. */
    ghost function Callers(): set<nat>
      reads this
    {
      World().clients.Keys
    }

    /** IsLocked: `None` is an error, otherwise whether the group looks locked by the row
        `shown`, which is the present one or a past one. */
    method IsLocked(ghost me: nat, ghost c: Client)
      returns (locked: Option<bool>, ghost shown: Option<LockRow>, ghost c': Client)
      requires Valid() && At(me, c) && (c.pc.CheckLock? || c.pc.CheckLease?)
      modifies this
      ensures old(now) <= now && (alone ==> Callers() == old(Callers()))
      ensures Valid() && At(me, c') && table == old(table)
      ensures c' == if locked != Some(false) then Leave(c)
                    else if c.pc.CheckLease? then c.(pc := LeaseClock) else c.(pc := ReadConfig(Validate))
      ensures shown == old(table.lock) || shown in old(locks)
      ensures locked.Some? ==> locked.value == LooksLocked(shown, old(now))
      ensures alone ==> locked.Some? && shown == table.lock && now == old(now)
    {
      var fate := Answer();
      var i: int := *;
      if alone || i < 0 { i := |locks|; }
      var row := if i < |locks| then locks[i] else table.lock;
      shown := row;
      if fate != Ack {
        locked := None;
      } else if row.None? || now > row.value.expiresAt * NANOS {
        locked := Some(false);
      } else {
        locked := Some(true);
      }
      Happened(Act(me, fate, i));
      c' := World().clients[me];
    }

    /** GetGroupConfig: reads the row, or stores the default record when there is none. */
    method GetGroupConfig(ghost me: nat, cluster: string, ghost at: Point, ghost c: Client)
      returns (rec: Option<GroupConfig>, ghost c': Client)
      requires Valid() && At(me, c) && c.pc == ReadConfig(at) && c.cluster == cluster
      modifies this
      ensures old(now) <= now && (alone ==> Callers() == old(Callers()))
      ensures Valid() && At(me, c')
      ensures c' == if rec.Some? then Use(c, at, rec.value) else Leave(c)
      ensures old(table.config).Some? ==> table == old(table) && rec in {None, Some(Unmarshal(table.config.value))}
      ensures old(table.config).None? && rec.Some? ==>
                rec.value == PutItem(DefaultConfig(cluster)) && table.config == rec
      ensures alone ==> rec.Some?
    {
      var fate := Answer();
      if fate != Ack || table.config.Some? {
        rec := if fate != Ack then None else Some(Unmarshal(table.config.value));
        Happened(Act(me, fate, 0));
        c' := World().clients[me];
      } else {
        Happened(Act(me, fate, 0));
        Others(me, c.(pc := CreateConfig(at)));
        var stored := PutDefault(me, cluster, at, c.(pc := CreateConfig(at)));
        rec := if stored then Some(PutItem(DefaultConfig(cluster))) else None;
        c' := World().clients[me];
      }
    }

    /** The put of the default record; its version is raised before it is stored. */
    method PutDefault(ghost me: nat, cluster: string, ghost at: Point, ghost c: Client) returns (stored: bool)
      requires Valid() && At(me, c) && c.pc == CreateConfig(at) && c.cluster == cluster
      modifies this
      ensures old(now) <= now && (alone ==> Callers() == old(Callers()))
      ensures Valid()
      ensures At(me, if stored then Use(c, at, PutItem(DefaultConfig(cluster))) else Leave(c))
      ensures stored ==> table == old(table).(config := Some(PutItem(DefaultConfig(cluster))))
      ensures alone && old(table.config).None? ==> stored
    {
      var fate := Answer();
      stored := PutAllowed(table.config, DefaultConfig(cluster)) && fate != Dropped;
      if stored {
        table := table.(config := Some(PutItem(DefaultConfig(cluster))));
      }
      Happened(Act(me, fate, 0));
      stored := stored && fate == Ack;
    }

    /** GetClusterStatus of the target, and the verdict on its health. */
    method TargetIsHealthy(ghost me: nat, target: string, ghost c: Client) returns (ok: bool)
      requires Valid() && At(me, c) && c.pc.CheckHealth? && target == Target(c)
      modifies this
      ensures old(now) <= now && (alone ==> Callers() == old(Callers()))
      ensures Valid() && At(me, if ok then Validated(c) else Leave(c)) && table == old(table)
      ensures alone ==> (ok <==> target in table.status && table.status[target].health == OK)
    {
      var fate := Answer();
      ok := fate == Ack && target in table.status && table.status[target].health == OK;
      Happened(Act(me, fate, 0));
    }

    /** AcquireLock: the uuid drawn for the lease is `token`. */
    method AcquireLock(token: nat, ghost c: Client) returns (ok: bool, ghost c': Client)
      requires Valid() && At(token, c) && c.pc == CheckLease && !c.lease.Held?
      modifies this
      ensures old(now) <= now && (alone ==> Callers() == old(Callers()))
      ensures Valid() && At(token, c')
      ensures if ok then c'.lease.Held? && c' == Granted(c, c'.lease.expiresAt) else c' == Leave(c)
      ensures alone && old(table.lock).None? ==>
                ok && c'.lease.Held? && table == old(table).(lock := Some(LockRow(token, c'.lease.expiresAt)))
    {
      var locked;
      ghost var shown;
      locked, shown, c' := IsLocked(token, c);
      if locked != Some(false) {
        return false, c';
      }
      Others(token, c');
      var clock := now;
      Happened(Act(token, Ack, 0));
      c' := c.(pc := LeasePut(clock));
      Others(token, c');
      ok, c' := PutLease(token, clock, c');
      assert !ok ==> c' == Leave(c);
    }

    /** The conditional put of the LOCK row. */
    method PutLease(token: nat, clock: nat, ghost c: Client) returns (ok: bool, ghost c': Client)
      requires Valid() && At(token, c) && c.pc == LeasePut(clock)
      modifies this
      ensures old(now) <= now && (alone ==> Callers() == old(Callers()))
      ensures Valid() && At(token, c')
      ensures c' == if ok then Granted(c, Expiry(clock)) else Leave(c)
      ensures ok ==> LockAllowed(old(table.lock), clock)
      ensures table == old(table)
              || (LockAllowed(old(table.lock), clock)
                  && table == old(table).(lock := Some(LockRow(token, Expiry(clock)))))
      ensures alone && LockAllowed(old(table.lock), clock) ==>
                ok && table == old(table).(lock := Some(LockRow(token, Expiry(clock))))
    {
      var fate := Answer();
      var put := LockAllowed(table.lock, clock) && fate != Dropped;
      if put {
        table := table.(lock := Some(LockRow(token, Expiry(clock))));
        locks := locks + [table.lock];
      }
      Happened(Act(token, fate, 0));
      ok := put && fate == Ack;
      c' := if ok then Granted(c, Expiry(clock)) else Leave(c);
    }

    /** ReleaseLock: deletes the LOCK row if it carries the token. */
    method ReleaseLock(token: nat, ghost c: Client) returns (ok: bool)
      requires Valid() && At(token, c) && (c.pc.Release? || c.pc.Holding?)
      modifies this
      ensures old(now) <= now && (alone ==> Callers() == old(Callers()))
      ensures Valid() && token in World().clients
              && World().clients[token] == Released(c).(lease := World().clients[token].lease)
      ensures table == old(table) || (old(table.lock).Some? && old(table.lock).value.token == token
                                      && table == old(table).(lock := None))
      ensures alone && old(table.lock).Some? && old(table.lock).value.token == token ==> ok && table.lock.None?
    {
      var fate := Answer();
      var mine := table.lock.Some? && table.lock.value.token == token && fate != Dropped;
      if mine {
        table := table.(lock := None);
        locks := locks + [None];
      }
      ok := mine && fate == Ack;
      Happened(Act(token, fate, 0));
    }

    /** ValidateFailoverPreconditions: the lock, the suspension and, unless it is
        skipped, the target's health. */
    method ValidatePreconditions(ghost me: nat, cluster: string, target: string, skipHealthCheck: bool, ghost c: Client)
      returns (ok: bool, ghost c': Client)
      requires Valid() && At(me, c) && c.pc == CheckLock && c.cluster == cluster && c.lease.NoLease? && IsMove(c.op)
      requires target == Target(c) && (skipHealthCheck <==> c.op.Failover? && c.op.force)
      modifies this
      ensures old(now) <= now && (alone ==> Callers() == old(Callers()))
      ensures Valid() && At(me, c') && c' == if ok then Validated(c) else Leave(c)
      ensures alone && old(table.lock).None? && old(table.config).Some? ==>
                table == old(table) && (ok <==> Admits(table, target, skipHealthCheck))
    {
      var locked;
      ghost var shown;
      locked, shown, c' := IsLocked(me, c);
      if locked != Some(false) {
        return false, c';
      }
      Others(me, c');
      ok, c' := ValidateGroup(me, cluster, target, skipHealthCheck, c');
    }

    /** The rest of it: the suspension and the target's health. */
    method ValidateGroup(ghost me: nat, cluster: string, target: string, skipHealthCheck: bool, ghost c: Client)
      returns (ok: bool, ghost c': Client)
      requires Valid() && At(me, c) && c.pc == ReadConfig(Validate) && c.cluster == cluster && c.lease.NoLease?
      requires target == Target(c) && (skipHealthCheck <==> c.op.Failover? && c.op.force)
      modifies this
      ensures old(now) <= now && (alone ==> Callers() == old(Callers()))
      ensures Valid() && At(me, c') && c' == if ok then Validated(c) else Leave(c)
      ensures alone && old(table.config).Some? ==>
                table == old(table) && (ok <==> Admits(table, target, skipHealthCheck))
    {
      var config;
      config, c' := GetGroupConfig(me, cluster, Validate, c);
      if config.None? || config.value.suspended {
        return false, c';
      }
      if skipHealthCheck {
        return true, c';
      }
      Others(me, c');
      ok := TargetIsHealthy(me, target, c');
      c' := World().clients[me];
    }

    /** The ownership transaction: the CONFIG row and both status rows, or nothing. */
    method TransactOwnership(me: nat, ghost c: Client, op: Op, route: Route, version: int, start: nat)
      returns (ok: bool)
      requires Valid() && At(me, c) && c.pc == Transact && c.op == op && c.start == start
      requires c.route == Some(route) && c.rec.Some? && c.rec.value.version == version
      modifies this
      ensures old(now) <= now && (alone ==> Callers() == old(Callers()))
      ensures Valid() && At(me, if ok then c.(ok := true, pc := WriteHistory) else c.(pc := Release))
      ensures !TransactAllowed(old(table.config), route.source, version) ==> !ok && table == old(table)
      ensures ok || (alone && TransactAllowed(old(table.config), route.source, version)) ==>
                ok && table == old(table).(
                                 config := Some(MovedRow(old(table.config).value, op, route, version,
                                                         FailoverRef(me, start))),
                                 status := MovedStatus(old(table.status), op, route))
    {
      var fate := Answer();
      var commit := TransactAllowed(table.config, route.source, version) && fate != Dropped;
      if commit {
        table := table.(config := Some(MovedRow(table.config.value, op, route, version, FailoverRef(me, start))),
                        status := MovedStatus(table.status, op, route));
      }
      Happened(Act(me, fate, 0));
      ok := commit && fate == Ack;
    }

    /** UpdateGroupConfig: puts the record with its version raised, if the row still
        has the version it was read at. */
    method UpdateGroupConfig(ghost me: nat, rec: GroupConfig, ghost c: Client) returns (ok: bool)
      requires Valid() && At(me, c) && c.pc == PutConfig && c.rec.Some? && rec == Edited(c, me, c.rec.value)
      modifies this
      ensures old(now) <= now && (alone ==> Callers() == old(Callers()))
      ensures Valid() && At(me, Leave(c.(ok := c.ok || ok)))
      ensures !PutAllowed(old(table.config), rec) ==> !ok && table == old(table)
      ensures table == old(table) || table == old(table).(config := Some(PutItem(rec)))
      ensures ok || (alone && PutAllowed(old(table.config), rec)) ==>
                ok && table == old(table).(config := Some(PutItem(rec)))
    {
      var fate := Answer();
      var commit := PutAllowed(table.config, rec) && fate != Dropped;
      if commit {
        table := table.(config := Some(PutItem(rec)));
      }
      Happened(Act(me, fate, 0));
      ok := commit && fate == Ack;
    }

    /** recordFailoverEvent: the history row, then the last failover of the CONFIG row.
        None of its errors fails the operation. */
    method RecordFailoverEvent(me: nat, cluster: string, start: nat, route: Route, ghost c: Client)
      returns (ghost c': Client)
      requires Valid() && At(me, c) && c.pc == WriteHistory && c.cluster == cluster && IsMove(c.op)
      requires c.start == start && c.route == Some(route) && c.lease.Held? && c.ok
      modifies this
      ensures old(now) <= now && (alone ==> Callers() == old(Callers()))
      ensures Valid() && At(me, c') && c'.pc == Release && c'.ok && c'.lease == c.lease && c'.op == c.op
      ensures alone && old(table.config).Some? ==> table == WithEvent(old(table), me, route, start)
    {
      var fate := Answer();
      if fate != Dropped {
        table := table.(history := table.history[Seconds(start) := HistoryRow(me, route.source, route.target)]);
      }
      Happened(Act(me, fate, 0));
      c' := World().clients[me];
      if fate != Ack {
        return;
      }
      Others(me, c');
      var config;
      config, c' := GetGroupConfig(me, cluster, History, c');
      if config.None? {
        return;
      }
      Others(me, c');
      var ok := UpdateGroupConfig(me, config.value.(lastFailover := Some(FailoverRef(me, start))), c');
      c' := World().clients[me];
    }

    /** executeFailoverTransaction and executeFailbackTransaction: read the version to
        guard on, then move. */
    method ExecuteTransaction(me: nat, cluster: string, start: nat, op: Op, route: Route, ghost c: Client)
      returns (ok: bool, ghost c': Client)
      requires Valid() && At(me, c) && c.pc == ReadConfig(Transaction) && c.cluster == cluster && c.op == op
      requires c.start == start && c.route == Some(route) && c.lease.Held?
      modifies this
      ensures old(now) <= now && (alone ==> Callers() == old(Callers()))
      ensures Valid() && At(me, c')
      ensures c' == if ok then c.(rec := c'.rec, ok := true, pc := WriteHistory) else c.(rec := c'.rec, pc := Release)
      ensures alone && old(table.config).Some? && old(table.config).value.owner == route.source ==>
                ok && table == Transacted(old(table), me, op, route, start)
    {
      var config;
      config, c' := GetGroupConfig(me, cluster, Transaction, c);
      if config.None? {
        return false, c';
      }
      Others(me, c');
      ok := TransactOwnership(me, c', op, route, config.value.version, start);
      c' := World().clients[me];
    }

    /** From AcquireLock to the deferred ReleaseLock: the common part of both operations. */
    method MoveUnderLock(me: nat, cluster: string, start: nat, op: Op, route: Route, ghost c: Client) returns (ok: bool)
      requires Valid() && At(me, c) && c.pc == CheckLease && c.cluster == cluster && c.op == op && IsMove(op)
      requires c.start == start && c.route == Some(route) && c.lease.NoLease? && !c.ok
      modifies this
      ensures old(now) <= now && (alone ==> Callers() == old(Callers()))
      ensures Valid() && Ended(me, op, ok)
      ensures alone && old(table.lock).None? && old(table.config).Some?
              && old(table.config).value.owner == route.source ==>
                ok && table == MovedTable(old(table), me, op, route, start)
    {
      var leased;
      ghost var c';
      leased, c' := AcquireLock(me, c);
      if !leased {
        return false;
      }
      ghost var taken := table;
      Others(me, c');
      ok, c' := ExecuteTransaction(me, cluster, start, op, route, c');
      if ok {
        Others(me, c');
        c' := RecordFailoverEvent(me, cluster, start, route, c');
      }
      Others(me, c');
      assert c'.pc == Release && c'.ok == ok && c'.op == op;
      ghost var before := table;
      var released := ReleaseLock(me, c');
      assert alone && taken.config.Some? && taken.config.value.owner == route.source ==>
          before == WithEvent(Transacted(taken, me, op, route, start), me, route, start);
      if taken.config.Some? { LockAside(taken, me, op, route, start); }
    }

    /** ExecuteFailover up to AcquireLock: where ownership is to move, if anywhere. */
    method DecideFailover(ghost me: nat, cluster: string, target: string, force: bool, ghost c: Client)
      returns (route: Option<Route>, ghost c': Client)
      requires Valid() && At(me, c) && c.op == Failover(target, force) && c.pc == CheckLock && c.cluster == cluster
      requires c.lease.NoLease?
      modifies this
      ensures old(now) <= now && (alone ==> Callers() == old(Callers()))
      ensures Valid() && At(me, c') && c' == if route.Some? then c.(route := route, pc := CheckLease)
              else c.(pc := Done)
      ensures alone && old(table.lock).None? && old(table.config).Some? ==>
                && table == old(table)
                && route == if MayFailover(table, target, force)
                            then Some(FailoverRoute(table, target)) else None
    {
      route := None;
      var ok;
      ok, c' := ValidatePreconditions(me, cluster, target, force, c);
      if !ok {
        return;
      }
      Others(me, c');
      var config;
      config, c' := GetGroupConfig(me, cluster, Source, c');
      if config.Some? && config.value.owner != target {
        route := Some(Route(config.value.owner, target, config.value.version));
      }
    }

    /** ExecuteFailover by a new caller. */
    method ExecuteFailover(me: nat, cluster: string, target: string, force: bool) returns (ok: bool)
      requires Valid() && me !in World().clients && cluster != ""
      modifies this
      ensures old(now) <= now && (alone ==> Callers() <= old(Callers()) + {me})
      ensures Valid() && Ended(me, Failover(target, force), ok)
      ensures ok ==> MovedOnce(World(), me)
      ensures alone && old(table.lock).None? && old(table.config).Some? ==>
                && (ok <==> MayFailover(old(table), target, force))
                && table == if ok
                            then MovedTable(old(table), me, Failover(target, force), FailoverRoute(old(table), target),
                                            old(now))
                            else old(table)
    {
      var start := now;
      var op := Failover(target, force);
      Happened(Begin(me, op, cluster));
      ghost var c := World().clients[me];
      Others(me, c);
      var route;
      route, c := DecideFailover(me, cluster, target, force, c);
      if route.None? {
        return false;
      }
      Others(me, c);
      ok := MoveUnderLock(me, cluster, start, op, route.value, c);
      if ok { SuccessMovedOnce(events, me); }
    }

    /** ExecuteFailback up to AcquireLock: the record names the target, which is then validated. */
    method DecideFailback(ghost me: nat, cluster: string, ghost c: Client)
      returns (route: Option<Route>, ghost c': Client)
      requires Valid() && At(me, c) && c.op == Failback && c.pc == ReadConfig(Source) && c.cluster == cluster
      requires c.lease.NoLease?
      modifies this
      ensures old(now) <= now && (alone ==> Callers() == old(Callers()))
      ensures Valid() && At(me, c')
      ensures if route.Some? then c' == c.(route := route, pc := CheckLease)
              else c' == c.(route := c'.route, pc := Done)
      ensures alone && old(table.lock).None? && old(table.config).Some? ==>
                && table == old(table)
                && route == if MayFailback(table)
                            then Some(FailbackRoute(table)) else None
    {
      route := None;
      var config;
      config, c' := GetGroupConfig(me, cluster, Source, c);
      if config.None? || config.value.previousOwner == "" {
        return;
      }
      var r := Route(config.value.owner, config.value.previousOwner, config.value.version);
      Others(me, c');
      var ok;
      ok, c' := ValidatePreconditions(me, cluster, r.target, false, c');
      if ok {
        route := Some(r);
      }
    }

    /** ExecuteFailback by a new caller. */
    method ExecuteFailback(me: nat, cluster: string) returns (ok: bool)
      requires Valid() && me !in World().clients && cluster != ""
      modifies this
      ensures old(now) <= now && (alone ==> Callers() <= old(Callers()) + {me})
      ensures Valid() && Ended(me, Failback, ok)
      ensures ok ==> MovedOnce(World(), me)
      ensures alone && old(table.lock).None? && old(table.config).Some? ==>
                && (ok <==> MayFailback(old(table)))
                && table == if ok then MovedTable(old(table), me, Failback, FailbackRoute(old(table)), old(now))
                            else old(table)
    {
      var start := now;
      Happened(Begin(me, Failback, cluster));
      ghost var c := World().clients[me];
      Others(me, c);
      var route;
      route, c := DecideFailback(me, cluster, c);
      if route.None? {
        return false;
      }
      Others(me, c);
      ok := MoveUnderLock(me, cluster, start, Failback, route.value, c);
      if ok { SuccessMovedOnce(events, me); }
    }

    /** A failover, a failback and another failback on a store that nobody else uses, any
        time apart: the first two succeed and give the group back, the third is refused. */
    method FailoverAndBack(a: nat, b: nat, c: nat, cluster: string, target: string, force: bool)
      returns (there: bool, back: bool, again: bool, ghost start': nat)
      requires Valid() && alone && a !in Callers() && b !in Callers() + {a} && c !in Callers() + {a, b} && cluster != ""
      requires table.lock.None? && MayFailover(table, target, force)
      requires table.config.value.owner != "" && table.config.value.owner in table.status
      requires table.status[table.config.value.owner].health == OK
      modifies this
      ensures Valid() && there && back && !again
      ensures Restored(old(table), table, target)
      ensures old(now) <= start' <= now && table.history == BothRecorded(old(table), target, a, b, old(now), start')
    {
      ghost var before, start := table, now;
      there := ExecuteFailover(a, cluster, target, force);
      Others(a, World().clients[a]);
      start' := now;
      FailoverFailbackRoundTrip(before, target, force, a, b, start, start');
      back := ExecuteFailback(b, cluster);
      Others(b, World().clients[b]);
      again := ExecuteFailback(c, cluster);
    }

    /** The operation of caller `me` is over, with this result. */
    ghost predicate Ended(me: nat, op: Op, ok: bool)
      reads this
    {
      && me in World().clients && World().clients[me].op == op
      && World().clients[me].pc == Done && World().clients[me].ok == ok
    }
  }

  /** What ValidateFailoverPreconditions checks of the CONFIG row and the target. */
  predicate Admits(t: Table, target: string, skipHealthCheck: bool) {
    && t.config.Some? && !t.config.value.suspended
    && (skipHealthCheck || (target in t.status && t.status[target].health == OK))
  }

  /** When an undisturbed ExecuteFailover on a free lock goes through. */
  predicate MayFailover(t: Table, target: string, force: bool) {
    Admits(t, target, force) && t.config.value.owner != target
  }

  /** When an undisturbed ExecuteFailback on a free lock goes through. */
  predicate MayFailback(t: Table) {
    t.config.Some? && t.config.value.previousOwner != "" && Admits(t, t.config.value.previousOwner, false)
  }

  /** The table after recordFailoverEvent: the record is put back as it was read, so
      everything a read drops is gone from the row. */
  function WithEvent(t: Table, me: nat, route: Route, start: nat): Table
    requires t.config.Some?
  {
    var rec := Unmarshal(t.config.value).(lastFailover := Some(FailoverRef(me, start)));
    t.(history := t.history[Seconds(start) := HistoryRow(me, route.source, route.target)], config := Some(PutItem(rec)))
  }

  function Transacted(t: Table, me: nat, op: Op, route: Route, start: nat): Table
    requires t.config.Some?
  {
    var row := MovedRow(t.config.value, op, route, t.config.value.version, FailoverRef(me, start));
    t.(config := Some(row), status := MovedStatus(t.status, op, route))
  }

  /** The table after an ownership operation that nobody disturbs. */
  function MovedTable(t: Table, me: nat, op: Op, route: Route, start: nat): Table
    requires t.config.Some?
  {
    WithEvent(Transacted(t, me, op, route, start), me, route, start)
  }

  /** The LOCK row plays no part in what an operation does to the others. */
  lemma LockAside(t: Table, me: nat, op: Op, route: Route, start: nat)
    requires t.config.Some?
    ensures WithEvent(Transacted(t, me, op, route, start), me, route, start).lock == t.lock
    ensures WithEvent(Transacted(t, me, op, route, start), me, route, start).(lock := None)
            == MovedTable(t.(lock := None), me, op, route, start)
  {
  }

  function FailoverRoute(t: Table, target: string): Route
    requires t.config.Some?
  {
    Route(t.config.value.owner, target, t.config.value.version)
  }

  function FailbackRoute(t: Table): Route
    requires t.config.Some?
  {
    Route(t.config.value.owner, t.config.value.previousOwner, t.config.value.version)
  }

  /** Exactly one commit of the chain is caller `me`'s move, and it follows its route. */
  ghost predicate MovedOnce(w: World, me: nat) {
    && me in w.clients && w.clients[me].route.Some?
    && exists i :: 0 <= i < |w.commits|
         && w.commits[i].origin == Moved(me, w.clients[me].route.value.source, w.clients[me].route.value.target)
         && forall j :: 0 <= j < |w.commits| && IsMoveBy(w.commits[j], me) ==> j == i
  }

  lemma SuccessMovedOnce(es: seq<Event>, me: nat)
    requires var w := Run(Init(), es); me in w.clients && IsMove(w.clients[me].op) && w.clients[me].ok
    ensures MovedOnce(Run(Init(), es), me)
  {
    OneOperationMovesOnce(es, me);
    var w := Run(Init(), es);
    var i :| 0 <= i < |w.commits| && IsMoveBy(w.commits[i], me);
  }

  /** The owner is back and PRIMARY, no previous owner is recorded, the version has grown
      by four, no LOCK row is left, and the other rows are as they were. */
  predicate Restored(t: Table, t': Table, target: string) {
    && t.config.Some? && t'.config.Some?
    && var source := t.config.value.owner;
       && t'.config.value.owner == source && t'.config.value.previousOwner == ""
       && t'.config.value.version == t.config.value.version + 4
       && t'.config.value.suspended == t.config.value.suspended
       && t'.lock.None?
       && source in t'.status && t'.status[source] == StatusRow(OK, PRIMARY)
       && target in t'.status && t'.status[target].state == FAILBACK
       && (forall k :: k in t.status && k != source && k != target ==> k in t'.status && t'.status[k] == t.status[k])
  }

  /** The history after the pair: one row under the second in which each of them started,
      so that of two that started within the same second only the later is left. */
  function BothRecorded(t: Table, target: string, a: nat, b: nat, start: nat, start': nat): map<nat, HistoryRow>
    requires t.config.Some?
  {
    var source := t.config.value.owner;
    t.history[Seconds(start) := HistoryRow(a, source, target)][Seconds(start') := HistoryRow(b, target, source)]
  }

  /** The tables of the pair: a failback is admitted after the failover, and none after it. */
  lemma FailoverFailbackRoundTrip(t: Table, target: string, force: bool, a: nat, b: nat, start: nat, start': nat)
    requires t.lock.None? && MayFailover(t, target, force)
    requires t.config.value.owner != "" && t.config.value.owner in t.status
    requires t.status[t.config.value.owner].health == OK
    ensures var there := MovedTable(t, a, Failover(target, force), FailoverRoute(t, target), start);
            && there.config.Some? && there.lock.None? && MayFailback(there)
            && var back := MovedTable(there, b, Failback, FailbackRoute(there), start');
               Restored(t, back, target) && !MayFailback(back)
               && back.history == BothRecorded(t, target, a, b, start, start')
  {
    var there := MovedTable(t, a, Failover(target, force), FailoverRoute(t, target), start);
    assert FailbackRoute(there).target == t.config.value.owner;
  }

  /** What the pair does not restore: the rewrites that record the event lose the
      metadata and the timeouts of the row. */
  lemma RoundTripForgets(t: Table, route: Route, op: Op, me: nat, start: nat)
    requires t.config.Some?
    ensures var row := MovedTable(t, me, op, route, start).config;
            && row.Some? && row.value.metadata == map[] && row.value.timeouts == DEFAULT_TIMEOUTS
            && (row.value.(owner := "", previousOwner := "", version := 0, lastFailover := None)
                == t.config.value.(owner := "", previousOwner := "", version := 0, lastFailover := None)
                <==> t.config.value.metadata == map[] && t.config.value.timeouts == DEFAULT_TIMEOUTS)
  {
    var row := MovedTable(t, me, op, route, start).config;
    assert row.value.metadata == map[];
  }
}
