/** Runs of the coordination protocol in which something goes wrong, or just does not. */
module ProtocolRuns {
  import opened Records
  import opened Protocol
  import opened ProtocolInvariants
  import opened ProtocolTheorems
  import opened StatusRows

  lemma OneMore(es: seq<Event>, w: World, e: Event) returns (es': seq<Event>)
    requires Run(Init(), es) == w
    ensures es' == es + [e] && Run(Init(), es') == Next(w, e)
  {
    es' := es + [e];
    RunSnoc(Init(), es, e);
  }

  lemma SetTwice(w: World, id: nat, c: Client, c': Client)
    ensures SetClient(SetClient(w, id, c), id, c') == SetClient(w, id, c')
  {
    assert w.clients[id := c][id := c'] == w.clients[id := c'];
  }

  /** A caller's step that changes nothing but the caller. */
  lemma OneStep(es: seq<Event>, w: World, id: nat, c: Client, c': Client, fate: Fate, stale: nat)
    returns (es': seq<Event>)
    requires Run(Init(), es) == SetClient(w, id, c)
    requires Step(SetClient(w, id, c), id, fate, stale) == SetClient(SetClient(w, id, c), id, c')
    ensures es' == es + [Act(id, fate, stale)] && Run(Init(), es') == SetClient(w, id, c')
  {
    es' := OneMore(es, SetClient(w, id, c), Act(id, fate, stale));
    SetTwice(w, id, c, c');
  }

  predicate Free(w: World) {
    w.table.config.Some? && !w.table.config.value.suspended && w.table.lock.None?
  }

  function Starting(w: World, op: Op, cluster: string): Client {
    Client(op, cluster, w.now, FirstStep(op), None, None, NoLease, false)
  }

  function Routed(w: World, c: Client, target: string): Client
    requires w.table.config.Some?
  {
    c.(route := Some(Route(w.table.config.value.owner, target, w.table.config.value.version)))
  }

  lemma Begun(es: seq<Event>, w: World, id: nat, op: Op, cluster: string) returns (es': seq<Event>)
    requires Run(Init(), es) == w && id !in w.clients && cluster != ""
    ensures es' == es + [Begin(id, op, cluster)] && Run(Init(), es') == SetClient(w, id, Starting(w, op, cluster))
  {
    es' := OneMore(es, w, Begin(id, op, cluster));
  }

  /** A forced failover up to AcquireLock. */
  lemma ForcedDecision(es: seq<Event>, w: World, id: nat, target: string) returns (es': seq<Event>)
    requires Run(Init(), es) == w && id !in w.clients && Free(w) && w.table.config.value.owner != target
    ensures Run(Init(), es')
            == SetClient(w, id, Routed(w, Starting(w, Failover(target, true), "a"), target).(pc := CheckLease))
  {
    var c := Starting(w, Failover(target, true), "a");
    es' := Begun(es, w, id, Failover(target, true), "a");
    es' := OneStep(es', w, id, c, c.(pc := ReadConfig(Validate)), Ack, |w.locks|);
    es' := OneStep(es', w, id, c.(pc := ReadConfig(Validate)), c.(pc := ReadConfig(Source)), Ack, 0);
    es' := OneStep(es', w, id, c.(pc := ReadConfig(Source)), Routed(w, c, target).(pc := CheckLease), Ack, 0);
  }

  /** AcquireLock on a free lock, and the read that follows it. */
  lemma Leased(es: seq<Event>, w: World, id: nat, c: Client) returns (es': seq<Event>)
    requires Run(Init(), es) == SetClient(w, id, c) && c.pc == CheckLease && IsMove(c.op) && Free(w)
    ensures var w' := SetLock(w, Some(LockRow(id, Expiry(w.now)))).(lastLease := w.now);
            var c' := c.(lease := Held(Expiry(w.now)), pc := Transact, rec := Some(Unmarshal(w.table.config.value)));
            Run(Init(), es') == SetClient(w', id, c')
  {
    es' := OneStep(es, w, id, c, c.(pc := LeaseClock), Ack, |w.locks|);
    es' := OneStep(es', w, id, c.(pc := LeaseClock), c.(pc := LeasePut(w.now)), Ack, 0);
    var held := c.(lease := Held(Expiry(w.now)), pc := ReadConfig(Transaction));
    var locked := SetLock(w, Some(LockRow(id, Expiry(w.now)))).(lastLease := w.now);
    LeaseIsPut(w, id, c);
    es' := OneMore(es', SetClient(w, id, c.(pc := LeasePut(w.now))), Act(id, Ack, 0));
    es' := OneStep(es', locked, id, held, held.(pc := Transact, rec := Some(Unmarshal(w.table.config.value))), Ack, 0);
  }

  lemma LeaseIsPut(w: World, id: nat, c: Client)
    requires w.table.lock.None? && IsMove(c.op)
    ensures var before := SetClient(w, id, c.(pc := LeasePut(w.now)));
            var locked := SetLock(w, Some(LockRow(id, Expiry(w.now)))).(lastLease := w.now);
            Step(before, id, Ack, 0)
                == SetClient(locked, id, c.(lease := Held(Expiry(w.now)), pc := ReadConfig(Transaction)))
  {
    var locked := SetLock(w, Some(LockRow(id, Expiry(w.now)))).(lastLease := w.now);
    SetTwice(locked, id, c.(pc := LeasePut(w.now)), c.(lease := Held(Expiry(w.now)), pc := ReadConfig(Transaction)));
  }
  /** The table after a transaction whose lease has been returned. */
  function After(w: World, id: nat, op: Op, target: string, ref: FailoverRef): World
    requires w.table.config.Some?
  {
    var row := w.table.config.value;
    var route := Route(row.owner, target, row.version);
    var w := CommitRow(w, MovedRow(row, op, route, row.version, ref), Moved(id, route.source, target));
    w.(table := w.table.(status := MovedStatus(w.table.status, op, route)), late := w.late - {route.source, target})
  }

  /** What a world has in common with another but the lock's past and the callers. */
  predicate SameRows(w: World, w': World) {
    && w'.table == w.table && w'.now == w.now && w'.commits == w.commits
    && w'.decided == w.decided && w'.late == w.late
  }

  predicate OnlyCaller(w: World, w': World, id: nat, op: Op) {
    && id in w'.clients && w'.clients[id].op == op
    && w'.clients == w.clients[id := w'.clients[id]]
  }

  /** The transaction of a caller with a lease. */
  lemma Transacted(es: seq<Event>, w: World, id: nat, c: Client, target: string, fate: Fate)
    returns (es': seq<Event>, c': Client)
    requires Run(Init(), es) == SetClient(w, id, c) && c.pc == Transact && fate != Dropped && w.table.config.Some?
    requires c.route.Some? && c.route.value.source == w.table.config.value.owner && c.route.value.target == target
    requires c.rec == Some(Unmarshal(w.table.config.value))
    ensures c' == if fate == Ack then c.(ok := true, pc := WriteHistory) else c.(pc := Release)
    ensures Run(Init(), es') == SetClient(After(w, id, c.op, target, FailoverRef(id, c.start)), id, c')
  {
    c' := if fate == Ack then c.(ok := true, pc := WriteHistory) else c.(pc := Release);
    var w' := After(w, id, c.op, target, FailoverRef(id, c.start));
    es' := OneMore(es, SetClient(w, id, c), Act(id, fate, 0));
    SetTwice(w', id, c, c');
    assert MovedRow(w.table.config.value, c.op, c.route.value, w.table.config.value.version, FailoverRef(id, c.start))
        == MovedRow(w.table.config.value, c.op, Route(w.table.config.value.owner, target, w.table.config.value.version),
                    w.table.config.value.version, FailoverRef(id, c.start));
  }

  /** A forced failover from start to end, the answer to its transaction being lost. */
  lemma ForcedFailover(es: seq<Event>, id: nat, target: string) returns (es': seq<Event>)
    requires var w := Run(Init(), es); id !in w.clients && Free(w) && w.table.config.value.owner != target
    ensures var w, w' := Run(Init(), es), Run(Init(), es');
            && SameRows(After(w, id, Failover(target, true), target, FailoverRef(id, w.now)), w')
            && OnlyCaller(w, w', id, Failover(target, true))
            && Free(w')
  {
    var w := Run(Init(), es);
    es' := ForcedDecision(es, w, id, target);
    var c := Routed(w, Starting(w, Failover(target, true), "a"), target).(pc := CheckLease);
    es' := Leased(es', w, id, c);
    var locked := SetLock(w, Some(LockRow(id, Expiry(w.now)))).(lastLease := w.now);
    var held := c.(lease := Held(Expiry(w.now)), pc := Transact, rec := Some(Unmarshal(w.table.config.value)));
    var c';
    es', c' := Transacted(es', locked, id, held, target, LostAck);
    var moved := After(locked, id, Failover(target, true), target, FailoverRef(id, w.now));
    es' := OneMore(es', SetClient(moved, id, c'), Act(id, Ack, 0));
    ReleasedAlone(moved, id, c');
  }

  lemma ReleasedAlone(w: World, id: nat, c: Client)
    requires c.pc == Release && w.table.lock.Some? && w.table.lock.value.token == id
    ensures Step(SetClient(w, id, c), id, Ack, 0) == SetClient(SetLock(w, None), id, c.(pc := Done, lease := Returned))
  {
    SetTwice(SetLock(w, None), id, c, c.(pc := Done, lease := Returned));
  }
  /** A group that cluster "a" has created, and of which it is the PRIMARY. */
  lemma Created() returns (es: seq<Event>)
    ensures es == [Sync("a")]
    ensures var w := Run(Init(), es);
            && w.table == EMPTY_TABLE.(config := Some(PutItem(DefaultConfig("a"))),
                  status := map["a" := StatusRow(OK, PRIMARY)])
            && w.clients == map[] && w.commits == [Commit(PutItem(DefaultConfig("a")), Creation)]
                && w.decided == map[] && w.late == {}
  {
    es := [Sync("a")];
    assert [] + es == es;
    RunSnoc(Init(), [], Sync("a"));
  }

  /** A failback that has decided its route and now goes on undisturbed. */
  lemma FailbackGoesOn(es: seq<Event>, id: nat, c: Client) returns (es': seq<Event>)
    requires var w := Run(Init(), es); id in w.clients && w.clients[id] == c && Free(w)
    requires c.op == Failback && c.pc == CheckLock && c.lease.NoLease? && c.route.Some?
    requires var w := Run(Init(), es);
             && w.table.config.value.owner == c.route.value.source
             && c.route.value.target in w.table.status && w.table.status[c.route.value.target].health == OK
    ensures var w, w' := Run(Init(), es), Run(Init(), es');
            && w'.commits == After(w, id, Failback, c.route.value.target, FailoverRef(id, c.start)).commits
            && id in w'.clients && w'.clients[id].op == Failback && w'.clients[id].route == c.route
  {
    var w := Run(Init(), es);
    assert SetClient(w, id, c) == w by { assert w.clients[id := c] == w.clients; }
    es' := OneStep(es, w, id, c, c.(pc := ReadConfig(Validate)), Ack, |w.locks|);
    es' := OneStep(es', w, id, c.(pc := ReadConfig(Validate)), c.(pc := CheckHealth), Ack, 0);
    es' := OneStep(es', w, id, c.(pc := CheckHealth), c.(pc := CheckLease), Ack, 0);
    es' := Leased(es', w, id, c.(pc := CheckLease));
    var locked := SetLock(w, Some(LockRow(id, Expiry(w.now)))).(lastLease := w.now);
    var held := c.(lease := Held(Expiry(w.now)), pc := Transact, rec := Some(Unmarshal(w.table.config.value)));
    var c';
    es', c' := Transacted(es', locked, id, held, c.route.value.target, Ack);
  }

  function Decided9(): Client {
    Client(Failback, "a", 0, CheckLock, Some(Route("b", "a", 3)), None, NoLease, false)
  }

  /** Ownership goes from "a" to "b", a failback decides to return it, and before it goes on
      ownership goes to "c" and back to "b". */
  lemma OvertakenDecision() returns (es: seq<Event>)
    ensures var w := Run(Init(), es);
            && 9 in w.clients && w.clients[9] == Decided9() && Free(w)
            && |w.commits| == 4 && w.commits[3].row == w.table.config.value
            && w.table.config.value.owner == "b" && w.table.config.value.previousOwner == "c"
            && "a" in w.table.status && w.table.status["a"].health == OK
  {
    es := Created();
    es := ForcedFailover(es, 0, "b");
    var w := Run(Init(), es);
    es := Begun(es, w, 9, Failback, "a");
    es := OneStep(es, w, 9, Starting(w, Failback, "a"), Decided9(), Ack, 0);
    es := ForcedFailover(es, 1, "c");
    es := ForcedFailover(es, 2, "b");
  }

  /** A failback need not follow the row it replaces: here the row names "c", and the
      failback goes to "a". */
  lemma FailbackPassesTheRowBy() returns (es: seq<Event>)
    ensures var w := Run(Init(), es);
            && |w.commits| == 5 && IsFailback(w, 4)
            && w.commits[3].row.previousOwner == "c" && w.commits[4].row.owner == "a"
  {
    es := OvertakenDecision();
    es := FailbackGoesOn(es, 9, Decided9());
  }

  /** A synchronisation that reads before a failover and writes after it leaves two PRIMARY rows. */
  lemma LateSyncMislabels() returns (es: seq<Event>)
    ensures var w := Run(Init(), es);
            && w.table.config.Some? && w.table.config.value.owner == "b" && Mislabelled(w, "a")
            && "b" in w.table.status && w.table.status["b"].state == PRIMARY
  {
    es := Created();
    es := OneMore(es, Run(Init(), es), ReadSync(7, "a"));
    es := ForcedFailover(es, 0, "b");
    es := OneMore(es, Run(Init(), es), WriteStatus(7));
  }

  // ---- the lease ----

  /** The bound of LeaseRecovers is sharp: an AcquireLock that starts one nanosecond
      earlier, with nobody else about, can still be refused. */
  lemma LeaseRecoveryIsSharp() returns (es: seq<Event>)
    ensures var w := Run(Init(), es);
            && 1 in w.clients && w.clients[1].pc == CheckLease && w.now == w.lastLease + 601 * NANOS - 1
            && !Acquires(w, 1, |w.locks|, 0, 0)
  {
    es := LockTaken();
    var w := Run(Init(), es);
    es := OneMore(es, w, Tick(601 * NANOS - 1));
    var late := Run(Init(), es);
    es := Begun(es, late, 1, Op.Lock, "b");
    RefusedLate(SetClient(late, 1, Starting(late, Op.Lock, "b")));
  }

  /** The caller has a lease that it has not returned, and may release at any moment. */
  predicate Holds(w: World, id: nat) {
    id in w.clients && w.clients[id].pc == Holding && w.clients[id].lease.Held?
  }

  lemma LockTaken() returns (es: seq<Event>)
    ensures var w := Run(Init(), es);
            && w.now == 0 && w.lastLease == 0 && 1 !in w.clients && w.table.lock == Some(LockRow(0, 600))
            && Holds(w, 0)
  {
    var w := Init();
    es := Begun([], w, 0, Op.Lock, "a");
    var c := Starting(w, Op.Lock, "a");
    es := OneStep(es, w, 0, c, c.(pc := LeaseClock), Ack, 1);
    es := OneStep(es, w, 0, c.(pc := LeaseClock), c.(pc := LeasePut(0)), Ack, 0);
    es := OneMore(es, SetClient(w, 0, c.(pc := LeasePut(0))), Act(0, Ack, 0));
  }

  lemma RefusedLate(w: World)
    requires w.now == 601 * NANOS - 1 && w.table.lock == Some(LockRow(0, 600))
    requires 1 in w.clients && w.clients[1] == Client(Op.Lock, "b", w.now, CheckLease, None, None, NoLease, false)
    ensures !Acquires(w, 1, |w.locks|, 0, 0)
  {
    var c := w.clients[1];
    var w1 := SetClient(w, 1, c.(pc := LeaseClock));
    assert Next(w, Act(1, Ack, |w.locks|)) == w1;
    assert w1.(now := w1.now + 0) == w1;
    var w3 := SetClient(w1, 1, c.(pc := LeasePut(w.now)));
    assert Next(w1, Act(1, Ack, 0)) == w3;
    assert !LockAllowed(w.table.lock, w.now);
    assert Next(w3, Act(1, Ack, 0)) == SetClient(w3, 1, c.(pc := Done));
  }

  /** A lease that expires is replaced by another caller's, and its holder is still to
      release it: LateReleaseIsHarmless says what that does. */
  lemma ExpiredLeaseIsReplaced() returns (es: seq<Event>)
    ensures var w := Run(Init(), es);
            Holds(w, 0) && Lost(w, 0) && Names(w.table.lock, 1) && Live(w, 1)
  {
    es := LockTaken();
    es := OneMore(es, Run(Init(), es), Tick(601 * NANOS));
    var w := Run(Init(), es);
    es := Begun(es, w, 1, Op.Lock, "b");
    w := Run(Init(), es);
    LeaseRecovers(es, 1, 0, 0, 0);
    AcquireLeaves(w, 1, 0);
    es := OneMore(es, w, Act(1, Ack, 0));
    es := OneMore(es, Run(Init(), es), Tick(0));
    es := OneMore(es, Run(Init(), es), Act(1, Ack, 0));
    es := OneMore(es, Run(Init(), es), Tick(0));
    es := OneMore(es, Run(Init(), es), Act(1, Ack, 0));
  }

  /** An AcquireLock takes no time here, and leaves every other caller as it is. */
  lemma AcquireLeaves(w: World, id: nat, other: nat)
    requires id in w.clients && other in w.clients && other != id
    ensures var w' := UncontendedAcquire(w, id, 0, 0, 0);
            w'.now == w.now && other in w'.clients && w'.clients[other] == w.clients[other]
  {
    var w1 := Next(w, Act(id, Ack, 0));
    ActLeaves(w, id, other);
    var w2 := Next(w1, Tick(0));
    ActLeaves(w2, id, other);
    ActLeaves(Next(Next(w2, Act(id, Ack, 0)), Tick(0)), id, other);
  }

  lemma ActLeaves(w: World, id: nat, other: nat)
    requires id in w.clients && other in w.clients && other != id
    ensures var w' := Next(w, Act(id, Ack, 0));
            && w'.now == w.now && id in w'.clients
            && other in w'.clients && w'.clients[other] == w.clients[other]
  {
    StepIsLocal(w, id, Ack, 0);
    StepAddsNobody(w, id, Ack, 0);
    StepTakesNoTime(w, id);
  }

  lemma StepTakesNoTime(w: World, id: nat)
    requires id in w.clients
    ensures Step(w, id, Ack, 0).now == w.now
  {
  }
}
