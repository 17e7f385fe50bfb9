/** What holds in every run of the coordination protocol. */
module ProtocolTheorems {
  import opened Records
  import opened Protocol
  import opened ProtocolInvariants

  lemma Reachable(es: seq<Event>)
    ensures Inv(Run(Init(), es))
  {
    InitInv();
    RunKeepsInv(Init(), es);
  }

  lemma RunSnoc(w: World, es: seq<Event>, e: Event)
    ensures Run(w, es + [e]) == Next(Run(w, es), e)
  {
    assert (es + [e])[..|es|] == es;
  }

  /** How commit `i` continues the chain: a move starts at the owner it finds, and changes
      nothing but the owners, the version and the last failover; a rewrite keeps the owners
      and loses the timeouts and the metadata. */
  predicate Continues(commits: seq<Commit>, i: nat)
    requires 0 < i < |commits|
  {
    var before, after := commits[i - 1].row, commits[i];
    && after.row.version == before.version + 1
    && !after.origin.Creation?
    && (after.origin.Moved? ==>
          && after.origin.source == before.owner && after.origin.target == after.row.owner != before.owner
          && after.row == before.(owner := after.row.owner, previousOwner := after.row.previousOwner,
                                  version := after.row.version, lastFailover := after.row.lastFailover))
    && (after.origin.Rewritten? ==>
          after.row == before.(version := after.row.version, lastFailover := after.row.lastFailover,
                               timeouts := DEFAULT_TIMEOUTS, metadata := map[]))
  }

  /** Ownership is a linear chain: it starts with the first row at version 2, every
      commit adds 1, every move starts where the commit before it left ownership, and
      the row is the last commit. */
  lemma OwnershipIsALinearChain(es: seq<Event>)
    ensures var w := Run(Init(), es);
            && w.table.config == (if w.commits == [] then None else Some(w.commits[|w.commits| - 1].row))
            && (w.commits != [] ==> w.commits[0].origin == Creation && w.commits[0].row.version == 2)
            && forall i {:trigger Continues(w.commits, i)} :: 0 < i < |w.commits| ==> Continues(w.commits, i)
  {
    Reachable(es);
    var w := Run(Init(), es);
    forall i | 0 < i < |w.commits| ensures Continues(w.commits, i) {
      assert LinkAt(w.commits, i);
      LinkContinues(w.commits, i);
    }
  }

  lemma LinkContinues(commits: seq<Commit>, i: nat)
    requires 0 < i < |commits| && LinkAt(commits, i)
    ensures Continues(commits, i)
  {
  }

  /** Each version is committed at most once: a commit's version is its place in the chain. */
  lemma VersionsCountCommits(es: seq<Event>, i: nat)
    requires i < |Run(Init(), es).commits|
    ensures Run(Init(), es).commits[i].row.version == i + 2
  {
    Reachable(es);
  }

  /** A record a caller read, and whose version a put or a transaction still finds in
      the row, is the row: nothing was committed since the read. */
  lemma NothingIsOverwrittenUnseen(es: seq<Event>, id: nat)
    requires var w := Run(Init(), es); id in w.clients && w.clients[id].rec.Some?
    ensures var w := Run(Init(), es);
            var rec := w.clients[id].rec.value;
            && w.table.config.Some?
            && (w.table.config.value.version == rec.version <==> rec.version == |w.commits| + 1)
            && (w.table.config.value.version == rec.version ==> rec == Unmarshal(w.table.config.value))
  {
    Reachable(es);
    var w := Run(Init(), es);
    ClientInOrder(w, id);
    RecordedIsCurrent(w, w.clients[id].rec.value);
  }

  /** One operation moves ownership at most once, along the route it decided on, and
      exactly once if it reports success. */
  lemma OneOperationMovesOnce(es: seq<Event>, id: nat)
    requires var w := Run(Init(), es); id in w.clients && IsMove(w.clients[id].op)
    ensures var w := Run(Init(), es);
            var c := w.clients[id];
            && (forall i, j ::
                  (0 <= i < |w.commits| && 0 <= j < |w.commits| && IsMoveBy(w.commits[i], id)
                      && IsMoveBy(w.commits[j], id))
                  ==> i == j)
            && (forall i :: 0 <= i < |w.commits| && IsMoveBy(w.commits[i], id) ==>
                  c.route.Some? && w.commits[i].origin == Moved(id, c.route.value.source, c.route.value.target))
            && (c.ok ==> exists i :: 0 <= i < |w.commits| && IsMoveBy(w.commits[i], id))
  {
    Reachable(es);
    var w := Run(Init(), es);
    forall i, j | 0 <= i < |w.commits| && 0 <= j < |w.commits| && IsMoveBy(w.commits[i], id)
        && IsMoveBy(w.commits[j], id)
      ensures i == j
    {
      assert i < j ==> !SameMover(w.commits[i], w.commits[j]);
      assert j < i ==> !SameMover(w.commits[j], w.commits[i]);
    }
    forall i | 0 <= i < |w.commits| && IsMoveBy(w.commits[i], id)
      ensures w.clients[id].route.Some?
      ensures w.commits[i].origin == Moved(id, w.clients[id].route.value.source, w.clients[id].route.value.target)
    {
      assert MoveOk(w, w.commits[i]);
    }
    assert w.clients[id].ok ==> HasMove(w.commits, id);
  }

  /** Commit `i` is a failback's move. */
  predicate IsFailback(w: World, i: nat) {
    && i < |w.commits| && w.commits[i].origin.Moved? && w.commits[i].origin.id in w.clients
    && w.clients[w.commits[i].origin.id].op == Failback
  }

  /** What a failback's move has to do with the record it was decided on. */
  lemma FailbackDecision(w: World, i: nat)
    requires IsFailback(w, i) && i > 0 && LinkAt(w.commits, i) && MoveOk(w, w.commits[i])
    requires ClientOk(w.commits, w.now, w.clients[w.commits[i].origin.id])
    requires w.commits[i].row.version == i + 2
    ensures var route := w.clients[w.commits[i].origin.id].route;
            && route.Some? && 2 <= route.value.seen < i + 2
            && route.value.target == w.commits[i].row.owner != ""
            && var decided := w.commits[route.value.seen - 2].row;
               decided.owner == w.commits[i].origin.source == w.commits[i - 1].row.owner
               && decided.previousOwner == route.value.target
  {
  }

  lemma {:induction false} ReachableFailback(es: seq<Event>, i: nat)
    requires IsFailback(Run(Init(), es), i)
    ensures var w := Run(Init(), es);
            && i > 0 && LinkAt(w.commits, i) && MoveOk(w, w.commits[i]) && w.commits[i].row.version == i + 2
            && ClientOk(w.commits, w.now, w.clients[w.commits[i].origin.id])
  {
    Reachable(es);
    var w := Run(Init(), es);
    ClientInOrder(w, w.commits[i].origin.id);
    assert LinkAt(w.commits, i) && MoveOk(w, w.commits[i]);
  }

  /** A failback moves ownership to the previous owner named by an earlier row of the
      same owner. */
  lemma {:induction false} FailbackReturnsToARecordedOwner(es: seq<Event>, i: nat)
    requires IsFailback(Run(Init(), es), i)
    ensures var w := Run(Init(), es);
            exists k :: 0 <= k < i && w.commits[k].row.owner == w.commits[i].origin.source
                        && w.commits[k].row.previousOwner == w.commits[i].row.owner
  {
    ReachableFailback(es, i);
    FailbackDecision(Run(Init(), es), i);
  }

  /** Commits that move nothing keep the owners. */
  lemma {:induction false} OwnersSince(commits: seq<Commit>, k: nat, i: nat)
    requires k <= i < |commits| && forall m :: k < m <= i ==> !commits[m].origin.Moved?
    requires forall m: nat {:trigger LinkAt(commits, m)} :: LinkAt(commits, m)
    ensures commits[i].row.owner == commits[k].row.owner && commits[i].row.previousOwner == commits[k].row.previousOwner
    decreases i
  {
    if k < i {
      OwnersSince(commits, k, i - 1);
      assert LinkAt(commits, i);
    }
  }

  /** The last move after commit `k` and before commit `i`. */
  predicate LastMove(commits: seq<Commit>, k: nat, m: nat, i: nat) {
    && k < m < i <= |commits| && commits[m].origin.Moved?
    && forall n :: m < n < i ==> !commits[n].origin.Moved?
  }

  lemma {:induction false} FindLastMove(commits: seq<Commit>, k: nat, i: nat) returns (m: nat)
    requires k < i <= |commits|
    ensures m == k || LastMove(commits, k, m, i)
    ensures m == k ==> forall n :: k < n < i ==> !commits[n].origin.Moved?
    decreases i
  {
    if k == i - 1 {
      m := k;
    } else if commits[i - 1].origin.Moved? {
      m := i - 1;
    } else {
      m := FindLastMove(commits, k, i - 1);
    }
  }

  /** Every move since the decision that is the last one is a failover away from the target. */
  ghost predicate LastMoveLeft(w: World, seen: int, i: nat, target: string) {
    forall m: nat {:trigger LastMove(w.commits, seen - 2, m, i)} ::
      seen >= 2 && LastMove(w.commits, seen - 2, m, i) ==> IsFailoverFrom(w, w.commits[m], target)
  }

  lemma RowNamesTargetIff(w: World, k: nat, i: nat, target: string)
    requires k < i < |w.commits| && target != "" && w.commits[k].row.previousOwner == target
    requires forall m: nat {:trigger LinkAt(w.commits, m)} :: LinkAt(w.commits, m)
    requires forall m {:trigger MoveOk(w, w.commits[m])} :: 0 <= m < |w.commits| ==> MoveOk(w, w.commits[m])
    ensures w.commits[i - 1].row.previousOwner == target <==> LastMoveLeft(w, k + 2, i, target)
  {
    var m := FindLastMove(w.commits, k, i);
    OwnersSince(w.commits, m, i - 1);
    if m == k {
      assert forall n: nat :: !LastMove(w.commits, k, n, i);
    } else {
      assert MoveOk(w, w.commits[m]);
      assert forall n: nat :: LastMove(w.commits, k, n, i) ==> n == m;
      assert LastMove(w.commits, k, m, i);
    }
  }

  /** A failback goes to the previous owner that the row it replaces names exactly when
      the last move since its decision, if there was any, was a failover away from that
      very cluster. */
  lemma {:induction false} FailbackFollowsTheRowIff(es: seq<Event>, i: nat)
    requires IsFailback(Run(Init(), es), i)
    ensures var w := Run(Init(), es);
            var route := w.clients[w.commits[i].origin.id].route;
            && i > 0 && route.Some? && route.value.target == w.commits[i].row.owner
            && (w.commits[i - 1].row.previousOwner == w.commits[i].row.owner
                <==> LastMoveLeft(w, route.value.seen, i, w.commits[i].row.owner))
  {
    ReachableFailback(es, i);
    var w := Run(Init(), es);
    FailbackDecision(w, i);
    ReachableMoves(es);
    RowNamesTargetIff(w, w.clients[w.commits[i].origin.id].route.value.seen - 2, i, w.commits[i].row.owner);
  }

  lemma {:induction false} ReachableMoves(es: seq<Event>)
    ensures var w := Run(Init(), es);
            && (forall m: nat {:trigger LinkAt(w.commits, m)} :: LinkAt(w.commits, m))
            && (forall m {:trigger MoveOk(w, w.commits[m])} :: 0 <= m < |w.commits| ==> MoveOk(w, w.commits[m]))
  {
    Reachable(es);
  }

  /** The commit is a failover away from the cluster. */
  predicate IsFailoverFrom(w: World, c: Commit, cluster: string) {
    c.origin.Moved? && c.origin.source == cluster && c.origin.id in w.clients && w.clients[c.origin.id].op.Failover?
  }

  /** At most one issued, unreturned token is unexpired, and the LOCK row carries it. */
  lemma LeaseMutualExclusion(es: seq<Event>, a: nat, b: nat)
    requires Live(Run(Init(), es), a)
    ensures var w := Run(Init(), es);
            && w.table.lock == Some(LockRow(a, w.clients[a].lease.expiresAt))
            && (Live(w, b) ==> a == b)
  {
    Reachable(es);
  }

  /** The LOCK row of one token leaves the table only by that token's own release, or,
      once it has expired, under a new lease. */
  lemma {:induction false} OnlyItsTokenDeletesALock(es: seq<Event>, e: Event)
    ensures var w := Run(Init(), es);
            var lock' := Next(w, e).table.lock;
            w.table.lock.Some? && lock' != w.table.lock ==>
              var lock := w.table.lock.value;
              && e.Act? && e.id in w.clients
              && (lock'.None? ==> e.id == lock.token && w.clients[e.id].pc in {Release, Holding})
              && (lock'.Some? ==> lock'.value.token == e.id && lock.expiresAt * NANOS < w.now)
  {
    Reachable(es);
    var w := Run(Init(), es);
    if w.table.lock.Some? && Next(w, e).table.lock != w.table.lock {
      LockChange(w, e);
      ClientInOrder(w, e.id);
    }
  }

  /** The LOCK row carries the caller's token. */
  predicate Names(lock: Option<LockRow>, id: nat) {
    lock.Some? && lock.value.token == id
  }

  /** The caller has had a lease, and the LOCK row no longer carries its token. */
  predicate Lost(w: World, id: nat) {
    id in w.clients && !w.clients[id].lease.NoLease? && !Names(w.table.lock, id)
  }

  lemma StepIsLocal(w: World, id: nat, fate: Fate, stale: nat)
    requires id in w.clients
    ensures forall me :: me in w.clients && me != id ==>
              me in Step(w, id, fate, stale).clients && Step(w, id, fate, stale).clients[me] == w.clients[me]
  {
    var c := w.clients[id];
    match c.pc
    case CheckLock =>
    case CheckLease =>
    case ReadConfig(_) =>
    case CreateConfig(_) =>
    case CheckHealth =>
    case LeaseClock =>
    case LeasePut(_) =>
    case Transact =>
    case WriteHistory =>
    case PutConfig =>
    case Release =>
    case Holding =>
    case Done =>
  }

  lemma StepAddsNobody(w: World, id: nat, fate: Fate, stale: nat)
    requires id in w.clients
    ensures Step(w, id, fate, stale).clients.Keys == w.clients.Keys
  {
    var c := w.clients[id];
    match c.pc
    case CheckLock =>
    case CheckLease =>
    case ReadConfig(_) =>
    case CreateConfig(_) =>
    case CheckHealth =>
    case LeaseClock =>
    case LeasePut(_) =>
    case Transact =>
    case WriteHistory =>
    case PutConfig =>
    case Release =>
    case Holding =>
    case Done =>
  }

  /** A caller removes its own token only, and puts it before it has a lease. */
  lemma StepLock(w: World, id: nat, fate: Fate, stale: nat)
    requires id in w.clients && ShapeOk(w.clients[id])
    ensures var lock, lock' := w.table.lock, Step(w, id, fate, stale).table.lock;
            || lock' == lock
            || (lock'.None? && Names(lock, id))
            || (Names(lock', id) && w.clients[id].lease.NoLease?)
  {
    var c := w.clients[id];
    match c.pc
    case CheckLock =>
    case CheckLease =>
    case ReadConfig(_) =>
    case CreateConfig(_) =>
    case CheckHealth =>
    case LeaseClock =>
    case LeasePut(_) =>
    case Transact =>
    case WriteHistory =>
    case PutConfig =>
    case Release =>
    case Holding =>
    case Done =>
  }

  /** A lease is never forgotten, and is returned when the row is gone. */
  lemma StepLease(w: World, id: nat, fate: Fate, stale: nat)
    requires id in w.clients
    ensures var w' := Step(w, id, fate, stale);
            && id in w'.clients
            && (w'.clients[id].lease.NoLease? ==> w.clients[id].lease.NoLease?)
            && (w'.clients[id].lease.Returned? ==> w.clients[id].lease.Returned? || w'.table.lock.None?)
  {
    var c := w.clients[id];
    match c.pc
    case CheckLock =>
    case CheckLease =>
    case ReadConfig(_) =>
    case CreateConfig(_) =>
    case CheckHealth =>
    case LeaseClock =>
    case LeasePut(_) =>
    case Transact =>
    case WriteHistory =>
    case PutConfig =>
    case Release =>
    case Holding =>
    case Done =>
  }

  /** Nothing brings a lost token back, and a returned one is lost. */
  lemma NextKeepsLost(w: World, e: Event, id: nat)
    requires ClientsInv(w)
    requires id in w.clients && w.clients[id].lease.Returned? ==> Lost(w, id)
    ensures Lost(w, id) ==> Lost(Next(w, e), id)
    ensures var w' := Next(w, e); id in w'.clients && w'.clients[id].lease.Returned? ==> Lost(w', id)
  {
    match e
    case Act(k, fate, stale) =>
      if k in w.clients {
        ClientInOrder(w, k);
        StepLock(w, k, fate, stale);
        StepLease(w, k, fate, stale);
        StepIsLocal(w, k, fate, stale);
        StepAddsNobody(w, k, fate, stale);
      }
    case _ =>
  }

  lemma {:induction false} ReturnedIsLostIn(es: seq<Event>, id: nat)
    ensures var w := Run(Init(), es); id in w.clients && w.clients[id].lease.Returned? ==> Lost(w, id)
  {
    if es != [] {
      var n := |es| - 1;
      ReturnedIsLostIn(es[..n], id);
      ReachableClients(es[..n]);
      NextKeepsLost(Run(Init(), es[..n]), es[n], id);
    }
  }

  lemma ReachableClients(es: seq<Event>)
    ensures ClientsInv(Run(Init(), es))
  {
    Reachable(es);
  }

  /** Once a lease has been returned, or has given way to another one, no later LOCK row
      carries its token again, so that no further release of it and no other step of its
      caller changes the lock, whoever holds it by then. */
  lemma {:induction false} LateReleaseIsHarmless(es: seq<Event>, n: nat, id: nat, fate: Fate, stale: nat)
    requires n <= |es|
    requires var w := Run(Init(), es[..n]); Lost(w, id) || (id in w.clients && w.clients[id].lease.Returned?)
    ensures var w := Run(Init(), es); Lost(w, id) && Next(w, Act(id, fate, stale)).table.lock == w.table.lock
    decreases |es|
  {
    ReachableClients(es);
    if n == |es| {
      assert es[..n] == es;
      ReturnedIsLostIn(es, id);
    } else {
      var m := |es| - 1;
      assert es[..m][..n] == es[..n];
      LateReleaseIsHarmless(es[..m], n, id, fate, stale);
      ReachableClients(es[..m]);
      ReturnedIsLostIn(es[..m], id);
      NextKeepsLost(Run(Init(), es[..m]), es[m], id);
    }
    LostLeavesTheLock(Run(Init(), es), id, fate, stale);
  }

  lemma LostLeavesTheLock(w: World, id: nat, fate: Fate, stale: nat)
    requires ClientsInv(w) && Lost(w, id)
    ensures Next(w, Act(id, fate, stale)).table.lock == w.table.lock
  {
    ClientInOrder(w, id);
    StepLock(w, id, fate, stale);
  }

  /** While a lease is live every other caller's lease put is refused: also that of the
      failover which a workflow runs while it holds the lease itself. */
  lemma {:induction false} LiveLeaseRefusesOthers(es: seq<Event>, a: nat, id: nat, fate: Fate)
    requires Live(Run(Init(), es), a)
    requires var w := Run(Init(), es); id in w.clients && id != a && w.clients[id].pc.LeasePut?
    ensures var w := Run(Init(), es); Next(w, Act(id, fate, 0)) == SetClient(w, id, Leave(w.clients[id]))
  {
    Reachable(es);
    ClientInOrder(Run(Init(), es), id);
  }

  /** Only a release and a lease put change the LOCK row, each under its condition. */
  lemma LockChange(w: World, e: Event)
    requires w.table.lock.Some? && Next(w, e).table.lock != w.table.lock
    ensures e.Act? && e.id in w.clients
    ensures var pc, lock' := w.clients[e.id].pc, Next(w, e).table.lock;
            if lock'.None? then pc in {Release, Holding} && w.table.lock.value.token == e.id
            else pc.LeasePut? && LockAllowed(w.table.lock, pc.now) && lock'.value.token == e.id
  {
  }

  /** AcquireLock with nobody in between: its IsLocked is shown any past row, its clock
      is captured `d` later and its put arrives `d'` after that. */
  function UncontendedAcquire(w: World, id: nat, stale: nat, d: nat, d': nat): World {
    var w3 := Next(Next(Next(w, Act(id, Ack, stale)), Tick(d)), Act(id, Ack, 0));
    Next(Next(w3, Tick(d')), Act(id, Ack, 0))
  }

  /** That AcquireLock succeeds, and the LOCK row carries its token. */
  predicate Acquires(w: World, id: nat, stale: nat, d: nat, d': nat) {
    var w' := UncontendedAcquire(w, id, stale, d, d');
    && id in w'.clients && w'.clients[id].lease == Held(Expiry(w.now + d))
    && w'.table.lock == Some(LockRow(id, Expiry(w.now + d)))
  }

  /** An uncontended AcquireLock that starts 601 seconds or more after the last lease
      was put succeeds, whichever past LOCK row its IsLocked is shown and however long
      its steps take. */
  lemma LeaseRecovers(es: seq<Event>, id: nat, stale: nat, d: nat, d': nat)
    requires var w := Run(Init(), es);
             id in w.clients && w.clients[id].pc == CheckLease && w.now >= w.lastLease + 601 * NANOS
    ensures Acquires(Run(Init(), es), id, stale, d, d')
  {
    ReachableLease(es);
    RecoversFrom(Run(Init(), es), id, stale, d, d');
  }

  lemma RecoversFrom(w: World, id: nat, stale: nat, d: nat, d': nat)
    requires LeaseInv(w) && id in w.clients && w.clients[id].pc == CheckLease && w.now >= w.lastLease + 601 * NANOS
    ensures Acquires(w, id, stale, d, d')
  {
    RecoveryStep(w, id, stale, d);
    FreeLockIsTaken(w, id, stale, d, d');
  }

  lemma ReachableLease(es: seq<Event>)
    ensures LeaseInv(Run(Init(), es))
  {
    Reachable(es);
  }

  /** AcquireLock up to the capture of its clock, and its put. */
  lemma FreeLockIsSeen(w: World, id: nat, stale: nat, d: nat)
    requires id in w.clients && w.clients[id].pc == CheckLease && !LooksLocked(PastLock(w, stale), w.now)
    ensures Next(Next(Next(w, Act(id, Ack, stale)), Tick(d)), Act(id, Ack, 0))
         == SetClient(w, id, w.clients[id].(pc := LeasePut(w.now + d))).(now := w.now + d)
  {
    var w2 := SetClient(w, id, w.clients[id].(pc := LeaseClock)).(now := w.now + d);
    assert Next(Next(w, Act(id, Ack, stale)), Tick(d)) == w2;
    assert w2.clients[id := w.clients[id].(pc := LeasePut(w.now + d))]
        == w.clients[id := w.clients[id].(pc := LeasePut(w.now + d))];
  }

  lemma FreeLockIsPut(w: World, id: nat, c: Client, clock: nat)
    requires id in w.clients && w.clients[id] == c && c.pc == LeasePut(clock) && LockAllowed(w.table.lock, clock)
    ensures var w' := Next(w, Act(id, Ack, 0));
            && id in w'.clients && w'.clients[id].lease == Held(Expiry(clock))
            && w'.table.lock == Some(LockRow(id, Expiry(clock)))
  {
  }

  /** AcquireLock's steps when neither of its conditions refuses. */
  lemma FreeLockIsTaken(w: World, id: nat, stale: nat, d: nat, d': nat)
    requires id in w.clients && w.clients[id].pc == CheckLease
    requires !LooksLocked(PastLock(w, stale), w.now) && LockAllowed(w.table.lock, w.now + d)
    ensures Acquires(w, id, stale, d, d')
  {
    FreeLockIsSeen(w, id, stale, d);
    var w3 := SetClient(w, id, w.clients[id].(pc := LeasePut(w.now + d))).(now := w.now + d);
    FreeLockIsPut(w3.(now := w3.now + d'), id, w3.clients[id], w.now + d);
  }

  /** 601 seconds after the last put, neither IsLocked nor the put's condition refuses. */
  lemma RecoveryStep(w: World, id: nat, stale: nat, d: nat)
    requires LeaseInv(w) && w.now >= w.lastLease + 601 * NANOS
    ensures !LooksLocked(PastLock(w, stale), w.now)
    ensures LockAllowed(w.table.lock, w.now + d)
  {
  }

  /** Default creation fills an empty row and never replaces one; so of any number of
      concurrent first readers exactly one creates the row. */
  lemma OneReaderCreates(es: seq<Event>, id: nat, fate: Fate)
    requires var w := Run(Init(), es); id in w.clients && w.clients[id].pc.CreateConfig?
    ensures var w := Run(Init(), es);
            var w' := Next(w, Act(id, fate, 0));
            && (w.table.config.Some? ==> w'.table.config == w.table.config && w'.clients[id].pc in {Release, Done})
            && (w.table.config.None? && fate != Dropped ==>
                  && w'.table.config == Some(GroupConfig(w.clients[id].cluster, "", 2, false, "", None,
                                                         Timeouts("5m", "2m", "1m"), map[]))
                  && w'.commits == [Commit(w'.table.config.value, Creation)])
  {
    Reachable(es);
  }

  /** While no status row is written later than decided, at most one is PRIMARY, and it
      is the owner's. */
  lemma PrimaryIsUnique(es: seq<Event>, a: string, b: string)
    requires forall e :: e in es ==> !e.WriteStatus?
    requires var w := Run(Init(), es); a in w.table.status && w.table.status[a].state == PRIMARY
    ensures var w := Run(Init(), es);
            && w.table.config.Some? && w.table.config.value.owner == a
            && (b in w.table.status && w.table.status[b].state == PRIMARY ==> a == b)
  {
    Reachable(es);
    NothingIsLate(es);
  }

  lemma {:induction false} NothingIsLate(es: seq<Event>)
    requires forall e :: e in es ==> !e.WriteStatus?
    ensures Run(Init(), es).late == {}
  {
    if es != [] {
      var n := |es| - 1;
      assert es[n] in es && forall e :: e in es[..n] ==> e in es;
      NothingIsLate(es[..n]);
      NextIsNotLate(Run(Init(), es[..n]), es[n]);
    }
  }

  lemma NextIsNotLate(w: World, e: Event)
    requires w.late == {} && !e.WriteStatus?
    ensures Next(w, e).late == {}
  {
  }
}
