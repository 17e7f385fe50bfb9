/** What every step of the coordination protocol keeps. */
module ProtocolInvariants {
  import opened Records
  import opened Protocol

  // ---- the CONFIG row: a linear chain of commits ----

  /** How a commit may follow the row before it: a rewrite changes neither the owners
      nor the suspension, and a move starts at the owner it finds. */
  predicate Follows(row: GroupConfig, next: Commit) {
    && next.row.version == row.version + 1
    && next.row.suspended == row.suspended
    && next.row.suspensionReason == row.suspensionReason
    && (match next.origin
        case Creation => false
        case Rewritten(_) =>
          && next.row.owner == row.owner && next.row.previousOwner == row.previousOwner
          && next.row.timeouts == DEFAULT_TIMEOUTS && next.row.metadata == map[]
        case Moved(_, source, target) =>
          && next.row.timeouts == row.timeouts && next.row.metadata == row.metadata
          && source == row.owner && target == next.row.owner && source != target
          && (next.row.previousOwner == source || (next.row.previousOwner == "" && target != "")))
  }

  predicate LinkAt(commits: seq<Commit>, i: nat) {
    0 < i < |commits| ==> Follows(commits[i - 1].row, commits[i])
  }

  ghost predicate ChainInv(w: World) {
    && (w.table.config.None? <==> w.commits == [])
    && (w.commits != [] ==>
          && w.table.config == Some(w.commits[|w.commits| - 1].row)
          && w.commits[0].origin == Creation && RowOk(w.commits[0].row) && w.commits[0].row.version == 2)
    && (forall i: nat {:trigger LinkAt(w.commits, i)} :: LinkAt(w.commits, i))
    && (forall i :: 0 <= i < |w.commits| ==> w.commits[i].row.version == i + 2 && RowOk(w.commits[i].row))
  }

  // ---- what callers know ----

  /** A record that a commit left, as a read returns it. */
  predicate Recorded(commits: seq<Commit>, rec: GroupConfig) {
    2 <= rec.version < |commits| + 2 && rec == Unmarshal(commits[rec.version - 2].row)
  }

  predicate RouteOk(commits: seq<Commit>, op: Op, r: Route) {
    && r.source != r.target
    && 2 <= r.seen < |commits| + 2
    && r.source == commits[r.seen - 2].row.owner
    && (op.Failback? ==> r.target == commits[r.seen - 2].row.previousOwner && r.target != "")
    && (op.Failover? ==> r.target == op.target)
  }

  /** The stretches of an ownership operation. */
  datatype Phase = Deciding | Locking | Moving | Recording | Leaving | Finished

  function PhaseOf(pc: Pc): Phase {
    match pc
    case CheckLock => Deciding
    case CheckHealth => Deciding
    case ReadConfig(at) => PointPhase(at)
    case CreateConfig(at) => PointPhase(at)
    case CheckLease => Locking
    case LeaseClock => Locking
    case LeasePut(_) => Locking
    case Transact => Moving
    case WriteHistory => Recording
    case PutConfig => Recording
    case Release => Leaving
    case Holding => Leaving
    case Done => Finished
  }

  function PointPhase(at: Point): Phase {
    match at
    case Transaction => Moving
    case History => Recording
    case _ => Deciding
  }

  /** Before the ownership transaction is sent. */
  predicate BeforeTransact(pc: Pc) {
    PhaseOf(pc).Deciding? || PhaseOf(pc).Locking? || PhaseOf(pc).Moving?
  }

  predicate PcFits(op: Op, pc: Pc) {
    match pc
    case ReadConfig(at) => PointFits(op, at)
    case CreateConfig(at) => PointFits(op, at)
    case PutConfig => IsMove(op) || op.Rewrite?
    case Done => true
    case Holding => op.Lock?
    case CheckLease => IsMove(op) || op.Lock?
    case LeaseClock => IsMove(op) || op.Lock?
    case LeasePut(_) => IsMove(op) || op.Lock?
    case Release => IsMove(op) || op.Lock?
    case _ => IsMove(op)
  }

  predicate PointFits(op: Op, at: Point) {
    match at
    case Update => op.Rewrite?
    case Read => op.Inspect?
    case _ => IsMove(op)
  }

  /** What holds of an ownership operation in each phase. */
  predicate MoveShape(c: Client) {
    match PhaseOf(c.pc)
    case Deciding => c.lease.NoLease? && !c.ok && (c.op.Failback? && !AtSource(c.pc) ==> c.route.Some?)
    case Locking => c.lease.NoLease? && !c.ok && c.route.Some?
    case Moving => c.lease.Held? && !c.ok && c.route.Some?
    case Recording => c.lease.Held? && c.ok && c.route.Some?
    case Leaving => c.lease.Held? && c.route.Some?
    case Finished => c.lease.Held? ==> c.route.Some?
  }

  predicate AtSource(pc: Pc) {
    (pc.ReadConfig? || pc.CreateConfig?) && pc.at.Source?
  }

  predicate ShapeOk(c: Client) {
    && c.cluster != "" && PcFits(c.op, c.pc)
    && (c.pc.Transact? || c.pc.PutConfig? ==> c.rec.Some?)
    && (if IsMove(c.op) then MoveShape(c) else c.lease.NoLease? || (c.op.Lock? && !PhaseOf(c.pc).Locking?))
  }

  predicate Knows(commits: seq<Commit>, c: Client) {
    && (c.rec.Some? ==> Recorded(commits, c.rec.value))
    && (c.route.Some? ==> RouteOk(commits, c.op, c.route.value))
  }

  predicate ClientOk(commits: seq<Commit>, now: nat, c: Client) {
    ShapeOk(c) && Knows(commits, c) && (c.pc.LeasePut? ==> c.pc.now <= now)
  }

  ghost predicate ClientsInv(w: World) {
    forall id {:trigger ClientOk(w.commits, w.now, w.clients[id])} ::
      id in w.clients ==> ClientOk(w.commits, w.now, w.clients[id])
  }

  // ---- one operation, one move ----

  predicate IsMoveBy(c: Commit, id: nat) {
    c.origin.Moved? && c.origin.id == id
  }

  predicate SameMover(a: Commit, b: Commit) {
    a.origin.Moved? && IsMoveBy(b, a.origin.id)
  }

  ghost predicate HasMove(commits: seq<Commit>, id: nat) {
    exists i :: 0 <= i < |commits| && IsMoveBy(commits[i], id)
  }

  /** A move is made by a caller that is past its transaction, along its route, and
      after the record that decided the route. */
  predicate MoveOk(w: World, c: Commit) {
    c.origin.Moved? ==>
      var id := c.origin.id;
      && id in w.clients && IsMove(w.clients[id].op) && !BeforeTransact(w.clients[id].pc)
      && w.clients[id].route.Some?
      && c.origin.source == w.clients[id].route.value.source
      && c.origin.target == w.clients[id].route.value.target
      && w.clients[id].route.value.seen < c.row.version
      && c.row.previousOwner == if w.clients[id].op.Failback? then "" else c.origin.source
  }

  ghost predicate MovesInv(w: World) {
    && (forall i {:trigger MoveOk(w, w.commits[i])} :: 0 <= i < |w.commits| ==> MoveOk(w, w.commits[i]))
    && (forall i, j {:trigger SameMover(w.commits[i], w.commits[j])} ::
          0 <= i < j < |w.commits| ==> !SameMover(w.commits[i], w.commits[j]))
    && (forall id {:trigger HasMove(w.commits, id)} ::
          id in w.clients && IsMove(w.clients[id].op) && w.clients[id].ok ==> HasMove(w.commits, id))
  }

  // ---- the lease ----

  /** An issued token that its caller has not returned and that has not expired. */
  predicate Live(w: World, id: nat) {
    id in w.clients && w.clients[id].lease.Held? && w.now <= w.clients[id].lease.expiresAt * NANOS
  }

  ghost predicate LeaseInv(w: World) {
    && w.lastLease <= w.now
    && (forall id :: Live(w, id) ==> w.table.lock == Some(LockRow(id, w.clients[id].lease.expiresAt)))
    && (forall i :: 0 <= i < |w.locks| && w.locks[i].Some? ==> w.locks[i].value.expiresAt <= Expiry(w.lastLease))
    && |w.locks| > 0 && w.table.lock == w.locks[|w.locks| - 1]
  }

  // ---- the status rows ----

  /** A row that says PRIMARY is the owner's, unless it was decided earlier than written. */
  ghost predicate PrimaryInv(w: World) {
    forall k :: k in w.table.status && w.table.status[k].state == PRIMARY && k !in w.late ==>
      w.table.config.Some? && w.table.config.value.owner == k
  }

  ghost predicate Inv(w: World) {
    ChainInv(w) && ClientsInv(w) && MovesInv(w) && LeaseInv(w) && PrimaryInv(w)
  }

  /** What a step that writes nothing may change of its caller. */
  predicate SameOperation(c: Client, c': Client) {
    && c'.op == c.op && c'.lease == c.lease
    && (IsMove(c.op) ==> c'.ok == c.ok)
    && (BeforeTransact(c'.pc) ==> BeforeTransact(c.pc))
    && (BeforeTransact(c.pc) || c'.route == c.route)
  }

  // ---- preservation: writes of the CONFIG row ----

  /** Appending a legal commit keeps the chain and everything callers know. */
  lemma CommitKeepsChain(w: World, row: GroupConfig, origin: Origin)
    requires ChainInv(w)
    requires w.commits == [] ==> origin == Creation && row.version == 2 && RowOk(row)
    requires w.commits != [] ==> Follows(w.table.config.value, Commit(row, origin)) && RowOk(row)
    ensures ChainInv(CommitRow(w, row, origin))
  {
    var w' := CommitRow(w, row, origin);
    forall i: nat ensures LinkAt(w'.commits, i) {
      assert LinkAt(w.commits, i);
    }
  }

  lemma ClientInOrder(w: World, id: nat)
    requires ClientsInv(w) && id in w.clients
    ensures ClientOk(w.commits, w.now, w.clients[id])
  {
  }

  /** A caller whose new state is in order keeps all callers in order. */
  lemma ClientsKept(w: World, w': World, id: nat)
    requires ClientsInv(w) && w.commits <= w'.commits && w.now <= w'.now
    requires forall k :: k in w'.clients ==> k == id || (k in w.clients && w'.clients[k] == w.clients[k])
    requires id in w'.clients ==> ClientOk(w'.commits, w'.now, w'.clients[id])
    ensures ClientsInv(w')
  {
    forall k | k in w'.clients ensures ClientOk(w'.commits, w'.now, w'.clients[k]) {
      if k != id { ClientInOrder(w, k); }
    }
  }

  /** `Use` puts a caller that has just read a committed record in order. */
  lemma UseOk(commits: seq<Commit>, now: nat, c: Client, at: Point, rec: GroupConfig)
    requires ClientOk(commits, now, c) && (c.pc == ReadConfig(at) || c.pc == CreateConfig(at))
    requires Recorded(commits, rec) && rec.owner != rec.previousOwner
    ensures ClientOk(commits, now, Use(c, at, rec))
    ensures SameOperation(c, Use(c, at, rec))
  {
    UseShape(c, at, rec);
  }

  lemma UseShape(c: Client, at: Point, rec: GroupConfig)
    requires ShapeOk(c) && (c.pc == ReadConfig(at) || c.pc == CreateConfig(at))
    ensures ShapeOk(Use(c, at, rec))
    ensures SameOperation(c, Use(c, at, rec))
  {
  }

  /** Giving up is in order everywhere. */
  lemma LeaveOk(commits: seq<Commit>, now: nat, c: Client)
    requires ClientOk(commits, now, c)
    ensures ClientOk(commits, now, Leave(c)) && SameOperation(c, Leave(c))
  {
  }

  lemma ReleasedOk(commits: seq<Commit>, now: nat, c: Client)
    requires ClientOk(commits, now, c) && (c.pc.Release? || c.pc.Holding?)
    ensures ClientOk(commits, now, Released(c)) && SameOperation(c, Released(c))
  {
  }

  lemma RefusedOk(commits: seq<Commit>, now: nat, c: Client)
    requires ClientOk(commits, now, c) && c.pc.Transact?
    ensures ClientOk(commits, now, c.(pc := Release)) && SameOperation(c, c.(pc := Release))
  {
  }

  /** A caller that changes neither record nor route knows what it knew. */
  lemma StillKnows(commits: seq<Commit>, now: nat, c: Client, commits': seq<Commit>, c': Client)
    requires ClientOk(commits, now, c) && commits <= commits' && ShapeOk(c') && !c'.pc.LeasePut?
    requires c'.rec == c.rec && c'.route == c.route && c'.op == c.op
    ensures ClientOk(commits', now, c')
  {
  }

  /** What a read of the row returns is a committed record. */
  lemma ReadIsRecorded(w: World)
    requires ChainInv(w) && w.table.config.Some?
    ensures Recorded(w.commits, Unmarshal(w.table.config.value))
    ensures RowOk(w.table.config.value)
  {
  }

  /** A record whose version is the row's version was read from that row. */
  lemma RecordedIsCurrent(w: World, rec: GroupConfig)
    requires ChainInv(w) && Recorded(w.commits, rec)
    ensures PutAllowed(w.table.config, rec) <==> rec.version == |w.commits| + 1
    ensures PutAllowed(w.table.config, rec) ==> rec == Unmarshal(w.table.config.value)
  {
  }

  // ---- preservation: the three kinds of step ----

  /** A step that only moves its own caller on. */
  lemma QuietKeepsInv(w: World, id: nat, c: Client)
    requires Inv(w) && id in w.clients
    requires ClientOk(w.commits, w.now, c) && SameOperation(w.clients[id], c)
    ensures Inv(SetClient(w, id, c))
  {
    var w' := SetClient(w, id, c);
    ClientsKept(w, w', id);
    LiveKept(w, w');
    forall i | 0 <= i < |w.commits| ensures MoveOk(w', w.commits[i]) {
      assert MoveOk(w, w.commits[i]);
    }
    forall k | k in w'.clients && IsMove(w'.clients[k].op) && w'.clients[k].ok ensures HasMove(w'.commits, k) {
      assert HasMove(w.commits, k);
    }
  }

  /** The same leases under the same LOCK row. */
  lemma LiveKept(w: World, w': World)
    requires LeaseInv(w) && w'.table.lock == w.table.lock && w'.locks == w.locks && w'.lastLease == w.lastLease
    requires w.now <= w'.now
    requires forall k :: k in w'.clients && w'.clients[k].lease.Held? ==>
               k in w.clients && w'.clients[k].lease == w.clients[k].lease
    ensures LeaseInv(w')
  {
    forall k | Live(w', k) ensures w'.table.lock == Some(LockRow(k, w'.clients[k].lease.expiresAt)) {
      assert Live(w, k);
    }
  }

  /** A commit that moves no ownership: the default record, or a rewrite. */
  lemma CommitKeepsInv(w: World, row: GroupConfig, origin: Origin)
    requires Inv(w) && !origin.Moved?
    requires w.commits == [] ==> origin == Creation && row.version == 2 && RowOk(row)
    requires w.commits != [] ==> Follows(w.table.config.value, Commit(row, origin)) && RowOk(row)
    ensures Inv(CommitRow(w, row, origin))
  {
    var w' := CommitRow(w, row, origin);
    CommitKeepsChain(w, row, origin);
    MovesKept(w, w');
    LiveKept(w, w');
    ClientsGrow(w, w');
  }

  lemma ClientsGrow(w: World, w': World)
    requires ClientsInv(w) && w.commits <= w'.commits && w.now <= w'.now && w'.clients == w.clients
    ensures ClientsInv(w')
  {
    forall k | k in w'.clients ensures ClientOk(w'.commits, w'.now, w'.clients[k]) {
      ClientInOrder(w, k);
    }
  }

  /** More commits that are nobody's moves, and the same callers. */
  lemma MovesKept(w: World, w': World)
    requires MovesInv(w) && w'.clients == w.clients && w.commits <= w'.commits
    requires forall i :: |w.commits| <= i < |w'.commits| ==> !w'.commits[i].origin.Moved?
    ensures MovesInv(w')
  {
    forall i | 0 <= i < |w'.commits| ensures MoveOk(w', w'.commits[i]) {
      assert i < |w.commits| ==> MoveOk(w, w.commits[i]);
    }
    forall i, j | 0 <= i < j < |w'.commits| ensures !SameMover(w'.commits[i], w'.commits[j]) {
      assert j < |w.commits| ==> !SameMover(w.commits[i], w.commits[j]);
    }
    forall id | id in w'.clients && IsMove(w'.clients[id].op) && w'.clients[id].ok ensures HasMove(w'.commits, id) {
      HasMoveGrows(w.commits, w'.commits, id);
    }
  }

  lemma HasMoveGrows(commits: seq<Commit>, commits': seq<Commit>, id: nat)
    requires commits <= commits' && HasMove(commits, id)
    ensures HasMove(commits', id)
  {
    var i :| 0 <= i < |commits| && IsMoveBy(commits[i], id);
    assert commits'[i] == commits[i];
  }

  lemma CheckLockKeepsInv(w: World, id: nat, fate: Fate, stale: nat)
    requires Inv(w) && id in w.clients && (w.clients[id].pc.CheckLock? || w.clients[id].pc.CheckLease?)
    ensures Inv(StepCheckLock(w, id, w.clients[id], fate, stale))
  {
    var c := w.clients[id];
    ClientInOrder(w, id);
    LeaveOk(w.commits, w.now, c);
    QuietKeepsInv(w, id, Leave(c));
    QuietKeepsInv(w, id, if c.pc.CheckLease? then c.(pc := LeaseClock) else c.(pc := ReadConfig(Validate)));
  }

  lemma ReadConfigKeepsInv(w: World, id: nat, fate: Fate)
    requires Inv(w) && id in w.clients && w.clients[id].pc.ReadConfig?
    ensures Inv(StepReadConfig(w, id, w.clients[id], fate))
  {
    var c := w.clients[id];
    ClientInOrder(w, id);
    if fate != Ack {
      LeaveOk(w.commits, w.now, c);
      QuietKeepsInv(w, id, Leave(c));
    } else if w.table.config.None? {
      QuietKeepsInv(w, id, c.(pc := CreateConfig(c.pc.at)));
    } else {
      var rec := Unmarshal(w.table.config.value);
      ReadIsRecorded(w);
      UseOk(w.commits, w.now, c, c.pc.at, rec);
      QuietKeepsInv(w, id, Use(c, c.pc.at, rec));
    }
  }

  lemma CreateConfigKeepsInv(w: World, id: nat, fate: Fate)
    requires Inv(w) && id in w.clients && w.clients[id].pc.CreateConfig?
    ensures Inv(StepCreateConfig(w, id, w.clients[id], fate))
  {
    var c := w.clients[id];
    ClientInOrder(w, id);
    var rec := DefaultConfig(c.cluster);
    if fate == Dropped || !PutAllowed(w.table.config, rec) {
      LeaveOk(w.commits, w.now, c);
      QuietKeepsInv(w, id, Leave(c));
    } else {
      var w' := CommitRow(w, PutItem(rec), Creation);
      CommitKeepsInv(w, PutItem(rec), Creation);
      StillKnows(w.commits, w.now, c, w'.commits, c);
      if fate == Ack {
        UseOk(w'.commits, w.now, c, c.pc.at, PutItem(rec));
        QuietKeepsInv(w', id, Use(c, c.pc.at, PutItem(rec)));
      } else {
        LeaveOk(w'.commits, w.now, c);
        QuietKeepsInv(w', id, Leave(c));
      }
    }
  }

  lemma PutConfigKeepsInv(w: World, id: nat, fate: Fate)
    requires Inv(w) && id in w.clients && w.clients[id].pc.PutConfig?
    ensures Inv(StepPutConfig(w, id, w.clients[id], fate))
  {
    var c := w.clients[id];
    ClientInOrder(w, id);
    RecordedIsCurrent(w, c.rec.value);
    if fate == Dropped || !PutAllowed(w.table.config, c.rec.value) {
      LeaveOk(w.commits, w.now, c);
      QuietKeepsInv(w, id, Leave(c));
    } else {
      var row := PutItem(Edited(c, id, c.rec.value));
      CommitKeepsInv(w, row, Rewritten(id));
      RewrittenKeepsInv(CommitRow(w, row, Rewritten(id)), id, fate == Ack);
    }
  }

  lemma RewrittenKeepsInv(w: World, id: nat, acknowledged: bool)
    requires Inv(w) && id in w.clients && w.clients[id].pc.PutConfig?
    ensures var c := w.clients[id]; Inv(SetClient(w, id, Leave(c.(ok := c.ok || acknowledged))))
  {
    ClientInOrder(w, id);
    var c' := w.clients[id].(ok := w.clients[id].ok || acknowledged);
    StillKnows(w.commits, w.now, w.clients[id], w.commits, c');
    LeaveOk(w.commits, w.now, c');
    QuietKeepsInv(w, id, Leave(c'));
  }

  /** The transaction appends a move that starts at the current owner. */
  lemma TransactKeepsInv(w: World, id: nat, fate: Fate)
    requires Inv(w) && id in w.clients && w.clients[id].pc.Transact?
    ensures Inv(StepTransact(w, id, w.clients[id], fate))
  {
    var c := w.clients[id];
    ClientInOrder(w, id);
    var r := c.route.value;
    if fate == Dropped || !TransactAllowed(w.table.config, r.source, c.rec.value.version) {
      RefusedOk(w.commits, w.now, c);
      QuietKeepsInv(w, id, c.(pc := Release));
    } else {
      TransactionKeepsInv(w, id, fate);
    }
  }

  lemma TransactionKeepsInv(w: World, id: nat, fate: Fate)
    requires Inv(w) && id in w.clients && w.clients[id].pc.Transact? && ClientOk(w.commits, w.now, w.clients[id])
             && fate != Dropped
    requires var c := w.clients[id]; TransactAllowed(w.table.config, c.route.value.source, c.rec.value.version)
    ensures Inv(StepTransact(w, id, w.clients[id], fate))
  {
    var c := w.clients[id];
    var r := c.route.value;
    var move := Commit(MovedRow(w.table.config.value, c.op, r, c.rec.value.version, FailoverRef(id, c.start)),
                       Moved(id, r.source, r.target));
    var w' := StepTransact(w, id, c, fate);
    var c' := if fate == Ack then c.(ok := true, pc := WriteHistory) else c.(pc := Release);
    assert w'.clients == w.clients[id := c'];
    StillKnows(w.commits, w.now, c, w'.commits, c');
    MoveKeepsPrimary(w, w', c.op, r);
    MoveKeepsInv(w, w', id, move);
  }

  lemma MoveKeepsInv(w: World, w': World, id: nat, move: Commit)
    requires Inv(w) && id in w.clients && w.clients[id].pc.Transact? && IsMove(w.clients[id].op)
    requires w.commits != [] && IsMoveBy(move, id) && Follows(w.table.config.value, move) && RowOk(move.row)
    requires w'.table.config == Some(move.row) && w'.commits == w.commits + [move] && PrimaryInv(w')
    requires w'.now == w.now && w'.table.lock == w.table.lock && w'.locks == w.locks && w'.lastLease == w.lastLease
    requires id in w'.clients && w'.clients == w.clients[id := w'.clients[id]]
    requires ClientOk(w'.commits, w'.now, w'.clients[id]) && !BeforeTransact(w'.clients[id].pc)
    requires w'.clients[id].op == w.clients[id].op && w'.clients[id].lease == w.clients[id].lease
    requires MoveOk(w', move)
    ensures Inv(w')
  {
    MoveKeepsChain(w, w', move);
    ClientsKept(w, w', id);
    MoveKeepsMoves(w, w', id, move);
    LiveKept(w, w');
  }

  lemma MoveKeepsChain(w: World, w': World, move: Commit)
    requires ChainInv(w) && w.commits != [] && move.origin.Moved?
    requires Follows(w.table.config.value, move) && RowOk(move.row)
    requires w'.table.config == Some(move.row) && w'.commits == w.commits + [move]
    ensures ChainInv(w')
  {
    CommitKeepsChain(w, move.row, move.origin);
    ChainOnlyCommits(CommitRow(w, move.row, move.origin), w');
  }

  /** Only the owner is PRIMARY before the move, and the move relabels it. */
  lemma MoveKeepsPrimary(w: World, w': World, op: Op, r: Route)
    requires PrimaryInv(w) && w.table.config.Some? && w.table.config.value.owner == r.source
    requires w'.table.config.Some? && w'.table.config.value.owner == r.target
    requires w'.table.status == MovedStatus(w.table.status, op, r) && w'.late == w.late - {r.source, r.target}
    ensures PrimaryInv(w')
  {
  }

  lemma ChainOnlyCommits(w: World, w': World)
    requires ChainInv(w) && w'.table.config == w.table.config && w'.commits == w.commits
    ensures ChainInv(w')
  {
    forall i: nat ensures LinkAt(w'.commits, i) {
      assert LinkAt(w.commits, i);
    }
  }

  lemma MoveKeepsMoves(w: World, w': World, id: nat, move: Commit)
    requires MovesInv(w) && ClientsInv(w) && id in w.clients && IsMove(w.clients[id].op)
             && BeforeTransact(w.clients[id].pc)
    requires w'.commits == w.commits + [move] && IsMoveBy(move, id)
    requires id in w'.clients && w'.clients == w.clients[id := w'.clients[id]]
    requires w'.clients[id].op == w.clients[id].op && !BeforeTransact(w'.clients[id].pc)
    requires MoveOk(w', move)
    ensures MovesInv(w')
  {
    forall i | 0 <= i < |w'.commits|
      ensures MoveOk(w', w'.commits[i]) && (i < |w.commits| ==> !IsMoveBy(w'.commits[i], id))
    {
      if i < |w.commits| { assert MoveOk(w, w.commits[i]); }
    }
    forall i, j | 0 <= i < j < |w'.commits| ensures !SameMover(w'.commits[i], w'.commits[j]) {
      assert j < |w.commits| ==> !SameMover(w.commits[i], w.commits[j]);
    }
    forall k | k in w'.clients && IsMove(w'.clients[k].op) && w'.clients[k].ok ensures HasMove(w'.commits, k) {
      if k == id { assert IsMoveBy(w'.commits[|w.commits|], k); } else { HasMoveGrows(w.commits, w'.commits, k); }
    }
  }

  /** A step that writes only the LOCK row keeps everything but the lease. */
  lemma LockStepKeepsRest(w: World, w': World, id: nat)
    requires ChainInv(w) && ClientsInv(w) && MovesInv(w) && PrimaryInv(w) && id in w.clients && id in w'.clients
    requires w' == w.(table := w.table.(lock := w'.table.lock), locks := w'.locks, lastLease := w'.lastLease,
                      clients := w.clients[id := w'.clients[id]])
    requires var c, c' := w.clients[id], w'.clients[id];
             && c' == c.(pc := c'.pc, lease := c'.lease) && ShapeOk(c') && !c'.pc.LeasePut?
             && (BeforeTransact(c'.pc) ==> BeforeTransact(c.pc))
    ensures ChainInv(w') && ClientsInv(w') && MovesInv(w') && PrimaryInv(w')
  {
    ClientInOrder(w, id);
    StillKnows(w.commits, w.now, w.clients[id], w'.commits, w'.clients[id]);
    ClientsKept(w, w', id);
    ChainOnlyCommits(w, w');
    MovesSame(w, w', id);
  }

  lemma LeaseAfterPut(w: World, w': World, id: nat, clock: nat)
    requires LeaseInv(w) && id in w.clients && clock <= w.now && LockAllowed(w.table.lock, clock)
    requires w'.now == w.now && w'.lastLease == w.now && id in w'.clients
             && w'.clients == w.clients[id := w'.clients[id]]
    requires w'.table.lock == Some(LockRow(id, Expiry(clock))) && w'.locks == w.locks + [w'.table.lock]
    requires w'.clients[id].lease.Held? ==> w'.clients[id].lease.expiresAt == Expiry(clock)
    ensures LeaseInv(w')
  {
    forall k | Live(w', k) ensures w'.table.lock == Some(LockRow(k, w'.clients[k].lease.expiresAt)) {
      if k != id { assert Live(w, k); }
    }
  }

  lemma LeaseAfterRelease(w: World, w': World, id: nat)
    requires LeaseInv(w) && id in w.clients && w.table.lock.Some? && w.table.lock.value.token == id
    requires w'.now == w.now && w'.lastLease == w.lastLease && id in w'.clients
             && w'.clients == w.clients[id := w'.clients[id]]
    requires w'.table.lock.None? && w'.locks == w.locks + [None] && !w'.clients[id].lease.Held?
    ensures LeaseInv(w')
  {
    forall k ensures !Live(w', k) {
      assert k != id && Live(w', k) ==> Live(w, k);
    }
  }

  /** Every other caller's lease has expired by the time a new one is put. */
  lemma LeasePutKeepsInv(w: World, id: nat, fate: Fate)
    requires Inv(w) && id in w.clients && w.clients[id].pc.LeasePut?
    ensures Inv(StepLeasePut(w, id, w.clients[id], fate))
  {
    var c := w.clients[id];
    ClientInOrder(w, id);
    if fate == Dropped || !LockAllowed(w.table.lock, c.pc.now) {
      LeaveOk(w.commits, w.now, c);
      QuietKeepsInv(w, id, Leave(c));
    } else {
      var w' := StepLeasePut(w, id, c, fate);
      LockStepKeepsRest(w, w', id);
      LeaseAfterPut(w, w', id, c.pc.now);
    }
  }

  /** A step that commits nothing and keeps its caller's operation, route and result. */
  lemma MovesSame(w: World, w': World, id: nat)
    requires MovesInv(w) && w'.commits == w.commits && id in w.clients && id in w'.clients
    requires w'.clients == w.clients[id := w'.clients[id]] && w'.clients[id].op == w.clients[id].op
    requires w'.clients[id].ok == w.clients[id].ok && w'.clients[id].route == w.clients[id].route
    requires BeforeTransact(w'.clients[id].pc) ==> BeforeTransact(w.clients[id].pc)
    ensures MovesInv(w')
  {
    forall i | 0 <= i < |w'.commits| ensures MoveOk(w', w'.commits[i]) {
      assert MoveOk(w, w.commits[i]);
    }
    forall k | k in w'.clients && IsMove(w'.clients[k].op) && w'.clients[k].ok ensures HasMove(w'.commits, k) {
      assert HasMove(w.commits, k);
    }
  }

  lemma ReleaseKeepsInv(w: World, id: nat, fate: Fate)
    requires Inv(w) && id in w.clients && (w.clients[id].pc.Release? || w.clients[id].pc.Holding?)
    ensures Inv(StepRelease(w, id, w.clients[id], fate))
  {
    var c := w.clients[id];
    ClientInOrder(w, id);
    if fate == Dropped || w.table.lock.None? || w.table.lock.value.token != id {
      ReleasedOk(w.commits, w.now, c);
      QuietKeepsInv(w, id, Released(c));
    } else {
      DeletionKeepsInv(w, id);
    }
  }

  lemma DeletionKeepsInv(w: World, id: nat)
    requires Inv(w) && id in w.clients && (w.clients[id].pc.Release? || w.clients[id].pc.Holding?)
    requires w.table.lock.Some? && w.table.lock.value.token == id
    ensures Inv(SetClient(SetLock(w, None), id, Released(w.clients[id]).(lease := Returned)))
  {
    var w' := SetClient(SetLock(w, None), id, Released(w.clients[id]).(lease := Returned));
    ClientInOrder(w, id);
    LockStepKeepsRest(w, w', id);
    LeaseAfterRelease(w, w', id);
  }

  lemma WriteHistoryKeepsInv(w: World, id: nat, fate: Fate)
    requires Inv(w) && id in w.clients && w.clients[id].pc.WriteHistory?
    ensures Inv(StepWriteHistory(w, id, w.clients[id], fate))
  {
    var c := w.clients[id];
    var w' := StepWriteHistory(w, id, c, fate);
    ClientInOrder(w, id);
    StillKnows(w.commits, w.now, c, w'.commits, w'.clients[id]);
    ClientsKept(w, w', id);
    ChainOnlyCommits(w, w');
    MovesSame(w, w', id);
    LiveKept(w, w');
  }

  lemma CheckHealthKeepsInv(w: World, id: nat, fate: Fate)
    requires Inv(w) && id in w.clients && w.clients[id].pc.CheckHealth?
    ensures Inv(StepCheckHealth(w, id, w.clients[id], fate))
  {
    var c := w.clients[id];
    ClientInOrder(w, id);
    LeaveOk(w.commits, w.now, c);
    QuietKeepsInv(w, id, Leave(c));
    QuietKeepsInv(w, id, Validated(c));
  }

  lemma LeaseClockKeepsInv(w: World, id: nat)
    requires Inv(w) && id in w.clients && w.clients[id].pc.LeaseClock?
    ensures Inv(SetClient(w, id, w.clients[id].(pc := LeasePut(w.now))))
  {
    var c := w.clients[id];
    ClientInOrder(w, id);
    QuietKeepsInv(w, id, c.(pc := LeasePut(w.now)));
  }

  lemma StepKeepsInv(w: World, id: nat, fate: Fate, stale: nat)
    requires Inv(w) && id in w.clients
    ensures Inv(Step(w, id, fate, stale))
  {
    match w.clients[id].pc
    case CheckLock => CheckLockKeepsInv(w, id, fate, stale);
    case ReadConfig(_) => ReadConfigKeepsInv(w, id, fate);
    case CreateConfig(_) => CreateConfigKeepsInv(w, id, fate);
    case CheckHealth => CheckHealthKeepsInv(w, id, fate);
    case CheckLease => CheckLockKeepsInv(w, id, fate, stale);
    case LeaseClock => LeaseClockKeepsInv(w, id);
    case LeasePut(_) => LeasePutKeepsInv(w, id, fate);
    case Transact => TransactKeepsInv(w, id, fate);
    case WriteHistory => WriteHistoryKeepsInv(w, id, fate);
    case PutConfig => PutConfigKeepsInv(w, id, fate);
    case Release => ReleaseKeepsInv(w, id, fate);
    case Holding => ReleaseKeepsInv(w, id, fate);
    case Done =>
  }

  lemma ConfiguredKeepsInv(w: World, cluster: string)
    requires Inv(w) && cluster != ""
    ensures Inv(Configured(w, cluster)) && Configured(w, cluster).table.config.Some?
  {
    if w.table.config.None? { CommitKeepsInv(w, PutItem(DefaultConfig(cluster)), Creation); }
  }

  lemma SyncKeepsInv(w: World, cluster: string)
    requires Inv(w) && cluster != ""
    ensures Inv(Synced(w, cluster))
  {
    ConfiguredKeepsInv(w, cluster);
    OtherRowsKeepInv(Configured(w, cluster), Synced(w, cluster));
  }

  /** Changes of the status rows and of the time only. */
  lemma OtherRowsKeepInv(w: World, w': World)
    requires Inv(w) && w.now <= w'.now && PrimaryInv(w')
    requires w' == w.(now := w'.now, table := w.table.(status := w'.table.status), decided := w'.decided,
               late := w'.late)
    ensures Inv(w')
  {
    ChainOnlyCommits(w, w');
    ClientsGrow(w, w');
    MovesKept(w, w');
    LiveKept(w, w');
  }

  lemma BeginKeepsInv(w: World, id: nat, op: Op, cluster: string)
    requires Inv(w) && id !in w.clients && cluster != ""
    ensures Inv(Next(w, Begin(id, op, cluster)))
  {
    var w' := Next(w, Begin(id, op, cluster));
    ClientsKept(w, w', id);
    ChainOnlyCommits(w, w');
    LiveKept(w, w');
    forall i | 0 <= i < |w.commits| ensures MoveOk(w', w.commits[i]) {
      assert MoveOk(w, w.commits[i]);
    }
    forall k | k in w'.clients && IsMove(w'.clients[k].op) && w'.clients[k].ok ensures HasMove(w'.commits, k) {
      assert HasMove(w.commits, k);
    }
  }

  lemma StatusEventKeepsInv(w: World, e: Event)
    requires Inv(w) && (e.ReadHeartbeat? || e.Decide? || e.WriteStatus? || e.Forget? || e.Report? || e.Tick?)
    ensures Inv(Next(w, e))
  {
    OtherRowsKeepInv(w, Next(w, e));
  }

  /** Every event keeps the invariant, whoever acts and whatever the store answers. */
  lemma NextKeepsInv(w: World, e: Event)
    requires Inv(w)
    ensures Inv(Next(w, e))
  {
    match e
    case Found(row) => if w.commits == [] && RowOk(row) && row.version == 2 { CommitKeepsInv(w, row, Creation); }
    case Begin(id, op, cluster) => if id !in w.clients && cluster != "" { BeginKeepsInv(w, id, op, cluster); }
    case Act(id, fate, stale) => if id in w.clients { StepKeepsInv(w, id, fate, stale); }
    case Sync(cluster) => if cluster != "" { SyncKeepsInv(w, cluster); }
    case ReadSync(id, cluster) =>
      if cluster != "" {
        ConfiguredKeepsInv(w, cluster);
        OtherRowsKeepInv(Configured(w, cluster), Next(w, e));
      }
    case _ => StatusEventKeepsInv(w, e);
  }

  /** In every interleaving of every length, the invariant holds. */
  lemma {:induction false} RunKeepsInv(w: World, es: seq<Event>)
    requires Inv(w)
    ensures Inv(Run(w, es))
  {
    if es != [] {
      RunKeepsInv(w, es[..|es| - 1]);
      NextKeepsInv(Run(w, es[..|es| - 1]), es[|es| - 1]);
    }
  }

  lemma InitInv()
    ensures Inv(Init())
  {
  }
}
