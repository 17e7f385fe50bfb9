/** The coordination protocol as a state machine.

    Any number of callers run the operations of the DynamoDB managers against one
    table. Every store access and every clock reading is a step of its own, steps of
    different callers interleave freely, any access may fail, and a write may take
    effect although its caller is told that it failed. */
module Protocol {
  import opened Records

  /** What a caller runs. `Lock` takes the lease by itself and keeps its token, to
      release it whenever it likes and as often as it likes (the tasks of a workflow);
      `Rewrite` reads the record and puts it back (RemoveVolumeState); `Inspect` only
      reads it (GetGroupConfig). */
  datatype Op = Failover(target: string, force: bool) | Failback | Lock | Rewrite | Inspect

  /** Why a caller reads the CONFIG row. */
  datatype Point = Validate | Source | Transaction | History | Update | Read

  /** A caller's next step. */
  datatype Pc =
    | CheckLock                 // IsLocked, called by ValidateFailoverPreconditions
    | ReadConfig(at: Point)     // GetGroupConfig: the read
    | CreateConfig(at: Point)   // GetGroupConfig: no row was found, put the default
    | CheckHealth               // GetClusterStatus of the target
    | CheckLease                // IsLocked, called by AcquireLock
    | LeaseClock                // AcquireLock captures the clock
    | LeasePut(now: nat)        // AcquireLock's conditional put
    | Transact                  // the ownership transaction
    | WriteHistory              // recordFailoverEvent's put
    | PutConfig                 // UpdateGroupConfig's conditional put
    | Release                   // the deferred ReleaseLock
    | Holding                   // has a token; its next step is another ReleaseLock
    | Done

  /** Where ownership is to move, and the version of the record that was decided on. */
  datatype Route = Route(source: string, target: string, seen: int)

  datatype Lease = NoLease | Held(expiresAt: nat) | Returned

  datatype Client = Client(
    op: Op, cluster: string, start: nat, pc: Pc,
    route: Option<Route>, rec: Option<GroupConfig>, lease: Lease, ok: bool)

  datatype Origin = Creation | Rewritten(id: nat) | Moved(id: nat, source: string, target: string)

  /** A committed value of the CONFIG row, and the write that put it there. */
  datatype Commit = Commit(row: GroupConfig, origin: Origin)

  /** A status row that a writer has decided on and not written yet. */
  datatype Decision = Decision(cluster: string, row: StatusRow)

  datatype World = World(
    now: nat,
    table: Table,
    clients: map<nat, Client>,
    locks: seq<Option<LockRow>>,  // every value the LOCK row has had
    lastLease: nat,               // when the LOCK row was last put
    commits: seq<Commit>,         // every value the CONFIG row has had
    decided: map<nat, Decision>,  // status writes that are under way
    late: set<string>)            // status rows last put by such a write

  datatype Event =
    | Found(config: GroupConfig)                                  // a row from before, suspended or not
    | Begin(id: nat, op: Op, cluster: string)
    | Act(id: nat, fate: Fate, stale: nat)
    | Sync(cluster: string)                                       // SyncClusterState in one step
    | ReadSync(id: nat, cluster: string)                          // its read and its decision
    | ReadHeartbeat(id: nat, cluster: string, failed: bool)       // those of UpdateHeartbeat
    | Decide(id: nat, cluster: string, row: StatusRow)            // those of a view or a task
    | WriteStatus(id: nat)                                        // UpdateClusterStatus of a decision
    | Forget(cluster: string)                                     // RemoveClusterStatus
    | Report(cluster: string, health: Health)
    | Tick(d: nat)

  function Init(): World {
    World(0, EMPTY_TABLE, map[], [None], 0, [], map[], {})
  }

  // ---- callers ----

  predicate IsMove(op: Op) {
    op.Failover? || op.Failback?
  }

  function FirstStep(op: Op): Pc {
    match op
    case Failover(_, _) => CheckLock
    case Failback => ReadConfig(Source)
    case Lock => CheckLease
    case Rewrite => ReadConfig(Update)
    case Inspect => ReadConfig(Read)
  }

  /** An operation that gives up returns its lease first, if it has one. */
  function Leave(c: Client): Client {
    c.(pc := if c.lease.Held? then Release else Done)
  }

  /** The cluster whose health ValidateFailoverPreconditions asks for. */
  function Target(c: Client): string {
    if c.op.Failover? then c.op.target else if c.route.Some? then c.route.value.target else ""
  }

  /** A caller with a new lease. */
  function Granted(c: Client, expiresAt: nat): Client {
    c.(lease := Held(expiresAt), pc := if c.op.Lock? then Holding else ReadConfig(Transaction))
  }

  /** A caller after its ReleaseLock, whatever came of it. */
  function Released(c: Client): Client {
    if c.pc.Holding? then c else c.(pc := Done)
  }

  function Validated(c: Client): Client {
    c.(pc := if c.op.Failover? then ReadConfig(Source) else CheckLease)
  }

  /** What a caller does with the record it has just read. */
  function Use(c: Client, at: Point, rec: GroupConfig): Client {
    match at
    case Validate =>
      if rec.suspended then Leave(c)
      else if c.op.Failover? && c.op.force then Validated(c)
      else c.(pc := CheckHealth)
    case Source =>
      if c.op.Failover? then
        if rec.owner == c.op.target then Leave(c)
        else c.(route := Some(Route(rec.owner, c.op.target, rec.version)), pc := CheckLease)
      else
        if rec.previousOwner == "" then Leave(c)
        else c.(route := Some(Route(rec.owner, rec.previousOwner, rec.version)), pc := CheckLock)
    case Transaction => c.(rec := Some(rec), pc := Transact)
    case History => c.(rec := Some(rec), pc := PutConfig)
    case Update => c.(rec := Some(rec), pc := PutConfig)
    case Read => c.(pc := Done)
  }

  // ---- writes ----

  function SetClient(w: World, id: nat, c: Client): World {
    w.(clients := w.clients[id := c])
  }

  function CommitRow(w: World, row: GroupConfig, origin: Origin): World {
    w.(table := w.table.(config := Some(row)), commits := w.commits + [Commit(row, origin)])
  }

  function SetLock(w: World, lock: Option<LockRow>): World {
    w.(table := w.table.(lock := lock), locks := w.locks + [lock])
  }

  function HealthOf(status: map<string, StatusRow>, cluster: string): Health {
    if cluster in status then status[cluster].health else OK
  }

  /** The row an ownership transaction leaves: an update of the row that is there. */
  function MovedRow(row: GroupConfig, op: Op, route: Route, version: int, ref: FailoverRef): GroupConfig {
    Transferred(row, route.source, route.target, op.Failback?, version).(lastFailover := Some(ref))
  }

  /** The status rows an ownership transaction leaves. */
  function MovedStatus(status: map<string, StatusRow>, op: Op, route: Route): map<string, StatusRow> {
    var left := if op.Failback? then FAILBACK else FAILOVER;
    status[route.source := StatusRow(HealthOf(status, route.source), left)]
      [route.target := StatusRow(HealthOf(status, route.target), PRIMARY)]
  }

  /** The record a caller hands to UpdateGroupConfig. */
  function Edited(c: Client, id: nat, rec: GroupConfig): GroupConfig {
    if IsMove(c.op) then rec.(lastFailover := Some(FailoverRef(id, c.start))) else rec
  }

  /** GetGroupConfig in one step: the row is there afterwards. */
  function Configured(w: World, cluster: string): World {
    if w.table.config.None? then CommitRow(w, PutItem(DefaultConfig(cluster)), Creation) else w
  }

  /** The row SyncClusterState decides on. */
  function SyncRow(owner: string, cluster: string): StatusRow {
    StatusRow(OK, if owner == cluster then PRIMARY else STANDBY)
  }

  /** The row UpdateHeartbeat decides on: the one it read, or a PRIMARY one if there was
      none or the read failed. */
  function HeartbeatRow(status: map<string, StatusRow>, cluster: string, failed: bool): StatusRow {
    if !failed && cluster in status then status[cluster] else StatusRow(OK, PRIMARY)
  }

  /** SyncClusterState in one step: read or create the config, then write the role. */
  function Synced(w: World, cluster: string): World {
    var w := Configured(w, cluster);
    var row := SyncRow(w.table.config.value.owner, cluster);
    w.(table := w.table.(status := w.table.status[cluster := row]), late := w.late - {cluster})
  }

  function Decided(w: World, id: nat, cluster: string, row: StatusRow): World {
    w.(decided := w.decided[id := Decision(cluster, row)])
  }

  /** UpdateClusterStatus of what was decided earlier. */
  function Written(w: World, d: Decision): World {
    w.(table := w.table.(status := w.table.status[d.cluster := d.row]), late := w.late + {d.cluster})
  }

  // ---- steps ----

  function PastLock(w: World, i: nat): Option<LockRow> {
    if i < |w.locks| then w.locks[i] else w.table.lock
  }

  function StepCheckLock(w: World, id: nat, c: Client, fate: Fate, stale: nat): World {
    if fate != Ack || LooksLocked(PastLock(w, stale), w.now) then SetClient(w, id, Leave(c))
    else if c.pc.CheckLease? then SetClient(w, id, c.(pc := LeaseClock))
    else SetClient(w, id, c.(pc := ReadConfig(Validate)))
  }

  function StepReadConfig(w: World, id: nat, c: Client, fate: Fate): World
    requires c.pc.ReadConfig?
  {
    if fate != Ack then SetClient(w, id, Leave(c))
    else if w.table.config.None? then SetClient(w, id, c.(pc := CreateConfig(c.pc.at)))
    else SetClient(w, id, Use(c, c.pc.at, Unmarshal(w.table.config.value)))
  }

  function StepCreateConfig(w: World, id: nat, c: Client, fate: Fate): World
    requires c.pc.CreateConfig?
  {
    var rec := DefaultConfig(c.cluster);
    if fate == Dropped || !PutAllowed(w.table.config, rec) then SetClient(w, id, Leave(c))
    else
      var w' := CommitRow(w, PutItem(rec), Creation);
      SetClient(w', id, if fate == Ack then Use(c, c.pc.at, PutItem(rec)) else Leave(c))
  }

  function StepCheckHealth(w: World, id: nat, c: Client, fate: Fate): World {
    if fate == Ack && Target(c) in w.table.status && w.table.status[Target(c)].health == OK
    then SetClient(w, id, Validated(c))
    else SetClient(w, id, Leave(c))
  }

  function StepLeasePut(w: World, id: nat, c: Client, fate: Fate): World
    requires c.pc.LeasePut?
  {
    if fate == Dropped || !LockAllowed(w.table.lock, c.pc.now) then SetClient(w, id, Leave(c))
    else
      var e := Expiry(c.pc.now);
      var w' := SetLock(w, Some(LockRow(id, e))).(lastLease := w.now);
      SetClient(w', id, if fate == Ack then Granted(c, e) else Leave(c))
  }

  function StepTransact(w: World, id: nat, c: Client, fate: Fate): World {
    if c.route.None? || c.rec.None? || fate == Dropped
       || !TransactAllowed(w.table.config, c.route.value.source, c.rec.value.version)
    then SetClient(w, id, c.(pc := Release))
    else
      var r := c.route.value;
      var row := MovedRow(w.table.config.value, c.op, r, c.rec.value.version, FailoverRef(id, c.start));
      var w' := CommitRow(w, row, Moved(id, r.source, r.target));
      var w' := w'.(table := w'.table.(status := MovedStatus(w.table.status, c.op, r)),
            late := w.late - {r.source, r.target});
      SetClient(w', id, if fate == Ack then c.(ok := true, pc := WriteHistory) else c.(pc := Release))
  }

  function StepWriteHistory(w: World, id: nat, c: Client, fate: Fate): World {
    var r := if c.route.Some? then c.route.value else Route("", "", 0);
    var w' := if fate == Dropped then w
              else
                var row := HistoryRow(id, r.source, r.target);
                w.(table := w.table.(history := w.table.history[Seconds(c.start) := row]));
    SetClient(w', id, c.(pc := if fate == Ack then ReadConfig(History) else Release))
  }

  function StepPutConfig(w: World, id: nat, c: Client, fate: Fate): World {
    if c.rec.None? || fate == Dropped || !PutAllowed(w.table.config, c.rec.value)
    then SetClient(w, id, Leave(c))
    else
      var w' := CommitRow(w, PutItem(Edited(c, id, c.rec.value)), Rewritten(id));
      SetClient(w', id, Leave(c.(ok := c.ok || fate == Ack)))
  }

  function StepRelease(w: World, id: nat, c: Client, fate: Fate): World {
    if fate == Dropped || w.table.lock.None? || w.table.lock.value.token != id
    then SetClient(w, id, Released(c))
    else SetClient(SetLock(w, None), id, Released(c).(lease := Returned))
  }

  /** One step of caller `id`. */
  function Step(w: World, id: nat, fate: Fate, stale: nat): World
    requires id in w.clients
  {
    var c := w.clients[id];
    match c.pc
    case CheckLock => StepCheckLock(w, id, c, fate, stale)
    case ReadConfig(_) => StepReadConfig(w, id, c, fate)
    case CreateConfig(_) => StepCreateConfig(w, id, c, fate)
    case CheckHealth => StepCheckHealth(w, id, c, fate)
    case CheckLease => StepCheckLock(w, id, c, fate, stale)
    case LeaseClock => SetClient(w, id, c.(pc := LeasePut(w.now)))
    case LeasePut(_) => StepLeasePut(w, id, c, fate)
    case Transact => StepTransact(w, id, c, fate)
    case WriteHistory => StepWriteHistory(w, id, c, fate)
    case PutConfig => StepPutConfig(w, id, c, fate)
    case Release => StepRelease(w, id, c, fate)
    case Holding => StepRelease(w, id, c, fate)
    case Done => w
  }

  /** The machine: an event that is not possible leaves the world alone. */
  function Next(w: World, e: Event): World {
    match e
    case Found(row) => if w.commits == [] && RowOk(row) && row.version == 2 then CommitRow(w, row, Creation) else w
    case Begin(id, op, cluster) =>
      if id in w.clients || cluster == "" then w
      else SetClient(w, id, Client(op, cluster, w.now, FirstStep(op), None, None, NoLease, false))
    case Act(id, fate, stale) => if id in w.clients then Step(w, id, fate, stale) else w
    case Sync(cluster) => if cluster == "" then w else Synced(w, cluster)
    case ReadSync(id, cluster) =>
      if cluster == "" then w
      else
        var w := Configured(w, cluster);
        Decided(w, id, cluster, SyncRow(w.table.config.value.owner, cluster))
    case ReadHeartbeat(id, cluster, failed) => Decided(w, id, cluster, HeartbeatRow(w.table.status, cluster, failed))
    case Decide(id, cluster, row) => Decided(w, id, cluster, row)
    case WriteStatus(id) =>
      if id in w.decided then Written(w, w.decided[id]).(decided := w.decided - {id}) else w
    case Forget(cluster) => w.(table := w.table.(status := w.table.status - {cluster}), late := w.late - {cluster})
    case Report(cluster, health) =>
      if cluster in w.table.status
      then w.(table := w.table.(status := w.table.status[cluster := w.table.status[cluster].(health := health)]))
      else w
    case Tick(d) => w.(now := w.now + d)
  }

  /** The world after a run: any events, in any order. */
  function Run(w: World, es: seq<Event>): World {
    if es == [] then w else Next(Run(w, es[..|es| - 1]), es[|es| - 1])
  }
}
