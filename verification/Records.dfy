/** The rows of the shared table that belong to one FailoverGroup, and the
    conditions under which the clients write them. */
module Records {

  datatype Option<+T> = None | Some(value: T)

  datatype Health = OK | DEGRADED | ERROR

  datatype State = PRIMARY | STANDBY | FAILOVER | FAILBACK

  /** How the store treats an access: as asked, done but reported as failed, not done. */
  datatype Fate = Ack | LostAck | Dropped

  /** The local clock counts nanoseconds; RFC 3339 strings in the rows keep whole seconds. */
  const NANOS: nat := 1_000_000_000

  /** The instant a time is stored as: formatting drops the fraction of the second. */
  function Seconds(t: nat): nat {
    t / NANOS
  }

  datatype FailoverRef = FailoverRef(name: nat, at: nat)

  datatype Timeouts = Timeouts(transitoryState: string, unhealthyPrimary: string, heartbeat: string)

  const DEFAULT_TIMEOUTS := Timeouts("5m", "2m", "1m")

  /** The CONFIG row, and the record a client unmarshals it into. An empty
      `previousOwner` stands for an absent attribute. */
  datatype GroupConfig = GroupConfig(
    owner: string,
    previousOwner: string,
    version: int,
    suspended: bool,
    suspensionReason: string,
    lastFailover: Option<FailoverRef>,
    timeouts: Timeouts,
    metadata: map<string, string>)

  /** The LOCK row: the lease token, and its expiry in whole seconds. */
  datatype LockRow = LockRow(token: nat, expiresAt: nat)

  datatype StatusRow = StatusRow(health: Health, state: State)

  datatype HistoryRow = HistoryRow(writer: nat, source: string, target: string)

  datatype Table = Table(
    config: Option<GroupConfig>,
    lock: Option<LockRow>,
    status: map<string, StatusRow>,
    history: map<nat, HistoryRow>)

  const EMPTY_TABLE := Table(None, None, map[], map[])

  /** What unmarshalDynamoDBItem makes of a CONFIG row: it never reads the last
      failover or the metadata, and replaces the timeouts by the defaults. */
  function Unmarshal(row: GroupConfig): GroupConfig {
    row.(lastFailover := None, timeouts := DEFAULT_TIMEOUTS, metadata := map[])
  }

  /** The record GetGroupConfig stores when there is no CONFIG row. */
  function DefaultConfig(cluster: string): GroupConfig {
    GroupConfig(cluster, "", 1, false, "", None, DEFAULT_TIMEOUTS, map[])
  }

  /** A record whose version was raised in memory. */
  function Raised(rec: GroupConfig, raises: nat): GroupConfig {
    rec.(version := rec.version + raises)
  }

  /** The item UpdateGroupConfig puts for a record: its version, raised by one. */
  function PutItem(rec: GroupConfig): GroupConfig {
    rec.(version := rec.version + 1)
  }

  /** The condition of that put: no row, or a row at the version before the raise. */
  predicate PutAllowed(row: Option<GroupConfig>, rec: GroupConfig) {
    row.None? || row.value.version == rec.version
  }

  /** The condition of both ownership transactions. */
  predicate TransactAllowed(row: Option<GroupConfig>, source: string, version: int) {
    row.Some? && row.value.owner == source && row.value.version == version
  }

  /** The CONFIG row an ownership transaction leaves. */
  function Transferred(row: GroupConfig, source: string, target: string, back: bool, version: int): GroupConfig {
    row.(owner := target, previousOwner := if back then "" else source, version := version + 1)
  }

  /** How long a lease lasts, in seconds. */
  const LEASE: nat := 600

  /** The condition of AcquireLock's put, with the clock captured before it. */
  predicate LockAllowed(lock: Option<LockRow>, now: nat) {
    lock.None? || lock.value.expiresAt < Seconds(now)
  }

  /** IsLocked's verdict on a LOCK row: present, and the clock not after its expiry. */
  predicate LooksLocked(lock: Option<LockRow>, now: nat) {
    lock.Some? && now <= lock.value.expiresAt * NANOS
  }

  /** The expiry AcquireLock stores for a clock captured at `now`. */
  function Expiry(now: nat): nat {
    Seconds(now) + LEASE
  }

  predicate NoRepeats(names: seq<string>) {
    forall i, j :: 0 <= i < j < |names| ==> names[i] != names[j]
  }

  /** A stored CONFIG row names two different clusters and was put at least once. */
  predicate RowOk(row: GroupConfig) {
    row.owner != row.previousOwner && row.version >= 2
  }
}
