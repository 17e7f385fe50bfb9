/** Every writer of the CONFIG row, including the ones that raise the version twice,
    the forced write without a condition, and deletion. */
module ConfigWriters {
  import opened Records

  /** What a writer changes of the record it read, before it hands it to
      UpdateGroupConfig. */
  datatype Edit =
    | Keep                                      // UpdateGroupState, RemoveVolumeState
    | Reference(ref: FailoverRef)               // recordFailoverEvent
    | Suspend(suspended: bool, reason: string)  // UpdateSuspension
    | Transfer(newOwner: string)                // transferOwnership

  function Apply(rec: GroupConfig, edit: Edit): GroupConfig {
    match edit
    case Keep => rec
    case Reference(ref) => rec.(lastFailover := Some(ref))
    case Suspend(suspended, reason) => rec.(suspended := suspended, suspensionReason := reason)
    case Transfer(newOwner) => rec.(owner := newOwner, previousOwner := rec.owner)
  }

  /** transferOwnership's update without a condition: it keeps the other attributes of a
      row, and makes up a row that has no others when there is none. */
  function Forced(row: Option<GroupConfig>, rec: GroupConfig, newOwner: string): GroupConfig {
    var row := if row.Some? then row.value else DefaultConfig(newOwner);
    row.(owner := newOwner, previousOwner := rec.owner, version := rec.version + 3)
  }

  // ---- all writers at once ----

  /** What a writer holds: nothing but the wish to create the row; the record it read,
      after `seen` commits, whose version updates in memory have raised `raised` times; or
      the record of a transfer that was refused. A transfer whose put took effect is refused
      too if the acknowledgement was lost, since the client tries again and meets its own
      effect; one that fails otherwise is never forced, which the machine leaves open. */
  datatype Pending =
    | Missing(cluster: string)
    | Holding(rec: GroupConfig, seen: nat, raised: nat)
    | Refused(rec: GroupConfig, newOwner: string)

  datatype Cell = Cell(row: Option<GroupConfig>, commits: nat, writers: map<nat, Pending>)

  datatype Access =
    | Read(id: nat, cluster: string)
    | Create(id: nat, fate: Fate)
    // an update by the record of `id`, which others share: it raises it, and its put is `call`'s
    | Share(id: nat, call: nat)
    | Put(id: nat, edit: Edit, raises: nat, fate: Fate)
    | Move(id: nat, source: string, target: string, back: bool, fate: Fate)
    | Force(id: nat, fate: Fate)
    | Delete

  const EMPTY_CELL := Cell(None, 0, map[])

  function Commit(s: Cell, row: GroupConfig): Cell {
    s.(row := Some(row), commits := s.commits + 1)
  }

  function Hold(s: Cell, id: nat, p: Pending): Cell {
    s.(writers := s.writers[id := p])
  }

  function Drop(s: Cell, id: nat): Cell {
    s.(writers := s.writers - {id})
  }

  /** The cell after a guarded write: whether it is done, and whether its writer is told so. */
  function AfterPut(s: Cell, id: nat, rec: GroupConfig, edit: Edit, raises: nat, fate: Fate): Cell {
    if edit.Transfer? && edit.newOwner == rec.owner then Drop(s, id)
    else
      var done := fate != Dropped && PutAllowed(s.row, Raised(rec, raises));
      var s' := if done then Commit(s, PutItem(Raised(Apply(rec, edit), raises))) else s;
      if edit.Transfer? && !(done && fate == Ack) then Hold(s', id, Refused(rec, edit.newOwner)) else Drop(s', id)
  }

  function AfterMove(s: Cell, id: nat, rec: GroupConfig, source: string, target: string, back: bool): Cell {
    if source != target && (back ==> target != "") && TransactAllowed(s.row, source, rec.version)
    then Drop(Commit(s, Transferred(s.row.value, source, target, back, rec.version)), id)
    else Drop(s, id)
  }

  function AfterCreate(s: Cell, id: nat, cluster: string, fate: Fate): Cell {
    if fate == Dropped || !PutAllowed(s.row, DefaultConfig(cluster)) then s
    else
      var row := PutItem(DefaultConfig(cluster));
      if fate == Ack then Hold(Commit(s, row), id, Holding(row, s.commits + 1, 0)) else Drop(Commit(s, row), id)
  }

  function Next(s: Cell, a: Access): Cell {
    match a
    case Read(id, cluster) =>
      if s.row.Some? then Hold(s, id, Holding(Unmarshal(s.row.value), s.commits, 0))
      else if cluster == "" then s else Hold(s, id, Missing(cluster))
    case Create(id, fate) =>
      if id in s.writers && s.writers[id].Missing? then AfterCreate(s, id, s.writers[id].cluster, fate) else s
    case Share(id, call) =>
      if id in s.writers && s.writers[id].Holding? && call !in s.writers then
        var p := s.writers[id];
        Hold(Hold(s, call, p), id, Holding(Raised(p.rec, 1), p.seen, p.raised + 1))
      else s
    case Put(id, edit, raises, fate) =>
      if id in s.writers && s.writers[id].Holding? then AfterPut(s, id, s.writers[id].rec, edit, raises, fate) else s
    case Move(id, source, target, back, fate) =>
      if id in s.writers && s.writers[id].Holding? then
        if fate == Dropped then Drop(s, id) else AfterMove(s, id, s.writers[id].rec, source, target, back)
      else s
    case Force(id, fate) =>
      if id in s.writers && s.writers[id].Refused? && fate != Dropped
      then Drop(Commit(s, Forced(s.row, s.writers[id].rec, s.writers[id].newOwner)), id) else s
    case Delete => s.(row := None)
  }

  function Run(s: Cell, accesses: seq<Access>): Cell {
    if accesses == [] then s else Next(Run(s, accesses[..|accesses| - 1]), accesses[|accesses| - 1])
  }

  predicate PendingOk(p: Pending) {
    match p
    case Missing(cluster) => cluster != ""
    case Holding(rec, _, _) => RowOk(rec)
    case Refused(rec, newOwner) => RowOk(rec) && newOwner != rec.owner
  }

  ghost predicate CellInv(s: Cell) {
    (s.row.Some? ==> RowOk(s.row.value)) && forall id :: id in s.writers ==> PendingOk(s.writers[id])
  }

  lemma NextKeepsCellInv(s: Cell, a: Access)
    requires CellInv(s)
    ensures CellInv(Next(s, a))
  {
  }

  /** Whoever writes, forced writes and deletions included: a stored row names two
      different clusters and has version at least 2. */
  lemma {:induction false} StoredRowIsOk(accesses: seq<Access>)
    ensures CellInv(Run(EMPTY_CELL, accesses))
  {
    if accesses != [] {
      StoredRowIsOk(accesses[..|accesses| - 1]);
      NextKeepsCellInv(Run(EMPTY_CELL, accesses[..|accesses| - 1]), accesses[|accesses| - 1]);
    }
  }

  /** Hence default creation changes the row exactly when there is none. */
  lemma CreationNeverOverwrites(accesses: seq<Access>, id: nat, fate: Fate)
    requires var s := Run(EMPTY_CELL, accesses); id in s.writers && s.writers[id].Missing?
    ensures var s := Run(EMPTY_CELL, accesses);
            && (s.row.Some? ==> Next(s, Create(id, fate)).row == s.row)
            && (s.row.None? && fate != Dropped ==>
                  Next(s, Create(id, fate)).row == Some(PutItem(DefaultConfig(s.writers[id].cluster))))
  {
    StoredRowIsOk(accesses);
  }

  // ---- the version as a count of commits ----

  /** A run without forced writes and deletions. */
  predicate Guarded(accesses: seq<Access>) {
    forall a :: a in accesses ==> !a.Force? && !a.Delete?
  }

  ghost predicate CountInv(s: Cell) {
    && (s.row.None? <==> s.commits == 0)
    && (s.row.Some? ==> s.row.value.version == s.commits + 1)
    && (forall id :: id in s.writers && s.writers[id].Holding? ==>
          0 < s.writers[id].seen <= s.commits
          && s.writers[id].rec.version == s.writers[id].seen + 1 + s.writers[id].raised)
  }

  lemma NextKeepsCount(s: Cell, a: Access)
    requires CountInv(s) && !a.Force? && !a.Delete?
    ensures CountInv(Next(s, a))
  {
  }

  lemma {:induction false} VersionCountsCommits(accesses: seq<Access>)
    requires Guarded(accesses)
    ensures CountInv(Run(EMPTY_CELL, accesses))
  {
    if accesses != [] {
      var n := |accesses| - 1;
      assert accesses[n] in accesses;
      assert forall a :: a in accesses[..n] ==> a in accesses;
      VersionCountsCommits(accesses[..n]);
      NextKeepsCount(Run(EMPTY_CELL, accesses[..n]), accesses[n]);
    }
  }

  /** Without forced writes and deletions, a put goes through if and only if exactly as
      many commits happened since its read as the version of its record was raised: by
      earlier updates through the same record, and `raises` times by the writer itself,
      which is never for a correct writer and once for UpdateSuspension, UpdateGroupState
      and transferOwnership. */
  lemma PutSucceedsIff(accesses: seq<Access>, id: nat, edit: Edit, raises: nat, fate: Fate)
    requires Guarded(accesses) && fate != Dropped
    requires var s := Run(EMPTY_CELL, accesses); id in s.writers && s.writers[id].Holding?
    requires edit.Transfer? ==> edit.newOwner != Run(EMPTY_CELL, accesses).writers[id].rec.owner
    ensures var s := Run(EMPTY_CELL, accesses);
            var s' := Next(s, Put(id, edit, raises, fate));
            && (s'.commits == s.commits + 1 <==> s.commits == s.writers[id].seen + s.writers[id].raised + raises)
            && (s'.commits == s.commits ==> s'.row == s.row)
            && (s'.commits == s.commits || s'.commits == s.commits + 1)
  {
    VersionCountsCommits(accesses);
  }

  /** An update through a shared record, such as a cached one: after n refused updates by
      that record it goes through if and only if n commits happened since the record was
      read, and then the owners are those of that read again. */
  lemma {:induction false} SharedUpdateSucceedsIff(accesses: seq<Access>, id: nat, call: nat)
    requires Guarded(accesses)
    requires var s := Run(EMPTY_CELL, accesses); id in s.writers && s.writers[id].Holding? && call !in s.writers
    ensures var s := Run(EMPTY_CELL, accesses);
            var s' := Next(Next(s, Share(id, call)), Put(call, Keep, 0, Ack));
            && (s'.commits == s.commits + 1 <==> s.commits == s.writers[id].seen + s.writers[id].raised)
            && (if s'.commits == s.commits then s'.row == s.row
                else s'.row.Some? && s'.row.value.owner == s.writers[id].rec.owner
                     && s'.row.value.previousOwner == s.writers[id].rec.previousOwner)
            && id in s'.writers && s'.writers[id].Holding? && s'.writers[id].raised == s.writers[id].raised + 1
  {
    VersionCountsCommits(accesses);
  }

  /** And when a suspension goes through, it undoes the commit it has not seen: the
      owners are again those of its read. */
  lemma DoubleRaiseUndoesACommit(accesses: seq<Access>, id: nat, suspended: bool, reason: string)
    requires Guarded(accesses)
    requires var s := Run(EMPTY_CELL, accesses);
             id in s.writers && s.writers[id].Holding? && s.commits == s.writers[id].seen + s.writers[id].raised + 1
    ensures var s := Run(EMPTY_CELL, accesses);
            var s' := Next(s, Put(id, Suspend(suspended, reason), 1, Ack));
            && s.row.Some? && s'.row.Some? && s'.row.value.version == s.row.value.version + 1
            && s'.row.value.owner == s.writers[id].rec.owner
            && s'.row.value.previousOwner == s.writers[id].rec.previousOwner
            && s'.row.value.suspended == suspended
  {
    VersionCountsCommits(accesses);
  }

  lemma RunSnoc(s: Cell, accesses: seq<Access>, a: Access)
    ensures Run(s, accesses + [a]) == Next(Run(s, accesses), a)
  {
    assert (accesses + [a])[..|accesses|] == accesses;
  }

  /** A group that writer 0 created, and whose row both writers hold. */
  lemma BothHold() returns (accesses: seq<Access>)
    ensures var row := PutItem(DefaultConfig("a"));
            Run(EMPTY_CELL, accesses) == Cell(Some(row), 1, map[0 := Holding(row, 1, 0), 1 := Holding(row, 1, 0)])
  {
    accesses := [] + [Read(0, "a")];
    RunSnoc(EMPTY_CELL, [], Read(0, "a"));
    assert Run(EMPTY_CELL, accesses) == Cell(None, 0, map[0 := Missing("a")]);
    RunSnoc(EMPTY_CELL, accesses, Create(0, Ack));
    accesses := accesses + [Create(0, Ack)];
    RunSnoc(EMPTY_CELL, accesses, Read(1, "a"));
    accesses := accesses + [Read(1, "a")];
  }

  /** One such run: a suspension that overlaps a failover hands the group back to the
      cluster the failover took it from, at the next version. */
  lemma SuspensionRevertsAFailover() returns (accesses: seq<Access>)
    ensures |accesses| > 0 && accesses[|accesses| - 1] == Put(1, Suspend(true, ""), 1, Ack)
    ensures var before, after := Run(EMPTY_CELL, accesses[..|accesses| - 1]).row, Run(EMPTY_CELL, accesses).row;
            && before.Some? && before.value.owner == "b"
            && after.Some? && after.value.owner == "a" && after.value.version == before.value.version + 1
  {
    accesses := BothHold();
    var move, put := Move(0, "a", "b", false, Ack), Put(1, Suspend(true, ""), 1, Ack);
    RunSnoc(EMPTY_CELL, accesses, move);
    accesses := accesses + [move];
    RunSnoc(EMPTY_CELL, accesses, put);
    assert (accesses + [put])[..|accesses|] == accesses;
    accesses := accesses + [put];
  }

  /** The writers of the machine, each by itself on a row that it reads: what the methods
      below do. */
  lemma WritersAlone(row: GroupConfig, cluster: string, ref: FailoverRef, suspended: bool, reason: string,
                     newOwner: string)
    requires newOwner != row.owner
    ensures var s := Next(Cell(Some(row), 1, map[]), Read(0, cluster));
            var read := row.(lastFailover := None, timeouts := DEFAULT_TIMEOUTS, metadata := map[]);
            && Next(s, Put(0, Keep, 0, Ack)).row == Some(read.(version := row.version + 1))
            && Next(s, Put(0, Reference(ref), 0, Ack)).row
               == Some(read.(version := row.version + 1, lastFailover := Some(ref)))
            && Next(s, Put(0, Suspend(suspended, reason), 1, Ack)).row == Some(row)
            && Next(s, Put(0, Transfer(newOwner), 1, Ack)).row == Some(row)
            && Next(Next(s, Put(0, Transfer(newOwner), 1, Ack)), Force(0, Ack)).row
               == Some(row.(owner := newOwner, previousOwner := row.owner, version := row.version + 3))
  {
    var s := Next(Cell(Some(row), 1, map[]), Read(0, cluster));
    assert s.writers[0] == Holding(Unmarshal(row), 1, 0);
  }

  /** A transfer that is forced after the row was deleted makes up a row with nothing but the
      owners and the version. */
  lemma ForcedAfterDeletion(row: GroupConfig, cluster: string, newOwner: string)
    requires newOwner != row.owner
    ensures var s := Next(Cell(Some(row), 1, map[]), Read(0, cluster));
            Next(Next(Next(s, Put(0, Transfer(newOwner), 1, Ack)), Delete), Force(0, Ack)).row
            == Some(GroupConfig(newOwner, row.owner, row.version + 3, false, "", None, DEFAULT_TIMEOUTS, map[]))
  {
    var s := Next(Cell(Some(row), 1, map[]), Read(0, cluster));
    assert s.writers[0] == Holding(Unmarshal(row), 1, 0);
  }

  /** A transfer of which the put took effect, over a commit it had not seen, but lost its
      acknowledgement, puts its owners twice. */
  lemma TransferMeetsItself(row: GroupConfig, other: GroupConfig, newOwner: string)
    requires newOwner != row.owner && other.version == row.version + 1
    ensures var s := Next(Cell(Some(row), 1, map[]), Read(0, ""));
            var s1 := Next(s.(row := Some(other)), Put(0, Transfer(newOwner), 1, LostAck));
            var s2 := Next(s1, Force(0, Ack));
            && s1.row.Some? && s1.row.value.owner == newOwner && s1.row.value.version == row.version + 2
            && s2.row == Some(s1.row.value.(version := row.version + 3))
  {
    var s := Next(Cell(Some(row), 1, map[]), Read(0, ""));
    assert s.writers[0] == Holding(Unmarshal(row), 1, 0);
  }

  // ---- one writer at a time ----

  class ConfigStore {
    var row: Option<GroupConfig>

    /** GetGroupConfig with nobody else writing: it always has a row to return. */
    method GetGroupConfig(cluster: string) returns (config: GroupConfig)
      modifies this
      ensures row == Some(if old(row).Some? then old(row).value else PutItem(DefaultConfig(cluster)))
      ensures config == Unmarshal(row.value)
    {
      if row.None? {
        config := DefaultConfig(cluster);
        var ok;
        config, ok := UpdateGroupConfig(config);
        return;
      }
      config := Unmarshal(row.value);
    }

    /** UpdateGroupConfig: it raises the version of the record it is given, also when
        the put is refused. */
    method UpdateGroupConfig(config: GroupConfig) returns (config': GroupConfig, ok: bool)
      modifies this
      ensures config' == PutItem(config)
      ensures ok <==> PutAllowed(old(row), config)
      ensures row == if ok then Some(config') else old(row)
    {
      var originalVersion := config.version;
      config' := config.(version := config.version + 1);
      ok := row.None? || row.value.version == originalVersion;
      if ok {
        row := Some(config');
      }
    }

    /** UpdateSuspension, undisturbed, is refused on every row: its guard asks for the
        version after the one it read. */
    method UpdateSuspension(cluster: string, suspended: bool, reason: string) returns (ok: bool)
      modifies this
      ensures !ok
      ensures row == Some(if old(row).Some? then old(row).value else PutItem(DefaultConfig(cluster)))
    {
      var config := GetGroupConfig(cluster);
      config := config.(suspended := suspended, suspensionReason := reason, version := config.version + 1);
      config, ok := UpdateGroupConfig(config);
    }

    /** transferOwnership, undisturbed: its first put is always refused, and the forced
        write that follows raises the version by three. */
    method TransferOwnership(cluster: string, newOwner: string)
      modifies this
      ensures row.Some? && row.value.owner == newOwner
      ensures var before := if old(row).Some? then old(row).value else PutItem(DefaultConfig(cluster));
              row.value == if before.owner == newOwner then before
                           else before.(owner := newOwner, previousOwner := before.owner, version := before.version + 3)
    {
      var config := GetGroupConfig(cluster);
      if config.owner == newOwner {
        return;
      }
      var previousOwner := config.owner;
      config := config.(previousOwner := previousOwner, owner := newOwner, version := config.version + 1);
      var ok;
      config, ok := UpdateGroupConfig(config);
      if !ok {
        row := Some(row.value.(owner := newOwner, previousOwner := previousOwner, version := config.version + 1));
      }
    }

    /** RemoveVolumeState, undisturbed, goes through: it raises the version once. */
    method RemoveVolumeState(cluster: string) returns (ok: bool)
      modifies this
      ensures ok
      ensures var before := if old(row).Some? then old(row).value else PutItem(DefaultConfig(cluster));
              row == Some(PutItem(Unmarshal(before)))
    {
      var config := GetGroupConfig(cluster);
      config, ok := UpdateGroupConfig(config);
    }
  }

  /** Reading a row and putting it back keeps it, version aside, exactly when it has
      nothing that a read drops. */
  lemma RewriteKeepsRowIff(row: GroupConfig)
    ensures PutItem(Unmarshal(row)).(version := row.version) == row
       <==> row.lastFailover.None? && row.timeouts == DEFAULT_TIMEOUTS && row.metadata == map[]
  {
    if row.metadata == map[] && row.lastFailover.None? && row.timeouts == DEFAULT_TIMEOUTS {
      assert PutItem(Unmarshal(row)).(version := row.version) == row;
    }
  }
}
