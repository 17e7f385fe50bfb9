/** The service with its cache, as callers use it: one method after the other on shared
    record objects, each tied to the steps of the cache machine. */
module CacheService {
  import opened Records
  import opened ServiceCache

  /** A record as callers hold it: the cache and they share one object. */
  class GroupConfigRecord {
    ghost const id: nat             // the get that fetched it
    ghost const read: GroupConfig   // what it was then
    ghost var raises: nat           // how often an update has raised it since
    var config: GroupConfig

    constructor (config: GroupConfig, ghost id: nat)
      ensures this.config == config && this.read == config && this.id == id && raises == 0
    {
      this.config, this.read, this.id, raises := config, config, id, 0;
    }

    ghost predicate Valid()
      reads this
    {
      config == Raised(read, raises)
    }
  }

  datatype CacheEntry<+T> = CacheEntry(value: T, expiration: nat)

  /** The entries that have not expired. */
  function Unexpired<T>(cache: map<string, CacheEntry<T>>, now: nat): map<string, CacheEntry<T>> {
    map key | key in cache && now <= cache[key].expiration :: cache[key]
  }

  predicate IsFresh<T>(cache: map<string, CacheEntry<T>>, key: string, now: nat) {
    key in cache && cache[key].expiration > now
  }

  /** A get that nobody disturbs. */
  function GetAlone<V>(ttl: nat, w: World<V>, id: nat, key: string): World<V> {
    Next(ttl, Next(ttl, Next(ttl, Next(ttl, w, Lookup(id, key)), Clock(id)), Fetch(id, true)), Store(id))
  }

  lemma HitAlone<V>(ttl: nat, w: World<V>, id: nat, key: string)
    requires id !in w.gets && Fresh(Entered(w.cache, key), w.now)
    ensures var e := w.cache[key];
            GetAlone(ttl, w, id, key)
                == w.(gets := w.gets[id := Hit(key, e.record, e.value, Raises(w, e.record), w.now)])
  {
    var w1 := Next(ttl, w, Lookup(id, key));
    assert w1.gets[id] == Looked(key, Some(w.cache[key]));
    var hit := Hit(key, w.cache[key].record, w.cache[key].value, Raises(w, w.cache[key].record), w.now);
    assert w1.gets[id := hit] == w.gets[id := hit];
  }

  lemma MissAlone<V>(ttl: nat, w: World<V>, id: nat, key: string)
    requires id !in w.gets && !Fresh(Entered(w.cache, key), w.now) && key in w.table
    ensures GetAlone(ttl, w, id, key)
         == w.(gets := w.gets[id := Returned(key, w.table[key])],
               cache := w.cache[key := Entry(id, w.table[key], w.now + ttl)])
  {
    var w2 := Next(ttl, Next(ttl, w, Lookup(id, key)), Clock(id));
    assert w2.gets[id] == Missed(key, w.now);
    var w3 := Next(ttl, w2, Fetch(id, true));
    assert w3.gets[id] == Fetched(key, w.now, w.table[key]);
    assert Next(ttl, w3, Store(id)).gets == w.gets[id := Returned(key, w.table[key])];
  }

  /** An update that nobody disturbs. */
  function Updated<V>(ttl: nat, w: World<V>, record: nat, key: string, value: V, ok: bool): World<V> {
    var raised := Next(ttl, w, Raise(record));
    if ok then Next(ttl, Next(ttl, raised, Write(key, value)), Invalidate(key)) else raised
  }

  lemma UpdatedIs<V>(ttl: nat, w: World<V>, record: nat, key: string, value: V, ok: bool)
    ensures Updated(ttl, w, record, key, value, ok)
         == w.(raised := w.raised[record := Raises(w, record) + 1],
               table := if ok then w.table[key := value] else w.table,
               cache := if ok then w.cache - {key} else w.cache)
  {
  }

  class DynamoDBService {
    const clusterName: string
    const cacheTTL: nat
    var table: map<string, GroupConfig>
    var groupConfigs: map<string, CacheEntry<GroupConfigRecord>>
    var clusterStatuses: map<string, CacheEntry<StatusRow>>
    var groupStates: map<string, CacheEntry<State>>
    ghost var machine: World<GroupConfig>            // the cache machine in the same state
    ghost var records: map<nat, GroupConfigRecord>   // every record given out, by the get that fetched it

    constructor (clusterName: string, cacheTTL: nat)
      ensures Valid() && table == map[] && groupConfigs == map[] && clusterStatuses == map[] && groupStates == map[]
      ensures this.clusterName == clusterName && this.cacheTTL == cacheTTL
    {
      this.clusterName, this.cacheTTL := clusterName, cacheTTL;
      table, groupConfigs, clusterStatuses, groupStates := map[], map[], map[], map[];
      machine, records := Init(map[]), map[];
    }

    ghost predicate RecordOk(raised: map<nat, nat>, id: nat)
      reads this`records, records.Values
    {
      id in records ==>
        records[id].id == id && records[id].Valid() && records[id].raises == if id in raised then raised[id] else 0
    }

    ghost predicate EntryOk(cache: map<string, Entry<GroupConfig>>, key: string)
      reads this`groupConfigs, this`records
    {
      key in groupConfigs && key in cache ==>
        var e, entry := cache[key], groupConfigs[key];
        && e.expiration == entry.expiration && e.value == entry.value.read
        && e.record in records && records[e.record] == entry.value
    }

    ghost predicate RowOk(rows: map<string, GroupConfig>, key: string)
      reads this`table
    {
      key in table && key in rows ==> rows[key] == Unmarshal(table[key])
    }

    ghost predicate RecordsOk(raised: map<nat, nat>)
      reads this`records, records.Values
    {
      raised.Keys <= records.Keys && forall id {:trigger RecordOk(raised, id)} :: RecordOk(raised, id)
    }

    ghost predicate CacheOk(cache: map<string, Entry<GroupConfig>>)
      reads this`groupConfigs, this`records
    {
      cache.Keys == groupConfigs.Keys && forall key {:trigger EntryOk(cache, key)} :: EntryOk(cache, key)
    }

    ghost predicate TableOk(rows: map<string, GroupConfig>)
      reads this`table
    {
      rows.Keys == table.Keys && forall key {:trigger RowOk(rows, key)} :: RowOk(rows, key)
    }

    /** The machine is in the state of the service. */
    ghost predicate Valid()
      reads this, records.Values
    {
      && TableOk(machine.table) && CacheOk(machine.cache)
      && RecordsOk(machine.raised) && records.Keys <= machine.gets.Keys
    }

    /** A record that the service gave out. */
    ghost predicate Knows(record: GroupConfigRecord)
      reads this, record
    {
      record.id in records && records[record.id] == record
    }

    /** The machine when the clock has reached `now` and, on a miss, the row exists. */
    ghost function Prepared(key: string, now: nat): World<GroupConfig>
      requires machine.now <= now
      reads this
    {
      var w := machine.(now := now);
      if IsFresh(groupConfigs, key, now) || key in table then w
      else w.(table := w.table[key := Unmarshal(PutItem(DefaultConfig(clusterName)))])
    }

    /** The machine is past the get `id` of the record. */
    ghost predicate Got(key: string, id: nat, record: GroupConfigRecord, hit: bool)
      reads this, record
    {
      id in machine.gets
      && if hit then machine.gets[id].Hit? && record.config == Seen(machine.gets[id])
         else machine.gets[id].Returned? && record.config == machine.gets[id].value
    }

    ghost method Ticked(now: nat)
      requires Valid() && machine.now <= now
      modifies this`machine
      ensures Valid() && machine == old(machine).(now := now)
    {
      machine := machine.(now := now);
    }

    ghost method Noted(id: nat, g: Get<GroupConfig>)
      requires Valid() && id !in machine.gets
      modifies this`machine
      ensures Valid() && machine == old(machine).(gets := old(machine).gets[id := g])
    {
      machine := machine.(gets := machine.gets[id := g]);
    }

    /** The default row, where there is none. */
    method InsertDefault(key: string)
      requires Valid() && key !in table
      modifies this`table, this`machine
      ensures Valid() && table == old(table)[key := PutItem(DefaultConfig(clusterName))]
      ensures machine
              == old(machine).(table := old(machine).table[key := Unmarshal(PutItem(DefaultConfig(clusterName)))])
    {
      var config := DefaultConfig(clusterName);
      config := config.(version := config.version + 1);
      table := table[key := config];
      machine := machine.(table := machine.table[key := Unmarshal(config)]);
      forall k ensures RowOk(machine.table, k) { assert old(RowOk(machine.table, k)); }
    }

    /** The row in a new record. */
    method NewRecord(key: string, ghost id: nat) returns (record: GroupConfigRecord)
      requires Valid() && id in machine.gets && id !in records && key in table
      modifies this`records
      ensures Valid() && Knows(record) && fresh(record)
      ensures record.id == id && record.raises == 0 && record.config == record.read == Unmarshal(table[key])
    {
      assert RowOk(machine.table, key);
      record := new GroupConfigRecord(Unmarshal(table[key]), id);
      records := records[id := record];
      forall i ensures RecordOk(machine.raised, i) { assert old(RecordOk(machine.raised, i)); }
      forall k ensures EntryOk(machine.cache, k) { assert old(EntryOk(machine.cache, k)); }
    }

    /** The record in the cache. */
    method Enter(key: string, record: GroupConfigRecord, expiration: nat)
      requires Valid() && Knows(record)
      modifies this`groupConfigs, this`machine
      ensures Valid() && groupConfigs == old(groupConfigs)[key := CacheEntry(record, expiration)]
      ensures machine == old(machine).(cache := old(machine).cache[key := Entry(record.id, record.read, expiration)])
    {
      groupConfigs := groupConfigs[key := CacheEntry(record, expiration)];
      machine := machine.(cache := machine.cache[key := Entry(record.id, record.read, expiration)]);
      forall k ensures EntryOk(machine.cache, k) { assert old(EntryOk(machine.cache, k)); }
    }

    ghost method TakeHit(key: string, now: nat, id: nat)
      requires Valid() && machine.now <= now && id !in machine.gets && IsFresh(groupConfigs, key, now)
      modifies this`machine
      ensures Valid() && Knows(groupConfigs[key].value) && machine.now == now
      ensures machine == GetAlone(cacheTTL, old(Prepared(key, now)), id, key)
      ensures Got(key, id, groupConfigs[key].value, true)
    {
      assert EntryOk(machine.cache, key);
      assert RecordOk(machine.raised, machine.cache[key].record);
      Ticked(now);
      HitAlone(cacheTTL, machine, id, key);
      var e := machine.cache[key];
      Noted(id, Hit(key, e.record, e.value, Raises(machine, e.record), now));
    }

    /** The clock, and the row that the read past the cache finds or creates. */
    method EnsureRow(key: string, now: nat)
      requires Valid() && machine.now <= now && !IsFresh(groupConfigs, key, now)
      modifies this`table, this`machine
      ensures Valid() && key in table && machine == old(Prepared(key, now))
      ensures table == if key in old(table) then old(table) else old(table)[key := PutItem(DefaultConfig(clusterName))]
    {
      Ticked(now);
      if key !in table {
        InsertDefault(key);
      }
    }

    /** The row is read into a new record, and that is cached. */
    method FetchRow(key: string, now: nat, ghost id: nat) returns (record: GroupConfigRecord)
      requires Valid() && machine.now == now && id !in machine.gets && key in table && !IsFresh(groupConfigs, key, now)
      modifies this`groupConfigs, this`machine, this`records
      ensures Valid() && Knows(record) && fresh(record)
      ensures machine == GetAlone(cacheTTL, old(machine), id, key) && machine.now == now
      ensures Got(key, id, record, false)
      ensures groupConfigs == old(groupConfigs)[key := CacheEntry(record, now + cacheTTL)]
    {
      ghost var before := machine;
      assert EntryOk(before.cache, key);
      Noted(id, Returned(key, before.table[key]));
      record := NewRecord(key, id);
      assert RowOk(before.table, key);
      Enter(key, record, now + cacheTTL);
      MissAlone(cacheTTL, before, id, key);
    }

    /** A miss: the row is read, or created, and the record cached. */
    method TakeMiss(key: string, now: nat, ghost id: nat) returns (record: GroupConfigRecord)
      requires Valid() && machine.now <= now && id !in machine.gets && !IsFresh(groupConfigs, key, now)
      modifies this`table, this`groupConfigs, this`machine, this`records
      ensures Valid() && Knows(record) && fresh(record) && machine.now == now
      ensures machine == GetAlone(cacheTTL, old(Prepared(key, now)), id, key)
      ensures Got(key, id, record, false)
      ensures groupConfigs == old(groupConfigs)[key := CacheEntry(record, now + cacheTTL)]
      ensures table == if key in old(table) then old(table) else old(table)[key := PutItem(DefaultConfig(clusterName))]
    {
      EnsureRow(key, now);
      record := FetchRow(key, now, id);
    }

    /** GetGroupConfig: a hit returns the cached object itself, a miss a new one that it
        caches. It is the machine's undisturbed get `id`, and its record is what the get
        returned with what updates have raised since. */
    method GetGroupConfig(key: string, now: nat) returns (record: GroupConfigRecord, ghost id: nat)
      requires Valid() && machine.now <= now
      modifies this`table, this`groupConfigs, this`machine, this`records
      ensures Valid() && Knows(record) && machine.now == now
      ensures id !in old(machine).gets && machine == GetAlone(cacheTTL, old(Prepared(key, now)), id, key)
      ensures Got(key, id, record, IsFresh(old(groupConfigs), key, now))
      ensures if IsFresh(old(groupConfigs), key, now)
              then record == old(groupConfigs)[key].value && groupConfigs == old(groupConfigs) && table == old(table)
              else fresh(record) && groupConfigs == old(groupConfigs)[key := CacheEntry(record, now + cacheTTL)]
                   && table == if key in old(table) then old(table)
                       else old(table)[key := PutItem(DefaultConfig(clusterName))]
    {
      id := AnUnusedId(machine.gets.Keys);
      if key in groupConfigs && groupConfigs[key].expiration > now {
        record := groupConfigs[key].value;
        TakeHit(key, now, id);
      } else {
        record := TakeMiss(key, now, id);
      }
    }

    /** The first step of an update: the version of the caller's record is raised. */
    method RaiseVersion(record: GroupConfigRecord)
      requires Valid() && Knows(record)
      modifies this`machine, record
      ensures Valid() && Knows(record) && record.config == PutItem(old(record.config))
      ensures machine == old(machine).(raised := old(machine).raised[record.id := Raises(old(machine), record.id) + 1])
    {
      record.config := record.config.(version := record.config.version + 1);
      record.raises := record.raises + 1;
      machine := machine.(raised := machine.raised[record.id := Raises(machine, record.id) + 1]);
      assert old(RecordOk(machine.raised, record.id));
      forall i ensures RecordOk(machine.raised, i) { assert old(RecordOk(machine.raised, i)); }
    }

    /** The put, and the invalidation if it went through. */
    method StoreConfig(config: GroupConfig, originalVersion: int, key: string) returns (ok: bool)
      requires Valid()
      modifies this`table, this`groupConfigs, this`machine
      ensures Valid()
      ensures ok <==> (key !in old(table) || old(table)[key].version == originalVersion)
      ensures table == if ok then old(table)[key := config] else old(table)
      ensures groupConfigs == if ok then old(groupConfigs) - {key} else old(groupConfigs)
      ensures machine == if ok then old(machine).(table := old(machine).table[key := Unmarshal(config)],
                                                  cache := old(machine).cache - {key})
                         else old(machine)
    {
      ok := key !in table || table[key].version == originalVersion;
      if ok {
        table := table[key := config];
        groupConfigs := groupConfigs - {key};
        machine := machine.(table := machine.table[key := Unmarshal(config)], cache := machine.cache - {key});
        forall k ensures RowOk(machine.table, k) { assert old(RowOk(machine.table, k)); }
        forall k ensures EntryOk(machine.cache, k) { assert old(EntryOk(machine.cache, k)); }
      }
    }

    /** UpdateGroupConfig: it raises the version of the caller's record whatever happens,
        and drops the cached record only if the put went through. */
    method UpdateGroupConfig(record: GroupConfigRecord, key: string) returns (ok: bool)
      requires Valid() && Knows(record)
      modifies this`table, this`groupConfigs, this`machine, record
      ensures Valid() && Knows(record) && record.config == PutItem(old(record.config))
              && machine.now == old(machine).now
      ensures ok <==> PutAllowed(if key in old(table) then Some(old(table)[key]) else None, old(record.config))
      ensures table == if ok then old(table)[key := record.config] else old(table)
      ensures groupConfigs == if ok then old(groupConfigs) - {key} else old(groupConfigs)
      ensures machine == Updated(cacheTTL, old(machine), record.id, key, Unmarshal(record.config), ok)
    {
      ghost var before := machine;
      var originalVersion := record.config.version;
      RaiseVersion(record);
      ok := StoreConfig(record.config, originalVersion, key);
      UpdatedIs(cacheTTL, before, record.id, key, Unmarshal(record.config), ok);
    }

    /** cleanupExpiredEntries: each cache keeps exactly the entries that are not expired. */
    method CleanupExpiredEntries(now: nat)
      requires Valid()
      modifies this`groupConfigs, this`clusterStatuses, this`groupStates, this`machine
      ensures Valid()
      ensures groupConfigs == Unexpired(old(groupConfigs), now)
      ensures clusterStatuses == Unexpired(old(clusterStatuses), now)
      ensures groupStates == Unexpired(old(groupStates), now)
      ensures machine == old(machine).(cache := Swept(old(machine).cache, now))
    {
      CleanupGroupConfigs(now);
      CleanupOthers(now);
    }

    method CleanupOthers(now: nat)
      modifies this`clusterStatuses, this`groupStates
      ensures clusterStatuses == Unexpired(old(clusterStatuses), now)
      ensures groupStates == Unexpired(old(groupStates), now)
    {
      clusterStatuses := SweepCache(clusterStatuses, now);
      groupStates := SweepCache(groupStates, now);
    }

    method CleanupGroupConfigs(now: nat)
      requires Valid()
      modifies this`groupConfigs, this`machine
      ensures Valid() && groupConfigs == Unexpired(old(groupConfigs), now)
      ensures machine == old(machine).(cache := Swept(old(machine).cache, now))
    {
      groupConfigs := SweepCache(groupConfigs, now);
      ghost var swept := Swept(machine.cache, now);
      forall k ensures k in swept <==> k in groupConfigs { assert old(EntryOk(machine.cache, k)); }
      machine := machine.(cache := swept);
      forall k ensures EntryOk(machine.cache, k) { assert old(EntryOk(machine.cache, k)); }
    }
  }

  /** The loop over one of the caches, in any order. */
  method SweepCache<T>(cache: map<string, CacheEntry<T>>, now: nat) returns (swept: map<string, CacheEntry<T>>)
    ensures swept == Unexpired(cache, now)
  {
    swept := cache;
    var keys := cache.Keys;
    while keys != {}
      invariant keys <= swept.Keys <= cache.Keys
      invariant forall key :: key in swept <==> key in keys || key in Unexpired(cache, now)
      invariant forall key :: key in swept ==> swept[key] == cache[key]
    {
      var key :| key in keys;
      if swept[key].expiration < now {
        swept := swept - {key};
      }
      keys := keys - {key};
    }
  }

  /** The cache shares its records with its callers: an update that is refused through a
      cached record shows in the next hit, although the table is unchanged. */
  method RefusedUpdateShowsThrough(s: DynamoDBService, key: string, now: nat) returns (seen: GroupConfigRecord)
    requires s.Valid() && s.machine.now <= now && IsFresh(s.groupConfigs, key, now) && key in s.table
    requires s.groupConfigs[key].value.config.version != s.table[key].version
    modifies s`table, s`groupConfigs, s`machine, s`records, s.groupConfigs[key].value
    ensures s.Valid() && s.Knows(seen) && s.table == old(s.table) && s.groupConfigs == old(s.groupConfigs)
    ensures seen == old(s.groupConfigs[key].value) && seen.config == PutItem(old(s.groupConfigs[key].value.config))
    ensures s.machine.now == now
  {
    var record, id := s.GetGroupConfig(key, now);
    var ok := s.UpdateGroupConfig(record, key);
    seen, id := s.GetGroupConfig(key, now);
  }

  /** So the second try succeeds over a commit that its caller has not seen, and puts the
      owners of the old record back. */
  method SecondUpdateUndoesACommit(s: DynamoDBService, key: string, now: nat) returns (ok: bool)
    requires s.Valid() && s.machine.now <= now && IsFresh(s.groupConfigs, key, now) && key in s.table
    requires s.table[key].version == s.groupConfigs[key].value.config.version + 1
    modifies s`table, s`groupConfigs, s`machine, s`records, s.groupConfigs[key].value
    ensures ok && key in s.table
    ensures s.table[key].version == old(s.table[key].version) + 1
    ensures s.table[key].owner == old(s.groupConfigs[key].value.config.owner)
    ensures s.table[key].previousOwner == old(s.groupConfigs[key].value.config.previousOwner)
  {
    var record := RefusedUpdateShowsThrough(s, key, now);
    ok := s.UpdateGroupConfig(record, key);
  }
}
