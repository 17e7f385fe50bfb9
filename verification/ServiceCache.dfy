/** The service cache in front of the table, as a state machine: gets, writes by anyone,
    invalidations and the background cleanup interleave freely. The cache gives out its
    own records, and an update raises the version of the record it is given. */
module ServiceCache {
  import opened Records

  /** A cached record: the get that fetched it stands for the object, `value` for what it
      was when it was fetched. */
  datatype Entry<+V> = Entry(record: nat, value: V, expiration: nat)

  /** A get, step by step: it looks for an entry, reads the clock, and on a miss reads
      the table and stores what it found, to expire a TTL after that clock. */
  datatype Get<+V> =
    | Looked(key: string, entry: Option<Entry<V>>)
    | Missed(key: string, now: nat)
    | Fetched(key: string, now: nat, value: V)
    | Hit(key: string, record: nat, value: V, raises: nat, at: nat)
    | Returned(key: string, value: V)
    | Failed(key: string)

  datatype World<V> = World(
    now: nat,
    table: map<string, V>,
    cache: map<string, Entry<V>>,
    gets: map<nat, Get<V>>,
    sweep: Option<nat>,     // the clock cleanupExpiredEntries captured before it takes the lock
    raised: map<nat, nat>)  // how often updates have raised the version of a record

  datatype Event<V> =
    | Tick(d: nat)
    | Write(key: string, value: V)  // by a manager of any cluster, through the cache or past it
    | Remove(key: string)
    | Lookup(id: nat, key: string)
    | Clock(id: nat)
    | Fetch(id: nat, ok: bool)
    | Store(id: nat)
    | Raise(record: nat)            // an update's first step, in memory, whoever holds the record
    | Invalidate(key: string)       // its last step, if the put went through
    | ClearCache
    | SweepClock
    | Sweep

  function Init<V>(table: map<string, V>): World<V> {
    World(0, table, map[], map[], None, map[])
  }

  predicate Fresh<V>(entry: Option<Entry<V>>, now: nat) {
    entry.Some? && entry.value.expiration > now
  }

  /** What cleanupExpiredEntries leaves. */
  function Swept<V>(cache: map<string, Entry<V>>, now: nat): map<string, Entry<V>> {
    map key | key in cache && now <= cache[key].expiration :: cache[key]
  }

  function Entered<V>(cache: map<string, Entry<V>>, key: string): Option<Entry<V>> {
    if key in cache then Some(cache[key]) else None
  }

  function Raises<V>(w: World<V>, record: nat): nat {
    if record in w.raised then w.raised[record] else 0
  }

  function Clocked<V>(w: World<V>, g: Get<V>): Get<V>
    requires g.Looked?
  {
    if Fresh(g.entry, w.now)
    then Hit(g.key, g.entry.value.record, g.entry.value.value, Raises(w, g.entry.value.record), w.now)
    else Missed(g.key, w.now)
  }

  function Put<V>(w: World<V>, id: nat, g: Get<V>): World<V> {
    w.(gets := w.gets[id := g])
  }

  function Next<V>(ttl: nat, w: World<V>, e: Event<V>): World<V> {
    match e
    case Tick(d) => w.(now := w.now + d)
    case Write(key, value) => w.(table := w.table[key := value])
    case Remove(key) => w.(table := w.table - {key})
    case Lookup(id, key) => if id in w.gets then w else Put(w, id, Looked(key, Entered(w.cache, key)))
    case Clock(id) => if id in w.gets && w.gets[id].Looked? then Put(w, id, Clocked(w, w.gets[id])) else w
    case Fetch(id, ok) =>
      if id in w.gets && w.gets[id].Missed? then
        var g := w.gets[id];
        Put(w, id, if ok && g.key in w.table then Fetched(g.key, g.now, w.table[g.key]) else Failed(g.key))
      else w
    case Store(id) =>
      if id in w.gets && w.gets[id].Fetched? then
        var g := w.gets[id];
        Put(w.(cache := w.cache[g.key := Entry(id, g.value, g.now + ttl)]), id, Returned(g.key, g.value))
      else w
    case Raise(record) => w.(raised := w.raised[record := Raises(w, record) + 1])
    case Invalidate(key) => w.(cache := w.cache - {key})
    case ClearCache => w.(cache := map[])
    case SweepClock => w.(sweep := Some(w.now))
    case Sweep => if w.sweep.Some? then w.(cache := Swept(w.cache, w.sweep.value), sweep := None) else w
  }

  function Run<V>(ttl: nat, table: map<string, V>, es: seq<Event<V>>): World<V> {
    if es == [] then Init(table) else Next(ttl, Run(ttl, table, es[..|es| - 1]), es[|es| - 1])
  }

  /** A cleanup removes exactly the entries that had expired before the clock it captured,
      whatever has happened since, and an entry that is left is as it was. */
  lemma {:induction false} CleanupRemovesIff<V>(ttl: nat, table: map<string, V>, es: seq<Event<V>>, key: string)
    requires Run(ttl, table, es).sweep.Some?
    ensures var w := Run(ttl, table, es);
            var w' := Next(ttl, w, Sweep);
            && (key in w'.cache <==> key in w.cache && !(w.cache[key].expiration < w.sweep.value))
            && (key in w'.cache ==> w'.cache[key] == w.cache[key])
  {
  }

  // ---- what the table has held ----

  predicate Holds<V(==)>(w: World<V>, key: string, value: V) {
    key in w.table && w.table[key] == value
  }

  /** After the first `i` events the table held the value, no earlier than `from`. */
  predicate HeldAt<V(==)>(ttl: nat, table: map<string, V>, es: seq<Event<V>>, i: nat, key: string, value: V, from: int)
    requires i <= |es|
  {
    var w := Run(ttl, table, es[..i]);
    Holds(w, key, value) && from <= w.now
  }

  /** At some moment not before `from`, and not before event `start`, the table held the value. */
  ghost predicate Held<V>(ttl: nat, table: map<string, V>, es: seq<Event<V>>, start: nat, key: string, value: V,
                          from: int) {
    exists i {:trigger HeldAt(ttl, table, es, i, key, value, from)} :: start <= i <= |es|
        && HeldAt(ttl, table, es, i, key, value, from)
  }

  lemma HeldStays<V>(ttl: nat, table: map<string, V>, es: seq<Event<V>>, e: Event<V>, start: nat, key: string,
                     value: V, from: int)
    requires Held(ttl, table, es, start, key, value, from)
    ensures Held(ttl, table, es + [e], start, key, value, from)
  {
    var i :| start <= i <= |es| && HeldAt(ttl, table, es, i, key, value, from);
    assert (es + [e])[..i] == es[..i];
    assert HeldAt(ttl, table, es + [e], i, key, value, from);
  }

  lemma HeldNow<V>(ttl: nat, table: map<string, V>, es: seq<Event<V>>, start: nat, key: string)
    requires start <= |es| && key in Run(ttl, table, es).table
    ensures var w := Run(ttl, table, es); Held(ttl, table, es, start, key, w.table[key], w.now)
  {
    assert es[..|es|] == es;
    var w := Run(ttl, table, es);
    assert HeldAt(ttl, table, es, |es|, key, w.table[key], w.now);
  }

  lemma RunSnoc<V>(ttl: nat, table: map<string, V>, es: seq<Event<V>>, e: Event<V>)
    ensures Run(ttl, table, es + [e]) == Next(ttl, Run(ttl, table, es), e)
  {
    assert (es + [e])[..|es|] == es;
  }

  lemma {:induction false} ClockIsMonotone<V>(ttl: nat, table: map<string, V>, es: seq<Event<V>>, i: nat, j: nat)
    requires i <= j <= |es|
    ensures Run(ttl, table, es[..i]).now <= Run(ttl, table, es[..j]).now
    decreases j
  {
    if i < j {
      ClockIsMonotone(ttl, table, es, i, j - 1);
      assert es[..j][..j - 1] == es[..j - 1];
      ClockNeverGoesBack(ttl, Run(ttl, table, es[..j - 1]), es[j - 1]);
    }
  }

  lemma ClockNeverGoesBack<V>(ttl: nat, w: World<V>, e: Event<V>)
    ensures w.now <= Next(ttl, w, e).now
  {
  }

  // ---- staleness ----

  /** Where a value that a get or an entry carries comes from. */
  ghost predicate EntryOk<V>(ttl: nat, table: map<string, V>, es: seq<Event<V>>, key: string, e: Entry<V>) {
    Held(ttl, table, es, 0, key, e.value, e.expiration - ttl)
  }

  ghost predicate GetOk<V>(ttl: nat, table: map<string, V>, es: seq<Event<V>>, now: nat, g: Get<V>) {
    match g
    case Looked(key, entry) => entry.Some? ==> EntryOk(ttl, table, es, key, entry.value)
    case Missed(_, at) => at <= now
    case Fetched(key, at, value) => at <= now && Held(ttl, table, es, 0, key, value, at)
    case Hit(key, _, value, _, at) => at <= now && Held(ttl, table, es, 0, key, value, at - ttl + 1)
    case Returned(_, _) => true
    case Failed(_) => true
  }

  ghost predicate Inv<V>(ttl: nat, table: map<string, V>, es: seq<Event<V>>, w: World<V>) {
    && (forall key :: key in w.cache ==> EntryOk(ttl, table, es, key, w.cache[key]))
    && (forall id :: id in w.gets ==> GetOk(ttl, table, es, w.now, w.gets[id]))
  }

  lemma EntryStaysOk<V>(ttl: nat, table: map<string, V>, es: seq<Event<V>>, e: Event<V>, key: string, entry: Entry<V>)
    requires EntryOk(ttl, table, es, key, entry)
    ensures EntryOk(ttl, table, es + [e], key, entry)
  {
    HeldStays(ttl, table, es, e, 0, key, entry.value, entry.expiration - ttl);
  }

  lemma GetStaysOk<V>(ttl: nat, table: map<string, V>, es: seq<Event<V>>, e: Event<V>, now: nat, now': nat, g: Get<V>)
    requires GetOk(ttl, table, es, now, g) && now <= now'
    ensures GetOk(ttl, table, es + [e], now', g)
  {
    match g
    case Looked(key, entry) => if entry.Some? { EntryStaysOk(ttl, table, es, e, key, entry.value); }
    case Missed(_, _) =>
    case Fetched(key, at, value) => HeldStays(ttl, table, es, e, 0, key, value, at);
    case Hit(key, _, value, _, at) => HeldStays(ttl, table, es, e, 0, key, value, at - ttl + 1);
    case Returned(_, _) =>
    case Failed(_) =>
  }

  lemma HeldEarlier<V>(ttl: nat, table: map<string, V>, es: seq<Event<V>>, start: nat, key: string, value: V,
                       from: int, from': int)
    requires Held(ttl, table, es, start, key, value, from) && from' <= from
    ensures Held(ttl, table, es, start, key, value, from')
  {
    var i :| start <= i <= |es| && HeldAt(ttl, table, es, i, key, value, from);
    assert HeldAt(ttl, table, es, i, key, value, from');
  }

  /** The get that an event moves on is in order afterwards. */
  lemma MovedGetOk<V>(ttl: nat, table: map<string, V>, es: seq<Event<V>>, e: Event<V>, id: nat)
    requires var w := Run(ttl, table, es); Inv(ttl, table, es, w)
    requires e == Clock(id) || e == Store(id) || (e.Fetch? && e.id == id) || (e.Lookup? && e.id == id)
    requires id in Next(ttl, Run(ttl, table, es), e).gets
    ensures var w' := Next(ttl, Run(ttl, table, es), e); GetOk(ttl, table, es, w'.now, w'.gets[id])
  {
    var w := Run(ttl, table, es);
    var w' := Next(ttl, w, e);
    if id in w.gets { assert GetOk(ttl, table, es, w.now, w.gets[id]); }
    if w'.gets[id].Hit? && !w.gets[id].Hit? {
      var entry := w.gets[id].entry.value;
      HeldEarlier(ttl, table, es, 0, w.gets[id].key, entry.value, entry.expiration - ttl, w.now - ttl + 1);
    } else if w'.gets[id].Fetched? && !w.gets[id].Fetched? {
      var g := w.gets[id];
      HeldNow(ttl, table, es, 0, g.key);
      HeldEarlier(ttl, table, es, 0, g.key, w.table[g.key], w.now, g.now);
    }
  }

  lemma NextKeepsGets<V>(ttl: nat, table: map<string, V>, es: seq<Event<V>>, e: Event<V>, id: nat)
    requires var w := Run(ttl, table, es); Inv(ttl, table, es, w)
    requires id in Next(ttl, Run(ttl, table, es), e).gets
    ensures var w' := Next(ttl, Run(ttl, table, es), e); GetOk(ttl, table, es + [e], w'.now, w'.gets[id])
  {
    var w := Run(ttl, table, es);
    var w' := Next(ttl, w, e);
    if id in w.gets && w'.gets[id] == w.gets[id] {
      assert GetOk(ttl, table, es, w.now, w.gets[id]);
      GetStaysOk(ttl, table, es, e, w.now, w'.now, w.gets[id]);
    } else {
      MovedGetOk(ttl, table, es, e, id);
      GetStaysOk(ttl, table, es, e, w'.now, w'.now, w'.gets[id]);
    }
  }

  lemma NextKeepsEntries<V>(ttl: nat, table: map<string, V>, es: seq<Event<V>>, e: Event<V>, key: string)
    requires var w := Run(ttl, table, es); Inv(ttl, table, es, w)
    requires key in Next(ttl, Run(ttl, table, es), e).cache
    ensures EntryOk(ttl, table, es + [e], key, Next(ttl, Run(ttl, table, es), e).cache[key])
  {
    var w := Run(ttl, table, es);
    EntryComesFrom(ttl, w, e, key);
    if Stores(w, e, key) {
      assert GetOk(ttl, table, es, w.now, w.gets[e.id]);
    } else {
      assert EntryOk(ttl, table, es, key, w.cache[key]);
    }
    EntryStaysOk(ttl, table, es, e, key, Next(ttl, w, e).cache[key]);
  }

  predicate Stores<V>(w: World<V>, e: Event<V>, key: string) {
    e.Store? && e.id in w.gets && w.gets[e.id].Fetched? && w.gets[e.id].key == key
  }

  lemma EntryComesFrom<V>(ttl: nat, w: World<V>, e: Event<V>, key: string)
    requires key in Next(ttl, w, e).cache
    ensures if Stores(w, e, key)
            then Next(ttl, w, e).cache[key] == Entry(e.id, w.gets[e.id].value, w.gets[e.id].now + ttl)
            else key in w.cache && Next(ttl, w, e).cache[key] == w.cache[key]
  {
  }

  lemma {:induction false} Reachable<V>(ttl: nat, table: map<string, V>, es: seq<Event<V>>)
    ensures Inv(ttl, table, es, Run(ttl, table, es))
  {
    if es != [] {
      var n := |es| - 1;
      var w' := Run(ttl, table, es);
      assert es[..n] + [es[n]] == es;
      Reachable(ttl, table, es[..n]);
      forall key | key in w'.cache ensures EntryOk(ttl, table, es, key, w'.cache[key]) {
        NextKeepsEntries(ttl, table, es[..n], es[n], key);
      }
      forall id | id in w'.gets ensures GetOk(ttl, table, es, w'.now, w'.gets[id]) {
        NextKeepsGets(ttl, table, es[..n], es[n], id);
      }
    }
  }

  /** What a hit returns was fetched from a table that held it less than one TTL earlier,
      whatever gets, writes, updates, invalidations and cleanups were interleaved. What
      updates in memory did to it since is `raises`. */
  lemma {:induction false} HitsAreLessThanATtlOld<V>(ttl: nat, table: map<string, V>, es: seq<Event<V>>, id: nat)
    requires var w := Run(ttl, table, es); id in w.gets && w.gets[id].Hit?
    ensures var g := Run(ttl, table, es).gets[id]; HeldWithin(ttl, table, es, g.key, g.value, g.at)
  {
    Reachable(ttl, table, es);
    HitIsHeld(ttl, table, es, Run(ttl, table, es).now, Run(ttl, table, es).gets[id]);
  }

  /** The table held the value less than one TTL before `at`. */
  ghost predicate HeldWithin<V>(ttl: nat, table: map<string, V>, es: seq<Event<V>>, key: string, value: V, at: nat) {
    exists i {:trigger es[..i]} :: 0 <= i <= |es| && Holds(Run(ttl, table, es[..i]), key, value)
                                   && at - ttl < Run(ttl, table, es[..i]).now
  }

  lemma HitIsHeld<V>(ttl: nat, table: map<string, V>, es: seq<Event<V>>, now: nat, g: Get<V>)
    requires g.Hit? && GetOk(ttl, table, es, now, g)
    ensures HeldWithin(ttl, table, es, g.key, g.value, g.at)
  {
    var i :| 0 <= i <= |es| && HeldAt(ttl, table, es, i, g.key, g.value, g.at - ttl + 1);
    assert Holds(Run(ttl, table, es[..i]), g.key, g.value);
  }

  /** How many updates have raised the record. */
  function CountRaises<V>(es: seq<Event<V>>, record: nat): nat {
    if es == [] then 0
    else CountRaises(es[..|es| - 1], record) + if es[|es| - 1].Raise? && es[|es| - 1].record == record then 1 else 0
  }

  lemma {:induction false} RaisesAreCounted<V>(ttl: nat, table: map<string, V>, es: seq<Event<V>>, record: nat)
    ensures Raises(Run(ttl, table, es), record) == CountRaises(es, record)
    ensures CountRaises(es, record) == 0 <==> forall e :: e in es && e.Raise? ==> e.record != record
  {
    if es != [] {
      var n := |es| - 1;
      RaisesAreCounted(ttl, table, es[..n], record);
      assert es == es[..n] + [es[n]];
      assert forall e :: e in es <==> e in es[..n] || e == es[n];
    }
  }

  /** A cached configuration as the caller of a hit sees it. */
  function Seen(g: Get<GroupConfig>): GroupConfig
    requires g.Hit?
  {
    Raised(g.value, g.raises)
  }

  /** The hit that the next step of a get takes: take away the raises of the updates that
      were given its record, and the table held it less than one TTL ago; it is exactly
      what was held if and only if there were no such updates. */
  lemma {:induction false} HitIsExactIffNotRaised(ttl: nat, table: map<string, GroupConfig>,
                                                  es: seq<Event<GroupConfig>>, id: nat)
    requires var w := Run(ttl, table, es); id in w.gets && w.gets[id].Looked? && Fresh(w.gets[id].entry, w.now)
    ensures var g := Next(ttl, Run(ttl, table, es), Clock(id)).gets[id];
            && g.Hit? && HeldWithin(ttl, table, es, g.key, g.value, g.at)
            && Seen(g) == Raised(g.value, CountRaises(es, g.record))
            && (Seen(g) == g.value <==> forall e :: e in es && e.Raise? ==> e.record != g.record)
  {
    var w := Run(ttl, table, es);
    Reachable(ttl, table, es);
    MovedGetOk(ttl, table, es, Clock(id), id);
    var g := Next(ttl, w, Clock(id)).gets[id];
    HitIsHeld(ttl, table, es, w.now, g);
    RaisesAreCounted(ttl, table, es, g.record);
  }

  /** A fetch that overlaps an update, up to the end of the update. */
  const OVERLAP: seq<Event<bool>> :=
    [Lookup(0, "k")] + [Clock(0)] + [Fetch(0, true)] + [Write("k", true)] + [Invalidate("k")]

  /** The fetch goes on to store what it read, and another get comes later. */
  function Afterwards(d: nat): seq<Event<bool>> {
    [Store(0)] + [Tick(d)] + [Lookup(1, "k")] + [Clock(1)]
  }

  const OLD := map["k" := false]
  const NEW := map["k" := true]

  lemma OverlapFetchesOld(ttl: nat)
    ensures Run(ttl, OLD, OVERLAP) == World(0, NEW, map[], map[0 := Fetched("k", 0, false)], None, map[])
  {
    RunFour(ttl, OLD, [], Lookup(0, "k"), Clock(0), Fetch(0, true), Write("k", true));
    var four := [Lookup(0, "k")] + [Clock(0)] + [Fetch(0, true)] + [Write("k", true)];
    assert [] + four == four;
    RunSnoc(ttl, OLD, four, Invalidate("k"));
    OverlapSteps(ttl);
  }

  lemma OverlapSteps(ttl: nat)
    ensures Next(ttl, Next(ttl, Next(ttl, Next(ttl, Init(OLD), Lookup(0, "k")), Clock(0)), Fetch(0, true)),
              Write("k", true))
         == World(0, NEW, map[], map[0 := Fetched("k", 0, false)], None, map[])
  {
    var timed := Next(ttl, Next(ttl, Init(OLD), Lookup(0, "k")), Clock(0));
    assert timed == World(0, OLD, map[], map[0 := Missed("k", 0)], None, map[]);
    assert Next(ttl, timed, Fetch(0, true)) == World(0, OLD, map[], map[0 := Fetched("k", 0, false)], None, map[]);
  }

  lemma LaterSteps(ttl: nat, w: World<bool>)
    requires ttl > 0 && w == World(0, NEW, map[], map[0 := Fetched("k", 0, false)], None, map[])
    ensures var w' := Next(ttl, Next(ttl, Next(ttl, Next(ttl, w, Store(0)), Tick(ttl - 1)), Lookup(1, "k")), Clock(1));
            1 in w'.gets && w'.gets[1] == Hit("k", 0, false, 0, ttl - 1)
  {
    var stored := Next(ttl, w, Store(0));
    assert stored == World(0, NEW, map["k" := Entry(0, false, ttl)], map[0 := Returned("k", false)], None, map[]);
    var later := Next(ttl, Next(ttl, stored, Tick(ttl - 1)), Lookup(1, "k"));
    assert later.gets[1] == Looked("k", Some(Entry(0, false, ttl))) && later.now == ttl - 1;
  }

  lemma Regrouped<T>(s: seq<T>, a: seq<T>, b: seq<T>, c: seq<T>, d: seq<T>)
    ensures s + (a + b + c + d) == s + a + b + c + d
  {
  }

  lemma RunFour<V>(ttl: nat, table: map<string, V>, es: seq<Event<V>>, a: Event<V>, b: Event<V>, c: Event<V>,
                   d: Event<V>)
    ensures Run(ttl, table, es + ([a] + [b] + [c] + [d]))
         == Next(ttl, Next(ttl, Next(ttl, Next(ttl, Run(ttl, table, es), a), b), c), d)
  {
    RunSnoc(ttl, table, es, a);
    RunSnoc(ttl, table, es + [a], b);
    RunSnoc(ttl, table, es + [a] + [b], c);
    RunSnoc(ttl, table, es + [a] + [b] + [c], d);
    Regrouped(es, [a], [b], [c], [d]);
  }

  /** The bound is sharp, and an invalidation does not end a value's life: a get that
      starts long after an update through the cache was completed, with no write since,
      can still hit the value before the update, until just before its TTL is over. */
  lemma AnInvalidatedValueReturns(ttl: nat)
    requires ttl > 0
    ensures var w, w' := Run(ttl, OLD, OVERLAP), Run(ttl, OLD, OVERLAP + Afterwards(ttl - 1));
            && w.now == 0 && w.table == NEW && 1 !in w.gets
            && (forall e :: e in Afterwards(ttl - 1) ==> !e.Write? && !e.Remove?)
            && 1 in w'.gets && w'.gets[1] == Hit("k", 0, false, 0, ttl - 1)
  {
    OverlapFetchesOld(ttl);
    RunFour(ttl, OLD, OVERLAP, Store(0), Tick(ttl - 1), Lookup(1, "k"), Clock(1));
    LaterSteps(ttl, Run(ttl, OLD, OVERLAP));
  }

  // ---- freshness ----

  /** A get that was not under way after the first `start` events: what it reads from the
      table, it reads later, and it takes a hit no earlier than the clock was then. */
  ghost predicate GetIsNew<V>(ttl: nat, table: map<string, V>, es: seq<Event<V>>, start: nat, now: nat, g: Get<V>) {
    match g
    case Looked(_, _) => true
    case Missed(_, at) => true
    case Fetched(key, _, value) => Held(ttl, table, es, start, key, value, now)
    case Hit(_, _, _, _, at) => now <= at
    case Returned(key, value) => Held(ttl, table, es, start, key, value, now)
    case Failed(_) => true
  }

  lemma NewGetsMoved<V>(ttl: nat, table: map<string, V>, es: seq<Event<V>>, e: Event<V>, start: nat, id: nat, now: nat)
    requires start <= |es| && now <= Run(ttl, table, es).now
    requires var w := Run(ttl, table, es);
             id in w.gets ==> GetIsNew(ttl, table, es, start, now, w.gets[id])
    requires var w' := Next(ttl, Run(ttl, table, es), e);
             id in w'.gets && (id in Run(ttl, table, es).gets ==> w'.gets[id] != Run(ttl, table, es).gets[id])
    ensures GetIsNew(ttl, table, es, start, now, Next(ttl, Run(ttl, table, es), e).gets[id])
  {
    var w, w' := Run(ttl, table, es), Next(ttl, Run(ttl, table, es), e);
    if w'.gets[id].Fetched? {
      var key := w'.gets[id].key;
      HeldNow(ttl, table, es, start, key);
      HeldEarlier(ttl, table, es, start, key, w.table[key], w.now, now);
    }
  }

  lemma GetStaysNew<V>(ttl: nat, table: map<string, V>, es: seq<Event<V>>, e: Event<V>, start: nat, now: nat, g: Get<V>)
    requires GetIsNew(ttl, table, es, start, now, g)
    ensures GetIsNew(ttl, table, es + [e], start, now, g)
  {
    match g
    case Looked(_, _) =>
    case Missed(_, _) =>
    case Fetched(key, _, value) => HeldStays(ttl, table, es, e, start, key, value, now);
    case Hit(_, _, _, _, _) =>
    case Returned(key, value) => HeldStays(ttl, table, es, e, start, key, value, now);
    case Failed(_) =>
  }

  lemma {:induction false} NewGets<V>(ttl: nat, table: map<string, V>, es: seq<Event<V>>, start: nat, id: nat)
    requires start <= |es|
    requires id in Run(ttl, table, es).gets && id !in Run(ttl, table, es[..start]).gets
    ensures GetIsNew(ttl, table, es, start, Run(ttl, table, es[..start]).now, Run(ttl, table, es).gets[id])
    decreases |es|
  {
    assert es[..|es|] == es;
    var n := |es| - 1;
    var before, e, now := es[..n], es[n], Run(ttl, table, es[..start]).now;
    assert before + [e] == es && es[..start] == before[..start];
    ClockIsMonotone(ttl, table, es, start, n);
    if id in Run(ttl, table, before).gets { NewGets(ttl, table, before, start, id); }
    var g := Run(ttl, table, es).gets[id];
    if id !in Run(ttl, table, before).gets || g != Run(ttl, table, before).gets[id] {
      NewGetsMoved(ttl, table, before, e, start, id, now);
    }
    GetStaysNew(ttl, table, before, e, start, now, g);
  }

  /** Since the first `since` events the value under a key has had the property. */
  ghost predicate Settled<V>(ttl: nat, table: map<string, V>, es: seq<Event<V>>, since: nat, key: string,
                             p: V -> bool) {
    forall i {:trigger es[..i]} :: since <= i <= |es| ==>
      var w := Run(ttl, table, es[..i]); key in w.table ==> p(w.table[key])
  }

  /** Once the table has been settled for one TTL, every get that starts returns a
      settled value, by hit or by miss. */
  lemma {:induction false} SettledAfterATtl<V>(ttl: nat, table: map<string, V>, es: seq<Event<V>>, since: nat,
                                               start: nat,
                                               id: nat, p: V -> bool)
    requires since <= start <= |es|
    requires id in Run(ttl, table, es).gets && id !in Run(ttl, table, es[..start]).gets
    requires var g := Run(ttl, table, es).gets[id]; (g.Hit? || g.Returned?) && Settled(ttl, table, es, since, g.key, p)
    requires Run(ttl, table, es[..since]).now + ttl <= Run(ttl, table, es[..start]).now
    ensures p(Run(ttl, table, es).gets[id].value)
  {
    var g := Run(ttl, table, es).gets[id];
    NewGets(ttl, table, es, start, id);
    if g.Returned? {
      SettledMiss(ttl, table, es, since, start, g.key, g.value, Run(ttl, table, es[..start]).now, p);
    } else {
      HitsAreLessThanATtlOld(ttl, table, es, id);
      SettledHit(ttl, table, es, since, g.key, g.value, g.at, p);
    }
  }

  lemma SettledMiss<V>(ttl: nat, table: map<string, V>, es: seq<Event<V>>, since: nat, start: nat,
                       key: string, value: V, from: int, p: V -> bool)
    requires since <= start <= |es| && Settled(ttl, table, es, since, key, p)
    requires Held(ttl, table, es, start, key, value, from)
    ensures p(value)
  {
    var i :| start <= i <= |es| && HeldAt(ttl, table, es, i, key, value, from);
    assert es[..i] == es[..i];
  }

  lemma SettledHit<V>(ttl: nat, table: map<string, V>, es: seq<Event<V>>, since: nat, key: string, value: V, at: nat,
                      p: V -> bool)
    requires since <= |es| && Settled(ttl, table, es, since, key, p)
    requires HeldWithin(ttl, table, es, key, value, at) && Run(ttl, table, es[..since]).now + ttl <= at
    ensures p(value)
  {
    var i :| 0 <= i <= |es| && Holds(Run(ttl, table, es[..i]), key, value) && at - ttl < Run(ttl, table, es[..i]).now;
    if i < since { ClockIsMonotone(ttl, table, es, i, since); }
  }

  // ---- visibility of an update ----

  ghost predicate NoWrite<V>(es: seq<Event<V>>, key: string) {
    forall e :: e in es && (e.Write? || e.Remove?) ==> e.key != key
  }

  /** If the get starts after `es`, and nothing writes the key until it is done, what it
      returns is what the table held at the end of `es`. */
  ghost predicate SeesIt<V>(ttl: nat, table: map<string, V>, es: seq<Event<V>>, key: string, later: seq<Event<V>>,
                            id: nat)
    requires key in Run(ttl, table, es).table
  {
    var w, w' := Run(ttl, table, es), Run(ttl, table, es + later);
    NoWrite(later, key) && id !in w.gets && id in w'.gets && w'.gets[id].key == key
        && (w'.gets[id].Hit? || w'.gets[id].Returned?)
    ==> w'.gets[id].value == w.table[key]
  }

  /** A fetch under way that will not bring back another value than the table's: it has
      read that value, or what it stores will have expired. */
  predicate Harmless<V(==)>(ttl: nat, w: World<V>, key: string, g: Get<V>)
    requires key in w.table
  {
    g.Fetched? && g.key == key && g.value != w.table[key] ==> g.now + ttl <= w.now
  }

  predicate GetSees<V(==)>(ttl: nat, v: V, from: nat, g: Get<V>, before: bool) {
    match g
    case Looked(_, entry) => !before && entry.Some? ==> entry.value.value == v || entry.value.expiration <= from
    case Missed(_, _) => true
    case Fetched(_, now, value) => value == v || (before && now + ttl <= from)
    case Hit(_, _, value, _, _) => before || value == v
    case Returned(_, value) => before || value == v
    case Failed(_) => true
  }

  /** What a continuation without writes of the key keeps. */
  ghost predicate Continued<V>(ttl: nat, w0: World<V>, w: World<V>, key: string) {
    && w0.now <= w.now && key in w0.table && Holds(w, key, w0.table[key])
    && (key in w.cache ==> w.cache[key].value == w0.table[key] || w.cache[key].expiration <= w0.now)
    && (forall id :: id in w.gets && w.gets[id].key == key ==>
          GetSees(ttl, w0.table[key], w0.now, w.gets[id], id in w0.gets))
  }

  lemma ContinuedGet<V>(ttl: nat, w0: World<V>, w: World<V>, key: string, e: Event<V>, id: nat)
    requires Continued(ttl, w0, w, key) && NoWrite([e], key)
    requires id in Next(ttl, w, e).gets && Next(ttl, w, e).gets[id].key == key
    ensures GetSees(ttl, w0.table[key], w0.now, Next(ttl, w, e).gets[id], id in w0.gets)
  {
  }

  lemma ContinuedStep<V>(ttl: nat, w0: World<V>, w: World<V>, key: string, e: Event<V>)
    requires Continued(ttl, w0, w, key) && NoWrite([e], key)
    ensures Continued(ttl, w0, Next(ttl, w, e), key)
  {
    assert e in [e];
    var w' := Next(ttl, w, e);
    forall id | id in w'.gets && w'.gets[id].key == key
      ensures GetSees(ttl, w0.table[key], w0.now, w'.gets[id], id in w0.gets)
    {
      ContinuedGet(ttl, w0, w, key, e, id);
    }
  }

  lemma {:induction false} ContinuedRun<V>(ttl: nat, table: map<string, V>, es: seq<Event<V>>, key: string,
                                           later: seq<Event<V>>)
    requires var w := Run(ttl, table, es);
             && key in w.table && key !in w.cache && forall id :: id in w.gets ==> Harmless(ttl, w, key, w.gets[id])
    requires NoWrite(later, key)
    ensures Continued(ttl, Run(ttl, table, es), Run(ttl, table, es + later), key)
    decreases |later|
  {
    if later == [] {
      assert es + later == es;
    } else {
      var n := |later| - 1;
      assert later[n] in later && forall e :: e in later[..n] ==> e in later;
      ContinuedRun(ttl, table, es, key, later[..n]);
      assert es + later == (es + later[..n]) + [later[n]];
      RunSnoc(ttl, table, es + later[..n], later[n]);
      ContinuedStep(ttl, Run(ttl, table, es), Run(ttl, table, es + later[..n]), key, later[n]);
    }
  }

  lemma {:induction false} AnUnusedId(ids: set<nat>) returns (id: nat)
    ensures forall x :: x in ids ==> x < id
  {
    if ids == {} {
      id := 0;
    } else {
      var x :| x in ids;
      var y := AnUnusedId(ids - {x});
      assert forall z :: z in ids ==> z == x || z in ids - {x};
      id := if x < y then y else x + 1;
    }
  }

  /** A harmful fetch stores its value, and the next get hits it. */
  lemma HarmfulContinuation<V>(ttl: nat, table: map<string, V>, es: seq<Event<V>>, key: string, id: nat)
    returns (later: seq<Event<V>>, id': nat)
    requires var w := Run(ttl, table, es);
             key in w.table && key !in w.cache && id in w.gets && !Harmless(ttl, w, key, w.gets[id])
    ensures !SeesIt(ttl, table, es, key, later, id')
  {
    var w := Run(ttl, table, es);
    var g := w.gets[id];
    id' := AnUnusedId(w.gets.Keys);
    later := [Store(id)] + [Lookup(id', key)] + [Clock(id')];
    RunSnoc(ttl, table, es, Store(id));
    RunSnoc(ttl, table, es + [Store(id)], Lookup(id', key));
    RunSnoc(ttl, table, es + [Store(id)] + [Lookup(id', key)], Clock(id'));
    assert es + later == es + [Store(id)] + [Lookup(id', key)] + [Clock(id')];
    HarmfulSteps(ttl, w, key, id, id');
  }

  lemma HarmfulSteps<V>(ttl: nat, w: World<V>, key: string, id: nat, id': nat)
    requires key in w.table && id in w.gets && !Harmless(ttl, w, key, w.gets[id]) && id' !in w.gets
    ensures var w' := Next(ttl, Next(ttl, Next(ttl, w, Store(id)), Lookup(id', key)), Clock(id'));
            id' in w'.gets && w'.gets[id'].Hit? && w'.gets[id'].key == key && w'.gets[id'].value == w.gets[id].value
  {
    var w1 := Next(ttl, w, Store(id));
    assert w1.cache[key] == Entry(id, w.gets[id].value, w.gets[id].now + ttl) && id' !in w1.gets;
    var w2 := Next(ttl, w1, Lookup(id', key));
    assert w2.gets[id'] == Looked(key, Some(w1.cache[key]));
  }

  /** An update through the cache has put its value and dropped the entry. Every get that
      starts then, and is done before the next write, returns what the table holds if and
      only if no fetch under way carries another value that would still be fresh. */
  lemma {:induction false} UpdateIsVisibleIff<V>(ttl: nat, table: map<string, V>, es: seq<Event<V>>, key: string)
    requires var w := Run(ttl, table, es); key in w.table && key !in w.cache
    ensures var w := Run(ttl, table, es);
            (forall later: seq<Event<V>>, id: nat {:trigger SeesIt(ttl, table, es, key, later, id)} ::
               SeesIt(ttl, table, es, key, later, id))
            <==> forall id :: id in w.gets ==> Harmless(ttl, w, key, w.gets[id])
  {
    var w := Run(ttl, table, es);
    if forall id :: id in w.gets ==> Harmless(ttl, w, key, w.gets[id]) {
      forall later: seq<Event<V>>, id: nat ensures SeesIt(ttl, table, es, key, later, id) {
        if NoWrite(later, key) { ContinuedRun(ttl, table, es, key, later); }
      }
    } else {
      var id :| id in w.gets && !Harmless(ttl, w, key, w.gets[id]);
      var later, id' := HarmfulContinuation(ttl, table, es, key, id);
    }
  }

  // ---- cleanup ----

  predicate IsCleanup<V>(e: Event<V>) {
    e.SweepClock? || e.Sweep?
  }

  /** The run without the background cleanup. */
  function Unswept<V>(es: seq<Event<V>>): seq<Event<V>> {
    if es == [] then []
    else if IsCleanup(es[|es| - 1]) then Unswept(es[..|es| - 1])
    else Unswept(es[..|es| - 1]) + [es[|es| - 1]]
  }

  /** Two gets that will go on alike: the same, or one missed an entry that is no use to the other. */
  predicate SameGet<V(==)>(now: nat, g: Get<V>, g': Get<V>) {
    g == g' || (g.Looked? && g'.Looked? && g.key == g'.key && !Fresh(g.entry, now) && !Fresh(g'.entry, now))
  }

  predicate SameEntry<V(==)>(now: nat, e: Option<Entry<V>>, e': Option<Entry<V>>) {
    e == e' || (!Fresh(e, now) && !Fresh(e', now))
  }

  predicate SameGets<V(==)>(w: World<V>, w': World<V>, id: nat) {
    && (id in w.gets <==> id in w'.gets)
    && (id in w.gets ==> SameGet(w.now, w.gets[id], w'.gets[id]))
  }

  predicate SameEntries<V(==)>(w: World<V>, w': World<V>, key: string) {
    SameEntry(w.now, Entered(w.cache, key), Entered(w'.cache, key))
  }

  ghost predicate Similar<V>(w: World<V>, w': World<V>) {
    && w.now == w'.now && w.table == w'.table && w.raised == w'.raised
    && (forall id :: SameGets(w, w', id))
    && (forall key :: SameEntries(w, w', key))
    && (w.sweep.Some? ==> w.sweep.value <= w.now)
  }

  lemma BothKeepEntry<V>(ttl: nat, w: World<V>, w': World<V>, e: Event<V>, key: string)
    requires Similar(w, w') && !IsCleanup(e)
    ensures SameEntries(Next(ttl, w, e), Next(ttl, w', e), key)
  {
    assert SameEntries(w, w', key);
    if e.Store? { assert SameGets(w, w', e.id); }
  }

  predicate MovesGet<V>(e: Event<V>, id: nat) {
    (e.Lookup? || e.Clock? || e.Fetch? || e.Store?) && e.id == id
  }

  lemma GetIsLeft<V>(ttl: nat, w: World<V>, e: Event<V>, id: nat)
    requires !MovesGet(e, id)
    ensures id in Next(ttl, w, e).gets <==> id in w.gets
    ensures id in w.gets ==> Next(ttl, w, e).gets[id] == w.gets[id]
  {
  }

  lemma BothKeepGet<V>(ttl: nat, w: World<V>, w': World<V>, e: Event<V>, id: nat)
    requires Similar(w, w') && !IsCleanup(e)
    ensures SameGets(Next(ttl, w, e), Next(ttl, w', e), id)
  {
    assert SameGets(w, w', id);
    if MovesGet(e, id) {
      BothMoveGet(ttl, w, w', e, id);
    } else {
      GetIsLeft(ttl, w, e, id);
      GetIsLeft(ttl, w', e, id);
      ClockNeverGoesBack(ttl, w, e);
    }
  }

  lemma BothMoveGet<V>(ttl: nat, w: World<V>, w': World<V>, e: Event<V>, id: nat)
    requires Similar(w, w') && MovesGet(e, id) && SameGets(w, w', id)
    ensures SameGets(Next(ttl, w, e), Next(ttl, w', e), id)
  {
    match e
    case Lookup(_, key) => assert SameEntries(w, w', key);
    case Clock(_) => if id in w.gets { BothClocked(w, w', id); }
    case Fetch(_, _) =>
    case Store(_) =>
  }

  lemma BothClocked<V>(w: World<V>, w': World<V>, id: nat)
    requires Similar(w, w') && id in w.gets && id in w'.gets && SameGet(w.now, w.gets[id], w'.gets[id])
    ensures w.gets[id].Looked? <==> w'.gets[id].Looked?
    ensures w.gets[id].Looked? ==> Clocked(w, w.gets[id]) == Clocked(w', w'.gets[id])
  {
  }

  lemma BothKeepRest<V>(ttl: nat, w: World<V>, w': World<V>, e: Event<V>)
    requires w.now == w'.now && w.table == w'.table && w.raised == w'.raised && !IsCleanup(e)
    ensures Next(ttl, w, e).now == Next(ttl, w', e).now && Next(ttl, w, e).table == Next(ttl, w', e).table
    ensures Next(ttl, w, e).raised == Next(ttl, w', e).raised
    ensures Next(ttl, w, e).sweep == w.sweep && Next(ttl, w, e).now >= w.now
  {
  }

  lemma BothStep<V>(ttl: nat, w: World<V>, w': World<V>, e: Event<V>, v: World<V>, v': World<V>)
    requires Similar(w, w') && !IsCleanup(e)
    requires v == Next(ttl, w, e) && v' == Next(ttl, w', e)
    ensures Similar(v, v')
  {
    BothKeepRest(ttl, w, w', e);
    forall key ensures SameEntries(v, v', key) { BothKeepEntry(ttl, w, w', e, key); }
    forall id ensures SameGets(v, v', id) { BothKeepGet(ttl, w, w', e, id); }
  }

  lemma CleanupIsUnseen<V>(ttl: nat, w: World<V>, w': World<V>, e: Event<V>, v: World<V>)
    requires Similar(w, w') && IsCleanup(e) && v == Next(ttl, w, e)
    ensures Similar(v, w')
  {
    forall key ensures SameEntries(v, w', key) { assert SameEntries(w, w', key); }
    forall id ensures SameGets(v, w', id) { assert SameGets(w, w', id); }
  }

  lemma {:induction false} RunsAreSimilar<V>(ttl: nat, table: map<string, V>, es: seq<Event<V>>)
    ensures Similar(Run(ttl, table, es), Run(ttl, table, Unswept(es)))
  {
    if es != [] {
      var n := |es| - 1;
      RunsAreSimilar(ttl, table, es[..n]);
      if IsCleanup(es[n]) {
        CleanupIsUnseen(ttl, Run(ttl, table, es[..n]), Run(ttl, table, Unswept(es[..n])), es[n], Run(ttl, table, es));
      } else {
        RunSnoc(ttl, table, Unswept(es[..n]), es[n]);
        BothStep(ttl, Run(ttl, table, es[..n]), Run(ttl, table, Unswept(es[..n])), es[n],
                 Run(ttl, table, es), Run(ttl, table, Unswept(es)));
      }
    }
  }

  /** cleanupExpiredEntries never changes what a get returns: without it, the same run
      gives every get the same outcome and leaves the same table. */
  lemma CleanupChangesNoGet<V>(ttl: nat, table: map<string, V>, es: seq<Event<V>>)
    ensures var w, w' := Run(ttl, table, es), Run(ttl, table, Unswept(es));
            && w.table == w'.table
            && (forall id :: id in w.gets <==> id in w'.gets)
            && (forall id :: id in w.gets && !w.gets[id].Looked? ==> w'.gets[id] == w.gets[id])
  {
    RunsAreSimilar(ttl, table, es);
    var w, w' := Run(ttl, table, es), Run(ttl, table, Unswept(es));
    forall id ensures id in w.gets <==> id in w'.gets { assert SameGets(w, w', id); }
    forall id | id in w.gets && !w.gets[id].Looked? ensures w'.gets[id] == w.gets[id] { assert SameGets(w, w', id); }
  }
}
