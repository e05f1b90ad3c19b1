/**
 * The store's behaviour as functions of its state: the cache (raw identity to
 * last-known row, possibly a cached "not found") and the table (persistence
 * key to row). The methods in module Backends are proved against these
 * functions; the lemmas here state what the read-aside cache with
 * invalidate-on-write promises.
 */
module StoreSpec {
  import opened Wrappers
  import opened Models
  import opened Codec

  type CacheMap = map<ConfigKey, Option<ConfigRow>>
  type Table = map<string, ConfigRow>

  /** What a caller gets back from `get`: the raw payload for a string identity, an instance for a schema type. */
  datatype ConfigValue = Text(s: string) | Instance(v: SchemaValue)

  /** The two call shapes of `set`: an instance alone, or an identity with an explicit payload. */
  datatype SetArg = OfInstance(v: SchemaValue) | OfKey(key: ConfigKey, payload: string)

  /** The row the table holds under `key`, if any. */
  function Lookup(table: Table, key: string): (r: Option<ConfigRow>)
    ensures r.Some? <==> key in table
  {
    if key in table then Some(table[key]) else None
  }

  /** Every row sits under its own `key` column, so the key addresses at most one row. */
  predicate WellKeyed(table: Table)
  {
    forall key :: key in table ==> table[key].key == key
  }

  /** Every cache entry agrees with the table under the identity's derived key. */
  predicate Coherent(entries: CacheMap, table: Table)
  {
    forall k :: k in entries ==> entries[k] == Lookup(table, GetKey(k))
  }

  /**
   * Every cached row is persisted under the derived key of its identity and
   * carries that key. Unlike `Coherent`, the store keeps this from an empty
   * cache whatever the order of reads and saves (a cached row may be stale,
   * but it never stands for a key the table lacks).
   */
  predicate CachedRowsPersisted(entries: CacheMap, table: Table)
  {
    forall j :: j in entries && entries[j].Some? ==> GetKey(j) in table && entries[j].value.key == GetKey(j)
  }

  /** True when `read` consults the cache instead of the table. */
  predicate CacheHit(entries: CacheMap, k: ConfigKey, useCache: bool)
  {
    useCache && k in entries
  }

  /** The row `read(k, cache)` returns. */
  function ReadResult(entries: CacheMap, table: Table, k: ConfigKey, useCache: bool): Option<ConfigRow>
  {
    if CacheHit(entries, k, useCache) then entries[k] else Lookup(table, GetKey(k))
  }

  /** The cache after `read(k, cache)`: a miss records the outcome, including "not found". */
  function CacheAfterRead(entries: CacheMap, table: Table, k: ConfigKey, useCache: bool): CacheMap
  {
    if CacheHit(entries, k, useCache) then entries else entries[k := Lookup(table, GetKey(k))]
  }

  /**
   * The table after `_save_config`: a new row for an unseen key, otherwise
   * only the `data` of the existing row changes.
   */
  function Upsert(table: Table, key: string, data: string): (t: Table)
    ensures t.Keys == table.Keys + {key}
    ensures key in t && t[key].data == data
    ensures key !in table ==> t[key] == NewRow(key, data)
    ensures key in table ==> t[key].key == table[key].key && t[key].name == table[key].name
                             && t[key].desc == table[key].desc
    ensures forall other :: other in table && other != key ==> t[other] == table[other]
    ensures WellKeyed(table) ==> WellKeyed(t)
  {
    if key in table then table[key := table[key].(data := data)] else table[key := NewRow(key, data)]
  }

  /** `_set_before`: the identity and payload that `set` hands to `save`. */
  function SetBefore(arg: SetArg): (r: (ConfigKey, string))
    ensures arg.OfKey? ==> r == (arg.key, arg.payload)
    ensures arg.OfInstance? ==> r.0 == Schema(arg.v.schema)
    ensures arg.OfInstance? && WellFormed(arg.v) ==> Parse(arg.v.schema, r.1) == Success(arg.v)
  {
    match arg
    case OfInstance(v) =>
      var r := (Schema(v.schema), Serialize(v));
      if WellFormed(v) then RoundTrip(v); r else r
    case OfKey(k, payload) => (k, payload)
  }

  /** `_get_after`: absence stays absence; a schema identity parses the payload, and a parse error propagates. */
  function GetAfter(k: ConfigKey, obj: Option<ConfigRow>): (r: Result<Option<ConfigValue>, ParseError>)
    ensures obj.None? ==> r == Success(None)
    ensures obj.Some? && k.Str? ==> r == Success(Some(Text(obj.value.data)))
    ensures obj.Some? && k.Schema? ==> (r.Failure? <==> Parse(k.t, obj.value.data).Failure?)
    ensures r.Failure? ==> k.Schema? && obj.Some? && r.error == Parse(k.t, obj.value.data).error
    ensures r.Success? && r.value.Some? && k.Schema? ==>
              r.value.value == Instance(Parse(k.t, obj.value.data).value) && r.value.value.v.schema == k.t
  {
    match obj
    case None => Success(None)
    case Some(row) =>
      match k
      case Str(_) => Success(Some(Text(row.data)))
      case Schema(t) =>
        match Parse(t, row.data)
        case Failure(e) => Failure(e)
        case Success(v) => Success(Some(Instance(v)))
  }

  /** The outcome of `BaseConfigStore.save`: an empty payload is refused and the cache is left alone. */
  function BaseSaveOutcome(entries: CacheMap, k: ConfigKey, data: string): (o: (bool, CacheMap))
    ensures o.0 <==> data != ""
    ensures o.0 ==> k !in o.1 && forall j :: j != k ==> (j in o.1 <==> j in entries)
    ensures o.0 ==> forall j :: j in o.1 ==> o.1[j] == entries[j]
    ensures !o.0 ==> o.1 == entries
  {
    if data == "" then (false, entries) else (true, entries - {k})
  }

  // ---------------------------------------------------------------- read

  /** A hit returns the cached row, which may be a cached "not found", and changes nothing. */
  lemma ReadHit(entries: CacheMap, table: Table, k: ConfigKey)
    requires k in entries
    ensures ReadResult(entries, table, k, true) == entries[k]
    ensures CacheAfterRead(entries, table, k, true) == entries
  {
  }

  /** A miss, or a read with the cache bypassed, returns the table's row and records exactly that under `k`. */
  lemma ReadMiss(entries: CacheMap, table: Table, k: ConfigKey, useCache: bool)
    requires !useCache || k !in entries
    ensures ReadResult(entries, table, k, useCache) == Lookup(table, GetKey(k))
    ensures CacheAfterRead(entries, table, k, useCache).Keys == entries.Keys + {k}
    ensures CacheAfterRead(entries, table, k, useCache)[k] == ReadResult(entries, table, k, useCache)
    ensures forall j :: j in entries && j != k ==> CacheAfterRead(entries, table, k, useCache)[j] == entries[j]
  {
  }

  /** From a coherent cache, a read returns what the table holds and leaves the cache coherent. */
  lemma ReadKeepsCoherence(entries: CacheMap, table: Table, k: ConfigKey, useCache: bool)
    requires Coherent(entries, table)
    ensures ReadResult(entries, table, k, useCache) == Lookup(table, GetKey(k))
    ensures Coherent(CacheAfterRead(entries, table, k, useCache), table)
  {
  }

  /** A new cache holds no row at all. */
  lemma EmptyCacheRowsPersisted(table: Table)
    ensures CachedRowsPersisted(map[], table)
  {
  }

  /** A read over a well-keyed table keeps every cached row persisted. */
  lemma ReadKeepsRowsPersisted(entries: CacheMap, table: Table, k: ConfigKey, useCache: bool)
    requires WellKeyed(table) && CachedRowsPersisted(entries, table)
    ensures CachedRowsPersisted(CacheAfterRead(entries, table, k, useCache), table)
  {
  }

  /** A save only adds keys to the table and only drops cache entries, so cached rows stay persisted. */
  lemma SaveKeepsRowsPersisted(entries: CacheMap, table: Table, k: ConfigKey, data: string)
    requires CachedRowsPersisted(entries, table)
    ensures CachedRowsPersisted(entries - {k}, Upsert(table, GetKey(k), data))
  {
  }

  /** What `read` returns is a row stored under the identity's derived key, as the `where key == ...` query selects. */
  lemma ReadRowHasKey(entries: CacheMap, table: Table, k: ConfigKey, useCache: bool)
    requires WellKeyed(table) && CachedRowsPersisted(entries, table)
    ensures ReadResult(entries, table, k, useCache).Some? ==>
              GetKey(k) in table && ReadResult(entries, table, k, useCache).value.key == GetKey(k)
  {
  }

  /** From a fresh cache changed only by this store's reads and saves, an identity whose key was never written reads as absent, for both shapes. */
  lemma NeverWrittenIsAbsent(entries: CacheMap, table: Table, k: ConfigKey, useCache: bool)
    requires CachedRowsPersisted(entries, table)
    requires GetKey(k) !in table
    ensures ReadResult(entries, table, k, useCache) == None
    ensures GetAfter(k, ReadResult(entries, table, k, useCache)) == Success(None)
  {
  }

  // ---------------------------------------------------------------- write

  /** What `get` returns after `set(arg)`: the instance, the raw payload, or the payload parsed as the schema. */
  function Written(arg: SetArg): Result<Option<ConfigValue>, ParseError>
  {
    match arg
    case OfInstance(v) => Success(Some(Instance(v)))
    case OfKey(Str(_), payload) => Success(Some(Text(payload)))
    case OfKey(Schema(t), payload) =>
      match Parse(t, payload)
      case Failure(e) => Failure(e)
      case Success(v) => Success(Some(Instance(v)))
  }

  /** `_get_after` undoes `_set_before` on the row that holds the written payload. */
  lemma GetAfterInvertsSetBefore(arg: SetArg, row: ConfigRow)
    requires arg.OfInstance? ==> WellFormed(arg.v)
    requires row.data == SetBefore(arg).1
    ensures GetAfter(SetBefore(arg).0, Some(row)) == Written(arg)
  {
    if arg.OfInstance? {
      RoundTrip(arg.v);
    }
  }

  /**
   * Read-your-writes from ANY state: after `set(arg)` (upsert, then drop the
   * cache entry of the identity), `get` of that identity yields what was
   * written, whether or not the cache is used, and the row count grows by at
   * most one.
   */
  lemma SetThenGet(entries: CacheMap, table: Table, arg: SetArg, useCache: bool)
    requires arg.OfInstance? ==> WellFormed(arg.v)
    ensures var (key, data) := SetBefore(arg);
            var table' := Upsert(table, GetKey(key), data);
            && GetAfter(key, ReadResult(entries - {key}, table', key, useCache)) == Written(arg)
            && |table'| == |table| + (if GetKey(key) in table then 0 else 1)
  {
    var (key, data) := SetBefore(arg);
    var table' := Upsert(table, GetKey(key), data);
    assert ReadResult(entries - {key}, table', key, useCache) == Some(table'[GetKey(key)]);
    GetAfterInvertsSetBefore(arg, table'[GetKey(key)]);
    if GetKey(key) in table {
      assert table'.Keys == table.Keys;
    } else {
      assert table'.Keys == table.Keys + {GetKey(key)};
    }
  }

  /** A second `set` of the same identity replaces the first; the row count stays the same. */
  lemma SecondSetOverwrites(entries: CacheMap, table: Table, k: ConfigKey, first: string, second: string)
    ensures var t1 := Upsert(table, GetKey(k), first);
            var t2 := Upsert(t1, GetKey(k), second);
            && ReadResult(entries - {k}, t2, k, true) == Some(t2[GetKey(k)])
            && t2[GetKey(k)].data == second
            && |t2| == |t1|
  {
  }

  /**
   * `save` invalidates only the raw identity it was given. From a coherent
   * cache it leaves a coherent cache exactly when every OTHER cached identity
   * that derives the same key already holds the new row.
   */
  lemma SaveCoherentIffAliasesAgree(entries: CacheMap, table: Table, k: ConfigKey, data: string)
    requires Coherent(entries, table)
    ensures var t := Upsert(table, GetKey(k), data);
            Coherent(entries - {k}, t) <==>
            (forall j :: j in entries && j != k && GetKey(j) == GetKey(k) ==> entries[j] == Some(t[GetKey(k)]))
  {
  }

  /**
   * The string `"SiteConfig"` and the type `SiteConfig` have separate cache
   * entries for one row: saving through the type leaves the string's cached
   * "not found" in place, so a cached read of the string misses the new row.
   */
  lemma StaleAliasAfterSave()
    ensures var t := SchemaType("SiteConfig", None, 1);
            var entries: CacheMap := map[Str("SiteConfig") := None, Schema(t) := None];
            var table := Upsert(map[], GetKey(Schema(t)), "a;");
            && Coherent(entries, map[])
            && "SiteConfig" in table
            && ReadResult(entries - {Schema(t)}, table, Str("SiteConfig"), true) == None
            && !Coherent(entries - {Schema(t)}, table)
            && CachedRowsPersisted(entries - {Schema(t)}, table)
  {
  }

  // ---------------------------------------------------------------- BaseConfigStore.sread as written

  /**
   * `BaseConfigStore.sread` as written, over the database `read`: the test
   * `not cache or exists(k)` sends a hit to `read` and answers a miss from
   * the cache, which yields "absent" without consulting the table.
   */
  function BaseSReadResult(entries: CacheMap, table: Table, k: ConfigKey, useCache: bool): (r: Option<ConfigRow>)
    ensures !useCache ==> r == Lookup(table, GetKey(k))
    ensures useCache && k in entries ==> r == entries[k]
    ensures useCache && k !in entries ==> r == None
  {
    // the else branch is `cache.get(k)` on an identity the cache does not hold
    if !useCache || k in entries then ReadResult(entries, table, k, useCache) else None
  }

  /** With the cache in use, the inherited `sread` never looks at the table. */
  lemma BaseSReadIgnoresTable(entries: CacheMap, table: Table, other: Table, k: ConfigKey)
    ensures BaseSReadResult(entries, table, k, true) == BaseSReadResult(entries, other, k, true)
  {
  }

  /** A row that is persisted but not cached: the inherited `sread` reports it absent, the override finds it. */
  lemma BaseSReadMissesPersistedRow()
    ensures var table: Table := map["key1" := NewRow("key1", "value1")];
            && BaseSReadResult(map[], table, Str("key1"), true) == None
            && ReadResult(map[], table, Str("key1"), true) == Some(NewRow("key1", "value1"))
  {
  }
}
