/**
 * The configuration stores of fastapi_config/backends.py: the abstract base
 * store, the database-backed store with read-aside caching and
 * invalidate-on-write, and the per-database registry of store instances.
 */
module Backends {
  import opened Wrappers
  import opened Models
  import opened Codec
  import opened StoreSpec
  import opened Cache

  /** The persistence handle: the configuration table, addressed by the `key` column. */
  class Database {
    var table: Table

    constructor (table: Table)
      requires WellKeyed(table)
      ensures this.table == table && Valid()
    {
      this.table := table;
    }

    /** Each row sits under its own `key` column. */
    ghost predicate Valid()
      reads this
    {
      WellKeyed(table)
    }
  }

  /** The hard error of a store that does not provide persistence. */
  datatype StoreError = NotImplemented

  /** `BaseConfigStore`: only a cache; reading is left to subclasses. */
  class BaseConfigStore {
    var cache: ConfigCache

    constructor (given: Option<ConfigCache>)
      ensures given.Some? ==> cache == given.value
      ensures given.None? ==> fresh(cache) && cache.entries == map[]
    {
      var c := CacheOrNew(given);
      cache := c;
    }

    /** The base `read` fails loudly instead of answering "absent". */
    method Read(k: ConfigKey, useCache: bool) returns (r: Result<Option<ConfigRow>, StoreError>)
      ensures r.Failure?
    {
      r := Failure(NotImplemented);
    }

    /** The base `save`: refuses an empty payload, otherwise invalidates the entry of `k`. */
    method Save(k: ConfigKey, data: string) returns (ok: bool)
      modifies cache
      ensures (ok, cache.entries) == BaseSaveOutcome(old(cache.entries), k, data)
    {
      if data == "" {
        return false;
      }
      cache.Delete(k);
      ok := true;
    }

    /**
     * The base `sread`: a bypassed or cached identity goes to `read` and
     * fails; a miss with the cache in use answers "absent" from the cache.
     */
    method SRead(k: ConfigKey, useCache: bool) returns (r: Result<Option<ConfigRow>, StoreError>)
      ensures r.Failure? <==> !useCache || k in cache.entries
      ensures r.Success? ==> r.value == None
    {
      var cached := cache.Exists(k);
      if !useCache || cached {
        r := Read(k, useCache);
        return;
      }
      var obj := cache.Get(k);
      r := Success(obj);
    }

    /** The base `set` and `sset`: normalise the call shape, then the base `save`. */
    method Set(arg: SetArg)
      modifies cache
      ensures cache.entries == BaseSaveOutcome(old(cache.entries), SetBefore(arg).0, SetBefore(arg).1).1
    {
      var (key, data) := SetBefore(arg);
      var _ := Save(key, data);
    }
  }

  /** `DbConfigStore`: a store over one database, shared through the registry. */
  class DbConfigStore {
    var db: Database
    var cache: ConfigCache

    /** `__init__` on a fresh instance. */
    constructor (db: Database, given: Option<ConfigCache>)
      ensures this.db == db
      ensures given.Some? ==> cache == given.value
      ensures given.None? ==> fresh(cache) && cache.entries == map[]
    {
      var c := CacheOrNew(given);
      this.db, cache := db, c;
    }

    /** `__init__` run again on an instance the registry already holds: the cache is replaced. */
    method Init(db: Database, given: Option<ConfigCache>)
      modifies this
      ensures this.db == db
      ensures given.Some? ==> cache == given.value
      ensures given.None? ==> fresh(cache) && cache.entries == map[]
    {
      var c := CacheOrNew(given);
      this.db, cache := db, c;
    }

    /** `_read_config`: the row under the identity's derived key. */
    method ReadConfig(k: ConfigKey) returns (obj: Option<ConfigRow>)
      requires db.Valid()
      ensures obj.Some? <==> GetKey(k) in db.table
      ensures obj.Some? ==> obj.value == db.table[GetKey(k)] && obj.value.key == GetKey(k)
    {
      var key := GetKey(k);
      obj := if key in db.table then Some(db.table[key]) else None;
    }

    /** `_save_config`: inserts `{key, name: key, data}` for an unseen key, else updates only `data`. */
    method SaveConfig(k: ConfigKey, data: string)
      requires db.Valid()
      modifies db
      ensures db.Valid()
      ensures db.table == Upsert(old(db.table), GetKey(k), data)
    {
      var key := GetKey(k);
      var obj := ReadConfig(k);
      if obj.None? {
        db.table := db.table[key := NewRow(key, data)];
      } else {
        db.table := db.table[key := obj.value.(data := data)];
      }
    }

    /** `read` and `sread`: a hit answers from the cache; otherwise the table is queried and the outcome cached. */
    method Read(k: ConfigKey, useCache: bool) returns (r: Option<ConfigRow>)
      requires db.Valid()
      modifies cache
      ensures r == ReadResult(old(cache.entries), db.table, k, useCache)
      ensures cache.entries == CacheAfterRead(old(cache.entries), db.table, k, useCache)
    {
      var cached := cache.Exists(k);
      if !useCache || !cached {
        r := ReadConfig(k);
        cache.Set(k, r);
        return;
      }
      r := cache.Get(k);
    }

    /** `save` and `ssave`: no empty-payload guard; upsert, then drop the cache entry of `k`. */
    method Save(k: ConfigKey, data: string) returns (ok: bool)
      requires db.Valid()
      modifies db, cache
      ensures ok && db.Valid()
      ensures db.table == Upsert(old(db.table), GetKey(k), data)
      ensures cache.entries == old(cache.entries) - {k}
    {
      SaveConfig(k, data);
      cache.Delete(k);
      ok := true;
    }

    /** `get` and `sget`: read, then turn the row into a payload or an instance. */
    method Get(k: ConfigKey, useCache: bool) returns (r: Result<Option<ConfigValue>, ParseError>)
      requires db.Valid()
      modifies cache
      ensures r == GetAfter(k, ReadResult(old(cache.entries), db.table, k, useCache))
      ensures cache.entries == CacheAfterRead(old(cache.entries), db.table, k, useCache)
    {
      var obj := Read(k, useCache);
      r := GetAfter(k, obj);
    }

    /** `set` and `sset`: normalise the call shape, then save. */
    method Set(arg: SetArg)
      requires db.Valid()
      modifies db, cache
      ensures db.Valid()
      ensures db.table == Upsert(old(db.table), GetKey(SetBefore(arg).0), SetBefore(arg).1)
      ensures cache.entries == old(cache.entries) - {SetBefore(arg).0}
    {
      var (key, data) := SetBefore(arg);
      var _ := Save(key, data);
    }
  }

  /** The `TypeError` that `object.__new__` raises for forwarded keyword arguments. */
  datatype ConstructError = TypeError

  /**
   * The `config_cache` keyword of a construction call: left out, or passed
   * with a cache or with an explicit `None`.
   */
  datatype CacheKeyword = Omitted | Passed(value: Option<ConfigCache>)

  /** The cache `__init__` receives: an omitted keyword and an explicit `None` both give `None`. */
  function InitCache(kw: CacheKeyword): Option<ConfigCache>
  {
    if kw.Passed? then kw.value else None
  }

  /** The class-level `__instances__` dictionary: one store per database handle. */
  class Registry {
    var instances: map<Database, DbConfigStore>

    constructor ()
      ensures instances == map[] && Valid()
    {
      instances := map[];
    }

    /** Each registered store wraps the database it is registered under. */
    ghost predicate Valid()
      reads this, instances.Values
    {
      forall d :: d in instances ==> instances[d].db == d
    }

    /**
     * `DbConfigStore(db, config_cache=...)` as written: `__new__` forwards
     * every keyword argument to `object.__new__`, which rejects any because
     * the class overrides `__new__`. So a first construction that passes
     * `config_cache`, even as `None`, fails and registers nothing; otherwise
     * it behaves as `Construct` with the cache `__init__` receives.
     */
    method ConstructAsWritten(db: Database, kw: CacheKeyword) returns (r: Result<DbConfigStore, ConstructError>)
      requires Valid()
      modifies this, instances.Values
      ensures Valid()
      ensures r.Failure? <==> db !in old(instances) && kw.Passed?
      ensures r.Failure? ==> instances == old(instances)
      ensures r.Failure? ==> forall d :: d in instances ==> instances[d].cache == old(instances[d].cache)
      ensures r.Success? ==> instances == old(instances)[db := r.value] && r.value.db == db
      ensures r.Success? && db in old(instances) ==> r.value == old(instances[db])
      ensures r.Success? && db !in old(instances) ==> fresh(r.value)
      ensures r.Success? && InitCache(kw).Some? ==> r.value.cache == InitCache(kw).value
      ensures r.Success? && InitCache(kw).None? ==> fresh(r.value.cache) && r.value.cache.entries == map[]
      ensures r.Success? ==> forall d :: d in old(instances) && d != db ==> instances[d].cache == old(instances[d].cache)
    {
      if db !in instances && kw.Passed? {
        return Failure(TypeError);
      }
      var s := Construct(db, InitCache(kw));
      r := Success(s);
    }

    /**
     * `DbConfigStore(db, config_cache=...)` as intended: `__new__` returns
     * the registered instance or registers a new one, then `__init__` runs
     * on it and replaces its cache.
     */
    method Construct(db: Database, given: Option<ConfigCache>) returns (s: DbConfigStore)
      requires Valid()
      modifies this, instances.Values
      ensures Valid()
      ensures instances == old(instances)[db := s]
      ensures db in old(instances) ==> s == old(instances[db])
      ensures db !in old(instances) ==> fresh(s)
      ensures s.db == db
      ensures given.Some? ==> s.cache == given.value
      ensures given.None? ==> fresh(s.cache) && s.cache.entries == map[]
      ensures forall d :: d in old(instances) && d != db ==> instances[d].cache == old(instances[d].cache)
    {
      if db in instances {
        s := instances[db];
        s.Init(db, given);
      } else {
        s := new DbConfigStore(db, given);
        instances := instances[db := s];
      }
    }
  }

  /** Constructing twice for one database yields one instance and one registry entry; the second construction empties its cache. */
  method ConstructTwice(reg: Registry, db: Database) returns (s1: DbConfigStore, s2: DbConfigStore)
    requires reg.Valid()
    modifies reg, reg.instances.Values
    ensures reg.Valid()
    ensures s1 == s2 && s2.db == db
    ensures reg.instances == old(reg.instances)[db := s1]
    ensures reg.instances.Keys == old(reg.instances.Keys) + {db}
    ensures s2.cache.entries == map[]
  {
    var r1 := reg.ConstructAsWritten(db, Omitted);
    s1 := r1.value;
    var r2 := reg.ConstructAsWritten(db, Omitted);
    s2 := r2.value;
  }
}
