# fastapi-config configuration store, modelled in Dafny

This project models the core of fastapi-config, a configuration store for an
admin-panel framework. Configuration rows live in one table (`key`, `name`,
`desc`, `data`). A caller names a configuration either by a raw string or by a
schema type. The store answers reads from an in-memory cache when it can
(read-aside). On a miss it reads the table and caches the outcome, including
"not found". A write upserts the row and then drops the cache entry
(invalidate-on-write). There is one store instance per database handle.

Modules, one concern each:

- `Wrappers` (`wrappers.dfy`): `Option` and `Result`.
- `Models` (`models.dfy`): the row shape, the two kinds of identity (`Str`, `Schema`) and `GetKey`, which derives the persistence key.
- `Codec` (`codec.dfy`): a stand-in for the schema library's `json()`/`parse_raw`, with the round trip proved.
- `StoreSpec` (`store_spec.dfy`): the store's behaviour as functions of (cache, table), plus the lemmas about read, upsert and invalidation.
- `Cache` (`cache.dfy`): `BaseConfigCache` as a class over a `map`.
- `Backends` (`backends.dfy`): `Database` (the table), `BaseConfigStore`, `DbConfigStore` and the per-database `Registry`. Their methods are proved against `StoreSpec`.
- `Scenarios` (`scenarios.dfy`): the repository's test scenarios, driven through the methods.

Behaviour kept exactly as the code has it:

- The cache is keyed by the raw identity, but the table is keyed by `GetKey(k)`. So `Str("SiteConfig")` and the type `SiteConfig` share a row but have separate cache entries. `StaleAliasAfterSave` shows that the other entry can go stale. `SaveCoherentIffAliasesAgree` says exactly when coherence survives a save.
- `DbConfigStore.save` has no empty-payload guard and always returns true. Only `BaseConfigStore.save` refuses `""`.
- Constructing a store for a registered database returns the registered instance. `__init__` then runs again and replaces that instance's cache.

Three properties one might expect of such a store do not hold in the code, and the model follows the code:
- Not every `save` rejects an empty payload. `DbConfigStore.save` writes `""` like any other payload (fastapi_config/backends.py:164-168); only the base class refuses it (fastapi_config/backends.py:45-46).
- The `key` column is declared `index=True`, not unique (fastapi_config/models.py:16). The store never inserts a second row for a key (`Upsert`). The table is a map, and `Database.Valid` (`WellKeyed`: each row sits under its own key) is set up by the `Database` constructor and kept by every save.
- The in-memory cache is keyed by the raw identity, not the derived key (fastapi_config/backends.py:19,157,160).

## Model

| member | source | states |
|---|---|---|
| Models.GetKey | fastapi_config/models.py:28-29 | a string is its own key; a schema type's key is its `__key__` when declared, else its class name |
| Models.SchemaAndItsNameShareKey | fastapi_config/models.py:29 | a schema type without `__key__` and the string of its name are distinct identities with the same persistence key |
| Models.NewRowShape | fastapi_config/models.py:16-19 | an inserted row has `name == key`, `desc == ""` and the given `data`; it fits the declared widths (20/20/400) iff its key has at most 20 characters |
| Codec.Parse | fastapi_config/backends.py:122 | a parsed payload is an instance of the requested schema with exactly its fields; an arity mismatch reports expected and found counts |
| Codec.RoundTrip | fastapi_config/backends.py:112-122 | parsing the payload serialized from a well-formed instance gives back that instance |
| Codec.SerializeInjective | fastapi_config/backends.py:114 | two well-formed instances of one schema with the same payload are equal |
| StoreSpec.Upsert | fastapi_config/backends.py:145-154 | afterwards the key holds a row with the new data; an unseen key gets `{key, name: key, desc: "", data}`; an existing row keeps key, name and desc; other rows are unchanged; the key set grows by exactly this key; one row per key is preserved |
| StoreSpec.SetBefore | fastapi_config/backends.py:112-117 | an identity with a payload passes through unchanged; an instance becomes its schema type with a payload that parses back to the instance |
| StoreSpec.GetAfter | fastapi_config/backends.py:119-122 | absence stays absence; a string identity yields the raw payload; a schema identity yields an instance of that schema iff the payload parses, else the parse error |
| StoreSpec.BaseSaveOutcome | fastapi_config/backends.py:43-48 | base `save` succeeds iff the payload is non-empty; on success only the entry of `k` is dropped, otherwise the cache is unchanged |
| StoreSpec.ReadHit | fastapi_config/backends.py:157-162 | a cached identity is answered from the cache, a cached "not found" included, and the cache is unchanged |
| StoreSpec.ReadMiss | fastapi_config/backends.py:156-161 | on a miss or with the cache bypassed, read returns the table's row for `GetKey(k)` or absence, and the cache then holds exactly that outcome under `k` and nothing else changes |
| StoreSpec.ReadKeepsCoherence | fastapi_config/backends.py:156-162 | from a cache that agrees with the table, read returns the table's row and leaves the cache in agreement |
| StoreSpec.EmptyCacheRowsPersisted | fastapi_config/backends.py:18-19 | a new cache satisfies `CachedRowsPersisted`: every cached row is persisted under its identity's derived key and carries that key |
| StoreSpec.ReadKeepsRowsPersisted | fastapi_config/backends.py:156-161 | over a well-keyed table, a read keeps every cached row persisted under its derived key |
| StoreSpec.SaveKeepsRowsPersisted | fastapi_config/backends.py:164-168 | a save keeps every cached row persisted, even when it leaves an alias stale |
| StoreSpec.ReadRowHasKey | fastapi_config/backends.py:139-143 | in every state reached from a fresh cache through this store's reads and saves (`CachedRowsPersisted`), a row that read returns is stored under the identity's derived key and carries it in its `key` column |
| StoreSpec.NeverWrittenIsAbsent | fastapi_config/backends.py:58-60 | in every state reached from a fresh cache through this store's reads and saves (`CachedRowsPersisted`), `get` of an identity whose key was never written yields absence, for strings and schema types |
| StoreSpec.GetAfterInvertsSetBefore | fastapi_config/backends.py:112-122 | turning the written row back into a value gives the instance that was set, the raw payload for a string, or the payload parsed as the schema |
| StoreSpec.SetThenGet | fastapi_config/backends.py:164-168 | from any cache and table, `set` then `get` of the same identity yields what was written, cached or not, and the row count grows by at most one |
| StoreSpec.SecondSetOverwrites | fastapi_config/backends.py:145-154 | a second write to the same identity replaces the data and leaves the row count unchanged |
| StoreSpec.SaveCoherentIffAliasesAgree | fastapi_config/backends.py:164-168 | from a coherent cache, save leaves it coherent iff every other cached identity with the same derived key already holds the new row |
| StoreSpec.StaleAliasAfterSave | fastapi_config/backends.py:157-167 | saving through the type `SiteConfig` leaves the string `"SiteConfig"`'s cached "not found" in place, so a cached read of the string misses the saved row; the state is not coherent but still satisfies `CachedRowsPersisted` |
| StoreSpec.BaseSReadResult | fastapi_config/backends.py:77-81 | the inherited `sread` over the database read: with the cache bypassed it returns the table's row; with the cache in use it returns the cached entry, or absence on a miss |
| StoreSpec.BaseSReadIgnoresTable | fastapi_config/backends.py:77-81 | with the cache in use, the inherited `sread` gives the same answer whatever the table holds |
| StoreSpec.BaseSReadMissesPersistedRow | fastapi_config/backends.py:79 | a row that is persisted but not cached: the inherited `sread` reports it absent while the override finds it |
| Cache.ConfigCache.constructor | fastapi_config/backends.py:18-19 | a new cache is empty |
| Cache.ConfigCache.Get | fastapi_config/backends.py:21-22 | returns the cached row or cached "not found", and `None` for an identity not held |
| Cache.ConfigCache.Set | fastapi_config/backends.py:24-25 | the identity then holds the given value and every other entry is unchanged |
| Cache.ConfigCache.Delete | fastapi_config/backends.py:27-29 | the identity then has no entry; other entries are unchanged; deleting an absent identity changes nothing |
| Cache.ConfigCache.Exists | fastapi_config/backends.py:31-32 | true iff the cache holds an entry for the identity, a cached "not found" included |
| Cache.CacheOrNew | fastapi_config/backends.py:37 | the given cache when one is passed, else a fresh empty cache |
| Backends.Database.constructor | fastapi_config/models.py:10-19 | the table starts with the given rows, each under its own `key` column (`Valid`) |
| Backends.BaseConfigStore.constructor | fastapi_config/backends.py:36-37 | the store uses the given cache, else a fresh empty one |
| Backends.BaseConfigStore.Read | fastapi_config/backends.py:39-41 | the abstract store's read always fails |
| Backends.BaseConfigStore.Save | fastapi_config/backends.py:43-48 | result and new cache are `BaseSaveOutcome`: refuse an empty payload, else invalidate `k` |
| Backends.BaseConfigStore.SRead | fastapi_config/backends.py:77-81 | the base `sread` fails (through `read`) iff the cache is bypassed or holds the identity; a miss with the cache in use answers absence |
| Backends.BaseConfigStore.Set | fastapi_config/backends.py:107-117 | the base `set`/`sset` normalise the call shape and then act as the base `save`: an empty payload leaves the cache alone, otherwise the identity's entry is dropped |
| Backends.DbConfigStore.constructor | fastapi_config/backends.py:135-137 | a new store wraps the given database and the given cache or a fresh empty one |
| Backends.DbConfigStore.Init | fastapi_config/backends.py:135-137 | running `__init__` again re-binds the database and replaces the cache, with a fresh empty one when none is given |
| Backends.DbConfigStore.ReadConfig | fastapi_config/backends.py:139-143 | returns the table's row under `GetKey(k)`, whose `key` column is `GetKey(k)`, or absence iff there is none |
| Backends.DbConfigStore.SaveConfig | fastapi_config/backends.py:145-154 | the new table is `Upsert(old table, GetKey(k), data)` and stays well keyed |
| Backends.DbConfigStore.Read | fastapi_config/backends.py:156-179 | returns `ReadResult` of the old cache and the table; the new cache is `CacheAfterRead`; the table is untouched (`read` and `sread`) |
| Backends.DbConfigStore.Save | fastapi_config/backends.py:164-187 | always returns true, upserts the row under `GetKey(k)`, keeps the table well keyed and drops exactly the cache entry of `k` (`save` and `ssave`) |
| Backends.DbConfigStore.Get | fastapi_config/backends.py:58-60 | returns `GetAfter` of what `read` returns; the cache changes as for `read` |
| Backends.DbConfigStore.Set | fastapi_config/backends.py:70-73 | normalises the call shape with `SetBefore`, upserts and invalidates the identity it derived |
| Backends.Registry.constructor | fastapi_config/backends.py:126 | the registry starts empty |
| Backends.Registry.ConstructAsWritten | fastapi_config/backends.py:126-137 | a first construction for a database that passes the `config_cache` keyword, a cache or an explicit `None`, fails and leaves the registry and every store's cache unchanged; otherwise it behaves as `Construct` with the cache `__init__` receives |
| Backends.Registry.Construct | fastapi_config/backends.py:126-137 | the intended construction: returns the registered store for the database or registers a fresh one; the registry gains at most this entry; every store stays registered under its own database; the returned store's cache is the given one or a fresh empty one; other stores keep their caches |
| Backends.ConstructTwice | fastapi_config/backends.py:126-133 | two constructions as written, without a cache, for one database return the same instance and add at most one registry entry, and the instance ends with an empty cache |

## Left out

- The asynchronous/synchronous duality of `DbConfigStore`. Its `read`/`sread`, `save`/`ssave`, `get`/`sget` and `set`/`sset` have one sequential model each. On that class they produce the same results and state changes; suspension and the sync bridge are I/O plumbing. On `BaseConfigStore` the pairs are not alike: `read` always fails, while `sread` with the cache in use returns absence on a miss, and `sget` follows it. The two are modelled apart, by `BaseConfigStore.Read` and `BaseConfigStore.SRead`, and the difference is the fastapi_config/backends.py:79 row under "## Findings".
- Sessions, `commit`, `async_run_sync` and `syncify`. Each database operation is one atomic update of the table. The detached `copy()` of a row is a value, since datatypes are values here.
- Concurrency: racing writers and racing cache updates ("last commit wins") are not modelled.
- Failures raised by the database itself, such as a lost connection or a `NOT NULL` violation, are not modelled.
- The `id` surrogate key is not modelled: the database assigns it and nothing in the store reads it.
- The `create_time`/`update_time` timestamps are not modelled, because they depend on the clock.
- Codec.Parse: the JSON encoding and pydantic validation are replaced by an escaped, field-per-terminator encoding. Only the field count is validated, not field types. The store relies only on the round trip, which is proved.
- Schema types are compared by value (name, `__key__`, field count), not by Python object identity.
- The declared column widths are a predicate (`WithinDeclaredLengths`), not a check. The store does not enforce them on insert.
- A table holding two rows with one key cannot arise through the store while its operations run one at a time, and is not represented. The column is indexed, not unique, so other writers could create such a table, and so could two concurrent first saves of one key that both find no row and both insert (fastapi_config/backends.py:147-150); concurrency is left out as stated above.
- `set` with an instance ignores a second argument. `set(k)` without a payload is outside the typed call shapes. Neither is modelled.
- `BaseConfigStore.get` and `sget` are not modelled as separate members of the base class. `get` always fails through `read`. `sget` returns what `BaseConfigStore.SRead` returns, passed through `GetAfter`: a failure when the cache is bypassed or holds the identity, absence on a miss. The base `set`/`sset` are `BaseConfigStore.Set`.
- The Redis-backed cache (fastapi_config/extensions/redis.py) is not part of this model. Neither are the admin-UI bindings (fastapi_config/admin.py), the globals hook (fastapi_config/globals.py), package initialisation and the demo application.
- Removal of registry entries at process teardown is not modelled.
- A cache passed to `__init__` (`config_cache`) is taken as it is. It may already hold entries, or be shared with a store on another database, and may then hold rows this store's table lacks. `CachedRowsPersisted`, and with it `ReadRowHasKey` and `NeverWrittenIsAbsent`, is promised only for a cache that starts empty and changes only through this store's reads and saves.

## Findings

| source | as written | input that shows it | evidently intended | confidence | as-written member | corrected member |
|---|---|---|---|---|---|---|
| fastapi_config/backends.py:131 | `__new__` forwards every keyword argument to `object.__new__`, which rejects any because the class overrides `__new__` | empty registry, `DbConfigStore(db, config_cache=c)` or `DbConfigStore(db, config_cache=None)` (any keyword argument, `config_cache=None` included) raises `TypeError` and registers nothing, while the same calls after `DbConfigStore(db)` succeed | `super().__new__(cls)`, so that the first construction accepts `config_cache` as `__init__` does | high; not executed | Backends.Registry.ConstructAsWritten | Backends.Registry.Construct |
| fastapi_config/backends.py:79 | `BaseConfigStore.sread` tests `not cache or exists(k)`, so with the cache in use it answers a miss from the empty cache and sends a hit to `read` | table holds `key1`, cache empty, `sread("key1")` returns `None` | `not cache or not exists(k)`, as the override at fastapi_config/backends.py:171 has it | high; not executed | StoreSpec.BaseSReadMissesPersistedRow | StoreSpec.ReadKeepsCoherence |

`StoreSpec.BaseSReadResult` models the inherited `sread` as a store would run it if it overrode `read` but not `sread`. `StoreSpec.BaseSReadIgnoresTable` shows that it never consults the table while the cache is in use. The corrected behaviour is `StoreSpec.ReadResult`, which `DbConfigStore.Read` implements. `ReadMiss` and `ReadKeepsCoherence` are proved about it.

`Backends.Registry.ConstructAsWritten` models the constructor as written. `Scenarios.CacheOnFirstConstructionScenario` drives it to the failure on an empty registry, for a cache and for an explicit `None`, and to success once the database is registered. `Backends.Registry.Construct` is the intended construction, used for fresh instances.
