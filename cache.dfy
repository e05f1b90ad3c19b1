/** `BaseConfigCache`: an in-memory dictionary from the raw identity to the last-known row. */
module Cache {
  import opened Wrappers
  import opened Models

  class ConfigCache {
    /** The dictionary; a value `None` is a cached "not found". */
    var entries: map<ConfigKey, Option<ConfigRow>>

    constructor ()
      ensures entries == map[]
    {
      entries := map[];
    }

    /** The cached row, or `None` both for a cached "not found" and for an identity not held. */
    method Get(k: ConfigKey) returns (r: Option<ConfigRow>)
      ensures k in entries ==> r == entries[k]
      ensures k !in entries ==> r == None
    {
      r := if k in entries then entries[k] else None;
    }

    /** Records `v` under `k`; every other identity keeps its entry. */
    method Set(k: ConfigKey, v: Option<ConfigRow>)
      modifies this
      ensures entries == old(entries)[k := v]
    {
      entries := entries[k := v];
    }

    /** Drops the entry of `k`, if there is one; every other identity keeps its entry. */
    method Delete(k: ConfigKey)
      modifies this
      ensures entries == old(entries) - {k}
      ensures old(k !in entries) ==> entries == old(entries)
    {
      if k in entries {
        entries := entries - {k};
      }
    }

    /** Whether the cache holds an entry for `k`, a cached "not found" included. */
    method Exists(k: ConfigKey) returns (b: bool)
      ensures b <==> k in entries
    {
      b := k in entries;
    }
  }

  /** `config_cache or BaseConfigCache()`: the given cache, else a fresh empty one. */
  method CacheOrNew(given: Option<ConfigCache>) returns (c: ConfigCache)
    ensures given.Some? ==> c == given.value
    ensures given.None? ==> fresh(c) && c.entries == map[]
  {
    if given.Some? {
      c := given.value;
    } else {
      c := new ConfigCache();
    }
  }
}
