/**
 * The scenarios of tests/test_DbConfigStore.py, driven through the store's
 * methods on a fresh, empty table: what a caller can conclude from the
 * contracts alone.
 */
module Scenarios {
  import opened Wrappers
  import opened Models
  import opened Codec
  import opened StoreSpec
  import opened Cache
  import opened Backends

  /** A string identity: absent at first, then the payload that was set. */
  method StringKeyScenario()
  {
    var db := new Database(map[]);
    var store := new DbConfigStore(db, None);
    var data := store.Get(Str("key1"), true);
    assert data == Success(None);

    store.Set(OfKey(Str("key1"), "value1"));
    data := store.Get(Str("key1"), true);
    assert data == Success(Some(Text("value1")));
  }

  /**
   * A schema identity: absent, then the instance set, again from the cache,
   * then an overwrite by payload. The field values are left open (the test
   * uses a site name and a URL).
   */
  method SchemaKeyScenario(name: string, url: string, name2: string)
  {
    var site := SchemaType("SiteConfig", None, 2);
    var db := new Database(map[]);
    var store := new DbConfigStore(db, None);
    var data := store.Get(Schema(site), true);
    assert data == Success(None);

    var val := SchemaValue(site, [name, url]);
    store.Set(OfInstance(val));
    data := store.Get(Schema(site), true);
    RoundTrip(val);
    assert data == Success(Some(Instance(val)));

    // a second read is a cache hit and returns the same instance
    data := store.Get(Schema(site), true);
    assert data == Success(Some(Instance(val)));

    var val2 := SchemaValue(site, [name2, url]);
    store.Set(OfKey(Schema(site), Serialize(val2)));
    data := store.Get(Schema(site), true);
    RoundTrip(val2);
    assert data == Success(Some(Instance(val2)));
    assert |db.table| == 1;
  }

  /** Two constructions for one database share the instance, so a write through one is read through the other. */
  method SharedInstanceScenario()
  {
    var reg := new Registry();
    var db := new Database(map[]);
    var r1 := reg.ConstructAsWritten(db, Omitted);
    var r2 := reg.ConstructAsWritten(db, Omitted);
    var first, second := r1.value, r2.value;
    assert first == second;

    first.Set(OfKey(Str("key1"), "value1"));
    var data := second.Get(Str("key1"), true);
    assert data == Success(Some(Text("value1")));
  }

  /**
   * Passing `config_cache` on the first construction for a database, a cache
   * or an explicit `None`, fails and registers nothing; once the database is
   * registered, the same calls succeed.
   */
  method CacheOnFirstConstructionScenario()
  {
    var reg := new Registry();
    var db := new Database(map[]);
    var c := new ConfigCache();
    var r := reg.ConstructAsWritten(db, Passed(Some(c)));
    assert r.Failure? && reg.instances == map[];
    r := reg.ConstructAsWritten(db, Passed(None));
    assert r.Failure? && reg.instances == map[];

    r := reg.ConstructAsWritten(db, Omitted);
    assert r.Success?;
    r := reg.ConstructAsWritten(db, Passed(Some(c)));
    assert r.Success? && r.value.cache == c;
    r := reg.ConstructAsWritten(db, Passed(None));
    assert r.Success? && r.value.cache.entries == map[];
  }
}
