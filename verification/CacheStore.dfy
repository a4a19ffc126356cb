/** pkg/controller/virtualdatabase/cachestore.go: an Infinispan cache store where the operator for it runs. */
module CacheStore {
  import opened Outcomes
  import opened EnvVars
  import opened Vdb

  /** Whether the Infinispan operator is there, whether a secret configures a store, and whether creating
      a store succeeds. */
  datatype Answers = Answers(available: bool, configured: bool, created: bool)

  predicate ParseBool(s: string) {
    s in ["1", "t", "T", "TRUE", "true", "True"]
  }

  predicate Ignored(env: seq<EnvVar>, available: bool) {
    var flag := Lookup(env, "DISABLE_ISPN_CACHING");
    !available || (flag.Some? && ParseBool(flag.value.value))
  }

  function Handled(v: Resource, a: Answers): Resource {
    var store := if Ignored(v.spec.env, a.available) || a.configured || !a.created then v.status.cacheStore
                 else v.namespace + "/" + (v.name + "-cache-store");
    v.(status := v.status.(cacheStore := store, phase := S2IReady))
  }

  method IgnoreCacheStore(env: seq<EnvVar>, available: bool) returns (r: bool)
    ensures r == Ignored(env, available)
  {
    var disable := true;
    if available {
      disable := false;
    }
    var flag := Lookup(env, "DISABLE_ISPN_CACHING");
    if flag.Some? {
      disable := ParseBool(flag.value.value);
    }
    return !available || disable;
  }

  method Handle(vdb: VirtualDatabase, a: Answers)
    requires vdb.status.phase == CreateCacheStore
    modifies vdb
    ensures vdb.Value() == Handled(old(vdb.Value()), a)
  {
    var ignore := IgnoreCacheStore(vdb.spec.env, a.available);
    if ignore {
      vdb.status := vdb.status.(phase := S2IReady);
      return;
    }
    var createIfNotFound := !a.configured;
    if createIfNotFound && a.created {
      vdb.status := vdb.status.(cacheStore := vdb.namespace + "/" + (vdb.name + "-cache-store"));
    }
    vdb.status := vdb.status.(phase := S2IReady);
  }

  // ---------- properties ----------

  /** The phase always moves on. A store is recorded if and only if the Infinispan operator is there, the user
      does not switch caching off, no secret configures a store, and one can be created. */
  lemma StoreRecordedExactly(v: Resource, a: Answers)
    ensures
      var flag := Lookup(v.spec.env, "DISABLE_ISPN_CACHING");
      var off := flag.Some? && flag.value.value in ["1", "t", "T", "TRUE", "true", "True"];
      var made := a.available && !off && !a.configured && a.created;
      Handled(v, a) == v.(status := v.status.(
        phase := S2IReady,
        cacheStore := if made then v.namespace + "/" + (v.name + "-cache-store") else v.status.cacheStore))
  {}
}
