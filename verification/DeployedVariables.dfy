/** What single variables of the deployed container are, by their names: the defaults, Jaeger's and the cache
    store's variables, and everything else. */
module DeployedVariables {
  import opened Outcomes
  import opened FirstWins
  import opened EnvVars
  import opened Proxy
  import opened DeploymentEnvs
  import CacheStore
  import DataSources
  import SpringProperties
  import Vdb

  // ---------- names ----------

  /** The names of the layers differ in length, but for one. */
  lemma Absent(vars: seq<EnvVar>, name: string)
    requires forall i :: 0 <= i < |vars| ==> |vars[i].name| != |name|
    ensures Lookup(vars, name).None?
  {}

  lemma FoundIn(vars: seq<EnvVar>, v: EnvVar)
    requires UniqueNames(vars) && v in vars
    ensures Lookup(vars, v.name) == Some(v)
  {
    var i :| 0 <= i < |vars| && vars[i] == v;
    FindUnique(vars, BY_NAME, i);
  }

  lemma NotProxy(c: ClusterEnv, name: string)
    requires |name| > 8 && (|name| > 11 || name[1] == 'A')
    ensures Lookup(ClusterLayer(c), name).None?
  {
    if ClusterDefined(c) {
      LayerLookup(c, name);
    }
  }

  lemma NotDefault(javaProperties: string, name: string)
    requires |name| > 14 && |name| != 22
    ensures Lookup(Defaults(javaProperties), name).None?
  {
    DefaultLengths(javaProperties);
    Absent(Defaults(javaProperties), name);
  }

  lemma DefaultLengths(javaProperties: string)
    ensures
      var d := Defaults(javaProperties);
      forall k :: 0 <= k < |d| ==>
        && 9 <= |d[k].name| && (|d[k].name| <= 14 || |d[k].name| == 22)
        && (|d[k].name| > 11 || d[k].name[1] == 'A')
  {
    var d := Defaults(javaProperties);
    assert |d[0].name| == |d[1].name| == 12;
    assert |d[2].name| == 10 && |d[3].name| == 22 && |d[4].name| == 9 && |d[5].name| == 14 && |d[6].name| == 13;
    assert d[2].name[1] == 'A' && d[4].name[1] == 'A';
  }

  lemma NotJaeger(serviceName: string, name: string)
    requires |name| > 19
    ensures Lookup(JaegerEnvs(serviceName), name).None?
  {
    Absent(JaegerEnvs(serviceName), name);
  }

  lemma NotCacheStore(vdbName: string, secret: string, name: string)
    requires |name| < 49
    ensures Lookup(CacheStoreEnvs(vdbName, secret), name).None?
  {
    Absent(CacheStoreEnvs(vdbName, secret), name);
  }

  lemma DefaultsUnique(javaProperties: string)
    ensures UniqueNames(Defaults(javaProperties))
  {
    var d := Defaults(javaProperties);
    assert |d[0].name| == |d[1].name| == 12 && d[0].name[5] == 'A' && d[1].name[5] == 'O';
    assert |d[2].name| == 10 && |d[3].name| == 22 && |d[4].name| == 9 && |d[5].name| == 14 && |d[6].name| == 13;
  }

  lemma JaegerUnique(serviceName: string)
    ensures UniqueNames(JaegerEnvs(serviceName))
  {
    var j := JaegerEnvs(serviceName);
    assert |j[0].name| == |j[1].name| == 17 && j[0].name[13] == 'H' && j[1].name[13] == 'P';
    assert |j[2].name| == 19;
  }

  lemma CacheStoreUnique(vdbName: string, secret: string)
    ensures UniqueNames(CacheStoreEnvs(vdbName, secret))
  {
    var s := CacheStoreEnvs(vdbName, secret);
    assert |s[0].name| == |s[1].name| == 54 && s[0].name[46] == 'U' && s[1].name[46] == 'P';
    assert |s[2].name| == 49 && |s[3].name| == 61 && |s[4].name| == 55;
  }

  // ---------- layers ----------

  lemma FiveLayers(a: seq<EnvVar>, b: seq<EnvVar>, c: seq<EnvVar>, d: seq<EnvVar>, e: seq<EnvVar>, name: string)
    ensures FirstDefinition([a, b, c, d, e], name) ==
      Lookup(a, name).OrElse(Lookup(b, name).OrElse(Lookup(c, name).OrElse(Lookup(d, name).OrElse(Lookup(e, name)))))
  {
    assert [a, b, c, d, e][1..] == [b, c, d, e];
    assert [b, c, d, e][1..] == [c, d, e];
    assert [c, d, e][1..] == [d, e];
    assert [d, e][1..] == [e];
    assert [e][1..] == [];
    assert FirstDefinition([e], name) == Lookup(e, name);
    assert FirstDefinition([d, e], name) == Lookup(d, name).OrElse(Lookup(e, name));
    assert FirstDefinition([c, d, e], name) == Lookup(c, name).OrElse(FirstDefinition([d, e], name));
    assert FirstDefinition([b, c, d, e], name) == Lookup(b, name).OrElse(FirstDefinition([c, d, e], name));
  }

  /** What the data sources of the DDL set a variable to. */
  function FromSources(i: Inputs, a: Answers, name: string): Option<EnvVar>
    requires i.maven == "" || a.download.Success?
  {
    var sources := DataSources.Declared(if i.maven == "" then i.ddl else a.download.value);
    SpringProperties.LastWrite(SpringProperties.AllWrites(sources, i.dataSources, a.factories), name)
  }

  /** The layers with the conditions under which they apply. */
  lemma DeployedByLayers(i: Inputs, p: Platform, a: Answers, name: string)
    requires DeployedEnvironment(i, p, a).Success?
    ensures
      var jaeger := if i.jaeger != "" && a.hasJaeger(i.jaeger) then JaegerEnvs(i.name) else [];
      var store := if i.cacheStore != "" then CacheStoreEnvs(i.name, SecretName(i.name, a.hasSecret)) else [];
      Lookup(DeployedEnvironment(i, p, a).value, name) ==
        Lookup(i.env, name).OrElse(Lookup(ProxyLayer(i.env, p), name).OrElse(
          Lookup(Defaults(RenderedProxy(i.env, p)), name).OrElse(Lookup(jaeger, name).OrElse(
            Lookup(store, name).OrElse(FromSources(i, a, name))))))
  {
    var x := ExtrasOf(i, a, []);
    DeployedVariable(i, p, a, name);
    FiveLayers(i.env, ProxyLayer(i.env, p), Defaults(RenderedProxy(i.env, p)), x.jaeger, x.cacheStore, name);
  }

  /** The source is configured, with a space in its name or in that of a property. */
  predicate Spaced(source: SpringProperties.DatasourceInfo, configured: seq<SpringProperties.DataSource>) {
    var c := SpringProperties.FindConfigured(source.name, configured);
    c.Some? &&
    (' ' in c.value.name || exists j :: 0 <= j < |c.value.properties| && ' ' in c.value.properties[j].name)
  }

  /** There is no environment if and only if a Maven source's DDL cannot be had, or a configured source that the
      DDL declares has a space in its name or in a property name. */
  lemma NoEnvironment(i: Inputs, p: Platform, a: Answers)
    ensures i.maven != "" && a.download.Failure? ==> DeployedEnvironment(i, p, a) == Failure(a.download.error)
    ensures i.maven == "" || a.download.Success? ==>
      var sources := DataSources.Declared(if i.maven == "" then i.ddl else a.download.value);
      (DeployedEnvironment(i, p, a).Failure? <==>
        exists k :: 0 <= k < |sources| && Spaced(sources[k], i.dataSources))
  {
    if i.maven == "" || a.download.Success? {
      var sources := DataSources.Declared(if i.maven == "" then i.ddl else a.download.value);
      ConversionFails(i.dataSources, sources, a.factories);
      ConversionDecides(i, p, a);
    }
  }

  lemma ConversionFails(configured: seq<SpringProperties.DataSource>, sources: seq<SpringProperties.DatasourceInfo>,
                        factories: SpringProperties.Factories)
    ensures SpringProperties.Converted(configured, sources, factories).None? <==>
      exists k :: 0 <= k < |sources| && Spaced(sources[k], configured)
  {
    assert forall k :: 0 <= k < |sources| ==>
      SpringProperties.Acceptable(sources[k], configured) == !Spaced(sources[k], configured);
  }

  lemma ConversionDecides(i: Inputs, p: Platform, a: Answers)
    requires i.maven == "" || a.download.Success?
    ensures
      var sources := DataSources.Declared(if i.maven == "" then i.ddl else a.download.value);
      DeployedEnvironment(i, p, a).Failure? <==>
        SpringProperties.Converted(i.dataSources, sources, a.factories).None?
  {}

  /** What the user sets is never replaced. */
  lemma UserVariable(i: Inputs, p: Platform, a: Answers, name: string)
    requires DeployedEnvironment(i, p, a).Success? && Lookup(i.env, name).Some?
    ensures Lookup(DeployedEnvironment(i, p, a).value, name) == Lookup(i.env, name)
  {
    DeployedByLayers(i, p, a, name);
  }

  /** A default that the user does not set has its value, whatever the sources set. */
  lemma DefaultVariable(i: Inputs, p: Platform, a: Answers, v: EnvVar)
    requires DeployedEnvironment(i, p, a).Success? && Lookup(i.env, v.name).None?
    requires
      || v == Literal("JAVA_APP_DIR", "/deployments")
      || v == Literal("JAVA_OPTIONS",
                p.render(JavaProperties(Settings(Cloned(i.env), p.cluster), p.parse)) + JAVA_FLAGS)
      || v == Literal("JAVA_DEBUG", "false")
      || v == Literal("AB_JMX_EXPORTER_CONFIG", "/tmp/src/src/main/resources/prometheus-config.yml")
      || v == From("NAMESPACE", FieldPath("metadata.namespace"))
      || v == From("TEIID_NODENAME", FieldPath("spec.nodeName"))
      || v == From("TEIID_PODNAME", FieldPath("metadata.name"))
    ensures Lookup(DeployedEnvironment(i, p, a).value, v.name) == Some(v)
  {
    DefaultAt(RenderedProxy(i.env, p), v);
    DefaultsUnique(RenderedProxy(i.env, p));
    FoundIn(Defaults(RenderedProxy(i.env, p)), v);
    DefaultLengths(RenderedProxy(i.env, p));
    InDefaults(i, p, a, v);
  }

  lemma DefaultAt(javaProperties: string, v: EnvVar)
    requires
      || v == Literal("JAVA_APP_DIR", "/deployments")
      || v == Literal("JAVA_OPTIONS", javaProperties + JAVA_FLAGS)
      || v == Literal("JAVA_DEBUG", "false")
      || v == Literal("AB_JMX_EXPORTER_CONFIG", "/tmp/src/src/main/resources/prometheus-config.yml")
      || v == From("NAMESPACE", FieldPath("metadata.namespace"))
      || v == From("TEIID_NODENAME", FieldPath("spec.nodeName"))
      || v == From("TEIID_PODNAME", FieldPath("metadata.name"))
    ensures v in Defaults(javaProperties)
  {
    var d := Defaults(javaProperties);
    var k := if v == d[0] then 0 else if v == d[1] then 1 else if v == d[2] then 2 else if v == d[3] then 3
             else if v == d[4] then 4 else if v == d[5] then 5 else 6;
    assert d[k] == v;
  }

  lemma InDefaults(i: Inputs, p: Platform, a: Answers, v: EnvVar)
    requires DeployedEnvironment(i, p, a).Success? && Lookup(i.env, v.name).None?
    requires Lookup(Defaults(RenderedProxy(i.env, p)), v.name) == Some(v)
    requires |v.name| > 8 && (|v.name| > 11 || v.name[1] == 'A')
    ensures Lookup(DeployedEnvironment(i, p, a).value, v.name) == Some(v)
  {
    NotProxy(p.cluster, v.name);
    DeployedByLayers(i, p, a, v.name);
  }

  /** A variable of Jaeger that the user does not set has its value if and only if an instance is named and
      found; otherwise it is what the sources set. */
  lemma JaegerVariable(i: Inputs, p: Platform, a: Answers, v: EnvVar)
    requires DeployedEnvironment(i, p, a).Success? && Lookup(i.env, v.name).None?
    requires
      || v == Literal("JAEGER_AGENT_HOST", "localhost")
      || v == Literal("JAEGER_AGENT_PORT", "6831")
      || v == Literal("JAEGER_SERVICE_NAME", i.name)
    ensures Lookup(DeployedEnvironment(i, p, a).value, v.name) ==
      if i.jaeger != "" && a.hasJaeger(i.jaeger) then Some(v) else FromSources(i, a, v.name)
  {
    JaegerAt(i.name, v);
    InJaeger(i, p, a, v);
  }

  lemma JaegerAt(serviceName: string, v: EnvVar)
    requires
      || v == Literal("JAEGER_AGENT_HOST", "localhost")
      || v == Literal("JAEGER_AGENT_PORT", "6831")
      || v == Literal("JAEGER_SERVICE_NAME", serviceName)
    ensures Lookup(JaegerEnvs(serviceName), v.name) == Some(v)
    ensures 14 < |v.name| <= 19
  {
    var j := JaegerEnvs(serviceName);
    var k := if v == j[0] then 0 else if v == j[1] then 1 else 2;
    JaegerUnique(serviceName);
    FindUnique(j, BY_NAME, k);
  }

  lemma InJaeger(i: Inputs, p: Platform, a: Answers, v: EnvVar)
    requires DeployedEnvironment(i, p, a).Success? && Lookup(i.env, v.name).None?
    requires Lookup(JaegerEnvs(i.name), v.name) == Some(v)
    requires 14 < |v.name| <= 19
    ensures Lookup(DeployedEnvironment(i, p, a).value, v.name) ==
      if i.jaeger != "" && a.hasJaeger(i.jaeger) then Some(v) else FromSources(i, a, v.name)
  {
    BehindDefaults(i, p, a, v.name);
    NotCacheStore(i.name, SecretName(i.name, a.hasSecret), v.name);
  }

  /** A name of which neither the user nor the proxy nor the defaults know. */
  lemma BehindDefaults(i: Inputs, p: Platform, a: Answers, name: string)
    requires DeployedEnvironment(i, p, a).Success? && Lookup(i.env, name).None?
    requires |name| > 14 && |name| != 22
    ensures
      var jaeger := if i.jaeger != "" && a.hasJaeger(i.jaeger) then Lookup(JaegerEnvs(i.name), name) else None;
      var store := if i.cacheStore != "" then
                     Lookup(CacheStoreEnvs(i.name, SecretName(i.name, a.hasSecret)), name)
                   else None;
      Lookup(DeployedEnvironment(i, p, a).value, name) == jaeger.OrElse(store.OrElse(FromSources(i, a, name)))
  {
    NotProxy(p.cluster, name);
    NotDefault(RenderedProxy(i.env, p), name);
    DeployedByLayers(i, p, a, name);
  }

  /** A variable of the cache store that the user does not set refers to the store's secret, the resource's own
      if there is one, if and only if a store is recorded; otherwise it is what the sources set. */
  lemma CacheStoreVariable(i: Inputs, p: Platform, a: Answers, v: EnvVar)
    requires DeployedEnvironment(i, p, a).Success? && Lookup(i.env, v.name).None?
    requires
      var own := i.name + "-cache-store";
      var secret := if a.hasSecret(own) then own else "teiid-cache-store";
      || v == From("SPRING_TEIID_DATA_INFINISPANHOTROD_CACHESTORE_USERNAME", SecretKey(secret, "username"))
      || v == From("SPRING_TEIID_DATA_INFINISPANHOTROD_CACHESTORE_PASSWORD", SecretKey(secret, "password"))
      || v == From("SPRING_TEIID_DATA_INFINISPANHOTROD_CACHESTORE_URL", SecretKey(secret, "url"))
      || v == Literal("SPRING_TEIID_DATA_INFINISPANHOTROD_CACHESTORE_TRANSACTIONMODE", "NON_XA")
      || v == Literal("SPRING_TEIID_DATA_INFINISPANHOTROD_CACHESTORE_CACHENAME", i.name)
    ensures Lookup(DeployedEnvironment(i, p, a).value, v.name) ==
      if i.cacheStore != "" then Some(v) else FromSources(i, a, v.name)
  {
    CacheStoreAt(i.name, SecretName(i.name, a.hasSecret), v);
    InCacheStore(i, p, a, v);
  }

  /** From the cache store action to the container: after it, the container is pointed to the store's secret if and
      only if a store was recorded before, or the Infinispan operator is there, the user does not switch caching
      off, no secret configures a store, and one can be created. */
  lemma CacheStoreReaches(v: Vdb.Resource, c: CacheStore.Answers, i: Inputs, p: Platform, a: Answers)
    requires i.name == v.name && i.env == v.spec.env && i.cacheStore == CacheStore.Handled(v, c).status.cacheStore
    requires DeployedEnvironment(i, p, a).Success?
    requires Lookup(v.spec.env, "SPRING_TEIID_DATA_INFINISPANHOTROD_CACHESTORE_URL").None?
    ensures
      var url := "SPRING_TEIID_DATA_INFINISPANHOTROD_CACHESTORE_URL";
      var flag := Lookup(v.spec.env, "DISABLE_ISPN_CACHING");
      var off := flag.Some? && flag.value.value in ["1", "t", "T", "TRUE", "true", "True"];
      var secret := if a.hasSecret(v.name + "-cache-store") then v.name + "-cache-store" else "teiid-cache-store";
      Lookup(DeployedEnvironment(i, p, a).value, url) ==
        if v.status.cacheStore != "" || (c.available && !off && !c.configured && c.created) then
          Some(From(url, SecretKey(secret, "url")))
        else FromSources(i, a, url)
  {
    var own := i.name + "-cache-store";
    var secret := if a.hasSecret(own) then own else "teiid-cache-store";
    CacheStore.StoreRecordedExactly(v, c);
    NotEmpty(v.namespace, v.name + "-cache-store");
    CacheStoreVariable(i, p, a, From("SPRING_TEIID_DATA_INFINISPANHOTROD_CACHESTORE_URL", SecretKey(secret, "url")));
  }

  lemma NotEmpty(namespace: string, name: string)
    ensures namespace + "/" + name != ""
  {
    assert |namespace + "/" + name| > 0;
  }

  lemma CacheStoreAt(vdbName: string, secret: string, v: EnvVar)
    requires
      || v == From("SPRING_TEIID_DATA_INFINISPANHOTROD_CACHESTORE_USERNAME", SecretKey(secret, "username"))
      || v == From("SPRING_TEIID_DATA_INFINISPANHOTROD_CACHESTORE_PASSWORD", SecretKey(secret, "password"))
      || v == From("SPRING_TEIID_DATA_INFINISPANHOTROD_CACHESTORE_URL", SecretKey(secret, "url"))
      || v == Literal("SPRING_TEIID_DATA_INFINISPANHOTROD_CACHESTORE_TRANSACTIONMODE", "NON_XA")
      || v == Literal("SPRING_TEIID_DATA_INFINISPANHOTROD_CACHESTORE_CACHENAME", vdbName)
    ensures Lookup(CacheStoreEnvs(vdbName, secret), v.name) == Some(v)
    ensures |v.name| > 48
  {
    var s := CacheStoreEnvs(vdbName, secret);
    var k := if v == s[0] then 0 else if v == s[1] then 1 else if v == s[2] then 2 else if v == s[3] then 3 else 4;
    CacheStoreUnique(vdbName, secret);
    FindUnique(s, BY_NAME, k);
  }

  lemma InCacheStore(i: Inputs, p: Platform, a: Answers, v: EnvVar)
    requires DeployedEnvironment(i, p, a).Success? && Lookup(i.env, v.name).None?
    requires Lookup(CacheStoreEnvs(i.name, SecretName(i.name, a.hasSecret)), v.name) == Some(v)
    requires |v.name| > 48
    ensures Lookup(DeployedEnvironment(i, p, a).value, v.name) ==
      if i.cacheStore != "" then Some(v) else FromSources(i, a, v.name)
  {
    BehindDefaults(i, p, a, v.name);
    NotJaeger(i.name, v.name);
  }

  // ---------- every other variable ----------

  lemma OtherThanDefaults(javaProperties: string, name: string)
    requires name !in ["JAVA_APP_DIR", "JAVA_OPTIONS", "JAVA_DEBUG", "AB_JMX_EXPORTER_CONFIG", "NAMESPACE",
                       "TEIID_NODENAME", "TEIID_PODNAME"]
    ensures Lookup(Defaults(javaProperties), name).None?
  {
    var d := Defaults(javaProperties);
    assert forall k :: 0 <= k < 7 ==> d[k].name != name;
  }

  lemma OtherThanJaeger(serviceName: string, name: string)
    requires name !in ["JAEGER_AGENT_HOST", "JAEGER_AGENT_PORT", "JAEGER_SERVICE_NAME"]
    ensures Lookup(JaegerEnvs(serviceName), name).None?
  {}

  lemma OtherThanCacheStore(vdbName: string, secret: string, name: string)
    requires name !in ["SPRING_TEIID_DATA_INFINISPANHOTROD_CACHESTORE_USERNAME",
                       "SPRING_TEIID_DATA_INFINISPANHOTROD_CACHESTORE_PASSWORD",
                       "SPRING_TEIID_DATA_INFINISPANHOTROD_CACHESTORE_URL",
                       "SPRING_TEIID_DATA_INFINISPANHOTROD_CACHESTORE_TRANSACTIONMODE",
                       "SPRING_TEIID_DATA_INFINISPANHOTROD_CACHESTORE_CACHENAME"]
    ensures Lookup(CacheStoreEnvs(vdbName, secret), name).None?
  {}

  /** Any other variable is the user's; or the cluster's proxy variable, when the user sets none of the three and
      the cluster sets one of them to something; or what the sources set. */
  lemma OtherVariable(i: Inputs, p: Platform, a: Answers, name: string)
    requires DeployedEnvironment(i, p, a).Success?
    requires name !in ["JAVA_APP_DIR", "JAVA_OPTIONS", "JAVA_DEBUG", "AB_JMX_EXPORTER_CONFIG", "NAMESPACE",
                       "TEIID_NODENAME", "TEIID_PODNAME"]
    requires name !in ["JAEGER_AGENT_HOST", "JAEGER_AGENT_PORT", "JAEGER_SERVICE_NAME"]
    requires name !in ["SPRING_TEIID_DATA_INFINISPANHOTROD_CACHESTORE_USERNAME",
                       "SPRING_TEIID_DATA_INFINISPANHOTROD_CACHESTORE_PASSWORD",
                       "SPRING_TEIID_DATA_INFINISPANHOTROD_CACHESTORE_URL",
                       "SPRING_TEIID_DATA_INFINISPANHOTROD_CACHESTORE_TRANSACTIONMODE",
                       "SPRING_TEIID_DATA_INFINISPANHOTROD_CACHESTORE_CACHENAME"]
    ensures
      var own := [Lookup(i.env, "HTTPS_PROXY"), Lookup(i.env, "HTTP_PROXY"), Lookup(i.env, "NO_PROXY")];
      var c := p.cluster;
      var given := [c.httpsProxy.GetOr(""), c.httpProxy.GetOr(""), c.noProxy.GetOr("")];
      Lookup(DeployedEnvironment(i, p, a).value, name) ==
        if own == [None, None, None] && given != ["", "", ""] && Offered(c, name).Some? then
          Some(Literal(name, Offered(c, name).value))
        else Lookup(i.env, name).OrElse(FromSources(i, a, name))
  {
    OtherThanDefaults(RenderedProxy(i.env, p), name);
    OtherThanJaeger(i.name, name);
    OtherThanCacheStore(i.name, SecretName(i.name, a.hasSecret), name);
    OtherLayers(i, p, a, name);
    SettingsLookup(i.env, p.cluster, name);
    LookupSettings(i.env, p, name);
  }

  lemma OtherLayers(i: Inputs, p: Platform, a: Answers, name: string)
    requires DeployedEnvironment(i, p, a).Success?
    requires Lookup(Defaults(RenderedProxy(i.env, p)), name).None? && Lookup(JaegerEnvs(i.name), name).None?
    requires Lookup(CacheStoreEnvs(i.name, SecretName(i.name, a.hasSecret)), name).None?
    ensures Lookup(DeployedEnvironment(i, p, a).value, name)
      == Lookup(i.env, name).OrElse(Lookup(ProxyLayer(i.env, p), name)).OrElse(FromSources(i, a, name))
  {
    DeployedByLayers(i, p, a, name);
  }

  lemma LookupSettings(user: seq<EnvVar>, p: Platform, name: string)
    ensures Lookup(Settings(user, p.cluster), name) == Lookup(user, name).OrElse(Lookup(ProxyLayer(user, p), name))
  {
    FindConcat(user, ClusterLayer(p.cluster), BY_NAME, name);
  }
}
