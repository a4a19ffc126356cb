/** default_envs.go and deploymentEnvironments: the variables of the deployed container, layer upon layer. */
module DeploymentEnvs {
  import opened Outcomes
  import opened Text
  import opened FirstWins
  import opened EnvVars
  import opened Proxy
  import DataSources
  import SpringProperties

  /** What the operator process brings along: its own proxy variables, how a proxy URL is taken apart,
      and one fixed order in which Java properties are rendered. */
  datatype Platform = Platform(
    cluster: ClusterEnv,
    parse: string -> map<string, string>,
    render: map<string, string> -> string)

  const JAVA_FLAGS := Join([" ", "-Djava.net.preferIPv4Stack=true", "-Duser.home=/tmp",
                            "-Djava.net.preferIPv4Addresses=true", "-Djava.net.useSystemProxies=true"], " ")

  /** The defaults of getDefaultEnvs, given the rendered proxy properties. */
  function Defaults(javaProperties: string): seq<EnvVar> {
    [
      Literal("JAVA_APP_DIR", "/deployments"),
      Literal("JAVA_OPTIONS", javaProperties + JAVA_FLAGS),
      Literal("JAVA_DEBUG", "false"),
      Literal("AB_JMX_EXPORTER_CONFIG", "/tmp/src/src/main/resources/prometheus-config.yml"),
      From("NAMESPACE", FieldPath("metadata.namespace")),
      From("TEIID_NODENAME", FieldPath("spec.nodeName")),
      From("TEIID_PODNAME", FieldPath("metadata.name"))
    ]
  }

  function JaegerEnvs(serviceName: string): seq<EnvVar> {
    [Literal("JAEGER_AGENT_HOST", "localhost"), Literal("JAEGER_AGENT_PORT", "6831"),
     Literal("JAEGER_SERVICE_NAME", serviceName)]
  }

  /** The cache store's credentials; `secret` is the secret that holds them. */
  function CacheStoreEnvs(vdbName: string, secret: string): seq<EnvVar> {
    [
      From("SPRING_TEIID_DATA_INFINISPANHOTROD_CACHESTORE_USERNAME", SecretKey(secret, "username")),
      From("SPRING_TEIID_DATA_INFINISPANHOTROD_CACHESTORE_PASSWORD", SecretKey(secret, "password")),
      From("SPRING_TEIID_DATA_INFINISPANHOTROD_CACHESTORE_URL", SecretKey(secret, "url")),
      Literal("SPRING_TEIID_DATA_INFINISPANHOTROD_CACHESTORE_TRANSACTIONMODE", "NON_XA"),
      Literal("SPRING_TEIID_DATA_INFINISPANHOTROD_CACHESTORE_CACHENAME", vdbName)
    ]
  }

  /** The layers behind the defaults. */
  datatype Extras = Extras(jaeger: seq<EnvVar>, cacheStore: seq<EnvVar>, dataSources: seq<EnvVar>)

  function Wanted(x: Extras, useJaeger: bool, useCacheStore: bool): Extras {
    Extras(if useJaeger then x.jaeger else [], if useCacheStore then x.cacheStore else [], x.dataSources)
  }

  /** What the resource contributes. */
  datatype Inputs = Inputs(
    name: string,
    ddl: string,
    maven: string,
    env: seq<EnvVar>,
    dataSources: seq<SpringProperties.DataSource>,
    jaeger: string,
    cacheStore: string)

  /** What comes of downloading a Maven source's DDL, the connection factories, which Jaeger instances are
      found and which secrets exist. */
  datatype Answers = Answers(
    download: Result<string>,
    factories: SpringProperties.Factories,
    hasJaeger: string -> bool,
    hasSecret: string -> bool)

  const BAD_SOURCE := "a data source or property name has a space"

  function Ddl(i: Inputs, download: Result<string>): Result<string> {
    if i.maven != "" then download else Success(i.ddl)
  }

  function SecretName(name: string, hasSecret: string -> bool): string {
    if hasSecret(name + "-cache-store") then name + "-cache-store" else "teiid-cache-store"
  }

  /** The Jaeger layer applies when an instance is named and found, the cache store layer when a store is
      recorded. */
  function ExtrasOf(i: Inputs, a: Answers, dataSources: seq<EnvVar>): Extras {
    var x := Extras(JaegerEnvs(i.name), CacheStoreEnvs(i.name, SecretName(i.name, a.hasSecret)), dataSources);
    Wanted(x, i.jaeger != "" && a.hasJaeger(i.jaeger), i.cacheStore != "")
  }

  function DeployedEnvironment(i: Inputs, p: Platform, a: Answers): Result<seq<EnvVar>> {
    match Ddl(i, a.download)
    case Failure(e) => Failure(e)
    case Success(ddl) =>
      match SpringProperties.Converted(i.dataSources, DataSources.Declared(ddl), a.factories)
      case None => Failure(BAD_SOURCE)
      case Some(settings) => Success(Environment(i.env, p, ExtrasOf(i, a, settings)))
  }

  /** The rendered proxy properties that go into JAVA_OPTIONS. */
  function RenderedProxy(user: seq<EnvVar>, p: Platform): string {
    p.render(JavaProperties(Settings(Cloned(user), p.cluster), p.parse))
  }

  function ProxyLayer(user: seq<EnvVar>, p: Platform): seq<EnvVar> {
    if UserDefined(user) then [] else ClusterLayer(p.cluster)
  }

  /** All layers in order of precedence. */
  function Layers(user: seq<EnvVar>, p: Platform, x: Extras): seq<seq<EnvVar>> {
    [user, ProxyLayer(user, p), Defaults(RenderedProxy(user, p)), x.jaeger, x.cacheStore, x.dataSources]
  }

  function Flatten(layers: seq<seq<EnvVar>>): seq<EnvVar> {
    if layers == [] then [] else layers[0] + Flatten(layers[1..])
  }

  /** The first layer that defines `name` decides. */
  function FirstDefinition(layers: seq<seq<EnvVar>>, name: string): Option<EnvVar> {
    if layers == [] then None
    else Lookup(layers[0], name).OrElse(FirstDefinition(layers[1..], name))
  }

  function Environment(user: seq<EnvVar>, p: Platform, x: Extras): seq<EnvVar> {
    Cloned(Flatten(Layers(user, p, x)))
  }

  // ---------- properties ----------

  lemma {:induction false} LookupFlatten(layers: seq<seq<EnvVar>>, name: string)
    ensures Lookup(Flatten(layers), name) == FirstDefinition(layers, name)
  {
    if layers != [] {
      LookupFlatten(layers[1..], name);
      FindConcat(layers[0], Flatten(layers[1..]), BY_NAME, name);
    }
  }

  /** The deployed environment has unique names, and the first layer that defines a name decides. */
  lemma LayeredEnvironment(user: seq<EnvVar>, p: Platform, x: Extras, name: string)
    ensures UniqueNames(Environment(user, p, x))
    ensures Lookup(Environment(user, p, x), name) == FirstDefinition(Layers(user, p, x), name)
  {
    var all := Flatten(Layers(user, p, x));
    DistinctIsUnique(all, BY_NAME);
    FindDistinct(all, BY_NAME, name);
    LookupFlatten(Layers(user, p, x), name);
  }

  /** The first definition among the layers before the data sources. */
  function BeforeSources(i: Inputs, p: Platform, a: Answers, name: string): Option<EnvVar> {
    var x := ExtrasOf(i, a, []);
    FirstDefinition([i.env, ProxyLayer(i.env, p), Defaults(RenderedProxy(i.env, p)), x.jaeger, x.cacheStore], name)
  }

  lemma {:induction false} LastLayer(layers: seq<seq<EnvVar>>, last: seq<EnvVar>, name: string)
    ensures FirstDefinition(layers + [last], name) == FirstDefinition(layers, name).OrElse(Lookup(last, name))
  {
    if layers == [] {
      assert layers + [last] == [last] && [last][1..] == [];
    } else {
      assert (layers + [last])[1..] == layers[1..] + [last];
      LastLayer(layers[1..], last, name);
    }
  }

  lemma LastOfSix(a: seq<EnvVar>, b: seq<EnvVar>, c: seq<EnvVar>, d: seq<EnvVar>, e: seq<EnvVar>, f: seq<EnvVar>,
                  name: string)
    ensures FirstDefinition([a, b, c, d, e, f], name) == FirstDefinition([a, b, c, d, e], name).OrElse(Lookup(f, name))
  {
    LastLayer([a, b, c, d, e], f, name);
    assert [a, b, c, d, e] + [f] == [a, b, c, d, e, f];
  }

  /** From the DDL text to the container: each variable is what the user, the proxy, the defaults, Jaeger or
      the cache store say, in that order, and otherwise the last setting of a declared data source. */
  lemma DeployedVariable(i: Inputs, p: Platform, a: Answers, name: string)
    ensures DeployedEnvironment(i, p, a).Success? ==>
      var envs := DeployedEnvironment(i, p, a).value;
      var sources := DataSources.Declared(Ddl(i, a.download).value);
      && UniqueNames(envs)
      && Lookup(envs, name) == BeforeSources(i, p, a, name).OrElse(
           SpringProperties.LastWrite(SpringProperties.AllWrites(sources, i.dataSources, a.factories), name))
  {
    if DeployedEnvironment(i, p, a).Success? {
      var sources := DataSources.Declared(Ddl(i, a.download).value);
      var settings := SpringProperties.Converted(i.dataSources, sources, a.factories).value;
      var x := ExtrasOf(i, a, settings);
      LayeredEnvironment(i.env, p, x, name);
      SpringProperties.ConvertedLaws(i.dataSources, sources, a.factories, name);
      LastOfSix(i.env, ProxyLayer(i.env, p), Defaults(RenderedProxy(i.env, p)), x.jaeger, x.cacheStore, settings, name);
    }
  }

  /** buildDeployment hands the proxy settings down once more; that never changes the list. */
  lemma SecondSettingsIdle(user: seq<EnvVar>, p: Platform, x: Extras)
    ensures Settings(Environment(user, p, x), p.cluster) == Environment(user, p, x)
  {
    var first := Settings(Cloned(user), p.cluster);
    var more := Defaults(RenderedProxy(user, p)) + x.jaeger + x.cacheStore + x.dataSources;
    EnvironmentByParts(user, p, x);
    SettingsTwice(Cloned(user), more, p.cluster);
  }

  lemma DeployedSettingsIdle(i: Inputs, p: Platform, a: Answers)
    ensures
      var r := DeployedEnvironment(i, p, a);
      r.Success? ==> Settings(r.value, p.cluster) == r.value
  {
    if DeployedEnvironment(i, p, a).Success? {
      var sources := DataSources.Declared(Ddl(i, a.download).value);
      var settings := SpringProperties.Converted(i.dataSources, sources, a.factories).value;
      SecondSettingsIdle(i.env, p, ExtrasOf(i, a, settings));
    }
  }

  lemma UserDefinedCloned(user: seq<EnvVar>)
    ensures UserDefined(Cloned(user)) == UserDefined(user)
  {
    FindDistinct(user, BY_NAME, HTTPS_PROXY);
    FindDistinct(user, BY_NAME, HTTP_PROXY);
    FindDistinct(user, BY_NAME, NO_PROXY);
  }

  lemma FirstLayers(user: seq<EnvVar>, p: Platform)
    ensures Settings(Cloned(user), p.cluster) == Cloned(user) + ProxyLayer(user, p)
  {
    UserDefinedCloned(user);
    assert Cloned(user) + [] == Cloned(user);
  }

  lemma FlattenSix(a: seq<EnvVar>, b: seq<EnvVar>, c: seq<EnvVar>, d: seq<EnvVar>, e: seq<EnvVar>, f: seq<EnvVar>)
    ensures Flatten([a, b, c, d, e, f]) == a + (b + (c + d + e + f))
  {
    assert [a, b, c, d, e, f][1..] == [b, c, d, e, f];
    assert [b, c, d, e, f][1..] == [c, d, e, f];
    assert [c, d, e, f][1..] == [d, e, f];
    assert [d, e, f][1..] == [e, f];
    assert [e, f][1..] == [f];
    assert [f][1..] == [];
    assert Flatten([f]) == f + [] == f;
    assert Flatten([e, f]) == e + f;
    assert Flatten([d, e, f]) == d + (e + f);
    assert Flatten([c, d, e, f]) == c + (d + (e + f));
    assert c + (d + (e + f)) == c + d + e + f;
  }

  lemma CloneInParts(user: seq<EnvVar>, proxy: seq<EnvVar>, more: seq<EnvVar>)
    ensures Cloned(user + (proxy + more)) == Combined(Cloned(user) + proxy, more)
  {
    DistinctOfFront(user, proxy + more, BY_NAME);
    assert Cloned(user) + (proxy + more) == (Cloned(user) + proxy) + more;
  }

  /** The environment is what the proxy step leaves, combined with all later layers. */
  lemma EnvironmentByParts(user: seq<EnvVar>, p: Platform, x: Extras)
    ensures Environment(user, p, x) ==
      Combined(Settings(Cloned(user), p.cluster),
               Defaults(RenderedProxy(user, p)) + x.jaeger + x.cacheStore + x.dataSources)
  {
    FirstLayers(user, p);
    PartsOf(user, ProxyLayer(user, p), Defaults(RenderedProxy(user, p)), x);
  }

  lemma PartsOf(user: seq<EnvVar>, proxy: seq<EnvVar>, defaults: seq<EnvVar>, x: Extras)
    ensures Cloned(Flatten([user, proxy, defaults, x.jaeger, x.cacheStore, x.dataSources])) ==
      Combined(Cloned(user) + proxy, defaults + x.jaeger + x.cacheStore + x.dataSources)
  {
    FlattenSix(user, proxy, defaults, x.jaeger, x.cacheStore, x.dataSources);
    CloneInParts(user, proxy, defaults + x.jaeger + x.cacheStore + x.dataSources);
  }

  /** Combining in steps is combining at once. */
  lemma CombineSteps(a: seq<EnvVar>, b: seq<EnvVar>, c: seq<EnvVar>)
    ensures Combined(Combined(a, b), c) == Combined(a, b + c)
  {
    DistinctOfFront(a + b, c, BY_NAME);
    assert a + (b + c) == (a + b) + c;
  }

  // ---------- the operations ----------

  method GetDefaultEnvs(userDefined: seq<EnvVar>, p: Platform) returns (r: seq<EnvVar>)
    ensures r == Combined(Settings(Cloned(userDefined), p.cluster), Defaults(RenderedProxy(userDefined, p)))
  {
    var cloned := Clone(userDefined);
    var allEnvs := new EnvList(cloned);
    var properties := HTTPSettings(allEnvs, p.cluster, p.parse);
    DistinctIsUnique(userDefined, BY_NAME);
    SettingsUnique(Cloned(userDefined), p.cluster);
    DistinctOfUnique(allEnvs.items, BY_NAME);
    AddAll(allEnvs, allEnvs.items, Defaults(p.render(properties)));
    return allEnvs.items;
  }

  /** Combines the layers one after the other; a layer that is not wanted is skipped. */
  method CombineLayers(user: seq<EnvVar>, p: Platform, x: Extras, useJaeger: bool, useCacheStore: bool)
    returns (r: seq<EnvVar>)
    ensures r == Environment(user, p, Wanted(x, useJaeger, useCacheStore))
  {
    ghost var first := Settings(Cloned(user), p.cluster);
    ghost var defaults := Defaults(RenderedProxy(user, p));
    ghost var w := Wanted(x, useJaeger, useCacheStore);
    var defaultEnvs := GetDefaultEnvs(user, p);
    CombineSteps(first, defaults, w.jaeger);
    assert defaults + [] == defaults;
    if useJaeger {
      defaultEnvs := Combine(defaultEnvs, x.jaeger);
    }
    CombineSteps(first, defaults + w.jaeger, w.cacheStore);
    assert defaults + w.jaeger + [] == defaults + w.jaeger;
    if useCacheStore {
      defaultEnvs := Combine(defaultEnvs, x.cacheStore);
    }
    r := Combine(defaultEnvs, x.dataSources);
    CombineSteps(first, defaults + w.jaeger + w.cacheStore, w.dataSources);
    EnvironmentByParts(user, p, w);
  }

  method FetchDdl(i: Inputs, download: Result<string>) returns (r: Result<string>)
    ensures r == Ddl(i, download)
  {
    var ddlStr := i.ddl;
    if i.maven != "" {
      if download.Failure? {
        return Failure(download.error);
      }
      ddlStr := download.value;
    }
    return Success(ddlStr);
  }

  /** The name of the secret with the cache store's credentials. */
  method FindSecret(name: string, hasSecret: string -> bool) returns (secretName: string)
    ensures secretName == SecretName(name, hasSecret)
  {
    secretName := name + "-cache-store";
    if !hasSecret(name + "-cache-store") {
      secretName := "teiid-cache-store";
    }
  }

  method DeploymentEnvironments(i: Inputs, p: Platform, a: Answers) returns (r: Result<seq<EnvVar>>)
    ensures r == DeployedEnvironment(i, p, a)
  {
    var ddlString := FetchDdl(i, a.download);
    if ddlString.Failure? {
      return Failure(ddlString.error);
    }
    var dataSourceInfos := DataSources.ParseDataSourcesInfoFromDdl(ddlString.value);
    var dataSourceConfig := SpringProperties.ConvertToSpringProperties(i.dataSources, dataSourceInfos, a.factories);
    if dataSourceConfig.None? {
      return Failure(BAD_SOURCE);
    }
    var secretName := FindSecret(i.name, a.hasSecret);
    var x := Extras(JaegerEnvs(i.name), CacheStoreEnvs(i.name, secretName), dataSourceConfig.value);
    var envs := CombineLayers(i.env, p, x, i.jaeger != "" && a.hasJaeger(i.jaeger), i.cacheStore != "");
    return Success(envs);
  }
}
