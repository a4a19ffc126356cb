/** pkg/controller/virtualdatabase/pom.go: the dependencies of the project that is built. */
module Pom {
  import opened Outcomes
  import opened FirstWins
  import opened EnvVars
  import opened Maven
  import opened Vdb
  import SpringProperties

  /** The versions the operator is configured with. */
  datatype Versions = Versions(teiidSpringBoot: string, springBoot: string)

  /** The inputs of GenerateVdbPom; `all` lists every connection factory in one iteration order. */
  datatype Request = Request(
    dependencies: seq<string>,
    sources: seq<SpringProperties.DatasourceInfo>,
    expose: seq<ExposeType>,
    env: seq<EnvVar>,
    factories: SpringProperties.Factories,
    all: seq<SpringProperties.ConnectionFactory>,
    includeAll: bool,
    includeOpenApi: bool,
    includeIspn: bool)

  /** The four dependencies every project starts with. */
  function Base(versions: Versions): seq<Dependency> {
    [
      Plain("org.teiid", "teiid-spring-boot-starter", versions.teiidSpringBoot),
      Plain("org.springframework.boot", "spring-boot-starter-actuator", versions.springBoot),
      Plain("io.opentracing.contrib", "opentracing-spring-jaeger-web-starter", "1.0.1"),
      Plain("com.h2database", "h2", "1.4.199")
    ]
  }

  function Teiid(artifact: string, versions: Versions): Dependency {
    Plain("org.teiid", artifact, versions.teiidSpringBoot)
  }

  /** The values up to the first failure, and whether there is none. */
  function UpToFailure(results: seq<Result<Dependency>>): (seq<Dependency>, bool) {
    if results == [] then ([], true)
    else if results[0].Failure? then ([], false)
    else
      var (values, ok) := UpToFailure(results[1..]);
      ([results[0].value] + values, ok)
  }

  function Results(gavs: seq<string>): seq<Result<Dependency>> {
    seq(|gavs|, i requires 0 <= i < |gavs| => ParseGAV(gavs[i]))
  }

  /** The user's coordinates up to the first one that cannot be parsed, and whether there is none. */
  function Parsed(gavs: seq<string>): (seq<Dependency>, bool) {
    UpToFailure(Results(gavs))
  }

  function OfFactories(factories: seq<SpringProperties.ConnectionFactory>, versions: Versions): seq<Dependency> {
    seq(|factories|, i requires 0 <= i < |factories| => OfFactory(factories[i], versions))
  }

  function OfFactory(f: SpringProperties.ConnectionFactory, versions: Versions): Dependency {
    Teiid("spring-data-" + f.name, versions)
  }

  /** The factories of the sources that have one. */
  function Known(sources: seq<SpringProperties.DatasourceInfo>, factories: SpringProperties.Factories)
    : seq<SpringProperties.ConnectionFactory>
  {
    if sources == [] then []
    else
      var t := sources[|sources| - 1].sourceType;
      Known(sources[..|sources| - 1], factories) + if t in factories then [factories[t]] else []
  }

  function Chosen(r: Request): seq<SpringProperties.ConnectionFactory> {
    if r.includeAll then r.all else Known(r.sources, r.factories)
  }

  function When(condition: bool, d: Dependency): seq<Dependency> {
    if condition then [d] else []
  }

  predicate Secured(r: Request) {
    r.includeAll || Lookup(r.env, "KEYCLOAK_AUTH_SERVER_URL").Some?
  }

  /** What is added after the user's dependencies, in order. */
  function Derived(r: Request, versions: Versions): seq<Dependency> {
    OfFactories(Chosen(r), versions)
    + When(ExposeVia3scale in r.expose, Teiid("spring-keycloak", versions))
    + When(r.includeIspn, Teiid("spring-data-infinispan-hotrod", versions))
    + When(Secured(r), Teiid("spring-keycloak", versions))
    + When(r.includeOpenApi || r.includeAll, Teiid("spring-openapi", versions))
    + When(!r.includeOpenApi || r.includeAll, Teiid("spring-odata", versions))
    + [Plain("me.snowdrop", "narayana-spring-boot-starter", "2.1.0")]
  }

  /** All dependencies in order of precedence; after a bad coordinate nothing is derived. */
  function Wanted(r: Request, versions: Versions): seq<Dependency> {
    var (user, ok) := Parsed(r.dependencies);
    Base(versions) + user + if ok then Derived(r, versions) else []
  }

  // ---------- properties ----------

  /** The dependencies have distinct coordinates, and for each of them the base comes first, then the
      user's own, then the derived ones. */
  lemma DependencyPrecedence(r: Request, versions: Versions, coordinates: (string, string))
    ensures
      var deps := Distinct(Wanted(r, versions), BY_COORDINATES);
      var (user, ok) := Parsed(r.dependencies);
      && Unique(deps, BY_COORDINATES)
      && Find(deps, BY_COORDINATES, coordinates) ==
         Find(Base(versions), BY_COORDINATES, coordinates)
           .OrElse(Find(user, BY_COORDINATES, coordinates))
           .OrElse(if ok then Find(Derived(r, versions), BY_COORDINATES, coordinates) else None)
  {
    var (user, ok) := Parsed(r.dependencies);
    var base, derived := Base(versions), if ok then Derived(r, versions) else [];
    DistinctIsUnique(base + user + derived, BY_COORDINATES);
    FindDistinct(base + user + derived, BY_COORDINATES, coordinates);
    FindConcat(base + user, derived, BY_COORDINATES, coordinates);
    FindConcat(base, user, BY_COORDINATES, coordinates);
  }

  // ---------- the operation ----------

  lemma DistinctMore(xs: seq<Dependency>, ys: seq<Dependency>, zs: seq<Dependency>)
    ensures Distinct(Distinct(xs + ys, BY_COORDINATES) + zs, BY_COORDINATES) == Distinct(xs + (ys + zs), BY_COORDINATES)
  {
    DistinctOfFront(xs + ys, zs, BY_COORDINATES);
    assert xs + (ys + zs) == (xs + ys) + zs;
  }

  lemma {:induction false} UpToFailureStep(results: seq<Result<Dependency>>, i: nat)
    requires i < |results| && UpToFailure(results[..i]).1
    ensures results[i].Success? ==>
      UpToFailure(results[..i + 1]) == (UpToFailure(results[..i]).0 + [results[i].value], true)
    ensures results[i].Failure? ==> UpToFailure(results) == (UpToFailure(results[..i]).0, false)
  {
    if i == 0 {
      assert results[..0] == [];
      var one := results[..1];
      if one[0].Success? {
        var (values, ok) := UpToFailure(one[1..]);
        assert one[1..] == [] && values == [];
        assert [one[0].value] + values == [] + [one[0].value];
      }
    } else {
      var rest := results[1..];
      assert results[..i][1..] == rest[..i - 1] && results[..i + 1][1..] == rest[..i];
      UpToFailureStep(rest, i - 1);
      var (values, ok) := UpToFailure(rest[..i - 1]);
      if results[i].Success? {
        assert ([results[0].value] + values) + [results[i].value] == [results[0].value] + (values + [results[i].value]);
      }
    }
  }

  /** Adds the user's dependencies; false when a coordinate cannot be parsed. */
  method AddUserDependencies(project: Project, gavs: seq<string>) returns (ok: bool)
    requires Unique(project.dependencies, BY_COORDINATES)
    modifies project
    ensures ok == Parsed(gavs).1
    ensures project.dependencies == Distinct(old(project.dependencies) + Parsed(gavs).0, BY_COORDINATES)
    ensures Unique(project.dependencies, BY_COORDINATES)
  {
    ghost var base, results := project.dependencies, Results(gavs);
    DistinctOfUnique(base, BY_COORDINATES);
    assert base + [] == base && results[..0] == [];
    var i := 0;
    while i < |gavs|
      invariant 0 <= i <= |gavs|
      invariant UpToFailure(results[..i]).1
      invariant project.dependencies == Distinct(base + UpToFailure(results[..i]).0, BY_COORDINATES)
      invariant Unique(project.dependencies, BY_COORDINATES)
    {
      UpToFailureStep(results, i);
      var d := ParseGAV(gavs[i]);
      assert d == results[i];
      if d.Failure? {
        return false;
      }
      DistinctMore(base, UpToFailure(results[..i]).0, [d.value]);
      project.AddDependencies([d.value]);
      i := i + 1;
    }
    assert results[..i] == results;
    return true;
  }

  lemma KnownStep(base: seq<Dependency>, sources: seq<SpringProperties.DatasourceInfo>, i: nat,
                  factories: SpringProperties.Factories, versions: Versions)
    requires i < |sources|
    ensures
      var t := sources[i].sourceType;
      var before := Distinct(base + OfFactories(Known(sources[..i], factories), versions), BY_COORDINATES);
      Distinct(base + OfFactories(Known(sources[..i + 1], factories), versions), BY_COORDINATES) ==
        if t in factories then Distinct(before + [OfFactory(factories[t], versions)], BY_COORDINATES) else before
  {
    var known, t := Known(sources[..i], factories), sources[i].sourceType;
    assert sources[..i + 1][..i] == sources[..i];
    if t in factories {
      DistinctMore(base, OfFactories(known, versions), [OfFactory(factories[t], versions)]);
      assert OfFactories(known + [factories[t]], versions)
        == OfFactories(known, versions) + [OfFactory(factories[t], versions)];
    } else {
      assert known + [] == known;
    }
  }

  /** Adds the dependency of every source's connection factory. */
  method AddSourceDependencies(project: Project, r: Request, versions: Versions)
    requires Unique(project.dependencies, BY_COORDINATES)
    modifies project
    ensures project.dependencies
      == Distinct(old(project.dependencies) + OfFactories(Chosen(r), versions), BY_COORDINATES)
    ensures Unique(project.dependencies, BY_COORDINATES)
  {
    ghost var base := project.dependencies;
    DistinctOfUnique(base, BY_COORDINATES);
    assert base + [] == base;
    if r.includeAll {
      project.AddDependencies(OfFactories(r.all, versions));
    } else {
      var i := 0;
      while i < |r.sources|
        invariant 0 <= i <= |r.sources|
        invariant project.dependencies
          == Distinct(base + OfFactories(Known(r.sources[..i], r.factories), versions), BY_COORDINATES)
        invariant Unique(project.dependencies, BY_COORDINATES)
      {
        KnownStep(base, r.sources, i, r.factories, versions);
        var t := r.sources[i].sourceType;
        if t in r.factories {
          project.AddDependencies([OfFactory(r.factories[t], versions)]);
        }
        i := i + 1;
      }
      assert r.sources[..i] == r.sources;
    }
  }

  /** Every expose entry for 3scale asks for the same dependency. */
  method AddExposeDependencies(project: Project, expose: seq<ExposeType>, versions: Versions)
    requires Unique(project.dependencies, BY_COORDINATES)
    modifies project
    ensures project.dependencies ==
      Distinct(old(project.dependencies) + When(ExposeVia3scale in expose, Teiid("spring-keycloak", versions)),
               BY_COORDINATES)
    ensures Unique(project.dependencies, BY_COORDINATES)
  {
    ghost var base := project.dependencies;
    var keycloak := Teiid("spring-keycloak", versions);
    DistinctOfUnique(base, BY_COORDINATES);
    assert base + [] == base;
    var i := 0;
    while i < |expose|
      invariant 0 <= i <= |expose|
      invariant project.dependencies == Distinct(base + When(ExposeVia3scale in expose[..i], keycloak), BY_COORDINATES)
      invariant Unique(project.dependencies, BY_COORDINATES)
    {
      assert expose[..i + 1] == expose[..i] + [expose[i]];
      assert ExposeVia3scale in expose[..i + 1] <==> ExposeVia3scale in expose[..i] || expose[i] == ExposeVia3scale;
      if expose[i] == ExposeVia3scale {
        AddedTwice(base, keycloak);
        project.AddDependencies([keycloak]);
      }
      i := i + 1;
    }
    assert expose[..i] == expose;
  }

  lemma AddedTwice(base: seq<Dependency>, d: Dependency)
    requires Unique(base, BY_COORDINATES)
    ensures Distinct(Distinct(base + [d], BY_COORDINATES) + [d], BY_COORDINATES) == Distinct(base + [d], BY_COORDINATES)
  {
    var once := Distinct(base + [d], BY_COORDINATES);
    DistinctIsUnique(base + [d], BY_COORDINATES);
    DistinctOfUnique(once, BY_COORDINATES);
    DistinctSnoc(once, d, BY_COORDINATES);
    FindDistinct(base + [d], BY_COORDINATES, BY_COORDINATES(d));
    FindConcat(base, [d], BY_COORDINATES, BY_COORDINATES(d));
  }

  method AddWhen(project: Project, condition: bool, d: Dependency)
    requires Unique(project.dependencies, BY_COORDINATES)
    modifies project
    ensures project.dependencies == Distinct(old(project.dependencies) + When(condition, d), BY_COORDINATES)
    ensures Unique(project.dependencies, BY_COORDINATES)
  {
    DistinctOfUnique(project.dependencies, BY_COORDINATES);
    assert project.dependencies + [] == project.dependencies;
    if condition {
      project.AddDependencies([d]);
    }
  }

  /** Adds everything that is derived, to a project that starts from `base`. */
  method AddDerived(project: Project, r: Request, versions: Versions)
    requires Unique(project.dependencies, BY_COORDINATES)
    modifies project
    ensures project.dependencies == Distinct(old(project.dependencies) + Derived(r, versions), BY_COORDINATES)
  {
    ghost var base := project.dependencies;
    ghost var d := OfFactories(Chosen(r), versions);
    AddSourceDependencies(project, r, versions);
    ghost var e := When(ExposeVia3scale in r.expose, Teiid("spring-keycloak", versions));
    DistinctMore(base, d, e);
    AddExposeDependencies(project, r.expose, versions);
    d := d + e;
    e := When(r.includeIspn, Teiid("spring-data-infinispan-hotrod", versions));
    DistinctMore(base, d, e);
    AddWhen(project, r.includeIspn, Teiid("spring-data-infinispan-hotrod", versions));
    d := d + e;
    e := When(Secured(r), Teiid("spring-keycloak", versions));
    DistinctMore(base, d, e);
    var secured := r.includeAll || Lookup(r.env, "KEYCLOAK_AUTH_SERVER_URL").Some?;
    AddWhen(project, secured, Teiid("spring-keycloak", versions));
    d := d + e;
    e := When(r.includeOpenApi || r.includeAll, Teiid("spring-openapi", versions));
    DistinctMore(base, d, e);
    AddWhen(project, r.includeOpenApi || r.includeAll, Teiid("spring-openapi", versions));
    d := d + e;
    e := When(!r.includeOpenApi || r.includeAll, Teiid("spring-odata", versions));
    DistinctMore(base, d, e);
    AddWhen(project, !r.includeOpenApi || r.includeAll, Teiid("spring-odata", versions));
    d := d + e;
    e := [Plain("me.snowdrop", "narayana-spring-boot-starter", "2.1.0")];
    DistinctMore(base, d, e);
    project.AddDependencies([Plain("me.snowdrop", "narayana-spring-boot-starter", "2.1.0")]);
  }

  /** Completes a project that starts from `base`. */
  method Complete(base: seq<Dependency>, r: Request, versions: Versions)
    returns (dependencies: seq<Dependency>, ok: bool)
    requires Unique(base, BY_COORDINATES)
    ensures ok == Parsed(r.dependencies).1
    ensures dependencies ==
      Distinct(base + Parsed(r.dependencies).0 + (if ok then Derived(r, versions) else []), BY_COORDINATES)
  {
    var project := new Project(base);
    ok := AddUserDependencies(project, r.dependencies);
    ghost var user := Parsed(r.dependencies).0;
    if ok {
      DistinctOfFront(base + user, Derived(r, versions), BY_COORDINATES);
      AddDerived(project, r, versions);
    } else {
      assert base + user + [] == base + user;
    }
    return project.dependencies, ok;
  }

  /** The project's dependencies, and whether every coordinate could be parsed. */
  method GenerateVdbPom(r: Request, versions: Versions) returns (dependencies: seq<Dependency>, ok: bool)
    ensures dependencies == Distinct(Wanted(r, versions), BY_COORDINATES)
    ensures ok == Parsed(r.dependencies).1
  {
    BaseUnique(versions);
    dependencies, ok := Complete(Base(versions), r, versions);
  }

  lemma BaseUnique(versions: Versions)
    ensures Unique(Base(versions), BY_COORDINATES)
  {
    assert Base(versions)[0].artifactId[0] == 't' && Base(versions)[1].artifactId[0] == 's';
    assert Base(versions)[2].artifactId[0] == 'o' && Base(versions)[3].artifactId[0] == 'h';
  }
}
