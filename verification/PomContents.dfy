/** Which dependencies the generated project has, coordinate by coordinate. */
module PomContents {
  import opened Outcomes
  import opened FirstWins
  import opened EnvVars
  import opened Maven
  import opened Vdb
  import opened Pom
  import SpringProperties

  // ---------- the user's dependencies ----------

  predicate AllParse(r: Request) {
    forall i :: 0 <= i < |r.dependencies| ==> ParseGAV(r.dependencies[i]).Success?
  }

  /** The user gives these coordinates, before any that cannot be parsed. */
  predicate GivenAt(gavs: seq<string>, coordinates: (string, string), i: nat)
    requires i < |gavs|
  {
    && (forall j :: 0 <= j <= i ==> ParseGAV(gavs[j]).Success?)
    && BY_COORDINATES(ParseGAV(gavs[i]).value) == coordinates
  }

  predicate Given(r: Request, coordinates: (string, string)) {
    exists i :: 0 <= i < |r.dependencies| && GivenAt(r.dependencies, coordinates, i)
  }

  /** What the project has under these coordinates. */
  function Has(r: Request, versions: Versions, coordinates: (string, string)): Option<Dependency> {
    Find(Distinct(Wanted(r, versions), BY_COORDINATES), BY_COORDINATES, coordinates)
  }

  lemma {:induction false} ParsedOk(results: seq<Result<Dependency>>)
    ensures UpToFailure(results).1 <==> forall i :: 0 <= i < |results| ==> results[i].Success?
  {
    if results != [] {
      ParsedOk(results[1..]);
      if UpToFailure(results).1 {
        assert forall i :: 0 < i < |results| ==> results[i] == results[1..][i - 1];
      } else if results[0].Success? {
        var i :| 0 <= i < |results[1..]| && results[1..][i].Failure?;
        assert results[i + 1].Failure?;
      }
    }
  }

  /** The values are those in front of the first failure, in their order. */
  lemma {:induction false} ParsedValues(results: seq<Result<Dependency>>)
    ensures
      var values := UpToFailure(results).0;
      && |values| <= |results|
      && (forall i :: 0 <= i < |values| ==> results[i] == Success(values[i]))
      && (|values| < |results| ==> results[|values|].Failure?)
  {
    if results != [] && results[0].Success? {
      ParsedValues(results[1..]);
      var values := UpToFailure(results).0;
      assert values == [results[0].value] + UpToFailure(results[1..]).0;
      forall i | 0 <= i < |values| ensures results[i] == Success(values[i]) {
        if i > 0 {
          assert results[i] == results[1..][i - 1] && values[i] == UpToFailure(results[1..]).0[i - 1];
        }
      }
    }
  }

  lemma UserFound(r: Request, coordinates: (string, string))
    ensures Parsed(r.dependencies).1 <==> AllParse(r)
    ensures Find(Parsed(r.dependencies).0, BY_COORDINATES, coordinates).Some? <==> Given(r, coordinates)
  {
    var results, values := Results(r.dependencies), Parsed(r.dependencies).0;
    ParsedOk(results);
    ParsedValues(results);
    assert forall i :: 0 <= i < |results| ==> results[i] == ParseGAV(r.dependencies[i]);
    if Find(values, BY_COORDINATES, coordinates).Some? {
      var i :| 0 <= i < |values| && BY_COORDINATES(values[i]) == coordinates;
      assert GivenAt(r.dependencies, coordinates, i);
    }
    if Given(r, coordinates) {
      var i :| 0 <= i < |r.dependencies| && GivenAt(r.dependencies, coordinates, i);
      assert i < |values| && BY_COORDINATES(values[i]) == coordinates;
    }
  }

  // ---------- the derived dependencies ----------

  lemma FindWhen(condition: bool, d: Dependency, k: (string, string))
    ensures Find(When(condition, d), BY_COORDINATES, k) ==
      if condition && BY_COORDINATES(d) == k then Some(d) else None
  {
    assert condition ==> When(condition, d)[1..] == [];
  }

  lemma FindSeven(a: seq<Dependency>, b: seq<Dependency>, c: seq<Dependency>, d: seq<Dependency>, e: seq<Dependency>,
                  f: seq<Dependency>, g: seq<Dependency>, k: (string, string))
    ensures Find(a + b + c + d + e + f + g, BY_COORDINATES, k) ==
      Find(a, BY_COORDINATES, k).OrElse(Find(b, BY_COORDINATES, k)).OrElse(Find(c, BY_COORDINATES, k))
        .OrElse(Find(d, BY_COORDINATES, k)).OrElse(Find(e, BY_COORDINATES, k)).OrElse(Find(f, BY_COORDINATES, k))
        .OrElse(Find(g, BY_COORDINATES, k))
  {
    FindConcat(a + b + c + d + e + f, g, BY_COORDINATES, k);
    FindConcat(a + b + c + d + e, f, BY_COORDINATES, k);
    FindConcat(a + b + c + d, e, BY_COORDINATES, k);
    FindConcat(a + b + c, d, BY_COORDINATES, k);
    FindConcat(a + b, c, BY_COORDINATES, k);
    FindConcat(a, b, BY_COORDINATES, k);
  }

  /** The artifact belongs to the connection factory of a source, or to any one when all are included. */
  predicate OfSource(r: Request, artifact: string) {
    if r.includeAll then OfFactoryIn(r.all, artifact)
    else exists i :: 0 <= i < |r.sources| && SourceNeeds(r.sources[i], r.factories, artifact)
  }

  predicate OfFactoryIn(factories: seq<SpringProperties.ConnectionFactory>, artifact: string) {
    exists i :: 0 <= i < |factories| && artifact == "spring-data-" + factories[i].name
  }

  predicate SourceNeeds(s: SpringProperties.DatasourceInfo, factories: SpringProperties.Factories, artifact: string) {
    s.sourceType in factories && artifact == "spring-data-" + factories[s.sourceType].name
  }

  lemma {:induction false} KnownNeeds(sources: seq<SpringProperties.DatasourceInfo>,
                                      factories: SpringProperties.Factories, artifact: string)
    ensures
      OfFactoryIn(Known(sources, factories), artifact) <==>
        exists i :: 0 <= i < |sources| && SourceNeeds(sources[i], factories, artifact)
  {
    if sources != [] {
      var front, s := sources[..|sources| - 1], sources[|sources| - 1];
      var known, all := Known(front, factories), Known(sources, factories);
      KnownNeeds(front, factories, artifact);
      assert forall i :: 0 <= i < |known| ==> all[i] == known[i];
      assert forall i :: 0 <= i < |front| ==> sources[i] == front[i];
      if s.sourceType in factories {
        assert all[|known|] == factories[s.sourceType];
      }
    }
  }

  lemma FactoriesFound(r: Request, versions: Versions, artifact: string)
    ensures Find(OfFactories(Chosen(r), versions), BY_COORDINATES, ("org.teiid", artifact)) ==
      if OfSource(r, artifact) then Some(Plain("org.teiid", artifact, versions.teiidSpringBoot)) else None
  {
    var chosen, deps := Chosen(r), OfFactories(Chosen(r), versions);
    KnownNeeds(r.sources, r.factories, artifact);
    assert forall i :: 0 <= i < |chosen| ==>
      deps[i] == Plain("org.teiid", "spring-data-" + chosen[i].name, versions.teiidSpringBoot);
  }

  /** What the project wants of Teiid, by the flags, the entries to expose, the variables and the sources. */
  predicate Needs(r: Request, artifact: string) {
    || OfSource(r, artifact)
    || (artifact == "spring-odata" && (!r.includeOpenApi || r.includeAll))
    || (artifact == "spring-openapi" && (r.includeOpenApi || r.includeAll))
    || (artifact == "spring-data-infinispan-hotrod" && r.includeIspn)
    || (artifact == "spring-keycloak" &&
          (r.includeAll || ExposeVia3scale in r.expose || Lookup(r.env, "KEYCLOAK_AUTH_SERVER_URL").Some?))
  }

  lemma DerivedFound(r: Request, versions: Versions, artifact: string)
    ensures Find(Derived(r, versions), BY_COORDINATES, ("org.teiid", artifact)) ==
      if Needs(r, artifact) then Some(Plain("org.teiid", artifact, versions.teiidSpringBoot)) else None
  {
    var k := ("org.teiid", artifact);
    var narayana := Plain("me.snowdrop", "narayana-spring-boot-starter", "2.1.0");
    var keycloak, ispn := Teiid("spring-keycloak", versions), Teiid("spring-data-infinispan-hotrod", versions);
    var openApi, odata := Teiid("spring-openapi", versions), Teiid("spring-odata", versions);
    FactoriesFound(r, versions, artifact);
    FindWhen(ExposeVia3scale in r.expose, keycloak, k);
    FindWhen(r.includeIspn, ispn, k);
    FindWhen(Secured(r), keycloak, k);
    FindWhen(r.includeOpenApi || r.includeAll, openApi, k);
    FindWhen(!r.includeOpenApi || r.includeAll, odata, k);
    FindWhen(true, narayana, k);
    FindSeven(OfFactories(Chosen(r), versions), When(ExposeVia3scale in r.expose, keycloak), When(r.includeIspn, ispn),
              When(Secured(r), keycloak), When(r.includeOpenApi || r.includeAll, openApi),
              When(!r.includeOpenApi || r.includeAll, odata), When(true, narayana), k);
  }

  // ---------- the whole project ----------

  /** The four dependencies every project has, whatever the user gives. */
  lemma BaseDependency(r: Request, versions: Versions, d: Dependency)
    requires
      || d == Plain("org.teiid", "teiid-spring-boot-starter", versions.teiidSpringBoot)
      || d == Plain("org.springframework.boot", "spring-boot-starter-actuator", versions.springBoot)
      || d == Plain("io.opentracing.contrib", "opentracing-spring-jaeger-web-starter", "1.0.1")
      || d == Plain("com.h2database", "h2", "1.4.199")
    ensures Has(r, versions, (d.groupId, d.artifactId)) == Some(d)
  {
    var base := Base(versions);
    var i := if d == base[0] then 0 else if d == base[1] then 1 else if d == base[2] then 2 else 3;
    assert base[i] == d && BY_COORDINATES(d) == (d.groupId, d.artifactId);
    BaseUnique(versions);
    FindUnique(base, BY_COORDINATES, i);
    DependencyPrecedence(r, versions, (d.groupId, d.artifactId));
  }

  predicate OfBase(k: (string, string)) {
    || k == ("org.teiid", "teiid-spring-boot-starter")
    || k == ("org.springframework.boot", "spring-boot-starter-actuator")
    || k == ("io.opentracing.contrib", "opentracing-spring-jaeger-web-starter")
    || k == ("com.h2database", "h2")
  }

  lemma NotOfBase(versions: Versions, k: (string, string))
    requires !OfBase(k)
    ensures Find(Base(versions), BY_COORDINATES, k).None?
  {}

  /** Any other coordinates that the user gives are the user's: the first dependency with them. */
  lemma GivenDependency(r: Request, versions: Versions, i: nat)
    requires i < |r.dependencies| && forall j :: 0 <= j <= i ==> ParseGAV(r.dependencies[j]).Success?
    requires
      var k := BY_COORDINATES(ParseGAV(r.dependencies[i]).value);
      !OfBase(k) && forall j :: 0 <= j < i ==> BY_COORDINATES(ParseGAV(r.dependencies[j]).value) != k
    ensures
      var d := ParseGAV(r.dependencies[i]).value;
      Has(r, versions, (d.groupId, d.artifactId)) == Some(d)
  {
    var k := BY_COORDINATES(ParseGAV(r.dependencies[i]).value);
    NotOfBase(versions, k);
    GivenFound(r.dependencies, k, i);
    DependencyPrecedence(r, versions, k);
  }

  lemma GivenFound(gavs: seq<string>, k: (string, string), i: nat)
    requires i < |gavs| && GivenAt(gavs, k, i)
    requires forall j :: 0 <= j < i ==> BY_COORDINATES(ParseGAV(gavs[j]).value) != k
    ensures Find(Parsed(gavs).0, BY_COORDINATES, k) == Some(ParseGAV(gavs[i]).value)
  {
    var results, values := Results(gavs), Parsed(gavs).0;
    ParsedValues(results);
    assert forall j :: 0 <= j < |gavs| ==> results[j] == ParseGAV(gavs[j]);
    assert i < |values|;
    FirstFound(values, k, i);
  }

  lemma {:induction false} FirstFound(values: seq<Dependency>, k: (string, string), i: nat)
    requires i < |values| && BY_COORDINATES(values[i]) == k
    requires forall j :: 0 <= j < i ==> BY_COORDINATES(values[j]) != k
    ensures Find(values, BY_COORDINATES, k) == Some(values[i])
  {
    if i > 0 {
      FirstFound(values[1..], k, i - 1);
    }
  }

  /** What the user does not give of Teiid is there if and only if all coordinates can be parsed and it is
      needed, and then in Teiid's own version. */
  lemma TeiidDependency(r: Request, versions: Versions, artifact: string)
    requires !OfBase(("org.teiid", artifact)) && !Given(r, ("org.teiid", artifact))
    ensures Has(r, versions, ("org.teiid", artifact)) ==
      if AllParse(r) && Needs(r, artifact) then Some(Plain("org.teiid", artifact, versions.teiidSpringBoot)) else None
  {
    DependencyPrecedence(r, versions, ("org.teiid", artifact));
    NotOfBase(versions, ("org.teiid", artifact));
    UserFound(r, ("org.teiid", artifact));
    DerivedFound(r, versions, artifact);
  }

  /** Of other groups there is nothing else but the transaction manager. */
  lemma OtherDependency(r: Request, versions: Versions, k: (string, string))
    requires k.0 != "org.teiid" && !OfBase(k) && !Given(r, k)
    ensures Has(r, versions, k) ==
      if AllParse(r) && k == ("me.snowdrop", "narayana-spring-boot-starter") then
        Some(Plain("me.snowdrop", "narayana-spring-boot-starter", "2.1.0"))
      else None
  {
    DependencyPrecedence(r, versions, k);
    NotOfBase(versions, k);
    UserFound(r, k);
    OthersDerived(r, versions, k);
  }

  lemma OthersDerived(r: Request, versions: Versions, k: (string, string))
    requires k.0 != "org.teiid"
    ensures Find(Derived(r, versions), BY_COORDINATES, k) ==
      if k == ("me.snowdrop", "narayana-spring-boot-starter") then
        Some(Plain("me.snowdrop", "narayana-spring-boot-starter", "2.1.0"))
      else None
  {
    var d := Derived(r, versions);
    var n := |d| - 1;
    assert forall i :: 0 <= i < n ==> d[i].groupId == "org.teiid";
    assert d == d[..n] + [d[n]];
    FindConcat(d[..n], [d[n]], BY_COORDINATES, k);
    FindWhen(true, d[n], k);
  }
}
