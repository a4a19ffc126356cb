/** pkg/controller/virtualdatabase/initialize.go: validation and defaults before anything is built. */
module Initialize {
  import opened Outcomes
  import opened Text
  import opened EnvVars
  import opened Vdb
  import opened Operator
  import Digest
  import Maven
  import SpringProperties

  /** What the cluster answers: whether a referenced key exists, and the revision of its object. */
  datatype Answers = Answers(keyExists: EnvSource -> bool, revisions: EnvSource -> Option<string>)

  const INVALID_NAMES :=
    "Invalid propertie(s) defined in Environment, make sure they confirm to naming convention of ENV"
  const MISSING_CONFIG :=
    "Configuration missing, make sure to supply all the ConfigMaps and Secrets required"
  const BAD_NAME := "The environment property name does not confirm to naming rules"

  /** The naming rule for environment variables: a capital, then capitals, digits and underscores. */
  predicate EnvName(s: string) {
    s != "" && IsUpper(s[0]) && forall i :: 1 <= i < |s| ==> IsUpper(s[i]) || IsDigit(s[i]) || s[i] == '_'
  }

  predicate NamesValid(envs: seq<EnvVar>) {
    forall i :: 0 <= i < |envs| ==> EnvName(envs[i].name)
  }

  /** Every reference must point to a key of a ConfigMap or Secret that exists. */
  predicate PropertiesExist(envs: seq<EnvVar>, a: Answers) {
    forall i :: 0 <= i < |envs| && envs[i].valueFrom.Some? ==>
      !envs[i].valueFrom.value.FieldPath? && a.keyExists(envs[i].valueFrom.value)
  }

  predicate SourcesExist(sources: seq<SpringProperties.DataSource>, a: Answers) {
    forall i :: 0 <= i < |sources| ==> PropertiesExist(sources[i].properties, a)
  }

  /** A Maven source brings its own version. */
  function VersionOf(dep: Result<Maven.Dependency>, version: string): string {
    if dep.Success? then dep.value.version else version
  }

  function FirstVersion(source: Source, version: string): string {
    if source.version == "" && source.ddl != "" && version == "" then "1" else version
  }

  function InitialVersion(source: Source, version: string): string {
    var first := FirstVersion(source, version);
    if source.maven == "" then first else VersionOf(Maven.ParseGAV(source.maven), first)
  }

  function Handled(op: Config, v: Resource, a: Answers): (Resource, Option<string>) {
    if !NamesValid(v.spec.env) then (WithFailure(v, INVALID_NAMES), Some(BAD_NAME))
    else if !PropertiesExist(v.spec.env, a) || !SourcesExist(v.spec.dataSources, a) then
      (WithFailure(v, MISSING_CONFIG), None)
    else
      var spec := v.spec.(replicas := Some(v.spec.replicas.GetOr(1)));
      var config := Digest.ConfigDigest(op.hasher, v.spec, a.revisions);
      (v.(spec := spec,
          status := v.status.(
            failure := "",
            phase := CreateCacheStore,
            version := InitialVersion(v.spec.source, v.status.version),
            digest := Digest.BuildDigest(op.hasher, v.spec.source),
            configDigest := config.GetOr(""))),
       if config.Some? then None else Some(Digest.UNREADABLE))
  }

  method SetVersion(source: Source, current: string) returns (version: string)
    ensures version == InitialVersion(source, current)
  {
    version := current;
    if source.version == "" && source.ddl != "" && version == "" {
      version := "1";
    }
    if source.maven != "" {
      var dep := Maven.ParseGAV(source.maven);
      version := VersionOf(dep, version);
    }
  }

  method Init(vdb: VirtualDatabase)
    modifies vdb
    ensures vdb.spec == old(vdb.spec).(replicas := Some(old(vdb.spec).replicas.GetOr(1)))
    ensures vdb.status == old(vdb.status).(version := InitialVersion(old(vdb.spec).source, old(vdb.status).version))
  {
    var version := SetVersion(vdb.spec.source, vdb.status.version);
    if vdb.spec.replicas.None? {
      vdb.spec := vdb.spec.(replicas := Some(1));
    }
    vdb.status := vdb.status.(version := version);
  }

  method Handle(op: Config, vdb: VirtualDatabase, a: Answers) returns (error: Option<string>)
    requires vdb.status.phase == Initial
    modifies vdb
    ensures (vdb.Value(), error) == Handled(op, old(vdb.Value()), a)
  {
    var digest := Digest.ComputeForVirtualDatabase(op.hasher, vdb.spec.source);
    if !NamesValid(vdb.spec.env) {
      vdb.status := vdb.status.(failure := INVALID_NAMES);
      return Some(BAD_NAME);
    }
    if !PropertiesExist(vdb.spec.env, a) {
      vdb.status := vdb.status.(failure := MISSING_CONFIG);
      return None;
    }
    var i := 0;
    while i < |vdb.spec.dataSources|
      invariant 0 <= i <= |vdb.spec.dataSources|
      invariant forall j :: 0 <= j < i ==> PropertiesExist(vdb.spec.dataSources[j].properties, a)
      invariant vdb.Value() == old(vdb.Value())
    {
      if !PropertiesExist(vdb.spec.dataSources[i].properties, a) {
        vdb.status := vdb.status.(failure := MISSING_CONFIG);
        return None;
      }
      i := i + 1;
    }
    vdb.status := vdb.status.(failure := "", phase := CreateCacheStore);
    Init(vdb);
    vdb.status := vdb.status.(digest := digest);
    var config := Digest.ComputeConfigDigest(op.hasher, vdb.spec, a.revisions);
    vdb.status := vdb.status.(configDigest := config.GetOr(""));
    if config.None? {
      return Some(Digest.UNREADABLE);
    }
    return None;
  }

  // ---------- properties ----------

  /** A capital, then capitals, digits and underscores. */
  predicate Conforms(name: string) {
    && name != "" && 'A' <= name[0] <= 'Z'
    && forall i :: 1 <= i < |name| ==> 'A' <= name[i] <= 'Z' || '0' <= name[i] <= '9' || name[i] == '_'
  }

  /** The property has a literal value, or refers to a key that exists. */
  predicate Found(p: EnvVar, keyExists: EnvSource -> bool) {
    match p.valueFrom
    case None => true
    case Some(ConfigMapKey(name, key)) => keyExists(ConfigMapKey(name, key))
    case Some(SecretKey(name, key)) => keyExists(SecretKey(name, key))
    case Some(FieldPath(_)) => false
  }

  /** The phase stays Initial, with a message, if and only if a variable's name does not conform or something
      referred to is missing; only the former is an error. */
  lemma ValidatedExactly(op: Config, v: Resource, a: Answers)
    requires v.status.phase == Initial
    ensures
      var (w, error) := Handled(op, v, a);
      var env, sources := v.spec.env, v.spec.dataSources;
      var named := forall i :: 0 <= i < |env| ==> Conforms(env[i].name);
      var found :=
        && (forall i :: 0 <= i < |env| ==> Found(env[i], a.keyExists))
        && forall i, j :: 0 <= i < |sources| && 0 <= j < |sources[i].properties| ==>
             Found(sources[i].properties[j], a.keyExists);
      && (w.status.phase == CreateCacheStore <==> named && found)
      && (!named ==> w == v.(status := v.status.(failure := INVALID_NAMES)) && error.Some?)
      && (named && !found ==> w == v.(status := v.status.(failure := MISSING_CONFIG)) && error.None?)
  {
    assert forall i :: 0 <= i < |v.spec.env| ==> EnvName(v.spec.env[i].name) == Conforms(v.spec.env[i].name);
    ExistFound(v.spec.env, a);
    SourcesFound(v.spec.dataSources, a);
  }

  lemma ExistFound(envs: seq<EnvVar>, a: Answers)
    ensures PropertiesExist(envs, a) <==> forall i :: 0 <= i < |envs| ==> Found(envs[i], a.keyExists)
  {
    if !PropertiesExist(envs, a) {
      var i :| 0 <= i < |envs| && envs[i].valueFrom.Some?
        && (envs[i].valueFrom.value.FieldPath? || !a.keyExists(envs[i].valueFrom.value));
      assert !Found(envs[i], a.keyExists);
    }
  }

  lemma SourcesFound(sources: seq<SpringProperties.DataSource>, a: Answers)
    ensures SourcesExist(sources, a) <==>
      forall i, j :: 0 <= i < |sources| && 0 <= j < |sources[i].properties| ==>
        Found(sources[i].properties[j], a.keyExists)
  {
    forall i | 0 <= i < |sources|
      ensures PropertiesExist(sources[i].properties, a) <==>
        forall j :: 0 <= j < |sources[i].properties| ==> Found(sources[i].properties[j], a.keyExists)
    {
      ExistFound(sources[i].properties, a);
    }
  }

  /** After validation: one replica unless the user wants another number, no failure, the digest of the source and
      that of the configuration, empty together with an error when something cannot be read. The version is the
      Maven artifact's, or "1" for the first DDL without a version of its own, or stays. */
  lemma InitializedValues(op: Config, v: Resource, a: Answers)
    requires v.status.phase == Initial && Handled(op, v, a).0.status.phase == CreateCacheStore
    ensures
      var (w, error) := Handled(op, v, a);
      var s, source := w.status, v.spec.source;
      var config, gav := Digest.ConfigDigest(op.hasher, v.spec, a.revisions), Maven.ParseGAV(source.maven);
      && w == v.(spec := w.spec, status := v.status.(
           phase := CreateCacheStore, failure := "", digest := s.digest, configDigest := s.configDigest,
           version := s.version))
      && w.spec == v.spec.(replicas := Some(if v.spec.replicas.Some? then v.spec.replicas.value else 1))
      && s.digest == Digest.BuildDigest(op.hasher, source)
      && s.configDigest == (if config.Some? then config.value else "") && (error.None? <==> config.Some?)
      && (source.maven != "" && gav.Success? ==> s.version == gav.value.version)
      && (source.maven == "" || gav.Failure? ==>
            s.version ==
              if source.version == "" && source.ddl != "" && v.status.version == "" then "1" else v.status.version)
  {}
}
