/** pkg/controller/virtualdatabase/service_image.go: the image of one virtual database. */
module ServiceImage {
  import opened Outcomes
  import opened EnvVars
  import opened FirstWins
  import opened Vdb
  import opened Cluster
  import opened Operator
  import Proxy

  /** What asking for a build comes to: an error before it, no base image tag yet, or a posted request. */
  datatype Trigger = Blocked(error: string) | TagMissing | Posted(reply: Write)

  /** What the cluster answers to the calls of one reconcile; None stands for success. */
  datatype Answers = Answers(
    imageStream: Option<string>,
    get: Option<string>,
    create: Write,
    update: Write,
    payload: Option<string>,
    trigger: Trigger,
    list: Option<string>)

  const NO_SOURCE :=
    "Only Git and DDL Content based, Maven based VDBs are allowed, none of these types are defined"

  /** The variables of the service's BuildConfig before the DIGEST entry is set. */
  function BaseEnv(op: Config, buildEnv: seq<EnvVar>): seq<EnvVar> {
    var p := op.platform;
    var envs := Proxy.Settings(Cloned(buildEnv), p.cluster);
    var java := p.render(Proxy.JavaProperties(envs, p.parse));
    Put(Put(envs, Literal("DEPLOYMENTS_DIR", "/deployments")),
        Literal("MAVEN_ARGS", "clean package " + java + op.buildOptions))
  }

  function WithDigest(envs: seq<EnvVar>, digest: string): (r: seq<EnvVar>)
    ensures Lookup(r, DIGEST) == Some(Literal(DIGEST, digest))
  {
    LookupPut(envs, Literal(DIGEST, digest), DIGEST);
    Put(envs, Literal(DIGEST, digest))
  }

  function ImageTag(name: string): string {
    name + ":" + "latest"
  }

  function ConfigOf(name: string, digest: string, envs: seq<EnvVar>): (bc: BuildConfig)
    ensures bc.lastVersion == 0 && DigestEntry(bc) == digest
  {
    BuildConfigRecord(WithDigest(envs, digest), ImageTag(name), 0)
  }

  function NewConfig(op: Config, v: Resource): (bc: BuildConfig)
    ensures bc.lastVersion == 0 && DigestEntry(bc) == v.status.digest
  {
    ConfigOf(v.name, v.status.digest, BaseEnv(op, v.spec.buildEnv))
  }

  /** The variables of a new BuildConfig. Three are fixed, whatever the user sets; any other is the user's, or
      else a proxy variable of the cluster when the user sets none. */
  lemma NewConfigVariables(op: Config, v: Resource, name: string)
    ensures
      var user, envs, p := v.spec.buildEnv, NewConfig(op, v).env, op.platform;
      var own := [Lookup(user, "HTTPS_PROXY"), Lookup(user, "HTTP_PROXY"), Lookup(user, "NO_PROXY")];
      var given := [p.cluster.httpsProxy.GetOr(""), p.cluster.httpProxy.GetOr(""), p.cluster.noProxy.GetOr("")];
      var offered := Proxy.Offered(p.cluster, name);
      && NewConfig(op, v).output == v.name + ":" + "latest"
      && UniqueNames(envs)
      && Lookup(envs, "DIGEST") == Some(Literal("DIGEST", v.status.digest))
      && Lookup(envs, "DEPLOYMENTS_DIR") == Some(Literal("DEPLOYMENTS_DIR", "/deployments"))
      && Lookup(envs, "MAVEN_ARGS") == Some(Literal("MAVEN_ARGS",
           "clean package " + p.render(Proxy.JavaProperties(envs, p.parse)) + op.buildOptions))
      && (name != "DIGEST" && name != "DEPLOYMENTS_DIR" && name != "MAVEN_ARGS" ==>
            Lookup(envs, name) ==
              if own == [None, None, None] && given != ["", "", ""] && offered.Some? then
                Some(Literal(name, offered.value))
              else Lookup(user, name))
  {
    var user, c := v.spec.buildEnv, op.platform.cluster;
    var settings := Proxy.Settings(Cloned(user), c);
    FindDistinct(user, BY_NAME, name);
    FindDistinct(user, BY_NAME, "HTTPS_PROXY");
    FindDistinct(user, BY_NAME, "HTTP_PROXY");
    FindDistinct(user, BY_NAME, "NO_PROXY");
    Proxy.SettingsLookup(Cloned(user), c, name);
    DistinctIsUnique(user, BY_NAME);
    Proxy.SettingsUnique(Cloned(user), c);
    var java := op.platform.render(Proxy.JavaProperties(settings, op.platform.parse));
    var args := "clean package " + java + op.buildOptions;
    ThreeSet(settings, args, v.status.digest, name);
    ThreeSet(settings, args, v.status.digest, "HTTPS_PROXY");
    ThreeSet(settings, args, v.status.digest, "HTTP_PROXY");
    ThreeSet(settings, args, v.status.digest, "NO_PROXY");
    Proxy.SameProperties(settings, NewConfig(op, v).env, op.platform.parse);
  }

  /** Three variables set one after the other. */
  lemma ThreeSet(envs: seq<EnvVar>, args: string, digest: string, name: string)
    requires UniqueNames(envs)
    ensures
      var r := WithDigest(
        Put(Put(envs, Literal("DEPLOYMENTS_DIR", "/deployments")), Literal("MAVEN_ARGS", args)), digest);
      && UniqueNames(r)
      && Lookup(r, "DIGEST") == Some(Literal("DIGEST", digest))
      && Lookup(r, "DEPLOYMENTS_DIR") == Some(Literal("DEPLOYMENTS_DIR", "/deployments"))
      && Lookup(r, "MAVEN_ARGS") == Some(Literal("MAVEN_ARGS", args))
      && (name != "DIGEST" && name != "DEPLOYMENTS_DIR" && name != "MAVEN_ARGS" ==>
            Lookup(r, name) == Lookup(envs, name))
  {
    var dir, arg := Literal("DEPLOYMENTS_DIR", "/deployments"), Literal("MAVEN_ARGS", args);
    var mark := Literal(DIGEST, digest);
    ThreePuts(envs, dir, arg, mark, "DIGEST");
    ThreePuts(envs, dir, arg, mark, "DEPLOYMENTS_DIR");
    ThreePuts(envs, dir, arg, mark, "MAVEN_ARGS");
    ThreePuts(envs, dir, arg, mark, name);
  }

  lemma ThreePuts(envs: seq<EnvVar>, a: EnvVar, b: EnvVar, c: EnvVar, name: string)
    requires UniqueNames(envs)
    ensures
      var r := Put(Put(Put(envs, a), b), c);
      && UniqueNames(r)
      && Lookup(r, name) ==
           if name == c.name then Some(c)
           else if name == b.name then Some(b)
           else if name == a.name then Some(a)
           else Lookup(envs, name)
  {
    PutUnique(envs, a);
    PutUnique(Put(envs, a), b);
    PutUnique(Put(Put(envs, a), b), c);
    LookupPut(envs, a, name);
    LookupPut(Put(envs, a), b, name);
    LookupPut(Put(Put(envs, a), b), c, name);
  }

  /** The stored BuildConfig with the resource's digest. */
  function Marked(bc: BuildConfig, digest: string): BuildConfig {
    bc.(env := WithDigest(bc.env, digest))
  }

  /** The guard: a first build, or a digest other than the one the last build was marked with. */
  predicate MustBuild(bc: BuildConfig, digest: string) {
    bc.lastVersion == 0 || DigestEntry(bc) != digest
  }

  predicate HasSource(v: Resource) {
    v.spec.source.ddl != "" || v.spec.source.maven != ""
  }

  /** Get the BuildConfig, or create it as `config`. */
  function EnsureConfig(config: BuildConfig, o: Objects, a: Answers): (Objects, Option<string>) {
    if a.get.Some? then (o, a.get)
    else if o.bc.Some? then (o, None)
    else (if a.create.TookEffect() then o.(bc := Some(config)) else o, a.create.Error())
  }

  /** Build the payload and ask for a build. */
  function Fire(o: Objects, a: Answers): (Objects, Option<string>)
    requires o.bc.Some?
  {
    if a.payload.Some? then (o, a.payload)
    else match a.trigger
      case Blocked(e) => (o, Some(e))
      case TagMissing => (o, None)
      case Posted(reply) =>
        var (bc, builds) := Started(o.bc.value, o.builds);
        (if reply.TookEffect() then o.(bc := Some(bc), builds := builds) else o, reply.Error())
  }

  /** Mark the BuildConfig, then fire. */
  function MarkAndFire(digest: string, o: Objects, a: Answers): (Objects, Option<string>)
    requires o.bc.Some?
  {
    var marked := o.(bc := Some(Marked(o.bc.value, digest)));
    match a.update
    case Refused(e) => (o, Some(e))
    case Lost(e) => (marked, Some(e))
    case Done => Fire(marked, a)
  }

  function BuildImage(op: Config, v: Resource, o: Objects, a: Answers): (Objects, Option<string>) {
    if !HasSource(v) then (o, Some(NO_SOURCE))
    else if a.imageStream.Some? then (o, a.imageStream)
    else
      var (o1, error) := EnsureConfig(NewConfig(op, v), o, a);
      if error.Some? then (o1, error)
      else if MustBuild(o1.bc.value, v.status.digest) then MarkAndFire(v.status.digest, o1, a)
      else (o1, None)
  }

  /** The phase the latest build stands for. */
  function Monitored(builds: seq<Build>, phase: Phase): Phase {
    match Latest(builds)
    case None => phase
    case Some(b) =>
      if b.phase == BuildComplete then ServiceImageFinished
      else if Unsuccessful(b.phase) then ServiceImageFailed
      else if b.phase == BuildRunning then Phase.ServiceImage
      else phase
  }

  function Handled(op: Config, v: Resource, o: Objects, a: Answers): Outcome {
    if v.status.phase == BuilderImageFinished then
      var (o1, error) := BuildImage(op, v, o, a);
      if error.Some? then Outcome(WithFailure(WithPhase(v, Phase.Error), error.value), o1, error)
      else Outcome(WithPhase(v, Phase.ServiceImage), o1, None)
    else if a.list.Some? then Outcome(v, o, a.list)
    else Outcome(WithPhase(v, Monitored(o.builds, v.status.phase)), o, None)
  }

  // ---------- the operations ----------

  method BuildVariables(op: Config, buildEnv: seq<EnvVar>) returns (envs: EnvList)
    ensures fresh(envs) && envs.items == BaseEnv(op, buildEnv)
  {
    var cloned := Clone(buildEnv);
    envs := new EnvList(cloned);
    var jp := Proxy.HTTPSettings(envs, op.platform.cluster, op.platform.parse);
    var javaProperties := op.platform.render(jp);
    envs.SetVal("DEPLOYMENTS_DIR", "/deployments");
    envs.SetVal("MAVEN_ARGS", "clean package " + javaProperties + op.buildOptions);
  }

  method MarkedConfig(name: string, digest: string, envs: EnvList) returns (bc: BuildConfig)
    modifies envs
    ensures bc == ConfigOf(name, digest, old(envs.items))
  {
    LookupPut(envs.items, Literal(DIGEST, digest), DIGEST);
    envs.SetVal(DIGEST, digest);
    return BuildConfigRecord(envs.items, name + ":" + "latest", 0);
  }

  method NewServiceBC(op: Config, vdb: VirtualDatabase) returns (bc: BuildConfig)
    ensures bc == NewConfig(op, vdb.Value())
  {
    var envs := BuildVariables(op, vdb.spec.buildEnv);
    bc := MarkedConfig(vdb.name, vdb.status.digest, envs);
  }

  /** Starts a build of the service's BuildConfig. */
  method TriggerBuild(api: ApiServer, a: Answers) returns (error: Option<string>)
    requires api.bc.Some?
    modifies api
    ensures a.payload.None? ==> (api.Value(), error) == Fire(old(api.Value()), a)
  {
    match a.trigger {
      case Blocked(e) => return Some(e);
      case TagMissing => return None;
      case Posted(reply) =>
        if reply.TookEffect() {
          var (bc, builds) := Started(api.bc.value, api.builds);
          api.bc, api.builds := Some(bc), builds;
        }
        return reply.Error();
    }
  }

  /** Sets the DIGEST entry of the fetched BuildConfig and writes it back. */
  method MarkBuildConfig(api: ApiServer, bc: BuildConfig, digest: string, a: Answers) returns (error: Option<string>)
    requires api.bc == Some(bc)
    modifies api
    ensures error == a.update.Error()
    ensures api.bc == Some(if a.update.TookEffect() then Marked(bc, digest) else bc)
    ensures api.builds == old(api.builds) && api.deployment == old(api.deployment)
  {
    var envs := new EnvList(bc.env);
    envs.SetVal(DIGEST, digest);
    LookupPut(bc.env, Literal(DIGEST, digest), DIGEST);
    if a.update.TookEffect() {
      api.bc := Some(bc.(env := envs.items));
    }
    return a.update.Error();
  }

  /** Fetches the BuildConfig and creates it when it is missing. */
  method GetOrCreate(op: Config, vdb: VirtualDatabase, api: ApiServer, a: Answers) returns (error: Option<string>)
    modifies api
    ensures (api.Value(), error) == EnsureConfig(NewConfig(op, vdb.Value()), old(api.Value()), a)
  {
    if a.get.Some? {
      return a.get;
    }
    if api.bc.None? {
      var buildConfig := NewServiceBC(op, vdb);
      if a.create.TookEffect() {
        api.bc := Some(buildConfig);
      }
      return a.create.Error();
    }
    return None;
  }

  /** Marks the BuildConfig and starts a build. */
  method MarkAndTrigger(api: ApiServer, bc: BuildConfig, digest: string, a: Answers) returns (error: Option<string>)
    requires api.bc == Some(bc)
    modifies api
    ensures (api.Value(), error) == MarkAndFire(digest, old(api.Value()), a)
  {
    error := MarkBuildConfig(api, bc, digest, a);
    if error.Some? {
      return;
    }
    if a.payload.Some? {
      return a.payload;
    }
    error := TriggerBuild(api, a);
  }

  method BuildServiceImage(op: Config, vdb: VirtualDatabase, api: ApiServer, a: Answers)
    returns (error: Option<string>)
    modifies api
    ensures (api.Value(), error) == BuildImage(op, vdb.Value(), old(api.Value()), a)
  {
    if vdb.spec.source.ddl == "" && vdb.spec.source.maven == "" {
      return Some(NO_SOURCE);
    }
    if a.imageStream.Some? {
      return a.imageStream;
    }
    error := GetOrCreate(op, vdb, api, a);
    if error.Some? {
      return;
    }
    var bc := api.bc.value;
    if bc.lastVersion == 0 || DigestEntry(bc) != vdb.status.digest {
      error := MarkAndTrigger(api, bc, vdb.status.digest, a);
    }
  }

  method MonitorServiceImage(vdb: VirtualDatabase, api: ApiServer, a: Answers) returns (error: Option<string>)
    requires vdb.status.phase == Phase.ServiceImage
    modifies vdb
    ensures error == a.list
    ensures vdb.Value() ==
      if error.Some? then old(vdb.Value())
      else WithPhase(old(vdb.Value()), Monitored(api.builds, Phase.ServiceImage))
  {
    if a.list.Some? {
      return a.list;
    }
    var build := None;
    var maxBuildNumber := 0;
    var i := 0;
    while i < |api.builds|
      invariant 0 <= i <= |api.builds|
      invariant build == Latest(api.builds[..i])
      invariant maxBuildNumber == if build.Some? then build.value.number else 0
    {
      assert api.builds[..i + 1][..i] == api.builds[..i];
      var b := api.builds[i];
      if b.number > maxBuildNumber {
        maxBuildNumber := b.number;
        build := Some(b);
      }
      i := i + 1;
    }
    assert api.builds[..i] == api.builds;
    if build.Some? {
      var phase := build.value.phase;
      if phase == BuildComplete {
        vdb.status := vdb.status.(phase := ServiceImageFinished);
      } else if phase == BuildError || phase == BuildFailed || phase == BuildCancelled {
        vdb.status := vdb.status.(phase := ServiceImageFailed);
      } else if phase == BuildRunning {
        vdb.status := vdb.status.(phase := Phase.ServiceImage);
      }
    }
    return None;
  }

  method Handle(op: Config, vdb: VirtualDatabase, api: ApiServer, a: Answers) returns (error: Option<string>)
    requires vdb.status.phase == BuilderImageFinished || vdb.status.phase == Phase.ServiceImage
    modifies vdb, api
    ensures Outcome(vdb.Value(), api.Value(), error) == Handled(op, old(vdb.Value()), old(api.Value()), a)
  {
    if vdb.status.phase == BuilderImageFinished {
      ghost var v := vdb.Value();
      vdb.status := vdb.status.(phase := Phase.ServiceImage);
      error := BuildServiceImage(op, vdb, api, a);
      BuildIgnoresPhase(op, v, vdb.Value(), old(api.Value()), a);
      if error.Some? {
        vdb.status := vdb.status.(phase := Phase.Error, failure := error.value);
      }
    } else {
      error := MonitorServiceImage(vdb, api, a);
    }
  }

  lemma BuildIgnoresPhase(op: Config, v: Resource, w: Resource, o: Objects, a: Answers)
    requires w == WithPhase(v, w.status.phase)
    ensures BuildImage(op, v, o, a) == BuildImage(op, w, o, a)
  {}

  // ---------- properties ----------

  /** buildServiceImage succeeds if and only if there is a source, the image stream and the BuildConfig are there
      or created, and, when a build is due, the mark is written, the payload built and the build asked for. */
  lemma BuildSucceedsExactly(op: Config, v: Resource, o: Objects, a: Answers)
    ensures
      var due := o.bc.None? || o.bc.value.lastVersion == 0
                 || Lookup(o.bc.value.env, "DIGEST").value.value != v.status.digest;
      BuildImage(op, v, o, a).1.None? <==>
        && (v.spec.source.ddl != "" || v.spec.source.maven != "") && a.imageStream.None? && a.get.None?
        && (o.bc.None? ==> a.create.Done?)
        && (due ==> a.update.Done? && a.payload.None? && !a.trigger.Blocked?
                    && (a.trigger.Posted? ==> a.trigger.reply.Done?))
  {}

  /** The error is the first one met on the way. */
  lemma FirstErrorReported(op: Config, v: Resource, o: Objects, a: Answers)
    ensures
      var e := BuildImage(op, v, o, a).1;
      if v.spec.source.ddl == "" && v.spec.source.maven == "" then e == Some(NO_SOURCE)
      else if a.imageStream.Some? then e == a.imageStream
      else if a.get.Some? then e == a.get
      else if o.bc.None? && !a.create.Done? then e == Some(a.create.error)
      else e.Some? ==>
        if !a.update.Done? then e == Some(a.update.error)
        else if a.payload.Some? then e == a.payload
        else (a.trigger.Blocked? && e == Some(a.trigger.error)) || (a.trigger.Posted? && e == a.trigger.reply.Error())
  {}

  /** In phase BuilderImageFinished the resource goes to ServiceImage, or to Error with the error as message. */
  lemma BuildOutcomes(op: Config, v: Resource, o: Objects, a: Answers)
    requires v.status.phase == BuilderImageFinished
    ensures
      var r, (p, error) := Handled(op, v, o, a), BuildImage(op, v, o, a);
      && r.objects == p && r.error == error
      && (error.None? ==> r.vdb == v.(status := v.status.(phase := Phase.ServiceImage)))
      && (error.Some? ==> r.vdb == v.(status := v.status.(phase := Phase.Error, failure := error.value)))
  {}

  /** In phase ServiceImage the build with the highest number, the first one listed of several, decides: a complete
      one finishes the phase, an unsuccessful one fails it, any other keeps it. */
  lemma MonitorOutcomes(op: Config, v: Resource, o: Objects, a: Answers, i: nat)
    requires v.status.phase == Phase.ServiceImage && a.list.None? && IsLatest(o.builds, i)
    ensures
      var b := o.builds[i].phase;
      var next := if b == BuildComplete then ServiceImageFinished
                  else if b == BuildFailed || b == BuildError || b == BuildCancelled then ServiceImageFailed
                  else Phase.ServiceImage;
      Handled(op, v, o, a) == Outcome(v.(status := v.status.(phase := next)), o, None)
  {
    var j := LatestIsFirst(o.builds);
  }

  /** Without a numbered build, or when the builds cannot be listed, nothing changes. */
  lemma MonitorWaits(op: Config, v: Resource, o: Objects, a: Answers)
    requires v.status.phase == Phase.ServiceImage
    requires a.list.None? ==> forall i :: 0 <= i < |o.builds| ==> o.builds[i].number <= 0
    ensures Handled(op, v, o, a) == Outcome(v, o, a.list)
  {}

  /** Marking sets the DIGEST entry and keeps every other variable in its place. */
  lemma MarkedVariables(bc: BuildConfig, digest: string, name: string)
    ensures
      var marked := Marked(bc, digest);
      && Lookup(marked.env, name) ==
           (if name == "DIGEST" then Some(Literal("DIGEST", digest)) else Lookup(bc.env, name))
      && Others(marked.env, "DIGEST") == Others(bc.env, "DIGEST")
      && |marked.env| == |bc.env|
      && marked.output == bc.output && marked.lastVersion == bc.lastVersion
  {
    LookupPut(bc.env, Literal(DIGEST, digest), name);
    PutKeepsOthers(bc.env, Literal(DIGEST, digest));
    PutKeepsLength(bc.env, Literal(DIGEST, digest));
  }

  lemma PutKeepsLength(vars: seq<EnvVar>, v: EnvVar)
    requires Lookup(vars, v.name).Some?
    ensures |Put(vars, v)| == |vars|
  {
    PutNames(vars, v);
    InNames(vars, v.name);
    assert |Names(Put(vars, v))| == |Names(vars)|;
  }

  /** The same BuildConfig, but for the DIGEST entry and the builds counted. */
  predicate SameConfig(bc: BuildConfig, start: BuildConfig) {
    bc.output == start.output && Others(bc.env, "DIGEST") == Others(start.env, "DIGEST")
  }

  lemma FireKeepsConfig(o: Objects, a: Answers)
    requires o.bc.Some?
    ensures
      var p := Fire(o, a).0;
      p.bc.Some? && p.bc.value.env == o.bc.value.env && p.bc.value.output == o.bc.value.output
  {}

  lemma MarkKeepsConfig(digest: string, o: Objects, a: Answers)
    requires o.bc.Some?
    ensures var p := MarkAndFire(digest, o, a).0; p.bc.Some? && SameConfig(p.bc.value, o.bc.value)
  {
    MarkedVariables(o.bc.value, digest, "DIGEST");
    FireKeepsConfig(o.(bc := Some(Marked(o.bc.value, digest))), a);
  }

  lemma EnsureKeepsConfig(config: BuildConfig, o: Objects, a: Answers)
    ensures
      var (p, e) := EnsureConfig(config, o, a);
      && (p.bc == o.bc || (o.bc.None? && p.bc == Some(config)))
      && (e.None? ==> p.bc.Some?)
  {}

  lemma MakeKeepsConfig(config: BuildConfig, digest: string, o: Objects, a: Answers)
    ensures
      var (o1, e) := EnsureConfig(config, o, a);
      var p := if e.None? && MustBuild(o1.bc.value, digest) then MarkAndFire(digest, o1, a).0 else o1;
      && (o.bc.Some? ==> p.bc.Some?)
      && (p.bc.Some? ==> SameConfig(p.bc.value, if o.bc.Some? then o.bc.value else config))
  {
    EnsureKeepsConfig(config, o, a);
    var (o1, e) := EnsureConfig(config, o, a);
    if o1.bc.Some? {
      MarkKeepsConfig(digest, o1, a);
    }
  }

  lemma BuildImageInSteps(op: Config, v: Resource, o: Objects, a: Answers)
    ensures
      var (o1, e) := EnsureConfig(NewConfig(op, v), o, a);
      var p := if e.None? && MustBuild(o1.bc.value, v.status.digest) then MarkAndFire(v.status.digest, o1, a).0 else o1;
      BuildImage(op, v, o, a).0 == o || BuildImage(op, v, o, a).0 == p
  {}

  /** Whatever buildServiceImage does, the variables but for DIGEST and the tag stay those of the BuildConfig there
      was, or those of a new one. */
  lemma BuildKeepsVariables(op: Config, v: Resource, o: Objects, a: Answers)
    ensures
      var start := if o.bc.Some? then o.bc.value else NewConfig(op, v);
      var p := BuildImage(op, v, o, a).0;
      && (o.bc.Some? ==> p.bc.Some?)
      && (p.bc.Some? ==> SameConfig(p.bc.value, start))
  {
    MakeKeepsConfig(NewConfig(op, v), v.status.digest, o, a);
    BuildImageInSteps(op, v, o, a);
  }
}
