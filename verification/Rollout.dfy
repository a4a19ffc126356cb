/** pkg/controller/virtualdatabase/deployment.go: rolling the image out and keeping the deployment in line. */
module Rollout {
  import opened Outcomes
  import opened EnvVars
  import opened Vdb
  import opened Cluster
  import opened Operator
  import DeploymentEnvs
  import Digest
  import Proxy

  /** What the cluster answers: errors of reading the BuildConfig and the deployment, the variables
      deploymentEnvironments computes, the writes that create the deployment and that update its image, the
      revisions of the configuration and the write that updates the deployment. */
  datatype Answers = Answers(
    bcGet: Option<string>,
    read: Option<string>,
    envs: Result<seq<EnvVar>>,
    create: Write,
    image: Write,
    revisions: EnvSource -> Option<string>,
    update: Write)

  const NOT_FOUND := "not found"
  const ALREADY_EXISTS := "already exists"
  const NO_REPLICAS := "invalid memory address or nil pointer dereference"

  predicate Ready(conditions: seq<Condition>) {
    exists i :: 0 <= i < |conditions| && conditions[i] == Condition(Available, true)
  }

  /** Without conditions, or while the observed generation is below four, it counts as progressing. */
  predicate IsProgressing(conditions: seq<Condition>, observedGeneration: int) {
    || conditions == []
    || observedGeneration < 4
    || exists i :: 0 <= i < |conditions| && conditions[i] == Condition(Progressing, true)
  }

  function NewDeployment(op: Config, v: Resource, image: string, envs: seq<EnvVar>): Deployment {
    Deployment(image, v.spec.replicas.GetOr(1), Proxy.Settings(envs, op.platform.cluster), v.status.configDigest, [], 0)
  }

  /** Creates the deployment, or brings its image in line with the BuildConfig's output. */
  function Deployed(op: Config, v: Resource, o: Objects, a: Answers): (Objects, Option<string>) {
    if a.bcGet.Some? then (o, a.bcGet)
    else if o.bc.None? then (o, Some(NOT_FOUND))
    else if o.deployment.Some? && a.read.None? then
      var d, image := o.deployment.value, o.bc.value.output;
      if d.image == image then (o, None)
      else (if a.image.TookEffect() then o.(deployment := Some(d.(image := image))) else o, a.image.Error())
    else match a.envs
      case Failure(e) => (o, Some(e))
      case Success(envs) =>
        if o.deployment.Some? then (o, Some(ALREADY_EXISTS))
        else
          var d := NewDeployment(op, v, o.bc.value.output, envs);
          (if a.create.TookEffect() then o.(deployment := Some(d)) else o, a.create.Error())
  }

  /** The deployment as it can be read; a failing read leaves an empty object. */
  function Seen(o: Objects, a: Answers): Option<Deployment> {
    if a.read.Some? then None else o.deployment
  }

  function Watched(seen: Option<Deployment>): Phase {
    match seen
    case None => Deploying
    case Some(d) =>
      if Ready(d.conditions) then Running
      else if !IsProgressing(d.conditions, d.observedGeneration) then Phase.Error
      else Deploying
  }

  /** The deployment with the wanted replicas and variables. */
  function InLine(d: Deployment, replicas: int, envs: seq<EnvVar>): Deployment {
    d.(replicas := replicas, env := envs)
  }

  /** The working copy after ensureReplicas and the deployment it wants to write, if any. */
  datatype Plan = Nothing | Update(d: Deployment) | Give(error: string)

  function Planned(d: Deployment, v: Resource, envs: seq<EnvVar>, config: Option<string>): (Resource, Plan)
    requires v.spec.replicas.Some?
  {
    var wanted := InLine(d, v.spec.replicas.value, envs);
    if wanted != d then (v, Update(wanted))
    else match config
      case None => (v, Give(Digest.UNREADABLE))
      case Some(c) =>
        if c != v.status.configDigest then
          (v.(status := v.status.(configDigest := c)), Update(d.(configHash := c)))
        else (v, Nothing)
  }

  function ReplicasEnsured(op: Config, v: Resource, d: Deployment, a: Answers): (Resource, Deployment, Option<string>)
    requires v.spec.replicas.Some?
  {
    match a.envs
    case Failure(e) => (v, d, Some(e))
    case Success(envs) =>
      match Planned(d, v, envs, Digest.ConfigDigest(op.hasher, v.spec, a.revisions))
      case (v1, Nothing) => (v1, d, None)
      case (v1, Give(e)) => (v1, d, Some(e))
      case (v1, Update(d1)) => (v1, if a.update.TookEffect() then d1 else d, a.update.Error())
  }

  /** In phase Running a missing replica count is dereferenced: the process stops without any write. */
  function KeptInLine(op: Config, v: Resource, o: Objects, a: Answers): Outcome {
    var seen := Seen(o, a);
    if seen.None? || !Ready(seen.value.conditions) then Outcome(v, o, None)
    else if v.spec.replicas.None? then Outcome(v, o, Some(NO_REPLICAS))
    else
      var (v1, d1, error) := ReplicasEnsured(op, v, seen.value, a);
      Outcome(v1, o.(deployment := Some(d1)), error)
  }

  function Handled(op: Config, v: Resource, o: Objects, a: Answers): Outcome {
    if v.status.phase == KeystoreCreated then
      var (o1, error) := Deployed(op, v, o, a);
      Outcome(if error.Some? then v else WithPhase(v, Deploying), o1, error)
    else if v.status.phase == Deploying then Outcome(WithPhase(v, Watched(Seen(o, a))), o, None)
    else KeptInLine(op, v, o, a)
  }

  // ---------- what each phase does ----------

  /** In phase Deploying: Running if and only if the deployment can be read and some condition is Available and
      true; Error if and only if it can be read, none is, conditions are there, none of them is Progressing and
      true, and the observed generation has come to four. Otherwise the phase stays; nothing else changes. */
  lemma DeployingOutcomes(op: Config, v: Resource, o: Objects, a: Answers)
    requires v.status.phase == Deploying
    ensures
      var r := Handled(op, v, o, a);
      var next := r.vdb.status.phase;
      var readable := a.read.None? && o.deployment.Some?;
      var conditions := if readable then o.deployment.value.conditions else [];
      && r == Outcome(v.(status := v.status.(phase := next)), o, None)
      && (next == Running <==> Condition(Available, true) in conditions)
      && (next == Phase.Error <==>
            && readable && conditions != [] && o.deployment.value.observedGeneration >= 4
            && Condition(Available, true) !in conditions && Condition(Progressing, true) !in conditions)
      && (next == Running || next == Phase.Error || next == Deploying)
  {}

  /** The phase leaves KeystoreCreated if and only if there is no error. A deployment that can be read is never
      created anew: at most its image changes, to what the BuildConfig writes. Otherwise one is created, at most
      once, with the computed variables. */
  lemma DeployedOutcomes(op: Config, v: Resource, o: Objects, a: Answers)
    requires v.status.phase == KeystoreCreated
    ensures
      var r := Handled(op, v, o, a);
      && r.vdb == (if r.error.None? then v.(status := v.status.(phase := Deploying)) else v)
      && r.objects == o.(deployment := r.objects.deployment)
      && (a.bcGet.Some? || o.bc.None? ==>
            r.objects == o && r.error == if a.bcGet.Some? then a.bcGet else Some(NOT_FOUND))
      && (a.bcGet.None? && o.bc.Some? ==>
            if o.deployment.Some? && a.read.None? then
              var d := o.deployment.value.(image := o.bc.value.output);
              if d == o.deployment.value then r.objects == o && r.error.None?
              else
                && r.objects.deployment == (if a.image.Refused? then o.deployment else Some(d))
                && (a.image.Done? <==> r.error.None?)
            else
              && (r.error.None? <==> a.envs.Success? && o.deployment.None? && a.create.Done?)
              && (r.objects != o <==> a.envs.Success? && o.deployment.None? && !a.create.Refused?))
  {}

  /** The new deployment: the BuildConfig's image, the wanted replicas or one, the recorded configuration digest,
      and the variables with the proxy settings as they are handed down once more. */
  lemma CreatedDeployment(op: Config, v: Resource, o: Objects, a: Answers)
    requires v.status.phase == KeystoreCreated && o.deployment.None?
    requires Handled(op, v, o, a).objects != o
    ensures a.bcGet.None? && o.bc.Some? && a.envs.Success?
    ensures
      var d := Handled(op, v, o, a).objects.deployment;
      && d.Some? && d.value.image == o.bc.value.output
      && d.value.replicas == (if v.spec.replicas.Some? then v.spec.replicas.value else 1)
      && d.value.configHash == v.status.configDigest
      && d.value.env == Proxy.Settings(a.envs.value, op.platform.cluster)
      && d.value.conditions == [] && d.value.observedGeneration == 0
  {}

  /** So the container gets exactly the variables that deploymentEnvironments computes. */
  lemma DeployedAsComputed(op: Config, v: Resource, o: Objects, a: Answers, i: DeploymentEnvs.Inputs,
                           b: DeploymentEnvs.Answers)
    requires v.status.phase == KeystoreCreated && o.deployment.None?
    requires a.envs == DeploymentEnvs.DeployedEnvironment(i, op.platform, b)
    requires Handled(op, v, o, a).objects != o
    ensures
      var d := Handled(op, v, o, a).objects.deployment;
      d.Some? && a.envs.Success? && d.value.env == a.envs.value
  {
    CreatedDeployment(op, v, o, a);
    DeploymentEnvs.DeployedSettingsIdle(i, op.platform, b);
  }

  /** In phase Running nothing happens unless the deployment can be read and is available. */
  lemma RunningWaits(op: Config, v: Resource, o: Objects, a: Answers)
    requires v.status.phase == Running
    requires a.read.Some? || o.deployment.None? || Condition(Available, true) !in o.deployment.value.conditions
    ensures Handled(op, v, o, a) == Outcome(v, o, None)
  {}

  /** What a write of the deployment leaves. */
  function Written(v: Resource, o: Objects, d: Deployment, w: Write): (r: Outcome)
    ensures r.objects.deployment == if w.Refused? then o.deployment else Some(d)
    ensures r.error.None? <==> w.Done?
  {
    Outcome(v, if w.Refused? then o else o.(deployment := Some(d)), w.Error())
  }

  /** Otherwise the deployment gets the wanted replicas and variables in one write; when it has them, a new
      configuration digest is recorded in the resource and written to the deployment; or nothing is left to do. */
  lemma RunningOutcomes(op: Config, v: Resource, o: Objects, a: Answers)
    requires v.status.phase == Running && a.read.None? && o.deployment.Some?
    requires Condition(Available, true) in o.deployment.value.conditions
    ensures
      var r, d := Handled(op, v, o, a), o.deployment.value;
      var config := Digest.ConfigDigest(op.hasher, v.spec, a.revisions);
      if v.spec.replicas.None? then r == Outcome(v, o, Some(NO_REPLICAS))
      else if a.envs.Failure? then r == Outcome(v, o, Some(a.envs.error))
      else if d.replicas != v.spec.replicas.value || d.env != a.envs.value then
        r == Written(v, o, d.(replicas := v.spec.replicas.value, env := a.envs.value), a.update)
      else if config.None? then r == Outcome(v, o, Some(Digest.UNREADABLE))
      else if config.value == v.status.configDigest then r == Outcome(v, o, None)
      else
        var w := v.(status := v.status.(configDigest := config.value));
        r == Written(w, o, d.(configHash := config.value), a.update)
  {}

  // ---------- the operations ----------

  method IsDeploymentInReadyState(conditions: seq<Condition>) returns (r: bool)
    ensures r == Ready(conditions)
  {
    var i := 0;
    while i < |conditions|
      invariant 0 <= i <= |conditions|
      invariant forall j :: 0 <= j < i ==> conditions[j] != Condition(Available, true)
    {
      if conditions[i].kind == Available && conditions[i].isTrue {
        return true;
      }
      i := i + 1;
    }
    return false;
  }

  method IsDeploymentProgressing(conditions: seq<Condition>, observedGeneration: int) returns (r: bool)
    ensures r == IsProgressing(conditions, observedGeneration)
  {
    if |conditions| > 0 {
      var i := 0;
      while i < |conditions|
        invariant 0 <= i <= |conditions|
        invariant forall j :: 0 <= j < i ==> conditions[j] != Condition(Progressing, true)
      {
        if conditions[i].kind == Progressing && conditions[i].isTrue {
          return true;
        }
        i := i + 1;
      }
      return observedGeneration < 4;
    }
    return true;
  }

  method EnsureReplicas(op: Config, vdb: VirtualDatabase, api: ApiServer, a: Answers) returns (error: Option<string>)
    requires vdb.spec.replicas.Some? && api.deployment.Some?
    modifies vdb, api
    ensures (vdb.Value(), api.deployment, error) ==
      (var (v, d, e) := ReplicasEnsured(op, old(vdb.Value()), old(api.deployment).value, a); (v, Some(d), e))
    ensures api.Value() == old(api.Value()).(deployment := api.deployment)
  {
    if a.envs.Failure? {
      return Some(a.envs.error);
    }
    var deploymentEnvs := a.envs.value;
    var item := api.deployment.value;
    var update := false;
    if vdb.spec.replicas.value != item.replicas {
      item := item.(replicas := vdb.spec.replicas.value);
      update := true;
    }
    if deploymentEnvs != item.env {
      item := item.(env := deploymentEnvs);
      update := true;
    }
    if !update {
      var configDigest := Digest.ComputeConfigDigest(op.hasher, vdb.spec, a.revisions);
      if configDigest.None? {
        return Some(Digest.UNREADABLE);
      }
      if configDigest.value != vdb.status.configDigest {
        update := true;
        vdb.status := vdb.status.(configDigest := configDigest.value);
        item := item.(configHash := configDigest.value);
      }
    }
    if update {
      if a.update.TookEffect() {
        api.deployment := Some(item);
      }
      return a.update.Error();
    }
    return None;
  }

  method Deploy(op: Config, vdb: VirtualDatabase, api: ApiServer, a: Answers) returns (error: Option<string>)
    modifies api
    ensures (api.Value(), error) == Deployed(op, vdb.Value(), old(api.Value()), a)
  {
    if a.bcGet.Some? {
      return a.bcGet;
    }
    if api.bc.None? {
      return Some(NOT_FOUND);
    }
    if api.deployment.None? || a.read.Some? {
      if a.envs.Failure? {
        return Some(a.envs.error);
      }
      var envs := new EnvList(a.envs.value);
      var _ := Proxy.HTTPSettings(envs, op.platform.cluster, op.platform.parse);
      if api.deployment.Some? {
        return Some(ALREADY_EXISTS);
      }
      if a.create.TookEffect() {
        var replicas := vdb.spec.replicas.GetOr(1);
        api.deployment := Some(Deployment(api.bc.value.output, replicas, envs.items, vdb.status.configDigest, [], 0));
      }
      return a.create.Error();
    }
    var existing := api.deployment.value;
    if existing.image != api.bc.value.output {
      if a.image.TookEffect() {
        api.deployment := Some(existing.(image := api.bc.value.output));
      }
      return a.image.Error();
    }
    return None;
  }

  method Handle(op: Config, vdb: VirtualDatabase, api: ApiServer, a: Answers) returns (error: Option<string>)
    requires vdb.status.phase == KeystoreCreated || vdb.status.phase == Deploying || vdb.status.phase == Running
    modifies vdb, api
    ensures Outcome(vdb.Value(), api.Value(), error) == Handled(op, old(vdb.Value()), old(api.Value()), a)
  {
    error := None;
    if vdb.status.phase == KeystoreCreated {
      error := Deploy(op, vdb, api, a);
      if error.None? {
        vdb.status := vdb.status.(phase := Deploying);
      }
    } else {
      var item := if a.read.Some? then None else api.deployment;
      var conditions := if item.Some? then item.value.conditions else [];
      var generation := if item.Some? then item.value.observedGeneration else 0;
      var ready := IsDeploymentInReadyState(conditions);
      if vdb.status.phase == Deploying {
        var progressing := IsDeploymentProgressing(conditions, generation);
        if ready {
          vdb.status := vdb.status.(phase := Running);
        } else if !progressing {
          vdb.status := vdb.status.(phase := Phase.Error);
        }
      } else if ready {
        if vdb.spec.replicas.None? {
          return Some(NO_REPLICAS);
        }
        error := EnsureReplicas(op, vdb, api, a);
      }
    }
  }
}
