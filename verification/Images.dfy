/** What the operator does about an image that has been rebuilt: nothing, because the image's name never
    changes; and when exactly it writes a deployment at all. */
module Images {
  import opened Outcomes
  import opened Vdb
  import opened Cluster
  import opened Operator
  import opened Reconciler
  import opened Phases
  import opened Runs
  import opened Guarantees
  import opened ConfigDrift
  import Updater
  import Rollout
  import ServiceImage

  /** Every object carries the image tag of the one resource. */
  predicate ObjectsNamed(o: Objects, name: string) {
    && (o.bc.Some? ==> o.bc.value.output == ServiceImage.ImageTag(name))
    && (o.deployment.Some? ==> o.deployment.value.image == ServiceImage.ImageTag(name))
  }

  predicate Named(s: System, name: string) {
    ObjectsNamed(s.objects, name) && forall i :: 0 <= i < |s.history| ==> s.history[i].name == name
  }

  // ---------- one action ----------

  lemma FireKeepsNames(o: Objects, a: ServiceImage.Answers, name: string)
    requires o.bc.Some? && ObjectsNamed(o, name)
    ensures ObjectsNamed(ServiceImage.Fire(o, a).0, name)
  {}

  lemma BuildKeepsNames(op: Config, v: Resource, o: Objects, a: ServiceImage.Answers)
    requires ObjectsNamed(o, v.name)
    ensures ObjectsNamed(ServiceImage.BuildImage(op, v, o, a).0, v.name)
  {
    if ServiceImage.HasSource(v) && a.imageStream.None? {
      var (o1, e) := ServiceImage.EnsureConfig(ServiceImage.NewConfig(op, v), o, a);
      EnsureKeepsNames(ServiceImage.NewConfig(op, v), o, a, v.name);
      if e.None? {
        MarkKeepsNames(v.status.digest, o1, a, v.name);
      }
    }
  }

  lemma EnsureKeepsNames(config: BuildConfig, o: Objects, a: ServiceImage.Answers, name: string)
    requires ObjectsNamed(o, name) && config.output == ServiceImage.ImageTag(name)
    ensures
      var (o1, e) := ServiceImage.EnsureConfig(config, o, a);
      ObjectsNamed(o1, name) && (e.None? ==> o1.bc.Some?)
  {}

  lemma MarkKeepsNames(digest: string, o: Objects, a: ServiceImage.Answers, name: string)
    requires o.bc.Some? && ObjectsNamed(o, name)
    ensures ObjectsNamed(ServiceImage.MarkAndFire(digest, o, a).0, name)
  {
    FireKeepsNames(o.(bc := Some(ServiceImage.Marked(o.bc.value, digest))), a, name);
  }

  lemma ActKeepsNames(op: Config, v: Resource, o: Objects, a: Answers)
    requires ObjectsNamed(o, v.name)
    ensures ObjectsNamed(Act(op, v, o, a).objects, v.name)
  {
    if v.status.phase == BuilderImageFinished {
      BuildHandled(op, v, o, a);
      BuildKeepsNames(op, v, o, a.service);
    } else {
      OthersKeepBuilds(op, v, o, a);
    }
  }

  /** In no phase but Running does an action touch a deployment whose image has the BuildConfig's tag. */
  lemma DeploymentWaits(op: Config, v: Resource, o: Objects, a: Answers)
    requires v.status.phase != Running && o.deployment.Some?
    requires o.bc.Some? ==> o.deployment.value.image == o.bc.value.output
    ensures Act(op, v, o, a).objects.deployment == o.deployment
  {
    if v.status.phase == BuilderImageFinished {
      BuildStep(op, v, o, a);
    }
  }

  // ---------- runs ----------

  lemma ReconcileKeepsNames(op: Config, s: System, at: nat, a: Answers, name: string)
    requires Readable(s, at) && Named(s, name)
    ensures Named(Reconciled(op, s, at, a), name)
  {
    var v := s.history[at];
    if !Updater.IsVdbUpdated(op, v) {
      ActKeepsNames(op, v, s.objects, a);
      ActFollowsEdge(op, v, s.objects, a);
      AppliedKeepsNames(s, at, Act(op, v, s.objects, a), a.update, name);
      ActionApplied(op, s, at, a);
    }
  }

  lemma AppliedKeepsNames(s: System, at: nat, r: Outcome, w: Write, name: string)
    requires Readable(s, at) && Named(s, name) && ObjectsNamed(r.objects, name) && r.vdb.name == name
    ensures Named(Applied(s, at, r, w), name)
  {}

  lemma StepKeepsNames(op: Config, l: Ledger, e: Event, name: string)
    requires WellFormed(l.s) && Named(l.s, name)
    ensures Named(Step(op, l, e).s, name)
  {
    match e
    case Edit(_) =>
    case BuildProgress(_, _) =>
    case DeploymentReport(_, _) =>
    case Reconcile(at, a) =>
      if Readable(l.s, at) {
        ReconcileStep(op, l, at, a);
        AfterSystem(op, l, at, a);
        ReconcileKeepsNames(op, l.s, at, a, name);
      }
  }

  lemma {:induction false} RunKeepsNames(op: Config, l: Ledger, events: seq<Event>, name: string)
    requires WellFormed(l.s) && Named(l.s, name)
    ensures Named(Run(op, l, events).s, name)
    decreases events
  {
    if events != [] {
      StepKeepsNames(op, l, events[0], name);
      RunKeepsNames(op, Step(op, l, events[0]), events[1..], name);
    }
  }

  /** In every reachable state the deployment names the image by the tag the builds write, which is the
      resource's name and "latest": comparing the names never calls for an update. */
  lemma OneImageName(op: Config, name: string, namespace: string, spec: Spec, events: seq<Event>)
    ensures Named(Reached(op, name, namespace, spec, events).s, name)
  {
    RunKeepsNames(op, Fresh(name, namespace, spec), events, name);
  }

  // ---------- when exactly a deployment is written ----------

  /** The guard of a write in phase Running: the deployment can be read and is ready, what it should be can be
      computed, the write takes effect, and it brings replicas or variables in line or, when these are, a
      configuration digest that the deployment does not carry. */
  predicate Rewrites(op: Config, s: System, at: nat, a: Answers)
    requires Readable(s, at)
  {
    var v, o := s.history[at], s.objects;
    !Updater.IsVdbUpdated(op, v) && v.status.phase == Running && Writes(op, v, o, a.rollout)
  }

  predicate Writes(op: Config, v: Resource, o: Objects, a: Rollout.Answers) {
    && o.deployment.Some? && a.read.None? && Rollout.Ready(o.deployment.value.conditions)
    && v.spec.replicas.Some? && a.envs.Success? && a.update.TookEffect()
    && var d, c := o.deployment.value, Noticed(op, v, o, a);
       Rollout.InLine(d, v.spec.replicas.value, a.envs.value) != d || (c.Some? && c.value != d.configHash)
  }

  lemma RunningWrites(op: Config, v: Resource, o: Objects, a: Answers)
    requires v.status.phase == Running && o.deployment.Some?
    ensures
      var p := Act(op, v, o, a).objects;
      p.deployment.Some? && (!SameDeployment(o.deployment.value, p.deployment.value) <==> Writes(op, v, o, a.rollout))
    ensures Act(op, v, o, a).objects.deployment != o.deployment <==> Writes(op, v, o, a.rollout)
  {}

  /** A reconcile changes an existing deployment if and only if that guard holds, and then more than what the
      cluster reports about it. */
  lemma RewritesExactly(op: Config, s: System, at: nat, a: Answers, name: string)
    requires Readable(s, at) && Named(s, name) && s.objects.deployment.Some?
    ensures Reconciled(op, s, at, a).objects.deployment != s.objects.deployment <==> Rewrites(op, s, at, a)
    ensures
      var p := Reconciled(op, s, at, a).objects;
      && p.deployment.Some?
      && (!SameDeployment(s.objects.deployment.value, p.deployment.value) <==> Rewrites(op, s, at, a))
  {
    var v := s.history[at];
    if !Updater.IsVdbUpdated(op, v) {
      ActionApplied(op, s, at, a);
      if v.status.phase == Running {
        RunningWrites(op, v, s.objects, a);
      } else {
        DeploymentWaits(op, v, s.objects, a);
      }
    }
  }

  /** Two deployments that differ at most in what the cluster reports. */
  predicate SameDeployment(d: Deployment, e: Deployment) {
    e == d.(conditions := e.conditions, observedGeneration := e.observedGeneration)
  }

  predicate StepRewrites(op: Config, l: Ledger, e: Event)
    requires WellFormed(l.s)
  {
    e.Reconcile? && Readable(l.s, e.at) && Rewrites(op, l.s, e.at, e.answers)
  }

  /** A step changes it if and only if it is a reconcile for which the guard holds. */
  lemma StepRewritesExactly(op: Config, l: Ledger, e: Event, name: string)
    requires WellFormed(l.s) && Named(l.s, name) && l.s.objects.deployment.Some?
    ensures
      var p := Step(op, l, e).s.objects;
      && p.deployment.Some?
      && (!SameDeployment(l.s.objects.deployment.value, p.deployment.value) <==> StepRewrites(op, l, e))
  {
    match e
    case Edit(_) =>
    case BuildProgress(_, _) =>
    case DeploymentReport(_, _) =>
    case Reconcile(at, a) =>
      if Readable(l.s, at) {
        ReconcileStep(op, l, at, a);
        AfterSystem(op, l, at, a);
        RewritesExactly(op, l.s, at, a, name);
      }
  }

  /** At every moment of the run there is the deployment `d`, but for what the cluster reports. */
  predicate AlwaysSame(op: Config, l: Ledger, events: seq<Event>, d: Deployment)
    requires WellFormed(l.s)
    decreases events
  {
    && l.s.objects.deployment.Some? && SameDeployment(d, l.s.objects.deployment.value)
    && (events == [] || AlwaysSame(op, Step(op, l, events[0]), events[1..], d))
  }

  /** The guard holds at no reconcile of the run. */
  predicate NeverRewrites(op: Config, l: Ledger, events: seq<Event>)
    requires WellFormed(l.s)
    decreases events
  {
    events == [] || (!StepRewrites(op, l, events[0]) && NeverRewrites(op, Step(op, l, events[0]), events[1..]))
  }

  /** Over any run, whatever is edited and built, the deployment keeps image, replicas, variables and annotation
      throughout if and only if the guard holds at no reconcile. */
  lemma {:induction false} SameExactly(op: Config, l: Ledger, events: seq<Event>, d: Deployment, name: string)
    requires WellFormed(l.s) && Named(l.s, name)
    requires l.s.objects.deployment.Some? && SameDeployment(d, l.s.objects.deployment.value)
    ensures AlwaysSame(op, l, events, d) <==> NeverRewrites(op, l, events)
    decreases events
  {
    if events != [] {
      var m := Step(op, l, events[0]);
      StepKeepsNames(op, l, events[0], name);
      StepRewritesExactly(op, l, events[0], name);
      if !StepRewrites(op, l, events[0]) {
        SameExactly(op, m, events[1..], d, name);
      }
    }
  }

  lemma {:induction false} SameAtEnd(op: Config, l: Ledger, events: seq<Event>, d: Deployment)
    requires WellFormed(l.s) && AlwaysSame(op, l, events, d)
    ensures
      var p := Run(op, l, events).s.objects;
      p.deployment.Some? && SameDeployment(d, p.deployment.value)
    decreases events
  {
    if events != [] {
      SameAtEnd(op, Step(op, l, events[0]), events[1..], d);
    }
  }

  /** No reconcile of the run acts on a version in phase Running. */
  predicate NoneInRunning(op: Config, l: Ledger, events: seq<Event>)
    requires WellFormed(l.s)
    decreases events
  {
    events == [] ||
    (&& (events[0].Reconcile? && Readable(l.s, events[0].at) ==>
           var v := l.s.history[events[0].at];
           v.status.phase != Running || Updater.IsVdbUpdated(op, v))
     && NoneInRunning(op, Step(op, l, events[0]), events[1..]))
  }

  lemma {:induction false} NoneNeverRewrites(op: Config, l: Ledger, events: seq<Event>)
    requires WellFormed(l.s) && NoneInRunning(op, l, events)
    ensures NeverRewrites(op, l, events)
    decreases events
  {
    if events != [] {
      NoneNeverRewrites(op, Step(op, l, events[0]), events[1..]);
    }
  }

  /** So a rebuilt image is not rolled out by the operator as long as no reconcile acts in phase Running. */
  lemma RebuiltImageWaits(op: Config, l: Ledger, events: seq<Event>, name: string)
    requires WellFormed(l.s) && Named(l.s, name) && l.s.objects.deployment.Some? && NoneInRunning(op, l, events)
    ensures
      var p := Run(op, l, events).s.objects;
      p.deployment.Some? && SameDeployment(l.s.objects.deployment.value, p.deployment.value)
  {
    var d := l.s.objects.deployment.value;
    NoneNeverRewrites(op, l, events);
    SameExactly(op, l, events, d, name);
    SameAtEnd(op, l, events, d);
  }
}
