/** The phase graph, and what a single action may do to the resource and to the build objects. */
module Phases {
  import opened Outcomes
  import opened Vdb
  import opened Cluster
  import opened Operator
  import opened Reconciler
  import Updater
  import BuilderImage
  import ServiceImage

  /** The edges an action may follow. */
  predicate Edge(p: Phase, q: Phase) {
    match p
    case Initial => q == CreateCacheStore
    case CreateCacheStore => q == S2IReady
    case S2IReady => q == Phase.BuilderImage
    case BuilderImage => q == BuilderImageFinished || q == BuilderImageFailed
    case BuilderImageFinished => q == Phase.ServiceImage || q == Phase.Error
    case ServiceImage => q == ServiceImageFinished || q == ServiceImageFailed
    case ServiceImageFinished => q == ServiceCreated
    case ServiceCreated => q == KeystoreCreated
    case KeystoreCreated => q == Deploying
    case Deploying => q == Running || q == Phase.Error
    case _ => false
  }

  function Rank(p: Phase): (r: nat)
    ensures r <= 10
  {
    match p
    case Initial => 0
    case CreateCacheStore => 1
    case S2IReady => 2
    case BuilderImage => 3
    case BuilderImageFinished => 4
    case ServiceImage => 5
    case ServiceImageFinished => 6
    case ServiceCreated => 7
    case KeystoreCreated => 8
    case Deploying => 9
    case _ => 10
  }

  /** Phases that only a redeploy leaves. */
  predicate Absorbing(p: Phase) {
    p == BuilderImageFailed || p == ServiceImageFailed || p == Phase.Error || p == Deleting
  }

  /** Phases from which on the BuildConfig must agree with the resource. */
  predicate Late(p: Phase) {
    Finished(p) || p == Phase.ServiceImage || p == ServiceImageFailed
  }

  /** Phases that presuppose a finished service build. */
  predicate Finished(p: Phase) {
    p == ServiceImageFinished || p == ServiceCreated || p == KeystoreCreated || p == Deploying || p == Running
  }

  lemma EdgesClimb(p: Phase, q: Phase)
    requires Edge(p, q)
    ensures Rank(p) < Rank(q)
    ensures !Absorbing(p) && p != Running
  {}

  // ---------- what an action does to the resource ----------

  lemma LastDecidesPhase(builds: seq<BuildPhase>)
    ensures BuilderImage.LastDecides(builds, Phase.BuilderImage)
      in {Phase.BuilderImage, BuilderImageFinished, BuilderImageFailed}
  {}

  /** An action follows at most one edge, and leaves the source and the digest as they are: no action can
      cause a redeploy. */
  lemma ActFollowsEdge(op: Config, v: Resource, o: Objects, a: Answers)
    requires !Updater.IsVdbUpdated(op, v)
    ensures
      var w := Act(op, v, o, a).vdb;
      && (w.status.phase == v.status.phase || Edge(v.status.phase, w.status.phase))
      && w.spec.source == v.spec.source
      && w.status.digest == v.status.digest
      && w.name == v.name && w.namespace == v.namespace
  {
    if v.status.phase == Phase.BuilderImage && a.builder.builds.Success? {
      LastDecidesPhase(a.builder.builds.value);
    } else if v.status.phase == Running {
      RunningKeepsPhase(op, v, o, a);
    }
  }

  lemma RunningKeepsPhase(op: Config, v: Resource, o: Objects, a: Answers)
    requires v.status.phase == Running
    ensures Act(op, v, o, a).vdb ==
      v.(status := v.status.(configDigest := Act(op, v, o, a).vdb.status.configDigest))
    ensures Act(op, v, o, a).objects == o.(deployment := Act(op, v, o, a).objects.deployment)
  {}

  /** In a phase without edges an action changes nothing. */
  lemma AbsorbingIdle(op: Config, v: Resource, o: Objects, a: Answers)
    requires Absorbing(v.status.phase)
    ensures Act(op, v, o, a) == Outcome(v, o, None)
  {}

  // ---------- what an action does to the build objects ----------

  function LastVersion(o: Objects): nat {
    if o.bc.Some? then o.bc.value.lastVersion else 0
  }

  /** The BuildConfig is marked with `digest`. */
  predicate Agrees(o: Objects, digest: string) {
    o.bc.Some? && DigestEntry(o.bc.value) == digest
  }

  /** No build was started; the BuildConfig may have been created or marked. */
  predicate NoneStarted(o: Objects, p: Objects, digest: string) {
    && p.builds == o.builds
    && LastVersion(p) == LastVersion(o)
    && (p.bc == o.bc || Agrees(p, digest))
  }

  /** One build was started, and it was due. */
  predicate OneStarted(o: Objects, p: Objects, digest: string) {
    && (LastVersion(o) == 0 || !Agrees(o, digest))
    && p.builds == o.builds + [Build(LastVersion(o) + 1, digest, BuildNew)]
    && LastVersion(p) == LastVersion(o) + 1
    && Agrees(p, digest)
  }

  lemma FireFacts(o: Objects, a: ServiceImage.Answers, digest: string)
    requires Agrees(o, digest)
    ensures
      var (p, e) := ServiceImage.Fire(o, a);
      && Agrees(p, digest) && p.deployment == o.deployment
      && ((p == o)
          || (p.builds == o.builds + [Build(LastVersion(o) + 1, digest, BuildNew)]
              && LastVersion(p) == LastVersion(o) + 1))
  {}

  lemma MarkFacts(o: Objects, a: ServiceImage.Answers, digest: string)
    requires o.bc.Some? && ServiceImage.MustBuild(o.bc.value, digest)
    ensures
      var (p, e) := ServiceImage.MarkAndFire(digest, o, a);
      && (NoneStarted(o, p, digest) || OneStarted(o, p, digest))
      && (e.None? ==> Agrees(p, digest))
      && p.deployment == o.deployment
  {
    var marked := o.(bc := Some(ServiceImage.Marked(o.bc.value, digest)));
    assert Agrees(marked, digest);
    FireFacts(marked, a, digest);
  }

  lemma EnsureFacts(config: BuildConfig, o: Objects, a: ServiceImage.Answers)
    requires config.lastVersion == 0
    ensures
      var (p, e) := ServiceImage.EnsureConfig(config, o, a);
      && p.builds == o.builds && p.deployment == o.deployment
      && LastVersion(p) == LastVersion(o)
      && (p == o || (o.bc.None? && Agrees(p, DigestEntry(config))))
      && (e.None? ==> p.bc.Some?)
  {}

  /** buildServiceImage starts at most one build, for the resource's digest and only when one is due, and
      without an error the BuildConfig ends up marked with that digest. */
  lemma BuildFacts(op: Config, v: Resource, o: Objects, a: ServiceImage.Answers)
    ensures
      var (p, e) := ServiceImage.BuildImage(op, v, o, a);
      && (NoneStarted(o, p, v.status.digest) || OneStarted(o, p, v.status.digest))
      && (e.None? ==> Agrees(p, v.status.digest))
      && p.deployment == o.deployment
  {
    if ServiceImage.HasSource(v) && a.imageStream.None? {
      var config := ServiceImage.NewConfig(op, v);
      EnsureFacts(config, o, a);
      var (o1, e1) := ServiceImage.EnsureConfig(config, o, a);
      if e1.None? {
        BuildFactsAfter(v.status.digest, o, o1, a);
      }
    }
  }

  lemma BuildFactsAfter(digest: string, o: Objects, o1: Objects, a: ServiceImage.Answers)
    requires o1.bc.Some? && o1.builds == o.builds && o1.deployment == o.deployment
    requires LastVersion(o1) == LastVersion(o)
    requires o1 == o || (o.bc.None? && Agrees(o1, digest))
    ensures
      var due := ServiceImage.MustBuild(o1.bc.value, digest);
      var (p, e) := if due then ServiceImage.MarkAndFire(digest, o1, a) else (o1, None);
      && (NoneStarted(o, p, digest) || OneStarted(o, p, digest))
      && (e.None? ==> Agrees(p, digest))
      && p.deployment == o.deployment
  {
    if ServiceImage.MustBuild(o1.bc.value, digest) {
      MarkFacts(o1, a, digest);
    }
  }

  /** Outside BuilderImageFinished no action touches the BuildConfig or the builds. */
  lemma OthersKeepBuilds(op: Config, v: Resource, o: Objects, a: Answers)
    requires v.status.phase != BuilderImageFinished
    ensures Act(op, v, o, a).objects.bc == o.bc && Act(op, v, o, a).objects.builds == o.builds
  {}

  /** In BuilderImageFinished: the facts above, and the next phase is ServiceImage or Error. */
  lemma BuildStep(op: Config, v: Resource, o: Objects, a: Answers)
    requires v.status.phase == BuilderImageFinished
    ensures
      var r := Act(op, v, o, a);
      && (NoneStarted(o, r.objects, v.status.digest) || OneStarted(o, r.objects, v.status.digest))
      && (r.vdb.status.phase == Phase.ServiceImage ==> Agrees(r.objects, v.status.digest))
      && (r.vdb.status.phase == Phase.ServiceImage || r.vdb.status.phase == Phase.Error)
      && r.objects.deployment == o.deployment
  {
    BuildFacts(op, v, o, a.service);
    BuildHandled(op, v, o, a);
  }

  lemma BuildHandled(op: Config, v: Resource, o: Objects, a: Answers)
    requires v.status.phase == BuilderImageFinished
    ensures
      var (p, e) := ServiceImage.BuildImage(op, v, o, a.service);
      var r := Act(op, v, o, a);
      && r.objects == p && r.error == e
      && r.vdb.status.phase == (if e.None? then Phase.ServiceImage else Phase.Error)
  {}

  /** ServiceImageFinished is only entered when the latest build is complete. */
  lemma FinishedByCompleteBuild(op: Config, v: Resource, o: Objects, a: Answers)
    requires !Updater.IsVdbUpdated(op, v)
    requires !Finished(v.status.phase) && Finished(Act(op, v, o, a).vdb.status.phase)
    ensures v.status.phase == Phase.ServiceImage
    ensures Latest(o.builds).Some? && Latest(o.builds).value.phase == BuildComplete
  {
    ActFollowsEdge(op, v, o, a);
  }
}
