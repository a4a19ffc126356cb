/** Progress in a cooperative cluster, and a run that ends with the wrong image. */
module Cooperation {
  import opened Outcomes
  import opened EnvVars
  import opened Vdb
  import opened Cluster
  import opened Operator
  import opened Reconciler
  import opened Phases
  import opened Runs
  import Updater
  import Digest
  import Initialize
  import BuilderImage
  import ServiceImage
  import CreateCertificates
  import Rollout

  predicate NoFieldPaths(envs: seq<EnvVar>) {
    forall i :: 0 <= i < |envs| && envs[i].valueFrom.Some? ==> !envs[i].valueFrom.value.FieldPath?
  }

  /** A specification that can be deployed: well-named variables, references only to ConfigMaps and
      Secrets, and a source. */
  predicate Deployable(spec: Spec) {
    && Initialize.NamesValid(spec.env) && NoFieldPaths(spec.env)
    && (forall i :: 0 <= i < |spec.dataSources| ==> NoFieldPaths(spec.dataSources[i].properties))
    && (spec.source.ddl != "" || spec.source.maven != "")
  }

  ghost predicate BuilderCooperates(b: BuilderImage.Answers) {
    && b.prepared.None? && !b.config.Unreadable? && (b.config.Missing? ==> b.config.created.None?)
    && (forall n: nat :: b.trigger(n).None?)
    && b.builds.Success?
    && BuilderImage.LastDecides(b.builds.value, Phase.BuilderImage) == BuilderImageFinished
  }

  /** Every call succeeds; what comes of asking for the service build is left open. */
  ghost predicate Cooperative(a: Answers) {
    && a.update == Done
    && (forall e :: a.initialize.keyExists(e))
    && BuilderCooperates(a.builder)
    && a.service.imageStream.None? && a.service.get.None? && a.service.create == Done
    && a.service.update == Done && a.service.payload.None? && a.service.list.None?
    && (a.service.trigger.Posted? ==> a.service.trigger.reply == Done) && !a.service.trigger.Blocked?
    && (a.certificates.present || CreateCertificates.FirstError(a.certificates).None?)
    && a.rollout.bcGet.None? && a.rollout.read.None? && a.rollout.envs.Success?
    && a.rollout.image == Done && a.rollout.create == Done
  }

  /** The phase after the next step, when all goes well. */
  function Next(p: Phase): Phase {
    match p
    case Initial => CreateCacheStore
    case CreateCacheStore => S2IReady
    case S2IReady => Phase.BuilderImage
    case BuilderImage => BuilderImageFinished
    case BuilderImageFinished => Phase.ServiceImage
    case ServiceImage => ServiceImageFinished
    case ServiceImageFinished => ServiceCreated
    case ServiceCreated => KeystoreCreated
    case KeystoreCreated => Deploying
    case _ => Running
  }

  /** What the objects must offer for the step from phase `p`. */
  predicate Offers(o: Objects, p: Phase) {
    && (p == Phase.ServiceImage ==> LatestComplete(o))
    && (p == KeystoreCreated ==> o.bc.Some?)
    && (p == Deploying ==> o.deployment.Some? && Rollout.Ready(o.deployment.value.conditions))
  }

  // ---------- one step ----------

  lemma {:induction false} NoRetryFails(builds: seq<BuildPhase>, i: nat, trigger: nat -> Option<string>)
    requires i <= |builds| && forall n: nat :: trigger(n).None?
    ensures BuilderImage.Retry(builds, i, trigger).None?
    decreases |builds| - i
  {
    if i < |builds| {
      NoRetryFails(builds, i + 1, trigger);
    }
  }

  lemma InitializeAdvances(op: Config, v: Resource, a: Initialize.Answers)
    requires Deployable(v.spec) && forall e :: a.keyExists(e)
    ensures
      var w := Initialize.Handled(op, v, a).0;
      w.status.phase == CreateCacheStore && w.spec == v.spec.(replicas := w.spec.replicas)
  {}

  lemma BuilderAdvances(v: Resource, a: BuilderImage.Answers)
    requires BuilderCooperates(a) && (v.status.phase == S2IReady || v.status.phase == Phase.BuilderImage)
    ensures BuilderImage.Handled(v, a).0 == WithPhase(v, Next(v.status.phase))
  {
    if a.builds.Success? {
      NoRetryFails(a.builds.value, 0, a.trigger);
    }
  }

  lemma ServiceBuildSucceeds(op: Config, v: Resource, o: Objects, a: Answers)
    requires Cooperative(a) && ServiceImage.HasSource(v)
    ensures
      var (p, e) := ServiceImage.BuildImage(op, v, o, a.service);
      && e.None?
      && (a.service.trigger.TagMissing? ==> p.builds == o.builds)
      && (a.service.trigger.Posted? && (LastVersion(o) == 0 || !Agrees(o, v.status.digest)) ==>
            p.builds == o.builds + [Build(LastVersion(o) + 1, v.status.digest, BuildNew)])
  {
    var config := ServiceImage.NewConfig(op, v);
    EnsureFacts(config, o, a.service);
    var (o1, e1) := ServiceImage.EnsureConfig(config, o, a.service);
    MarkSucceeds(o, o1, v.status.digest, a.service);
  }

  lemma MarkSucceeds(o: Objects, o1: Objects, digest: string, a: ServiceImage.Answers)
    requires a.update == Done && a.payload.None? && !a.trigger.Blocked?
    requires a.trigger.Posted? ==> a.trigger.reply == Done
    requires o1.bc.Some? && o1.builds == o.builds && LastVersion(o1) == LastVersion(o)
    requires o1 == o || o.bc.None?
    ensures
      var due := ServiceImage.MustBuild(o1.bc.value, digest);
      var (p, e) := if due then ServiceImage.MarkAndFire(digest, o1, a) else (o1, None);
      && e.None?
      && (a.trigger.TagMissing? ==> p.builds == o.builds)
      && (a.trigger.Posted? && (LastVersion(o) == 0 || !Agrees(o, digest)) ==>
            p.builds == o.builds + [Build(LastVersion(o) + 1, digest, BuildNew)])
  {
    var marked := o1.(bc := Some(ServiceImage.Marked(o1.bc.value, digest)));
    assert Agrees(marked, digest);
  }

  /** The action for phase `p` moves on to the next phase. */
  lemma ActAdvances(op: Config, v: Resource, o: Objects, a: Answers)
    requires Cooperative(a) && Deployable(v.spec) && Offers(o, v.status.phase)
    requires !Absorbing(v.status.phase) && v.status.phase != Running
    ensures
      var w := Act(op, v, o, a).vdb;
      w.status.phase == Next(v.status.phase) && w.spec == v.spec.(replicas := w.spec.replicas)
  {
    match v.status.phase
    case Initial => InitializeAdvances(op, v, a.initialize);
    case S2IReady => BuilderAdvances(v, a.builder);
    case BuilderImage => BuilderAdvances(v, a.builder);
    case BuilderImageFinished =>
      ServiceBuildSucceeds(op, v, o, a);
      BuildHandled(op, v, o, a);
    case _ =>
  }

  /** A reconcile of the latest version, seen as an event. */
  function Latestly(l: Ledger, a: Answers): Event
    requires WellFormed(l.s)
  {
    Reconcile(|l.s.history| - 1, a)
  }

  /** A changed resource, written on top of the latest version. */
  lemma AppliedToLatest(s: System, r: Outcome)
    requires WellFormed(s) && r.vdb != Current(s)
    ensures Applied(s, |s.history| - 1, r, Done) == System(s.history + [r.vdb], |s.history| - 1, r.objects)
    ensures Current(Applied(s, |s.history| - 1, r, Done)) == r.vdb
  {}

  lemma StepApplies(op: Config, l: Ledger, a: Answers)
    requires WellFormed(l.s) && !Updater.IsVdbUpdated(op, Current(l.s))
    ensures
      var at := |l.s.history| - 1;
      Step(op, l, Latestly(l, a)).s == Applied(l.s, at, Act(op, Current(l.s), l.s.objects, a), a.update)
  {
    var at := |l.s.history| - 1;
    ReconcileStep(op, l, at, a);
    AfterSystem(op, l, at, a);
    ActionApplied(op, l.s, at, a);
  }

  lemma StepPersists(op: Config, l: Ledger, a: Answers, r: Outcome)
    requires WellFormed(l.s) && !Updater.IsVdbUpdated(op, Current(l.s)) && a.update == Done
    requires r == Act(op, Current(l.s), l.s.objects, a) && r.vdb != Current(l.s)
    ensures
      var s := Step(op, l, Latestly(l, a)).s;
      s.history == l.s.history + [r.vdb] && Current(s) == r.vdb && s.objects == r.objects
  {
    StepApplies(op, l, a);
    AppliedToLatest(l.s, r);
  }

  /** One reconcile advances by one phase. */
  lemma StepAdvances(op: Config, l: Ledger, a: Answers)
    requires WellFormed(l.s) && Cooperative(a)
    requires
      var v := Current(l.s);
      && !Updater.IsVdbUpdated(op, v) && Deployable(v.spec) && Offers(l.s.objects, v.status.phase)
      && !Absorbing(v.status.phase) && v.status.phase != Running
    ensures
      var v, m := Current(l.s), Step(op, l, Latestly(l, a));
      && m.s.history == l.s.history + [Current(m.s)]
      && Current(m.s).status.phase == Next(v.status.phase)
      && Current(m.s).status.digest == v.status.digest
      && Current(m.s).spec == v.spec.(replicas := Current(m.s).spec.replicas)
      && !Updater.IsVdbUpdated(op, Current(m.s))
      && m.s.objects == Act(op, v, l.s.objects, a).objects
  {
    var v := Current(l.s);
    ActAdvances(op, v, l.s.objects, a);
    ActFollowsEdge(op, v, l.s.objects, a);
    var r := Act(op, v, l.s.objects, a);
    assert r.vdb.status.phase != v.status.phase;
    StepPersists(op, l, a, r);
  }

  /** The step that starts over. */
  lemma RedeployStep(op: Config, l: Ledger, a: Answers)
    requires WellFormed(l.s) && a.update == Done && Updater.IsVdbUpdated(op, Current(l.s))
    ensures
      var m := Step(op, l, Latestly(l, a));
      && m.s.history == l.s.history + [Current(m.s)]
      && Current(m.s) == Updater.Redeployed(op, Current(l.s))
      && m.s.objects == l.s.objects
      && m.redeploys == l.redeploys + 1
  {
    ReconcileStep(op, l, |l.s.history| - 1, a);
    AfterSystem(op, l, |l.s.history| - 1, a);
    RedeployWritten(op, l.s, |l.s.history| - 1, a);
  }

  // ---------- eleven steps to Running ----------

  /** Builds end well and the deployment becomes available. */
  function Settled(op: Config, l: Ledger): (m: Ledger)
    requires WellFormed(l.s)
    ensures WellFormed(m.s)
  {
    var last := if l.s.objects.builds == [] then 0 else |l.s.objects.builds| - 1;
    Step(op, Step(op, l, BuildProgress(last, BuildComplete)), DeploymentReport([Condition(Available, true)], 1))
  }

  /** The cluster settles, then one reconcile. */
  function Round(op: Config, l: Ledger, a: Answers): (m: Ledger)
    requires WellFormed(l.s)
    ensures WellFormed(m.s)
  {
    var m := Settled(op, l);
    Step(op, m, Latestly(m, a))
  }

  function Rounds(op: Config, l: Ledger, answers: seq<Answers>): (m: Ledger)
    requires WellFormed(l.s)
    ensures WellFormed(m.s)
  {
    if answers == [] then l
    else Round(op, Rounds(op, l, answers[..|answers| - 1]), answers[|answers| - 1])
  }

  /** The phase after `k` rounds; the first one only records the digest. */
  function PhaseAfter(k: nat): Phase {
    match k
    case 0 => Initial
    case 1 => Initial
    case 2 => CreateCacheStore
    case 3 => S2IReady
    case 4 => Phase.BuilderImage
    case 5 => BuilderImageFinished
    case 6 => Phase.ServiceImage
    case 7 => ServiceImageFinished
    case 8 => ServiceCreated
    case 9 => KeystoreCreated
    case 10 => Deploying
    case _ => Running
  }

  /** What an epoch finds: a build is due, or the BuildConfig is already marked for the digest and the latest
      build has not failed, or has. */
  datatype Start = Due | Marked | Failed

  /** The objects `k` rounds into an epoch that began with `n` builds. When a build is due, there is no new one
      until the fifth round, and the BuildConfig is marked for none or for another digest; from the sixth on
      there is one more, for the digest, that has not failed. Otherwise builds and mark stay. From the tenth
      on there is a deployment. */
  predicate ObjectsAfter(o: Objects, digest: string, k: nat, n: nat, start: Start) {
    && Numbered(o)
    && (if start == Due && k <= 5 then |o.builds| == n && (n == 0 || !Agrees(o, digest))
        else
          && |o.builds| == (if start == Due then n + 1 else n) && o.builds != [] && Agrees(o, digest)
          && (start == Failed <==> Unsuccessful(o.builds[|o.builds| - 1].phase))
          && (start == Due ==> o.builds[n].digest == digest))
    && (k >= 10 ==> o.deployment.Some?)
  }

  /** The digest the specification calls for. */
  function Wanted(op: Config, l: Ledger): string
    requires WellFormed(l.s)
  {
    Digest.BuildDigest(op.hasher, Current(l.s).spec.source)
  }

  predicate After(op: Config, l: Ledger, k: nat, n: nat, start: Start) {
    && WellFormed(l.s)
    && (k > 0 ==> Current(l.s).status.phase == PhaseAfter(k))
    && Deployable(Current(l.s).spec)
    && (k == 0 <==> Updater.IsVdbUpdated(op, Current(l.s)))
    && ObjectsAfter(l.s.objects, Wanted(op, l), k, n, start)
  }

  /** A build that is the last one and has not failed is made to end well. */
  lemma LastBuildEnds(o: Objects, p: Objects, digest: string, k: nat, n: nat, start: Start)
    requires ObjectsAfter(o, digest, k, n, start)
    requires
      var last := if o.builds == [] then 0 else |o.builds| - 1;
      p.builds == Progressed(o.builds, last, BuildComplete) && p.bc == o.bc
    requires o.deployment.Some? ==> p.deployment.Some?
    ensures ObjectsAfter(p, digest, k, n, start)
    ensures (start == Due ==> k > 5) && start != Failed ==> LatestComplete(p)
  {
    LatestOfNumbered(p.builds);
  }

  lemma SettledFacts(op: Config, l: Ledger)
    requires WellFormed(l.s)
    ensures
      var o, m := l.s.objects, Settled(op, l);
      var last := if o.builds == [] then 0 else |o.builds| - 1;
      && m.s == l.s.(objects := m.s.objects) && Current(m.s) == Current(l.s)
      && m.s.objects.bc == o.bc && m.s.objects.builds == Progressed(o.builds, last, BuildComplete)
      && (if o.deployment.None? then m.s.objects.deployment.None?
          else m.s.objects.deployment == Some(
            o.deployment.value.(conditions := [Condition(Available, true)], observedGeneration := 1)))
  {}

  lemma SettledOffers(op: Config, l: Ledger, k: nat, n: nat, start: Start)
    requires After(op, l, k, n, start) && k <= 10
    ensures After(op, Settled(op, l), k, n, start)
    ensures k != 6 || start != Failed ==> Offers(Settled(op, l).s.objects, PhaseAfter(k))
  {
    var m := Settled(op, l);
    SettledFacts(op, l);
    LastBuildEnds(l.s.objects, m.s.objects, Wanted(op, l), k, n, start);
    if k >= 10 {
      assert m.s.objects.deployment.value.conditions[0] == Condition(Available, true);
    }
  }

  lemma RoundAdvances(op: Config, l: Ledger, a: Answers, k: nat, n: nat, start: Start)
    requires After(op, l, k, n, start) && k <= 10 && Cooperative(a) && a.service.trigger.Posted?
    requires k != 6 || start != Failed
    ensures After(op, Round(op, l, a), k + 1, n, start)
  {
    SettledOffers(op, l, k, n, start);
    if k == 0 {
      FirstRoundAdvances(op, Settled(op, l), a, n, start);
    } else {
      LaterRoundAdvances(op, Settled(op, l), a, k, n, start);
    }
  }

  lemma FirstRoundAdvances(op: Config, m: Ledger, a: Answers, n: nat, start: Start)
    requires After(op, m, 0, n, start) && Cooperative(a)
    ensures After(op, Step(op, m, Latestly(m, a)), 1, n, start)
  {
    RedeployStep(op, m, a);
  }

  lemma LaterRoundAdvances(op: Config, m: Ledger, a: Answers, k: nat, n: nat, start: Start)
    requires After(op, m, k, n, start) && 1 <= k <= 10 && Cooperative(a) && a.service.trigger.Posted?
    requires Offers(m.s.objects, PhaseAfter(k))
    ensures After(op, Step(op, m, Latestly(m, a)), k + 1, n, start)
  {
    PhaseFacts(k);
    StepAdvances(op, m, a);
    ObjectsAdvance(op, Current(m.s), m.s.objects, a, k, n, start);
    AfterFrom(op, m, Step(op, m, Latestly(m, a)), k + 1, n, start);
  }

  lemma PhaseFacts(k: nat)
    requires 1 <= k <= 10
    ensures Next(PhaseAfter(k)) == PhaseAfter(k + 1) && !Absorbing(PhaseAfter(k)) && PhaseAfter(k) != Running
  {}

  lemma AfterFrom(op: Config, m: Ledger, l: Ledger, k: nat, n: nat, start: Start)
    requires WellFormed(m.s) && WellFormed(l.s) && k > 0
    requires !Updater.IsVdbUpdated(op, Current(l.s)) && Current(l.s).status.phase == PhaseAfter(k)
    requires Deployable(Current(m.s).spec)
    requires Current(l.s).spec == Current(m.s).spec.(replicas := Current(l.s).spec.replicas)
    requires ObjectsAfter(l.s.objects, Current(l.s).status.digest, k, n, start)
    ensures After(op, l, k, n, start)
  {}

  lemma ObjectsAdvance(op: Config, v: Resource, o: Objects, a: Answers, k: nat, n: nat, start: Start)
    requires 1 <= k <= 10 && v.status.phase == PhaseAfter(k) && Deployable(v.spec)
    requires Cooperative(a) && a.service.trigger.Posted? && ObjectsAfter(o, v.status.digest, k, n, start)
    ensures ObjectsAfter(Act(op, v, o, a).objects, v.status.digest, k + 1, n, start)
  {
    if k == 5 && start == Due {
      BuildAppears(op, v, o, a, n);
    } else if k == 5 {
      NothingToBuild(op, v, o, a);
    } else if k == 9 {
      OthersKeepBuilds(op, v, o, a);
      DeploymentAppears(op, v, o, a);
    } else {
      OthersKeepBuilds(op, v, o, a);
      DeploymentStays(op, v, o, a);
    }
  }

  lemma BuildAppears(op: Config, v: Resource, o: Objects, a: Answers, n: nat)
    requires v.status.phase == BuilderImageFinished && Deployable(v.spec)
    requires Cooperative(a) && a.service.trigger.Posted? && ObjectsAfter(o, v.status.digest, 5, n, Due)
    ensures ObjectsAfter(Act(op, v, o, a).objects, v.status.digest, 6, n, Due)
  {
    ServiceBuildSucceeds(op, v, o, a);
    BuildFacts(op, v, o, a.service);
    BuildHandled(op, v, o, a);
    var p := Act(op, v, o, a).objects;
    OneMoreBuild(o, p, v.status.digest, n);
  }

  /** A BuildConfig that has built and is marked for the digest is left as it is. */
  lemma NothingToBuild(op: Config, v: Resource, o: Objects, a: Answers)
    requires v.status.phase == BuilderImageFinished && Deployable(v.spec) && Cooperative(a)
    requires LastVersion(o) > 0 && Agrees(o, v.status.digest)
    ensures Act(op, v, o, a).objects == o
  {
    BuildHandled(op, v, o, a);
  }

  lemma OneMoreBuild(o: Objects, p: Objects, digest: string, n: nat)
    requires ObjectsAfter(o, digest, 5, n, Due)
    requires NoneStarted(o, p, digest) || OneStarted(o, p, digest)
    requires p.builds == o.builds + [Build(LastVersion(o) + 1, digest, BuildNew)]
    ensures ObjectsAfter(p, digest, 6, n, Due)
  {
    NumberedKept(o, p, digest);
    assert |p.builds| == n + 1;
  }

  lemma DeploymentStays(op: Config, v: Resource, o: Objects, a: Answers)
    requires v.status.phase != BuilderImageFinished && v.status.phase != KeystoreCreated && v.status.phase != Running
    ensures Act(op, v, o, a).objects.deployment == o.deployment
  {}

  lemma DeploymentAppears(op: Config, v: Resource, o: Objects, a: Answers)
    requires v.status.phase == KeystoreCreated && Cooperative(a) && o.bc.Some?
    ensures Act(op, v, o, a).objects.deployment.Some?
  {}

  ghost predicate AllCooperate(answers: seq<Answers>) {
    forall i :: 0 <= i < |answers| ==> Cooperative(answers[i]) && answers[i].service.trigger.Posted?
  }

  lemma {:induction false} AfterRounds(op: Config, l: Ledger, answers: seq<Answers>, n: nat, start: Start)
    requires After(op, l, 0, n, start) && AllCooperate(answers)
    requires |answers| <= if start == Failed then 6 else 11
    ensures After(op, Rounds(op, l, answers), |answers|, n, start)
  {
    if answers != [] {
      var front, a := answers[..|answers| - 1], answers[|answers| - 1];
      AfterRounds(op, l, front, n, start);
      RoundAdvances(op, Rounds(op, l, front), a, |front|, n, start);
    }
  }

  /** Whenever a deployable specification has changed and the BuildConfig is not marked for it yet, exactly
      eleven cooperative rounds reach Running again, and then exactly one more build has been started, for
      the digest the specification calls for. */
  lemma EveryEpochReachesRunning(op: Config, l: Ledger, answers: seq<Answers>)
    requires WellFormed(l.s) && Numbered(l.s.objects) && Deployable(Current(l.s).spec)
    requires Updater.IsVdbUpdated(op, Current(l.s))
    requires l.s.objects.builds == [] || !Agrees(l.s.objects, Wanted(op, l))
    requires 0 < |answers| <= 11 && AllCooperate(answers)
    ensures
      var m := Rounds(op, l, answers);
      && (Current(m.s).status.phase == Running <==> |answers| == 11)
      && (|answers| == 11 ==>
            && |m.s.objects.builds| == |l.s.objects.builds| + 1
            && m.s.objects.builds[|l.s.objects.builds|].digest == Current(m.s).status.digest == Wanted(op, m))
  {
    var n := |l.s.objects.builds|;
    AfterRounds(op, l, answers, n, Due);
    RunningAtEleven(op, Rounds(op, l, answers), |answers|, n, Due);
  }

  lemma RunningAtEleven(op: Config, l: Ledger, k: nat, n: nat, start: Start)
    requires After(op, l, k, n, start) && 0 < k <= 11
    ensures Current(l.s).status.phase == Running <==> k == 11
    ensures k == 11 ==>
      && |l.s.objects.builds| == (if start == Due then n + 1 else n)
      && Current(l.s).status.digest == Wanted(op, l)
      && (start == Due ==> l.s.objects.builds[n].digest == Wanted(op, l))
  {}

  /** An epoch in phase ServiceImageFailed, with `n` builds. */
  predicate Stuck(op: Config, l: Ledger, n: nat) {
    && WellFormed(l.s) && Current(l.s).status.phase == ServiceImageFailed
    && !Updater.IsVdbUpdated(op, Current(l.s)) && |l.s.objects.builds| == n
  }

  /** The round in which the failed build is noticed. */
  lemma FailureSeen(op: Config, l: Ledger, a: Answers, n: nat)
    requires After(op, l, 6, n, Failed) && Cooperative(a)
    ensures Stuck(op, Round(op, l, a), n)
  {
    var m := Settled(op, l);
    SettledFacts(op, l);
    LastBuildEnds(l.s.objects, m.s.objects, Wanted(op, l), 6, n, Failed);
    FailureMonitored(op, Current(m.s), m.s.objects, a);
    ActFollowsEdge(op, Current(m.s), m.s.objects, a);
    StepPersists(op, m, a, Act(op, Current(m.s), m.s.objects, a));
  }

  lemma FailureMonitored(op: Config, v: Resource, o: Objects, a: Answers)
    requires v.status.phase == Phase.ServiceImage && Cooperative(a)
    requires Numbered(o) && o.builds != [] && Unsuccessful(o.builds[|o.builds| - 1].phase)
    ensures Act(op, v, o, a) == Outcome(WithPhase(v, ServiceImageFailed), o, None)
  {
    LatestOfNumbered(o.builds);
  }

  lemma StuckStays(op: Config, l: Ledger, a: Answers, n: nat)
    requires Stuck(op, l, n)
    ensures Stuck(op, Round(op, l, a), n)
  {
    var m := Settled(op, l);
    SettledFacts(op, l);
    AbsorbingIdle(op, Current(m.s), m.s.objects, a);
    StepApplies(op, m, a);
    IdleApplied(m.s, a.update);
  }

  lemma IdleApplied(s: System, w: Write)
    requires WellFormed(s)
    ensures
      var at := |s.history| - 1;
      Applied(s, at, Outcome(Current(s), s.objects, None), w) == s.(seen := at)
  {}

  lemma {:induction false} StuckRounds(op: Config, l: Ledger, answers: seq<Answers>, n: nat)
    requires After(op, l, 0, n, Failed) && |answers| >= 7 && AllCooperate(answers)
    ensures Stuck(op, Rounds(op, l, answers), n)
    decreases |answers|
  {
    var front, a := answers[..|answers| - 1], answers[|answers| - 1];
    if |answers| == 7 {
      AfterRounds(op, l, front, n, Failed);
      FailureSeen(op, Rounds(op, l, front), a, n);
    } else {
      StuckRounds(op, l, front, n);
      StuckStays(op, Rounds(op, l, front), a, n);
    }
  }

  /** When a specification has changed for which the BuildConfig is already marked, as by an edit and its
      reverse, eleven cooperative rounds start no build. They reach Running if and only if the latest build
      has not failed, and otherwise stop at ServiceImageFailed. */
  lemma MarkedEpochExactly(op: Config, l: Ledger, answers: seq<Answers>)
    requires WellFormed(l.s) && Numbered(l.s.objects) && Deployable(Current(l.s).spec)
    requires Updater.IsVdbUpdated(op, Current(l.s))
    requires l.s.objects.builds != [] && Agrees(l.s.objects, Wanted(op, l))
    requires |answers| == 11 && AllCooperate(answers)
    ensures
      var m, builds := Rounds(op, l, answers), l.s.objects.builds;
      var failed := Unsuccessful(builds[|builds| - 1].phase);
      && |m.s.objects.builds| == |builds|
      && Current(m.s).status.phase == if failed then ServiceImageFailed else Running
  {
    var builds := l.s.objects.builds;
    if Unsuccessful(builds[|builds| - 1].phase) {
      StuckRounds(op, l, answers, |builds|);
    } else {
      AfterRounds(op, l, answers, |builds|, Marked);
      RunningAtEleven(op, Rounds(op, l, answers), 11, |builds|, Marked);
    }
  }

  lemma FreshBefore(op: Config, name: string, namespace: string, spec: Spec)
    requires Deployable(spec)
    ensures After(op, Fresh(name, namespace, spec), 0, 0, Due)
  {}

  /** From a fresh resource exactly eleven cooperative rounds reach Running, and then one build for the
      recorded digest has been started. */
  lemma ElevenRounds(op: Config, name: string, namespace: string, spec: Spec, answers: seq<Answers>)
    requires Deployable(spec) && |answers| <= 11 && AllCooperate(answers)
    ensures
      var s := Rounds(op, Fresh(name, namespace, spec), answers).s;
      && (Current(s).status.phase == Running <==> |answers| == 11)
      && (|answers| == 11 ==>
            && |s.objects.builds| == 1
            && s.objects.builds[0].digest == Current(s).status.digest
               == Digest.BuildDigest(op.hasher, Current(s).spec.source))
  {
    FreshBefore(op, name, namespace, spec);
    if answers != [] {
      EveryEpochReachesRunning(op, Fresh(name, namespace, spec), answers);
    }
  }
}
