/** The assumption of build provenance is needed: a run in which one base image tag is missing for a
    moment ends with the image of the previous source. */
module WrongImage {
  import opened Vdb
  import opened Cluster
  import opened Operator
  import opened Reconciler
  import opened Phases
  import opened Runs
  import opened Guarantees
  import opened Cooperation
  import Updater
  import Digest
  import ServiceImage

  lemma {:induction false} RunSnoc(op: Config, l: Ledger, events: seq<Event>, e: Event)
    requires WellFormed(l.s)
    ensures Run(op, l, events + [e]) == Step(op, Run(op, l, events), e)
    decreases events
  {
    if events == [] {
      assert [] + [e] == [e] && [e][1..] == [];
    } else {
      assert (events + [e])[1..] == events[1..] + [e];
      RunSnoc(op, Step(op, l, events[0]), events[1..], e);
    }
  }

  /** A ledger in phase `p` that agrees with its specification. */
  predicate At(op: Config, l: Ledger, p: Phase) {
    && WellFormed(l.s)
    && Current(l.s).status.phase == p
    && Deployable(Current(l.s).spec)
    && !Updater.IsVdbUpdated(op, Current(l.s))
  }

  predicate SameEpoch(l: Ledger, m: Ledger)
    requires WellFormed(l.s) && WellFormed(m.s)
  {
    && m.s.objects.bc == l.s.objects.bc && m.s.objects.builds == l.s.objects.builds
    && Current(m.s).status.digest == Current(l.s).status.digest
    && Current(m.s).spec.source == Current(l.s).spec.source
  }

  lemma StepUp(op: Config, l: Ledger, a: Answers)
    requires WellFormed(l.s) && At(op, l, Current(l.s).status.phase) && Cooperative(a)
    requires Rank(Current(l.s).status.phase) < 4
    ensures
      var m := Step(op, l, Latestly(l, a));
      At(op, m, Next(Current(l.s).status.phase)) && SameEpoch(l, m)
  {
    StepAdvances(op, l, a);
    OthersKeepBuilds(op, Current(l.s), l.s.objects, a);
  }

  /** Four reconciles lead from Initial to BuilderImageFinished. */
  lemma Climb(op: Config, start: Ledger, before: seq<Event>, a: Answers) returns (events: seq<Event>)
    requires WellFormed(start.s) && At(op, Run(op, start, before), Initial) && Cooperative(a)
    ensures At(op, Run(op, start, events), BuilderImageFinished)
    ensures SameEpoch(Run(op, start, before), Run(op, start, events))
  {
    events := before;
    var l := Run(op, start, before);
    while Current(l.s).status.phase != BuilderImageFinished
      invariant l == Run(op, start, events)
      invariant At(op, l, Current(l.s).status.phase) && Rank(Current(l.s).status.phase) <= 4
      invariant SameEpoch(Run(op, start, before), l)
      decreases 4 - Rank(Current(l.s).status.phase)
    {
      StepUp(op, l, a);
      RunSnoc(op, start, events, Latestly(l, a));
      events := events + [Latestly(l, a)];
      l := Step(op, l, Latestly(l, a));
    }
  }

  /** The step that asks for the service build. */
  lemma BuildRequested(op: Config, l: Ledger, a: Answers)
    requires At(op, l, BuilderImageFinished) && Cooperative(a)
    ensures
      var m, d := Step(op, l, Latestly(l, a)), Current(l.s).status.digest;
      && At(op, m, Phase.ServiceImage)
      && Current(m.s).status.digest == d
      && (a.service.trigger.TagMissing? ==> m.s.objects.builds == l.s.objects.builds)
      && (a.service.trigger.Posted? && LastVersion(l.s.objects) == 0 ==>
            m.s.objects.builds == l.s.objects.builds + [Build(1, d, BuildNew)])
  {
    StepAdvances(op, l, a);
    BuildsOfStep(op, Current(l.s), l.s.objects, a);
  }

  lemma BuildsOfStep(op: Config, v: Resource, o: Objects, a: Answers)
    requires v.status.phase == BuilderImageFinished && Cooperative(a) && ServiceImage.HasSource(v)
    ensures
      var p := Act(op, v, o, a).objects;
      && (a.service.trigger.TagMissing? ==> p.builds == o.builds)
      && (a.service.trigger.Posted? && LastVersion(o) == 0 ==>
            p.builds == o.builds + [Build(1, v.status.digest, BuildNew)])
  {
    ServiceBuildSucceeds(op, v, o, a);
    BuildHandled(op, v, o, a);
  }

  lemma BuildSeen(op: Config, l: Ledger, a: Answers)
    requires At(op, l, Phase.ServiceImage) && Cooperative(a) && LatestComplete(l.s.objects)
    ensures
      var m := Step(op, l, Latestly(l, a));
      At(op, m, ServiceImageFinished) && SameEpoch(l, m)
  {
    StepAdvances(op, l, a);
    OthersKeepBuilds(op, Current(l.s), l.s.objects, a);
  }

  lemma FirstReconcile(op: Config, l: Ledger, a: Answers)
    requires WellFormed(l.s) && a.update == Done && Updater.IsVdbUpdated(op, Current(l.s))
    requires Deployable(Current(l.s).spec)
    ensures
      var m := Step(op, l, Latestly(l, a));
      && At(op, m, Initial) && m.s.objects == l.s.objects
      && Current(m.s).status.digest == Digest.BuildDigest(op.hasher, Current(l.s).spec.source)
  {
    RedeployStep(op, l, a);
  }

  /** Whatever the two sources are, as long as their digests differ: when everything goes well except that
      the second build finds no base image tag, the resource passes on with the first source's image. */
  lemma MissingTagKeepsOldImage(op: Config, name: string, namespace: string, first: Spec, second: Spec,
                                a: Answers, b: Answers)
    returns (events: seq<Event>)
    requires Deployable(first) && Deployable(second)
    requires Digest.BuildDigest(op.hasher, first.source) != Digest.BuildDigest(op.hasher, second.source)
    requires Cooperative(a) && a.service.trigger.Posted?
    requires Cooperative(b) && b.service.trigger.TagMissing?
    ensures
      var s := Reached(op, name, namespace, first, events).s;
      && Current(s).status.phase == ServiceImageFinished
      && LatestComplete(s.objects)
      && Latest(s.objects.builds).value.digest == Digest.BuildDigest(op.hasher, first.source)
      && Current(s).status.digest == Digest.BuildDigest(op.hasher, second.source)
      && !Provenance(s)
  {
    var start := Fresh(name, namespace, first);
    var d1, d2 := Digest.BuildDigest(op.hasher, first.source), Digest.BuildDigest(op.hasher, second.source);
    FirstReconcile(op, start, a);
    RunSnoc(op, start, [], Latestly(start, a));
    events := Climb(op, start, [] + [Latestly(start, a)], a);
    var l := Run(op, start, events);
    events, l := FirstBuild(op, start, events, l, a, d1);
    RunSnoc(op, start, events, Edit(second));
    events, l := events + [Edit(second)], Edited(op, l, second);
    FirstReconcile(op, l, a);
    RunSnoc(op, start, events, Latestly(l, a));
    events, l := events + [Latestly(l, a)], Step(op, l, Latestly(l, a));
    events := Climb(op, start, events, a);
    l := Run(op, start, events);
    BuildRequested(op, l, b);
    RunSnoc(op, start, events, Latestly(l, b));
    events, l := events + [Latestly(l, b)], Step(op, l, Latestly(l, b));
    BuildSeen(op, l, b);
    RunSnoc(op, start, events, Latestly(l, b));
    events := events + [Latestly(l, b)];
  }

  /** The first build, which completes. */
  lemma FirstBuild(op: Config, start: Ledger, before: seq<Event>, l: Ledger, a: Answers, d: string)
    returns (events: seq<Event>, m: Ledger)
    requires WellFormed(start.s) && l == Run(op, start, before) && At(op, l, BuilderImageFinished)
    requires Cooperative(a) && a.service.trigger.Posted? && Current(l.s).status.digest == d
    requires LastVersion(l.s.objects) == 0 && l.s.objects.builds == []
    ensures m == Run(op, start, events) && WellFormed(m.s)
    ensures m.s.objects.builds == [Build(1, d, BuildComplete)]
    ensures Current(m.s).spec.source == Current(l.s).spec.source
    ensures Current(m.s).status.digest == d
  {
    BuildRequested(op, l, a);
    StepAdvances(op, l, a);
    RunSnoc(op, start, before, Latestly(l, a));
    events, m := before + [Latestly(l, a)], Step(op, l, Latestly(l, a));
    RunSnoc(op, start, events, BuildProgress(0, BuildComplete));
    BuildEnds(op, m, d);
    events, m := events + [BuildProgress(0, BuildComplete)], Step(op, m, BuildProgress(0, BuildComplete));
  }

  lemma BuildEnds(op: Config, l: Ledger, d: string)
    requires WellFormed(l.s) && l.s.objects.builds == [Build(1, d, BuildNew)]
    ensures
      var m := Step(op, l, BuildProgress(0, BuildComplete));
      && WellFormed(m.s) && m.s.objects.builds == [Build(1, d, BuildComplete)]
      && Current(m.s) == Current(l.s)
  {}
}
