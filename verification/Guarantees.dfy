/** What holds in every reachable state, for any user, any cluster and any answers. */
module Guarantees {
  import opened Outcomes
  import opened Vdb
  import opened Cluster
  import opened Operator
  import opened Reconciler
  import opened Phases
  import opened Runs
  import Updater
  import ServiceImage

  function Reached(op: Config, name: string, namespace: string, spec: Spec, events: seq<Event>): (l: Ledger)
    ensures WellFormed(l.s)
  {
    Run(op, Fresh(name, namespace, spec), events)
  }

  lemma ReachedInv(op: Config, name: string, namespace: string, spec: Spec, events: seq<Event>)
    ensures Inv(op, Reached(op, name, namespace, spec, events))
  {
    FreshInv(op, name, namespace, spec);
    RunKeeps(op, Fresh(name, namespace, spec), events);
  }

  /** From phase ServiceImage on, except in Error, the BuildConfig is marked with the resource's digest. */
  lemma BuildConfigAgreement(op: Config, name: string, namespace: string, spec: Spec, events: seq<Event>)
    ensures
      var s := Reached(op, name, namespace, spec, events).s;
      Late(Current(s).status.phase) ==>
        (s.objects.bc.Some? && DigestEntry(s.objects.bc.value) == Current(s).status.digest)
  {
    ReachedInv(op, name, namespace, spec, events);
  }

  /** Between two redeploys at most one service build is started, and the phase changes at most ten times. */
  lemma EpochBounds(op: Config, name: string, namespace: string, spec: Spec, events: seq<Event>)
    ensures
      var l := Reached(op, name, namespace, spec, events);
      l.builds <= 1 && l.moves <= Rank(Current(l.s).status.phase) <= 10
  {
    ReachedInv(op, name, namespace, spec, events);
  }

  /** There are never more builds than redeploys, nor more redeploys than edits that changed the digest,
      plus the first one. */
  lemma NoRedeployLoop(op: Config, name: string, namespace: string, spec: Spec, events: seq<Event>)
    ensures
      var l := Reached(op, name, namespace, spec, events);
      |l.s.objects.builds| <= l.redeploys <= l.edits + 1
  {
    ReachedInv(op, name, namespace, spec, events);
  }

  // ---------- phases ----------

  /** One reconcile writes at most one version of the resource; unless that starts over, the current phase
      stays or follows one edge, and digest and source stay. */
  lemma OneChange(op: Config, s: System, at: nat, a: Answers)
    requires Readable(s, at)
    ensures
      var t := Reconciled(op, s, at, a);
      && (t.history == s.history || t.history == s.history + [Current(t)])
      && (!Redeploys(op, s, at, a) ==>
            && (Current(t).status.phase == Current(s).status.phase
                || (Edge(Current(s).status.phase, Current(t).status.phase)
                    && Rank(Current(s).status.phase) < Rank(Current(t).status.phase)))
            && Current(t).status.digest == Current(s).status.digest
            && Current(t).spec.source == Current(s).spec.source)
  {
    if !Updater.IsVdbUpdated(op, s.history[at]) {
      StatusKept(op, s, at, a);
      ActionApplied(op, s, at, a);
      HistoryGrows(s, at, Act(op, s.history[at], s.objects, a), a.update);
    }
  }

  /** Within an epoch the rank only grows, by at least one for every phase change, and a phase without
      edges stays for good. */
  lemma {:induction false} EpochClimbs(op: Config, l: Ledger, events: seq<Event>)
    requires WellFormed(l.s)
    ensures
      var m := Run(op, l, events);
      && m.redeploys >= l.redeploys
      && (m.redeploys == l.redeploys ==>
            && m.moves >= l.moves
            && Rank(Current(l.s).status.phase) + (m.moves - l.moves) <= Rank(Current(m.s).status.phase)
            && (Absorbing(Current(l.s).status.phase) ==> Current(m.s).status == Current(l.s).status))
    decreases events
  {
    if events != [] {
      StepClimbs(op, l, events[0]);
      EpochClimbs(op, Step(op, l, events[0]), events[1..]);
    }
  }

  lemma StepClimbs(op: Config, l: Ledger, e: Event)
    requires WellFormed(l.s)
    ensures
      var m := Step(op, l, e);
      && m.redeploys >= l.redeploys
      && (m.redeploys == l.redeploys ==>
            && m.moves >= l.moves
            && Rank(Current(l.s).status.phase) + (m.moves - l.moves) <= Rank(Current(m.s).status.phase)
            && (Absorbing(Current(l.s).status.phase) ==> Current(m.s).status == Current(l.s).status))
  {
    if e.Reconcile? && Readable(l.s, e.at) && !Redeploys(op, l.s, e.at, e.answers) {
      OneChange(op, l.s, e.at, e.answers);
      AbsorbingKept(op, l.s, e.at, e.answers);
    }
  }

  lemma AbsorbingKept(op: Config, s: System, at: nat, a: Answers)
    requires Readable(s, at) && !Redeploys(op, s, at, a)
    ensures Absorbing(Current(s).status.phase) ==> Current(Reconciled(op, s, at, a)) == Current(s)
  {
    if Absorbing(s.history[at].status.phase) {
      AbsorbingIdle(op, s.history[at], s.objects, a);
    }
  }

  // ---------- provenance of the image ----------

  /** The latest build was started with the BuildConfig's present mark. */
  predicate Synced(o: Objects) {
    LastVersion(o) > 0 ==>
      Latest(o.builds).Some? && Latest(o.builds).value.digest == DigestEntry(o.bc.value)
  }

  /** The latest build is complete and was started for the resource's digest. */
  predicate Provenance(s: System)
    requires WellFormed(s)
  {
    LatestComplete(s.objects) && Latest(s.objects.builds).value.digest == Current(s).status.digest
  }

  /** In every reachable state that presupposes a build, the image is the right one exactly when the
      latest build carries the BuildConfig's mark. */
  lemma ProvenanceExactly(op: Config, name: string, namespace: string, spec: Spec, events: seq<Event>)
    ensures
      var s := Reached(op, name, namespace, spec, events).s;
      Finished(Current(s).status.phase) ==> (Provenance(s) <==> Synced(s.objects))
  {
    ReachedInv(op, name, namespace, spec, events);
    var s := Reached(op, name, namespace, spec, events).s;
    LatestOfNumbered(s.objects.builds);
  }

  /** The mark of a BuildConfig that has built before changes although no build is started. */
  predicate SilentMark(o: Objects, p: Objects) {
    && o.bc.Some? && o.bc.value.lastVersion > 0 && p.bc.Some?
    && DigestEntry(p.bc.value) != DigestEntry(o.bc.value)
    && |p.builds| == |o.builds|
  }

  lemma SyncedMovesOn(o: Objects, p: Objects, digest: string)
    requires Numbered(o) && Synced(o) && (NoneStarted(o, p, digest) || OneStarted(o, p, digest))
    ensures Synced(p) <==> !SilentMark(o, p)
  {
    NumberedKept(o, p, digest);
    LatestOfNumbered(o.builds);
    LatestOfNumbered(p.builds);
  }

  /** A step breaks the agreement of mark and latest build exactly when it marks silently. */
  lemma SyncedStep(op: Config, l: Ledger, e: Event)
    requires Inv(op, l) && Synced(l.s.objects)
    ensures
      var o, p := l.s.objects, Step(op, l, e).s.objects;
      Synced(p) <==> !SilentMark(o, p)
  {
    var o, p := l.s.objects, Step(op, l, e).s.objects;
    match e
    case Edit(_) =>
    case BuildProgress(index, phase) => ProgressFacts(o, p, index, phase);
    case DeploymentReport(_, _) =>
    case Reconcile(at, a) =>
      if Readable(l.s, at) && !Updater.IsVdbUpdated(op, l.s.history[at]) {
        ObjectsKept(op, l.s, at, a, p);
        SyncedMovesOn(o, p, Current(l.s).status.digest);
      }
  }

  /** The build request takes effect. */
  predicate Fires(a: ServiceImage.Answers) {
    a.payload.None? && a.trigger.Posted? && a.trigger.reply.TookEffect()
  }

  /** The guard under which a reconcile marks silently: it gets as far as marking a BuildConfig that has
      built before, the mark is stored, and then the answer is lost or no build is started. */
  predicate LosesTrigger(op: Config, v: Resource, o: Objects, a: ServiceImage.Answers) {
    && CanBuild(op, v) && ServiceImage.HasSource(v)
    && a.imageStream.None? && a.get.None?
    && LastVersion(o) > 0 && !Agrees(o, v.status.digest)
    && (a.update.Lost? || (a.update.Done? && !Fires(a)))
  }

  lemma SilentMarkExactly(op: Config, s: System, at: nat, a: Answers)
    requires Readable(s, at)
    ensures SilentMark(s.objects, Reconciled(op, s, at, a).objects)
      <==> LosesTrigger(op, s.history[at], s.objects, a.service)
  {
    var v, o := s.history[at], s.objects;
    if !Updater.IsVdbUpdated(op, v) {
      if v.status.phase == BuilderImageFinished {
        BuildHandled(op, v, o, a);
        if LastVersion(o) > 0 {
          SilentBuild(op, v, o, a.service);
        }
      } else {
        OthersKeepBuilds(op, v, o, a);
      }
    }
  }

  /** The step is a reconcile for which the guard holds. */
  predicate StepLosesTrigger(op: Config, l: Ledger, e: Event)
    requires WellFormed(l.s)
  {
    && e.Reconcile? && Readable(l.s, e.at)
    && LosesTrigger(op, l.s.history[e.at], l.s.objects, e.answers.service)
  }

  lemma StepMarksExactly(op: Config, l: Ledger, e: Event)
    requires WellFormed(l.s)
    ensures SilentMark(l.s.objects, Step(op, l, e).s.objects) <==> StepLosesTrigger(op, l, e)
  {
    match e
    case Edit(_) =>
    case BuildProgress(_, _) =>
    case DeploymentReport(_, _) =>
    case Reconcile(at, a) =>
      if Readable(l.s, at) {
        ReconcileStep(op, l, at, a);
        AfterSystem(op, l, at, a);
        SilentMarkExactly(op, l.s, at, a);
      }
  }

  /** The guard holds at no reconcile of the run. */
  predicate Faithful(op: Config, l: Ledger, events: seq<Event>)
    requires WellFormed(l.s)
    decreases events
  {
    events == [] || (!StepLosesTrigger(op, l, events[0]) && Faithful(op, Step(op, l, events[0]), events[1..]))
  }

  /** Mark and latest build agree at every moment of the run. */
  predicate AlwaysSynced(op: Config, l: Ledger, events: seq<Event>)
    requires WellFormed(l.s)
    decreases events
  {
    Synced(l.s.objects) && (events == [] || AlwaysSynced(op, Step(op, l, events[0]), events[1..]))
  }

  /** Over any run mark and latest build agree throughout if and only if the guard holds at no reconcile. */
  lemma {:induction false} SyncedExactly(op: Config, l: Ledger, events: seq<Event>)
    requires Inv(op, l) && Synced(l.s.objects)
    ensures AlwaysSynced(op, l, events) <==> Faithful(op, l, events)
    decreases events
  {
    if events != [] {
      var m := Step(op, l, events[0]);
      StepKeeps(op, l, events[0]);
      SyncedStep(op, l, events[0]);
      StepMarksExactly(op, l, events[0]);
      if Synced(m.s.objects) {
        SyncedExactly(op, m, events[1..]);
      }
    }
  }

  lemma {:induction false} SyncedAtEnd(op: Config, l: Ledger, events: seq<Event>)
    requires WellFormed(l.s) && AlwaysSynced(op, l, events)
    ensures Synced(Run(op, l, events).s.objects)
    decreases events
  {
    if events != [] {
      SyncedAtEnd(op, Step(op, l, events[0]), events[1..]);
    }
  }

  /** Build provenance: if the guard holds at no reconcile, every state that presupposes a build has the image
      of the resource's digest, whatever the user edits and whichever other writes are lost. */
  lemma BuildProvenance(op: Config, name: string, namespace: string, spec: Spec, events: seq<Event>)
    requires Faithful(op, Fresh(name, namespace, spec), events)
    ensures
      var s := Reached(op, name, namespace, spec, events).s;
      Finished(Current(s).status.phase) ==> Provenance(s)
  {
    FreshInv(op, name, namespace, spec);
    SyncedExactly(op, Fresh(name, namespace, spec), events);
    SyncedAtEnd(op, Fresh(name, namespace, spec), events);
    ProvenanceExactly(op, name, namespace, spec, events);
  }

  lemma SilentBuild(op: Config, v: Resource, o: Objects, a: ServiceImage.Answers)
    requires LastVersion(o) > 0
    ensures SilentMark(o, ServiceImage.BuildImage(op, v, o, a).0) <==>
      && ServiceImage.HasSource(v) && a.imageStream.None? && a.get.None?
      && !Agrees(o, v.status.digest) && (a.update.Lost? || (a.update.Done? && !Fires(a)))
  {
    var d := v.status.digest;
    if ServiceImage.HasSource(v) && a.imageStream.None? && a.get.None? {
      assert ServiceImage.EnsureConfig(ServiceImage.NewConfig(op, v), o, a) == (o, None);
      if !Agrees(o, d) {
        SilentMarking(d, o, a);
      }
    }
  }

  lemma SilentMarking(digest: string, o: Objects, a: ServiceImage.Answers)
    requires LastVersion(o) > 0 && !Agrees(o, digest)
    ensures SilentMark(o, ServiceImage.MarkAndFire(digest, o, a).0) <==>
      a.update.Lost? || (a.update.Done? && !Fires(a))
  {
    var marked := o.(bc := Some(ServiceImage.Marked(o.bc.value, digest)));
    assert Agrees(marked, digest);
    FireFacts(marked, a, digest);
  }

  // ---------- the image of the present epoch ----------

  function LatestDigest(o: Objects): Option<string> {
    match Latest(o.builds)
    case None => None
    case Some(b) => Some(b.digest)
  }

  /** A build started in the present epoch is the latest one, and for the resource's digest. */
  predicate Built(l: Ledger)
    requires WellFormed(l.s)
  {
    l.builds >= 1 ==> LatestDigest(l.s.objects) == Some(Current(l.s).status.digest)
  }

  lemma DigestMovesOn(o: Objects, p: Objects, digest: string)
    requires Numbered(o) && (NoneStarted(o, p, digest) || OneStarted(o, p, digest))
    ensures |p.builds| > |o.builds| ==> LatestDigest(p) == Some(digest)
    ensures |p.builds| <= |o.builds| ==> LatestDigest(p) == LatestDigest(o)
  {
    NumberedKept(o, p, digest);
    LatestOfNumbered(p.builds);
  }

  lemma ProgressKeepsDigest(o: Objects, p: Objects, index: nat, phase: BuildPhase)
    requires Numbered(o) && p.builds == Progressed(o.builds, index, phase)
    ensures LatestDigest(p) == LatestDigest(o)
  {
    LatestOfNumbered(o.builds);
    LatestOfNumbered(p.builds);
  }

  /** From `l` to `m` a digest of the latest build: the resource's if a build was started, or else the same
      as before; and a redeploy starts counting anew. */
  predicate DigestFollows(l: Ledger, m: Ledger)
    requires WellFormed(l.s) && WellFormed(m.s)
  {
    && (m.redeploys == l.redeploys ==>
          && Current(m.s).status.digest == Current(l.s).status.digest
          && (m.builds == l.builds || m.builds == l.builds + 1)
          && LatestDigest(m.s.objects) ==
               if m.builds > l.builds then Some(Current(l.s).status.digest) else LatestDigest(l.s.objects))
    && (m.redeploys != l.redeploys ==> m.redeploys == l.redeploys + 1 && m.builds == 0)
  }

  lemma StepDigest(op: Config, l: Ledger, e: Event)
    requires Inv(op, l)
    ensures DigestFollows(l, Step(op, l, e))
  {
    if e.Reconcile? && Readable(l.s, e.at) {
      ReconcileStep(op, l, e.at, e.answers);
      AfterDigest(op, l, e.at, e.answers);
    } else {
      QuietStep(op, l, e);
      QuietDigest(l, e, Step(op, l, e));
    }
  }

  /** A step that is no reconcile, or one that reads nothing. */
  lemma QuietStep(op: Config, l: Ledger, e: Event)
    requires WellFormed(l.s) && (e.Reconcile? ==> !Readable(l.s, e.at))
    ensures
      var m, o := Step(op, l, e), l.s.objects;
      && Current(m.s).status == Current(l.s).status && m.builds == l.builds && m.redeploys == l.redeploys
      && m.s.objects.builds == if e.BuildProgress? then Progressed(o.builds, e.index, e.phase) else o.builds
  {}

  lemma QuietDigest(l: Ledger, e: Event, m: Ledger)
    requires WellFormed(l.s) && WellFormed(m.s) && Numbered(l.s.objects)
    requires Current(m.s).status == Current(l.s).status && m.builds == l.builds && m.redeploys == l.redeploys
    requires
      var o := l.s.objects;
      m.s.objects.builds == if e.BuildProgress? then Progressed(o.builds, e.index, e.phase) else o.builds
    ensures DigestFollows(l, m)
  {
    if e.BuildProgress? {
      ProgressKeepsDigest(l.s.objects, m.s.objects, e.index, e.phase);
    }
  }

  lemma AfterDigest(op: Config, l: Ledger, at: nat, a: Answers)
    requires Inv(op, l) && Readable(l.s, at)
    ensures WellFormed(AfterReconcile(op, l, at, a).s) && DigestFollows(l, AfterReconcile(op, l, at, a))
  {
    AfterSystem(op, l, at, a);
    if !Redeploys(op, l.s, at, a) {
      ReconcileDigest(op, l, at, a);
    }
  }

  lemma ReconcileDigest(op: Config, l: Ledger, at: nat, a: Answers)
    requires Inv(op, l) && Readable(l.s, at) && !Redeploys(op, l.s, at, a)
    ensures
      var s, t := l.s, Reconciled(op, l.s, at, a);
      && Current(t).status.digest == Current(s).status.digest
      && LatestDigest(t.objects) ==
           if |t.objects.builds| > |s.objects.builds| then Some(Current(s).status.digest) else LatestDigest(s.objects)
  {
    if !Updater.IsVdbUpdated(op, l.s.history[at]) {
      var p := Reconciled(op, l.s, at, a).objects;
      StatusKept(op, l.s, at, a);
      ObjectsKept(op, l.s, at, a, p);
      DigestMovesOn(l.s.objects, p, Current(l.s).status.digest);
    }
  }

  lemma {:induction false} RunBuilt(op: Config, l: Ledger, events: seq<Event>)
    requires Inv(op, l) && Built(l)
    ensures Built(Run(op, l, events))
    decreases events
  {
    if events != [] {
      StepKeeps(op, l, events[0]);
      StepDigest(op, l, events[0]);
      RunBuilt(op, Step(op, l, events[0]), events[1..]);
    }
  }

  /** In every reachable state that presupposes a build: if the present epoch has started one, the image is
      the right one, whatever went wrong in the epochs before. */
  lemma BuiltEpochHasImage(op: Config, name: string, namespace: string, spec: Spec, events: seq<Event>)
    ensures
      var l := Reached(op, name, namespace, spec, events);
      Finished(Current(l.s).status.phase) && l.builds == 1 ==> Provenance(l.s)
  {
    FreshInv(op, name, namespace, spec);
    ReachedInv(op, name, namespace, spec, events);
    RunBuilt(op, Fresh(name, namespace, spec), events);
  }

  /** Over a run within one epoch: until a build is started the latest one stays what it was. */
  lemma {:induction false} EpochDigest(op: Config, l: Ledger, events: seq<Event>)
    requires Inv(op, l)
    ensures
      var m := Run(op, l, events);
      m.redeploys == l.redeploys ==>
        && m.builds >= l.builds && Current(m.s).status.digest == Current(l.s).status.digest
        && LatestDigest(m.s.objects) ==
             if m.builds > l.builds then Some(Current(l.s).status.digest) else LatestDigest(l.s.objects)
    decreases events
  {
    if events != [] {
      var n := Step(op, l, events[0]);
      StepKeeps(op, l, events[0]);
      StepClimbs(op, l, events[0]);
      EpochClimbs(op, n, events[1..]);
      StepDigest(op, l, events[0]);
      EpochDigest(op, n, events[1..]);
    }
  }

  /** An epoch that begins with `l` and any run in it: the image is the right one if and only if the epoch
      has started a build, or the latest build from before already is for this digest. */
  lemma EpochImageExactly(op: Config, l: Ledger, events: seq<Event>)
    requires Inv(op, l) && l.builds == 0
    ensures
      var m := Run(op, l, events);
      m.redeploys == l.redeploys && Finished(Current(m.s).status.phase) ==>
        (Provenance(m.s) <==> m.builds == 1 || LatestDigest(l.s.objects) == Some(Current(l.s).status.digest))
  {
    EpochDigest(op, l, events);
    RunKeeps(op, l, events);
  }
}
