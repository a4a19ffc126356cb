/** Whole runs: user edits, builds and deployments that progress, and reconciles that read versions the
    cache may lag behind with, get any answer to any call and may lose the final write. */
module Runs {
  import opened Outcomes
  import opened Vdb
  import opened Cluster
  import opened Operator
  import opened Reconciler
  import opened Phases
  import Updater
  import Digest

  datatype Event =
    | Edit(spec: Spec)
    | BuildProgress(index: nat, phase: BuildPhase)
    | DeploymentReport(conditions: seq<Condition>, generation: int)
    | Reconcile(at: nat, answers: Answers)

  /** A system with a tally: redeploys written so far, edits that changed the digest, and within the
      current epoch (since the last redeploy was written) the builds started and the phase changes. */
  datatype Ledger = Ledger(s: System, redeploys: nat, edits: nat, builds: nat, moves: nat)

  function Progressed(builds: seq<Build>, index: nat, phase: BuildPhase): seq<Build> {
    if index < |builds| && !Terminal(builds[index].phase) then
      builds[index := builds[index].(phase := phase)]
    else builds
  }

  function Edited(op: Config, l: Ledger, spec: Spec): Ledger
    requires WellFormed(l.s)
  {
    var v := Current(l.s);
    var relevant := Digest.BuildDigest(op.hasher, v.spec.source) != Digest.BuildDigest(op.hasher, spec.source);
    l.(s := l.s.(history := l.s.history + [v.(spec := spec)]), edits := l.edits + if relevant then 1 else 0)
  }

  /** Whether the reconcile writes a redeploy. */
  predicate Redeploys(op: Config, s: System, at: nat, a: Answers)
    requires Readable(s, at)
  {
    Updater.IsVdbUpdated(op, s.history[at]) && at == |s.history| - 1 && a.update.TookEffect()
  }

  lemma RedeployWritten(op: Config, s: System, at: nat, a: Answers)
    requires Readable(s, at) && Redeploys(op, s, at, a)
    ensures Reconciled(op, s, at, a) == System(s.history + [Updater.Redeployed(op, Current(s))], at, s.objects)
    ensures Current(Reconciled(op, s, at, a)) == Updater.Redeployed(op, Current(s))
  {}

  lemma ActionApplied(op: Config, s: System, at: nat, a: Answers)
    requires Readable(s, at) && !Updater.IsVdbUpdated(op, s.history[at])
    ensures Reconciled(op, s, at, a) == Applied(s, at, Act(op, s.history[at], s.objects, a), a.update)
  {}

  function AfterReconcile(op: Config, l: Ledger, at: nat, a: Answers): Ledger
    requires Readable(l.s, at)
  {
    var s := Reconciled(op, l.s, at, a);
    if Redeploys(op, l.s, at, a) then Ledger(s, l.redeploys + 1, l.edits, 0, 0)
    else
      var started := if |s.objects.builds| > |l.s.objects.builds| then 1 else 0;
      var moved := if Current(s).status.phase != Current(l.s).status.phase then 1 else 0;
      Ledger(s, l.redeploys, l.edits, l.builds + started, l.moves + moved)
  }

  function Step(op: Config, l: Ledger, e: Event): (r: Ledger)
    requires WellFormed(l.s)
    ensures WellFormed(r.s)
  {
    match e
    case Edit(spec) => Edited(op, l, spec)
    case BuildProgress(index, phase) =>
      l.(s := l.s.(objects := l.s.objects.(builds := Progressed(l.s.objects.builds, index, phase))))
    case DeploymentReport(conditions, generation) =>
      if l.s.objects.deployment.None? then l
      else
        var d := l.s.objects.deployment.value.(conditions := conditions, observedGeneration := generation);
        l.(s := l.s.(objects := l.s.objects.(deployment := Some(d))))
    case Reconcile(at, answers) =>
      if Readable(l.s, at) then AfterReconcile(op, l, at, answers) else l
  }

  lemma ReconcileStep(op: Config, l: Ledger, at: nat, a: Answers)
    requires Readable(l.s, at)
    ensures Step(op, l, Reconcile(at, a)) == AfterReconcile(op, l, at, a)
  {}

  lemma AfterSystem(op: Config, l: Ledger, at: nat, a: Answers)
    requires Readable(l.s, at)
    ensures AfterReconcile(op, l, at, a).s == Reconciled(op, l.s, at, a)
  {}

  function Run(op: Config, l: Ledger, events: seq<Event>): (r: Ledger)
    requires WellFormed(l.s)
    ensures WellFormed(r.s)
    decreases events
  {
    if events == [] then l else Run(op, Step(op, l, events[0]), events[1..])
  }

  /** A resource just created, in a cluster without objects of its own. */
  function Fresh(name: string, namespace: string, spec: Spec): (l: Ledger)
    ensures WellFormed(l.s)
  {
    Ledger(System([Resource(name, namespace, spec, NO_STATUS)], 0, Objects(None, [], None)), 0, 0, 0, 0)
  }

  // ---------- the invariant ----------

  /** Reading this version leads to buildServiceImage. */
  predicate CanBuild(op: Config, v: Resource) {
    v.status.phase == BuilderImageFinished && !Updater.IsVdbUpdated(op, v)
  }

  /** What versions the cache may still yield: those behind the one last read carry the current status,
      and the one last read, if it leads to a build at all, leads to one for the current digest. */
  predicate CacheOk(op: Config, s: System)
    requires WellFormed(s)
  {
    && (forall i :: s.seen < i < |s.history| ==> s.history[i].status == Current(s).status)
    && (CanBuild(op, s.history[s.seen]) ==>
          && s.history[s.seen].status.digest == Current(s).status.digest
          && Current(s).status.phase in {BuilderImageFinished, Phase.ServiceImage, Phase.Error})
  }

  /** Builds are numbered from one, and the BuildConfig knows the last number. */
  predicate Numbered(o: Objects) {
    && |o.builds| == LastVersion(o)
    && forall i :: 0 <= i < |o.builds| ==> o.builds[i].number == i + 1
  }

  predicate LatestComplete(o: Objects) {
    Latest(o.builds).Some? && Latest(o.builds).value.phase == BuildComplete
  }

  predicate BuildsOk(s: System)
    requires WellFormed(s)
  {
    var status := Current(s).status;
    && Numbered(s.objects)
    && (Late(status.phase) ==> Agrees(s.objects, status.digest))
    && (Finished(status.phase) ==> LatestComplete(s.objects))
  }

  /** The epochs before the present one have started at most one build each, and the time before the first
      redeploy none. */
  predicate BuildsCounted(l: Ledger)
    requires WellFormed(l.s)
  {
    if l.redeploys == 0 then
      Current(l.s).status.digest == "" && l.s.objects.builds == [] && l.builds == 0
    else |l.s.objects.builds| <= l.redeploys - 1 + l.builds
  }

  predicate TallyOk(op: Config, l: Ledger)
    requires WellFormed(l.s)
  {
    && BuildsCounted(l)
    && l.builds <= 1
    && (l.builds == 1 ==> LastVersion(l.s.objects) > 0 && Agrees(l.s.objects, Current(l.s).status.digest))
    && l.moves <= Rank(Current(l.s).status.phase)
    && l.redeploys + (if Updater.IsVdbUpdated(op, Current(l.s)) then 1 else 0) <= l.edits + 1
  }

  predicate Inv(op: Config, l: Ledger) {
    WellFormed(l.s) && CacheOk(op, l.s) && BuildsOk(l.s) && TallyOk(op, l)
  }

  // ---------- every step keeps it ----------

  lemma EditKeeps(op: Config, l: Ledger, spec: Spec)
    requires Inv(op, l)
    ensures Inv(op, Edited(op, l, spec))
  {
    var m := Edited(op, l, spec);
    assert Current(m.s) == Current(l.s).(spec := spec);
    assert m.s.history[l.s.seen] == l.s.history[l.s.seen];
  }

  /** Progress of a build that has not ended changes neither numbers nor a complete latest build. */
  lemma ProgressFacts(o: Objects, p: Objects, index: nat, phase: BuildPhase)
    requires Numbered(o) && p == o.(builds := Progressed(o.builds, index, phase))
    ensures Numbered(p)
    ensures LatestComplete(o) ==> LatestComplete(p)
    ensures Latest(o.builds).Some? ==>
      Latest(p.builds).Some? && Latest(p.builds).value.digest == Latest(o.builds).value.digest
  {
    LatestOfNumbered(o.builds);
    LatestOfNumbered(p.builds);
  }

  lemma ProgressKeeps(op: Config, l: Ledger, index: nat, phase: BuildPhase)
    requires Inv(op, l)
    ensures Inv(op, Step(op, l, BuildProgress(index, phase)))
  {
    var o := l.s.objects;
    var p := o.(builds := Progressed(o.builds, index, phase));
    ProgressFacts(o, p, index, phase);
    SwapObjects(op, l, l.(s := l.s.(objects := p)));
  }

  /** Objects may be exchanged for others with the same BuildConfig and a latest build as good. */
  lemma SwapObjects(op: Config, l: Ledger, m: Ledger)
    requires Inv(op, l) && m == l.(s := l.s.(objects := m.s.objects))
    requires |m.s.objects.builds| == |l.s.objects.builds|
    requires Numbered(m.s.objects) && m.s.objects.bc == l.s.objects.bc
    requires LatestComplete(l.s.objects) ==> LatestComplete(m.s.objects)
    ensures Inv(op, m)
  {
    assert m.s.history == l.s.history && Current(m.s) == Current(l.s);
    assert CacheOk(op, m.s);
  }

  lemma NumberedKept(o: Objects, p: Objects, digest: string)
    requires Numbered(o) && (NoneStarted(o, p, digest) || OneStarted(o, p, digest))
    ensures Numbered(p)
  {}

  /** Whatever version is read: if it leads to a build, then to one for the current digest. */
  lemma BuildsForCurrent(op: Config, s: System, at: nat)
    requires WellFormed(s) && CacheOk(op, s) && Readable(s, at) && CanBuild(op, s.history[at])
    ensures s.history[at].status.digest == Current(s).status.digest
    ensures Current(s).status.phase in {BuilderImageFinished, Phase.ServiceImage, Phase.Error}
  {}

  /** What a reconcile that does not redeploy does to the build objects, seen from the current status. */
  lemma ObjectsKept(op: Config, s: System, at: nat, a: Answers, p: Objects)
    requires WellFormed(s) && CacheOk(op, s) && BuildsOk(s) && Readable(s, at)
    requires !Updater.IsVdbUpdated(op, s.history[at])
    requires p == Act(op, s.history[at], s.objects, a).objects
    ensures Numbered(p)
    ensures NoneStarted(s.objects, p, Current(s).status.digest) || OneStarted(s.objects, p, Current(s).status.digest)
    ensures p.builds != s.objects.builds ==> Current(s).status.digest != ""
    ensures s.history[at].status.phase != BuilderImageFinished ==>
      p.bc == s.objects.bc && p.builds == s.objects.builds
  {
    var v := s.history[at];
    if v.status.phase == BuilderImageFinished {
      BuildStep(op, v, s.objects, a);
      BuildsForCurrent(op, s, at);
    } else {
      OthersKeepBuilds(op, v, s.objects, a);
    }
    NumberedKept(s.objects, p, Current(s).status.digest);
  }

  /** The current status after a reconcile that does not redeploy. */
  lemma StatusKept(op: Config, s: System, at: nat, a: Answers)
    requires WellFormed(s) && Readable(s, at)
    requires !Updater.IsVdbUpdated(op, s.history[at])
    ensures
      var t := Reconciled(op, s, at, a);
      var v, w := Current(s), Current(t);
      && w.status.digest == v.status.digest
      && w.spec.source == v.spec.source
      && t.objects == Act(op, s.history[at], s.objects, a).objects
      && (w.status.phase == v.status.phase
          || (Edge(v.status.phase, w.status.phase) && at == |s.history| - 1
              && w == Act(op, v, s.objects, a).vdb))
  {
    ActFollowsEdge(op, s.history[at], s.objects, a);
  }

  lemma ActKeepsCache(op: Config, s: System, at: nat, a: Answers)
    requires WellFormed(s) && CacheOk(op, s) && Readable(s, at)
    requires !Updater.IsVdbUpdated(op, s.history[at])
    ensures CacheOk(op, Reconciled(op, s, at, a))
  {
    StatusKept(op, s, at, a);
    HistoryGrows(s, at, Act(op, s.history[at], s.objects, a), a.update);
    CacheMovesOn(op, s, at, Reconciled(op, s, at, a));
  }

  lemma HistoryGrows(s: System, at: nat, r: Outcome, w: Write)
    requires Readable(s, at)
    ensures
      var t := Applied(s, at, r, w);
      t.seen == at && (t.history == s.history || (at == |s.history| - 1 && t.history == s.history + [Current(t)]))
  {}

  lemma CacheMovesOn(op: Config, s: System, at: nat, t: System)
    requires WellFormed(s) && CacheOk(op, s) && Readable(s, at) && WellFormed(t)
    requires t.seen == at
    requires t.history == s.history || (at == |s.history| - 1 && t.history == s.history + [Current(t)])
    requires Current(t).status.digest == Current(s).status.digest
    requires Current(t).status.phase == Current(s).status.phase
          || Edge(Current(s).status.phase, Current(t).status.phase)
    ensures CacheOk(op, t)
  {
    assert t.history[at] == s.history[at];
  }

  /** Late phases agree with the BuildConfig and finished ones with a complete build, after objects and
      status moved on as an action moves them. */
  lemma BuildsMoveOn(s: System, t: System)
    requires WellFormed(s) && WellFormed(t) && BuildsOk(s) && Numbered(t.objects)
    requires Current(t).status.digest == Current(s).status.digest
    requires
      var d := Current(s).status.digest;
      NoneStarted(s.objects, t.objects, d) || OneStarted(s.objects, t.objects, d)
    requires Late(Current(t).status.phase) ==>
      Late(Current(s).status.phase) || Agrees(t.objects, Current(s).status.digest)
    requires Finished(Current(t).status.phase) ==>
      && t.objects.builds == s.objects.builds
      && (Finished(Current(s).status.phase) || LatestComplete(s.objects))
    ensures BuildsOk(t)
  {}

  /** A late phase is entered only with a BuildConfig that agrees. */
  lemma LateEntered(s: System, t: System, r: Outcome)
    requires WellFormed(s) && WellFormed(t)
    requires Current(t).status.phase == Current(s).status.phase || (Current(t) == r.vdb && t.objects == r.objects)
    requires Late(r.vdb.status.phase) ==> Late(Current(s).status.phase) || Agrees(r.objects, Current(s).status.digest)
    ensures Late(Current(t).status.phase) ==>
      Late(Current(s).status.phase) || Agrees(t.objects, Current(s).status.digest)
  {}

  lemma LateKept(op: Config, s: System, t: System, a: Answers)
    requires WellFormed(s) && WellFormed(t) && !Updater.IsVdbUpdated(op, Current(s))
    requires Current(t) == Act(op, Current(s), s.objects, a).vdb
    requires t.objects == Act(op, Current(s), s.objects, a).objects
    ensures Late(Current(t).status.phase) ==>
      Late(Current(s).status.phase) || Agrees(t.objects, Current(s).status.digest)
  {
    LateByBuild(op, Current(s), s.objects, a);
    LateEntered(s, t, Act(op, Current(s), s.objects, a));
  }

  lemma LateIfMoved(op: Config, s: System, at: nat, a: Answers, t: System)
    requires WellFormed(s) && WellFormed(t) && Readable(s, at) && !Updater.IsVdbUpdated(op, s.history[at])
    requires t.objects == Act(op, s.history[at], s.objects, a).objects
    requires Current(t).status.phase != Current(s).status.phase ==>
      at == |s.history| - 1 && Current(t) == Act(op, Current(s), s.objects, a).vdb
    ensures Late(Current(t).status.phase) ==>
      Late(Current(s).status.phase) || Agrees(t.objects, Current(s).status.digest)
  {
    if Current(t).status.phase != Current(s).status.phase {
      LateKept(op, s, t, a);
    }
  }

  lemma LateByBuild(op: Config, v: Resource, o: Objects, a: Answers)
    requires !Updater.IsVdbUpdated(op, v)
    ensures
      var r := Act(op, v, o, a);
      Late(r.vdb.status.phase) ==> Late(v.status.phase) || Agrees(r.objects, v.status.digest)
  {
    ActFollowsEdge(op, v, o, a);
    if v.status.phase == BuilderImageFinished {
      BuildStep(op, v, o, a);
    }
  }

  /** A finished phase is entered only on a complete latest build, and in one no build starts. */
  lemma FinishedEntered(op: Config, s: System, at: nat, a: Answers, t: System)
    requires WellFormed(s) && CacheOk(op, s) && Readable(s, at) && t == Reconciled(op, s, at, a)
    requires !Updater.IsVdbUpdated(op, s.history[at])
    ensures
      var p, q := Current(s).status.phase, Current(t).status.phase;
      Finished(q) ==> t.objects.builds == s.objects.builds && (Finished(p) || LatestComplete(s.objects))
  {
    var v := s.history[at];
    StatusKept(op, s, at, a);
    var p, q := Current(s).status.phase, Current(t).status.phase;
    if Finished(q) {
      if p != q && !Finished(p) {
        FinishedByCompleteBuild(op, v, s.objects, a);
      }
      FinishedKeepsBuilds(op, s, at, a, t);
    }
  }

  lemma FinishedKeepsBuilds(op: Config, s: System, at: nat, a: Answers, t: System)
    requires WellFormed(s) && CacheOk(op, s) && Readable(s, at) && t == Reconciled(op, s, at, a)
    requires !Updater.IsVdbUpdated(op, s.history[at]) && Finished(Current(t).status.phase)
    ensures t.objects.builds == s.objects.builds
  {
    if s.history[at].status.phase == BuilderImageFinished {
      StatusKept(op, s, at, a);
      NotFinishedByBuild(op, s, at, Current(t).status.phase);
    } else {
      OthersKeepBuilds(op, s.history[at], s.objects, a);
    }
  }

  lemma NotFinishedByBuild(op: Config, s: System, at: nat, q: Phase)
    requires WellFormed(s) && CacheOk(op, s) && Readable(s, at) && CanBuild(op, s.history[at])
    requires q == Current(s).status.phase || (Edge(Current(s).status.phase, q) && at == |s.history| - 1)
    ensures !Finished(q)
  {
    BuildsForCurrent(op, s, at);
  }

  lemma ActKeepsBuilds(op: Config, s: System, at: nat, a: Answers)
    requires WellFormed(s) && CacheOk(op, s) && BuildsOk(s) && Readable(s, at)
    requires !Updater.IsVdbUpdated(op, s.history[at])
    ensures BuildsOk(Reconciled(op, s, at, a))
  {
    var t := Reconciled(op, s, at, a);
    ObjectsKept(op, s, at, a, t.objects);
    StatusKept(op, s, at, a);
    LateIfMoved(op, s, at, a, t);
    FinishedEntered(op, s, at, a, t);
    BuildsMoveOn(s, t);
  }

  lemma TallyMovesOn(op: Config, l: Ledger, m: Ledger)
    requires Inv(op, l) && WellFormed(m.s)
    requires Current(m.s).status.digest == Current(l.s).status.digest
    requires Current(m.s).spec.source == Current(l.s).spec.source
    requires
      var d := Current(l.s).status.digest;
      NoneStarted(l.s.objects, m.s.objects, d) || OneStarted(l.s.objects, m.s.objects, d)
    requires m.s.objects.builds != l.s.objects.builds ==> Current(l.s).status.digest != ""
    requires m.builds == l.builds + if |m.s.objects.builds| > |l.s.objects.builds| then 1 else 0
    requires m.redeploys == l.redeploys && m.edits == l.edits
    requires
      var p, q := Current(l.s).status.phase, Current(m.s).status.phase;
      (p == q && m.moves == l.moves) || (Rank(p) < Rank(q) && m.moves == l.moves + 1)
    ensures TallyOk(op, m)
  {}

  lemma ActKeepsTally(op: Config, l: Ledger, at: nat, a: Answers)
    requires Inv(op, l) && Readable(l.s, at)
    requires !Updater.IsVdbUpdated(op, l.s.history[at])
    ensures TallyOk(op, AfterReconcile(op, l, at, a))
  {
    var m := AfterReconcile(op, l, at, a);
    ObjectsKept(op, l.s, at, a, m.s.objects);
    StatusKept(op, l.s, at, a);
    var p, q := Current(l.s).status.phase, Current(m.s).status.phase;
    if p != q {
      EdgesClimb(p, q);
    }
    TallyMovesOn(op, l, m);
  }

  /** Starting over. */
  lemma StartOver(op: Config, l: Ledger, m: Ledger)
    requires Inv(op, l) && Updater.IsVdbUpdated(op, Current(l.s))
    requires m == Ledger(
      System(l.s.history + [Updater.Redeployed(op, Current(l.s))], |l.s.history| - 1, l.s.objects),
      l.redeploys + 1, l.edits, 0, 0)
    ensures Inv(op, m)
  {
    assert Current(m.s) == Updater.Redeployed(op, Current(l.s));
    assert m.s.history[m.s.seen] == Current(l.s);
    assert CacheOk(op, m.s);
  }

  /** Reading a version that calls for a redeploy without writing one. */
  lemma OnlyRead(op: Config, l: Ledger, at: nat)
    requires Inv(op, l) && Readable(l.s, at)
    ensures Inv(op, l.(s := l.s.(seen := at)))
  {
    var m := l.(s := l.s.(seen := at));
    ReadKeepsCache(op, l.s, at);
    assert Current(m.s) == Current(l.s);
  }

  lemma ReadKeepsCache(op: Config, s: System, at: nat)
    requires WellFormed(s) && CacheOk(op, s) && Readable(s, at)
    ensures CacheOk(op, s.(seen := at))
  {
    if CanBuild(op, s.history[at]) {
      BuildsForCurrent(op, s, at);
    }
  }

  lemma RedeployKeeps(op: Config, l: Ledger, at: nat, a: Answers)
    requires Inv(op, l) && Readable(l.s, at)
    requires Updater.IsVdbUpdated(op, l.s.history[at])
    ensures Inv(op, AfterReconcile(op, l, at, a))
  {
    if Redeploys(op, l.s, at, a) {
      StartOver(op, l, AfterReconcile(op, l, at, a));
    } else {
      OnlyRead(op, l, at);
      assert AfterReconcile(op, l, at, a) == l.(s := l.s.(seen := at));
    }
  }

  lemma ReconcileKeeps(op: Config, l: Ledger, at: nat, a: Answers)
    requires Inv(op, l) && Readable(l.s, at)
    ensures Inv(op, AfterReconcile(op, l, at, a))
  {
    if Updater.IsVdbUpdated(op, l.s.history[at]) {
      RedeployKeeps(op, l, at, a);
    } else {
      ActKeepsCache(op, l.s, at, a);
      ActKeepsBuilds(op, l.s, at, a);
      ActKeepsTally(op, l, at, a);
    }
  }

  lemma StepKeeps(op: Config, l: Ledger, e: Event)
    requires Inv(op, l)
    ensures Inv(op, Step(op, l, e))
  {
    match e
    case Edit(spec) => EditKeeps(op, l, spec);
    case BuildProgress(index, phase) => ProgressKeeps(op, l, index, phase);
    case DeploymentReport(_, _) => SwapObjects(op, l, Step(op, l, e));
    case Reconcile(at, answers) =>
      if Readable(l.s, at) {
        ReconcileKeeps(op, l, at, answers);
      }
  }

  lemma {:induction false} RunKeeps(op: Config, l: Ledger, events: seq<Event>)
    requires Inv(op, l)
    ensures Inv(op, Run(op, l, events))
    decreases events
  {
    if events != [] {
      StepKeeps(op, l, events[0]);
      RunKeeps(op, Step(op, l, events[0]), events[1..]);
    }
  }

  lemma FreshInv(op: Config, name: string, namespace: string, spec: Spec)
    ensures Inv(op, Fresh(name, namespace, spec))
  {}
}
