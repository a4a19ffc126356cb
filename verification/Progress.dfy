/** When the operator gives a deployment up: over whole runs, never while the cluster reports progress. */
module Progress {
  import opened Outcomes
  import opened Vdb
  import opened Cluster
  import opened Operator
  import opened Reconciler
  import opened Phases
  import opened Runs
  import Updater
  import Rollout

  /** A report that is neither one of availability nor one of progress. */
  predicate Stalled(conditions: seq<Condition>, generation: int) {
    && conditions != [] && generation >= 4
    && Condition(Available, true) !in conditions && Condition(Progressing, true) !in conditions
  }

  predicate StalledDeployment(o: Objects) {
    o.deployment.Some? && Stalled(o.deployment.value.conditions, o.deployment.value.observedGeneration)
  }

  /** The guard: a reconcile on the latest version, in phase Deploying, that can read a stalled deployment and
      whose write takes effect. */
  predicate GivesUp(op: Config, l: Ledger, e: Event)
    requires WellFormed(l.s)
  {
    && e.Reconcile? && e.at == |l.s.history| - 1 && e.answers.update.TookEffect()
    && Current(l.s).status.phase == Deploying && !Updater.IsVdbUpdated(op, Current(l.s))
    && e.answers.rollout.read.None? && StalledDeployment(l.s.objects)
  }

  /** The step takes the resource from Deploying to Error. */
  predicate Fails(op: Config, l: Ledger, e: Event)
    requires WellFormed(l.s)
  {
    Current(l.s).status.phase == Deploying && Current(Step(op, l, e).s).status.phase == Phase.Error
  }

  lemma DeployingAct(op: Config, v: Resource, o: Objects, a: Answers)
    requires v.status.phase == Deploying
    ensures
      var next := Act(op, v, o, a).vdb;
      && next.status.phase in {Deploying, Running, Phase.Error}
      && (next.status.phase == Phase.Error <==> a.rollout.read.None? && StalledDeployment(o))
      && (next.status.phase == Deploying ==> next == v)
  {
    Rollout.DeployingOutcomes(op, v, o, a.rollout);
  }

  /** What reading version `at` does to a resource whose latest phase is Deploying. */
  lemma ReconcileFails(op: Config, s: System, at: nat, a: Answers)
    requires WellFormed(s) && Readable(s, at) && !Updater.IsVdbUpdated(op, s.history[at])
    requires Current(s).status.phase == Deploying
    ensures Current(Reconciled(op, s, at, a)).status.phase == Phase.Error <==>
      && at == |s.history| - 1 && a.update.TookEffect()
      && a.rollout.read.None? && StalledDeployment(s.objects)
  {
    ActionApplied(op, s, at, a);
    if at == |s.history| - 1 {
      DeployingAct(op, Current(s), s.objects, a);
    }
    var stalled := a.rollout.read.None? && StalledDeployment(s.objects);
    AppliedFails(s, at, Act(op, s.history[at], s.objects, a), a.update, stalled);
  }

  lemma AppliedFails(s: System, at: nat, r: Outcome, w: Write, stalled: bool)
    requires WellFormed(s) && Readable(s, at) && Current(s).status.phase == Deploying
    requires at == |s.history| - 1 ==> (r.vdb.status.phase == Phase.Error <==> stalled)
    ensures Current(Applied(s, at, r, w)).status.phase == Phase.Error <==>
      at == |s.history| - 1 && w.TookEffect() && stalled
  {
    if at == |s.history| - 1 {
      LatestApplied(s, r, w);
    } else {
      HistoryGrows(s, at, r, w);
    }
  }

  lemma LatestApplied(s: System, r: Outcome, w: Write)
    requires WellFormed(s)
    ensures Current(Applied(s, |s.history| - 1, r, w)) == if w.TookEffect() then r.vdb else Current(s)
  {}

  /** A step takes the resource from Deploying to Error if and only if that guard holds. */
  lemma FailsExactly(op: Config, l: Ledger, e: Event)
    requires WellFormed(l.s)
    ensures Fails(op, l, e) <==> GivesUp(op, l, e)
  {
    if e.Reconcile? && Readable(l.s, e.at) {
      ReconcileStep(op, l, e.at, e.answers);
      AfterSystem(op, l, e.at, e.answers);
      if Current(l.s).status.phase == Deploying {
        ReadFails(op, l.s, e.at, e.answers);
      }
    } else {
      OtherSteps(op, l, e);
    }
  }

  lemma ReadFails(op: Config, s: System, at: nat, a: Answers)
    requires WellFormed(s) && Readable(s, at) && Current(s).status.phase == Deploying
    ensures Current(Reconciled(op, s, at, a)).status.phase == Phase.Error <==>
      && at == |s.history| - 1 && a.update.TookEffect() && !Updater.IsVdbUpdated(op, Current(s))
      && a.rollout.read.None? && StalledDeployment(s.objects)
  {
    if Updater.IsVdbUpdated(op, s.history[at]) {
      RedeployNeverFails(op, s, at, a);
    } else {
      ReconcileFails(op, s, at, a);
    }
  }

  lemma RedeployNeverFails(op: Config, s: System, at: nat, a: Answers)
    requires Readable(s, at) && Updater.IsVdbUpdated(op, s.history[at]) && Current(s).status.phase == Deploying
    ensures Current(Reconciled(op, s, at, a)).status.phase != Phase.Error
  {}

  lemma OtherSteps(op: Config, l: Ledger, e: Event)
    requires WellFormed(l.s)
    requires e.Reconcile? ==> !Readable(l.s, e.at)
    ensures Current(Step(op, l, e).s).status.phase == Current(l.s).status.phase
  {}

  // ---------- runs ----------

  /** What the cluster reports about a deployment is kept by every action; a new one has no reports yet. */
  lemma ActKeepsReports(op: Config, v: Resource, o: Objects, a: Answers)
    requires !StalledDeployment(o)
    ensures !StalledDeployment(Act(op, v, o, a).objects)
  {
    if v.status.phase == BuilderImageFinished {
      BuildStep(op, v, o, a);
    }
  }

  predicate Reports(e: Event) {
    e.DeploymentReport? && Stalled(e.conditions, e.generation)
  }

  lemma StepKeepsReports(op: Config, l: Ledger, e: Event)
    requires WellFormed(l.s) && !StalledDeployment(l.s.objects) && !Reports(e)
    ensures !StalledDeployment(Step(op, l, e).s.objects)
  {
    if e.Reconcile? && Readable(l.s, e.at) {
      ReconcileStep(op, l, e.at, e.answers);
      AfterSystem(op, l, e.at, e.answers);
      if !Updater.IsVdbUpdated(op, l.s.history[e.at]) {
        ActionApplied(op, l.s, e.at, e.answers);
        ActKeepsReports(op, l.s.history[e.at], l.s.objects, e.answers);
      }
    }
  }

  /** At no step of the run does the resource go from Deploying to Error. */
  predicate NeverFails(op: Config, l: Ledger, events: seq<Event>)
    requires WellFormed(l.s)
    decreases events
  {
    events == [] || (!Fails(op, l, events[0]) && NeverFails(op, Step(op, l, events[0]), events[1..]))
  }

  /** While every report is one of availability or progress, or comes before the fourth generation, no reconcile
      ends in Error from phase Deploying: a deployment just created is never given up. */
  lemma {:induction false} ProgressNeverFails(op: Config, l: Ledger, events: seq<Event>)
    requires WellFormed(l.s) && !StalledDeployment(l.s.objects)
    requires forall i :: 0 <= i < |events| ==> !Reports(events[i])
    ensures NeverFails(op, l, events)
    decreases events
  {
    if events != [] {
      FailsExactly(op, l, events[0]);
      StepKeepsReports(op, l, events[0]);
      ProgressNeverFails(op, Step(op, l, events[0]), events[1..]);
    }
  }
}
