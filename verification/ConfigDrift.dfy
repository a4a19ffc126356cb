/** Whether the deployment carries the configuration that the resource records, and a run without any fault at
    whose end it does not. */
module ConfigDrift {
  import opened Outcomes
  import opened Vdb
  import opened Cluster
  import opened Operator
  import opened Reconciler
  import opened Phases
  import opened Runs
  import opened Cooperation
  import opened Iteration
  import opened Quiescence
  import opened EnvVars
  import Updater
  import Digest
  import Initialize
  import Rollout

  /** The deployment, if there is one, is annotated with the configuration digest of the resource. */
  predicate Carried(s: System)
    requires WellFormed(s)
  {
    s.objects.deployment.Some? ==> s.objects.deployment.value.configHash == Current(s).status.configDigest
  }

  // ---------- when exactly a step loses the agreement ----------

  /** Initializing gets as far as recording the digests. */
  predicate Validated(v: Resource, a: Initialize.Answers) {
    && Initialize.NamesValid(v.spec.env) && Initialize.PropertiesExist(v.spec.env, a)
    && Initialize.SourcesExist(v.spec.dataSources, a)
  }

  /** The configuration digest that initializing records. */
  function InitialConfig(op: Config, v: Resource, a: Initialize.Answers): string {
    Digest.ConfigDigest(op.hasher, v.spec, a.revisions).GetOr("")
  }

  /** The deployment is created. */
  predicate Creates(o: Objects, a: Rollout.Answers) {
    && o.deployment.None? && a.bcGet.None? && o.bc.Some? && a.envs.Success? && a.create.TookEffect()
  }

  /** A changed configuration that a reconcile in phase Running notices. */
  function Noticed(op: Config, v: Resource, o: Objects, a: Rollout.Answers): Option<string> {
    var config := Digest.ConfigDigest(op.hasher, v.spec, a.revisions);
    if o.deployment.Some? && a.read.None? && Rollout.Ready(o.deployment.value.conditions) && v.spec.replicas.Some?
       && a.envs.Success? && config.Some? && config.value != v.status.configDigest
       && Rollout.InLine(o.deployment.value, v.spec.replicas.value, a.envs.value) == o.deployment.value
    then config else None
  }

  /** The guard. A new digest is recorded while a deployment is there; a deployment is created from an
      outdated version; or of the two writes in phase Running just one takes effect. */
  predicate LosesConfig(op: Config, s: System, at: nat, a: Answers)
    requires Readable(s, at)
  {
    var v, o, recorded := s.history[at], s.objects, Current(s).status.configDigest;
    var written := at == |s.history| - 1 && a.update.TookEffect();
    !Updater.IsVdbUpdated(op, v) &&
    match v.status.phase
    case Initial =>
      written && o.deployment.Some? && Validated(v, a.initialize) && InitialConfig(op, v, a.initialize) != recorded
    case KeystoreCreated => Creates(o, a.rollout) && v.status.configDigest != recorded
    case Running =>
      var c := Noticed(op, v, o, a.rollout);
      c.Some? && (if a.rollout.update.TookEffect() then !written && c.value != recorded else written)
    case _ => false
  }

  /** What an action does to the recorded digest and to the annotation. */
  lemma InitialRecords(op: Config, v: Resource, o: Objects, a: Answers)
    requires v.status.phase == Initial
    ensures
      var r := Act(op, v, o, a);
      && r.objects == o
      && r.vdb.status.configDigest ==
           if Validated(v, a.initialize) then InitialConfig(op, v, a.initialize) else v.status.configDigest
  {}

  function Hash(o: Objects): Option<string> {
    match o.deployment
    case None => None
    case Some(d) => Some(d.configHash)
  }

  lemma CreatedHash(op: Config, v: Resource, o: Objects, a: Answers)
    requires v.status.phase == KeystoreCreated
    ensures
      var r := Act(op, v, o, a);
      && r.vdb.status.configDigest == v.status.configDigest
      && Hash(r.objects) == if Creates(o, a.rollout) then Some(v.status.configDigest) else Hash(o)
  {}

  lemma RunningHash(op: Config, v: Resource, o: Objects, a: Answers)
    requires v.status.phase == Running
    ensures
      var r, c := Act(op, v, o, a), Noticed(op, v, o, a.rollout);
      && r.vdb.status.configDigest == c.GetOr(v.status.configDigest)
      && Hash(r.objects) == if c.Some? && a.rollout.update.TookEffect() then c else Hash(o)
  {}

  /** Other phases leave both alone. */
  lemma OthersKeepConfig(op: Config, v: Resource, o: Objects, a: Answers)
    requires v.status.phase != Initial && v.status.phase != KeystoreCreated && v.status.phase != Running
    ensures
      var r := Act(op, v, o, a);
      r.vdb.status.configDigest == v.status.configDigest && Hash(r.objects) == Hash(o)
  {
    if v.status.phase == BuilderImageFinished {
      BuildStep(op, v, o, a);
    }
  }

  lemma AppliedCarried(s: System, at: nat, r: Outcome, w: Write)
    requires Readable(s, at)
    ensures
      var t := Applied(s, at, r, w);
      var written := at == |s.history| - 1 && w.TookEffect() && r.vdb != s.history[at];
      var recorded := if written then r.vdb.status.configDigest else Current(s).status.configDigest;
      Carried(t) <==> (r.objects.deployment.Some? ==> Hash(r.objects) == Some(recorded))
  {}

  /** A reconcile breaks the agreement of deployment and resource if and only if the guard holds. */
  lemma DriftsExactly(op: Config, s: System, at: nat, a: Answers)
    requires Readable(s, at) && Carried(s)
    ensures !Carried(Reconciled(op, s, at, a)) <==> LosesConfig(op, s, at, a)
  {
    var v, o := s.history[at], s.objects;
    if !Updater.IsVdbUpdated(op, v) {
      var r := Act(op, v, o, a);
      ActionApplied(op, s, at, a);
      AppliedCarried(s, at, r, a.update);
      if v.status.phase == Initial {
        InitialRecords(op, v, o, a);
      } else if v.status.phase == KeystoreCreated {
        CreatedHash(op, v, o, a);
      } else if v.status.phase == Running {
        RunningHash(op, v, o, a);
      } else {
        OthersKeepConfig(op, v, o, a);
      }
    }
  }

  // ---------- runs ----------

  /** A step breaks it if and only if it is a reconcile for which the guard holds. */
  lemma StepDriftsExactly(op: Config, l: Ledger, e: Event)
    requires WellFormed(l.s) && Carried(l.s)
    ensures !Carried(Step(op, l, e).s) <==>
      e.Reconcile? && Readable(l.s, e.at) && LosesConfig(op, l.s, e.at, e.answers)
  {
    match e
    case Edit(_) =>
    case BuildProgress(_, _) =>
    case DeploymentReport(_, _) =>
    case Reconcile(at, a) =>
      if Readable(l.s, at) {
        ReconcileStep(op, l, at, a);
        AfterSystem(op, l, at, a);
        DriftsExactly(op, l.s, at, a);
      }
  }

  /** The agreement holds at every moment of the run. */
  predicate AlwaysCarried(op: Config, l: Ledger, events: seq<Event>)
    requires WellFormed(l.s)
    decreases events
  {
    Carried(l.s) && (events == [] || AlwaysCarried(op, Step(op, l, events[0]), events[1..]))
  }

  /** The guard holds at no reconcile of the run. */
  predicate NeverLoses(op: Config, l: Ledger, events: seq<Event>)
    requires WellFormed(l.s)
    decreases events
  {
    events == [] ||
    (var e := events[0];
     && !(e.Reconcile? && Readable(l.s, e.at) && LosesConfig(op, l.s, e.at, e.answers))
     && NeverLoses(op, Step(op, l, e), events[1..]))
  }

  /** Over any run the deployment carries the recorded configuration throughout if and only if the guard
      holds at no reconcile. */
  lemma {:induction false} CarriedExactly(op: Config, l: Ledger, events: seq<Event>)
    requires WellFormed(l.s) && Carried(l.s)
    ensures AlwaysCarried(op, l, events) <==> NeverLoses(op, l, events)
    decreases events
  {
    if events != [] {
      var m := Step(op, l, events[0]);
      StepDriftsExactly(op, l, events[0]);
      if Carried(m.s) {
        CarriedExactly(op, m, events[1..]);
      }
    }
  }

  // ---------- a change that is lost without any fault ----------

  lemma ConfigIgnoresReplicas(h: Digest.Hasher, spec: Spec, replicas: Option<int>,
                              revisions: EnvSource -> Option<string>)
    ensures Digest.ConfigDigest(h, spec.(replicas := replicas), revisions) == Digest.ConfigDigest(h, spec, revisions)
  {}

  /** Along the rounds of an epoch for `spec`: its configuration digest `c` is recorded from the second round
      on, and the deployment keeps the annotation `h`, or will get it. */
  predicate Tracks(l: Ledger, spec: Spec, k: nat, c: string, h: string)
    requires WellFormed(l.s)
  {
    var v := Current(l.s);
    && v.spec == spec.(replicas := v.spec.replicas)
    && (k >= 2 ==> v.status.configDigest == c && v.spec.replicas.Some?)
    && Hash(l.s.objects).GetOr(c) == h
  }

  /** What an action of the epoch does to these. */
  lemma ActTracks(op: Config, v: Resource, o: Objects, a: Answers, k: nat, c: string, h: string)
    requires 1 <= k <= 10 && v.status.phase == PhaseAfter(k) && Deployable(v.spec) && Cooperative(a)
    requires k == 1 ==> InitialConfig(op, v, a.initialize) == c
    requires k >= 2 ==> v.status.configDigest == c && v.spec.replicas.Some?
    requires k == 9 ==> o.bc.Some?
    requires Hash(o).GetOr(c) == h
    ensures
      var r := Act(op, v, o, a);
      r.vdb.status.configDigest == c && r.vdb.spec.replicas.Some? && Hash(r.objects).GetOr(c) == h
  {
    if k == 1 {
      InitialTracks(op, v, o, a);
    } else {
      ReplicasStay(op, v, o, a);
      if k == 9 {
        CreatedHash(op, v, o, a);
      } else {
        OthersKeepConfig(op, v, o, a);
      }
    }
  }

  lemma InitialTracks(op: Config, v: Resource, o: Objects, a: Answers)
    requires v.status.phase == Initial && Deployable(v.spec) && Cooperative(a)
    ensures
      var r := Act(op, v, o, a);
      && r.vdb.status.configDigest == InitialConfig(op, v, a.initialize) && r.vdb.spec.replicas.Some?
      && r.objects == o
  {}

  lemma ReplicasStay(op: Config, v: Resource, o: Objects, a: Answers)
    requires v.status.phase != Initial
    ensures Act(op, v, o, a).vdb.spec == v.spec
  {}

  lemma StepTracks(op: Config, m: Ledger, a: Answers, spec: Spec, k: nat, n: nat, c: string, h: string)
    requires After(op, m, k, n, Due) && 1 <= k <= 10 && Cooperative(a) && Offers(m.s.objects, PhaseAfter(k))
    requires Tracks(m, spec, k, c, h)
    requires k == 1 ==> InitialConfig(op, Current(m.s), a.initialize) == c
    ensures Tracks(Step(op, m, Latestly(m, a)), spec, k + 1, c, h)
  {
    var v, o := Current(m.s), m.s.objects;
    PhaseFacts(k);
    ActAdvances(op, v, o, a);
    ActTracks(op, v, o, a, k, c, h);
    StepPersists(op, m, a, Act(op, v, o, a));
  }

  lemma RoundTracks(op: Config, l: Ledger, a: Answers, spec: Spec, k: nat, n: nat, c: string, h: string)
    requires After(op, l, k, n, Due) && k <= 10 && Cooperative(a) && Tracks(l, spec, k, c, h)
    requires k == 1 ==> InitialConfig(op, Current(l.s), a.initialize) == c
    ensures Tracks(Round(op, l, a), spec, k + 1, c, h)
  {
    SettledFacts(op, l);
    SettledOffers(op, l, k, n, Due);
    if k == 0 {
      RedeployStep(op, Settled(op, l), a);
    } else {
      StepTracks(op, Settled(op, l), a, spec, k, n, c, h);
    }
  }

  /** All answers see the same revisions of the configuration. */
  ghost predicate Revised(answers: seq<Answers>, revisions: EnvSource -> Option<string>) {
    forall i :: 0 <= i < |answers| ==> answers[i].initialize.revisions == revisions
  }

  lemma {:induction false} RoundsTrack(op: Config, l: Ledger, answers: seq<Answers>, spec: Spec, n: nat,
                                       revisions: EnvSource -> Option<string>, c: string, h: string)
    requires After(op, l, 0, n, Due) && |answers| <= 11 && AllCooperate(answers) && Revised(answers, revisions)
    requires c == Digest.ConfigDigest(op.hasher, spec, revisions).GetOr("") && Tracks(l, spec, 0, c, h)
    ensures After(op, Rounds(op, l, answers), |answers|, n, Due)
    ensures Tracks(Rounds(op, l, answers), spec, |answers|, c, h)
  {
    AfterRounds(op, l, answers, n, Due);
    if answers != [] {
      var front, a := answers[..|answers| - 1], answers[|answers| - 1];
      RoundsTrack(op, l, front, spec, n, revisions, c, h);
      TrackedConfig(op, Rounds(op, l, front), a, spec, |front|, revisions, c, h);
      RoundTracks(op, Rounds(op, l, front), a, spec, |front|, n, c, h);
    }
  }

  lemma TrackedConfig(op: Config, l: Ledger, a: Answers, spec: Spec, k: nat, revisions: EnvSource -> Option<string>,
                      c: string, h: string)
    requires WellFormed(l.s) && Tracks(l, spec, k, c, h) && a.initialize.revisions == revisions
    requires c == Digest.ConfigDigest(op.hasher, spec, revisions).GetOr("")
    ensures InitialConfig(op, Current(l.s), a.initialize) == c
  {
    ConfigIgnoresReplicas(op.hasher, spec, Current(l.s).spec.replicas, revisions);
  }

  /** The last round leaves a deployment that is ready. */
  lemma LastRoundReady(op: Config, l: Ledger, a: Answers, n: nat)
    requires After(op, l, 10, n, Due) && Cooperative(a)
    ensures
      var o := Round(op, l, a).s.objects;
      o.deployment.Some? && Rollout.Ready(o.deployment.value.conditions)
  {
    var m := Settled(op, l);
    SettledOffers(op, l, 10, n, Due);
    StepAdvances(op, m, a);
    DeploymentStays(op, Current(m.s), m.s.objects, a);
  }

  lemma RunningReady(op: Config, l: Ledger, answers: seq<Answers>, n: nat)
    requires After(op, l, 0, n, Due) && |answers| == 11 && AllCooperate(answers)
    ensures
      var o := Rounds(op, l, answers).s.objects;
      o.deployment.Some? && Rollout.Ready(o.deployment.value.conditions)
  {
    AfterRounds(op, l, answers[..10], n, Due);
    LastRoundReady(op, Rounds(op, l, answers[..10]), answers[10], n);
  }

  /** A running system whose deployment carries `h` while `c` is recorded and computed. */
  predicate Drifted(op: Config, s: System, a: Answers, c: string, h: string) {
    && Up(op, s, a) && Current(s).status.configDigest == c == ConfigOf(op, Current(s), a)
    && s.objects.deployment.value.configHash == h
  }

  lemma OnceDrifted(op: Config, s: System, a: Answers, c: string, h: string)
    requires Drifted(op, s, a, c, h)
    ensures Drifted(op, Again(op, a)(s), a, c, h)
  {
    OnceInRunning(op, s, a);
  }

  lemma DriftedForever(op: Config, s: System, a: Answers, c: string, h: string, n: nat)
    requires Drifted(op, s, a, c, h)
    ensures Drifted(op, Repeated(op, s, a, n), a, c, h)
  {
    var drifted := t => Drifted(op, t, a, c, h);
    forall t | drifted(t)
      ensures drifted(Again(op, a)(t))
    {
      OnceDrifted(op, t, a, c, h);
    }
    KeptForever(Again(op, a), drifted, s, n);
  }

  /** After an edit in phase Running the next epoch begins. */
  lemma EditBegins(op: Config, l: Ledger, first: Spec, second: Spec, c: string, n: nat)
    requires After(op, l, 11, n, Due) && Tracks(l, first, 11, c, c) && l.s.objects.deployment.Some?
    requires Deployable(second)
    requires Digest.BuildDigest(op.hasher, first.source) != Digest.BuildDigest(op.hasher, second.source)
    ensures After(op, Edited(op, l, second), 0, n + 1, Due)
    ensures forall d :: Tracks(Edited(op, l, second), second, 0, d, c)
  {
    var m := Edited(op, l, second);
    assert Current(m.s) == Current(l.s).(spec := second);
    assert Current(l.s).spec.source == first.source;
  }

  /** The second of two epochs, each with its own specification and configuration. */
  lemma SecondEpoch(op: Config, start: Ledger, first: Spec, second: Spec, before: seq<Answers>, behind: seq<Answers>,
                    earlier: EnvSource -> Option<string>, later: EnvSource -> Option<string>)
    requires After(op, start, 0, 0, Due) && Deployable(second)
    requires Digest.BuildDigest(op.hasher, first.source) != Digest.BuildDigest(op.hasher, second.source)
    requires |before| == |behind| == 11 && AllCooperate(before) && AllCooperate(behind)
    requires Revised(before, earlier) && Revised(behind, later)
    requires Tracks(start, first, 0, Digest.ConfigDigest(op.hasher, first, earlier).GetOr(""),
                    Digest.ConfigDigest(op.hasher, first, earlier).GetOr(""))
    ensures
      var e := Edited(op, Rounds(op, start, before), second);
      && After(op, e, 0, 1, Due) && After(op, Rounds(op, e, behind), 11, 1, Due)
      && Tracks(Rounds(op, e, behind), second, 11, Digest.ConfigDigest(op.hasher, second, later).GetOr(""),
                Digest.ConfigDigest(op.hasher, first, earlier).GetOr(""))
  {
    var c := Digest.ConfigDigest(op.hasher, first, earlier).GetOr("");
    RoundsTrack(op, start, before, first, 0, earlier, c, c);
    var l := Rounds(op, start, before);
    EditBegins(op, l, first, second, c, 0);
    RoundsTrack(op, Edited(op, l, second), behind, second, 1, later,
                Digest.ConfigDigest(op.hasher, second, later).GetOr(""), c);
  }

  lemma DriftedAtEnd(op: Config, m: Ledger, spec: Spec, b: Answers, later: EnvSource -> Option<string>, h: string)
    requires After(op, m, 11, 1, Due) && m.s.objects.deployment.Some?
    requires Rollout.Ready(m.s.objects.deployment.value.conditions)
    requires Digest.ConfigDigest(op.hasher, spec, later).Some? && b.rollout.revisions == later
    requires b.rollout.read.None? && b.rollout.envs.Success?
    requires Tracks(m, spec, 11, Digest.ConfigDigest(op.hasher, spec, later).value, h)
    ensures Drifted(op, m.s, b, Digest.ConfigDigest(op.hasher, spec, later).value, h)
  {
    ConfigIgnoresReplicas(op.hasher, spec, Current(m.s).spec.replicas, later);
  }

  /** Two epochs without a fault, all calls successful and every build good. Between them the configuration
      and the source change. The change of the configuration is recorded, but the deployment's
      annotation stays the old one, however often the reconcile is repeated. */
  lemma EditHidesChange(op: Config, name: string, namespace: string, first: Spec, second: Spec,
                        before: seq<Answers>, behind: seq<Answers>, b: Answers,
                        earlier: EnvSource -> Option<string>, later: EnvSource -> Option<string>, n: nat)
    requires Deployable(first) && Deployable(second)
    requires Digest.BuildDigest(op.hasher, first.source) != Digest.BuildDigest(op.hasher, second.source)
    requires |before| == |behind| == 11 && AllCooperate(before) && AllCooperate(behind)
    requires Revised(before, earlier) && Revised(behind, later) && b.rollout.revisions == later
    requires b.rollout.read.None? && b.rollout.envs.Success? && b.update == Done && b.rollout.update == Done
    requires Digest.ConfigDigest(op.hasher, second, later).Some?
    ensures
      var l := Rounds(op, Edited(op, Rounds(op, Fresh(name, namespace, first), before), second), behind);
      var s := Repeated(op, l.s, b, n);
      var c := Digest.ConfigDigest(op.hasher, first, earlier).GetOr("");
      var d := Digest.ConfigDigest(op.hasher, second, later).value;
      && Drifted(op, s, b, d, c) && (c != d ==> !Carried(s))
      && (n >= 2 ==> AtRest(op, s, b))
  {
    var c := Digest.ConfigDigest(op.hasher, first, earlier).GetOr("");
    var d := Digest.ConfigDigest(op.hasher, second, later).value;
    var start := Fresh(name, namespace, first);
    FreshBefore(op, name, namespace, first);
    SecondEpoch(op, start, first, second, before, behind, earlier, later);
    var e := Edited(op, Rounds(op, start, before), second);
    RunningReady(op, e, behind, 1);
    var m := Rounds(op, e, behind);
    DriftedAtEnd(op, m, second, b, later, c);
    DriftedForever(op, m.s, b, d, c, n);
    if n >= 2 {
      RunningComesToRest(op, m.s, b, n, 0);
    }
  }
}
