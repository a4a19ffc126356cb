/** Phase Running comes to rest: with constant inputs the deployment is written at most twice. */
module Quiescence {
  import opened Outcomes
  import opened Iteration
  import opened Vdb
  import opened Cluster
  import opened Operator
  import opened Reconciler
  import Updater
  import Digest
  import Rollout

  /** The inputs of a reconcile in phase Running that stays the same: the variables and the digest of the
      configuration can be computed and the deployment can be read. */
  predicate Steady(op: Config, v: Resource, a: Answers) {
    && v.status.phase == Running && !Updater.IsVdbUpdated(op, v) && v.spec.replicas.Some?
    && a.rollout.read.None? && a.rollout.envs.Success?
    && Digest.ConfigDigest(op.hasher, v.spec, a.rollout.revisions).Some?
  }

  function ConfigOf(op: Config, v: Resource, a: Answers): string
    requires Steady(op, v, a)
  {
    Digest.ConfigDigest(op.hasher, v.spec, a.rollout.revisions).value
  }

  /** A running system whose deployment is ready. */
  predicate Up(op: Config, s: System, a: Answers) {
    && WellFormed(s) && Steady(op, Current(s), a)
    && s.objects.deployment.Some? && Rollout.Ready(s.objects.deployment.value.conditions)
  }

  /** What ensureReplicas decides to do. */
  function Plan(op: Config, s: System, a: Answers): Rollout.Plan
    requires Up(op, s, a)
  {
    Rollout.Planned(s.objects.deployment.value, Current(s), a.rollout.envs.value,
                    Some(ConfigOf(op, Current(s), a))).1
  }

  /** Whether the next reconcile writes the deployment. */
  predicate Writes(op: Config, s: System, a: Answers)
    requires Up(op, s, a)
  {
    Plan(op, s, a).Update?
  }

  function Once(op: Config, s: System, a: Answers): (t: System)
    requires WellFormed(s)
    ensures WellFormed(t)
  {
    Reconciled(op, s, |s.history| - 1, a)
  }

  function Again(op: Config, a: Answers): System -> System {
    s => if WellFormed(s) then Once(op, s, a) else s
  }

  /** After `n` reconciles of the latest version with the same answers. */
  function Repeated(op: Config, s: System, a: Answers, n: nat): System {
    Iterated(Again(op, a), s, n)
  }

  predicate InLine(op: Config, s: System, a: Answers)
    requires Up(op, s, a)
  {
    var d := s.objects.deployment.value;
    d.replicas == Current(s).spec.replicas.value && d.env == a.rollout.envs.value
  }

  predicate AtRest(op: Config, s: System, a: Answers) {
    Up(op, s, a) && InLine(op, s, a) && Current(s).status.configDigest == ConfigOf(op, Current(s), a)
  }

  /** One reconcile in phase Running, spelled out. */
  lemma OnceInRunning(op: Config, s: System, a: Answers)
    requires Up(op, s, a)
    ensures
      var v, d, t := Current(s), s.objects.deployment.value, Once(op, s, a);
      var c := ConfigOf(op, v, a);
      var changed := InLine(op, s, a) && c != v.status.configDigest;
      && Current(t) == (if changed && a.update.TookEffect() then v.(status := v.status.(configDigest := c)) else v)
      && t.objects.bc == s.objects.bc && t.objects.builds == s.objects.builds
      && t.objects.deployment == Some(
           if !a.rollout.update.TookEffect() then d
           else if changed then d.(configHash := c)
           else Rollout.InLine(d, v.spec.replicas.value, a.rollout.envs.value))
      && (Writes(op, s, a) <==> changed || !InLine(op, s, a))
      && Up(op, t, a)
  {
    var d := s.objects.deployment.value;
    var wanted := Rollout.InLine(d, Current(s).spec.replicas.value, a.rollout.envs.value);
    assert InLine(op, s, a) <==> wanted == d;
  }

  /** A system at rest stays exactly as it is. */
  lemma RestStays(op: Config, s: System, a: Answers)
    requires AtRest(op, s, a)
    ensures !Writes(op, s, a) && AtRest(op, Once(op, s, a), a)
    ensures Once(op, s, a) == s.(seen := |s.history| - 1)
  {
    OnceInRunning(op, s, a);
  }

  lemma TwoStepsToRest(op: Config, s: System, a: Answers)
    requires Up(op, s, a) && a.update == Done && a.rollout.update == Done
    ensures Up(op, Once(op, s, a), a)
    ensures AtRest(op, Once(op, Once(op, s, a), a), a)
  {
    OnceInRunning(op, s, a);
    OnceInRunning(op, Once(op, s, a), a);
  }

  /** At rest nothing is written, however often the reconcile is repeated. */
  lemma RestForever(op: Config, s: System, a: Answers, n: nat)
    requires AtRest(op, s, a)
    ensures
      var t := Repeated(op, s, a, n);
      AtRest(op, t, a) && !Writes(op, t, a) && t.objects == s.objects && t.history == s.history
  {
    var t := AfterRest(op, s, a);
    if n > 0 {
      IteratedOnce(Again(op, a), s, n - 1);
      FixedForever(Again(op, a), t, n - 1);
    }
  }

  lemma AfterRest(op: Config, s: System, a: Answers) returns (t: System)
    requires AtRest(op, s, a)
    ensures Again(op, a)(s) == t == Again(op, a)(t)
    ensures AtRest(op, t, a) && !Writes(op, s, a) && !Writes(op, t, a)
    ensures t.objects == s.objects && t.history == s.history
  {
    t := Once(op, s, a);
    RestStays(op, s, a);
    RestStays(op, t, a);
  }

  lemma IntoRest(op: Config, s: System, a: Answers) returns (t: System)
    requires Up(op, s, a) && a.update == Done && a.rollout.update == Done
    ensures Again(op, a)(Again(op, a)(s)) == t && AtRest(op, t, a)
  {
    t := Once(op, Once(op, s, a), a);
    TwoStepsToRest(op, s, a);
  }

  /** Whatever deployment there is to start with, after two reconciles or more a running system is at
      rest, and any number of further reconciles write nothing at all. */
  lemma RunningComesToRest(op: Config, s: System, a: Answers, m: nat, n: nat)
    requires Up(op, s, a) && a.update == Done && a.rollout.update == Done && m >= 2
    ensures
      var t, u := Repeated(op, s, a, m), Repeated(op, s, a, m + n);
      && AtRest(op, t, a) && AtRest(op, u, a) && !Writes(op, u, a)
      && u.objects == t.objects && u.history == t.history
  {
    var y := IntoRest(op, s, a);
    var z := AfterRest(op, y, a);
    Settles(Again(op, a), s, y, z, m);
    Settles(Again(op, a), s, y, z, m + n);
  }

  /** A change of the configuration, noticed in phase Running and recorded in the resource, reaches the
      deployment exactly when the write of the deployment takes effect. */
  lemma ChangeRolledOutExactly(op: Config, s: System, a: Answers)
    requires Up(op, s, a) && InLine(op, s, a) && a.update.TookEffect()
    requires Current(s).status.configDigest != ConfigOf(op, Current(s), a)
    requires s.objects.deployment.value.configHash != ConfigOf(op, Current(s), a)
    ensures
      var t, c := Once(op, s, a), ConfigOf(op, Current(s), a);
      && Current(t).status.configDigest == c
      && (t.objects.deployment.value.configHash == c <==> a.rollout.update.TookEffect())
  {
    OnceInRunning(op, s, a);
  }

  /** If that write is refused, the change is lost: however often the reconcile is repeated, and with
      every write succeeding, the deployment keeps the old configuration. */
  lemma RefusedChangeIsLost(op: Config, s: System, a: Answers, b: Answers, n: nat)
    requires Up(op, s, a) && InLine(op, s, a) && a.update.TookEffect() && a.rollout.update.Refused?
    requires Current(s).status.configDigest != ConfigOf(op, Current(s), a)
    requires b == a.(update := Done, rollout := a.rollout.(update := Done))
    ensures
      var t := Repeated(op, Once(op, s, a), b, n);
      && AtRest(op, t, b)
      && t.objects.deployment == s.objects.deployment
  {
    RefusedOnce(op, s, a, b);
    RestForever(op, Once(op, s, a), b, n);
  }

  lemma RefusedOnce(op: Config, s: System, a: Answers, b: Answers)
    requires Up(op, s, a) && InLine(op, s, a) && a.update.TookEffect() && a.rollout.update.Refused?
    requires Current(s).status.configDigest != ConfigOf(op, Current(s), a)
    requires b == a.(update := Done, rollout := a.rollout.(update := Done))
    ensures AtRest(op, Once(op, s, a), b)
    ensures Once(op, s, a).objects.deployment == s.objects.deployment
  {
    OnceInRunning(op, s, a);
  }
}
