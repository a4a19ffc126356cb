/** pkg/controller/virtualdatabase/s2i_builder_image.go: the base image all service builds start from. */
module BuilderImage {
  import opened Outcomes
  import opened Vdb
  import opened Cluster
  import opened Operator

  /** The builder's own BuildConfig, as it is found. */
  datatype BuilderConfig = Exists(lastVersion: nat) | Missing(created: Option<string>) | Unreadable(error: string)

  /** What the cluster answers: whether image stream and base image are ready (None, or the error), the
      BuildConfig, the error of the n-th trigger if any, and the builds listed. */
  datatype Answers = Answers(
    prepared: Option<string>,
    config: BuilderConfig,
    trigger: nat -> Option<string>,
    builds: Result<seq<BuildPhase>>)

  /** The first error of triggering once for every unsuccessful build from position `i` on. */
  function Retry(builds: seq<BuildPhase>, i: nat, trigger: nat -> Option<string>): Option<string>
    requires i <= |builds|
    decreases |builds| - i
  {
    if i == |builds| then None
    else if Unsuccessful(builds[i]) && trigger(i).Some? then trigger(i)
    else Retry(builds, i + 1, trigger)
  }

  /** The first trigger of a fresh BuildConfig, or the retries of an older one. */
  function Triggered(lastVersion: nat, a: Answers): Option<string> {
    if lastVersion == 0 then a.trigger(0)
    else match a.builds
      case Failure(e) => Some(e)
      case Success(builds) => Retry(builds, 0, a.trigger)
  }

  function StartError(a: Answers): Option<string> {
    if a.prepared.Some? then a.prepared
    else match a.config
      case Unreadable(e) => Some(e)
      case Missing(created) => if created.Some? then created else Triggered(0, a)
      case Exists(lastVersion) => Triggered(lastVersion, a)
  }

  predicate Decisive(p: BuildPhase) {
    p == BuildComplete || p == BuildRunning || Unsuccessful(p)
  }

  /** The phase a decisive build stands for. */
  function Verdict(p: BuildPhase): Phase
    requires Decisive(p)
  {
    if p == BuildComplete then BuilderImageFinished
    else if p == BuildRunning then Phase.BuilderImage
    else BuilderImageFailed
  }

  /** The last decisive build in the list decides; without one the phase stays. */
  function LastDecides(builds: seq<BuildPhase>, phase: Phase): Phase {
    if builds == [] then phase
    else if Decisive(builds[|builds| - 1]) then Verdict(builds[|builds| - 1])
    else LastDecides(builds[..|builds| - 1], phase)
  }

  function Handled(v: Resource, a: Answers): (Resource, Option<string>) {
    if v.status.phase == S2IReady then
      var e := StartError(a);
      if e.Some? then (v, e) else (WithPhase(v, Phase.BuilderImage), None)
    else match a.builds
      case Failure(e) => (v, Some(e))
      case Success(builds) => (WithPhase(v, LastDecides(builds, v.status.phase)), None)
  }

  method RetryFailed(builds: seq<BuildPhase>, trigger: nat -> Option<string>) returns (error: Option<string>)
    ensures error == Retry(builds, 0, trigger)
  {
    var i := 0;
    while i < |builds|
      invariant 0 <= i <= |builds|
      invariant Retry(builds, 0, trigger) == Retry(builds, i, trigger)
    {
      if builds[i] == BuildError || builds[i] == BuildFailed || builds[i] == BuildCancelled {
        var err := trigger(i);
        if err.Some? {
          return err;
        }
      }
      i := i + 1;
    }
    return None;
  }

  method Start(a: Answers) returns (error: Option<string>)
    ensures error == StartError(a)
  {
    if a.prepared.Some? {
      return a.prepared;
    }
    var lastVersion := 0;
    match a.config {
      case Unreadable(e) => return Some(e);
      case Missing(created) =>
        if created.Some? {
          return created;
        }
      case Exists(n) => lastVersion := n;
    }
    if lastVersion == 0 {
      return a.trigger(0);
    }
    match a.builds {
      case Failure(e) => return Some(e);
      case Success(builds) => error := RetryFailed(builds, a.trigger);
    }
  }

  method Monitor(vdb: VirtualDatabase, builds: seq<BuildPhase>)
    requires vdb.status.phase == Phase.BuilderImage
    modifies vdb
    ensures vdb.Value() == WithPhase(old(vdb.Value()), LastDecides(builds, Phase.BuilderImage))
  {
    var i := 0;
    while i < |builds|
      invariant 0 <= i <= |builds|
      invariant vdb.Value() == WithPhase(old(vdb.Value()), LastDecides(builds[..i], Phase.BuilderImage))
    {
      assert builds[..i + 1][..i] == builds[..i];
      var b := builds[i];
      if b == BuildComplete && vdb.status.phase != BuilderImageFinished {
        vdb.status := vdb.status.(phase := BuilderImageFinished);
      } else if (b == BuildError || b == BuildFailed || b == BuildCancelled)
             && vdb.status.phase != BuilderImageFailed {
        vdb.status := vdb.status.(phase := BuilderImageFailed);
      } else if b == BuildRunning && vdb.status.phase != Phase.BuilderImage {
        vdb.status := vdb.status.(phase := Phase.BuilderImage);
      }
      i := i + 1;
    }
    assert builds[..i] == builds;
  }

  method Handle(vdb: VirtualDatabase, a: Answers) returns (error: Option<string>)
    requires vdb.status.phase == S2IReady || vdb.status.phase == Phase.BuilderImage
    modifies vdb
    ensures (vdb.Value(), error) == Handled(old(vdb.Value()), a)
  {
    if vdb.status.phase == S2IReady {
      var err := Start(a);
      if err.Some? {
        return err;
      }
      vdb.status := vdb.status.(phase := Phase.BuilderImage);
      return None;
    }
    match a.builds {
      case Failure(e) => return Some(e);
      case Success(builds) =>
        Monitor(vdb, builds);
        return None;
    }
  }

  // ---------- properties ----------

  /** The final phase is decided by the last decisive build and by nothing else: `before` and the
      indecisive builds behind it do not matter. */
  lemma {:induction false} OnlyLastDecides(before: seq<BuildPhase>, b: BuildPhase, after: seq<BuildPhase>, phase: Phase)
    requires Decisive(b) && forall i :: 0 <= i < |after| ==> !Decisive(after[i])
    ensures LastDecides(before + [b] + after, phase) == Verdict(b)
  {
    var all := before + [b] + after;
    if after == [] {
      assert all[|all| - 1] == b;
    } else {
      assert all[..|all| - 1] == before + [b] + after[..|after| - 1];
      OnlyLastDecides(before, b, after[..|after| - 1], phase);
    }
  }

  lemma {:induction false} NoneDecides(builds: seq<BuildPhase>, phase: Phase)
    requires forall i :: 0 <= i < |builds| ==> !Decisive(builds[i])
    ensures LastDecides(builds, phase) == phase
  {
    if builds != [] {
      NoneDecides(builds[..|builds| - 1], phase);
    }
  }

  /** In phase BuilderImage the last build that is neither new nor pending decides: a complete one finishes the
      phase, an unsuccessful one fails it, and a running one keeps it. */
  lemma MonitorOutcomes(v: Resource, a: Answers, before: seq<BuildPhase>, b: BuildPhase, after: seq<BuildPhase>)
    requires v.status.phase == Phase.BuilderImage && a.builds == Success(before + [b] + after)
    requires forall i :: 0 <= i < |after| ==> after[i] == BuildNew || after[i] == BuildPending
    ensures b == BuildComplete ==>
      Handled(v, a) == (v.(status := v.status.(phase := BuilderImageFinished)), None)
    ensures b == BuildFailed || b == BuildError || b == BuildCancelled ==>
      Handled(v, a) == (v.(status := v.status.(phase := BuilderImageFailed)), None)
    ensures b == BuildRunning ==> Handled(v, a) == (v, None)
  {
    if Decisive(b) {
      OnlyLastDecides(before, b, after, v.status.phase);
    }
  }

  /** Without such a build nothing changes; nor does it when the builds cannot be listed, which is an error. */
  lemma MonitorWaits(v: Resource, a: Answers)
    requires v.status.phase == Phase.BuilderImage
    requires a.builds.Success? ==>
      forall i :: 0 <= i < |a.builds.value| ==> a.builds.value[i] == BuildNew || a.builds.value[i] == BuildPending
    ensures Handled(v, a) == (v, if a.builds.Failure? then Some(a.builds.error) else None)
  {
    if a.builds.Success? {
      NoneDecides(a.builds.value, v.status.phase);
    }
  }

  predicate Ended(b: BuildPhase) {
    b == BuildFailed || b == BuildError || b == BuildCancelled
  }

  /** The first failing trigger of a build without success, or none when all of them are accepted. */
  lemma {:induction false} RetryExactly(builds: seq<BuildPhase>, i: nat, trigger: nat -> Option<string>)
    requires i <= |builds|
    ensures Retry(builds, i, trigger).None? <==>
      forall j :: i <= j < |builds| && Ended(builds[j]) ==> trigger(j).None?
    ensures Retry(builds, i, trigger).Some? ==>
      exists j :: i <= j < |builds| && Ended(builds[j]) && trigger(j) == Retry(builds, i, trigger)
        && forall k :: i <= k < j && Ended(builds[k]) ==> trigger(k).None?
    decreases |builds| - i
  {
    if i < |builds| {
      RetryExactly(builds, i + 1, trigger);
    }
  }

  /** S2IReady is left, for BuilderImage, if and only if everything is prepared, the BuildConfig is found or
      created, and the triggers are accepted: the first one of a fresh BuildConfig, and of an older one those for
      every build without success. Otherwise the resource stays as it is and there is an error. */
  lemma StartOutcomes(v: Resource, a: Answers)
    requires v.status.phase == S2IReady
    ensures
      var (w, error) := Handled(v, a);
      && w == (if error.None? then v.(status := v.status.(phase := Phase.BuilderImage)) else v)
      && (error.None? <==>
            && a.prepared.None? && !a.config.Unreadable? && (a.config.Missing? ==> a.config.created.None?)
            && if a.config.Missing? || (a.config.Exists? && a.config.lastVersion == 0) then a.trigger(0).None?
               else
                 && a.builds.Success?
                 && forall j :: 0 <= j < |a.builds.value| && Ended(a.builds.value[j]) ==> a.trigger(j).None?)
      && (a.prepared.Some? ==> error == a.prepared)
      && (a.prepared.None? && a.config.Unreadable? ==> error == Some(a.config.error))
      && (a.prepared.None? && a.config.Missing? && a.config.created.Some? ==> error == a.config.created)
  {
    if a.builds.Success? {
      RetryExactly(a.builds.value, 0, a.trigger);
    }
  }
}
