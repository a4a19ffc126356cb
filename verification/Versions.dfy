/** Counting versions: a DDL without a version of its own gets a new number with every redeploy. */
module Versions {
  import opened Vdb
  import opened Numbers
  import opened Operator
  import opened Reconciler
  import opened Runs
  import opened Phases
  import Cluster
  import Digest
  import Updater
  import Initialize

  /** A specification whose version the operator counts. */
  predicate Counted(spec: Spec) {
    spec.source.ddl != "" && spec.source.version == "" && spec.source.maven == ""
  }

  /** Every edit of the run yields such a specification. */
  predicate AllCounted(events: seq<Event>) {
    forall i :: 0 <= i < |events| && events[i].Edit? ==> Counted(events[i].spec)
  }

  lemma ItoaNotEmpty(n: int)
    ensures Itoa(n) != ""
  {
    PrintedValue(if n < 0 then -n else n);
  }

  /** No action changes a version that is set. */
  lemma ActKeepsVersion(op: Config, v: Resource, o: Cluster.Objects, a: Answers)
    requires Counted(v.spec) && v.status.version != ""
    ensures Act(op, v, o, a).vdb.status.version == v.status.version
  {
    if v.status.phase == Initial {
      assert Initialize.InitialVersion(v.spec.source, v.status.version) == v.status.version;
    } else if v.status.phase == Running {
      RunningKeepsPhase(op, v, o, a);
    }
  }

  /** The step that sets the first version. */
  lemma FirstVersionIsOne(op: Config, v: Resource, a: Initialize.Answers)
    requires Counted(v.spec) && v.status.version == "" && v.status.phase == Initial
    ensures
      var (w, _) := Initialize.Handled(op, v, a);
      w.status.version == if w.status.phase == CreateCacheStore then "1" else ""
  {}

  lemma RedeployCounts(op: Config, v: Resource, n: int)
    requires Counted(v.spec) && v.status.version == Itoa(n) && MIN_INT <= n < MAX_INT
    ensures Updater.Redeployed(op, v).status.version == Itoa(n + 1)
  {
    AtoiItoa(n);
    PlusInRange(n, 1);
  }

  /** The version is the number of redeploys written so far plus a fixed offset. */
  predicate Offset(l: Ledger, offset: int)
    requires WellFormed(l.s)
  {
    Counted(Current(l.s).spec) && Current(l.s).status.version == Itoa(offset + l.redeploys)
  }

  lemma StepCounts(op: Config, l: Ledger, e: Event, offset: int)
    requires WellFormed(l.s) && Offset(l, offset) && (e.Edit? ==> Counted(e.spec))
    requires MIN_INT <= offset + l.redeploys && offset + Step(op, l, e).redeploys <= MAX_INT
    ensures Step(op, l, e).redeploys >= l.redeploys
    ensures Offset(Step(op, l, e), offset)
  {
    match e
    case Edit(spec) => EditCounts(op, l, spec, offset);
    case BuildProgress(_, _) => ObjectsDoNotCount(l, Step(op, l, e), offset);
    case DeploymentReport(_, _) => ObjectsDoNotCount(l, Step(op, l, e), offset);
    case Reconcile(at, a) =>
      if Readable(l.s, at) {
        AfterReconcileCounts(op, l, at, a, offset);
      }
  }

  lemma EditCounts(op: Config, l: Ledger, spec: Spec, offset: int)
    requires WellFormed(l.s) && Offset(l, offset) && Counted(spec)
    ensures Offset(Edited(op, l, spec), offset)
  {
    assert Current(Edited(op, l, spec).s) == Current(l.s).(spec := spec);
  }

  lemma ObjectsDoNotCount(l: Ledger, m: Ledger, offset: int)
    requires WellFormed(l.s) && Offset(l, offset) && m == l.(s := l.s.(objects := m.s.objects))
    ensures Offset(m, offset)
  {}

  lemma AfterReconcileCounts(op: Config, l: Ledger, at: nat, a: Answers, offset: int)
    requires Readable(l.s, at) && Offset(l, offset)
    requires MIN_INT <= offset + l.redeploys
    requires Redeploys(op, l.s, at, a) ==> offset + l.redeploys < MAX_INT
    ensures Offset(AfterReconcile(op, l, at, a), offset)
  {
    var n := offset + l.redeploys;
    ReconcileCounts(op, l.s, at, a, n);
    assert offset + (l.redeploys + 1) == n + 1;
  }

  lemma ReconcileCounts(op: Config, s: System, at: nat, a: Answers, n: int)
    requires Readable(s, at) && Counted(Current(s).spec)
    requires Current(s).status.version == Itoa(n)
    requires MIN_INT <= n && (Redeploys(op, s, at, a) ==> n < MAX_INT)
    ensures
      var t := Reconciled(op, s, at, a);
      && Counted(Current(t).spec)
      && Current(t).status.version == Itoa(if Redeploys(op, s, at, a) then n + 1 else n)
  {
    ItoaNotEmpty(n);
    if Updater.IsVdbUpdated(op, s.history[at]) {
      if Redeploys(op, s, at, a) {
        RedeployWritten(op, s, at, a);
        RedeployCounts(op, Current(s), n);
      }
    } else {
      ActionsDoNotCount(op, s, at, a, n);
    }
  }

  lemma ActionsDoNotCount(op: Config, s: System, at: nat, a: Answers, n: int)
    requires Readable(s, at) && Counted(Current(s).spec) && !Updater.IsVdbUpdated(op, s.history[at])
    requires Current(s).status.version == Itoa(n) != ""
    ensures
      var t := Reconciled(op, s, at, a);
      Counted(Current(t).spec) && Current(t).status.version == Itoa(n)
  {
    StatusKept(op, s, at, a);
    VersionKept(op, s, at, a);
  }

  lemma VersionKept(op: Config, s: System, at: nat, a: Answers)
    requires Readable(s, at) && Counted(Current(s).spec) && !Updater.IsVdbUpdated(op, s.history[at])
    requires Current(s).status.version != ""
    ensures Current(Reconciled(op, s, at, a)).status.version == Current(s).status.version
  {
    if at == |s.history| - 1 {
      ActKeepsVersion(op, Current(s), s.objects, a);
    }
  }

  lemma {:induction false} OffsetStays(op: Config, l: Ledger, events: seq<Event>, offset: int)
    requires WellFormed(l.s) && Offset(l, offset) && AllCounted(events)
    requires MIN_INT <= offset + l.redeploys && offset + Run(op, l, events).redeploys <= MAX_INT
    ensures Offset(Run(op, l, events), offset)
    decreases events
  {
    if events != [] {
      var m, rest := Step(op, l, events[0]), events[1..];
      RedeploysGrow(op, m, rest);
      StepCounts(op, l, events[0], offset);
      TailCounted(events);
      OffsetStays(op, m, rest, offset);
    }
  }

  /** Once the version prints `n`, it prints `n` plus the number of redeploys written since: a redeploy
      whose write is refused or conflicts is not counted, one whose answer is lost is counted once. */
  lemma VersionCounts(op: Config, l: Ledger, events: seq<Event>, n: int)
    requires WellFormed(l.s) && Counted(Current(l.s).spec) && AllCounted(events)
    requires Current(l.s).status.version == Itoa(n)
    requires MIN_INT <= n && n + (Run(op, l, events).redeploys - l.redeploys) <= MAX_INT
    ensures
      var m := Run(op, l, events);
      Current(m.s).status.version == Itoa(n + (m.redeploys - l.redeploys))
  {
    OffsetStays(op, l, events, n - l.redeploys);
  }

  lemma TailCounted(events: seq<Event>)
    requires events != [] && AllCounted(events)
    ensures AllCounted(events[1..])
  {
    forall i | 0 <= i < |events[1..]| && events[1..][i].Edit?
      ensures Counted(events[1..][i].spec)
    {
      assert events[1..][i] == events[i + 1];
    }
  }

  lemma {:induction false} RedeploysGrow(op: Config, l: Ledger, events: seq<Event>)
    requires WellFormed(l.s)
    ensures Run(op, l, events).redeploys >= l.redeploys
    decreases events
  {
    if events != [] {
      RedeploysGrow(op, Step(op, l, events[0]), events[1..]);
    }
  }

  // ---------- from the beginning ----------

  /** No version yet, or one that counts no more than the redeploys written. */
  predicate Versioned(l: Ledger)
    requires WellFormed(l.s)
  {
    var v := Current(l.s);
    Counted(v.spec) && (v.status.version == "" || exists k :: 1 <= k <= l.redeploys && v.status.version == Itoa(k))
  }

  /** Without a version every action but the first leaves it so, and the first sets "1". */
  lemma ActVersions(op: Config, v: Resource, o: Cluster.Objects, a: Answers)
    requires Counted(v.spec) && v.status.version == ""
    ensures Act(op, v, o, a).vdb.status.version in ["", "1"]
  {
    if v.status.phase == Initial {
      FirstVersionIsOne(op, v, a.initialize);
    } else if v.status.phase == Running {
      RunningKeepsPhase(op, v, o, a);
    }
  }

  lemma SourceVersioned(op: Config, s: System, at: nat, a: Answers)
    requires Readable(s, at) && Counted(Current(s).spec) && Current(s).status.version == ""
    ensures
      var t := Reconciled(op, s, at, a);
      && Counted(Current(t).spec) && Current(t).status.version in ["", "1"]
      && (Updater.IsVdbUpdated(op, Current(s)) ==> Current(t).status.version == "")
  {
    if at == |s.history| - 1 && !Updater.IsVdbUpdated(op, s.history[at]) {
      ActVersions(op, Current(s), s.objects, a);
      ActFollowsEdge(op, Current(s), s.objects, a);
      ActionApplied(op, s, at, a);
    }
  }

  lemma UpdatedAtFirst(op: Config, l: Ledger)
    requires Inv(op, l) && l.redeploys == 0
    ensures Updater.IsVdbUpdated(op, Current(l.s))
  {
    assert Digest.BuildDigest(op.hasher, Current(l.s).spec.source) != "";
  }

  lemma FirstSteps(op: Config, l: Ledger, e: Event)
    requires Inv(op, l) && Counted(Current(l.s).spec) && Current(l.s).status.version == ""
    requires e.Edit? ==> Counted(e.spec)
    ensures Step(op, l, e).redeploys >= l.redeploys
    ensures Versioned(Step(op, l, e))
  {
    if l.redeploys == 0 {
      UpdatedAtFirst(op, l);
    }
    if e.Reconcile? && Readable(l.s, e.at) {
      SourceVersioned(op, l.s, e.at, e.answers);
      FirstReconciles(op, l, e.at, e.answers);
      ReconcileStep(op, l, e.at, e.answers);
    } else {
      QuietSteps(op, l, e, Step(op, l, e));
    }
  }

  lemma QuietSteps(op: Config, l: Ledger, e: Event, m: Ledger)
    requires WellFormed(l.s) && Versioned(l) && m == Step(op, l, e) && (e.Edit? ==> Counted(e.spec))
    requires e.Reconcile? ==> !Readable(l.s, e.at)
    ensures Versioned(m) && m.redeploys == l.redeploys
  {
    assert Current(m.s).status == Current(l.s).status;
  }

  lemma FirstReconciles(op: Config, l: Ledger, at: nat, a: Answers)
    requires Readable(l.s, at) && (l.redeploys == 0 ==> Updater.IsVdbUpdated(op, Current(l.s)))
    requires
      var t := Reconciled(op, l.s, at, a);
      && Counted(Current(t).spec) && Current(t).status.version in ["", "1"]
      && (Updater.IsVdbUpdated(op, Current(l.s)) ==> Current(t).status.version == "")
    ensures Versioned(AfterReconcile(op, l, at, a)) && AfterReconcile(op, l, at, a).redeploys >= l.redeploys
  {
    AfterSystem(op, l, at, a);
    assert Itoa(1) == "1";
  }

  lemma StepVersioned(op: Config, l: Ledger, e: Event)
    requires Inv(op, l) && Versioned(l) && (e.Edit? ==> Counted(e.spec))
    requires Step(op, l, e).redeploys <= MAX_INT
    ensures Versioned(Step(op, l, e))
  {
    if Current(l.s).status.version == "" {
      FirstSteps(op, l, e);
    } else {
      var k :| 1 <= k <= l.redeploys && Current(l.s).status.version == Itoa(k);
      var m := Step(op, l, e);
      StepCounts(op, l, e, k - l.redeploys);
      assert Current(m.s).status.version == Itoa(k + (m.redeploys - l.redeploys));
    }
  }

  lemma {:induction false} RunVersioned(op: Config, l: Ledger, events: seq<Event>)
    requires Inv(op, l) && Versioned(l) && AllCounted(events) && Run(op, l, events).redeploys <= MAX_INT
    ensures Versioned(Run(op, l, events))
    decreases events
  {
    if events != [] {
      var m := Step(op, l, events[0]);
      RedeploysGrow(op, m, events[1..]);
      StepKeeps(op, l, events[0]);
      StepVersioned(op, l, events[0]);
      TailCounted(events);
      RunVersioned(op, m, events[1..]);
    }
  }

  /** In every state reached by such edits the version is empty or a number from one to the number of
      redeploys. */
  lemma VersionOfRun(op: Config, name: string, namespace: string, spec: Spec, events: seq<Event>)
    requires Counted(spec) && AllCounted(events)
    requires Run(op, Fresh(name, namespace, spec), events).redeploys <= MAX_INT
    ensures
      var l := Run(op, Fresh(name, namespace, spec), events);
      var version := Current(l.s).status.version;
      version == "" || exists k :: 1 <= k <= l.redeploys && version == Itoa(k)
  {
    FreshInv(op, name, namespace, spec);
    RunVersioned(op, Fresh(name, namespace, spec), events);
  }
}
