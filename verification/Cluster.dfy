/** The objects in the cluster that a reconcile reads and writes besides the resource itself. */
module Cluster {
  import opened Outcomes
  import opened EnvVars

  /** How a write to the API server ends: done, refused without effect, or done with the answer lost. */
  datatype Write = Done | Refused(error: string) | Lost(error: string) {
    predicate TookEffect() { !Refused? }

    function Error(): Option<string> {
      match this
      case Done => None
      case Refused(e) => Some(e)
      case Lost(e) => Some(e)
    }
  }

  datatype BuildPhase =
    | BuildNew | BuildPending | BuildRunning | BuildComplete | BuildFailed | BuildError | BuildCancelled

  predicate Unsuccessful(p: BuildPhase) {
    p == BuildError || p == BuildFailed || p == BuildCancelled
  }

  predicate Terminal(p: BuildPhase) {
    p == BuildComplete || Unsuccessful(p)
  }

  /** A build: its number (0 when the annotation is missing or unreadable), the DIGEST variable it was
      started with, and how far it is. */
  datatype Build = Build(number: int, digest: string, phase: BuildPhase)

  const DIGEST := "DIGEST"

  /** `output` is the tag of the image stream that builds write. */
  datatype BuildConfigRecord = BuildConfigRecord(env: seq<EnvVar>, output: string, lastVersion: nat)

  /** The service's BuildConfig; the operator creates it with a DIGEST entry. */
  type BuildConfig = b: BuildConfigRecord | Lookup(b.env, DIGEST).Some?
    witness BuildConfigRecord([Literal(DIGEST, "")], "", 0)

  function DigestEntry(bc: BuildConfig): string {
    Lookup(bc.env, DIGEST).value.value
  }

  datatype ConditionType = Available | Progressing | ReplicaFailure

  datatype Condition = Condition(kind: ConditionType, isTrue: bool)

  datatype Deployment = Deployment(
    image: string,
    replicas: int,
    env: seq<EnvVar>,
    configHash: string,
    conditions: seq<Condition>,
    observedGeneration: int)

  datatype Objects = Objects(bc: Option<BuildConfig>, builds: seq<Build>, deployment: Option<Deployment>)

  /** The same objects, as the API server holds them. */
  class ApiServer {
    var bc: Option<BuildConfig>
    var builds: seq<Build>
    var deployment: Option<Deployment>

    constructor (o: Objects)
      ensures Value() == o
    {
      bc, builds, deployment := o.bc, o.builds, o.deployment;
    }

    function Value(): Objects
      reads this
    {
      Objects(bc, builds, deployment)
    }
  }

  /** A build starts: it gets the next number and the BuildConfig's current DIGEST. */
  function Started(bc: BuildConfig, builds: seq<Build>): (BuildConfig, seq<Build>) {
    (bc.(lastVersion := bc.lastVersion + 1), builds + [Build(bc.lastVersion + 1, DigestEntry(bc), BuildNew)])
  }

  // ---------- the latest build ----------

  /** `b` carries the highest positive number, and no earlier build carries it too. */
  predicate IsLatest(builds: seq<Build>, i: nat) {
    && i < |builds|
    && builds[i].number > 0
    && (forall j :: 0 <= j < |builds| ==> builds[j].number <= builds[i].number)
    && (forall j :: 0 <= j < i ==> builds[j].number < builds[i].number)
  }

  /** The build with the highest positive number. */
  function Latest(builds: seq<Build>): (r: Option<Build>)
    ensures r.Some? ==> r.value in builds && r.value.number > 0
    ensures forall j :: 0 <= j < |builds| ==>
      builds[j].number <= (if r.Some? then r.value.number else 0)
  {
    if builds == [] then None
    else
      var n := |builds| - 1;
      var before := Latest(builds[..n]);
      assert forall j :: 0 <= j < n ==> builds[j] == builds[..n][j];
      if builds[n].number > (if before.Some? then before.value.number else 0) then Some(builds[n]) else before
  }

  /** Among builds with the same highest number the first one listed is taken. */
  lemma {:induction false} LatestIsFirst(builds: seq<Build>) returns (i: nat)
    requires Latest(builds).Some?
    ensures IsLatest(builds, i) && Latest(builds) == Some(builds[i])
  {
    var n := |builds| - 1;
    var before := Latest(builds[..n]);
    assert forall j :: 0 <= j < n ==> builds[j] == builds[..n][j];
    if builds[n].number > (if before.Some? then before.value.number else 0) {
      i := n;
    } else {
      i := LatestIsFirst(builds[..n]);
    }
  }

  predicate DistinctNumbers(builds: seq<Build>) {
    forall i, j :: 0 <= i < j < |builds| ==> builds[i].number != builds[j].number
  }

  lemma SameMembers(a: seq<Build>, b: seq<Build>, x: Build)
    requires multiset(a) == multiset(b)
    ensures x in a <==> x in b
  {
    assert x in multiset(a) <==> x in multiset(b);
  }

  /** The order in which builds are listed does not matter when their numbers are distinct. */
  lemma LatestIgnoresOrder(a: seq<Build>, b: seq<Build>)
    requires DistinctNumbers(a) && multiset(a) == multiset(b)
    ensures Latest(a) == Latest(b)
  {
    var la, lb := Latest(a), Latest(b);
    if la.Some? {
      SameMembers(a, b, la.value);
    }
    if lb.Some? {
      SameMembers(a, b, lb.value);
    }
  }

  /** In a list numbered from one the last build is the latest. */
  lemma LatestOfNumbered(builds: seq<Build>)
    requires forall i :: 0 <= i < |builds| ==> builds[i].number == i + 1
    ensures Latest(builds) == if builds == [] then None else Some(builds[|builds| - 1])
  {
    if builds != [] {
      assert builds[|builds| - 1].number > 0;
    }
  }
}
