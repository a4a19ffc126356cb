/** pkg/controller/virtualdatabase/updater.go: noticing a changed specification and starting over. */
module Updater {
  import opened Outcomes
  import opened Vdb
  import opened Numbers
  import opened Operator
  import Digest

  predicate IsVdbUpdated(op: Config, v: Resource) {
    Digest.BuildDigest(op.hasher, v.spec.source) != v.status.digest
  }

  /** The version after a redeploy: counted up only for a DDL without a version of its own. */
  function NextVersion(source: Source, version: string): string {
    if source.ddl != "" && source.version == "" && Atoi(version).Some? then
      Itoa(Plus(Atoi(version).value, 1))
    else version
  }

  function Redeployed(op: Config, v: Resource): Resource {
    v.(status := v.status.(
      phase := Initial,
      digest := Digest.BuildDigest(op.hasher, v.spec.source),
      version := NextVersion(v.spec.source, v.status.version)))
  }

  /** After an upgrade of the operator every resource whose digest was recorded before counts as updated. */
  lemma UpgradeRedeploys(before: Config, after: Config, v: Resource)
    requires Digest.Injective(before.hasher.hash) && after.hasher.hash == before.hasher.hash
    requires after.hasher.version != before.hasher.version && !IsVdbUpdated(before, v)
    ensures IsVdbUpdated(after, v)
  {
    Digest.VersionDetected(before.hasher, after.hasher, v.spec.source);
  }

  method RedeployVdb(op: Config, vdb: VirtualDatabase)
    modifies vdb
    ensures vdb.Value() == Redeployed(op, old(vdb.Value()))
    ensures !IsVdbUpdated(op, vdb.Value())
  {
    var digest := Digest.ComputeForVirtualDatabase(op.hasher, vdb.spec.source);
    vdb.status := vdb.status.(phase := Initial, digest := digest);
    if vdb.spec.source.ddl != "" && vdb.spec.source.version == "" {
      var ver := Atoi(vdb.status.version);
      if ver.Some? {
        vdb.status := vdb.status.(version := Itoa(Plus(ver.value, 1)));
      }
    }
  }

  /** A redeploy changes the phase, the digest and at most the version. A version stays when the DDL has one of
      its own, when there is no DDL, or when it is not a number. */
  lemma RedeployOutcomes(op: Config, v: Resource)
    ensures
      var t, s := Redeployed(op, v).status, v.spec.source;
      && Redeployed(op, v) == v.(status := v.status.(phase := Initial, digest := t.digest, version := t.version))
      && !IsVdbUpdated(op, Redeployed(op, v))
      && (s.ddl == "" || s.version != "" || Atoi(v.status.version).None? ==> t.version == v.status.version)
  {}

  /** A number is counted up, and the greatest one wraps around. */
  lemma VersionCountsUp(source: Source, n: int)
    requires source.ddl != "" && source.version == "" && MIN_INT <= n <= MAX_INT
    ensures NextVersion(source, Itoa(n)) == Itoa(if n == MAX_INT then MIN_INT else n + 1)
  {
    AtoiItoa(n);
    PlusOne(n);
  }

  lemma PlusOne(n: int)
    requires MIN_INT <= n <= MAX_INT
    ensures Plus(n, 1) == if n == MAX_INT then MIN_INT else n + 1
  {}
}
