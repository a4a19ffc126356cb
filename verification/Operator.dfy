/** What the operator process itself contributes, and what a step of it leaves behind. */
module Operator {
  import opened Outcomes
  import opened Vdb
  import Cluster
  import Digest
  import DeploymentEnvs

  /** How texts are hashed, where the operator runs, and the fixed options of every Maven build. */
  datatype Config = Config(hasher: Digest.Hasher, platform: DeploymentEnvs.Platform, buildOptions: string)

  /** The outcome of an action: the working copy, the cluster's objects and the returned error. */
  datatype Outcome = Outcome(vdb: Resource, objects: Cluster.Objects, error: Option<string>)

  function WithPhase(v: Resource, phase: Phase): Resource {
    v.(status := v.status.(phase := phase))
  }

  function WithFailure(v: Resource, failure: string): Resource {
    v.(status := v.status.(failure := failure))
  }
}
