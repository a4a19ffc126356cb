/** The VirtualDatabase resource: what the user specifies and what the operator records. */
module Vdb {
  import opened Outcomes
  import opened EnvVars
  import SpringProperties

  datatype Phase =
    | Initial
    | CreateCacheStore
    | S2IReady
    | BuilderImage
    | BuilderImageFinished
    | BuilderImageFailed
    | ServiceImage
    | ServiceImageFinished
    | ServiceImageFailed
    | ServiceCreated
    | KeystoreCreated
    | Deploying
    | Running
    | Error
    | Deleting

  datatype ExposeType = LoadBalancer | NodePort | Route | ExposeVia3scale | Unknown(name: string)

  datatype Source = Source(
    version: string,
    ddl: string,
    maven: string,
    openApi: string,
    dependencies: seq<string>)

  datatype Spec = Spec(
    replicas: Option<int>,
    env: seq<EnvVar>,
    buildEnv: seq<EnvVar>,
    source: Source,
    dataSources: seq<SpringProperties.DataSource>,
    expose: seq<ExposeType>)

  datatype Status = Status(
    phase: Phase,
    digest: string,
    configDigest: string,
    failure: string,
    route: string,
    version: string,
    cacheStore: string)

  const NO_STATUS := Status(Initial, "", "", "", "", "", "")

  /** One stored version of the resource. */
  datatype Resource = Resource(name: string, namespace: string, spec: Spec, status: Status)

  /** The copy of the resource that one reconcile works on. */
  class VirtualDatabase {
    const name: string
    const namespace: string
    var spec: Spec
    var status: Status

    constructor (r: Resource)
      ensures Value() == r
    {
      name, namespace, spec, status := r.name, r.namespace, r.spec, r.status;
    }

    function Value(): Resource
      reads this
    {
      Resource(name, namespace, spec, status)
    }
  }
}
