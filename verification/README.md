# A verified model of the Teiid operator

The Teiid operator keeps `VirtualDatabase` resources of a Kubernetes or OpenShift cluster in line with
what their users ask for: it builds an image for each of them, deploys it and keeps the deployment up to
date. This project models its logic in Dafny and proves what the logic guarantees. `dafny verify
dfyconfig.toml` checks everything.

## What is modelled

**The reconcile protocol** (`Vdb`, `Cluster`, `Operator`, `Updater`, `Initialize`, `CacheStore`,
`BuilderImage`, `ServiceImage`, `CreateService`, `CreateCertificates`, `Rollout`, `Reconciler`). Every action
has a method that works step by step on a copy of the resource and on the cluster's objects, proved equal to
a function `Handled` of the old values. `Reconciler.Act` dispatches on the phase; the method
`Reconciler.World.Reconcile` runs the loop over eight gated actions and is proved to do exactly what
`Reconciler.Reconciled` says. A reconcile may read a version of the resource that the cache is behind with, every
call gets an answer chosen from outside, and every write may be done, refused, or done with its answer lost.

**Whole runs** (`Phases`, `Runs`, `Guarantees`, `Images`, `Progress`, `Versions`, `Cooperation`, `WrongImage`,
`Quiescence`, `ConfigDrift`). A run is any sequence of user edits, progress of builds and deployments, and
reconciles. Builds carry the DIGEST they were started with. `Runs.Inv` is kept by every step; the theorems in
`Guarantees` hold in every reachable state.

**DDL** (`Ddl`, `DataSources`, `DdlPatterns`, `DdlPrinter`, `DdlRoundTrip`, `DdlMisreading`). The three regular
expressions are scanners without backtracking. Each is proved to find exactly the matches of its pattern read as a
set of texts, and the parser is proved to invert a printer.

**Environment variables** (`FirstWins`, `EnvVars`, `Proxy`, `DeploymentEnvs`, `DeployedVariables`, `SpringProperties`,
`SpringNames`, `NameMangling`) and **digests, numbers and Maven** (`Digest`, `Numbers`, `Maven`, `Pom`,
`PomContents`). The lists that are updated through pointers are a class, `EnvVars.EnvList`; so are the running hash
and the Maven project.

## What the proofs say about the code

- *Build provenance needs an assumption.* The DIGEST entry is written before the payload is built and the build is
  asked for. In a state that presupposes a build, the image is the right one if and only if the present epoch (since
  the last redeploy) has started a build, or the latest build from before already is for this digest
  (`Guarantees.EpochImageExactly`). A step goes wrong if and only if it marks the BuildConfig and then starts no build
  (`Guarantees.SyncedStep`), and for a reconcile this can be read off before the call (`Guarantees.SilentMarkExactly`).
  Mark and latest build agree throughout a run if and only if no reconcile does so (`Guarantees.SyncedExactly`).
  `WrongImage.MissingTagKeepsOldImage` is a run without any error in which one base image tag is missing for a moment
  and the resource moves on with the image of the previous source.
- *A rebuilt image is not rolled out.* A comment in the deployment action promises that a new image is. But the image's
  name never changes (`Images.OneImageName`). A reconcile changes an existing deployment if and only if it acts in
  phase Running and writes other replicas or variables, or a configuration digest that the deployment does not carry
  (`Images.RewritesExactly`); over whole runs, whatever is rebuilt, the deployment stays the same if and only if no
  reconcile does so (`Images.SameExactly`). "The image" in the results on provenance is what the image stream holds.
- *A changed configuration can be lost.* Two writes are not atomic: in phase Running the new digest is recorded in the
  resource even when the write of the deployment fails (`Quiescence.RefusedChangeIsLost`). And without any fault:
  initializing records the digest too, an existing deployment is not touched before Running, and there the digests
  are equal, so that its annotation stays the old one (`ConfigDrift.EditHidesChange`). `ConfigDrift.DriftsExactly`
  says for every reconcile exactly when it loses a change, and `ConfigDrift.CarriedExactly` for whole runs.
- *A deployment that progresses is not given up.* Over whole runs the resource goes from Deploying to Error only on a
  report without availability and progress, from the fourth generation on (`Progress.ProgressNeverFails`).
- *Failures of create-service do not stop the phase.* Its Error assignments are overwritten; only the message stays
  (`CreateService.Handle`).
- *Reading a DDL back needs care with CREATE.* A quoted name that ends in `CREATE--`, followed by a comment that
  holds the rest of a wrapper declaration, is read as two data sources (`DdlMisreading.ReadAsTwo`, and a concrete text
  in `DdlMisreading.ExampleMisread`). A text of printed declarations is read back if and only if no pattern for the
  other kind of declaration matches anywhere in any of them (`DdlMisreading.ReadBackExactly`). A condition that is
  easier to see is enough (`DdlRoundTrip.ParsingInvertsPrinting`): no CREATE inside a comment, a quoted name or the
  tail is, or could be, followed by space or a comment, and the tail does not start with a keyword of the patterns;
  with plain names and space between the words that is always so (`DdlRoundTrip.PlainIsPrintable`).
- *Remove* is a map delete if and only if at most one entry has the name (`EnvVars.DropIsMapDeleteExactly`);
  otherwise it uncovers the next one (`EnvVars.LookupDrop`).
- *The build digest* does not notice text that moves across the boundary of two fields or dependencies
  (`Digest.BoundaryMoveUndetected`, `Digest.DependencyMoveUndetected`).
- *ParseGAV* departs from the form in its comment, which asks for a version: any text in which some colon stands
  between two characters other than colon and space is accepted (`Maven.AcceptedExactly`), and two parts yield an empty
  version (`Maven.TwoPartsAccepted`). The model follows the code.

## Model

| member | source | states |
|---|---|---|
| Guarantees.BuildConfigAgreement | pkg/controller/virtualdatabase/service_image.go:64-143 | in every reachable state of phase ServiceImage, ServiceImageFinished, ServiceImageFailed, ServiceCreated, KeystoreCreated, Deploying or Running the BuildConfig's DIGEST entry is the resource's digest, with faults, stale reads and lost writes everywhere |
| Guarantees.EpochBounds | pkg/controller/virtualdatabase/service_image.go:112-142 | between two redeploys at most one service build is started, however often the final update conflicts or an answer is lost, and the phase changes at most ten times |
| Guarantees.NoRedeployLoop | pkg/controller/virtualdatabase/virtualdatabase_controller.go:102-109 | in every reachable state: builds <= redeploys <= digest-relevant edits + 1 |
| Guarantees.OneChange | pkg/controller/virtualdatabase/virtualdatabase_controller.go:100-149 | a reconcile writes at most one version of the resource; unless it starts over, the phase stays or follows one edge of the graph to a higher rank, and digest and source stay |
| Guarantees.EpochClimbs | pkg/controller/virtualdatabase/virtualdatabase_controller.go:103-149 | over any run without a redeploy the rank grows by at least the number of phase changes, and BuilderImageFailed, ServiceImageFailed, Error and Deleting keep the whole status |
| Guarantees.BuiltEpochHasImage | pkg/controller/virtualdatabase/service_image.go:112-140 | in every reachable state of a phase that presupposes a build: if the present epoch has started a build, the latest build is complete and was started for exactly Status.Digest, whatever went wrong in earlier epochs |
| Guarantees.EpochImageExactly | pkg/controller/virtualdatabase/service_image.go:112-140 | from any state of the invariant that begins an epoch, and over any run without a redeploy: in such a phase the image is the right one if and only if the epoch has started a build, or the latest build from before already is for this digest |
| Guarantees.EpochDigest | pkg/controller/virtualdatabase/service_image.go:112-142 | within an epoch the latest build keeps its digest until a build is started, and then carries the resource's |
| Guarantees.ProvenanceExactly | pkg/controller/virtualdatabase/service_image.go:112-140 | in every reachable state of such a phase: the image is the right one if and only if the latest build was started with the BuildConfig's present DIGEST |
| Guarantees.SyncedStep | pkg/controller/virtualdatabase/service_image.go:116-140 | from a state where they agree, a step breaks the agreement of mark and latest build if and only if it changes the mark of a BuildConfig that has built before without starting a build |
| Guarantees.SilentMarkExactly | pkg/controller/virtualdatabase/service_image.go:112-140 | a reconcile does so if and only if a guard on the version read, the objects and the answers holds: it gets as far as marking, and then the answer is lost, the payload fails, the tag is missing or the request does not take effect |
| Guarantees.StepMarksExactly | pkg/controller/virtualdatabase/service_image.go:112-140 | a step marks the BuildConfig silently if and only if it is a reconcile for which that guard holds |
| Guarantees.SyncedExactly | pkg/controller/virtualdatabase/service_image.go:112-140 | over any run from a state where they agree, mark and latest build agree at every moment if and only if the guard holds at no reconcile |
| Guarantees.BuildProvenance | pkg/controller/virtualdatabase/service_image.go:112-140 | if the guard holds at no reconcile of a run, every state that presupposes a build has a complete latest build for exactly Status.Digest, for any edits, conflicts and other lost answers |
| WrongImage.MissingTagKeepsOldImage | pkg/controller/virtualdatabase/service_image.go:407-412 | for any two sources with different digests there is a run without errors, but for a missing tag, that reaches ServiceImageFinished with the first source's build as the latest one |
| Images.OneImageName | pkg/controller/virtualdatabase/deployment.go:82-94 | in every reachable state the BuildConfig writes and the deployment runs the tag of the resource's name and "latest", so comparing image names never calls for an update |
| Images.DeploymentWaits | pkg/controller/virtualdatabase/deployment.go:60-96 | in no phase but Running does an action touch a deployment with the BuildConfig's tag, whatever the answers |
| Images.RewritesExactly | pkg/controller/virtualdatabase/deployment.go:60-157 | in any state with one image name, whatever version is read: a reconcile changes an existing deployment if and only if a guard on version, deployment and answers holds: phase Running, a readable and ready deployment, a write that takes effect, and other replicas or variables, or else a noticed configuration digest that the deployment does not carry |
| Images.StepRewritesExactly | pkg/controller/virtualdatabase/deployment.go:60-157 | so for every step of a run, up to what the cluster reports about the deployment |
| Images.SameExactly | pkg/controller/virtualdatabase/deployment.go:60-157 | over any run, whatever is edited and built, the deployment keeps image, replicas, variables and annotation at every moment if and only if the guard holds at no reconcile |
| Images.RebuiltImageWaits | pkg/controller/virtualdatabase/deployment.go:82-94 | so it keeps them over any run in which no reconcile acts in phase Running, however often the image is rebuilt |
| Runs.StepKeeps | pkg/controller/virtualdatabase/virtualdatabase_controller.go:60-155 | every step of every run keeps the invariant on cache, build numbers, BuildConfig agreement and tally |
| Runs.RunKeeps | pkg/controller/virtualdatabase/virtualdatabase_controller.go:60-155 | so does every run |
| Runs.ActKeepsCache | pkg/controller/virtualdatabase/virtualdatabase_controller.go:66-68 | after any reconcile a version the cache may still yield leads to a build, if at all, for the current digest only |
| Runs.ActKeepsBuilds | pkg/controller/virtualdatabase/service_image.go:64-191 | a reconcile, whatever version it read, keeps build numbering, BuildConfig agreement in late phases and a complete latest build in finished ones |
| Runs.RedeployKeeps | pkg/controller/virtualdatabase/virtualdatabase_controller.go:102-109 | a redeploy, whether it is written, refused or in conflict, keeps the invariant |
| Cooperation.StepAdvances | pkg/controller/virtualdatabase/virtualdatabase_controller.go:111-149 | when all calls succeed and the cluster offers what the phase waits for, one reconcile writes exactly one version, in the next phase, with the same digest and specification but for defaulted replicas |
| Cooperation.ElevenRounds | pkg/controller/virtualdatabase/virtualdatabase_controller.go:87-149 | from a fresh resource Running is reached after exactly eleven cooperative rounds and not before, with one build, for the digest of the specification |
| Cooperation.EveryEpochReachesRunning | pkg/controller/virtualdatabase/virtualdatabase_controller.go:87-149 | from any state in which a deployable specification has changed and the BuildConfig is not marked for it, exactly eleven cooperative rounds reach Running, with exactly one more build, for the digest wanted |
| Cooperation.MarkedEpochExactly | pkg/controller/virtualdatabase/virtualdatabase_controller.go:87-149 | when the BuildConfig is already marked for the changed specification, as by an edit and its reverse, eleven cooperative rounds start no build; they reach Running if and only if the latest build has not failed, and otherwise stop at ServiceImageFailed |
| Versions.VersionCounts | pkg/controller/virtualdatabase/updater.go:41-49 | while every edit leaves a DDL without version and Maven, a version that prints n prints n plus the number of redeploys written since; refused or conflicting updates are not counted, an update whose answer is lost is counted once |
| Versions.VersionOfRun | pkg/controller/virtualdatabase/updater.go:41-49 | in every state reached from a fresh resource by such edits the version is empty or a number from one to the number of redeploys written |
| Versions.ActKeepsVersion | pkg/controller/virtualdatabase/initialize.go:92-111 | no action changes a version that is set |
| Quiescence.RunningComesToRest | pkg/controller/virtualdatabase/deployment.go:118-157 | with constant inputs and any starting deployment, a running system is at rest after two reconciles, and any number of further ones write nothing |
| Quiescence.ChangeRolledOutExactly | pkg/controller/virtualdatabase/deployment.go:136-155 | a changed configuration that a reconcile in phase Running notices and records reaches the deployment in that reconcile if and only if the write of the deployment takes effect |
| Quiescence.RefusedChangeIsLost | pkg/controller/virtualdatabase/deployment.go:136-155 | if that write is refused, the deployment keeps the old configuration for good, however often the reconcile is repeated with every write succeeding |
| ConfigDrift.DriftsExactly | pkg/controller/virtualdatabase/deployment.go:60-157 | a reconcile breaks the agreement of the deployment's annotation with Status.ConfigDigest if and only if a guard on version, objects and answers holds: a new digest is recorded by initializing while a deployment is there, a deployment is created from an outdated version, or of the two writes in phase Running just one takes effect |
| ConfigDrift.StepDriftsExactly | pkg/controller/virtualdatabase/initialize.go:75-89 | so for every step of a run: only a reconcile with that guard breaks it |
| ConfigDrift.CarriedExactly | pkg/controller/virtualdatabase/virtualdatabase_controller.go:60-155 | over any run the agreement holds at every moment if and only if the guard holds at no reconcile |
| ConfigDrift.EditHidesChange | pkg/controller/virtualdatabase/initialize.go:75-89 | two epochs without any fault: if configuration and source change between them, the new configuration digest is recorded, and the deployment keeps the annotation with the old one, at rest and however often the reconcile is repeated |
| Quiescence.RestStays | pkg/controller/virtualdatabase/deployment.go:106-157 | a system at rest is left exactly as it is |
| Progress.FailsExactly | pkg/controller/virtualdatabase/deployment.go:97-106 | a step of a run takes the resource from Deploying to Error if and only if it is a reconcile on the latest version that is due for no redeploy, can read a deployment with conditions of which none is Available or Progressing and true, from the fourth observed generation on, and whose write takes effect |
| Progress.ProgressNeverFails | pkg/controller/virtualdatabase/deployment.go:97-106 | over any run in which every report on the deployment is one of availability or of progress, or comes before the fourth generation, no step goes from Deploying to Error, whatever is edited, built, lost or read late |
| Phases.ActFollowsEdge | pkg/controller/virtualdatabase/virtualdatabase_controller.go:112-118 | an action follows at most one edge and leaves source, digest and identity as they are, so none causes a redeploy |
| Phases.RunningKeepsPhase | pkg/controller/virtualdatabase/deployment.go:106-114 | in phase Running only the configuration digest and the deployment can change |
| Phases.BuildFacts | pkg/controller/virtualdatabase/service_image.go:80-143 | buildServiceImage starts at most one build, numbered next, for the resource's digest and only when one is due; without an error the BuildConfig ends up marked with that digest |
| Phases.OthersKeepBuilds | pkg/controller/virtualdatabase/service_image.go:59-77 | outside BuilderImageFinished no action touches the BuildConfig or the builds |
| Phases.FinishedByCompleteBuild | pkg/controller/virtualdatabase/service_image.go:168-189 | a finished phase is entered only from ServiceImage and only when the latest build is complete |
| Reconciler.World.Reconcile | pkg/controller/virtualdatabase/virtualdatabase_controller.go:60-155 | the digest gate, the loop over the gated actions and the one write leave exactly the system that dispatch on the phase gives. An error is reported only when a write of the resource was tried: the conflict of a stale version, else the answer of the write, else, after a good one, the error of the action; without anything to write the reconcile comes again after five seconds and the error of the action is dropped |
| Reconciler.World.Update | pkg/controller/virtualdatabase/virtualdatabase_controller.go:126-132 | a write succeeds only on top of the latest version; a stale one conflicts and changes nothing |
| Reconciler.Handle | pkg/controller/virtualdatabase/virtualdatabase_controller.go:112-121 | each gated action does what the dispatch says for its phases; the monitoring action touches neither the resource nor the modelled objects |
| Updater.RedeployVdb | pkg/controller/virtualdatabase/updater.go:36-52 | phase, digest and version start over, and afterwards the resource does not count as updated |
| Updater.UpgradeRedeploys | pkg/controller/virtualdatabase/updater.go:27-34 | after an upgrade of the operator every resource whose digest was recorded before counts as updated |
| Updater.RedeployOutcomes | pkg/controller/virtualdatabase/updater.go:36-52 | a redeploy changes phase, digest and at most the version, which stays for a DDL with a version of its own, without a DDL, or when it is not a number |
| Updater.VersionCountsUp | pkg/controller/virtualdatabase/updater.go:41-49 | otherwise the number n becomes n plus one, and the greatest 64-bit number the least |
| Initialize.Handle | pkg/controller/virtualdatabase/initialize.go:48-90 | validation errors leave only a message, otherwise the failure is cleared and phase, replicas, version and both digests are set; an unreadable reference empties the configuration digest and is reported |
| Initialize.ValidatedExactly | pkg/controller/virtualdatabase/initialize.go:55-74 | phase Initial is left if and only if every variable is named by a capital followed by capitals, digits and underscores, and every variable and data source property is literal or refers to a key that exists; a bad name is an error, a missing key only a message, and nothing else changes |
| Initialize.InitializedValues | pkg/controller/virtualdatabase/initialize.go:75-111 | the values after validation: one replica unless the user says otherwise, no failure, both digests, the configuration one empty with an error if something cannot be read, and as version that of a Maven coordinate, or "1" for a first DDL without one, or what it was |
| Initialize.Init | pkg/controller/virtualdatabase/initialize.go:92-111 | replicas default to one; the version is the source's first one or that of the Maven coordinate; nothing else changes |
| CacheStore.Handle | pkg/controller/virtualdatabase/cachestore.go:76-115 | the phase always moves on; the store is recorded only when it was wanted, not configured and could be created |
| CacheStore.IgnoreCacheStore | pkg/controller/virtualdatabase/cachestore.go:58-73 | ignored exactly when the operator for it is missing or the user's flag parses as true |
| BuilderImage.Handle | pkg/controller/virtualdatabase/s2i_builder_image.go:64-159 | S2IReady moves on exactly when preparing, creating and triggering have no error; BuilderImage takes the phase the listed builds decide |
| BuilderImage.Monitor | pkg/controller/virtualdatabase/s2i_builder_image.go:145-156 | the loop leaves the phase of the last decisive build |
| BuilderImage.RetryFailed | pkg/controller/virtualdatabase/s2i_builder_image.go:129-137 | one trigger for each unsuccessful build, up to the first error |
| BuilderImage.OnlyLastDecides | pkg/controller/virtualdatabase/s2i_builder_image.go:145-156 | the last build that is complete, running or unsuccessful decides; what stands before it and indecisive builds behind it do not matter |
| BuilderImage.NoneDecides | pkg/controller/virtualdatabase/s2i_builder_image.go:145-156 | without a decisive build the phase stays |
| BuilderImage.MonitorOutcomes | pkg/controller/virtualdatabase/s2i_builder_image.go:139-157 | in phase BuilderImage the last build that is neither new nor pending leads to BuilderImageFinished if it is complete, to BuilderImageFailed if it has failed, is in error or was cancelled, and keeps the phase if it runs |
| BuilderImage.RetryExactly | pkg/controller/virtualdatabase/s2i_builder_image.go:129-137 | the retries have an error if and only if some trigger for a failed, cancelled or erroneous build has, and then it is the first one |
| BuilderImage.StartOutcomes | pkg/controller/virtualdatabase/s2i_builder_image.go:64-138 | S2IReady is left for BuilderImage if and only if everything is prepared, the BuildConfig is found or created, and the first trigger of a fresh one, or of an older one all triggers for builds without success, are accepted; otherwise there is an error and nothing changes |
| ServiceImage.Handle | pkg/controller/virtualdatabase/service_image.go:64-77 | building leads to ServiceImage or, with the error as message, to Error; monitoring takes the phase of the latest build |
| ServiceImage.BuildServiceImage | pkg/controller/virtualdatabase/service_image.go:80-143 | objects and error after every combination of answers: missing source, image stream, get or create, the DIGEST guard, marking, payload, trigger |
| ServiceImage.BuildSucceedsExactly | pkg/controller/virtualdatabase/service_image.go:80-143 | there is no error if and only if there is a source, image stream and BuildConfig are there or created, and, when no build has been made for the digest, the mark is written, the payload built, and the build asked for or its tag missing |
| ServiceImage.MarkBuildConfig | pkg/controller/virtualdatabase/service_image.go:116-121 | the DIGEST entry is the resource's digest exactly when the write takes effect; builds and deployment stay |
| ServiceImage.BuildKeepsVariables | pkg/controller/virtualdatabase/service_image.go:80-143 | whatever is answered, buildServiceImage keeps the tag and, in their order, all variables but DIGEST of the BuildConfig there was, or of the new one |
| ServiceImage.TriggerBuild | pkg/controller/virtualdatabase/service_image.go:395-441 | a missing tag is no error and starts nothing; a posted request starts the next numbered build with the present DIGEST |
| ServiceImage.MonitorServiceImage | pkg/controller/virtualdatabase/service_image.go:154-191 | the loop with maxBuildNumber finds the latest build, and its phase decides |
| ServiceImage.MonitorOutcomes | pkg/controller/virtualdatabase/service_image.go:154-191 | the build with the highest positive number, the first listed of several, leads to ServiceImageFinished if it is complete, to ServiceImageFailed if it has failed, is in error or was cancelled, and otherwise keeps the phase; nothing else changes |
| ServiceImage.NewServiceBC | pkg/controller/virtualdatabase/service_image.go:224-285 | the variables are the user's build variables, the proxy settings and three set entries, the last of them DIGEST; builds write the tag of the resource's name and "latest" |
| ServiceImage.NewConfigVariables | pkg/controller/virtualdatabase/service_image.go:224-285 | for every name: the variables of a new BuildConfig have unique names; DIGEST, DEPLOYMENTS_DIR and MAVEN_ARGS have their fixed values whatever the user sets; any other is the user's build variable, or a proxy variable of the cluster when the user sets none of the three |
| ServiceImage.NewConfig | pkg/controller/virtualdatabase/service_image.go:224-285 | a new BuildConfig has not built and is marked with the resource's digest, whatever the user puts into the build variables |
| Cluster.LatestIsFirst | pkg/controller/virtualdatabase/service_image.go:168-178 | the build found carries the highest positive number; among equals it is the first listed |
| Cluster.LatestIgnoresOrder | pkg/controller/virtualdatabase/service_image.go:168-178 | with distinct numbers it is the same for every permutation of the list |
| Cluster.Latest | pkg/controller/virtualdatabase/service_image.go:168-178 | no build has a higher number, and none is found only if no number is positive |
| CreateService.Handle | pkg/controller/virtualdatabase/create-service.go:58-120 | from ServiceImageFinished the phase is always ServiceCreated; failures leave a message, success the route |
| CreateService.Expose | pkg/controller/virtualdatabase/create-service.go:74-105 | the last entry that speaks about routes decides about the route, the last failing external service about the message |
| CreateService.RouteExactly | pkg/controller/virtualdatabase/create-service.go:74-105 | a route is wanted if and only if behind every entry for 3scale there is one for a route |
| CreateService.LastFailureStays | pkg/controller/virtualdatabase/create-service.go:74-105 | the last entry whose external service cannot be created leaves its message, and without one the old message stays |
| CreateCertificates.Handle | pkg/controller/virtualdatabase/create-certificates.go:51-98 | the phase moves on exactly when the secret is there or every step succeeds; otherwise the first error and no change |
| CreateCertificates.KeystoreExactly | pkg/controller/virtualdatabase/create-certificates.go:51-98 | KeystoreCreated is reached if and only if the secret is there, or the certificates yield a key store, the trusted certificate a trust store, and the secret of these two is created |
| Rollout.Handle | pkg/controller/virtualdatabase/deployment.go:60-116 | creating the deployment or bringing its image in line, watching it and keeping it in line, for every answer, as the following rows say phase by phase |
| Rollout.DeployedOutcomes | pkg/controller/virtualdatabase/deployment.go:60-96 | KeystoreCreated is left if and only if there is no error; a deployment that can be read is never created anew, and only its image changes, to what the BuildConfig writes; otherwise one is created if and only if BuildConfig and variables are there, none exists and the write takes effect |
| Rollout.DeployedAsComputed | pkg/controller/virtualdatabase/deployment.go:291-298 | a new deployment carries exactly the variables that deploymentEnvironments computes, although the proxy settings are handed down twice |
| Rollout.DeployingOutcomes | pkg/controller/virtualdatabase/deployment.go:97-106 | from Deploying to Running if and only if the deployment can be read and some condition is Available and true; to Error if and only if it can be read, there are conditions, none is Available or Progressing and true, and the observed generation is at least four; otherwise the phase stays, and nothing else changes |
| Rollout.RunningOutcomes | pkg/controller/virtualdatabase/deployment.go:106-157 | in phase Running an available deployment gets the wanted replicas and variables in one write; when it has them, a new configuration digest is recorded and written to it; when that is recorded already, nothing happens |
| Rollout.EnsureReplicas | pkg/controller/virtualdatabase/deployment.go:118-157 | replicas and variables are brought in line first; only when they are, a changed configuration is recorded and rolled out |
| Rollout.IsDeploymentInReadyState | pkg/controller/virtualdatabase/deployment.go:183-192 | some condition is Available and true |
| Rollout.IsDeploymentProgressing | pkg/controller/virtualdatabase/deployment.go:194-208 | no conditions, an observed generation below four, or some condition Progressing and true |
| Digest.DigestFaithful | pkg/controller/virtualdatabase/digest.go:60-98 | with an injective hash two sources, also under different operator versions, have the same digest if and only if version, DDL, Maven, OpenAPI and dependencies concatenate to the same text |
| Digest.VersionDetected | pkg/controller/virtualdatabase/digest.go:62-65 | with an injective hash a new operator version gives every source another digest |
| Digest.SingleEditDetected | pkg/controller/virtualdatabase/digest.go:60-98 | an edit of exactly one of DDL, Maven, OpenAPI or one dependency always changes the digest |
| Digest.BoundaryMoveUndetected | pkg/controller/virtualdatabase/digest.go:68-86 | text moved from the end of the DDL to the start of Maven, or from there to OpenAPI, never changes it |
| Digest.DependencyMoveUndetected | pkg/controller/virtualdatabase/digest.go:81-95 | nor does text moved from OpenAPI to the first dependency or from any dependency to the next |
| Digest.ComputeForVirtualDatabase | pkg/controller/virtualdatabase/digest.go:60-98 | the field-by-field hash is the hash of the concatenation |
| Digest.ComputeConfigDigest | pkg/controller/virtualdatabase/digest.go:34-56 | so is the hash of the revisions of all references; one unreadable reference fails the whole digest |
| Digest.RevisionDetected | pkg/util/kubernetes/util.go:300-326 | with an injective hash a new revision of one ConfigMap or Secret that a variable or a data source property refers to always changes the configuration digest, however many do |
| Digest.LiteralDetected | pkg/util/kubernetes/util.go:300-326 | so does another literal value of a variable |
| Digest.PropertyDetected | pkg/util/kubernetes/util.go:300-326 | and another literal value of a data source property |
| Digest.NameDetected | pkg/controller/virtualdatabase/digest.go:44-53 | and another name of a data source |
| Digest.UnreadableExactly | pkg/controller/virtualdatabase/digest.go:34-56 | there is no configuration digest if and only if a variable or a property without a value of its own refers to a ConfigMap or Secret that cannot be read |
| Numbers.AtoiItoa | pkg/controller/virtualdatabase/updater.go:44-46 | every 64-bit integer is read back from its decimal print |
| Numbers.AtoiPadded | pkg/controller/virtualdatabase/updater.go:44-46 | so it is with a plus sign and leading zeros |
| EnvVars.EnvList.Get | pkg/util/envvar/envvar.go:25-36 | the first entry of that name, or none |
| EnvVars.EnvList.SetVal | pkg/util/envvar/envvar.go:51-63 | the first entry of that name becomes the literal, or it is appended |
| EnvVars.EnvList.SetVar | pkg/util/envvar/envvar.go:66-81 | the first entry of that name becomes the given one, or it is appended |
| EnvVars.EnvList.SetValueFrom | pkg/util/envvar/envvar.go:107-119 | the first entry of that name becomes the reference, or it is appended |
| EnvVars.EnvList.Remove | pkg/util/envvar/envvar.go:39-48 | the first entry of that name is cut out |
| EnvVars.AddAll | pkg/util/envvar/envvar.go:122-149 | the loop that sets what is not there yet leaves the first entries of all names |
| EnvVars.Combine | pkg/util/envvar/envvar.go:122-137 | the first entries of all names of both sets, in order |
| EnvVars.Clone | pkg/util/envvar/envvar.go:140-149 | the first entries of all names, in order |
| EnvVars.LookupPut | pkg/util/envvar/envvar.go:51-119 | after a write its name yields what was written and every other name what it did before |
| EnvVars.PutNames | pkg/util/envvar/envvar.go:51-119 | a write keeps the names or appends its own |
| EnvVars.PutRefinesMapUpdate | pkg/util/envvar/envvar.go:51-119 | on every list a write is a map update that keeps all other entries in their order, and uniqueness |
| EnvVars.DropIsMapDeleteExactly | pkg/util/envvar/envvar.go:39-48 | Remove is a map delete if and only if at most one entry has the name |
| EnvVars.LookupDrop | pkg/util/envvar/envvar.go:39-48 | on every list: after Remove its name yields the next entry of that name, every other name what it did before |
| EnvVars.DropKeepsOthers | pkg/util/envvar/envvar.go:39-48 | on every list Remove keeps the entries of other names in their order |
| EnvVars.LookupCombined | pkg/util/envvar/envvar.go:122-137 | a lookup in a combination is the first set's, then the second's |
| EnvVars.CombineAssociative | pkg/util/envvar/envvar.go:122-137 | Combine is associative, duplicates included |
| EnvVars.CloneAlgebra | pkg/util/envvar/envvar.go:122-149 | Combine(A, B) is Clone(A ++ B), Clone is idempotent, and the names of the result are unique |
| EnvVars.CombineOrder | pkg/util/envvar/envvar.go:122-137 | entries stand in the order in which their names first occur |
| Proxy.HTTPSettings | pkg/util/proxy/proxy.go:30-69 | the cluster's layer is appended whole or, if the user sets any proxy variable, not at all; the Java properties are those of the resulting list |
| Proxy.SettingsLookup | pkg/util/proxy/proxy.go:30-51 | every variable is the user's; the cluster's HTTPS_PROXY, HTTP_PROXY or NO_PROXY counts if and only if the user sets none of the three and the cluster sets one of them to something |
| Proxy.PropertiesByVariable | pkg/util/proxy/proxy.go:53-69 | HTTP_PROXY replaces all properties that HTTPS_PROXY gave, and NO_PROXY adds http.nonProxyHosts unless no host is left |
| Proxy.ParseNoProxy | pkg/util/proxy/proxy.go:71-83 | the trimmed hosts joined by bars, without leading empty ones |
| Proxy.HostsJoined | pkg/util/proxy/proxy.go:71-83 | hosts separated by commas, with any spaces around each of them, become the same hosts separated by bars; empty ones are left out at the start and kept everywhere else |
| Proxy.SettingsTwice | pkg/util/proxy/proxy.go:30-69 | handing the settings down a second time changes nothing, whatever was combined in between |
| DeploymentEnvs.GetDefaultEnvs | pkg/controller/virtualdatabase/default_envs.go:29-98 | the user's variables and the proxy settings, combined with the defaults |
| DeploymentEnvs.DeploymentEnvironments | pkg/controller/virtualdatabase/deployment.go:211-230 | from the resource, the DDL, the connection factories and what the cluster holds: the first error, or the clone of all layers one after the other, the last of them the settings of the data sources that the DDL declares |
| DeploymentEnvs.DeployedVariable | pkg/controller/virtualdatabase/deployment.go:211-230 | names are unique, and each variable is what user, proxy, defaults, Jaeger or cache store say, in that order, or otherwise the last write of a declared data source's setting |
| DeployedVariables.NoEnvironment | pkg/controller/virtualdatabase/deployment.go:211-222 | there is no list if and only if a Maven source's DDL cannot be had, or a configured source that the DDL declares has a space in its name or in a property's name |
| DeployedVariables.UserVariable | pkg/controller/virtualdatabase/deployment.go:222 | a variable of the user is never replaced |
| DeployedVariables.DefaultVariable | pkg/controller/virtualdatabase/default_envs.go:29-98 | JAVA_APP_DIR, JAVA_OPTIONS, JAVA_DEBUG, AB_JMX_EXPORTER_CONFIG, NAMESPACE, TEIID_NODENAME and TEIID_PODNAME have their fixed values unless the user sets them, whatever the data sources set |
| DeployedVariables.JaegerVariable | pkg/controller/virtualdatabase/default_envs.go:100-115 | the three JAEGER variables have their values, unless the user sets them, if and only if an instance is named and found; otherwise they are what the data sources set |
| DeployedVariables.CacheStoreVariable | pkg/util/cachestore/infinispan.go:128-184 | user, password and URL of the cache store refer to the resource's own secret if it exists and else to the shared one, with mode and name beside them, if and only if a store is recorded; otherwise they are what the data sources set |
| DeployedVariables.CacheStoreReaches | pkg/controller/virtualdatabase/cachestore.go:58-115 | from the cache store action to the container: it is pointed to a store if and only if one was recorded before, or the operator for it is there, the user's flag does not switch it off, no secret configures one, and one can be created |
| DeployedVariables.OtherVariable | pkg/controller/virtualdatabase/deployment.go:211-230 | any other variable is the user's, or the cluster's proxy variable under the condition above, or what the data sources set, in that order |
| DeploymentEnvs.LayeredEnvironment | pkg/controller/virtualdatabase/deployment.go:211-230 | names are unique, and each lookup is the first definition among user, cluster proxy, defaults, Jaeger, cache store and data sources |
| DeploymentEnvs.SecondSettingsIdle | pkg/controller/virtualdatabase/deployment.go:298 | the second HTTPSettings in buildDeployment leaves that list unchanged for every input |
| SpringProperties.ConvertToSpringProperties | pkg/controller/virtualdatabase/convert-ds-properties.go:33-75 | fails exactly when a used source or one of its properties has a space in its name; otherwise all writes in iteration order |
| SpringProperties.LastWriterWins | pkg/controller/virtualdatabase/convert-ds-properties.go:33-75 | in a list built by writes every name yields its last write, names are unique and in first-write order |
| SpringProperties.ConvertedLaws | pkg/controller/virtualdatabase/convert-ds-properties.go:33-75 | a successful conversion has these laws, and each entry has exactly one of a non-empty value and a reference |
| SpringProperties.FindConfiguredProperties | pkg/controller/virtualdatabase/convert-ds-properties.go:77-84 | the first configured source whose name is the same up to letter case |
| SpringNames.FirstConfigured | pkg/controller/virtualdatabase/convert-ds-properties.go:77-84 | letter case does not matter for finding a configured source, and the first one with the name is taken |
| SpringNames.KeyOfWords | pkg/controller/virtualdatabase/convert-ds-properties.go:33-89 | the key of a property is made of the words of the connection factory's prefix, or SPRING_TEIID_DATA and the type for a type without one, then the source's name without dashes, then the camel-case words of the property, all in upper case and joined with underscores |
| SpringNames.LastSourceWins | pkg/controller/virtualdatabase/convert-ds-properties.go:36-73 | of all properties with the same key and a value or a reference the last one of the last configured source decides, and in it the reference |
| SpringNames.NoSourceSets | pkg/controller/virtualdatabase/convert-ds-properties.go:36-73 | a key that no configured source sets does not occur |
| NameMangling.TokenizeAtUpperCase | pkg/controller/virtualdatabase/convert-ds-properties.go:113-124 | a split into non-empty words that concatenate to the input, with capitals at word starts only and at every word start but the first |
| NameMangling.CamelSplitUnique | pkg/controller/virtualdatabase/convert-ds-properties.go:113-124 | there is only one such split |
| NameMangling.SanitizeName | pkg/controller/virtualdatabase/convert-ds-properties.go:91-111 | the word-by-word rule is a rule by characters: a dash goes before a capital unless what stands before it is the first character, a capital, a period or a dash |
| NameMangling.SanitizedNext | pkg/controller/virtualdatabase/convert-ds-properties.go:91-111 | another camel-case word is appended in lower case behind a dash, which is missing when the previous word is one character or ends in a period or a dash |
| NameMangling.HumpsJoined | pkg/controller/virtualdatabase/convert-ds-properties.go:91-111 | camel-case words of two characters or more, without periods and dashes, are joined with dashes in lower case |
| NameMangling.SanitizedLaws | pkg/controller/virtualdatabase/convert-ds-properties.go:91-128 | idempotent; without dashes only lower-cased; at most (n - 1) / 2 dashes added; no new double dash |
| Maven.ParsePrintedGav | pkg/util/maven/maven.go:98-128 | every part of a printed coordinate of three, four or five parts is recovered |
| Maven.AcceptedExactly | pkg/util/maven/maven.go:98-128 | a coordinate is accepted if and only if some colon has a character other than colon and space on either side |
| Maven.TwoPartsAccepted | pkg/util/maven/maven.go:114-125 | two non-empty parts are enough, with an empty version and packaging type |
| Maven.FatJarByParts | pkg/controller/virtualdatabase/service_image.go:145-152 | for any parts without colons the joined coordinate is a fat-jar build if and only if no interior part is "vdb" |
| Maven.Project.AddDependency | pkg/util/maven/maven_project.go:49-58 | appends unless a dependency with the same group and artifact is there |
| Maven.Project.AddDependencies | pkg/util/maven/maven_project.go:95-99 | the first of each coordinate, in order; coordinates stay distinct |
| Pom.GenerateVdbPom | pkg/controller/virtualdatabase/pom.go:44-124 | the dependencies are the distinct ones of the base four, the user's up to a bad coordinate, and the derived ones |
| Pom.DependencyPrecedence | pkg/controller/virtualdatabase/pom.go:44-124 | coordinates are pairwise distinct, and for each of them the base comes first, then the user's own, then the derived ones |
| PomContents.BaseDependency | pkg/controller/virtualdatabase/pom.go:213-234 | the four base dependencies are there in their versions, whatever the user gives |
| PomContents.GivenDependency | pkg/controller/virtualdatabase/pom.go:51-58 | any other coordinates in front of a bad one yield the first dependency the user gives with them |
| PomContents.TeiidDependency | pkg/controller/virtualdatabase/pom.go:60-115 | of org.teiid, what the user does not give is there if and only if all coordinates can be parsed and it is needed: spring-odata and spring-openapi by the OpenAPI flag, spring-keycloak for 3scale or an authentication server, spring-data-infinispan-hotrod for a cache store, spring-data- and the factory's name for every source with one, and all of them when everything is included |
| PomContents.OtherDependency | pkg/controller/virtualdatabase/pom.go:117-121 | of other groups the transaction manager is there if and only if all coordinates can be parsed, and nothing else |
| Ddl.MatchesExactly | pkg/util/vdbutil/parser.go:33-39 | at every position the scanner consumes n characters if and only if these are a text of the statement pattern, so there is at most one match |
| Ddl.TokenizeInverts | pkg/util/vdbutil/parser.go:33-39 | statements joined by any separators without word characters are exactly the tokens |
| Ddl.TokenizeStable | pkg/util/vdbutil/parser.go:33-39 | for every text the tokens of its concatenated tokens are its tokens |
| Ddl.StatementUpper | pkg/util/vdbutil/parser.go:57 | being a statement does not depend on letter case |
| DdlPatterns.UnitExact | pkg/util/vdbutil/parser.go:46 | a comment or space character is scanned if and only if the pattern accepts that text |
| DdlPatterns.MatchesAsPattern | pkg/util/vdbutil/parser.go:45-48 | a pattern matches at the start of a text, by any cutting into parts, if and only if the scanner does |
| DdlPatterns.SplitMatched | pkg/util/vdbutil/parser.go:45-48 | every cutting yields the scanner's names, but for the last, of which the scanner takes the longest |
| DdlPatterns.MatchedSplits | pkg/util/vdbutil/parser.go:45-48 | what the scanner captures are the names of a cutting the pattern accepts |
| DdlPatterns.ReadingsExclude | pkg/util/vdbutil/parser.go:47 | no text matches both with and without the optional TYPE |
| DdlPatterns.SearchIsLeftmost | pkg/util/vdbutil/parser.go:57-71 | the leftmost position at which a reading matches is taken, and none only if there is none |
| DataSources.ParseDataSourcesInfoFromDdl | pkg/util/vdbutil/parser.go:42-74 | the loop over the tokens yields the declared data sources in order, a server's before a wrapper's |
| DataSources.MatchItems | pkg/util/vdbutil/parser.go:45-48 | no captured name is empty or a lone quote, so stripping quotes never slices out of range |
| DdlRoundTrip.ParsingInvertsPrinting | pkg/util/vdbutil/parser.go:42-74 | for any list of printable declarations, in any letter case and with any separators without word characters, the parser returns exactly the lower-cased, unquoted (name, type) pairs in order |
| DdlRoundTrip.LineMeans | pkg/util/vdbutil/parser.go:57-71 | one printed statement declares what its declaration means, by one of the two patterns and not by the other |
| DdlRoundTrip.PlainIsPrintable | pkg/util/vdbutil/parser.go:42-74 | every declaration with words for names, only space between them and nothing behind the last one is printable |
| DdlMisreading.ReadAsMeantExactly | pkg/util/vdbutil/parser.go:57-71 | whatever comments, names and tail hold, a printed declaration is read as its (name, type) pair if and only if no pattern for the other kind of declaration matches anywhere in its text |
| DdlMisreading.ReadBackExactly | pkg/util/vdbutil/parser.go:42-74 | a whole text of printed declarations is read back as their pairs in order if and only if in none of them a pattern for the other kind of declaration matches anywhere |
| DdlMisreading.ReadAsTwo | pkg/util/vdbutil/parser.go:46-64 | every server whose quoted name ends in CREATE-- and is followed by a comment holding the rest of a wrapper declaration is read as two data sources |
| DdlMisreading.ExampleMisread | pkg/util/vdbutil/parser.go:42-74 | a concrete text of that kind on which the whole parser returns two |

## Left out

- DdlRoundTrip.ParsingInvertsPrinting: the condition on CREATE inside comments, quoted names and the tail is sufficient, not necessary; ReadBackExactly gives the exact one.
- Cooperation.ElevenRounds: the rounds read the latest version of the resource; progress under stale reads is not stated.
- DeploymentEnvs.DeploymentEnvironments: downloading and unpacking a Maven source is one given result.
- Rollout.Handle: the variables that deploymentEnvironments computes are an answer (DeployedAsComputed says what follows when they are those), and a missing replica count in phase Running, which stops the process, counts as an error without any write.
- Proxy.HTTPSettings: taking a proxy URL apart is an uninterpreted function.
- DeploymentEnvs.GetDefaultEnvs: Go's map iteration order in JAVA_OPTIONS and MAVEN_ARGS is one fixed rendering.
- ServiceImage.BuildServiceImage: the payload is an abstract success or error, the Maven option text is a parameter, and only the binary branch of triggerBuild is modelled, the one newServiceBC sets up.
- EnvVars.EnvList.Get: a position stands for the pointer; that Go slices may share memory is not captured.
- CreateCertificates.Handle: key and trust stores are texts that given functions make.
- ServiceImage.NewServiceBC: build strategy, base image and labels of the BuildConfig are constants that are left out.
- Digest.DigestFaithful: SHA-256 and its encoding are one abstract function, injective where a lemma says so.
- Reconciler.World.Reconcile: deletion of the resource and errors of the first read are left out; they end the reconcile without any write.
- Text is ASCII: Unicode case mapping and folding are not modelled.
- Other writers: users edit only the specification; nobody else writes the status or the BuildConfig, starts builds, or writes or deletes the Deployment; the cluster only reports on builds and Deployment, and there is one reconciler for a resource.
- ShouldMaterialize, ValidateDataSourceNames, file names and repositories of Maven artifacts, the plug-ins of the project, GenerateJarPom: small text functions that would add only easy members.
- Services, routes, certificates, labels, probes, pod templates, the Prometheus monitor, console links, watches, leader election and logging: plumbing, or calls into libraries, that appear only as answers.
