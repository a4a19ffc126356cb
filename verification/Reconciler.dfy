/** pkg/controller/virtualdatabase/virtualdatabase_controller.go: one reconcile of one virtual database. */
module Reconciler {
  import opened Outcomes
  import opened Vdb
  import opened Cluster
  import opened Operator
  import Updater
  import Initialize
  import CacheStore
  import BuilderImage
  import ServiceImage
  import CreateService
  import CreateCertificates
  import Rollout

  /** Everything the cluster answers during one reconcile; `update` is the answer to writing the resource. */
  datatype Answers = Answers(
    initialize: Initialize.Answers,
    cacheStore: CacheStore.Answers,
    builder: BuilderImage.Answers,
    service: ServiceImage.Answers,
    createService: CreateService.Answers,
    certificates: CreateCertificates.Answers,
    rollout: Rollout.Answers,
    prometheus: Option<string>,
    update: Write)

  /** The stored resource with all its versions, how far the operator's cache has come, and the other
      objects. A read yields some version the cache has not moved past; a write of the resource succeeds
      only on top of the latest version. */
  datatype System = System(history: seq<Resource>, seen: nat, objects: Objects)

  predicate Readable(s: System, at: nat) {
    s.seen <= at < |s.history|
  }

  predicate WellFormed(s: System) {
    s.seen < |s.history|
  }

  function Current(s: System): Resource
    requires WellFormed(s)
  {
    s.history[|s.history| - 1]
  }

  // ---------- the specification: dispatch on the phase ----------

  /** The one action that the phase calls for. */
  function Act(op: Config, v: Resource, o: Objects, a: Answers): Outcome {
    match v.status.phase
    case Initial => var (v1, e) := Initialize.Handled(op, v, a.initialize); Outcome(v1, o, e)
    case CreateCacheStore => Outcome(CacheStore.Handled(v, a.cacheStore), o, None)
    case S2IReady => var (v1, e) := BuilderImage.Handled(v, a.builder); Outcome(v1, o, e)
    case BuilderImage => var (v1, e) := BuilderImage.Handled(v, a.builder); Outcome(v1, o, e)
    case BuilderImageFinished => ServiceImage.Handled(op, v, o, a.service)
    case ServiceImage => ServiceImage.Handled(op, v, o, a.service)
    case ServiceImageFinished => Outcome(CreateService.Handled(v, a.createService), o, None)
    case ServiceCreated => var (v1, e) := CreateCertificates.Handled(v, a.certificates); Outcome(v1, o, e)
    case KeystoreCreated => Rollout.Handled(op, v, o, a.rollout)
    case Deploying => Rollout.Handled(op, v, o, a.rollout)
    case Running => Rollout.Handled(op, v, o, a.rollout)
    case _ => Outcome(v, o, None)
  }

  /** A write on top of version `at`. */
  function Persisted(s: System, at: nat, v: Resource, w: Write): System {
    if at == |s.history| - 1 && w.TookEffect() then s.(history := s.history + [v]) else s
  }

  /** After an action that read version `at`: its objects stay, its resource is written if it changed. */
  function Applied(s: System, at: nat, r: Outcome, w: Write): System
    requires Readable(s, at)
  {
    var t := s.(seen := at, objects := r.objects);
    if r.vdb != s.history[at] then Persisted(t, at, r.vdb, w) else t
  }

  function Reconciled(op: Config, s: System, at: nat, a: Answers): System
    requires Readable(s, at)
  {
    var v := s.history[at];
    if Updater.IsVdbUpdated(op, v) then Persisted(s.(seen := at), at, Updater.Redeployed(op, v), a.update)
    else Applied(s, at, Act(op, v, s.objects, a), a.update)
  }

  /** What a reconcile reports: after how many seconds to come again, and the error. */
  datatype Reply = Reply(requeueAfter: nat, error: Option<string>)

  const CONFLICT := "the object has been modified"

  function UpdateError(s: System, at: nat, w: Write): Option<string> {
    if at != |s.history| - 1 then Some(CONFLICT) else w.Error()
  }

  // ---------- the operation: a loop over eight gated actions ----------

  datatype Action =
    | InitializeAction | CacheStoreAction | BuilderImageAction | ServiceImageAction
    | CreateServiceAction | CreateCertificateAction | DeploymentAction | PrometheusAction

  const BUILD_STEPS := [InitializeAction, CacheStoreAction, BuilderImageAction, ServiceImageAction,
                        CreateServiceAction, CreateCertificateAction, DeploymentAction, PrometheusAction]

  predicate CanHandle(action: Action, phase: Phase) {
    match action
    case InitializeAction => phase == Initial
    case CacheStoreAction => phase == CreateCacheStore
    case BuilderImageAction => phase == S2IReady || phase == Phase.BuilderImage
    case ServiceImageAction => phase == BuilderImageFinished || phase == Phase.ServiceImage
    case CreateServiceAction => phase == ServiceImageFinished
    case CreateCertificateAction => phase == ServiceCreated
    case DeploymentAction => phase == KeystoreCreated || phase == Deploying || phase == Running
    case PrometheusAction => phase == Running
  }

  /** The steps that can do something in a phase: one, or in phase Running the last two. */
  function FirstHandler(phase: Phase): (i: nat)
    ensures i <= 8
    ensures forall j :: 0 <= j < 8 && j < i ==> !CanHandle(BUILD_STEPS[j], phase)
    ensures i < 8 ==> CanHandle(BUILD_STEPS[i], phase)
    ensures forall j :: i < j < 7 ==> !CanHandle(BUILD_STEPS[j], phase)
  {
    match phase
    case Initial => 0
    case CreateCacheStore => 1
    case S2IReady => 2
    case BuilderImage => 2
    case BuilderImageFinished => 3
    case ServiceImage => 3
    case ServiceImageFinished => 4
    case ServiceCreated => 5
    case KeystoreCreated => 6
    case Deploying => 6
    case Running => 6
    case _ => 8
  }

  method Handle(action: Action, op: Config, target: VirtualDatabase, api: ApiServer, a: Answers)
    returns (error: Option<string>)
    requires CanHandle(action, target.status.phase)
    modifies target, api
    ensures !action.PrometheusAction? ==>
      Outcome(target.Value(), api.Value(), error) == Act(op, old(target.Value()), old(api.Value()), a)
    ensures action.PrometheusAction? ==>
      target.Value() == old(target.Value()) && api.Value() == old(api.Value())
  {
    error := None;
    match action {
      case InitializeAction => error := Initialize.Handle(op, target, a.initialize);
      case CacheStoreAction => CacheStore.Handle(target, a.cacheStore);
      case BuilderImageAction => error := BuilderImage.Handle(target, a.builder);
      case ServiceImageAction => error := ServiceImage.Handle(op, target, api, a.service);
      case CreateServiceAction => CreateService.Handle(target, a.createService);
      case CreateCertificateAction => error := CreateCertificates.Handle(target, a.certificates);
      case DeploymentAction => error := Rollout.Handle(op, target, api, a.rollout);
      case PrometheusAction => error := a.prometheus;
    }
  }

  /** The cluster as the reconciler sees it. */
  class World {
    var history: seq<Resource>
    var seen: nat
    const api: ApiServer

    constructor (s: System)
      ensures Value() == s && fresh(api)
    {
      history, seen := s.history, s.seen;
      api := new ApiServer(s.objects);
    }

    function Value(): System
      reads this, api
    {
      System(history, seen, api.Value())
    }

    /** Writes `v` on top of version `at`. */
    method Update(at: nat, v: Resource, w: Write) returns (error: Option<string>)
      requires at < |history|
      modifies this
      ensures Value() == Persisted(old(Value()), at, v, w)
      ensures error == UpdateError(old(Value()), at, w)
    {
      if at != |history| - 1 {
        return Some(CONFLICT);
      }
      if w.TookEffect() {
        history := history + [v];
      }
      return w.Error();
    }

    /** Reconciles on the strength of version `at`. An error is reported only when a write of the resource was
        tried: a conflict when the version is stale, or else the answer of the write, and when that is good the
        error of the action. Without anything to write the reconcile comes again after five seconds, and the
        error of the action is dropped. */
    method Reconcile(op: Config, at: nat, a: Answers) returns (reply: Reply)
      requires Readable(Value(), at)
      modifies this, api
      ensures Value() == Reconciled(op, old(Value()), at, a)
      ensures
        var v := old(history[at]);
        var due, r := Updater.IsVdbUpdated(op, v), Act(op, v, old(api.Value()), a);
        && (!due && r.vdb == v ==> reply == Reply(5, None))
        && (due || r.vdb != v ==>
              && reply.requeueAfter == 0
              && (at < |old(history)| - 1 ==> reply.error == Some(CONFLICT))
              && (at == |old(history)| - 1 ==>
                    match a.update
                    case Refused(e) => reply.error == Some(e)
                    case Lost(e) => reply.error == Some(e)
                    case Done => reply.error == if due then None else r.error))
    {
      seen := at;
      var instance := history[at];
      var target := new VirtualDatabase(instance);
      if Updater.IsVdbUpdated(op, instance) {
        Updater.RedeployVdb(op, target);
        var error := Update(at, target.Value(), a.update);
        return Reply(0, error);
      }
      ghost var r := Act(op, instance, old(api.Value()), a);
      ghost var k := FirstHandler(instance.status.phase);
      var i := 0;
      while i < |BUILD_STEPS|
        invariant 0 <= i <= 8
        invariant target.Value() == instance
        invariant history == old(history) && seen == at
        invariant i <= k ==> api.Value() == old(api.Value())
        invariant i > k ==> r.vdb == instance && api.Value() == r.objects
      {
        if CanHandle(BUILD_STEPS[i], target.status.phase) {
          var processError := Handle(BUILD_STEPS[i], op, target, api, a);
          if target.spec != instance.spec || target.status != instance.status {
            var error := Update(at, target.Value(), a.update);
            return Reply(0, error.OrElse(processError));
          }
        }
        i := i + 1;
      }
      return Reply(5, None);
    }
  }
}
