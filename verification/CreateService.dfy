/** pkg/controller/virtualdatabase/create-service.go: the service, its external twin and the route. */
module CreateService {
  import opened Outcomes
  import opened Vdb

  /** Whether the service is there already, whether creating it succeeds, whether the external service
      asked for by the n-th expose entry can be created, and the host of the route, if one comes up. */
  datatype Answers = Answers(present: bool, created: bool, external: nat -> bool, routeHost: Option<string>)

  const SERVICE_FAILED := "Failed to create Service"
  const LOAD_BALANCER_FAILED := "Failed to create External LoadBalancer Service"
  const NODE_PORT_FAILED := "Failed to create External NodePort Service"
  const ROUTE_FAILED := "Failed to create route"

  /** Whether a route is wanted: the last entry that speaks about routes decides, by default yes. */
  function WantsRoute(expose: seq<ExposeType>): bool {
    if expose == [] then true
    else match expose[|expose| - 1]
      case Route => true
      case ExposeVia3scale => false
      case _ => WantsRoute(expose[..|expose| - 1])
  }

  /** The message of the last external service that could not be created. */
  function ExternalFailure(expose: seq<ExposeType>, external: nat -> bool, failure: string): string {
    if expose == [] then failure
    else
      var n := |expose| - 1;
      if expose[n] == LoadBalancer && !external(n) then LOAD_BALANCER_FAILED
      else if expose[n] == NodePort && !external(n) then NODE_PORT_FAILED
      else ExternalFailure(expose[..n], external, failure)
  }

  /** The phase is ServiceCreated whatever failed; a failure is left as a message only. */
  function Handled(v: Resource, a: Answers): Resource {
    var s := v.status.(phase := ServiceCreated);
    if a.present then v.(status := s)
    else if !a.created then v.(status := s.(failure := SERVICE_FAILED))
    else
      var failure := ExternalFailure(v.spec.expose, a.external, s.failure);
      if !WantsRoute(v.spec.expose) then v.(status := s.(failure := failure))
      else match a.routeHost
        case None => v.(status := s.(failure := ROUTE_FAILED))
        case Some(host) => v.(status := s.(failure := failure, route := "https://" + host + "/odata"))
  }

  method Expose(vdb: VirtualDatabase, a: Answers) returns (createRoute: bool)
    modifies vdb
    ensures createRoute == WantsRoute(vdb.spec.expose)
    ensures vdb.spec == old(vdb.spec)
    ensures vdb.status == old(vdb.status).(
      phase := vdb.status.phase,
      failure := ExternalFailure(vdb.spec.expose, a.external, old(vdb.status).failure))
  {
    createRoute := true;
    var expose := vdb.spec.expose;
    var i := 0;
    while i < |expose|
      invariant 0 <= i <= |expose|
      invariant createRoute == WantsRoute(expose[..i])
      invariant vdb.spec == old(vdb.spec)
      invariant vdb.status == old(vdb.status).(
        phase := vdb.status.phase,
        failure := ExternalFailure(expose[..i], a.external, old(vdb.status).failure))
    {
      assert expose[..i + 1][..i] == expose[..i];
      match expose[i] {
        case LoadBalancer =>
          if !a.external(i) {
            vdb.status := vdb.status.(phase := Error, failure := LOAD_BALANCER_FAILED);
          }
        case NodePort =>
          if !a.external(i) {
            vdb.status := vdb.status.(phase := Error, failure := NODE_PORT_FAILED);
          }
        case ExposeVia3scale => createRoute := false;
        case Route => createRoute := true;
        case Unknown(_) =>
      }
      i := i + 1;
    }
    assert expose[..i] == expose;
  }

  method Handle(vdb: VirtualDatabase, a: Answers)
    requires vdb.status.phase == ServiceImageFinished
    modifies vdb
    ensures vdb.Value() == Handled(old(vdb.Value()), a)
  {
    if !a.present {
      if !a.created {
        vdb.status := vdb.status.(phase := Error, failure := SERVICE_FAILED);
      } else {
        var createRoute := Expose(vdb, a);
        if createRoute {
          match a.routeHost {
            case None => vdb.status := vdb.status.(phase := Error, failure := ROUTE_FAILED);
            case Some(host) => vdb.status := vdb.status.(route := "https://" + host + "/odata");
          }
        }
      }
    }
    vdb.status := vdb.status.(phase := ServiceCreated);
  }

  // ---------- properties ----------

  /** An entry for 3scale with none behind it that asks for a route. */
  predicate ClosesRoute(expose: seq<ExposeType>, i: nat)
    requires i < |expose|
  {
    expose[i] == ExposeVia3scale && forall j :: i < j < |expose| ==> expose[j] != Route
  }

  /** A route is wanted unless there is such an entry. */
  lemma {:induction false} RouteExactly(expose: seq<ExposeType>)
    ensures WantsRoute(expose) <==> forall i :: 0 <= i < |expose| ==> !ClosesRoute(expose, i)
  {
    if expose != [] {
      var n := |expose| - 1;
      RouteExactly(expose[..n]);
      assert ClosesRoute(expose, n) <==> expose[n] == ExposeVia3scale;
      assert forall i :: 0 <= i < n ==> (ClosesRoute(expose, i) <==> ClosesRoute(expose[..n], i) && expose[n] != Route);
    }
  }

  /** An entry whose external service cannot be created. */
  predicate FailsAt(expose: seq<ExposeType>, external: nat -> bool, i: nat)
    requires i < |expose|
  {
    !external(i) && (expose[i] == LoadBalancer || expose[i] == NodePort)
  }

  /** The last such entry leaves its message; without one the failure stays what it was. */
  lemma {:induction false} LastFailureStays(expose: seq<ExposeType>, external: nat -> bool, failure: string, i: nat)
    requires i <= |expose| && forall j :: i <= j < |expose| ==> !FailsAt(expose, external, j)
    ensures i == 0 ==> ExternalFailure(expose, external, failure) == failure
    ensures i > 0 && FailsAt(expose, external, i - 1) ==>
      ExternalFailure(expose, external, failure) ==
        if expose[i - 1] == NodePort then "Failed to create External NodePort Service"
        else "Failed to create External LoadBalancer Service"
  {
    var n := |expose| - 1;
    if i <= n {
      assert !FailsAt(expose, external, n);
      assert forall j :: i <= j < n ==> FailsAt(expose[..n], external, j) == FailsAt(expose, external, j);
      LastFailureStays(expose[..n], external, failure, i);
    }
  }

  /** The phase always moves on; a service that is there stays as it is. Of a new one, the failures are left as
      messages, that of the route before those of external services, and the route's address when one comes up. */
  lemma ServiceOutcomes(v: Resource, a: Answers)
    ensures
      var s, t := v.status, Handled(v, a).status;
      var failure := ExternalFailure(v.spec.expose, a.external, s.failure);
      && Handled(v, a) == v.(status := t)
      && t == s.(phase := ServiceCreated, failure := t.failure, route := t.route)
      && (a.present ==> t.failure == s.failure && t.route == s.route)
      && (!a.present && !a.created ==> t.failure == "Failed to create Service" && t.route == s.route)
      && (!a.present && a.created ==>
            if !WantsRoute(v.spec.expose) then t.failure == failure && t.route == s.route
            else if a.routeHost.None? then t.failure == "Failed to create route" && t.route == s.route
            else t.failure == failure && t.route == "https://" + a.routeHost.value + "/odata")
  {}
}
