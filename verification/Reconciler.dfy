// The reconciler (controllers/authorino_controller.go, pkg/reconcilers/status.go,
// pkg/reconcilers/authorino_reconciler.go), call by call. Each method is proved to make
// exactly the calls of its part of the plan and to come out as the plan does.
module Reconciler {
  import opened Text
  import opened Api
  import opened Objects
  import opened Cluster
  import opened Naming
  import opened Rbac
  import opened Services
  import opened Maps
  import opened Workloads
  import opened Protocol
  import opened Isolation
  import opened Operator
  import opened Client
  import Conditions

  // Go's order of visiting a map: any.
  method SomeOrder(m: map<string, string>) returns (visit: seq<string>)
    ensures Enumerates(visit, m.Keys)
  {
    var rest := m.Keys;
    visit := [];
    while rest != {}
      invariant rest <= m.Keys
      invariant forall k :: k in visit <==> k in m.Keys && k !in rest
      invariant forall i, j | 0 <= i < j < |visit| :: visit[i] != visit[j]
      decreases |rest|
    {
      var k :| k in rest;
      visit := visit + [k];
      rest := rest - {k};
    }
  }

  class AuthorinoReconciler {
    const client: Client
    // The constants, the digest of names, and the images of the environment.
    const names: Spelling
    const digest: Digest
    const images: Images

    constructor (client: Client, names: Spelling, digest: Digest, images: Images)
      ensures this.client == client && this.names == names && this.digest == digest && this.images == images
    {
      this.client, this.names, this.digest, this.images := client, names, digest, images;
    }

    // The worker has a plan before it.
    ghost predicate At(cr: Object, plan: Plan)
      reads client
    {
      client.Valid() && client.Worker() == Enter(cr, plan, client.now)
    }

    ghost predicate Ended(err: bool)
      reads client
    {
      client.Valid() && client.Worker() == Idle(err)
    }

    // Either the pass is over with an error, or it is at `rest`.
    ghost predicate Past(err: bool, cr: Object, rest: Plan)
      reads client
    {
      if err then Ended(true) else At(cr, rest)
    }

    // ---- Status ------------------------------------------------------------

    ghost predicate Reports(cr: Object, plan: Plan, c: Condition, next: Next)
      reads client
    {
      client.Valid() && client.Worker() == Running(cr, plan, Reporting(c, next), client.now)
    }

    method UpdateStatusConditions(cr: Object, c: Condition, ghost plan: Plan, ghost next: Next) returns (err: bool)
      requires cr.body.Resource? && Reports(cr, plan, c, next)
      modifies client
      ensures client.Valid()
      ensures client.Worker() ==
        AdvanceReport(Running(cr, plan, Reporting(c, next), client.now), if err then Failed else Done)
    {
      var conditions := cr.body.conditions;
      var slice := new Condition[|conditions|](k requires 0 <= k < |conditions| => conditions[k]);
      assert slice[..] == conditions;
      var updated, _ := Conditions.AddOrUpdateStatusCondition(slice, c, client.now);
      var response, _ := client.Call(PatchStatus(client.bp.key(client.me, Custom), updated[..]));
      err := response != Done;
    }

    // An error is reported; failing to report it is only logged.
    method WrapErrorWithStatusUpdate(cr: Object, reason: Reason, message: Message, ghost plan: Plan)
      requires cr.body.Resource? && Reports(cr, plan, StatusNotReady(reason, message), Abort)
      modifies client
      ensures Ended(true)
    {
      var _ := UpdateStatusConditions(cr, StatusNotReady(reason, message), plan, Abort);
    }

    // ---- Resources ---------------------------------------------------------

    method ReconcileResource(cr: Object, desired: Manifest, ghost slot: Slot, ghost policy: Policy, ghost rest: Plan)
      returns (crud: Crud, obj: Option<Body>, err: bool)
      requires At(cr, Then(Ensure(slot, desired, policy), rest))
      modifies client
      ensures client.Valid()
      ensures client.Worker() ==
        Settle(Running(cr, Then(Ensure(slot, desired, policy), rest), Fresh, client.now), crud, obj, err)
    {
      var found, _ := client.Call(Get(desired.key));
      if !found.Found? {
        if found != NotFound {
          return ReadOp, None, true;
        }
        if !IsObjectTaggedToDelete(desired) {
          var created, _ := client.Call(Create(desired));
          return CreateOp, Some(desired.body), created != Done;
        }
        return ReadOp, None, false;
      }
      crud, obj, err := ReconcileExisting(cr, desired, found.obj, slot, policy, rest);
    }

    // The object is there: it is deleted or applied.
    method ReconcileExisting(
        cr: Object, desired: Manifest, found: Object, ghost slot: Slot, ghost policy: Policy, ghost rest: Plan)
      returns (crud: Crud, obj: Option<Body>, err: bool)
      requires client.Valid()
      requires client.Worker() ==
        Running(cr, Then(Ensure(slot, desired, policy), rest),
                if IsObjectTaggedToDelete(desired) then Deleting else Applying(found), client.now)
      modifies client
      ensures client.Valid()
      ensures client.Worker() ==
        Settle(Running(cr, Then(Ensure(slot, desired, policy), rest), Fresh, client.now), crud, obj, err)
    {
      if IsObjectTaggedToDelete(desired) {
        var deleted, _ := client.Call(Delete(desired.key, None));
        return DeleteOp, Some(desired.body), deleted != Done;
      }
      var applied, _ := client.Call(Apply(desired));
      if applied != Done {
        return UpdateOp, Some(desired.body), true;
      }
      return NoOp, Some(found.body), false;
    }

    method CheckClusterRoleExists(cr: Object, key: Key, ghost g: Grant, ghost rest: Plan) returns (err: bool)
      requires key == client.bp.clusterRole(g)
      requires cr.body.Resource? && At(cr, Then(NeedClusterRole(g), rest))
      modifies client
      ensures Past(err, cr, rest)
    {
      var response, _ := client.Call(Get(key));
      if response.Found? {
        return false;
      }
      if response == NotFound {
        WrapErrorWithStatusUpdate(cr, ClusterRoleNotFound, Unable(ToFind, key.name), Then(NeedClusterRole(g), rest));
      } else {
        WrapErrorWithStatusUpdate(cr, UnableToGetClusterRole, Unable(ToGet, key.name), Then(NeedClusterRole(g), rest));
      }
      return true;
    }

    method ReconcileService(cr: Object, desired: Manifest, ghost slot: Slot, ghost rest: Plan) returns (err: bool)
      requires cr.body.Resource? && At(cr, Then(Ensure(slot, desired, ServicePolicy), rest))
      modifies client
      ensures Past(err, cr, rest)
    {
      ghost var plan := Then(Ensure(slot, desired, ServicePolicy), rest);
      var crud, obj, failed := ReconcileResource(cr, desired, slot, ServicePolicy, rest);
      if crud == ReadOp && failed {
        WrapErrorWithStatusUpdate(cr, UnableToGetServices, Unable(ToGet, desired.key.name), plan);
        return true;
      }
      if crud == CreateOp && failed {
        WrapErrorWithStatusUpdate(cr, UnableToCreateServices, Unable(ToCreate, desired.key.name), plan);
        return true;
      }
      if crud == UpdateOp && failed {
        WrapErrorWithStatusUpdate(cr, UnableToGetServices, Unable(ToUpdate, desired.key.name), plan);
        return true;
      }
      return false;
    }

    // ---- Permissions -------------------------------------------------------

    // An error of the read, the creation or the update is reported; one of a deletion is not
    // even returned. `tolerant` callers ignore what is returned.
    method ClusterRoleStatus(
        cr: Object, crud: Crud, name: string, failed: bool, ghost obj: Option<Body>, ghost op: Op, ghost rest: Plan)
      returns (err: bool)
      requires cr.body.Resource? && op.Ensure? && (op.policy.BindingPolicy? || op.policy.TolerantPolicy?)
      requires name == op.manifest.key.name
      requires client.Valid()
        && client.Worker() == Settle(Running(cr, Then(op, rest), Fresh, client.now), crud, obj, failed)
      modifies client
      ensures Past(err && op.policy.BindingPolicy?, cr, rest)
    {
      ghost var next := if op.policy.TolerantPolicy? then Continue else Abort;
      if crud == ReadOp && failed {
        var _ := UpdateStatusConditions(cr, StatusNotReady(UnableToGetBinding, Unable(ToGet, name)), Then(op, rest),
                                        next);
        return true;
      }
      if crud == CreateOp && failed {
        var _ := UpdateStatusConditions(cr, StatusNotReady(UnableToCreateBinding, Unable(ToCreate, name)),
                                        Then(op, rest), next);
        return true;
      }
      if crud == UpdateOp && failed {
        var _ := UpdateStatusConditions(cr, StatusNotReady(UnableToCreateBinding, Unable(ToUpdate, name)),
                                        Then(op, rest), next);
        return true;
      }
      return false;
    }

    // For ClusterRoleBindings and RoleBindings alike.
    method ReconcileBinding(cr: Object, desired: Manifest, ghost slot: Slot, ghost policy: Policy, ghost rest: Plan)
      returns (err: bool)
      requires cr.body.Resource? && (policy.BindingPolicy? || policy.TolerantPolicy?)
      requires At(cr, Then(Ensure(slot, desired, policy), rest))
      modifies client
      ensures Past(err && policy.BindingPolicy?, cr, rest)
    {
      var crud, obj, failed := ReconcileResource(cr, desired, slot, policy, rest);
      err := ClusterRoleStatus(cr, crud, desired.key.name, failed, obj, Ensure(slot, desired, policy), rest);
    }

    // They are those behind the blueprint.
    ghost predicate Wired() {
      Describes(client.bp, names, digest, images)
    }

    method ReconcileManagerClusterRoleBinding(cr: Object, ghost rest: Plan) returns (err: bool)
      requires Wired() && cr.body.Resource?
      requires At(cr, ManagerClusterPlan(client.bp, client.me, OriginOf(cr), rest))
      modifies client
      ensures Past(err, cr, rest)
    {
      var i := client.me;
      ghost var wide := cr.body.spec.clusterWide;
      ghost var policy := if wide then BindingPolicy else TolerantPolicy;
      ghost var manifest := ManagerManifest(client.bp, i, OriginOf(cr), ClusterBinding(Manager));
      err := CheckClusterRoleExists(cr, client.bp.clusterRole(Manager), Manager,
                                    Then(Ensure(ClusterBinding(Manager), manifest, policy), rest));
      if err {
        return true;
      }
      DescribedClusterBinding(names, client.bp, digest, images, i, OriginOf(cr), Manager);
      var sa := GetAuthorinoServiceAccount(i.ns, i.name, cr.meta.labels);
      var binding := GetAuthorinoClusterRoleBinding(digest, i.ns, i.name, names.suffix(ClusterBinding(Manager)),
                                                    ManagerRole, sa, cr.meta.labels);
      if cr.body.spec.clusterWide {
        err := ReconcileBinding(cr, binding, ClusterBinding(Manager), policy, rest);
        return err;
      }
      binding := TagObjectToDelete(binding);
      var _ := ReconcileBinding(cr, binding, ClusterBinding(Manager), policy, rest);
      return false;
    }

    method ReconcileManagerRoleBinding(cr: Object, ghost rest: Plan) returns (err: bool)
      requires Wired() && cr.body.Resource?
      requires At(cr, ManagerLocalPlan(client.bp, client.me, OriginOf(cr), rest))
      modifies client
      ensures Past(err, cr, rest)
    {
      var i := client.me;
      ghost var manifest := ManagerManifest(client.bp, i, OriginOf(cr), ManagerBinding);
      err := CheckClusterRoleExists(cr, client.bp.clusterRole(Manager), Manager,
                                    Then(Ensure(ManagerBinding, manifest, BindingPolicy), rest));
      if err {
        return true;
      }
      DescribedRoleBindings(names, client.bp, digest, images, i, OriginOf(cr));
      var sa := GetAuthorinoServiceAccount(i.ns, i.name, cr.meta.labels);
      var binding := GetAuthorinoRoleBinding(i.ns, i.name, names.suffix(ManagerBinding), ClusterRoleKind, ManagerRole,
                                             sa, cr.meta.labels);
      binding := Owned(binding, cr.uid);
      if cr.body.spec.clusterWide {
        binding := TagObjectToDelete(binding);
      }
      err := ReconcileBinding(cr, binding, ManagerBinding, BindingPolicy, rest);
    }

    method ReconcileManagerAuthClusterRoleBinding(cr: Object, ghost rest: Plan) returns (err: bool)
      requires Wired() && cr.body.Resource?
      requires At(cr, K8sAuthPlan(client.bp, client.me, OriginOf(cr), rest))
      modifies client
      ensures Past(err, cr, rest)
    {
      var i := client.me;
      err := CheckClusterRoleExists(cr, client.bp.clusterRole(K8sAuth), K8sAuth,
                                    EnsurePlan(client.bp, i, OriginOf(cr), ClusterBinding(K8sAuth), BindingPolicy,
                                               rest));
      if err {
        return true;
      }
      DescribedClusterBinding(names, client.bp, digest, images, i, OriginOf(cr), K8sAuth);
      var sa := GetAuthorinoServiceAccount(i.ns, i.name, cr.meta.labels);
      var binding := GetAuthorinoClusterRoleBinding(digest, i.ns, i.name, names.suffix(ClusterBinding(K8sAuth)),
                                                    K8sAuthRole, sa, cr.meta.labels);
      err := ReconcileBinding(cr, binding, ClusterBinding(K8sAuth), BindingPolicy, rest);
    }

    method ReconcileLeaderElectionRole(cr: Object, ghost rest: Plan) returns (err: bool)
      requires Wired() && cr.body.Resource?
      requires At(cr, EnsurePlan(client.bp, client.me, OriginOf(cr), LeaderRole, RolePolicy, rest))
      modifies client
      ensures Past(err, cr, rest)
    {
      DescribedOthers(names, client.bp, digest, images, client.me, OriginOf(cr));
      var role := Owned(LeaderRoleManifest(client.me.ns, names.suffix(LeaderRole), names.rules), cr.uid);
      err := ReconcileLeaderRole(cr, role, rest);
    }

    // Only errors of the read and of the creation count.
    method ReconcileLeaderRole(cr: Object, role: Manifest, ghost rest: Plan) returns (err: bool)
      requires cr.body.Resource? && At(cr, Then(Ensure(LeaderRole, role, RolePolicy), rest))
      modifies client
      ensures Past(err, cr, rest)
    {
      ghost var plan := Then(Ensure(LeaderRole, role, RolePolicy), rest);
      var crud, _, failed := ReconcileResource(cr, role, LeaderRole, RolePolicy, rest);
      if failed {
        if crud == ReadOp {
          WrapErrorWithStatusUpdate(cr, UnableToGetLeaderElectionRole, Unable(ToGet, role.key.name), plan);
          return true;
        }
        if crud == CreateOp {
          WrapErrorWithStatusUpdate(cr, UnableToCreateLeaderElectionRole, Unable(ToCreate, role.key.name), plan);
          return true;
        }
      }
      return false;
    }

    method ReconcileLeaderElectionRoleBinding(cr: Object, ghost rest: Plan) returns (err: bool)
      requires Wired() && cr.body.Resource?
      requires At(cr, EnsurePlan(client.bp, client.me, OriginOf(cr), LeaderBinding, BindingPolicy, rest))
      modifies client
      ensures Past(err, cr, rest)
    {
      var i := client.me;
      DescribedRoleBindings(names, client.bp, digest, images, i, OriginOf(cr));
      var sa := GetAuthorinoServiceAccount(i.ns, i.name, cr.meta.labels);
      var binding := GetAuthorinoRoleBinding(i.ns, i.name, names.suffix(LeaderBinding), RoleKind, LeaderElectionRole,
                                             sa, cr.meta.labels);
      binding := Owned(binding, cr.uid);
      err := ReconcileBinding(cr, binding, LeaderBinding, BindingPolicy, rest);
    }

    // Nothing that happens here is an error.
    method CleanupLegacyClusterRoleBindings(cr: Object, ghost rest: Plan)
      requires Wired() && At(cr, LegacyPlan(rest))
      modifies client
      ensures At(cr, rest)
    {
      var sa := GetAuthorinoServiceAccount(client.me.ns, client.me.name, cr.meta.labels);
      var ownSubject := GetSubjectForRoleBinding(sa);
      var grants := [Manager, K8sAuth];
      for k := 0 to 2
        invariant At(cr, if k == 0 then LegacyPlan(rest)
                         else if k == 1 then Then(RetireLegacy(K8sAuth), rest) else rest)
      {
        DescribedKeys(names, client.bp, digest, images, client.me, grants[k]);
        var key := Key(ClusterRoleBindingKind, "",
                       RoleBindingName(client.me.name, names.suffix(LegacyBinding(grants[k]))));
        RetireBinding(cr, key, ownSubject, grants[k], if k == 0 then Then(RetireLegacy(K8sAuth), rest) else rest);
      }
    }

    // One turn of the loop: the binding is deleted only as the object that was read, and only
    // if that lists the service account.
    method RetireBinding(cr: Object, key: Key, ownSubject: Subject, ghost g: Grant, ghost rest: Plan)
      requires key == client.bp.key(client.me, LegacyBinding(g)) && ownSubject == client.bp.subject(client.me)
      requires At(cr, Then(RetireLegacy(g), rest))
      modifies client
      ensures At(cr, rest)
    {
      var found, _ := client.Call(Get(key));
      if !found.Found? || !found.obj.body.Binding? {
        return;
      }
      var binding := found.obj;
      if !SubjectIncluded(binding.body.subjects, ownSubject) {
        return;
      }
      var _, _ := client.Call(Delete(key, Some(Precondition(binding.uid, binding.version))));
    }

    method ReconcileAuthorinoPermissions(cr: Object, ghost rest: Plan) returns (err: bool)
      requires Wired() && cr.body.Resource?
      requires At(cr, PermissionsPlan(client.bp, client.me, OriginOf(cr), rest))
      modifies client
      ensures Past(err, cr, rest)
    {
      ghost var bp, i, o := client.bp, client.me, OriginOf(cr);
      ghost var legacy := LegacyPlan(rest);
      ghost var binding := EnsurePlan(bp, i, o, LeaderBinding, BindingPolicy, legacy);
      ghost var leader := LeaderPlan(bp, i, o, legacy);
      ghost var auth := K8sAuthPlan(bp, i, o, leader);
      err := ReconcileManagerClusterRoleBinding(cr, ManagerLocalPlan(bp, i, o, auth));
      if err {
        return true;
      }
      err := ReconcileManagerRoleBinding(cr, auth);
      if err {
        return true;
      }
      err := ReconcileManagerAuthClusterRoleBinding(cr, leader);
      if err {
        return true;
      }
      err := ReconcileLeaderElectionRole(cr, binding);
      if err {
        return true;
      }
      err := ReconcileLeaderElectionRoleBinding(cr, legacy);
      if err {
        return true;
      }
      CleanupLegacyClusterRoleBindings(cr, rest);
      return false;
    }

    // ---- Services and service account --------------------------------------

    // The ports: as asked for, as the deprecated field says, or the default.
    method ServicePorts(spec: Spec) returns (grpcPort: Int32, httpPort: Int32, oidcPort: Int32, metricsPort: Int32)
      ensures grpcPort == EffectivePort(spec, GrpcEndpoint) && httpPort == EffectivePort(spec, HttpEndpoint)
      ensures oidcPort == EffectivePort(spec, OidcEndpoint) && metricsPort == EffectivePort(spec, MetricsEndpoint)
    {
      if spec.listener.ports.grpc.Some? {
        grpcPort := spec.listener.ports.grpc.value;
      } else if spec.listener.port.Some? {
        grpcPort := spec.listener.port.value;
      } else {
        grpcPort := DEFAULT_GRPC_PORT;
      }
      if spec.listener.ports.http.Some? {
        httpPort := spec.listener.ports.http.value;
      } else {
        httpPort := DEFAULT_HTTP_PORT;
      }
      if spec.oidcServer.port.Some? {
        oidcPort := spec.oidcServer.port.value;
      } else {
        oidcPort := DEFAULT_OIDC_PORT;
      }
      if spec.metrics.port.Some? {
        metricsPort := spec.metrics.port.value;
      } else {
        metricsPort := DEFAULT_METRICS_PORT;
      }
    }

    method DesiredServices(i: Instance, o: Origin) returns (desired: seq<Manifest>)
      ensures |desired| == 3
      ensures desired[0] == ServiceManifest(i, o, AuthService)
      ensures desired[1] == ServiceManifest(i, o, OidcService)
      ensures desired[2] == ServiceManifest(i, o, MetricsService)
    {
      var grpcPort, httpPort, oidcPort, metricsPort := ServicePorts(o.spec);
      var auth := NewAuthService(i.name, i.ns, grpcPort, httpPort, o.labels);
      var oidc := NewOIDCService(i.name, i.ns, oidcPort, o.labels);
      var labels := new GoMap();
      labels.entries := o.labels;
      var visit := SomeOrder(labels.entries);
      var merging := SomeOrder(DefaultAuthorinoLabels(i.name));
      var metrics := NewMetricsService(i.name, i.ns, metricsPort, labels, visit, merging);
      desired := [auth, oidc, metrics];
    }

    method ReconcileAuthorinoServices(cr: Object, ghost rest: Plan) returns (err: bool)
      requires Wired() && cr.body.Resource?
      requires At(cr, ServicesPlan(client.bp, client.me, OriginOf(cr), rest))
      modifies client
      ensures Past(err, cr, rest)
    {
      var i, o := client.me, OriginOf(cr);
      ghost var last := EnsurePlan(client.bp, i, o, MetricsService, ServicePolicy, rest);
      ghost var both := EnsurePlan(client.bp, i, o, OidcService, ServicePolicy, last);
      DescribedServices(names, client.bp, digest, images, i, o, AuthService);
      DescribedServices(names, client.bp, digest, images, i, o, OidcService);
      DescribedServices(names, client.bp, digest, images, i, o, MetricsService);
      var desired := DesiredServices(i, o);
      err := ReconcileServiceList(cr, desired, rest, both, last);
    }

    method ReconcileServiceList(
        cr: Object, desired: seq<Manifest>, ghost rest: Plan, ghost both: Plan, ghost last: Plan) returns (err: bool)
      requires cr.body.Resource? && |desired| == 3
      requires last == Then(Ensure(MetricsService, Owned(desired[2], cr.uid), ServicePolicy), rest)
      requires both == Then(Ensure(OidcService, Owned(desired[1], cr.uid), ServicePolicy), last)
      requires At(cr, Then(Ensure(AuthService, Owned(desired[0], cr.uid), ServicePolicy), both))
      modifies client
      ensures Past(err, cr, rest)
    {
      ghost var slots := [AuthService, OidcService, MetricsService];
      ghost var plans := [both, last, rest];
      for k := 0 to 3
        invariant At(cr, if k == 3 then rest
                         else Then(Ensure(slots[k], Owned(desired[k], cr.uid), ServicePolicy), plans[k]))
      {
        err := ReconcileService(cr, Owned(desired[k], cr.uid), slots[k], plans[k]);
        if err {
          return true;
        }
      }
      return false;
    }

    method ReconcileAuthorinoServiceAccount(cr: Object, ghost rest: Plan) returns (err: bool)
      requires Wired() && cr.body.Resource?
      requires At(cr, AccountPlan(client.bp, client.me, OriginOf(cr), rest))
      modifies client
      ensures Past(err, cr, rest)
    {
      DescribedOthers(names, client.bp, digest, images, client.me, OriginOf(cr));
      var sa := GetAuthorinoServiceAccount(client.me.ns, client.me.name, cr.meta.labels);
      err := ReconcileAccount(cr, Owned(sa, cr.uid), rest);
    }

    method ReconcileAccount(cr: Object, sa: Manifest, ghost rest: Plan) returns (err: bool)
      requires cr.body.Resource? && At(cr, Then(Ensure(Account, sa, AccountPolicy), rest))
      modifies client
      ensures Past(err, cr, rest)
    {
      ghost var plan := Then(Ensure(Account, sa, AccountPolicy), rest);
      var crud, _, failed := ReconcileResource(cr, sa, Account, AccountPolicy, rest);
      if failed {
        if crud == ReadOp {
          WrapErrorWithStatusUpdate(cr, UnableToGetServiceAccount, Unable(ToGet, sa.key.name), plan);
        } else {
          WrapErrorWithStatusUpdate(cr, UnableToCreateServiceAccount, Unable(ToCreate, sa.key.name), plan);
        }
        return true;
      }
      return false;
    }

    // ---- Deployment --------------------------------------------------------

    // A panic counts as an error of the pass.
    method ReconcileAuthorinoDeployment(cr: Object, visit: seq<string>) returns (err: bool)
      requires Wired() && cr.body.Resource?
      requires At(cr, DeploymentPlan(client.bp, client.me, OriginOf(cr), visit))
      modifies client
      ensures Ended(err)
    {
      var i := client.me;
      var deployment := AuthorinoDeployment(i.name, i.ns, cr.meta.labels, cr.body.spec, images, visit);
      DescribedApplication(names, client.bp, digest, images, i, OriginOf(cr), visit);
      if deployment == None {
        return true;
      }
      err := ReconcileDeployment(cr, Owned(deployment.value, cr.uid));
    }

    method ReconcileDeployment(cr: Object, desired: Manifest) returns (err: bool)
      requires cr.body.Resource? && At(cr, Then(Ensure(Application, desired, DeploymentPolicy), End))
      modifies client
      ensures Ended(err)
    {
      ghost var plan := Then(Ensure(Application, desired, DeploymentPolicy), End);
      var crud, obj, failed := ReconcileResource(cr, desired, Application, DeploymentPolicy, End);
      if crud == ReadOp && failed {
        WrapErrorWithStatusUpdate(cr, UnableToGetDeployment, Unable(ToGet, desired.key.name), plan);
        return true;
      }
      if crud == CreateOp && failed {
        WrapErrorWithStatusUpdate(cr, UnableToCreateDeployment, Unable(ToCreate, desired.key.name), plan);
        return true;
      }
      if crud == UpdateOp && failed {
        WrapErrorWithStatusUpdate(cr, UnableToBuildDeployment, Unable(ToBuild, desired.key.name), plan);
        return true;
      }
      if failed {
        WrapErrorWithStatusUpdate(cr, UnableToUpdateDeployment, Unable(ToReconcile, desired.key.name), plan);
        return true;
      }
      if crud == UpdateOp {
        err := UpdateStatusConditions(cr, StatusNotReady(Updated, ResourceUpdated), plan, Finish);
        return err;
      }
      if obj == None || !obj.value.Workload? {
        return true;
      }
      if !DeploymentAvailable(obj.value.status) {
        err := UpdateStatusConditions(cr, StatusNotReady(DeploymentNotReady, ResourceNotReady), plan, Finish);
        return err;
      }
      err := UpdateStatusConditions(cr, StatusReady(), plan, Finish);
    }

    // ---- The pass ----------------------------------------------------------

    // The two servers come in either order.
    method InstallationPreflightCheck(cr: Object, listenerFirst: bool, ghost rest: Plan) returns (err: bool)
      requires cr.body.Resource? && At(cr, PreflightPlan(cr.body.spec, listenerFirst, rest))
      modifies client
      ensures Past(err, cr, rest)
    {
      var spec := cr.body.spec;
      var tlsCerts := if listenerFirst then [ListenerServer, OidcServerSide] else [OidcServerSide, ListenerServer];
      for k := 0 to 2
        invariant At(cr, if k == 0 then SecretPlan(spec, tlsCerts[0], SecretPlan(spec, tlsCerts[1], rest))
                         else if k == 1 then SecretPlan(spec, tlsCerts[1], rest) else rest)
      {
        err := CheckCertificate(cr, tlsCerts[k], if k == 0 then SecretPlan(spec, tlsCerts[1], rest) else rest);
        if err {
          return true;
        }
      }
      return false;
    }

    // Any failure to read the secret counts as not provided; the message tells which.
    method CheckCertificate(cr: Object, server: Server, ghost rest: Plan) returns (err: bool)
      requires cr.body.Resource? && At(cr, SecretPlan(cr.body.spec, server, rest))
      modifies client
      ensures Past(err, cr, rest)
    {
      var tls := ServerTls(cr.body.spec, server);
      if !tls.On() {
        return false;
      }
      if tls.certSecret == None || tls.certSecret.value == "" {
        WrapErrorWithStatusUpdate(cr, TlsSecretNotProvided, SecretNotNamed(server), Then(SecretUnnamed(server), rest));
        return true;
      }
      var name := tls.certSecret.value;
      var secret, _ := client.Call(Get(Key(SecretKind, client.me.ns, name)));
      if !secret.Found? {
        var message := if secret == NotFound then SecretNotFound(server, name) else SecretNotRead(server, name);
        WrapErrorWithStatusUpdate(cr, TlsSecretNotProvided, message, Then(NeedSecret(server, name), rest));
        return true;
      }
      return false;
    }

    // Whether the deletes succeed is not looked at.
    method CleanupClusterScopedPermissions(cr: Object)
      requires Wired() && At(cr, CleanupPlan())
      modifies client
      ensures At(cr, Then(PutFinalizer(false), End))
    {
      var i := client.me;
      var sa := GetAuthorinoServiceAccount(i.ns, i.name, cr.meta.labels);
      DescribedKeys(names, client.bp, digest, images, i, Manager);
      DescribedKeys(names, client.bp, digest, images, i, K8sAuth);
      var managerBinding := GetAuthorinoClusterRoleBinding(digest, i.ns, i.name, names.suffix(ClusterBinding(Manager)),
                                                           ManagerRole, sa, cr.meta.labels);
      var k8sAuthBinding := GetAuthorinoClusterRoleBinding(digest, i.ns, i.name, names.suffix(ClusterBinding(K8sAuth)),
                                                           K8sAuthRole, sa, cr.meta.labels);
      DeleteBindings(cr, managerBinding.key, k8sAuthBinding.key);
    }

    method DeleteBindings(cr: Object, manager: Key, k8sAuth: Key)
      requires manager == client.bp.key(client.me, ClusterBinding(Manager))
        && k8sAuth == client.bp.key(client.me, ClusterBinding(K8sAuth))
      requires At(cr, CleanupPlan())
      modifies client
      ensures At(cr, Then(PutFinalizer(false), End))
    {
      var _, _ := client.Call(Delete(manager, None));
      var _, _ := client.Call(Delete(k8sAuth, None));
    }

    method UpdateFinalizer(cr: Object, present: bool) returns (err: bool)
      requires At(cr, Then(PutFinalizer(present), End))
      modifies client
      ensures Ended(err)
    {
      var response, _ := client.Call(Update(client.bp.key(client.me, Custom), WithFinalizer(cr, present)));
      err := response != Done;
    }

    method Install(cr: Object, choice: Choice) returns (err: bool)
      requires Wired() && cr.body.Resource?
      requires At(cr, InstallPlan(client.bp, client.me, OriginOf(cr), choice))
      modifies client
      ensures Ended(err)
    {
      ghost var bp, i, o := client.bp, client.me, OriginOf(cr);
      ghost var deployment := DeploymentPlan(bp, i, o, choice.visit);
      ghost var permissions := PermissionsPlan(bp, i, o, deployment);
      ghost var account := AccountPlan(bp, i, o, permissions);
      err := InstallationPreflightCheck(cr, choice.listenerFirst, ServicesPlan(bp, i, o, account));
      if err {
        return true;
      }
      err := ReconcileAuthorinoServices(cr, account);
      if err {
        return true;
      }
      err := ReconcileAuthorinoServiceAccount(cr, permissions);
      if err {
        return true;
      }
      err := ReconcileAuthorinoPermissions(cr, deployment);
      if err {
        return true;
      }
      err := ReconcileAuthorinoDeployment(cr, choice.visit);
    }

    // One reconcile request. Whatever the API server answers and whatever others do in
    // between, the calls made are those of the model's worker, which ends as the code does:
    // so bindings stay isolated, and a client left in peace leaves what an undisturbed pass
    // leaves.
    method Reconcile() returns (err: bool)
      requires Wired() && client.Valid() && client.Worker().Fetching?
      modifies client
      ensures Ended(err)
      ensures Isolated(client.bp, client.system.workers.Keys, client.system.Now())
      ensures client.quiet ==> client.system.Now() == client.goal
    {
      err := Pass();
      client.StaysIsolated();
    }

    method Pass() returns (err: bool)
      requires Wired() && client.Valid() && client.Worker().Fetching?
      modifies client
      ensures Ended(err)
    {
      var fetched, choice := client.Call(Get(client.bp.key(client.me, Custom)));
      if fetched == NotFound {
        return false;
      }
      if !fetched.Found? {
        return true;
      }
      var cr := fetched.obj;
      if cr.meta.deleting && OperatorFinalizer in cr.meta.finalizers {
        CleanupClusterScopedPermissions(cr);
        err := UpdateFinalizer(cr, false);
        return err;
      }
      if cr.meta.deleting {
        return false;
      }
      if OperatorFinalizer !in cr.meta.finalizers {
        err := UpdateFinalizer(cr, true);
        return err;
      }
      if !cr.body.Resource? {
        return true;
      }
      err := Install(cr, choice);
    }
  }
}
