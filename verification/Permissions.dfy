// What the permissions part of a pass achieves when nothing fails and nobody interferes.
module Permissions {
  import opened Text
  import opened Api
  import opened Objects
  import opened Cluster
  import opened Protocol
  import opened Isolation
  import opened Undisturbed
  import opened Settling

  predicate Stands(store: Store, key: Key, body: Body) {
    key in store.objects && store.objects[key].body == body
  }

  // The bindings an instance should have: the manager role through exactly one of the two
  // manager bindings, the one of its scope; the other roles; and no grant left under a name
  // of the old scheme.
  ghost predicate PermissionsStand(bp: Blueprint, i: Instance, o: Origin, store: Store) {
    var wide, local := bp.key(i, ClusterBinding(Manager)), bp.key(i, ManagerBinding);
    && (if o.spec.clusterWide
        then Stands(store, wide, GrantBody(bp, i, Manager)) && local !in store.objects
        else Stands(store, local, GrantBody(bp, i, Manager)) && wide !in store.objects)
    && Stands(store, bp.key(i, ClusterBinding(K8sAuth)), GrantBody(bp, i, K8sAuth))
    && Stands(store, bp.key(i, LeaderRole), bp.manifest(i, o, LeaderRole).body)
    && Stands(store, bp.key(i, LeaderBinding), LeaderBody(bp, i))
    && (forall g :: !Lists(bp, i, store, bp.key(i, LegacyBinding(g))))
  }

  ghost predicate RolesInstalled(bp: Blueprint, store: Store) {
    forall g :: bp.clusterRole(g) in store.objects
  }

  lemma CheckedSettled(bp: Blueprint, i: Instance, g: Grant, op: Op, rest: Plan, store: Store)
    requires RolesInstalled(bp, store) && op.Ensure? && !op.policy.DeploymentPolicy?
    requires AllSettled(bp, i, Then(NeedClusterRole(g), Then(op, rest)), store)
    ensures Settled(bp, i, op, store) && AllSettled(bp, i, rest, store)
  {
    assert AllSettled(bp, i, Then(op, rest), store);
  }

  lemma SettledRest(bp: Blueprint, i: Instance, op: Op, rest: Plan, store: Store)
    requires op.RetireLegacy? || (op.Ensure? && !op.policy.DeploymentPolicy?)
    requires AllSettled(bp, i, Then(op, rest), store)
    ensures Settled(bp, i, op, store) && AllSettled(bp, i, rest, store)
  {
  }

  // The manager bindings.
  lemma ManagerSettled(bp: Blueprint, instances: set<Instance>, i: Instance, o: Origin, rest: Plan, store: Store)
    requires Sound(bp, instances) && i in instances && RolesInstalled(bp, store)
    requires AllSettled(bp, i, ManagerClusterPlan(bp, i, o, ManagerLocalPlan(bp, i, o, rest)), store)
    ensures var wide, local := bp.key(i, ClusterBinding(Manager)), bp.key(i, ManagerBinding);
      if o.spec.clusterWide
      then Stands(store, wide, GrantBody(bp, i, Manager)) && local !in store.objects
      else Stands(store, local, GrantBody(bp, i, Manager)) && wide !in store.objects
    ensures AllSettled(bp, i, rest, store)
  {
    var localOp := Ensure(ManagerBinding, ManagerManifest(bp, i, o, ManagerBinding), BindingPolicy);
    CheckedSettled(bp, i, Manager, ManagerWideOp(bp, i, o), ManagerLocalPlan(bp, i, o, rest), store);
    CheckedSettled(bp, i, Manager, localOp, rest, store);
    assert ManifestOk(bp, i, ManagerBinding, bp.manifest(i, o, ManagerBinding));
    assert ManifestOk(bp, i, ClusterBinding(Manager), bp.manifest(i, o, ClusterBinding(Manager)));
  }

  lemma OthersSettled(bp: Blueprint, instances: set<Instance>, i: Instance, o: Origin, rest: Plan, store: Store)
    requires Sound(bp, instances) && i in instances && RolesInstalled(bp, store)
    requires AllSettled(bp, i, K8sAuthPlan(bp, i, o, LeaderPlan(bp, i, o, rest)), store)
    ensures Stands(store, bp.key(i, ClusterBinding(K8sAuth)), GrantBody(bp, i, K8sAuth))
    ensures Stands(store, bp.key(i, LeaderRole), bp.manifest(i, o, LeaderRole).body)
    ensures Stands(store, bp.key(i, LeaderBinding), LeaderBody(bp, i))
    ensures AllSettled(bp, i, rest, store)
  {
    var auth, role, binding := bp.manifest(i, o, ClusterBinding(K8sAuth)), bp.manifest(i, o, LeaderRole),
      bp.manifest(i, o, LeaderBinding);
    var last := Then(Ensure(LeaderBinding, binding, BindingPolicy), rest);
    CheckedSettled(bp, i, K8sAuth, Ensure(ClusterBinding(K8sAuth), auth, BindingPolicy), LeaderPlan(bp, i, o, rest),
                   store);
    SettledRest(bp, i, Ensure(LeaderRole, role, RolePolicy), last, store);
    SettledRest(bp, i, Ensure(LeaderBinding, binding, BindingPolicy), rest, store);
    assert ManifestOk(bp, i, ClusterBinding(K8sAuth), auth);
    assert ManifestOk(bp, i, LeaderRole, role);
    assert ManifestOk(bp, i, LeaderBinding, binding);
  }

  lemma LegacySettled(bp: Blueprint, i: Instance, rest: Plan, store: Store)
    requires AllSettled(bp, i, LegacyPlan(rest), store)
    ensures forall g :: !Lists(bp, i, store, bp.key(i, LegacyBinding(g)))
    ensures AllSettled(bp, i, rest, store)
  {
    SettledRest(bp, i, RetireLegacy(Manager), Then(RetireLegacy(K8sAuth), rest), store);
    SettledRest(bp, i, RetireLegacy(K8sAuth), rest, store);
    forall g
      ensures !Lists(bp, i, store, bp.key(i, LegacyBinding(g)))
    {
      assert g == Manager || g == K8sAuth;
    }
  }

  // Once all its operations are settled, the permissions stand.
  lemma SettledPermissionsStand(
      bp: Blueprint, instances: set<Instance>, i: Instance, o: Origin, rest: Plan, store: Store)
    requires Sound(bp, instances) && i in instances && RolesInstalled(bp, store)
    requires AllSettled(bp, i, PermissionsPlan(bp, i, o, rest), store)
    ensures PermissionsStand(bp, i, o, store)
    ensures AllSettled(bp, i, rest, store)
  {
    var legacy := LegacyPlan(rest);
    ManagerSettled(bp, instances, i, o, K8sAuthPlan(bp, i, o, LeaderPlan(bp, i, o, legacy)), store);
    OthersSettled(bp, instances, i, o, legacy, store);
    LegacySettled(bp, i, rest, store);
  }

  // Permissions can only stand under names that the migration does not clean up.
  lemma StandingNeedsApartNames(bp: Blueprint, i: Instance, o: Origin, store: Store)
    requires PermissionsStand(bp, i, o, store)
    ensures Migratable(bp, i, o.spec.clusterWide)
  {
    forall g, h | g == K8sAuth || o.spec.clusterWide
      ensures bp.key(i, LegacyBinding(h)) != bp.key(i, ClusterBinding(g))
    {
      BindingLists(bp, i, g, store);
      assert !Lists(bp, i, store, bp.key(i, LegacyBinding(h)));
    }
  }

  lemma BindingLists(bp: Blueprint, i: Instance, g: Grant, store: Store)
    requires Stands(store, bp.key(i, ClusterBinding(g)), GrantBody(bp, i, g))
    ensures Lists(bp, i, store, bp.key(i, ClusterBinding(g)))
  {
    assert GrantBody(bp, i, g).subjects[0] == bp.subject(i);
  }

  // With the cluster roles installed, no step of the permissions part is blocked.
  predicate ChecksRolesOnly(plan: Plan) {
    match plan
    case End => true
    case Then(op, rest) =>
      && (op.NeedClusterRole? || op.RetireLegacy? || (op.Ensure? && !op.policy.DeploymentPolicy?))
      && ChecksRolesOnly(rest)
  }

  lemma PermissionsCheckRoles(bp: Blueprint, i: Instance, o: Origin)
    ensures ChecksRolesOnly(PermissionsPlan(bp, i, o, End))
  {
    var legacy := LegacyPlan(End);
    assert ChecksRolesOnly(legacy);
    var leader := LeaderPlan(bp, i, o, legacy);
    assert ChecksRolesOnly(leader);
    var auth := K8sAuthPlan(bp, i, o, leader);
    assert ChecksRolesOnly(auth);
    var local := ManagerLocalPlan(bp, i, o, auth);
    assert ChecksRolesOnly(local);
  }

  lemma {:induction false} NothingReported(bp: Blueprint, i: Instance, plan: Plan, store: Store)
    requires ChecksRolesOnly(plan) && LeavesInputs(bp, i, plan) && RolesInstalled(bp, store)
    requires forall g :: bp.clusterRole(g).kind == ClusterRoleKind
    ensures RunPlan(bp, i, plan, store).report == None
  {
    if plan.Then? {
      var next := OpStore(bp, i, plan.op, store);
      forall g
        ensures bp.clusterRole(g) in next.objects
      {
        assert ReadOnlyKind(bp.clusterRole(g).kind);
      }
      NothingReported(bp, i, plan.rest, next);
    }
  }

  // Permissions postcondition: run alone and without failures, the permissions part leaves
  // every binding as it should be - if and only if the instance's own old names spell none
  // of the bindings its scope asks for. Otherwise the migration takes back what was just
  // granted.
  lemma {:induction false} PermissionsPostcondition(
      bp: Blueprint, instances: set<Instance>, i: Instance, cr: Object, store: Store, ch: Choice)
    requires Sound(bp, instances) && i in instances
    requires cr.body.Resource? && Typed(store) && RolesInstalled(bp, store)
    ensures var o := OriginOf(cr);
      PermissionsStand(bp, i, o, Alone(bp, i, Enter(cr, PermissionsPlan(bp, i, o, End), ch.now), store, ch))
      <==> Migratable(bp, i, o.spec.clusterWide)
  {
    var o := OriginOf(cr);
    var plan := PermissionsPlan(bp, i, o, End);
    if Migratable(bp, i, o.spec.clusterWide) {
      var after := RunPlan(bp, i, plan, store).store;
      PermissionsTidy(bp, instances, i, o, End, o.spec.clusterWide);
      TidyIsOrdinary(bp, instances, i, plan, 4, o.spec.clusterWide);
      TidyIsOrderly(bp, instances, i, plan, 4, o.spec.clusterWide);
      RunPlanSettles(bp, i, plan, store);
      RunPlanKeepsInputs(bp, i, plan, store);
      RolesStay(bp, store, after);
      SettledPermissionsStand(bp, instances, i, o, End, after);
      PermissionsCheckRoles(bp, i, o);
      NothingReported(bp, i, plan, store);
      AloneRunsPlan(bp, i, cr, plan, store, ch);
    } else {
      var after := Alone(bp, i, Enter(cr, plan, ch.now), store, ch);
      if PermissionsStand(bp, i, o, after) {
        StandingNeedsApartNames(bp, i, o, after);
      }
    }
  }

  lemma RolesStay(bp: Blueprint, store: Store, after: Store)
    requires RolesInstalled(bp, store) && Unwritten(store, after)
    requires forall g :: bp.clusterRole(g).kind == ClusterRoleKind
    ensures RolesInstalled(bp, after)
  {
    forall g
      ensures bp.clusterRole(g) in after.objects
    {
      assert ReadOnlyKind(bp.clusterRole(g).kind);
    }
  }
}
