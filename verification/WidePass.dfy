// Whether a pass in cluster-wide scope leaves a manager binding hinges on one thing: that no
// old name of the instance spells its cluster-wide manager binding.
module WidePass {
  import opened Text
  import opened Api
  import opened Objects
  import opened Cluster
  import opened Protocol
  import opened Isolation
  import opened ScopeSwitch
  import opened Undisturbed
  import opened Settling
  import opened Permissions
  import opened Convergence
  import opened Exactness

  // ---- From operation to operation -----------------------------------------

  lemma PastChecked(bp: Blueprint, i: Instance, g: Grant, op: Op, rest: Plan, store: Store)
    requires RolesInstalled(bp, store) && op.Ensure? && !op.policy.DeploymentPolicy?
    ensures RunPlan(bp, i, Then(NeedClusterRole(g), Then(op, rest)), store)
         == RunPlan(bp, i, rest, OpStore(bp, i, op, store))
  {
    assert RunPlan(bp, i, Then(op, rest), store) == RunPlan(bp, i, rest, OpStore(bp, i, op, store));
  }

  lemma PastOp(bp: Blueprint, i: Instance, op: Op, rest: Plan, store: Store)
    requires op.RetireLegacy? || (op.Ensure? && !op.policy.DeploymentPolicy?)
    ensures RunPlan(bp, i, Then(op, rest), store) == RunPlan(bp, i, rest, OpStore(bp, i, op, store))
  {
  }

  lemma RolesAfter(bp: Blueprint, instances: set<Instance>, i: Instance, op: Op, store: Store, wide: bool)
    requires Sound(bp, instances) && i in instances && OpTidy(bp, i, op, wide) && RolesInstalled(bp, store)
    ensures RolesInstalled(bp, OpStore(bp, i, op, store))
  {
    OpLeavesInputs(bp, instances, i, op, wide);
    forall g
      ensures bp.clusterRole(g) in OpStore(bp, i, op, store).objects
    {
      assert ReadOnlyKind(bp.clusterRole(g).kind);
    }
  }

  // ---- The cluster-wide binding, once written ------------------------------

  // It is as it should be, or gone.
  predicate GrantsOrGone(bp: Blueprint, i: Instance, store: Store) {
    WideKey(bp, i) in store.objects ==> Grants(bp, i, store, WideKey(bp, i))
  }

  lemma OpGrantsOrGone(bp: Blueprint, instances: set<Instance>, i: Instance, op: Op, store: Store, wide: bool)
    requires Sound(bp, instances) && i in instances && OpTidy(bp, i, op, wide) && GrantsOrGone(bp, i, store)
    ensures GrantsOrGone(bp, i, OpStore(bp, i, op, store))
  {
    if op.Ensure? && op.manifest.key == WideKey(bp, i) {
      assert SlotKind(op.slot, bp.key(i, op.slot).kind) && SlotKind(ClusterBinding(Manager), WideKey(bp, i).kind);
      assert op.slot == ClusterBinding(Manager);
    }
  }

  lemma {:induction false} PlanGrantsOrGone(
      bp: Blueprint, instances: set<Instance>, i: Instance, plan: Plan, from: nat, wide: bool, store: Store)
    requires Sound(bp, instances) && i in instances && Tidy(bp, i, plan, from, wide) && GrantsOrGone(bp, i, store)
    ensures GrantsOrGone(bp, i, RunPlan(bp, i, plan, store).store)
  {
    if plan.Then? {
      OpGrantsOrGone(bp, instances, i, plan.op, store, wide);
      if !(plan.op.Ensure? && plan.op.policy.DeploymentPolicy?) {
        PlanGrantsOrGone(bp, instances, i, plan.rest, RankAfter(plan.op, from), wide, OpStore(bp, i, plan.op, store));
      }
    }
  }

  // A binding that an old name spells is retired.
  lemma SpelledIsGone(bp: Blueprint, i: Instance, g: Grant, store: Store)
    requires Settled(bp, i, RetireLegacy(g), store) && GrantsOrGone(bp, i, store)
    requires bp.key(i, LegacyBinding(g)) == WideKey(bp, i)
    ensures WideKey(bp, i) !in store.objects
  {
    assert GrantBody(bp, i, Manager).subjects[0] == bp.subject(i);
  }

  // ---- The end of the permissions part -------------------------------------

  // Up to the legacy bindings.
  lemma PastBindings(bp: Blueprint, instances: set<Instance>, i: Instance, o: Origin, rest: Plan, store: Store)
    returns (later: Store)
    requires Sound(bp, instances) && i in instances && RolesInstalled(bp, store)
    ensures RunPlan(bp, i, K8sAuthPlan(bp, i, o, LeaderPlan(bp, i, o, rest)), store) == RunPlan(bp, i, rest, later)
  {
    var auth := Ensure(ClusterBinding(K8sAuth), bp.manifest(i, o, ClusterBinding(K8sAuth)), BindingPolicy);
    var role := Ensure(LeaderRole, bp.manifest(i, o, LeaderRole), RolePolicy);
    var binding := Ensure(LeaderBinding, bp.manifest(i, o, LeaderBinding), BindingPolicy);
    var s1 := OpStore(bp, i, auth, store);
    var s2 := OpStore(bp, i, role, s1);
    later := OpStore(bp, i, binding, s2);
    PastChecked(bp, i, K8sAuth, auth, LeaderPlan(bp, i, o, rest), store);
    PastOp(bp, i, role, Then(binding, rest), s1);
    PastOp(bp, i, binding, rest, s2);
  }

  // Every retired name stays retired to the end of the pass.
  lemma LegacyRetired(
      bp: Blueprint, instances: set<Instance>, i: Instance, rest: Plan, wide: bool, store: Store, g: Grant)
    requires Sound(bp, instances) && i in instances && Tidy(bp, i, rest, 11, wide)
    ensures Settled(bp, i, RetireLegacy(g), RunPlan(bp, i, LegacyPlan(rest), store).store)
  {
    var second := Then(RetireLegacy(K8sAuth), rest);
    var s1 := OpStore(bp, i, RetireLegacy(Manager), store);
    var s2 := OpStore(bp, i, RetireLegacy(K8sAuth), s1);
    PastOp(bp, i, RetireLegacy(Manager), second, store);
    PastOp(bp, i, RetireLegacy(K8sAuth), rest, s1);
    OpSettles(bp, i, RetireLegacy(Manager), store);
    OpSettles(bp, i, RetireLegacy(K8sAuth), s1);
    SettledStays(bp, i, RetireLegacy(Manager), RetireLegacy(K8sAuth), s1);
    TidyRespected(bp, instances, i, RetireLegacy(g), rest, 11, wide);
    assert g == Manager || g == K8sAuth;
    RunPlanKeepsSettled(bp, i, RetireLegacy(g), rest, s2);
  }

  // The namespaced binding is deleted and stays so.
  lemma LocalGone(bp: Blueprint, instances: set<Instance>, i: Instance, op: Op, rest: Plan, store: Store)
    requires Sound(bp, instances) && i in instances && Tidy(bp, i, rest, 6, true)
    requires op.Ensure? && op.slot == ManagerBinding && OpTidy(bp, i, op, true) && IsObjectTaggedToDelete(op.manifest)
    ensures LocalKey(bp, i) !in RunPlan(bp, i, rest, OpStore(bp, i, op, store)).store.objects
  {
    OpSettles(bp, i, op, store);
    TidyRespected(bp, instances, i, op, rest, 6, true);
    RunPlanKeepsSettled(bp, i, op, rest, OpStore(bp, i, op, store));
  }

  lemma WideWritten(bp: Blueprint, instances: set<Instance>, i: Instance, o: Origin, store: Store)
    requires Sound(bp, instances) && i in instances && o.spec.clusterWide
    ensures var op := ManagerWideOp(bp, i, o);
      && OpTidy(bp, i, op, true) && Keeps(op)
      && op.manifest.key == WideKey(bp, i) && op.manifest.body == GrantBody(bp, i, Manager)
      && Settled(bp, i, op, OpStore(bp, i, op, store))
      && GrantsOrGone(bp, i, OpStore(bp, i, op, store))
  {
    assert ManifestOk(bp, i, ClusterBinding(Manager), bp.manifest(i, o, ClusterBinding(Manager)));
    OpSettles(bp, i, ManagerWideOp(bp, i, o), store);
  }

  function ManagerLocalOp(bp: Blueprint, i: Instance, o: Origin): Op {
    Ensure(ManagerBinding, ManagerManifest(bp, i, o, ManagerBinding), BindingPolicy)
  }

  // What follows the two manager bindings.
  function OtherPermissions(bp: Blueprint, i: Instance, o: Origin, rest: Plan): Plan {
    K8sAuthPlan(bp, i, o, LeaderPlan(bp, i, o, LegacyPlan(rest)))
  }

  lemma OthersTidy(bp: Blueprint, instances: set<Instance>, i: Instance, o: Origin, rest: Plan)
    requires Sound(bp, instances) && i in instances && Tidy(bp, i, rest, 11, true)
    ensures Tidy(bp, i, OtherPermissions(bp, i, o, rest), 6, true)
    ensures Tidy(bp, i, ManagerLocalPlan(bp, i, o, OtherPermissions(bp, i, o, rest)), 5, true)
  {
    var legacy := LegacyPlan(rest);
    LegacyTidy(bp, i, rest, true);
    LeaderTidy(bp, instances, i, o, legacy, true);
    K8sAuthTidy(bp, instances, i, o, LeaderPlan(bp, i, o, legacy), true);
    ManagerLocalTidy(bp, instances, i, o, OtherPermissions(bp, i, o, rest), true);
  }

  // The stores after the two manager bindings.
  lemma PastManagers(bp: Blueprint, instances: set<Instance>, i: Instance, o: Origin, rest: Plan, store: Store)
    requires Sound(bp, instances) && i in instances && RolesInstalled(bp, store) && o.spec.clusterWide
    ensures var s1 := OpStore(bp, i, ManagerWideOp(bp, i, o), store);
      var s2 := OpStore(bp, i, ManagerLocalOp(bp, i, o), s1);
      var others := OtherPermissions(bp, i, o, rest);
      && RolesInstalled(bp, s2)
      && RunPlan(bp, i, PermissionsPlan(bp, i, o, rest), store)
           == RunPlan(bp, i, ManagerLocalPlan(bp, i, o, others), s1)
      && RunPlan(bp, i, ManagerLocalPlan(bp, i, o, others), s1) == RunPlan(bp, i, others, s2)
  {
    var others := OtherPermissions(bp, i, o, rest);
    var s1 := OpStore(bp, i, ManagerWideOp(bp, i, o), store);
    ManagerManifestOk(bp, instances, i, o, ClusterBinding(Manager));
    ManagerManifestOk(bp, instances, i, o, ManagerBinding);
    PastChecked(bp, i, Manager, ManagerWideOp(bp, i, o), ManagerLocalPlan(bp, i, o, others), store);
    RolesAfter(bp, instances, i, ManagerWideOp(bp, i, o), store, true);
    PastChecked(bp, i, Manager, ManagerLocalOp(bp, i, o), others, s1);
    RolesAfter(bp, instances, i, ManagerLocalOp(bp, i, o), s1, true);
  }

  lemma SettledGrants(bp: Blueprint, i: Instance, o: Origin, store: Store)
    requires var op := ManagerWideOp(bp, i, o);
      && Keeps(op) && op.manifest.key == WideKey(bp, i) && op.manifest.body == GrantBody(bp, i, Manager)
      && Settled(bp, i, op, store)
    ensures Grants(bp, i, store, WideKey(bp, i))
  {
  }

  lemma WideKept(bp: Blueprint, instances: set<Instance>, i: Instance, o: Origin, rest: Plan, store: Store)
    requires Sound(bp, instances) && i in instances && o.spec.clusterWide
    requires Tidy(bp, i, rest, 5, true) && Apart(bp, i, Manager)
    ensures Grants(bp, i, RunPlan(bp, i, rest, OpStore(bp, i, ManagerWideOp(bp, i, o), store)).store, WideKey(bp, i))
  {
    var op := ManagerWideOp(bp, i, o);
    WideWritten(bp, instances, i, o, store);
    TidyRespected(bp, instances, i, op, rest, 5, true);
    RunPlanKeepsSettled(bp, i, op, rest, OpStore(bp, i, op, store));
    SettledGrants(bp, i, o, RunPlan(bp, i, rest, OpStore(bp, i, op, store)).store);
  }

  // Spelled by no old name, the cluster-wide binding stays.
  lemma WideStays(bp: Blueprint, instances: set<Instance>, i: Instance, o: Origin, rest: Plan, store: Store)
    requires Sound(bp, instances) && i in instances && RolesInstalled(bp, store)
    requires o.spec.clusterWide && Tidy(bp, i, rest, 11, true) && Apart(bp, i, Manager)
    ensures Grants(bp, i, RunPlan(bp, i, PermissionsPlan(bp, i, o, rest), store).store, WideKey(bp, i))
  {
    PastManagers(bp, instances, i, o, rest, store);
    OthersTidy(bp, instances, i, o, rest);
    WideKept(bp, instances, i, o, ManagerLocalPlan(bp, i, o, OtherPermissions(bp, i, o, rest)), store);
  }

  // Spelled by an old name, it is retired.
  lemma WideRetired(bp: Blueprint, instances: set<Instance>, i: Instance, o: Origin, rest: Plan, store: Store, g: Grant)
    requires Sound(bp, instances) && i in instances && RolesInstalled(bp, store)
    requires o.spec.clusterWide && Tidy(bp, i, rest, 11, true) && bp.key(i, LegacyBinding(g)) == WideKey(bp, i)
    ensures WideKey(bp, i) !in RunPlan(bp, i, PermissionsPlan(bp, i, o, rest), store).store.objects
  {
    var s1 := OpStore(bp, i, ManagerWideOp(bp, i, o), store);
    var s2 := OpStore(bp, i, ManagerLocalOp(bp, i, o), s1);
    PastManagers(bp, instances, i, o, rest, store);
    OthersTidy(bp, instances, i, o, rest);
    WideWritten(bp, instances, i, o, store);
    PlanGrantsOrGone(bp, instances, i, ManagerLocalPlan(bp, i, o, OtherPermissions(bp, i, o, rest)), 5, true, s1);
    var later := PastBindings(bp, instances, i, o, LegacyPlan(rest), s2);
    LegacyRetired(bp, instances, i, rest, true, later, g);
    SpelledIsGone(bp, i, g, RunPlan(bp, i, PermissionsPlan(bp, i, o, rest), store).store);
  }

  // And the namespaced one is deleted, as ever in this scope.
  lemma LocalDeleted(bp: Blueprint, instances: set<Instance>, i: Instance, o: Origin, rest: Plan, store: Store)
    requires Sound(bp, instances) && i in instances && RolesInstalled(bp, store)
    requires o.spec.clusterWide && Tidy(bp, i, rest, 11, true)
    ensures LocalKey(bp, i) !in RunPlan(bp, i, PermissionsPlan(bp, i, o, rest), store).store.objects
  {
    PastManagers(bp, instances, i, o, rest, store);
    OthersTidy(bp, instances, i, o, rest);
    ManagerManifestOk(bp, instances, i, o, ManagerBinding);
    LocalGone(bp, instances, i, ManagerLocalOp(bp, i, o), OtherPermissions(bp, i, o, rest),
              OpStore(bp, i, ManagerWideOp(bp, i, o), store));
  }

  // In cluster-wide scope the permissions part, followed by a Deployment, ends with a manager
  // binding exactly if no old name spells it.
  lemma PermissionsBound(bp: Blueprint, instances: set<Instance>, i: Instance, o: Origin, rest: Plan, store: Store)
    requires Sound(bp, instances) && i in instances && RolesInstalled(bp, store)
    requires o.spec.clusterWide && Tidy(bp, i, rest, 11, true)
    ensures Bound(bp, i, RunPlan(bp, i, PermissionsPlan(bp, i, o, rest), store).store) <==> Apart(bp, i, Manager)
  {
    if Apart(bp, i, Manager) {
      WideStays(bp, instances, i, o, rest, store);
    } else {
      var g :| bp.key(i, LegacyBinding(g)) == bp.key(i, ClusterBinding(Manager));
      WideRetired(bp, instances, i, o, rest, store, g);
      LocalDeleted(bp, instances, i, o, rest, store);
    }
  }

  // ---- A whole pass --------------------------------------------------------

  // With the TLS secrets in place, the Services and the service account come before the
  // permissions, whose roles they leave alone.
  lemma PassReachesPermissions(
      bp: Blueprint, instances: set<Instance>, i: Instance, o: Origin, ch: Choice, store: Store)
    returns (later: Store)
    requires Sound(bp, instances) && i in instances && RolesInstalled(bp, store) && SecretsThere(i, o.spec, store)
    ensures RolesInstalled(bp, later)
    ensures RunPlan(bp, i, InstallPlan(bp, i, o, ch), store)
         == RunPlan(bp, i, PermissionsPlan(bp, i, o, DeploymentPlan(bp, i, o, ch.visit)), later)
  {
    var permissions := PermissionsPlan(bp, i, o, DeploymentPlan(bp, i, o, ch.visit));
    var before := ServicesPlan(bp, i, o, AccountPlan(bp, i, o, End));
    RunPreflight(bp, i, o.spec, ServicesPlan(bp, i, o, AccountPlan(bp, i, o, permissions)), ch.listenerFirst, store);
    ServicesTidy(bp, instances, i, o, End, o.spec.clusterWide);
    TidyIsOrdinary(bp, instances, i, before, 0, o.spec.clusterWide);
    ServicesOnlyEnsure(bp, i, o);
    NothingReported(bp, i, before, store);
    RunPlanKeepsInputs(bp, i, before, store);
    later := RunPlan(bp, i, before, store).store;
    RolesStay(bp, store, later);
    ServicesAppend(bp, i, o, End, permissions);
    RunAppend(bp, i, before, permissions, store);
  }

  lemma ServicesOnlyEnsure(bp: Blueprint, i: Instance, o: Origin)
    ensures ChecksRolesOnly(ServicesPlan(bp, i, o, AccountPlan(bp, i, o, End)))
    ensures NoDeployment(ServicesPlan(bp, i, o, AccountPlan(bp, i, o, End)))
  {
    var account := AccountPlan(bp, i, o, End);
    var metrics := EnsurePlan(bp, i, o, MetricsService, ServicePolicy, account);
    assert ChecksRolesOnly(metrics) && NoDeployment(metrics);
  }

  // The exact condition of going cluster-wide without a gap: an undisturbed pass that asks
  // for the cluster-wide scope, with everything it needs in place, ends with a manager
  // binding if and only if no old name of the instance spells it. Otherwise the namespaced
  // binding is deleted for the new one, and the new one retired as an old one.
  lemma {:induction false} WidePassBound(bp: Blueprint, instances: set<Instance>, i: Instance, store: Store, ch: Choice)
    requires Sound(bp, instances) && i in instances
    requires Installable(store, bp.key(i, Custom)) && Typed(store) && RolesInstalled(bp, store)
    requires var spec := store.objects[bp.key(i, Custom)].body.spec;
      spec.clusterWide && SecretsThere(i, spec, store)
    ensures Bound(bp, i, Pass(bp, i, store, ch)) <==> Apart(bp, i, Manager)
  {
    var cr := store.objects[bp.key(i, Custom)];
    var o := OriginOf(cr);
    var r := PassResult(bp, i, store, ch);
    var later := PassReachesPermissions(bp, instances, i, o, ch, store);
    DeploymentTidy(bp, instances, i, o, ch.visit, true);
    PermissionsBound(bp, instances, i, o, DeploymentPlan(bp, i, o, ch.visit), later);
    PassRunsPlan(bp, instances, i, store, ch);
    ReportedStore(bp, i, r, cr, ch.now);
    assert SlotKind(Custom, bp.key(i, Custom).kind);
    assert SlotKind(ManagerBinding, LocalKey(bp, i).kind) && SlotKind(ClusterBinding(Manager), WideKey(bp, i).kind);
  }
}
