// What a pass leaves settled: every operation it got to is one that, done again, would find
// nothing to do.
module Settling {
  import opened Text
  import opened Api
  import opened Objects
  import opened Cluster
  import opened Protocol
  import opened Isolation
  import opened Undisturbed

  // ---- Operations that found or left things as they want them --------------

  predicate Settled(bp: Blueprint, i: Instance, op: Op, store: Store) {
    match op
    case Ensure(_, m, _) =>
      if IsObjectTaggedToDelete(m) then m.key !in store.objects
      else m.key in store.objects && Merged(store.objects[m.key], m) == store.objects[m.key]
    case RetireLegacy(g) => !Lists(bp, i, store, bp.key(i, LegacyBinding(g)))
    case _ => true
  }

  lemma MergedTwice(obj: Object, m: Manifest)
    ensures Merged(Merged(obj, m), m) == Merged(obj, m)
  {
    assert obj.meta.labels + m.labels + m.labels == obj.meta.labels + m.labels;
    assert obj.meta.owners + Owners(m) + Owners(m) == obj.meta.owners + Owners(m);
  }

  lemma MergedNew(uid: nat, version: nat, m: Manifest)
    ensures var obj := Object(uid, version, Meta(m.labels, Owners(m), {}, false), m.body);
      Merged(obj, m) == obj
  {
    assert m.labels + m.labels == m.labels;
    assert Owners(m) + Owners(m) == Owners(m);
  }

  lemma OpSettles(bp: Blueprint, i: Instance, op: Op, store: Store)
    ensures Settled(bp, i, op, OpStore(bp, i, op, store))
  {
    if op.Ensure? {
      if op.manifest.key in store.objects {
        MergedTwice(store.objects[op.manifest.key], op.manifest);
      } else {
        MergedNew(store.nextUid, store.nextVersion, op.manifest);
      }
    }
  }

  lemma SettledDoesNothing(bp: Blueprint, i: Instance, op: Op, store: Store)
    requires Settled(bp, i, op, store)
    ensures OpStore(bp, i, op, store) == store
  {
  }

  // ---- Operations that leave each other's work alone -----------------------

  function Touches(bp: Blueprint, i: Instance, op: Op): Option<Key> {
    match op
    case Ensure(_, m, _) => Some(m.key)
    case RetireLegacy(g) => Some(bp.key(i, LegacyBinding(g)))
    case _ => None
  }

  predicate Keeps(op: Op) {
    op.Ensure? && !IsObjectTaggedToDelete(op.manifest)
  }

  // `later` does not touch what `op` keeps, nor bring back what `op` removes.
  predicate Respects(bp: Blueprint, i: Instance, op: Op, later: Op) {
    Touches(bp, i, op).Some? && Touches(bp, i, later) == Touches(bp, i, op) ==> !Keeps(op) && !Keeps(later)
  }

  lemma SettledStays(bp: Blueprint, i: Instance, op: Op, later: Op, store: Store)
    requires Settled(bp, i, op, store) && Respects(bp, i, op, later)
    ensures Settled(bp, i, op, OpStore(bp, i, later, store))
  {
  }

  predicate RespectedBy(bp: Blueprint, i: Instance, op: Op, plan: Plan) {
    match plan
    case End => true
    case Then(later, rest) => Respects(bp, i, op, later) && RespectedBy(bp, i, op, rest)
  }

  predicate Orderly(bp: Blueprint, i: Instance, plan: Plan) {
    match plan
    case End => true
    case Then(op, rest) => RespectedBy(bp, i, op, rest) && Orderly(bp, i, rest)
  }

  // What checks read, and the custom resource, are nothing a plan writes.
  predicate ReadOnlyKind(kind: Kind) {
    kind == SecretKind || kind == ClusterRoleKind || kind == AuthorinoKind
  }

  predicate LeavesInputs(bp: Blueprint, i: Instance, plan: Plan) {
    match plan
    case End => true
    case Then(op, rest) =>
      && (Touches(bp, i, op).Some? ==> !ReadOnlyKind(Touches(bp, i, op).value.kind))
      && LeavesInputs(bp, i, rest)
  }

  ghost predicate Unwritten(a: Store, b: Store) {
    forall key: Key | ReadOnlyKind(key.kind) ::
      && (key in a.objects <==> key in b.objects)
      && (key in a.objects ==> a.objects[key] == b.objects[key])
  }

  // As far as checks are concerned.
  ghost predicate SameInputs(a: Store, b: Store) {
    forall key: Key | key.kind == SecretKind || key.kind == ClusterRoleKind :: key in a.objects <==> key in b.objects
  }

  // Every operation the plan gets to is settled.
  predicate AllSettled(bp: Blueprint, i: Instance, plan: Plan, store: Store) {
    match plan
    case End => true
    case Then(op, rest) =>
      if op.Panic? || Blocked(bp, i, op, store).Some? then true
      else if op.Ensure? && op.policy.DeploymentPolicy? then Settled(bp, i, op, store)
      else Settled(bp, i, op, store) && AllSettled(bp, i, rest, store)
  }

  lemma {:induction false} RunPlanKeepsSettled(bp: Blueprint, i: Instance, op: Op, plan: Plan, store: Store)
    requires Settled(bp, i, op, store) && RespectedBy(bp, i, op, plan)
    ensures Settled(bp, i, op, RunPlan(bp, i, plan, store).store)
  {
    if plan.Then? && !plan.op.Panic? && Blocked(bp, i, plan.op, store) == None {
      SettledStays(bp, i, op, plan.op, store);
      if !(plan.op.Ensure? && plan.op.policy.DeploymentPolicy?) {
        RunPlanKeepsSettled(bp, i, op, plan.rest, OpStore(bp, i, plan.op, store));
      }
    }
  }

  lemma {:induction false} RunPlanKeepsInputs(bp: Blueprint, i: Instance, plan: Plan, store: Store)
    requires LeavesInputs(bp, i, plan)
    ensures Unwritten(store, RunPlan(bp, i, plan, store).store)
  {
    if plan.Then? && !plan.op.Panic? && Blocked(bp, i, plan.op, store) == None {
      assert Unwritten(store, OpStore(bp, i, plan.op, store));
      if !(plan.op.Ensure? && plan.op.policy.DeploymentPolicy?) {
        RunPlanKeepsInputs(bp, i, plan.rest, OpStore(bp, i, plan.op, store));
      }
    }
  }

  lemma BlockedAlike(bp: Blueprint, i: Instance, op: Op, a: Store, b: Store)
    requires SameInputs(a, b) && (forall g :: bp.clusterRole(g).kind == ClusterRoleKind)
    ensures Blocked(bp, i, op, a) == Blocked(bp, i, op, b)
  {
    if op.NeedSecret? {
      assert Key(SecretKind, i.ns, op.name).kind == SecretKind;
    } else if op.NeedClusterRole? {
      assert bp.clusterRole(op.grant).kind == ClusterRoleKind;
    }
  }

  // An orderly plan leaves everything it got to settled.
  lemma {:induction false} RunPlanSettles(bp: Blueprint, i: Instance, plan: Plan, store: Store)
    requires Orderly(bp, i, plan) && LeavesInputs(bp, i, plan)
    requires forall g :: bp.clusterRole(g).kind == ClusterRoleKind
    ensures AllSettled(bp, i, plan, RunPlan(bp, i, plan, store).store)
  {
    if plan.Then? && !plan.op.Panic? {
      var after := RunPlan(bp, i, plan, store).store;
      RunPlanKeepsInputs(bp, i, plan, store);
      BlockedAlike(bp, i, plan.op, store, after);
      if Blocked(bp, i, plan.op, store) == None {
        var next := OpStore(bp, i, plan.op, store);
        OpSettles(bp, i, plan.op, store);
        if !(plan.op.Ensure? && plan.op.policy.DeploymentPolicy?) {
          RunPlanKeepsSettled(bp, i, plan.op, plan.rest, next);
          RunPlanSettles(bp, i, plan.rest, next);
        }
      }
    }
  }

  // Where everything is settled, a plan changes nothing.
  lemma {:induction false} SettledPlanDoesNothing(bp: Blueprint, i: Instance, plan: Plan, store: Store)
    requires AllSettled(bp, i, plan, store)
    ensures RunPlan(bp, i, plan, store).store == store
  {
    if plan.Then? && !plan.op.Panic? && Blocked(bp, i, plan.op, store) == None {
      SettledDoesNothing(bp, i, plan.op, store);
      if !(plan.op.Ensure? && plan.op.policy.DeploymentPolicy?) {
        SettledPlanDoesNothing(bp, i, plan.rest, store);
      }
    }
  }

  // ---- The plans of the operator are orderly -------------------------------

  // The order in which a pass writes.
  function Rank(slot: Slot): nat {
    match slot
    case AuthService => 0
    case OidcService => 1
    case MetricsService => 2
    case Account => 3
    case ClusterBinding(Manager) => 4
    case ManagerBinding => 5
    case ClusterBinding(K8sAuth) => 6
    case LeaderRole => 7
    case LeaderBinding => 8
    case LegacyBinding(Manager) => 9
    case LegacyBinding(K8sAuth) => 10
    case Application => 11
    case Custom => 12
  }

  function WrittenSlot(op: Op): Option<Slot> {
    match op
    case Ensure(slot, _, _) => Some(slot)
    case RetireLegacy(g) => Some(LegacyBinding(g))
    case _ => None
  }

  // Cluster-wide bindings are kept for K8sAuth, and for Manager only in a wide scope.
  predicate OpTidy(bp: Blueprint, i: Instance, op: Op, wide: bool) {
    match op
    case Ensure(slot, m, policy) =>
      && SubmittedOk(bp, i, slot, m)
      && (slot.ClusterBinding? && Keeps(op) ==> slot.grant == K8sAuth || wide)
      && (policy.DeploymentPolicy? ==> slot.Application? && DesiredWorkload(m))
    case PutFinalizer(_) => false
    case RemoveBinding(_) => false
    case _ => true
  }

  predicate Tidy(bp: Blueprint, i: Instance, plan: Plan, from: nat, wide: bool) {
    match plan
    case End => true
    case Then(op, rest) =>
      && OpTidy(bp, i, op, wide)
      && match WrittenSlot(op)
         case None => Tidy(bp, i, rest, from, wide)
         case Some(slot) => from <= Rank(slot) && Tidy(bp, i, rest, Rank(slot) + 1, wide)
  }

  // No old name of the instance spells what the operation keeps.
  ghost predicate Unspelled(bp: Blueprint, i: Instance, op: Op) {
    op.Ensure? && op.slot.ClusterBinding? && Keeps(op) ==> Apart(bp, i, op.slot.grant)
  }

  lemma TidyRespect(bp: Blueprint, instances: set<Instance>, i: Instance, op: Op, later: Op, wide: bool)
    requires Sound(bp, instances) && i in instances
    requires OpTidy(bp, i, op, wide) && OpTidy(bp, i, later, wide) && Unspelled(bp, i, op)
    requires WrittenSlot(op).Some? && WrittenSlot(later).Some?
    requires Rank(WrittenSlot(op).value) < Rank(WrittenSlot(later).value)
    ensures Respects(bp, i, op, later)
  {
    var s, t := WrittenSlot(op).value, WrittenSlot(later).value;
    assert SlotKind(s, bp.key(i, s).kind) && SlotKind(t, bp.key(i, t).kind);
    if Own(s) && Own(t) {
      assert bp.key(i, s) != bp.key(i, t);
    }
  }

  lemma {:induction false} TidyRespected(
      bp: Blueprint, instances: set<Instance>, i: Instance, op: Op, plan: Plan, from: nat, wide: bool)
    requires Sound(bp, instances) && i in instances
    requires OpTidy(bp, i, op, wide) && Unspelled(bp, i, op) && Tidy(bp, i, plan, from, wide)
    requires WrittenSlot(op).Some? ==> Rank(WrittenSlot(op).value) < from
    ensures RespectedBy(bp, i, op, plan)
  {
    if plan.Then? {
      if WrittenSlot(plan.op) == None {
        TidyRespected(bp, instances, i, op, plan.rest, from, wide);
      } else {
        TidyRespected(bp, instances, i, op, plan.rest, Rank(WrittenSlot(plan.op).value) + 1, wide);
        if WrittenSlot(op).Some? {
          TidyRespect(bp, instances, i, op, plan.op, wide);
        }
      }
    }
  }

  lemma OpLeavesInputs(bp: Blueprint, instances: set<Instance>, i: Instance, op: Op, wide: bool)
    requires Sound(bp, instances) && i in instances && OpTidy(bp, i, op, wide)
    ensures Touches(bp, i, op).Some? ==> !ReadOnlyKind(Touches(bp, i, op).value.kind)
  {
    if WrittenSlot(op).Some? {
      assert SlotKind(WrittenSlot(op).value, bp.key(i, WrittenSlot(op).value).kind);
    }
  }

  function RankAfter(op: Op, from: nat): nat {
    if WrittenSlot(op) == None then from else Rank(WrittenSlot(op).value) + 1
  }

  lemma {:induction false} TidyIsOrdinary(
      bp: Blueprint, instances: set<Instance>, i: Instance, plan: Plan, from: nat, wide: bool)
    requires Sound(bp, instances) && i in instances && Tidy(bp, i, plan, from, wide)
    ensures LeavesInputs(bp, i, plan) && Ordinary(plan)
  {
    if plan.Then? {
      TidyIsOrdinary(bp, instances, i, plan.rest, RankAfter(plan.op, from), wide);
      OpLeavesInputs(bp, instances, i, plan.op, wide);
    }
  }

  // An instance whose own legacy names spell none of the bindings its scope asks for.
  ghost predicate Migratable(bp: Blueprint, i: Instance, wide: bool) {
    Apart(bp, i, K8sAuth) && (wide ==> Apart(bp, i, Manager))
  }

  lemma {:induction false} TidyIsOrderly(
      bp: Blueprint, instances: set<Instance>, i: Instance, plan: Plan, from: nat, wide: bool)
    requires Sound(bp, instances) && i in instances && Tidy(bp, i, plan, from, wide)
    requires Migratable(bp, i, wide)
    ensures Orderly(bp, i, plan)
  {
    if plan.Then? {
      TidyIsOrderly(bp, instances, i, plan.rest, RankAfter(plan.op, from), wide);
      TidyRespected(bp, instances, i, plan.op, plan.rest, RankAfter(plan.op, from), wide);
    }
  }

  // ---- Tidiness of a pass, section by section ------------------------------

  lemma EnsureTidy(
      bp: Blueprint, instances: set<Instance>, i: Instance, o: Origin, slot: Slot, policy: Policy, rest: Plan,
      from: nat, wide: bool)
    requires Sound(bp, instances) && i in instances
    requires Managed(slot) && slot != Application && !policy.DeploymentPolicy?
    requires slot.ClusterBinding? ==> slot.grant == K8sAuth || wide
    requires from <= Rank(slot) && Tidy(bp, i, rest, Rank(slot) + 1, wide)
    ensures Tidy(bp, i, EnsurePlan(bp, i, o, slot, policy, rest), from, wide)
  {
    assert ManifestOk(bp, i, slot, bp.manifest(i, o, slot));
  }

  lemma CheckedTidy(bp: Blueprint, i: Instance, g: Grant, op: Op, rest: Plan, from: nat, wide: bool)
    requires op.Ensure? && OpTidy(bp, i, op, wide) && from <= Rank(op.slot)
      && Tidy(bp, i, rest, Rank(op.slot) + 1, wide)
    ensures Tidy(bp, i, Then(NeedClusterRole(g), Then(op, rest)), from, wide)
  {
    assert Tidy(bp, i, Then(op, rest), from, wide);
  }

  lemma LegacyTidy(bp: Blueprint, i: Instance, rest: Plan, wide: bool)
    requires Tidy(bp, i, rest, 11, wide)
    ensures Tidy(bp, i, LegacyPlan(rest), 9, wide)
  {
    assert Tidy(bp, i, Then(RetireLegacy(K8sAuth), rest), 10, wide);
  }

  lemma LeaderTidy(bp: Blueprint, instances: set<Instance>, i: Instance, o: Origin, rest: Plan, wide: bool)
    requires Sound(bp, instances) && i in instances && Tidy(bp, i, rest, 9, wide)
    ensures Tidy(bp, i, LeaderPlan(bp, i, o, rest), 7, wide)
  {
    EnsureTidy(bp, instances, i, o, LeaderBinding, BindingPolicy, rest, 8, wide);
    EnsureTidy(bp, instances, i, o, LeaderRole, RolePolicy, EnsurePlan(bp, i, o, LeaderBinding, BindingPolicy, rest), 7,
               wide);
  }

  lemma K8sAuthTidy(bp: Blueprint, instances: set<Instance>, i: Instance, o: Origin, rest: Plan, wide: bool)
    requires Sound(bp, instances) && i in instances && Tidy(bp, i, rest, 7, wide)
    ensures Tidy(bp, i, K8sAuthPlan(bp, i, o, rest), 6, wide)
  {
    var slot := ClusterBinding(K8sAuth);
    assert ManifestOk(bp, i, slot, bp.manifest(i, o, slot));
    CheckedTidy(bp, i, K8sAuth, Ensure(slot, bp.manifest(i, o, slot), BindingPolicy), rest, 6, wide);
  }

  lemma ManagerLocalTidy(bp: Blueprint, instances: set<Instance>, i: Instance, o: Origin, rest: Plan, wide: bool)
    requires Sound(bp, instances) && i in instances && Tidy(bp, i, rest, 6, wide)
    ensures Tidy(bp, i, ManagerLocalPlan(bp, i, o, rest), 5, wide)
  {
    ManagerManifestOk(bp, instances, i, o, ManagerBinding);
    CheckedTidy(bp, i, Manager, Ensure(ManagerBinding, ManagerManifest(bp, i, o, ManagerBinding), BindingPolicy), rest,
                5, wide);
  }

  function ManagerWideOp(bp: Blueprint, i: Instance, o: Origin): Op {
    Ensure(ClusterBinding(Manager), ManagerManifest(bp, i, o, ClusterBinding(Manager)),
           if o.spec.clusterWide then BindingPolicy else TolerantPolicy)
  }

  lemma ManagerWideTidy(bp: Blueprint, instances: set<Instance>, i: Instance, o: Origin, rest: Plan, wide: bool)
    requires Sound(bp, instances) && i in instances && Tidy(bp, i, rest, 5, wide)
    requires wide == o.spec.clusterWide
    ensures Tidy(bp, i, ManagerClusterPlan(bp, i, o, rest), 4, wide)
  {
    ManagerManifestOk(bp, instances, i, o, ClusterBinding(Manager));
    CheckedTidy(bp, i, Manager, ManagerWideOp(bp, i, o), rest, 4, wide);
  }

  lemma PermissionsTidy(bp: Blueprint, instances: set<Instance>, i: Instance, o: Origin, rest: Plan, wide: bool)
    requires Sound(bp, instances) && i in instances && Tidy(bp, i, rest, 11, wide)
    requires wide == o.spec.clusterWide
    ensures Tidy(bp, i, PermissionsPlan(bp, i, o, rest), 4, wide)
  {
    var legacy := LegacyPlan(rest);
    LegacyTidy(bp, i, rest, wide);
    var leader := LeaderPlan(bp, i, o, legacy);
    LeaderTidy(bp, instances, i, o, legacy, wide);
    var auth := K8sAuthPlan(bp, i, o, leader);
    K8sAuthTidy(bp, instances, i, o, leader, wide);
    var local := ManagerLocalPlan(bp, i, o, auth);
    ManagerLocalTidy(bp, instances, i, o, auth, wide);
    ManagerWideTidy(bp, instances, i, o, local, wide);
  }

  lemma ServicesTidy(bp: Blueprint, instances: set<Instance>, i: Instance, o: Origin, rest: Plan, wide: bool)
    requires Sound(bp, instances) && i in instances && Tidy(bp, i, rest, 4, wide)
    ensures Tidy(bp, i, ServicesPlan(bp, i, o, AccountPlan(bp, i, o, rest)), 0, wide)
  {
    var account := AccountPlan(bp, i, o, rest);
    EnsureTidy(bp, instances, i, o, Account, AccountPolicy, rest, 3, wide);
    var metrics := EnsurePlan(bp, i, o, MetricsService, ServicePolicy, account);
    EnsureTidy(bp, instances, i, o, MetricsService, ServicePolicy, account, 2, wide);
    EnsureTidy(bp, instances, i, o, OidcService, ServicePolicy, metrics, 1, wide);
    EnsureTidy(bp, instances, i, o, AuthService, ServicePolicy,
               EnsurePlan(bp, i, o, OidcService, ServicePolicy, metrics), 0, wide);
  }

  lemma PreflightTidy(bp: Blueprint, i: Instance, spec: Spec, listenerFirst: bool, rest: Plan, wide: bool)
    requires Tidy(bp, i, rest, 0, wide)
    ensures Tidy(bp, i, PreflightPlan(spec, listenerFirst, rest), 0, wide)
  {
    var second := SecretPlan(spec, FirstServer(!listenerFirst), rest);
    SecretTidy(bp, i, spec, FirstServer(!listenerFirst), rest, wide);
    SecretTidy(bp, i, spec, FirstServer(listenerFirst), second, wide);
  }

  lemma SecretTidy(bp: Blueprint, i: Instance, spec: Spec, server: Server, rest: Plan, wide: bool)
    requires Tidy(bp, i, rest, 0, wide)
    ensures Tidy(bp, i, SecretPlan(spec, server, rest), 0, wide)
  {
  }

  lemma DeploymentTidy(bp: Blueprint, instances: set<Instance>, i: Instance, o: Origin, visit: seq<string>, wide: bool)
    requires Sound(bp, instances) && i in instances
    ensures Tidy(bp, i, DeploymentPlan(bp, i, o, visit), 11, wide)
  {
    if bp.application(i, o, visit).Some? {
      assert ManifestOk(bp, i, Application, bp.application(i, o, visit).value);
      assert SlotKind(Application, bp.key(i, Application).kind);
    }
  }

  lemma InstallTidy(bp: Blueprint, instances: set<Instance>, i: Instance, o: Origin, ch: Choice)
    requires Sound(bp, instances) && i in instances
    ensures Tidy(bp, i, InstallPlan(bp, i, o, ch), 0, o.spec.clusterWide)
  {
    var wide := o.spec.clusterWide;
    var deployment := DeploymentPlan(bp, i, o, ch.visit);
    DeploymentTidy(bp, instances, i, o, ch.visit, wide);
    var permissions := PermissionsPlan(bp, i, o, deployment);
    PermissionsTidy(bp, instances, i, o, deployment, wide);
    ServicesTidy(bp, instances, i, o, permissions, wide);
    PreflightTidy(bp, i, o.spec, ch.listenerFirst, ServicesPlan(bp, i, o, AccountPlan(bp, i, o, permissions)), wide);
  }
}
