// No binding to a cluster role is written before that role was found in the same pass.
module Backing {
  import opened Text
  import opened Api
  import opened Objects
  import opened Cluster
  import opened Protocol
  import opened Isolation
  import opened Readiness

  predicate BindsClusterRole(m: Manifest) {
    && (m.key.kind == ClusterRoleBindingKind || m.key.kind == RoleBindingKind)
    && m.body.Binding? && m.body.roleRef.kind == ClusterRoleKind
  }

  predicate BoundTo(m: Manifest, g: Grant)
    requires BindsClusterRole(m)
  {
    m.body.roleRef.role == RoleFor(g)
  }

  // Every such binding of the plan comes after the check of its role, given the roles that
  // were checked before.
  ghost predicate Backed(plan: Plan, found: set<Grant>) {
    match plan
    case End => true
    case Then(op, rest) =>
      && (op.Ensure? && BindsClusterRole(op.manifest) ==> exists g :: g in found && BoundTo(op.manifest, g))
      && Backed(rest, if op.NeedClusterRole? then found + {op.grant} else found)
  }

  ghost predicate AllFound(bp: Blueprint, found: set<Grant>, trace: seq<Exchange>) {
    forall g | g in found :: FoundIn(trace, bp.clusterRole(g))
  }

  lemma {:induction false} BackedMore(plan: Plan, found: set<Grant>, more: set<Grant>)
    requires Backed(plan, found) && found <= more
    ensures Backed(plan, more)
  {
    if plan.Then? {
      if plan.op.NeedClusterRole? {
        BackedMore(plan.rest, found + {plan.op.grant}, more + {plan.op.grant});
      } else {
        BackedMore(plan.rest, found, more);
      }
    }
  }

  lemma {:induction false} BackedSuffix(
      bp: Blueprint, i: Instance, plan: Plan, current: Plan, found: set<Grant>, trace: seq<Exchange>)
    returns (then': set<Grant>)
    requires Backed(plan, found) && AllFound(bp, found, trace) && MetUpTo(bp, i, plan, current, trace)
    ensures Backed(current, then') && AllFound(bp, then', trace)
  {
    then' := found;
    if plan != current {
      then' := BackedSuffix(bp, i, plan.rest, current,
                            if plan.op.NeedClusterRole? then found + {plan.op.grant} else found, trace);
    }
  }

  lemma PlanBacked(bp: Blueprint, i: Instance, whole: Plan, current: Plan, trace: seq<Exchange>) returns (g: Grant)
    requires Backed(whole, {}) && MetUpTo(bp, i, whole, current, trace)
    requires current.Then? && current.op.Ensure? && BindsClusterRole(current.op.manifest)
    ensures BoundTo(current.op.manifest, g) && FoundIn(trace, bp.clusterRole(g))
  {
    var found := BackedSuffix(bp, i, whole, current, {}, trace);
    g :| g in found && BoundTo(current.op.manifest, g);
  }

  // ---- The plan of a pass --------------------------------------------------

  lemma EnsureBacked(
      bp: Blueprint, instances: set<Instance>, i: Instance, o: Origin, slot: Slot, policy: Policy, rest: Plan)
    requires Sound(bp, instances) && i in instances && Managed(slot) && slot != Application
    requires !slot.ClusterBinding? && !slot.ManagerBinding? && Backed(rest, {})
    ensures Backed(EnsurePlan(bp, i, o, slot, policy, rest), {})
  {
    assert ManifestOk(bp, i, slot, bp.manifest(i, o, slot));
    assert SlotKind(slot, bp.key(i, slot).kind);
  }

  // The check of a role, and a binding to it.
  lemma CheckedBacked(bp: Blueprint, i: Instance, g: Grant, op: Op, rest: Plan)
    requires op.Ensure? && op.manifest.body == GrantBody(bp, i, g) && Backed(rest, {})
    ensures Backed(Then(NeedClusterRole(g), Then(op, rest)), {})
  {
    BackedMore(rest, {}, {g});
    if BindsClusterRole(op.manifest) {
      assert BoundTo(op.manifest, g);
    }
    assert Backed(Then(op, rest), {g});
    assert {} + {g} == {g};
  }

  lemma ManagersBacked(bp: Blueprint, instances: set<Instance>, i: Instance, o: Origin, rest: Plan)
    requires Sound(bp, instances) && i in instances && Backed(rest, {})
    ensures Backed(ManagerClusterPlan(bp, i, o, ManagerLocalPlan(bp, i, o, rest)), {})
  {
    var local, wide := ManagerManifest(bp, i, o, ManagerBinding), ManagerManifest(bp, i, o, ClusterBinding(Manager));
    assert ManifestOk(bp, i, ManagerBinding, bp.manifest(i, o, ManagerBinding));
    assert ManifestOk(bp, i, ClusterBinding(Manager), bp.manifest(i, o, ClusterBinding(Manager)));
    CheckedBacked(bp, i, Manager, Ensure(ManagerBinding, local, BindingPolicy), rest);
    CheckedBacked(bp, i, Manager, Ensure(ClusterBinding(Manager), wide,
                                         if o.spec.clusterWide then BindingPolicy else TolerantPolicy),
                  ManagerLocalPlan(bp, i, o, rest));
  }

  lemma OthersBacked(bp: Blueprint, instances: set<Instance>, i: Instance, o: Origin, rest: Plan)
    requires Sound(bp, instances) && i in instances && Backed(rest, {})
    ensures Backed(K8sAuthPlan(bp, i, o, LeaderPlan(bp, i, o, LegacyPlan(rest))), {})
  {
    var legacy := LegacyPlan(rest);
    var auth := bp.manifest(i, o, ClusterBinding(K8sAuth));
    assert Backed(Then(RetireLegacy(K8sAuth), rest), {});
    assert Backed(legacy, {});
    EnsureBacked(bp, instances, i, o, LeaderBinding, BindingPolicy, legacy);
    EnsureBacked(bp, instances, i, o, LeaderRole, RolePolicy,
                 EnsurePlan(bp, i, o, LeaderBinding, BindingPolicy, legacy));
    assert ManifestOk(bp, i, ClusterBinding(K8sAuth), auth);
    CheckedBacked(bp, i, K8sAuth, Ensure(ClusterBinding(K8sAuth), auth, BindingPolicy), LeaderPlan(bp, i, o, legacy));
  }

  lemma ServicesBacked(bp: Blueprint, instances: set<Instance>, i: Instance, o: Origin, rest: Plan)
    requires Sound(bp, instances) && i in instances && Backed(rest, {})
    ensures Backed(ServicesPlan(bp, i, o, AccountPlan(bp, i, o, rest)), {})
  {
    var account := AccountPlan(bp, i, o, rest);
    var metrics := EnsurePlan(bp, i, o, MetricsService, ServicePolicy, account);
    var oidc := EnsurePlan(bp, i, o, OidcService, ServicePolicy, metrics);
    EnsureBacked(bp, instances, i, o, Account, AccountPolicy, rest);
    EnsureBacked(bp, instances, i, o, MetricsService, ServicePolicy, account);
    EnsureBacked(bp, instances, i, o, OidcService, ServicePolicy, metrics);
    EnsureBacked(bp, instances, i, o, AuthService, ServicePolicy, oidc);
  }

  lemma DeploymentBacked(bp: Blueprint, instances: set<Instance>, i: Instance, o: Origin, visit: seq<string>)
    requires Sound(bp, instances) && i in instances
    ensures Backed(DeploymentPlan(bp, i, o, visit), {})
  {
    if bp.application(i, o, visit).Some? {
      assert ManifestOk(bp, i, Application, bp.application(i, o, visit).value);
      assert SlotKind(Application, bp.key(i, Application).kind);
    }
  }

  lemma InstallBacked(bp: Blueprint, instances: set<Instance>, i: Instance, o: Origin, ch: Choice)
    requires Sound(bp, instances) && i in instances
    ensures Backed(InstallPlan(bp, i, o, ch), {})
  {
    var deployment := DeploymentPlan(bp, i, o, ch.visit);
    var auth := K8sAuthPlan(bp, i, o, LeaderPlan(bp, i, o, LegacyPlan(deployment)));
    var permissions := PermissionsPlan(bp, i, o, deployment);
    DeploymentBacked(bp, instances, i, o, ch.visit);
    OthersBacked(bp, instances, i, o, deployment);
    ManagersBacked(bp, instances, i, o, auth);
    ServicesBacked(bp, instances, i, o, permissions);
    PreflightBacked(o.spec, ch.listenerFirst, ServicesPlan(bp, i, o, AccountPlan(bp, i, o, permissions)));
  }

  lemma PreflightBacked(spec: Spec, listenerFirst: bool, rest: Plan)
    requires Backed(rest, {})
    ensures Backed(PreflightPlan(spec, listenerFirst, rest), {})
  {
    assert Backed(SecretPlan(spec, FirstServer(!listenerFirst), rest), {});
  }

  // ---- Over runs -----------------------------------------------------------

  // Who creates or applies is ensuring that very object, in the middle of an installation.
  lemma WriteEnsures(bp: Blueprint, i: Instance, w: Worker, m: Manifest, trace: seq<Exchange>)
    requires OnRecord(bp, i, w, trace)
    requires NextRequest(bp, i, w) == Create(m) || NextRequest(bp, i, w) == Apply(m)
    ensures w.Running? && w.plan.Then? && w.plan.op.Ensure? && w.plan.op.manifest == m
    ensures trace != [] && w.cr.body.Resource?
    ensures MetUpTo(bp, i, InstallPlan(bp, i, OriginOf(w.cr), trace[0].choice), w.plan, trace)
  {
  }

  lemma WriteBacked(
      bp: Blueprint, instances: set<Instance>, i: Instance, w: Worker, m: Manifest, trace: seq<Exchange>)
    returns (g: Grant)
    requires Sound(bp, instances) && i in instances && OnRecord(bp, i, w, trace) && BindsClusterRole(m)
    requires NextRequest(bp, i, w) == Create(m) || NextRequest(bp, i, w) == Apply(m)
    ensures BoundTo(m, g) && FoundIn(trace, bp.clusterRole(g))
  {
    WriteEnsures(bp, i, w, m, trace);
    InstallBacked(bp, instances, i, OriginOf(w.cr), trace[0].choice);
    g := PlanBacked(bp, i, InstallPlan(bp, i, OriginOf(w.cr), trace[0].choice), w.plan, trace);
  }

  // Over every run: a binding to a cluster role, cluster-wide or not, is created or applied
  // only after that very role was found in the same pass.
  lemma {:induction false} RolesComeFirst(bp: Blueprint, s: System, run: seq<Action>, i: Instance, m: Manifest)
    requires Initial(bp, s) && Legal(bp, s, run) && i in s.workers && BindsClusterRole(m)
    requires var r := After(bp, s, run);
      i in r.workers && (NextRequest(bp, i, r.workers[i]) == Create(m) || NextRequest(bp, i, r.workers[i]) == Apply(m))
    ensures exists g :: BoundTo(m, g) && FoundIn(Passage(bp, s, run, i, []), bp.clusterRole(g))
  {
    InitialInv(bp, s);
    RunKeepsInv(bp, s, run);
    RunOnRecord(bp, s, run, i, []);
    var g := WriteBacked(bp, s.workers.Keys, i, After(bp, s, run).workers[i], m, Passage(bp, s, run, i, []));
  }
}
