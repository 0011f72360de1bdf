// Convergence needs the instance's names apart: under clashing names no state is left as it
// is by a pass that gets through its permissions.
module Exactness {
  import opened Text
  import opened Api
  import opened Objects
  import opened Cluster
  import opened Protocol
  import opened Isolation
  import opened Undisturbed
  import opened Settling
  import opened Permissions
  import opened Convergence

  // ---- Stores only move forward --------------------------------------------

  ghost predicate Within(small: Contents, large: Contents) {
    forall key | key in small :: key in large && large[key] == small[key]
  }

  // Versions and uids are used up, or objects are only removed.
  ghost predicate Onward(a: Store, b: Store) {
    && a.nextVersion <= b.nextVersion && a.nextUid <= b.nextUid
    && (a.nextVersion == b.nextVersion && a.nextUid == b.nextUid ==> Within(b.objects, a.objects))
  }

  lemma OnwardBothWays(a: Store, b: Store)
    requires Onward(a, b) && Onward(b, a)
    ensures a == b
  {
    assert a.objects == b.objects;
  }

  lemma OpOnward(bp: Blueprint, i: Instance, op: Op, store: Store)
    ensures Onward(store, OpStore(bp, i, op, store))
  {
  }

  lemma {:induction false} RunPlanOnward(bp: Blueprint, i: Instance, plan: Plan, store: Store)
    ensures Onward(store, RunPlan(bp, i, plan, store).store)
  {
    if plan.Then? {
      OpOnward(bp, i, plan.op, store);
      if !(plan.op.Ensure? && plan.op.policy.DeploymentPolicy?) {
        RunPlanOnward(bp, i, plan.rest, OpStore(bp, i, plan.op, store));
      }
    }
  }

  // A plan leaves a store as it is only where all it gets to is settled.
  lemma {:induction false} UnchangedMeansSettled(bp: Blueprint, i: Instance, plan: Plan, store: Store)
    requires RunPlan(bp, i, plan, store).store == store
    ensures AllSettled(bp, i, plan, store)
  {
    if plan.Then? && !plan.op.Panic? && Blocked(bp, i, plan.op, store) == None {
      var next := OpStore(bp, i, plan.op, store);
      OpOnward(bp, i, plan.op, store);
      OpSettles(bp, i, plan.op, store);
      if !(plan.op.Ensure? && plan.op.policy.DeploymentPolicy?) {
        RunPlanOnward(bp, i, plan.rest, next);
        OnwardBothWays(store, next);
        UnchangedMeansSettled(bp, i, plan.rest, next);
      }
    }
  }

  // ---- Names that clash ----------------------------------------------------

  // Nothing stops a pass before its permissions.
  predicate SecretsThere(i: Instance, spec: Spec, store: Store) {
    !SecretMissing(i, spec.listener.tls, store) && !SecretMissing(i, spec.oidcServer.tls, store)
  }

  lemma ServicesSettled(bp: Blueprint, i: Instance, o: Origin, rest: Plan, store: Store)
    requires AllSettled(bp, i, ServicesPlan(bp, i, o, AccountPlan(bp, i, o, rest)), store)
    ensures AllSettled(bp, i, rest, store)
  {
    var account := AccountPlan(bp, i, o, rest);
    var metrics := EnsurePlan(bp, i, o, MetricsService, ServicePolicy, account);
    var oidc := EnsurePlan(bp, i, o, OidcService, ServicePolicy, metrics);
    assert AllSettled(bp, i, oidc, store);
    assert AllSettled(bp, i, metrics, store);
    assert AllSettled(bp, i, account, store);
  }

  lemma SecretsSettled(bp: Blueprint, i: Instance, spec: Spec, listenerFirst: bool, rest: Plan, store: Store)
    requires SecretsThere(i, spec, store) && AllSettled(bp, i, PreflightPlan(spec, listenerFirst, rest), store)
    ensures AllSettled(bp, i, rest, store)
  {
    RunPreflight(bp, i, spec, rest, listenerFirst, store);
  }

  lemma ReportOnward(bp: Blueprint, i: Instance, r: Result, cr: Object, now: int)
    requires cr.body.Resource?
    ensures Onward(r.store, Reported(bp, i, r, cr, now))
  {
  }

  // A store that a pass leaves as it is, with the TLS secrets and cluster roles in place,
  // has its permissions standing; so an instance whose old names spell a binding its scope
  // asks for never converges.
  lemma {:induction false} StableOnlyIfMigratable(
      bp: Blueprint, instances: set<Instance>, i: Instance, store: Store, ch: Choice)
    requires Sound(bp, instances) && i in instances
    requires Installable(store, bp.key(i, Custom)) && Typed(store) && RolesInstalled(bp, store)
    requires SecretsThere(i, store.objects[bp.key(i, Custom)].body.spec, store)
    requires Pass(bp, i, store, ch) == store
    ensures var o := OriginOf(store.objects[bp.key(i, Custom)]);
      PermissionsStand(bp, i, o, store) && Migratable(bp, i, o.spec.clusterWide)
  {
    var cr := store.objects[bp.key(i, Custom)];
    var o := OriginOf(cr);
    var plan := InstallPlan(bp, i, o, ch);
    var r := PassResult(bp, i, store, ch);
    PassRunsPlan(bp, instances, i, store, ch);
    RunPlanOnward(bp, i, plan, store);
    ReportOnward(bp, i, r, cr, ch.now);
    OnwardBothWays(store, r.store);
    UnchangedMeansSettled(bp, i, plan, store);
    var deployment := DeploymentPlan(bp, i, o, ch.visit);
    SecretsSettled(bp, i, o.spec, ch.listenerFirst, AfterPreflight(bp, i, o, deployment), store);
    ServicesSettled(bp, i, o, PermissionsPlan(bp, i, o, deployment), store);
    SettledPermissionsStand(bp, instances, i, o, deployment, store);
    StandingNeedsApartNames(bp, i, o, store);
  }
}
