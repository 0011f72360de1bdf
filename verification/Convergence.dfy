// A second undisturbed pass leaves everything as the first one left it.
module Convergence {
  import opened Text
  import opened Api
  import opened Objects
  import opened Cluster
  import opened Protocol
  import opened Isolation
  import opened Undisturbed
  import opened Settling
  import opened Permissions
  import Conditions

  // ---- Plans in two parts --------------------------------------------------

  function Append(plan: Plan, tail: Plan): Plan {
    match plan
    case End => tail
    case Then(op, rest) => Then(op, Append(rest, tail))
  }

  // A pass up to the Deployment.
  function Groundwork(bp: Blueprint, i: Instance, o: Origin, listenerFirst: bool, tail: Plan): Plan {
    PreflightPlan(o.spec, listenerFirst, AfterPreflight(bp, i, o, tail))
  }

  function AfterPreflight(bp: Blueprint, i: Instance, o: Origin, tail: Plan): Plan {
    ServicesPlan(bp, i, o, AccountPlan(bp, i, o, PermissionsPlan(bp, i, o, tail)))
  }

  lemma PermissionsAppend(bp: Blueprint, i: Instance, o: Origin, tail: Plan)
    ensures PermissionsPlan(bp, i, o, tail) == Append(PermissionsPlan(bp, i, o, End), tail)
  {
    var legacy := LegacyPlan(End);
    assert Append(Then(RetireLegacy(K8sAuth), End), tail) == Then(RetireLegacy(K8sAuth), tail);
    assert Append(legacy, tail) == LegacyPlan(tail);
    var leader := LeaderPlan(bp, i, o, legacy);
    assert Append(leader, tail) == LeaderPlan(bp, i, o, Append(legacy, tail));
    var binding := EnsurePlan(bp, i, o, ClusterBinding(K8sAuth), BindingPolicy, leader);
    assert Append(binding, tail) == EnsurePlan(bp, i, o, ClusterBinding(K8sAuth), BindingPolicy, Append(leader, tail));
    var auth := K8sAuthPlan(bp, i, o, leader);
    assert Append(auth, tail) == K8sAuthPlan(bp, i, o, Append(leader, tail));
    var local := ManagerLocalPlan(bp, i, o, auth);
    assert Append(local, tail) == ManagerLocalPlan(bp, i, o, Append(auth, tail));
  }

  lemma ServicesAppend(bp: Blueprint, i: Instance, o: Origin, rest: Plan, tail: Plan)
    ensures Append(ServicesPlan(bp, i, o, AccountPlan(bp, i, o, rest)), tail)
         == ServicesPlan(bp, i, o, AccountPlan(bp, i, o, Append(rest, tail)))
  {
    var account := AccountPlan(bp, i, o, rest);
    assert Append(account, tail) == AccountPlan(bp, i, o, Append(rest, tail));
    var metrics := EnsurePlan(bp, i, o, MetricsService, ServicePolicy, account);
    assert Append(metrics, tail) == EnsurePlan(bp, i, o, MetricsService, ServicePolicy, Append(account, tail));
  }

  lemma PreflightAppend(spec: Spec, listenerFirst: bool, rest: Plan, tail: Plan)
    ensures Append(PreflightPlan(spec, listenerFirst, rest), tail)
      == PreflightPlan(spec, listenerFirst, Append(rest, tail))
  {
  }

  lemma InstallInTwo(bp: Blueprint, i: Instance, o: Origin, ch: Choice)
    ensures InstallPlan(bp, i, o, ch)
         == Append(Groundwork(bp, i, o, ch.listenerFirst, End), DeploymentPlan(bp, i, o, ch.visit))
  {
    var tail := DeploymentPlan(bp, i, o, ch.visit);
    PermissionsAppend(bp, i, o, tail);
    ServicesAppend(bp, i, o, PermissionsPlan(bp, i, o, End), tail);
    PreflightAppend(o.spec, ch.listenerFirst, AfterPreflight(bp, i, o, End), tail);
  }

  predicate NoDeployment(plan: Plan) {
    match plan
    case End => true
    case Then(op, rest) => !op.Panic? && (op.Ensure? ==> !op.policy.DeploymentPolicy?) && NoDeployment(rest)
  }

  lemma GroundworkNoDeployment(bp: Blueprint, i: Instance, o: Origin, listenerFirst: bool)
    ensures NoDeployment(Groundwork(bp, i, o, listenerFirst, End))
  {
    var legacy := LegacyPlan(End);
    assert NoDeployment(legacy);
    var leader := LeaderPlan(bp, i, o, legacy);
    assert NoDeployment(leader);
    var auth := K8sAuthPlan(bp, i, o, leader);
    assert NoDeployment(auth);
    var local := ManagerLocalPlan(bp, i, o, auth);
    assert NoDeployment(local);
    var account := AccountPlan(bp, i, o, PermissionsPlan(bp, i, o, End));
    assert NoDeployment(account);
    var metrics := EnsurePlan(bp, i, o, MetricsService, ServicePolicy, account);
    assert NoDeployment(metrics);
    var services := AfterPreflight(bp, i, o, End);
    assert NoDeployment(services);
  }

  // A plan in two parts: the second part runs where the first one left, unless the first
  // one reported a failure.
  lemma {:induction false} RunAppend(bp: Blueprint, i: Instance, plan: Plan, tail: Plan, store: Store)
    requires NoDeployment(plan)
    ensures var first := RunPlan(bp, i, plan, store);
      RunPlan(bp, i, Append(plan, tail), store) ==
        if first.report.Some? then first else RunPlan(bp, i, tail, first.store)
  {
    if plan.Then? && Blocked(bp, i, plan.op, store) == None {
      RunAppend(bp, i, plan.rest, tail, OpStore(bp, i, plan.op, store));
    }
  }

  lemma {:induction false} SettledInTwo(bp: Blueprint, i: Instance, plan: Plan, tail: Plan, store: Store)
    requires NoDeployment(plan)
    ensures AllSettled(bp, i, Append(plan, tail), store) <==>
      AllSettled(bp, i, plan, store) && (RunPlan(bp, i, plan, store).report == None ==> AllSettled(bp, i, tail, store))
  {
    if plan.Then? && Blocked(bp, i, plan.op, store) == None {
      SettledInTwo(bp, i, plan.rest, tail, store);
      if Settled(bp, i, plan.op, store) {
        SettledDoesNothing(bp, i, plan.op, store);
      }
    }
  }

  // ---- What is reported ----------------------------------------------------

  lemma OpKeepsInputs(bp: Blueprint, i: Instance, op: Op, a: Store, b: Store)
    requires SameInputs(a, b)
    requires Touches(bp, i, op).Some? ==> !ReadOnlyKind(Touches(bp, i, op).value.kind)
    ensures SameInputs(OpStore(bp, i, op, a), OpStore(bp, i, op, b))
  {
  }

  lemma {:induction false} ReportFromInputs(bp: Blueprint, i: Instance, plan: Plan, a: Store, b: Store)
    requires SameInputs(a, b) && LeavesInputs(bp, i, plan) && NoDeployment(plan)
    requires forall g :: bp.clusterRole(g).kind == ClusterRoleKind
    ensures RunPlan(bp, i, plan, a).report == RunPlan(bp, i, plan, b).report
  {
    if plan.Then? {
      BlockedAlike(bp, i, plan.op, a, b);
      if Blocked(bp, i, plan.op, a) == None {
        OpKeepsInputs(bp, i, plan.op, a, b);
        ReportFromInputs(bp, i, plan.rest, OpStore(bp, i, plan.op, a), OpStore(bp, i, plan.op, b));
      }
    }
  }

  predicate SecretMissing(i: Instance, tls: Tls, store: Store) {
    tls.On() &&
      (tls.certSecret == None || tls.certSecret.value == ""
       || Key(SecretKind, i.ns, tls.certSecret.value) !in store.objects)
  }

  predicate BothMissing(i: Instance, spec: Spec, store: Store) {
    SecretMissing(i, spec.listener.tls, store) && SecretMissing(i, spec.oidcServer.tls, store)
  }

  // What is reported of a server without its secret: the message names the server.
  function SecretReport(spec: Spec, server: Server): Condition {
    var tls := ServerTls(spec, server);
    StatusNotReady(TlsSecretNotProvided,
                   if tls.certSecret == None || tls.certSecret.value == "" then SecretNotNamed(server)
                   else SecretNotFound(server, tls.certSecret.value))
  }

  lemma RunSecret(bp: Blueprint, i: Instance, spec: Spec, server: Server, rest: Plan, store: Store)
    ensures RunPlan(bp, i, SecretPlan(spec, server, rest), store) ==
      if SecretMissing(i, ServerTls(spec, server), store) then Result(store, Some(SecretReport(spec, server)))
      else RunPlan(bp, i, rest, store)
    ensures AllSettled(bp, i, SecretPlan(spec, server, rest), store) ==
      (SecretMissing(i, ServerTls(spec, server), store) || AllSettled(bp, i, rest, store))
  {
  }

  // Preflight by cases: the first server decides if its secret is missing, then the second.
  lemma RunPreflight(bp: Blueprint, i: Instance, spec: Spec, rest: Plan, listenerFirst: bool, store: Store)
    ensures var first, second := FirstServer(listenerFirst), FirstServer(!listenerFirst);
      RunPlan(bp, i, PreflightPlan(spec, listenerFirst, rest), store) ==
        if SecretMissing(i, ServerTls(spec, first), store) then Result(store, Some(SecretReport(spec, first)))
        else if SecretMissing(i, ServerTls(spec, second), store) then Result(store, Some(SecretReport(spec, second)))
        else RunPlan(bp, i, rest, store)
    ensures AllSettled(bp, i, PreflightPlan(spec, listenerFirst, rest), store) ==
      (SecretMissing(i, spec.listener.tls, store) || SecretMissing(i, spec.oidcServer.tls, store)
       || AllSettled(bp, i, rest, store))
  {
    var second := FirstServer(!listenerFirst);
    RunSecret(bp, i, spec, second, rest, store);
    RunSecret(bp, i, spec, FirstServer(listenerFirst), SecretPlan(spec, second, rest), store);
  }

  // The order in which the two servers are checked shows in the outcome exactly when both
  // secrets are missing: then the report names the server that came first.
  lemma EitherOrder(bp: Blueprint, i: Instance, spec: Spec, rest: Plan, a: bool, b: bool, store: Store)
    ensures RunPlan(bp, i, PreflightPlan(spec, a, rest), store) == RunPlan(bp, i, PreflightPlan(spec, b, rest), store)
      <==> a == b || !BothMissing(i, spec, store)
    ensures AllSettled(bp, i, PreflightPlan(spec, a, rest), store)
         == AllSettled(bp, i, PreflightPlan(spec, b, rest), store)
  {
    RunPreflight(bp, i, spec, rest, a, store);
    RunPreflight(bp, i, spec, rest, b, store);
  }

  // ---- Status --------------------------------------------------------------

  lemma {:induction false} UpsertTwice(list: seq<Condition>, c: Condition, now: int, later: int)
    ensures Conditions.Upsert(Conditions.Upsert(list, c, now), c, later) == Conditions.Upsert(list, c, now)
  {
    if list != [] && list[0].ctype != c.ctype {
      UpsertTwice(list[1..], c, now, later);
      assert Conditions.Upsert(list, c, now)[1..] == Conditions.Upsert(list[1..], c, now);
    } else if list != [] {
      assert Conditions.Upsert(list, c, now)[1..] == list[1..];
    }
  }

  lemma {:induction false} UpsertKeepsTypes(list: seq<Condition>, c: Condition, now: int)
    ensures |list| <= |Conditions.Upsert(list, c, now)|
    ensures forall k | 0 <= k < |list| :: Conditions.Upsert(list, c, now)[k].ctype == list[k].ctype
  {
    if list != [] && list[0].ctype != c.ctype {
      UpsertKeepsTypes(list[1..], c, now);
      forall k | 0 <= k < |list|
        ensures Conditions.Upsert(list, c, now)[k].ctype == list[k].ctype
      {
        assert k > 0 ==> list[k] == list[1..][k - 1];
      }
    }
  }

  lemma {:induction false} NoOtherTypes(stored: seq<Condition>, applied: seq<Condition>)
    requires forall k | 0 <= k < |stored| :: exists j | 0 <= j < |applied| :: applied[j].ctype == stored[k].ctype
    ensures OtherTypes(stored, applied) == []
  {
    if stored != [] {
      assert exists j | 0 <= j < |applied| :: applied[j].ctype == stored[0].ctype;
      forall k | 0 <= k < |stored[1..]|
        ensures exists j | 0 <= j < |applied| :: applied[j].ctype == stored[1..][k].ctype
      {
        assert stored[1..][k] == stored[k + 1];
      }
      NoOtherTypes(stored[1..], applied);
    }
  }

  // The status a report leaves is the updated list of conditions.
  lemma ReportedConditions(cr: Object, c: Condition, now: int)
    requires cr.body.Resource?
    ensures WithConditions(cr, Conditions.Upsert(cr.body.conditions, c, now))
         == cr.(body := cr.body.(conditions := Conditions.Upsert(cr.body.conditions, c, now)))
  {
    var stored, applied := cr.body.conditions, Conditions.Upsert(cr.body.conditions, c, now);
    UpsertKeepsTypes(stored, c, now);
    forall k | 0 <= k < |stored|
      ensures exists j | 0 <= j < |applied| :: applied[j].ctype == stored[k].ctype
    {
      assert applied[k].ctype == stored[k].ctype;
    }
    NoOtherTypes(stored, applied);
    assert MergedConditions(stored, applied) == applied;
  }

  // A report changes nothing but the conditions of the custom resource.
  lemma ReportedStore(bp: Blueprint, i: Instance, r: Result, cr: Object, now: int)
    requires cr.body.Resource?
    requires bp.key(i, Custom) in r.store.objects && r.store.objects[bp.key(i, Custom)] == cr
    ensures var key, after := bp.key(i, Custom), Reported(bp, i, r, cr, now);
      && key in after.objects
      && after.objects[key].(version := cr.version) ==
           cr.(body := cr.body.(conditions :=
             if r.report == None then cr.body.conditions
             else Conditions.Upsert(cr.body.conditions, r.report.value, now)))
      && (forall other | other != key ::
            && (other in after.objects <==> other in r.store.objects)
            && (other in after.objects ==> after.objects[other] == r.store.objects[other]))
  {
    if r.report.Some? {
      ReportedConditions(cr, r.report.value, now);
    }
  }

  // Reporting again what was reported last changes nothing at all.
  lemma ReportedAgain(
      bp: Blueprint, i: Instance, r: Result, cr: Object, conditions: seq<Condition>, before: int, now: int)
    requires cr.body.Resource?
    requires bp.key(i, Custom) in r.store.objects && r.store.objects[bp.key(i, Custom)] == cr
    requires r.report.Some? ==> cr.body.conditions == Conditions.Upsert(conditions, r.report.value, before)
    ensures Reported(bp, i, r, cr, now) == r.store
  {
    if r.report.Some? {
      UpsertTwice(conditions, r.report.value, before, now);
      ReportedConditions(cr, r.report.value, now);
    }
  }

  // ---- The whole pass ------------------------------------------------------

  // A custom resource that a pass installs.
  predicate Installable(store: Store, key: Key) {
    && key in store.objects
    && store.objects[key].body.Resource?
    && OperatorFinalizer in store.objects[key].meta.finalizers
    && !store.objects[key].meta.deleting
  }

  function PassResult(bp: Blueprint, i: Instance, store: Store, ch: Choice): Result
    requires Installable(store, bp.key(i, Custom))
  {
    RunPlan(bp, i, InstallPlan(bp, i, OriginOf(store.objects[bp.key(i, Custom)]), ch), store)
  }

  // A pass does what its plan does and reports the outcome.
  lemma PassRunsPlan(bp: Blueprint, instances: set<Instance>, i: Instance, store: Store, ch: Choice)
    requires Sound(bp, instances) && i in instances
    requires Installable(store, bp.key(i, Custom)) && Typed(store)
    ensures var cr, r := store.objects[bp.key(i, Custom)], PassResult(bp, i, store, ch);
      && Pass(bp, i, store, ch) == Reported(bp, i, r, cr, ch.now)
      && bp.key(i, Custom) in r.store.objects && r.store.objects[bp.key(i, Custom)] == cr
      && Unwritten(store, r.store)
  {
    var cr := store.objects[bp.key(i, Custom)];
    var plan := InstallPlan(bp, i, OriginOf(cr), ch);
    InstallTidy(bp, instances, i, OriginOf(cr), ch);
    TidyIsOrdinary(bp, instances, i, plan, 0, cr.body.spec.clusterWide);
    AloneRunsPlan(bp, i, cr, plan, store, ch);
    RunPlanKeepsInputs(bp, i, plan, store);
    assert SlotKind(Custom, bp.key(i, Custom).kind);
  }

  // What is settled does not depend on the custom resource.
  lemma {:induction false} SettledElsewhere(bp: Blueprint, i: Instance, plan: Plan, a: Store, b: Store, key: Key)
    requires AllSettled(bp, i, plan, a) && LeavesInputs(bp, i, plan) && key.kind == AuthorinoKind
    requires forall g :: bp.clusterRole(g).kind == ClusterRoleKind
    requires forall other | other != key ::
      && (other in b.objects <==> other in a.objects)
      && (other in b.objects ==> b.objects[other] == a.objects[other])
    ensures AllSettled(bp, i, plan, b)
  {
    if plan.Then? {
      assert Blocked(bp, i, plan.op, a) == Blocked(bp, i, plan.op, b);
      if !plan.op.Panic? && Blocked(bp, i, plan.op, a) == None
        && !(plan.op.Ensure? && plan.op.policy.DeploymentPolicy?) {
        SettledElsewhere(bp, i, plan.rest, a, b, key);
      }
    }
  }

  ghost predicate SameBut(a: Store, b: Store, key: Key) {
    forall other | other != key ::
      && (other in b.objects <==> other in a.objects)
      && (other in b.objects ==> b.objects[other] == a.objects[other])
  }

  // A pass leaves what checks look at.
  lemma SameChecks(
      bp: Blueprint, instances: set<Instance>, i: Instance, o: Origin, store: Store, once: Store, ch: Choice)
    requires Sound(bp, instances) && i in instances
    requires SameBut(RunPlan(bp, i, InstallPlan(bp, i, o, ch), store).store, once, bp.key(i, Custom))
    ensures SameInputs(store, once)
    ensures BothMissing(i, o.spec, once) == BothMissing(i, o.spec, store)
    ensures LeavesInputs(bp, i, InstallPlan(bp, i, o, ch))
  {
    var plan := InstallPlan(bp, i, o, ch);
    InstallTidy(bp, instances, i, o, ch);
    TidyIsOrdinary(bp, instances, i, plan, 0, o.spec.clusterWide);
    RunPlanKeepsInputs(bp, i, plan, store);
    assert SlotKind(Custom, bp.key(i, Custom).kind);
  }

  lemma SameObstacle(
      bp: Blueprint, instances: set<Instance>, i: Instance, o: Origin, store: Store, once: Store, ch: Choice)
    requires Sound(bp, instances) && i in instances
    requires SameBut(RunPlan(bp, i, InstallPlan(bp, i, o, ch), store).store, once, bp.key(i, Custom))
    ensures var first := Groundwork(bp, i, o, ch.listenerFirst, End);
      RunPlan(bp, i, first, store).report == RunPlan(bp, i, first, once).report
  {
    var first := Groundwork(bp, i, o, ch.listenerFirst, End);
    SameChecks(bp, instances, i, o, store, once, ch);
    InstallInTwo(bp, i, o, ch);
    PrefixLeavesInputs(bp, i, first, DeploymentPlan(bp, i, o, ch.visit));
    GroundworkNoDeployment(bp, i, o, ch.listenerFirst);
    ReportFromInputs(bp, i, first, store, once);
  }

  lemma SettledOnce(
      bp: Blueprint, instances: set<Instance>, i: Instance, o: Origin, store: Store, once: Store, ch: Choice)
    requires Sound(bp, instances) && i in instances && Migratable(bp, i, o.spec.clusterWide)
    requires SameBut(RunPlan(bp, i, InstallPlan(bp, i, o, ch), store).store, once, bp.key(i, Custom))
    ensures AllSettled(bp, i, InstallPlan(bp, i, o, ch), once)
  {
    var plan := InstallPlan(bp, i, o, ch);
    InstallTidy(bp, instances, i, o, ch);
    TidyIsOrdinary(bp, instances, i, plan, 0, o.spec.clusterWide);
    TidyIsOrderly(bp, instances, i, plan, 0, o.spec.clusterWide);
    RunPlanSettles(bp, i, plan, store);
    assert SlotKind(Custom, bp.key(i, Custom).kind);
    SettledElsewhere(bp, i, plan, RunPlan(bp, i, plan, store).store, once, bp.key(i, Custom));
  }

  // Whatever order of checks the second pass takes: up to the Deployment it finds everything
  // settled, and runs into the same obstacle as the first one, if any - unless both servers
  // are without their secret and the orders differ.
  lemma GroundworkAgain(bp: Blueprint, instances: set<Instance>, i: Instance, o: Origin, store: Store, once: Store,
                        ch: Choice, listenerFirst: bool)
    requires Sound(bp, instances) && i in instances && Migratable(bp, i, o.spec.clusterWide)
    requires SameBut(RunPlan(bp, i, InstallPlan(bp, i, o, ch), store).store, once, bp.key(i, Custom))
    ensures var again := RunPlan(bp, i, Groundwork(bp, i, o, listenerFirst, End), once);
      && again.store == once
      && (listenerFirst == ch.listenerFirst || !BothMissing(i, o.spec, store) ==>
            again.report == RunPlan(bp, i, Groundwork(bp, i, o, ch.listenerFirst, End), store).report)
    ensures AllSettled(bp, i, InstallPlan(bp, i, o, ch), once)
  {
    var first, second := Groundwork(bp, i, o, ch.listenerFirst, End), Groundwork(bp, i, o, listenerFirst, End);
    SettledOnce(bp, instances, i, o, store, once, ch);
    InstallInTwo(bp, i, o, ch);
    GroundworkNoDeployment(bp, i, o, ch.listenerFirst);
    SettledInTwo(bp, i, first, DeploymentPlan(bp, i, o, ch.visit), once);
    EitherOrder(bp, i, o.spec, AfterPreflight(bp, i, o, End), ch.listenerFirst, listenerFirst, once);
    SettledPlanDoesNothing(bp, i, second, once);
    SameChecks(bp, instances, i, o, store, once, ch);
    SameObstacle(bp, instances, i, o, store, once, ch);
  }

  lemma {:induction false} PrefixLeavesInputs(bp: Blueprint, i: Instance, plan: Plan, tail: Plan)
    requires LeavesInputs(bp, i, Append(plan, tail))
    ensures LeavesInputs(bp, i, plan)
  {
    if plan.Then? {
      PrefixLeavesInputs(bp, i, plan.rest, tail);
    }
  }

  // Nothing is written, or the Deployment as the second pass describes it.
  predicate AtMostApplied(once: Store, again: Store, application: Option<Manifest>) {
    again == once || (application.Some? && again == EnsureStore(application.value, once))
  }

  // The Deployment was found as available, or not, as it was the first time.
  lemma DeploymentAgain(
      bp: Blueprint, instances: set<Instance>, i: Instance, o: Origin, before: Store, once: Store, a: seq<string>,
      b: seq<string>)
    requires Sound(bp, instances) && i in instances
    requires SameBut(RunPlan(bp, i, DeploymentPlan(bp, i, o, a), before).store, once, bp.key(i, Custom))
    requires bp.application(i, o, a).Some? == bp.application(i, o, b).Some?
    ensures var again := RunPlan(bp, i, DeploymentPlan(bp, i, o, b), once);
      && again.report == RunPlan(bp, i, DeploymentPlan(bp, i, o, a), before).report
      && SameBut(once, again.store, bp.key(i, Application))
      && AtMostApplied(once, again.store, bp.application(i, o, b))
  {
    if bp.application(i, o, a).Some? {
      assert ManifestOk(bp, i, Application, bp.application(i, o, a).value);
      assert ManifestOk(bp, i, Application, bp.application(i, o, b).value);
      assert SlotKind(Custom, bp.key(i, Custom).kind) && SlotKind(Application, bp.key(i, Application).kind);
    }
  }

  // The second pass as a plan.
  lemma PlanAgain(
      bp: Blueprint, instances: set<Instance>, i: Instance, o: Origin, store: Store, once: Store, ch1: Choice,
      ch2: Choice)
    requires Sound(bp, instances) && i in instances && Migratable(bp, i, o.spec.clusterWide)
    requires SameBut(RunPlan(bp, i, InstallPlan(bp, i, o, ch1), store).store, once, bp.key(i, Custom))
    requires bp.application(i, o, ch1.visit).Some? == bp.application(i, o, ch2.visit).Some?
    requires ch1.listenerFirst == ch2.listenerFirst || !BothMissing(i, o.spec, store)
    ensures var again := RunPlan(bp, i, InstallPlan(bp, i, o, ch2), once);
      && again.report == RunPlan(bp, i, InstallPlan(bp, i, o, ch1), store).report
      && SameBut(once, again.store, bp.key(i, Application))
      && AtMostApplied(once, again.store, bp.application(i, o, ch2.visit))
      && (bp.application(i, o, ch1.visit) == bp.application(i, o, ch2.visit) ==> again.store == once)
  {
    var first, second := Groundwork(bp, i, o, ch1.listenerFirst, End), Groundwork(bp, i, o, ch2.listenerFirst, End);
    var tail1, tail2 := DeploymentPlan(bp, i, o, ch1.visit), DeploymentPlan(bp, i, o, ch2.visit);
    GroundworkAgain(bp, instances, i, o, store, once, ch1, ch2.listenerFirst);
    GroundworkAgain(bp, instances, i, o, store, once, ch1, ch1.listenerFirst);
    InstallInTwo(bp, i, o, ch1);
    InstallInTwo(bp, i, o, ch2);
    GroundworkNoDeployment(bp, i, o, ch1.listenerFirst);
    GroundworkNoDeployment(bp, i, o, ch2.listenerFirst);
    RunAppend(bp, i, first, tail1, store);
    RunAppend(bp, i, second, tail2, once);
    var before := RunPlan(bp, i, first, store);
    if before.report == None {
      DeploymentAgain(bp, instances, i, o, before.store, once, ch1.visit, ch2.visit);
      SettledInTwo(bp, i, first, tail1, once);
      if bp.application(i, o, ch1.visit) == bp.application(i, o, ch2.visit) {
        SettledPlanDoesNothing(bp, i, tail2, once);
      }
    }
  }

  lemma {:induction false} RunPlanTyped(bp: Blueprint, i: Instance, plan: Plan, store: Store)
    requires Ordinary(plan) && Typed(store)
    ensures Typed(RunPlan(bp, i, plan, store).store)
  {
    if plan.Then? && !plan.op.Panic? && Blocked(bp, i, plan.op, store) == None {
      var next := OpStore(bp, i, plan.op, store);
      if plan.op.Ensure? {
        EnsureTyped(plan.op.manifest, store);
      }
      if !(plan.op.Ensure? && plan.op.policy.DeploymentPolicy?) {
        RunPlanTyped(bp, i, plan.rest, next);
      }
    }
  }

  lemma PassTyped(bp: Blueprint, instances: set<Instance>, i: Instance, store: Store, ch: Choice)
    requires Sound(bp, instances) && i in instances
    requires Installable(store, bp.key(i, Custom)) && Typed(store)
    ensures Typed(Pass(bp, i, store, ch))
  {
    var cr := store.objects[bp.key(i, Custom)];
    var plan := InstallPlan(bp, i, OriginOf(cr), ch);
    InstallTidy(bp, instances, i, OriginOf(cr), ch);
    TidyIsOrdinary(bp, instances, i, plan, 0, cr.body.spec.clusterWide);
    RunPlanTyped(bp, i, plan, store);
    PassRunsPlan(bp, instances, i, store, ch);
    ReportedStore(bp, i, PassResult(bp, i, store, ch), cr, ch.now);
    assert SlotKind(Custom, bp.key(i, Custom).kind);
  }

  // The passes check different servers first, and both are without their secret.
  predicate Swapped(i: Instance, spec: Spec, store: Store, ch1: Choice, ch2: Choice) {
    ch1.listenerFirst != ch2.listenerFirst && BothMissing(i, spec, store)
  }

  lemma UnswappedPass(bp: Blueprint, instances: set<Instance>, i: Instance, store: Store, ch1: Choice, ch2: Choice)
    requires Sound(bp, instances) && i in instances
    requires Installable(store, bp.key(i, Custom)) && Typed(store)
    requires var o := OriginOf(store.objects[bp.key(i, Custom)]);
      && Migratable(bp, i, o.spec.clusterWide) && !Swapped(i, o.spec, store, ch1, ch2)
      && bp.application(i, o, ch1.visit).Some? == bp.application(i, o, ch2.visit).Some?
    ensures var o := OriginOf(store.objects[bp.key(i, Custom)]);
      var once := Pass(bp, i, store, ch1);
      var twice := Pass(bp, i, once, ch2);
      && SameBut(once, twice, bp.key(i, Application))
      && AtMostApplied(once, twice, bp.application(i, o, ch2.visit))
      && (bp.application(i, o, ch1.visit) == bp.application(i, o, ch2.visit) ==> twice == once)
  {
    var key := bp.key(i, Custom);
    var cr := store.objects[key];
    var o := OriginOf(cr);
    var r1 := PassResult(bp, i, store, ch1);
    PassRunsPlan(bp, instances, i, store, ch1);
    ReportedStore(bp, i, r1, cr, ch1.now);
    var once := Pass(bp, i, store, ch1);
    PassTyped(bp, instances, i, store, ch1);
    PassRunsPlan(bp, instances, i, once, ch2);
    PlanAgain(bp, instances, i, o, store, once, ch1, ch2);
    var r2 := PassResult(bp, i, once, ch2);
    ReportedAgain(bp, i, r2, once.objects[key], cr.body.conditions, ch1.now, ch2.now);
  }

  // ---- Both servers without their secret -----------------------------------

  // The two lists agree entry by entry but for the message of the first entry of the type.
  ghost predicate MessageDiffersAt(before: seq<Condition>, after: seq<Condition>, ctype: ConditionType, k: nat) {
    && k < |before| == |after|
    && before[k].ctype == ctype && (forall j | 0 <= j < k :: before[j].ctype != ctype)
    && after[k].message != before[k].message
    && after == before[k := before[k].(message := after[k].message)]
  }

  // Another message for the same status and reason changes the message of the entry alone.
  lemma {:induction false} UpsertMessage(list: seq<Condition>, c: Condition, message: Message, now: int, later: int)
    returns (k: nat)
    requires message != c.message
    ensures var once := Conditions.Upsert(list, c, now);
      MessageDiffersAt(once, Conditions.Upsert(once, c.(message := message), later), c.ctype, k)
  {
    var once := Conditions.Upsert(list, c, now);
    k := 0;
    if list != [] && list[0].ctype != c.ctype {
      var twice := Conditions.Upsert(once, c.(message := message), later);
      k := UpsertMessage(list[1..], c, message, now, later);
      assert once[1..] == Conditions.Upsert(list[1..], c, now);
      assert twice[1..] == Conditions.Upsert(once[1..], c.(message := message), later);
      FurtherOn(once, twice, c.ctype, k);
      k := k + 1;
    }
  }

  lemma FurtherOn(before: seq<Condition>, after: seq<Condition>, ctype: ConditionType, k: nat)
    requires before != [] && after != [] && before[0] == after[0] && before[0].ctype != ctype
    requires MessageDiffersAt(before[1..], after[1..], ctype, k)
    ensures MessageDiffersAt(before, after, ctype, k + 1)
  {
    assert before == [before[0]] + before[1..] && after == [after[0]] + after[1..];
    forall j | 0 <= j < k + 1
      ensures before[j].ctype != ctype
    {
      assert j > 0 ==> before[j] == before[1..][j - 1];
    }
  }

  lemma BlockedPass(bp: Blueprint, instances: set<Instance>, i: Instance, store: Store, ch: Choice)
    requires Sound(bp, instances) && i in instances
    requires Installable(store, bp.key(i, Custom)) && Typed(store)
    requires BothMissing(i, store.objects[bp.key(i, Custom)].body.spec, store)
    ensures var cr := store.objects[bp.key(i, Custom)];
      Pass(bp, i, store, ch)
      == Reported(bp, i, Result(store, Some(SecretReport(cr.body.spec, FirstServer(ch.listenerFirst)))), cr, ch.now)
  {
    var cr := store.objects[bp.key(i, Custom)];
    var o := OriginOf(cr);
    PassRunsPlan(bp, instances, i, store, ch);
    RunPreflight(bp, i, o.spec, AfterPreflight(bp, i, o, DeploymentPlan(bp, i, o, ch.visit)), ch.listenerFirst, store);
  }

  // Of the custom resource nothing differs but its version and, among its conditions, the
  // message of Ready.
  ghost predicate OnlyMessageDiffers(once: Store, twice: Store, key: Key) {
    && key in once.objects && key in twice.objects
    && once.objects[key].body.Resource? && twice.objects[key].body.Resource?
    && var before, after := once.objects[key], twice.objects[key];
      && after == before.(version := after.version, body := before.body.(conditions := after.body.conditions))
      && exists k: nat :: MessageDiffersAt(before.body.conditions, after.body.conditions, ReadyType, k)
  }

  lemma ReportedOver(
      bp: Blueprint, i: Instance, store: Store, cr: Object, c: Condition, message: Message, now: int, later: int)
    requires cr.body.Resource? && c.ctype == ReadyType && message != c.message
    requires bp.key(i, Custom) in store.objects && store.objects[bp.key(i, Custom)] == cr
    ensures var key := bp.key(i, Custom);
      var once := Reported(bp, i, Result(store, Some(c)), cr, now);
      && key in once.objects && once.objects[key].body.Resource?
      && var twice := Reported(bp, i, Result(once, Some(c.(message := message))), once.objects[key], later);
        twice != once && SameBut(once, twice, key) && OnlyMessageDiffers(once, twice, key)
  {
    var key := bp.key(i, Custom);
    var once := Reported(bp, i, Result(store, Some(c)), cr, now);
    ReportedStore(bp, i, Result(store, Some(c)), cr, now);
    ReportedStore(bp, i, Result(once, Some(c.(message := message))), once.objects[key], later);
    var k := UpsertMessage(cr.body.conditions, c, message, now, later);
  }

  // After a blocked pass the next one is blocked by the same secrets.
  lemma BlockedAgain(bp: Blueprint, instances: set<Instance>, i: Instance, store: Store, ch1: Choice, ch2: Choice)
    requires Sound(bp, instances) && i in instances
    requires Installable(store, bp.key(i, Custom)) && Typed(store)
    requires BothMissing(i, store.objects[bp.key(i, Custom)].body.spec, store)
    ensures var key, once := bp.key(i, Custom), Pass(bp, i, store, ch1);
      && Installable(once, key)
      && Pass(bp, i, once, ch2)
         == Reported(bp, i, Result(once,
                                   Some(SecretReport(store.objects[key].body.spec, FirstServer(ch2.listenerFirst)))),
                     once.objects[key], ch2.now)
  {
    var key := bp.key(i, Custom);
    var cr := store.objects[key];
    BlockedPass(bp, instances, i, store, ch1);
    ReportedStore(bp, i, Result(store, Some(SecretReport(cr.body.spec, FirstServer(ch1.listenerFirst)))), cr, ch1.now);
    PassTyped(bp, instances, i, store, ch1);
    assert SlotKind(Custom, key.kind);
    BlockedPass(bp, instances, i, Pass(bp, i, store, ch1), ch2);
  }

  lemma SwappedPass(bp: Blueprint, instances: set<Instance>, i: Instance, store: Store, ch1: Choice, ch2: Choice)
    requires Sound(bp, instances) && i in instances
    requires Installable(store, bp.key(i, Custom)) && Typed(store)
    requires Swapped(i, store.objects[bp.key(i, Custom)].body.spec, store, ch1, ch2)
    ensures var once := Pass(bp, i, store, ch1);
      var twice := Pass(bp, i, once, ch2);
      && twice != once && SameBut(once, twice, bp.key(i, Custom)) && OnlyMessageDiffers(once, twice, bp.key(i, Custom))
  {
    var cr := store.objects[bp.key(i, Custom)];
    var c1 := SecretReport(cr.body.spec, FirstServer(ch1.listenerFirst));
    var c2 := SecretReport(cr.body.spec, FirstServer(ch2.listenerFirst));
    BlockedPass(bp, instances, i, store, ch1);
    BlockedAgain(bp, instances, i, store, ch1, ch2);
    assert c2 == c1.(message := c2.message);
    ReportedOver(bp, i, store, cr, c1, c2.message, ch1.now, ch2.now);
  }

  // ---- Convergence ---------------------------------------------------------

  // After one undisturbed pass another one - whatever the order in which it visits maps and
  // whatever the clock says - leaves every object as it is, its version and the reported
  // status included. The Deployment alone may be applied once more, and only if visiting the
  // tracing tags in another order describes it differently. There is one exception: with
  // both servers without their secret, a pass that checks the other one first reports that
  // one instead, and with the message the version of the resource changes, and nothing else.
  lemma {:induction false} SecondPass(
      bp: Blueprint, instances: set<Instance>, i: Instance, store: Store, ch1: Choice, ch2: Choice)
    requires Sound(bp, instances) && i in instances
    requires Installable(store, bp.key(i, Custom)) && Typed(store)
    requires var o := OriginOf(store.objects[bp.key(i, Custom)]);
      && Migratable(bp, i, o.spec.clusterWide)
      && bp.application(i, o, ch1.visit).Some? == bp.application(i, o, ch2.visit).Some?
    ensures var o := OriginOf(store.objects[bp.key(i, Custom)]);
      var once := Pass(bp, i, store, ch1);
      var twice := Pass(bp, i, once, ch2);
      && (if Swapped(i, o.spec, store, ch1, ch2)
          then SameBut(once, twice, bp.key(i, Custom)) && OnlyMessageDiffers(once, twice, bp.key(i, Custom))
          else SameBut(once, twice, bp.key(i, Application))
               && AtMostApplied(once, twice, bp.application(i, o, ch2.visit)))
      && (bp.application(i, o, ch1.visit) == bp.application(i, o, ch2.visit) ==>
            (twice == once <==> !Swapped(i, o.spec, store, ch1, ch2)))
  {
    if Swapped(i, OriginOf(store.objects[bp.key(i, Custom)]).spec, store, ch1, ch2) {
      SwappedPass(bp, instances, i, store, ch1, ch2);
    } else {
      UnswappedPass(bp, instances, i, store, ch1, ch2);
    }
  }
}
