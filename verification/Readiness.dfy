// A pass says Ready=True only after everything it stands for was done in that very pass.
module Readiness {
  import opened Text
  import opened Api
  import opened Objects
  import opened Cluster
  import opened Protocol
  import opened Isolation
  import Conditions

  // ---- The record of a pass ------------------------------------------------

  datatype Exchange = Exchange(request: Request, response: Response, choice: Choice)

  // What the current pass of an instance has asked and been told, over a run.
  ghost function Passage(bp: Blueprint, s: System, run: seq<Action>, i: Instance, sofar: seq<Exchange>): seq<Exchange>
    requires |s.history| > 0 && Legal(bp, s, run)
    decreases |run|
  {
    if run == [] then sofar
    else Passage(bp, Do(bp, s, run[0]), run[1..], i, Recorded(bp, s, run[0], i, sofar))
  }

  ghost function Recorded(bp: Blueprint, s: System, a: Action, i: Instance, sofar: seq<Exchange>): seq<Exchange>
    requires |s.history| > 0 && Enabled(bp, s, a)
  {
    match a
    case Start(j) => if j == i then [] else sofar
    case Crash(j) => if j == i then [] else sofar
    case Step(j, outcome, at, ch) =>
      var request := NextRequest(bp, j, s.workers[j]);
      if j == i then sofar + [Exchange(request, Answer(s, request, outcome, at).1, ch)] else sofar
    case _ => sofar
  }

  // ---- Evidence ------------------------------------------------------------

  predicate Written(trace: seq<Exchange>, m: Manifest) {
    exists k | 0 <= k < |trace| ::
      (trace[k].request == Create(m) || trace[k].request == Apply(m)) && trace[k].response == Done
  }

  predicate FoundIn(trace: seq<Exchange>, key: Key) {
    exists k | 0 <= k < |trace| :: trace[k].request == Get(key) && trace[k].response.Found?
  }

  // The workload was read as available, and then applied.
  ghost predicate AppliedAvailable(trace: seq<Exchange>, m: Manifest) {
    exists j, k | 0 <= j < k < |trace| ::
      && ReadAvailable(trace[j], m.key)
      && trace[k].request == Apply(m) && trace[k].response == Done
  }

  ghost predicate ReadAvailable(e: Exchange, key: Key) {
    && e.request == Get(key) && e.response.Found?
    && e.response.obj.body.Workload? && ReportsAvailable(e.response.obj.body.status)
  }

  // An operation that went through. The manager binding of the other scope and the shared
  // Role may fail without consequences.
  predicate Met(bp: Blueprint, i: Instance, op: Op, trace: seq<Exchange>) {
    match op
    case Ensure(_, m, policy) =>
      IsObjectTaggedToDelete(m) || policy.RolePolicy? || policy.TolerantPolicy? || Written(trace, m)
    case NeedSecret(_, name) => FoundIn(trace, Key(SecretKind, i.ns, name))
    case NeedClusterRole(g) => FoundIn(trace, bp.clusterRole(g))
    case SecretUnnamed(_) => false
    case Panic => false
    case _ => true
  }

  // All operations of `plan` before the suffix `current` went through.
  predicate MetUpTo(bp: Blueprint, i: Instance, plan: Plan, current: Plan, trace: seq<Exchange>) {
    plan == current || (plan.Then? && Met(bp, i, plan.op, trace) && MetUpTo(bp, i, plan.rest, current, trace))
  }

  lemma WrittenGrows(trace: seq<Exchange>, e: Exchange, m: Manifest)
    requires Written(trace, m)
    ensures Written(trace + [e], m)
  {
    var k :| 0 <= k < |trace| && (trace[k].request == Create(m) || trace[k].request == Apply(m))
      && trace[k].response == Done;
    assert (trace + [e])[k] == trace[k];
  }

  lemma FoundGrows(trace: seq<Exchange>, e: Exchange, key: Key)
    requires FoundIn(trace, key)
    ensures FoundIn(trace + [e], key)
  {
    var k :| 0 <= k < |trace| && trace[k].request == Get(key) && trace[k].response.Found?;
    assert (trace + [e])[k] == trace[k];
  }

  lemma MetGrows(bp: Blueprint, i: Instance, op: Op, trace: seq<Exchange>, e: Exchange)
    requires Met(bp, i, op, trace)
    ensures Met(bp, i, op, trace + [e])
  {
    match op
    case Ensure(_, m, _) =>
      if Written(trace, m) {
        WrittenGrows(trace, e, m);
      }
    case NeedSecret(_, name) => FoundGrows(trace, e, Key(SecretKind, i.ns, name));
    case NeedClusterRole(g) => FoundGrows(trace, e, bp.clusterRole(g));
    case _ =>
  }

  lemma {:induction false} MetUpToGrows(
      bp: Blueprint, i: Instance, plan: Plan, current: Plan, trace: seq<Exchange>, e: Exchange)
    requires MetUpTo(bp, i, plan, current, trace)
    ensures MetUpTo(bp, i, plan, current, trace + [e])
  {
    if plan != current {
      MetGrows(bp, i, plan.op, trace, e);
      MetUpToGrows(bp, i, plan.rest, current, trace, e);
    }
  }

  lemma {:induction false} MetOneMore(bp: Blueprint, i: Instance, plan: Plan, current: Plan, trace: seq<Exchange>)
    requires MetUpTo(bp, i, plan, current, trace)
    requires current.Then? && Met(bp, i, current.op, trace)
    ensures MetUpTo(bp, i, plan, current.rest, trace)
  {
    if plan != current {
      MetOneMore(bp, i, plan.rest, current, trace);
    }
  }

  // ---- Invariant of a pass -------------------------------------------------

  predicate Housekeeping(plan: Plan) {
    match plan
    case End => true
    case Then(op, rest) => (op.RemoveBinding? || op.PutFinalizer?) && Housekeeping(rest)
  }

  predicate Deploying(plan: Plan) {
    plan.Then? && plan.op.Ensure? && plan.op.policy.DeploymentPolicy?
  }

  // What the worker knows in the middle of an operation is on record.
  ghost predicate PhaseOnRecord(w: Worker, trace: seq<Exchange>)
    requires w.Running?
  {
    match w.phase
    case Creating => w.plan.Then? && w.plan.op.Ensure? && !IsObjectTaggedToDelete(w.plan.op.manifest)
    case Applying(o) =>
      && w.plan.Then? && w.plan.op.Ensure? && !IsObjectTaggedToDelete(w.plan.op.manifest)
      && |trace| > 0 && trace[|trace| - 1].request == Get(w.plan.op.manifest.key)
           && trace[|trace| - 1].response == Found(o)
    case Deleting => w.plan.Then? && w.plan.op.Ensure? && IsObjectTaggedToDelete(w.plan.op.manifest)
    case Reporting(c, next) =>
      && c.ctype == ReadyType && c.reason != Updated
      && (c.status == True ==> Deploying(w.plan) && AppliedAvailable(trace, w.plan.op.manifest))
      && (next.Continue? ==> w.plan.Then? && w.plan.op.Ensure? && w.plan.op.policy.TolerantPolicy?)
    case _ => true
  }

  predicate Begins(bp: Blueprint, i: Instance, cr: Object, trace: seq<Exchange>) {
    |trace| > 0 && trace[0].request == Get(bp.key(i, Custom)) && trace[0].response == Found(cr)
  }

  ghost predicate OnRecord(bp: Blueprint, i: Instance, w: Worker, trace: seq<Exchange>) {
    match w
    case Idle(_) => true
    case Fetching => trace == []
    case Running(cr, plan, phase, _) =>
      && Begins(bp, i, cr, trace)
      && PhaseOnRecord(w, trace)
      && (if Housekeeping(plan) && phase.Fresh? then true
          else cr.body.Resource? && MetUpTo(bp, i, InstallPlan(bp, i, OriginOf(cr), trace[0].choice), plan, trace))
  }

  // Entering what follows an operation that went through.
  lemma EnterOnRecord(bp: Blueprint, i: Instance, whole: Plan, plan: Plan, cr: Object, now: int, trace: seq<Exchange>)
    requires MetUpTo(bp, i, whole, plan, trace)
    ensures var w := Enter(cr, plan, now);
      w.Running? ==> w.cr == cr && w.plan == plan && PhaseOnRecord(w, trace)
  {
  }

  // Where an answer leaves a worker: still busy with its operation, or past it.
  ghost predicate Proceeds(bp: Blueprint, i: Instance, w: Worker, next: Worker, trace: seq<Exchange>)
    requires w.Running? && w.plan.Then?
  {
    next.Running? ==>
      && next.cr == w.cr
      && (next.plan == w.plan || (next.plan == w.plan.rest && Met(bp, i, w.plan.op, trace)))
      && PhaseOnRecord(next, trace)
  }

  lemma LastExchange(trace: seq<Exchange>, e: Exchange)
    ensures (trace + [e])[|trace|] == e
    ensures |trace| > 0 ==> (trace + [e])[|trace| - 1] == trace[|trace| - 1]
  {
  }

  lemma SettleProceeds(
      bp: Blueprint, i: Instance, w: Worker, crud: Crud, obj: Option<Body>, err: bool, trace: seq<Exchange>)
    requires w.Running? && w.plan.Then? && w.plan.op.Ensure?
    requires !err ==> Met(bp, i, w.plan.op, trace) && !crud.UpdateOp?
    requires err ==> !crud.NoOp? && (crud.DeleteOp? ==> IsObjectTaggedToDelete(w.plan.op.manifest))
    requires !err && Deploying(w.plan) && obj.Some? && obj.value.Workload? && DeploymentAvailable(obj.value.status) ==>
      AppliedAvailable(trace, w.plan.op.manifest)
    ensures Proceeds(bp, i, w, Settle(w, crud, obj, err), trace)
  {
  }

  // The application as desired is not available yet.
  predicate FreshlyDesired(plan: Plan) {
    Deploying(plan) ==> plan.op.manifest.body.Workload? && !DeploymentAvailable(plan.op.manifest.body.status)
                        && !IsObjectTaggedToDelete(plan.op.manifest)
  }

  lemma EnsureProceeds(bp: Blueprint, i: Instance, w: Worker, resp: Response, ch: Choice, trace: seq<Exchange>)
    requires w.Running? && w.plan.Then? && w.plan.op.Ensure? && PhaseOnRecord(w, trace) && FreshlyDesired(w.plan)
    requires !w.phase.Reporting?
    ensures Proceeds(bp, i, w, AdvanceEnsure(w, resp), trace + [Exchange(NextRequest(bp, i, w), resp, ch)])
  {
    var m := w.plan.op.manifest;
    var e := Exchange(NextRequest(bp, i, w), resp, ch);
    var longer := trace + [e];
    LastExchange(trace, e);
    match w.phase
    case Creating =>
      assert resp == Done ==> Written(longer, m);
      SettleProceeds(bp, i, w, CreateOp, Some(m.body), resp != Done, longer);
    case Applying(o) =>
      if resp == Done {
        assert Written(longer, m);
        if o.body.Workload? && DeploymentAvailable(o.body.status) {
          AvailableExactly(o.body.status);
          assert ReadAvailable(longer[|trace| - 1], m.key);
          assert AppliedAvailable(longer, m);
        }
        SettleProceeds(bp, i, w, NoOp, Some(o.body), false, longer);
      } else {
        SettleProceeds(bp, i, w, UpdateOp, Some(m.body), true, longer);
      }
    case Deleting => SettleProceeds(bp, i, w, DeleteOp, Some(m.body), resp != Done, longer);
    case _ =>
      if resp == NotFound && IsObjectTaggedToDelete(m) {
        SettleProceeds(bp, i, w, ReadOp, None, false, longer);
      } else if !resp.Found? && resp != NotFound {
        SettleProceeds(bp, i, w, ReadOp, None, true, longer);
      }
  }

  // What an answer means for the operation it belongs to.
  lemma AnswerProceeds(bp: Blueprint, i: Instance, w: Worker, resp: Response, ch: Choice, trace: seq<Exchange>)
    requires w.Running? && w.plan.Then? && PhaseOnRecord(w, trace) && FreshlyDesired(w.plan)
    ensures Proceeds(bp, i, w, Advance(bp, i, w, resp, ch), trace + [Exchange(NextRequest(bp, i, w), resp, ch)])
  {
    LastExchange(trace, Exchange(NextRequest(bp, i, w), resp, ch));
    if !w.phase.Reporting? && w.plan.op.Ensure? {
      EnsureProceeds(bp, i, w.(now := ch.now), resp, ch, trace);
    }
  }

  // ---- The invariant is kept -----------------------------------------------

  predicate PanicsNext(plan: Plan) {
    plan.Then? && plan.op.Panic?
  }

  // Nothing but a retired legacy binding comes right before the panic.
  predicate FreshPlan(plan: Plan) {
    match plan
    case End => true
    case Then(op, rest) => FreshlyDesired(plan) && (PanicsNext(rest) ==> op.RetireLegacy?) && FreshPlan(rest)
  }

  lemma {:induction false} FreshSuffix(bp: Blueprint, i: Instance, plan: Plan, current: Plan, trace: seq<Exchange>)
    requires FreshPlan(plan) && MetUpTo(bp, i, plan, current, trace)
    ensures FreshPlan(current)
  {
    if plan != current {
      FreshSuffix(bp, i, plan.rest, current, trace);
    }
  }

  lemma LegacyFresh(bp: Blueprint, i: Instance, o: Origin, rest: Plan)
    requires FreshPlan(rest)
    ensures FreshPlan(LeaderPlan(bp, i, o, LegacyPlan(rest)))
  {
    var legacy := LegacyPlan(rest);
    assert FreshPlan(legacy);
    assert FreshPlan(EnsurePlan(bp, i, o, LeaderBinding, BindingPolicy, legacy));
  }

  lemma BindingsFresh(bp: Blueprint, i: Instance, o: Origin, rest: Plan)
    requires FreshPlan(rest) && !PanicsNext(rest)
    ensures FreshPlan(ManagerClusterPlan(bp, i, o, ManagerLocalPlan(bp, i, o, K8sAuthPlan(bp, i, o, rest))))
  {
    var auth := K8sAuthPlan(bp, i, o, rest);
    assert FreshPlan(auth);
    var local := ManagerLocalPlan(bp, i, o, auth);
    assert FreshPlan(local);
  }

  lemma ServicesFresh(bp: Blueprint, i: Instance, o: Origin, rest: Plan)
    requires FreshPlan(rest) && !PanicsNext(rest)
    ensures FreshPlan(ServicesPlan(bp, i, o, AccountPlan(bp, i, o, rest)))
  {
    var account := AccountPlan(bp, i, o, rest);
    assert FreshPlan(account);
    var metrics := EnsurePlan(bp, i, o, MetricsService, ServicePolicy, account);
    assert FreshPlan(metrics);
  }

  lemma PreflightFresh(spec: Spec, listenerFirst: bool, rest: Plan)
    requires FreshPlan(rest) && !PanicsNext(rest)
    ensures FreshPlan(PreflightPlan(spec, listenerFirst, rest))
  {
  }

  lemma DeploymentFresh(bp: Blueprint, instances: set<Instance>, i: Instance, o: Origin, visit: seq<string>)
    requires Sound(bp, instances) && i in instances
    ensures FreshPlan(DeploymentPlan(bp, i, o, visit))
  {
    if bp.application(i, o, visit).Some? {
      assert ManifestOk(bp, i, Application, bp.application(i, o, visit).value);
    }
  }

  lemma InstallPlanFresh(bp: Blueprint, instances: set<Instance>, i: Instance, o: Origin, ch: Choice)
    requires Sound(bp, instances) && i in instances
    ensures FreshPlan(InstallPlan(bp, i, o, ch))
  {
    var deployment := DeploymentPlan(bp, i, o, ch.visit);
    DeploymentFresh(bp, instances, i, o, ch.visit);
    LegacyFresh(bp, i, o, deployment);
    BindingsFresh(bp, i, o, LeaderPlan(bp, i, o, LegacyPlan(deployment)));
    ServicesFresh(bp, i, o, PermissionsPlan(bp, i, o, deployment));
    PreflightFresh(o.spec, ch.listenerFirst,
                   ServicesPlan(bp, i, o, AccountPlan(bp, i, o, PermissionsPlan(bp, i, o, deployment))));
  }

  // The first answer decides the plan.
  lemma DispatchOnRecord(bp: Blueprint, i: Instance, cr: Object, ch: Choice)
    ensures OnRecord(bp, i, Dispatch(bp, i, cr, ch), [Exchange(Get(bp.key(i, Custom)), Found(cr), ch)])
  {
    if cr.body.Resource? {
      EnterOnRecord(bp, i, InstallPlan(bp, i, OriginOf(cr), ch), InstallPlan(bp, i, OriginOf(cr), ch), cr, ch.now,
                    [Exchange(Get(bp.key(i, Custom)), Found(cr), ch)]);
    }
  }

  lemma HousekeepingOnRecord(bp: Blueprint, i: Instance, w: Worker, resp: Response, ch: Choice)
    requires w.Running? && w.phase.Fresh? && Housekeeping(w.plan)
    ensures var next := Advance(bp, i, w, resp, ch);
      next.Running? ==> next.cr == w.cr && next.phase.Fresh? && Housekeeping(next.plan)
  {
  }

  // The middle of a pass: all of `whole` before the current operation went through.
  ghost predicate MidPlan(bp: Blueprint, i: Instance, cr: Object, w: Worker, whole: Plan, trace: seq<Exchange>) {
    && !w.Fetching?
    && (w.Running? ==> w.cr == cr && PhaseOnRecord(w, trace) && MetUpTo(bp, i, whole, w.plan, trace))
  }

  // In the middle of a plan, an answer leaves the worker where all before went through.
  lemma AdvanceMeets(
      bp: Blueprint, i: Instance, w: Worker, resp: Response, ch: Choice, whole: Plan, trace: seq<Exchange>)
    requires w.Running? && PhaseOnRecord(w, trace)
    requires FreshPlan(whole) && MetUpTo(bp, i, whole, w.plan, trace)
    ensures MidPlan(bp, i, w.cr, Advance(bp, i, w, resp, ch), whole,
                    trace + [Exchange(NextRequest(bp, i, w), resp, ch)])
  {
    var longer := trace + [Exchange(NextRequest(bp, i, w), resp, ch)];
    MetUpToGrows(bp, i, whole, w.plan, trace, Exchange(NextRequest(bp, i, w), resp, ch));
    if w.plan.Then? {
      FreshSuffix(bp, i, whole, w.plan, trace);
      AnswerProceeds(bp, i, w, resp, ch, trace);
      if Met(bp, i, w.plan.op, longer) {
        MetOneMore(bp, i, whole, w.plan, longer);
      }
    }
  }

  lemma MidPlanOnRecord(bp: Blueprint, i: Instance, cr: Object, w: Worker, trace: seq<Exchange>)
    requires Begins(bp, i, cr, trace) && cr.body.Resource?
    requires MidPlan(bp, i, cr, w, InstallPlan(bp, i, OriginOf(cr), trace[0].choice), trace)
    ensures OnRecord(bp, i, w, trace)
  {
  }

  lemma KeepingOnRecord(bp: Blueprint, i: Instance, w: Worker, resp: Response, ch: Choice, trace: seq<Exchange>)
    requires w.Running? && w.phase.Fresh? && Housekeeping(w.plan) && Begins(bp, i, w.cr, trace)
    ensures OnRecord(bp, i, Advance(bp, i, w, resp, ch), trace)
  {
    HousekeepingOnRecord(bp, i, w, resp, ch);
  }

  lemma AdvanceOnRecord(
      bp: Blueprint, instances: set<Instance>, i: Instance, w: Worker, resp: Response, ch: Choice, trace: seq<Exchange>)
    requires Sound(bp, instances) && i in instances
    requires w.Running? && OnRecord(bp, i, w, trace)
    ensures OnRecord(bp, i, Advance(bp, i, w, resp, ch), trace + [Exchange(NextRequest(bp, i, w), resp, ch)])
  {
    var longer := trace + [Exchange(NextRequest(bp, i, w), resp, ch)];
    assert longer[0] == trace[0];
    if Housekeeping(w.plan) && w.phase.Fresh? {
      KeepingOnRecord(bp, i, w, resp, ch, longer);
    } else {
      InstallPlanFresh(bp, instances, i, OriginOf(w.cr), trace[0].choice);
      AdvanceMeets(bp, i, w, resp, ch, InstallPlan(bp, i, OriginOf(w.cr), trace[0].choice), trace);
      MidPlanOnRecord(bp, i, w.cr, Advance(bp, i, w, resp, ch), longer);
    }
  }

  lemma StepOnRecord(bp: Blueprint, s: System, a: Action, i: Instance, trace: seq<Exchange>)
    requires Inv(bp, s) && Enabled(bp, s, a) && i in s.workers
    requires OnRecord(bp, i, s.workers[i], trace)
    ensures OnRecord(bp, i, Do(bp, s, a).workers[i], Recorded(bp, s, a, i, trace))
  {
    if a.Step? && a.i == i {
      var w := s.workers[i];
      var resp := Answer(s, NextRequest(bp, i, w), a.outcome, a.at).1;
      if w.Running? {
        AdvanceOnRecord(bp, s.workers.Keys, i, w, resp, a.ch, trace);
      } else if resp.Found? {
        DispatchOnRecord(bp, i, resp.obj, a.ch);
        assert trace + [Exchange(Get(bp.key(i, Custom)), resp, a.ch)] == [Exchange(Get(bp.key(i, Custom)), resp, a.ch)];
      }
    }
  }

  lemma {:induction false} RunOnRecord(bp: Blueprint, s: System, run: seq<Action>, i: Instance, sofar: seq<Exchange>)
    requires Inv(bp, s) && Legal(bp, s, run) && i in s.workers
    requires OnRecord(bp, i, s.workers[i], sofar)
    ensures i in After(bp, s, run).workers
    ensures OnRecord(bp, i, After(bp, s, run).workers[i], Passage(bp, s, run, i, sofar))
    decreases |run|
  {
    if run != [] {
      StepKeepsInv(bp, s, run[0]);
      StepOnRecord(bp, s, run[0], i, sofar);
      RunOnRecord(bp, Do(bp, s, run[0]), run[1..], i, Recorded(bp, s, run[0], i, sofar));
    }
  }

  // ---- What Ready=True stands for ------------------------------------------

  predicate ServerReady(trace: seq<Exchange>, i: Instance, tls: Tls) {
    tls.enabled != Some(false) ==>
      && tls.certSecret.Some? && tls.certSecret.value != ""
      && FoundIn(trace, Key(SecretKind, i.ns, tls.certSecret.value))
  }

  // The objects an instance stands on, besides its Deployment: all but the shared Role and
  // the manager binding of the other scope.
  predicate Required(o: Origin, slot: Slot) {
    match slot
    case AuthService | OidcService | MetricsService | Account | LeaderBinding => true
    case ClusterBinding(K8sAuth) => true
    case ClusterBinding(Manager) => o.spec.clusterWide
    case ManagerBinding => !o.spec.clusterWide
    case _ => false
  }

  // The evidence a pass has gathered by the time it gets to the Deployment.
  ghost predicate Prepared(bp: Blueprint, i: Instance, o: Origin, trace: seq<Exchange>) {
    && (forall g :: FoundIn(trace, bp.clusterRole(g)))
    && (forall slot | Required(o, slot) :: Written(trace, bp.manifest(i, o, slot)))
  }

  ghost predicate Earned(bp: Blueprint, i: Instance, o: Origin, trace: seq<Exchange>) {
    && ServerReady(trace, i, o.spec.listener.tls) && ServerReady(trace, i, o.spec.oidcServer.tls)
    && Prepared(bp, i, o, trace)
    && (exists visit :: bp.application(i, o, visit).Some? && AppliedAvailable(trace, bp.application(i, o, visit).value))
  }

  // What a pass ends with, if it gets there: the Deployment, or the panic in its place.
  predicate Last(plan: Plan) {
    plan.Then? && (plan.op.Panic? || Deploying(plan))
  }

  // Getting to the Deployment means getting past everything before it.
  lemma GotPast(bp: Blueprint, i: Instance, op: Op, rest: Plan, current: Plan, trace: seq<Exchange>)
    requires MetUpTo(bp, i, Then(op, rest), current, trace)
    requires Last(current) && !Last(Then(op, rest))
    ensures Met(bp, i, op, trace) && MetUpTo(bp, i, rest, current, trace)
  {
  }

  lemma PastEnsure(
      bp: Blueprint, i: Instance, o: Origin, slot: Slot, policy: Policy, rest: Plan, current: Plan,
      trace: seq<Exchange>)
    requires ManifestOk(bp, i, slot, bp.manifest(i, o, slot))
    requires policy.ServicePolicy? || policy.AccountPolicy? || policy.BindingPolicy?
    requires MetUpTo(bp, i, EnsurePlan(bp, i, o, slot, policy, rest), current, trace) && Last(current)
    ensures Written(trace, bp.manifest(i, o, slot)) && MetUpTo(bp, i, rest, current, trace)
  {
    GotPast(bp, i, Ensure(slot, bp.manifest(i, o, slot), policy), rest, current, trace);
  }

  lemma PastSecret(
      bp: Blueprint, i: Instance, spec: Spec, server: Server, rest: Plan, current: Plan, trace: seq<Exchange>)
    requires MetUpTo(bp, i, SecretPlan(spec, server, rest), current, trace) && Last(current)
    ensures ServerReady(trace, i, ServerTls(spec, server)) && MetUpTo(bp, i, rest, current, trace)
  {
  }

  lemma PastPreflight(
      bp: Blueprint, i: Instance, spec: Spec, listenerFirst: bool, rest: Plan, current: Plan, trace: seq<Exchange>)
    requires MetUpTo(bp, i, PreflightPlan(spec, listenerFirst, rest), current, trace) && Last(current)
    ensures ServerReady(trace, i, spec.listener.tls) && ServerReady(trace, i, spec.oidcServer.tls)
    ensures MetUpTo(bp, i, rest, current, trace)
  {
    var second := FirstServer(!listenerFirst);
    PastSecret(bp, i, spec, FirstServer(listenerFirst), SecretPlan(spec, second, rest), current, trace);
    PastSecret(bp, i, spec, second, rest, current, trace);
  }

  predicate Exposed(bp: Blueprint, i: Instance, o: Origin, trace: seq<Exchange>) {
    && Written(trace, bp.manifest(i, o, AuthService)) && Written(trace, bp.manifest(i, o, OidcService))
    && Written(trace, bp.manifest(i, o, MetricsService)) && Written(trace, bp.manifest(i, o, Account))
  }

  lemma PastServices(
      bp: Blueprint, instances: set<Instance>, i: Instance, o: Origin, rest: Plan, current: Plan, trace: seq<Exchange>)
    requires Sound(bp, instances) && i in instances
    requires MetUpTo(bp, i, ServicesPlan(bp, i, o, AccountPlan(bp, i, o, rest)), current, trace) && Last(current)
    ensures Exposed(bp, i, o, trace)
    ensures MetUpTo(bp, i, rest, current, trace)
  {
    var account := AccountPlan(bp, i, o, rest);
    var metrics := EnsurePlan(bp, i, o, MetricsService, ServicePolicy, account);
    var oidc := EnsurePlan(bp, i, o, OidcService, ServicePolicy, metrics);
    PastEnsure(bp, i, o, AuthService, ServicePolicy, oidc, current, trace);
    PastEnsure(bp, i, o, OidcService, ServicePolicy, metrics, current, trace);
    PastEnsure(bp, i, o, MetricsService, ServicePolicy, account, current, trace);
    PastEnsure(bp, i, o, Account, AccountPolicy, rest, current, trace);
  }

  lemma PastManager(
      bp: Blueprint, instances: set<Instance>, i: Instance, o: Origin, rest: Plan, current: Plan, trace: seq<Exchange>)
    requires Sound(bp, instances) && i in instances
    requires MetUpTo(bp, i, ManagerClusterPlan(bp, i, o, ManagerLocalPlan(bp, i, o, rest)), current, trace)
      && Last(current)
    ensures Written(trace, bp.manifest(i, o, if o.spec.clusterWide then ClusterBinding(Manager) else ManagerBinding))
    ensures FoundIn(trace, bp.clusterRole(Manager))
    ensures MetUpTo(bp, i, rest, current, trace)
  {
    var wide, local := ClusterBinding(Manager), ManagerBinding;
    var localOp := Ensure(local, ManagerManifest(bp, i, o, local), BindingPolicy);
    var wideOp := Ensure(wide, ManagerManifest(bp, i, o, wide),
                         if o.spec.clusterWide then BindingPolicy else TolerantPolicy);
    var narrow := ManagerLocalPlan(bp, i, o, rest);
    GotPast(bp, i, NeedClusterRole(Manager), Then(wideOp, narrow), current, trace);
    GotPast(bp, i, wideOp, narrow, current, trace);
    GotPast(bp, i, NeedClusterRole(Manager), Then(localOp, rest), current, trace);
    GotPast(bp, i, localOp, rest, current, trace);
    assert ManifestOk(bp, i, wide, bp.manifest(i, o, wide)) && ManifestOk(bp, i, local, bp.manifest(i, o, local));
  }

  lemma PastOthers(
      bp: Blueprint, instances: set<Instance>, i: Instance, o: Origin, rest: Plan, current: Plan, trace: seq<Exchange>)
    requires Sound(bp, instances) && i in instances
    requires MetUpTo(bp, i, K8sAuthPlan(bp, i, o, LeaderPlan(bp, i, o, LegacyPlan(rest))), current, trace)
      && Last(current)
    ensures Written(trace, bp.manifest(i, o, ClusterBinding(K8sAuth)))
      && Written(trace, bp.manifest(i, o, LeaderBinding))
    ensures FoundIn(trace, bp.clusterRole(K8sAuth))
    ensures MetUpTo(bp, i, rest, current, trace)
  {
    var legacy := LegacyPlan(rest);
    var leader := LeaderPlan(bp, i, o, legacy);
    var binding := EnsurePlan(bp, i, o, LeaderBinding, BindingPolicy, legacy);
    GotPast(bp, i, NeedClusterRole(K8sAuth), EnsurePlan(bp, i, o, ClusterBinding(K8sAuth), BindingPolicy, leader),
            current, trace);
    PastEnsure(bp, i, o, ClusterBinding(K8sAuth), BindingPolicy, leader, current, trace);
    GotPast(bp, i, Ensure(LeaderRole, bp.manifest(i, o, LeaderRole), RolePolicy), binding, current, trace);
    PastEnsure(bp, i, o, LeaderBinding, BindingPolicy, legacy, current, trace);
    GotPast(bp, i, RetireLegacy(Manager), Then(RetireLegacy(K8sAuth), rest), current, trace);
    GotPast(bp, i, RetireLegacy(K8sAuth), rest, current, trace);
  }

  lemma AtDeployment(bp: Blueprint, i: Instance, o: Origin, visit: seq<string>, current: Plan, trace: seq<Exchange>)
    requires MetUpTo(bp, i, DeploymentPlan(bp, i, o, visit), current, trace) && Last(current)
    ensures current.op.Panic? <==> bp.application(i, o, visit) == None
    ensures current.op.Ensure? ==> current.op.manifest == bp.application(i, o, visit).value
  {
  }

  // The bindings of the permissions part.
  predicate Bindings(bp: Blueprint, i: Instance, o: Origin, trace: seq<Exchange>) {
    && Written(trace, bp.manifest(i, o, if o.spec.clusterWide then ClusterBinding(Manager) else ManagerBinding))
    && FoundIn(trace, bp.clusterRole(Manager)) && FoundIn(trace, bp.clusterRole(K8sAuth))
    && Written(trace, bp.manifest(i, o, ClusterBinding(K8sAuth)))
    && Written(trace, bp.manifest(i, o, LeaderBinding))
  }

  lemma PastPermissions(
      bp: Blueprint, instances: set<Instance>, i: Instance, o: Origin, rest: Plan, current: Plan, trace: seq<Exchange>)
    requires Sound(bp, instances) && i in instances && Last(current)
    requires MetUpTo(bp, i, PermissionsPlan(bp, i, o, rest), current, trace)
    ensures Bindings(bp, i, o, trace) && MetUpTo(bp, i, rest, current, trace)
  {
    PastManager(bp, instances, i, o, K8sAuthPlan(bp, i, o, LeaderPlan(bp, i, o, LegacyPlan(rest))), current, trace);
    PastOthers(bp, instances, i, o, rest, current, trace);
  }

  lemma AllPrepared(bp: Blueprint, i: Instance, o: Origin, trace: seq<Exchange>)
    requires Exposed(bp, i, o, trace) && Bindings(bp, i, o, trace)
    ensures Prepared(bp, i, o, trace)
  {
    forall g
      ensures FoundIn(trace, bp.clusterRole(g))
    {
      assert g == Manager || g == K8sAuth;
    }
    forall slot | Required(o, slot)
      ensures Written(trace, bp.manifest(i, o, slot))
    {
      match slot
      case ClusterBinding(g) => assert g == Manager || g == K8sAuth;
      case _ =>
    }
  }

  lemma PastAll(
      bp: Blueprint, instances: set<Instance>, i: Instance, o: Origin, ch: Choice, current: Plan, trace: seq<Exchange>)
    requires Sound(bp, instances) && i in instances
    requires MetUpTo(bp, i, InstallPlan(bp, i, o, ch), current, trace) && Last(current)
    ensures ServerReady(trace, i, o.spec.listener.tls) && ServerReady(trace, i, o.spec.oidcServer.tls)
    ensures Prepared(bp, i, o, trace)
    ensures MetUpTo(bp, i, DeploymentPlan(bp, i, o, ch.visit), current, trace)
  {
    var deployment := DeploymentPlan(bp, i, o, ch.visit);
    var services := ServicesPlan(bp, i, o, AccountPlan(bp, i, o, PermissionsPlan(bp, i, o, deployment)));
    PastPreflight(bp, i, o.spec, ch.listenerFirst, services, current, trace);
    PastServices(bp, instances, i, o, PermissionsPlan(bp, i, o, deployment), current, trace);
    PastPermissions(bp, instances, i, o, deployment, current, trace);
    AllPrepared(bp, i, o, trace);
  }

  lemma DeployingEarned(
      bp: Blueprint, instances: set<Instance>, i: Instance, o: Origin, ch: Choice, current: Plan, trace: seq<Exchange>)
    requires Sound(bp, instances) && i in instances
    requires MetUpTo(bp, i, InstallPlan(bp, i, o, ch), current, trace)
    requires Deploying(current) && AppliedAvailable(trace, current.op.manifest)
    ensures Earned(bp, i, o, trace)
  {
    PastAll(bp, instances, i, o, ch, current, trace);
    AtDeployment(bp, i, o, ch.visit, current, trace);
  }

  // The Ready entry of an updated list is the update.
  lemma {:induction false} UpsertReady(list: seq<Condition>, c: Condition, now: int)
    requires c.ctype == ReadyType
    ensures var entry := Conditions.Lookup(Conditions.Upsert(list, c, now), ReadyType);
      entry.Some? && entry.value.status == c.status && entry.value.reason == c.reason
    ensures Ready(Conditions.Upsert(list, c, now)) <==> c.status == True
  {
    Conditions.LookupUpsert(list, c, now, ReadyType);
    LookupType(list, ReadyType);
    Conditions.ReadyIsLookup(Conditions.Upsert(list, c, now));
  }

  lemma {:induction false} LookupType(list: seq<Condition>, ctype: ConditionType)
    ensures Conditions.Lookup(list, ctype).Some? ==> Conditions.Lookup(list, ctype).value.ctype == ctype
  {
    if list != [] && list[0].ctype != ctype {
      LookupType(list[1..], ctype);
    }
  }

  // What a report says, on record.
  lemma ReportOnRecord(bp: Blueprint, instances: set<Instance>, i: Instance, w: Worker, trace: seq<Exchange>)
    requires Sound(bp, instances) && i in instances
    requires w.Running? && w.phase.Reporting? && OnRecord(bp, i, w, trace)
    ensures w.phase.condition.ctype == ReadyType && w.phase.condition.reason != Updated
    ensures Begins(bp, i, w.cr, trace) && w.cr.body.Resource?
    ensures w.phase.condition.status == True ==> Earned(bp, i, OriginOf(w.cr), trace)
  {
    if w.phase.condition.status == True {
      DeployingEarned(bp, instances, i, OriginOf(w.cr), trace[0].choice, w.plan, trace);
    }
  }

  // Soundness of Ready, over every run: whatever status a pass is about to write has a
  // Ready entry, never with the reason Updated; and if that entry is True, then in this very
  // pass the TLS secrets and both cluster roles were found, the three Services, the service
  // account and the required bindings were created or applied without error, and so was the
  // Deployment, after it had been read as available.
  lemma {:induction false} ReadyIsEarned(bp: Blueprint, s: System, run: seq<Action>, i: Instance)
    requires Initial(bp, s) && Legal(bp, s, run) && i in s.workers
    requires var r := After(bp, s, run);
      i in r.workers && NextRequest(bp, i, r.workers[i]).PatchStatus?
    ensures var trace := Passage(bp, s, run, i, []);
      var conditions := NextRequest(bp, i, After(bp, s, run).workers[i]).conditions;
      && Conditions.Lookup(conditions, ReadyType).Some?
      && Conditions.Lookup(conditions, ReadyType).value.reason != Updated
      && (Ready(conditions) ==>
            && |trace| > 0 && trace[0].request == Get(bp.key(i, Custom)) && trace[0].response.Found?
            && trace[0].response.obj.body.Resource?
            && Earned(bp, i, OriginOf(trace[0].response.obj), trace))
  {
    InitialInv(bp, s);
    RunKeepsInv(bp, s, run);
    RunOnRecord(bp, s, run, i, []);
    var w := After(bp, s, run).workers[i];
    ReportOnRecord(bp, s.workers.Keys, i, w, Passage(bp, s, run, i, []));
    UpsertReady(w.cr.body.conditions, w.phase.condition, w.now);
  }
}
