// What a pass reports, and how it ends, in terms of the last answer it got.
module Reports {
  import opened Text
  import opened Api
  import opened Objects
  import opened Cluster
  import opened Protocol
  import opened Isolation
  import opened Readiness
  import Conditions

  // ---- The table -----------------------------------------------------------

  // What is reported of a failure.
  datatype Said = Said(reason: Reason, message: Message)

  // A read that failed, by the kind of the object; `missing` if there was none.
  function ReadFailure(key: Key, missing: bool): Option<Said> {
    match key.kind
    case ClusterRoleKind =>
      Some(if missing then Said(ClusterRoleNotFound, Unable(ToFind, key.name))
           else Said(UnableToGetClusterRole, Unable(ToGet, key.name)))
    case ServiceKind => if missing then None else Some(Said(UnableToGetServices, Unable(ToGet, key.name)))
    case ServiceAccountKind => if missing then None else Some(Said(UnableToGetServiceAccount, Unable(ToGet, key.name)))
    case ClusterRoleBindingKind | RoleBindingKind =>
      if missing then None else Some(Said(UnableToGetBinding, Unable(ToGet, key.name)))
    case RoleKind => if missing then None else Some(Said(UnableToGetLeaderElectionRole, Unable(ToGet, key.name)))
    case DeploymentKind => if missing then None else Some(Said(UnableToGetDeployment, Unable(ToGet, key.name)))
    case SecretKind | AuthorinoKind => None
  }

  function CreateFailure(key: Key): Option<Said> {
    match key.kind
    case ServiceKind => Some(Said(UnableToCreateServices, Unable(ToCreate, key.name)))
    case ServiceAccountKind => Some(Said(UnableToCreateServiceAccount, Unable(ToCreate, key.name)))
    case ClusterRoleBindingKind | RoleBindingKind => Some(Said(UnableToCreateBinding, Unable(ToCreate, key.name)))
    case RoleKind => Some(Said(UnableToCreateLeaderElectionRole, Unable(ToCreate, key.name)))
    case DeploymentKind => Some(Said(UnableToCreateDeployment, Unable(ToCreate, key.name)))
    case _ => None
  }

  // A failed update of the shared Role goes unreported.
  function ApplyFailure(key: Key): Option<Said> {
    match key.kind
    case ServiceKind => Some(Said(UnableToGetServices, Unable(ToUpdate, key.name)))
    case ServiceAccountKind => Some(Said(UnableToCreateServiceAccount, Unable(ToCreate, key.name)))
    case ClusterRoleBindingKind | RoleBindingKind => Some(Said(UnableToCreateBinding, Unable(ToUpdate, key.name)))
    case DeploymentKind => Some(Said(UnableToBuildDeployment, Unable(ToBuild, key.name)))
    case _ => None
  }

  // Ready=False with that reason and message.
  predicate Says(c: Condition, said: Option<Said>) {
    && said.Some? && c.ctype == ReadyType && c.status == False
    && c.reason == said.value.reason && c.message == said.value.message
  }

  // TLS is not switched off, and the secret has that name, or none.
  predicate Named(tls: Tls, name: string) {
    tls.enabled != Some(false) && tls.certSecret == Some(name)
  }

  predicate Nameless(tls: Tls) {
    tls.enabled != Some(false) && (tls.certSecret == None || tls.certSecret == Some(""))
  }

  predicate Asks(spec: Spec, server: Server, name: string) {
    || (server == ListenerServer && Named(spec.listener.tls, name))
    || (server == OidcServerSide && Named(spec.oidcServer.tls, name))
  }

  predicate Unnamed(spec: Spec, server: Server) {
    || (server == ListenerServer && Nameless(spec.listener.tls))
    || (server == OidcServerSide && Nameless(spec.oidcServer.tls))
  }

  // The Deployment was read right before it was applied.
  ghost predicate ReadBefore(trace: seq<Exchange>, key: Key, o: Object) {
    && |trace| > 1 && trace[|trace| - 2].request == Get(key) && trace[|trace| - 2].response == Found(o)
  }

  // The condition that the last exchange of a pass leads to.
  ghost predicate Explains(spec: Spec, trace: seq<Exchange>, c: Condition)
    requires trace != []
  {
    var e := trace[|trace| - 1];
    match e.request
    case Get(key) =>
      if e.response.Found? then
        exists server :: Unnamed(spec, server) && Says(c, Some(Said(TlsSecretNotProvided, SecretNotNamed(server))))
      else if key.kind == SecretKind then
        exists server :: Asks(spec, server, key.name)
          && Says(c, Some(Said(TlsSecretNotProvided,
                               if e.response == NotFound then SecretNotFound(server, key.name)
                               else SecretNotRead(server, key.name))))
      else Says(c, ReadFailure(key, e.response == NotFound))
    case Create(m) =>
      if e.response != Done then Says(c, CreateFailure(m.key))
      else m.key.kind == DeploymentKind && Says(c, Some(Said(DeploymentNotReady, ResourceNotReady)))
    case Apply(m) =>
      if e.response != Done then Says(c, ApplyFailure(m.key))
      else
        && m.key.kind == DeploymentKind
        && exists o :: ReadBefore(trace, m.key, o) && o.body.Workload?
             && (if ReportsAvailable(o.body.status)
                 then c.ctype == ReadyType && c.status == True && c.reason == Provisioned && c.message == NoMessage
                 else Says(c, Some(Said(DeploymentNotReady, ResourceNotReady))))
    case _ => false
  }

  ghost predicate Legacy(bp: Blueprint, i: Instance, key: Key) {
    exists g :: key == bp.key(i, LegacyBinding(g))
  }

  // Exchanges after which there must be a report.
  ghost predicate Loud(bp: Blueprint, i: Instance, trace: seq<Exchange>)
    requires trace != []
  {
    var e := trace[|trace| - 1];
    match e.request
    case Get(key) =>
      && !e.response.Found?
      && (key.kind == SecretKind || (ReadFailure(key, e.response == NotFound).Some? && !Legacy(bp, i, key)))
    case Create(m) => if e.response != Done then CreateFailure(m.key).Some? else m.key.kind == DeploymentKind
    case Apply(m) =>
      if e.response != Done then ApplyFailure(m.key).Some?
      else m.key.kind == DeploymentKind && exists o :: ReadBefore(trace, m.key, o) && o.body.Workload?
    case _ => false
  }

  // Reports on the Deployment's availability are no errors.
  predicate AboutAvailability(reason: Reason) {
    reason == Provisioned || reason == DeploymentNotReady
  }

  // Whether a pass that is over after that exchange ended with an error.
  predicate EndsInError(trace: seq<Exchange>)
    requires trace != []
  {
    var e := trace[|trace| - 1];
    match e.request
    case Get(key) =>
      if key.kind != AuthorinoKind then true
      else (match e.response
            case Found(cr) => !cr.meta.deleting
            case NotFound => false
            case _ => true)
    case Update(_, _) => e.response != Done
    case PatchStatus(_, conditions) =>
      var entry := Conditions.Lookup(conditions, ReadyType);
      e.response != Done || entry == None || !AboutAvailability(entry.value.reason)
    case _ => true
  }

  // After which exchanges a pass may be over: no failed write of a managed object is one of
  // them, unless it was reported first.
  ghost predicate MayEnd(bp: Blueprint, i: Instance, trace: seq<Exchange>)
    requires trace != []
  {
    var e := trace[|trace| - 1];
    match e.request
    case Get(key) => key.kind == AuthorinoKind || Legacy(bp, i, key)
    case Delete(key, only) => only.Some? && Legacy(bp, i, key)
    case Apply(m) => m.key.kind == DeploymentKind && e.response == Done
    case Create(_) => false
    case Update(_, _) => true
    case PatchStatus(_, _) =>
      |trace| > 1 && trace[0].response.Found? && trace[0].response.obj.body.Resource?
      && !Tolerated(bp, i, trace[0].response.obj.body.spec, trace[|trace| - 2])
  }

  // Without the cluster-wide scope, failing to remove the cluster-wide manager binding is
  // reported and then ignored.
  predicate Tolerated(bp: Blueprint, i: Instance, spec: Spec, e: Exchange) {
    !spec.clusterWide && Target(e.request) == bp.key(i, ClusterBinding(Manager))
  }

  // ---- What plans are like -------------------------------------------------

  ghost predicate SuitedOp(bp: Blueprint, i: Instance, spec: Spec, op: Op) {
    match op
    case Ensure(_, m, policy) =>
      (match policy
       case ServicePolicy => m.key.kind == ServiceKind && !IsObjectTaggedToDelete(m)
       case AccountPolicy => m.key.kind == ServiceAccountKind && !IsObjectTaggedToDelete(m)
       case BindingPolicy =>
         && (m.key.kind == ClusterRoleBindingKind || m.key.kind == RoleBindingKind)
         && (m.key == bp.key(i, ClusterBinding(Manager)) ==> spec.clusterWide)
       case TolerantPolicy => m.key.kind == ClusterRoleBindingKind
       case RolePolicy => m.key.kind == RoleKind && !IsObjectTaggedToDelete(m)
       case DeploymentPolicy => DesiredDeployment(m))
    case NeedSecret(server, name) => Asks(spec, server, name)
    case SecretUnnamed(server) => Unnamed(spec, server)
    case NeedClusterRole(g) => bp.clusterRole(g).kind == ClusterRoleKind
    case RetireLegacy(g) => bp.key(i, LegacyBinding(g)).kind == ClusterRoleBindingKind
    case Panic => true
    case _ => false
  }

  predicate DesiredDeployment(m: Manifest) {
    m.key.kind == DeploymentKind && !IsObjectTaggedToDelete(m) && m.body.Workload? && m.body.status == []
  }

  predicate UnnamedNext(plan: Plan) {
    plan.Then? && plan.op.SecretUnnamed?
  }

  // Certificates come first, a panic only behind legacy bindings, and the end only behind
  // the Deployment.
  predicate Follows(op: Op, rest: Plan) {
    && (UnnamedNext(rest) ==> op.NeedSecret? || op.SecretUnnamed?)
    && (PanicsNext(rest) ==> op.RetireLegacy?)
    && (rest.End? ==> op.Panic? || (op.Ensure? && op.policy.DeploymentPolicy?))
  }

  ghost predicate Suited(bp: Blueprint, i: Instance, spec: Spec, plan: Plan) {
    match plan
    case End => true
    case Then(op, rest) => SuitedOp(bp, i, spec, op) && Follows(op, rest) && Suited(bp, i, spec, rest)
  }

  lemma {:induction false} SuitedSuffix(
      bp: Blueprint, i: Instance, spec: Spec, plan: Plan, current: Plan, trace: seq<Exchange>)
    requires Suited(bp, i, spec, plan) && MetUpTo(bp, i, plan, current, trace)
    ensures Suited(bp, i, spec, current)
  {
    if plan != current {
      SuitedSuffix(bp, i, spec, plan.rest, current, trace);
    }
  }

  lemma EnsureSuited(
      bp: Blueprint, instances: set<Instance>, i: Instance, o: Origin, slot: Slot, policy: Policy, rest: Plan)
    requires Sound(bp, instances) && i in instances && Managed(slot) && slot != Application
    requires Suited(bp, i, o.spec, rest) && rest.Then? && !UnnamedNext(rest) && !PanicsNext(rest)
    requires match policy
      case ServicePolicy => slot.AuthService? || slot.OidcService? || slot.MetricsService?
      case AccountPolicy => slot.Account?
      case BindingPolicy => slot == ClusterBinding(K8sAuth) || slot.LeaderBinding?
      case RolePolicy => slot.LeaderRole?
      case _ => false
    ensures Suited(bp, i, o.spec, EnsurePlan(bp, i, o, slot, policy, rest))
  {
    assert ManifestOk(bp, i, slot, bp.manifest(i, o, slot));
    assert SlotKind(slot, bp.key(i, slot).kind);
    assert slot != ClusterBinding(Manager) ==> bp.key(i, slot) != bp.key(i, ClusterBinding(Manager));
  }

  lemma DeploymentSuited(bp: Blueprint, instances: set<Instance>, i: Instance, o: Origin, visit: seq<string>)
    requires Sound(bp, instances) && i in instances
    ensures Suited(bp, i, o.spec, DeploymentPlan(bp, i, o, visit))
    ensures DeploymentPlan(bp, i, o, visit).Then? && !UnnamedNext(DeploymentPlan(bp, i, o, visit))
  {
    if bp.application(i, o, visit).Some? {
      assert ManifestOk(bp, i, Application, bp.application(i, o, visit).value);
      assert SlotKind(Application, bp.key(i, Application).kind);
    }
  }

  lemma LegacySuited(bp: Blueprint, instances: set<Instance>, i: Instance, o: Origin, rest: Plan)
    requires Sound(bp, instances) && i in instances
    requires Suited(bp, i, o.spec, rest) && rest.Then? && !UnnamedNext(rest)
    ensures Suited(bp, i, o.spec, LegacyPlan(rest))
  {
    assert SlotKind(LegacyBinding(Manager), bp.key(i, LegacyBinding(Manager)).kind);
    assert SlotKind(LegacyBinding(K8sAuth), bp.key(i, LegacyBinding(K8sAuth)).kind);
    assert Suited(bp, i, o.spec, Then(RetireLegacy(K8sAuth), rest));
  }

  lemma LeaderSuited(bp: Blueprint, instances: set<Instance>, i: Instance, o: Origin, rest: Plan)
    requires Sound(bp, instances) && i in instances
    requires Suited(bp, i, o.spec, rest) && rest.Then? && !UnnamedNext(rest) && !PanicsNext(rest)
    ensures Suited(bp, i, o.spec, K8sAuthPlan(bp, i, o, LeaderPlan(bp, i, o, rest)))
  {
    EnsureSuited(bp, instances, i, o, LeaderBinding, BindingPolicy, rest);
    EnsureSuited(bp, instances, i, o, LeaderRole, RolePolicy, EnsurePlan(bp, i, o, LeaderBinding, BindingPolicy, rest));
    EnsureSuited(bp, instances, i, o, ClusterBinding(K8sAuth), BindingPolicy, LeaderPlan(bp, i, o, rest));
  }

  lemma ManagerSuited(bp: Blueprint, instances: set<Instance>, i: Instance, o: Origin, rest: Plan)
    requires Sound(bp, instances) && i in instances
    requires Suited(bp, i, o.spec, rest) && rest.Then? && !UnnamedNext(rest) && !PanicsNext(rest)
    ensures Suited(bp, i, o.spec, ManagerClusterPlan(bp, i, o, ManagerLocalPlan(bp, i, o, rest)))
  {
    var local, wide := ManagerManifest(bp, i, o, ManagerBinding), ManagerManifest(bp, i, o, ClusterBinding(Manager));
    assert ManifestOk(bp, i, ManagerBinding, bp.manifest(i, o, ManagerBinding));
    assert ManifestOk(bp, i, ClusterBinding(Manager), bp.manifest(i, o, ClusterBinding(Manager)));
    assert SlotKind(ManagerBinding, local.key.kind) && SlotKind(ClusterBinding(Manager), wide.key.kind);
    assert local.key != wide.key;
    assert Suited(bp, i, o.spec, Then(Ensure(ManagerBinding, local, BindingPolicy), rest));
    var second := ManagerLocalPlan(bp, i, o, rest);
    assert Suited(bp, i, o.spec, second);
    var policy := if o.spec.clusterWide then BindingPolicy else TolerantPolicy;
    assert Suited(bp, i, o.spec, Then(Ensure(ClusterBinding(Manager), wide, policy), second));
  }

  lemma ServicesSuited(bp: Blueprint, instances: set<Instance>, i: Instance, o: Origin, rest: Plan)
    requires Sound(bp, instances) && i in instances
    requires Suited(bp, i, o.spec, rest) && rest.Then? && !UnnamedNext(rest) && !PanicsNext(rest)
    ensures Suited(bp, i, o.spec, ServicesPlan(bp, i, o, AccountPlan(bp, i, o, rest)))
  {
    var account := AccountPlan(bp, i, o, rest);
    var metrics := EnsurePlan(bp, i, o, MetricsService, ServicePolicy, account);
    var oidc := EnsurePlan(bp, i, o, OidcService, ServicePolicy, metrics);
    EnsureSuited(bp, instances, i, o, Account, AccountPolicy, rest);
    EnsureSuited(bp, instances, i, o, MetricsService, ServicePolicy, account);
    EnsureSuited(bp, instances, i, o, OidcService, ServicePolicy, metrics);
    EnsureSuited(bp, instances, i, o, AuthService, ServicePolicy, oidc);
  }

  lemma PreflightSuited(bp: Blueprint, i: Instance, spec: Spec, listenerFirst: bool, rest: Plan)
    requires Suited(bp, i, spec, rest) && rest.Then? && !UnnamedNext(rest) && !PanicsNext(rest)
    ensures var plan := PreflightPlan(spec, listenerFirst, rest);
      Suited(bp, i, spec, plan) && plan.Then? && !PanicsNext(plan)
  {
    var second := SecretPlan(spec, FirstServer(!listenerFirst), rest);
    assert Suited(bp, i, spec, second);
  }

  lemma InstallSuited(bp: Blueprint, instances: set<Instance>, i: Instance, o: Origin, ch: Choice)
    requires Sound(bp, instances) && i in instances
    ensures var plan := InstallPlan(bp, i, o, ch);
      Suited(bp, i, o.spec, plan) && plan.Then? && !PanicsNext(plan)
  {
    var deployment := DeploymentPlan(bp, i, o, ch.visit);
    var legacy := LegacyPlan(deployment);
    var auth := K8sAuthPlan(bp, i, o, LeaderPlan(bp, i, o, legacy));
    var permissions := ManagerClusterPlan(bp, i, o, ManagerLocalPlan(bp, i, o, auth));
    DeploymentSuited(bp, instances, i, o, ch.visit);
    LegacySuited(bp, instances, i, o, deployment);
    LeaderSuited(bp, instances, i, o, legacy);
    ManagerSuited(bp, instances, i, o, auth);
    ServicesSuited(bp, instances, i, o, permissions);
    PreflightSuited(bp, i, o.spec, ch.listenerFirst, ServicesPlan(bp, i, o, AccountPlan(bp, i, o, permissions)));
  }

  // The plans for the finalizer end with its update.
  predicate Keeping(plan: Plan) {
    match plan
    case End => false
    case Then(op, rest) => (op.RemoveBinding? && Keeping(rest)) || (op.PutFinalizer? && rest.End?)
  }

  // ---- The invariant -------------------------------------------------------

  ghost predicate Told(bp: Blueprint, i: Instance, w: Worker, trace: seq<Exchange>) {
    match w
    case Idle(err) => trace != [] ==> !Loud(bp, i, trace) && MayEnd(bp, i, trace) && (err <==> EndsInError(trace))
    case Fetching => trace == []
    case Running(cr, plan, phase, _) =>
      && trace != []
      && match phase
         case Reporting(c, next) =>
           && cr.body.Resource? && Suited(bp, i, cr.body.spec, plan) && plan.Then?
           && Explains(cr.body.spec, trace, c) && ReportEnds(c, plan, next)
           && (next.Continue? || !Tolerated(bp, i, cr.body.spec, trace[|trace| - 1]))
         case Applying(o) => Busy(bp, i, cr, plan) && AppliesRead(plan, trace, o) && !Loud(bp, i, trace)
         case _ => Busy(bp, i, cr, plan) && !Loud(bp, i, trace)
  }

  // What becomes of the pass after a report.
  predicate ReportEnds(c: Condition, plan: Plan, next: Next)
    requires plan.Then?
  {
    && c.ctype == ReadyType && (next.Finish? <==> AboutAvailability(c.reason))
    && (next.Continue? ==> plan.op.Ensure? && plan.op.policy.TolerantPolicy?)
  }

  ghost predicate Busy(bp: Blueprint, i: Instance, cr: Object, plan: Plan) {
    && plan.Then?
    && (Keeping(plan)
        || (cr.body.Resource? && Suited(bp, i, cr.body.spec, plan) && !plan.op.SecretUnnamed? && !plan.op.Panic?))
  }

  predicate AppliesRead(plan: Plan, trace: seq<Exchange>, o: Object) {
    && plan.Then? && plan.op.Ensure? && trace != []
    && trace[|trace| - 1].request == Get(plan.op.manifest.key) && trace[|trace| - 1].response == Found(o)
  }

  // Keys of the kinds that are looked at tell the objects apart.
  ghost predicate Kinded(bp: Blueprint, i: Instance) {
    && bp.key(i, Custom).kind == AuthorinoKind
    && bp.key(i, ClusterBinding(Manager)).kind == ClusterRoleBindingKind
  }

  // Going on with the rest of a plan after something that calls for no report.
  lemma EnterTold(bp: Blueprint, i: Instance, cr: Object, op: Op, rest: Plan, now: int, trace: seq<Exchange>)
    requires trace != [] && !Loud(bp, i, trace) && cr.body.Resource?
    requires Suited(bp, i, cr.body.spec, Then(op, rest)) && rest.Then? && !UnnamedNext(rest)
    requires PanicsNext(rest) ==> EndsInError(trace) && MayEnd(bp, i, trace)
    ensures Told(bp, i, Enter(cr, rest, now), trace)
  {
  }

  lemma LastOf(trace: seq<Exchange>, e: Exchange)
    ensures trace + [e] != [] && (trace + [e])[|trace + [e]| - 1] == e
    ensures trace != [] ==> |trace + [e]| > 1 && (trace + [e])[|trace + [e]| - 2] == trace[|trace| - 1]
  {
  }

  // ---- Step by step --------------------------------------------------------

  lemma {:induction false} ReadyReason(w: Worker, c: Condition)
    requires w.Running? && c.ctype == ReadyType
    ensures var entry := Conditions.Lookup(Report(w, c), ReadyType);
      entry.Some? && entry.value.reason == c.reason
  {
    UpsertReady(if w.cr.body.Resource? then w.cr.body.conditions else [], c, w.now);
  }

  lemma ReportTold(bp: Blueprint, i: Instance, w: Worker, resp: Response, ch: Choice, trace: seq<Exchange>)
    requires w.Running? && w.phase.Reporting? && Told(bp, i, w, trace) && Begins(bp, i, w.cr, trace)
    ensures Told(bp, i, Advance(bp, i, w, resp, ch), trace + [Exchange(NextRequest(bp, i, w), resp, ch)])
  {
    var e := Exchange(NextRequest(bp, i, w), resp, ch);
    LastOf(trace, e);
    assert (trace + [e])[0] == trace[0];
    ReadyReason(w, w.phase.condition);
    if w.phase.next.Continue? {
      EnterTold(bp, i, w.cr, w.plan.op, w.plan.rest, ch.now, trace + [e]);
    }
  }

  lemma SecretTold(bp: Blueprint, i: Instance, w: Worker, resp: Response, ch: Choice, trace: seq<Exchange>)
    requires w.Running? && w.phase.Fresh? && Told(bp, i, w, trace) && w.plan.op.NeedSecret? && Kinded(bp, i)
    ensures Told(bp, i, Advance(bp, i, w, resp, ch), trace + [Exchange(NextRequest(bp, i, w), resp, ch)])
  {
    var e := Exchange(NextRequest(bp, i, w), resp, ch);
    var server := w.plan.op.server;
    LastOf(trace, e);
    assert Asks(w.cr.body.spec, server, w.plan.op.name);
    if resp.Found? {
      if UnnamedNext(w.plan.rest) {
        assert Suited(bp, i, w.cr.body.spec, w.plan.rest);
        assert SuitedOp(bp, i, w.cr.body.spec, w.plan.rest.op);
        assert Unnamed(w.cr.body.spec, w.plan.rest.op.server);
      } else {
        EnterTold(bp, i, w.cr, w.plan.op, w.plan.rest, ch.now, trace + [e]);
      }
    }
  }

  lemma RoleTold(bp: Blueprint, i: Instance, w: Worker, resp: Response, ch: Choice, trace: seq<Exchange>)
    requires w.Running? && w.phase.Fresh? && Told(bp, i, w, trace) && w.plan.op.NeedClusterRole? && Kinded(bp, i)
    ensures Told(bp, i, Advance(bp, i, w, resp, ch), trace + [Exchange(NextRequest(bp, i, w), resp, ch)])
  {
    var e := Exchange(NextRequest(bp, i, w), resp, ch);
    LastOf(trace, e);
    if resp.Found? {
      EnterTold(bp, i, w.cr, w.plan.op, w.plan.rest, ch.now, trace + [e]);
    }
  }

  lemma RetireTold(bp: Blueprint, i: Instance, w: Worker, resp: Response, ch: Choice, trace: seq<Exchange>)
    requires w.Running? && (w.phase.Fresh? || w.phase.Retiring?) && Told(bp, i, w, trace) && w.plan.op.RetireLegacy?
    ensures Told(bp, i, Advance(bp, i, w, resp, ch), trace + [Exchange(NextRequest(bp, i, w), resp, ch)])
  {
    var e := Exchange(NextRequest(bp, i, w), resp, ch);
    LastOf(trace, e);
    assert Legacy(bp, i, bp.key(i, LegacyBinding(w.plan.op.grant)));
    EnterTold(bp, i, w.cr, w.plan.op, w.plan.rest, ch.now, trace + [e]);
  }

  lemma KeepingTold(bp: Blueprint, i: Instance, w: Worker, resp: Response, ch: Choice, trace: seq<Exchange>)
    requires w.Running? && w.phase.Fresh? && Keeping(w.plan)
    ensures Told(bp, i, Advance(bp, i, w, resp, ch), trace + [Exchange(NextRequest(bp, i, w), resp, ch)])
  {
    LastOf(trace, Exchange(NextRequest(bp, i, w), resp, ch));
  }

  // ---- reconcileResource ---------------------------------------------------

  // A failed call on an object that is to be ensured.
  predicate FailedAs(m: Manifest, crud: Crud, e: Exchange) {
    match crud
    case ReadOp => e.request == Get(m.key) && !e.response.Found? && e.response != NotFound
    case CreateOp => e.request == Create(m) && e.response != Done && !IsObjectTaggedToDelete(m)
    case UpdateOp => e.request == Apply(m) && e.response != Done && !IsObjectTaggedToDelete(m)
    case DeleteOp => e.request == Delete(m.key, None) && IsObjectTaggedToDelete(m)
    case NoOp => false
  }

  // It is reported,
  lemma ReportedFailureTold(bp: Blueprint, i: Instance, w: Worker, crud: Crud, obj: Option<Body>, trace: seq<Exchange>)
    requires w.Running? && w.plan.Then? && w.plan.op.Ensure? && w.cr.body.Resource?
    requires Suited(bp, i, w.cr.body.spec, w.plan) && trace != [] && Kinded(bp, i)
    requires FailedAs(w.plan.op.manifest, crud, trace[|trace| - 1]) && ErrorReport(w.plan.op.policy, crud).Some?
    ensures Told(bp, i, Settle(w, crud, obj, true), trace)
  {
    assert SuitedOp(bp, i, w.cr.body.spec, w.plan.op);
  }

  // or goes by in silence.
  lemma SilentFailureTold(bp: Blueprint, i: Instance, w: Worker, crud: Crud, obj: Option<Body>, trace: seq<Exchange>)
    requires w.Running? && w.plan.Then? && w.plan.op.Ensure? && w.cr.body.Resource?
    requires Suited(bp, i, w.cr.body.spec, w.plan) && trace != [] && Kinded(bp, i)
    requires FailedAs(w.plan.op.manifest, crud, trace[|trace| - 1]) && ErrorReport(w.plan.op.policy, crud).None?
    ensures Told(bp, i, Settle(w, crud, obj, true), trace)
  {
    assert SuitedOp(bp, i, w.cr.body.spec, w.plan.op);
    EnterTold(bp, i, w.cr, w.plan.op, w.plan.rest, w.now, trace);
  }

  lemma FailureTold(bp: Blueprint, i: Instance, w: Worker, crud: Crud, obj: Option<Body>, trace: seq<Exchange>)
    requires w.Running? && w.plan.Then? && w.plan.op.Ensure? && w.cr.body.Resource?
    requires Suited(bp, i, w.cr.body.spec, w.plan) && trace != [] && Kinded(bp, i)
    requires FailedAs(w.plan.op.manifest, crud, trace[|trace| - 1])
    ensures Told(bp, i, Settle(w, crud, obj, true), trace)
  {
    if ErrorReport(w.plan.op.policy, crud).Some? {
      ReportedFailureTold(bp, i, w, crud, obj, trace);
    } else {
      SilentFailureTold(bp, i, w, crud, obj, trace);
    }
  }

  // A call that went through, of an operation other than the Deployment's.
  lemma SuccessTold(bp: Blueprint, i: Instance, w: Worker, crud: Crud, obj: Option<Body>, trace: seq<Exchange>)
    requires w.Running? && w.plan.Then? && w.plan.op.Ensure? && w.cr.body.Resource?
    requires Suited(bp, i, w.cr.body.spec, w.plan) && trace != [] && !w.plan.op.policy.DeploymentPolicy?
    requires !Loud(bp, i, trace)
    ensures Told(bp, i, Settle(w, crud, obj, false), trace)
  {
    EnterTold(bp, i, w.cr, w.plan.op, w.plan.rest, w.now, trace);
  }

  // The Deployment was created, or applied as it had been read.
  lemma DeployedTold(bp: Blueprint, i: Instance, w: Worker, crud: Crud, body: Body, trace: seq<Exchange>)
    requires w.Running? && w.plan.Then? && w.plan.op.Ensure? && w.cr.body.Resource?
    requires Suited(bp, i, w.cr.body.spec, w.plan) && trace != [] && w.plan.op.policy.DeploymentPolicy?
    requires Kinded(bp, i)
    requires var e, m := trace[|trace| - 1], w.plan.op.manifest;
      e.response == Done && match crud
      case CreateOp => e.request == Create(m) && body == m.body
      case NoOp => e.request == Apply(m) && exists o :: ReadBefore(trace, m.key, o) && body == o.body
      case _ => false
    ensures Told(bp, i, Settle(w, crud, Some(body), false), trace)
  {
    if body.Workload? {
      AvailableExactly(body.status);
    }
  }

  lemma EnsureTold(bp: Blueprint, i: Instance, w: Worker, resp: Response, ch: Choice, trace: seq<Exchange>)
    requires w.Running? && !w.phase.Reporting? && Told(bp, i, w, trace) && w.plan.op.Ensure? && PhaseOnRecord(w, trace)
    requires Kinded(bp, i)
    ensures Told(bp, i, AdvanceEnsure(w.(now := ch.now), resp), trace + [Exchange(NextRequest(bp, i, w), resp, ch)])
  {
    var e := Exchange(NextRequest(bp, i, w), resp, ch);
    var longer := trace + [e];
    var now := w.(now := ch.now);
    var m := w.plan.op.manifest;
    LastOf(trace, e);
    match w.phase
    case Creating =>
      if resp != Done {
        FailureTold(bp, i, now, CreateOp, Some(m.body), longer);
      } else if w.plan.op.policy.DeploymentPolicy? {
        DeployedTold(bp, i, now, CreateOp, m.body, longer);
      } else {
        SuccessTold(bp, i, now, CreateOp, Some(m.body), longer);
      }
    case Applying(o) =>
      if resp != Done {
        FailureTold(bp, i, now, UpdateOp, Some(m.body), longer);
      } else if w.plan.op.policy.DeploymentPolicy? {
        assert ReadBefore(longer, m.key, o);
        DeployedTold(bp, i, now, NoOp, o.body, longer);
      } else {
        SuccessTold(bp, i, now, NoOp, Some(o.body), longer);
      }
    case Deleting =>
      if resp != Done {
        FailureTold(bp, i, now, DeleteOp, Some(m.body), longer);
      } else {
        SuccessTold(bp, i, now, DeleteOp, Some(m.body), longer);
      }
    case _ => ReadTold(bp, i, w, resp, ch, trace);
  }

  lemma ReadTold(bp: Blueprint, i: Instance, w: Worker, resp: Response, ch: Choice, trace: seq<Exchange>)
    requires w.Running? && (w.phase.Fresh? || w.phase.Retiring?) && Told(bp, i, w, trace) && w.plan.op.Ensure?
    requires Kinded(bp, i)
    ensures Told(bp, i, AdvanceEnsure(w.(now := ch.now), resp), trace + [Exchange(NextRequest(bp, i, w), resp, ch)])
  {
    var e := Exchange(NextRequest(bp, i, w), resp, ch);
    var m := w.plan.op.manifest;
    LastOf(trace, e);
    if resp == NotFound && IsObjectTaggedToDelete(m) {
      SuccessTold(bp, i, w.(now := ch.now), ReadOp, None, trace + [e]);
    } else if !resp.Found? && resp != NotFound {
      FailureTold(bp, i, w.(now := ch.now), ReadOp, None, trace + [e]);
    }
  }

  // ---- Over runs -----------------------------------------------------------

  lemma AdvanceTold(bp: Blueprint, i: Instance, w: Worker, resp: Response, ch: Choice, trace: seq<Exchange>)
    requires w.Running? && Told(bp, i, w, trace) && PhaseOnRecord(w, trace) && Begins(bp, i, w.cr, trace)
    requires Kinded(bp, i)
    requires w.phase.Retiring? ==> w.plan.Then? && w.plan.op.RetireLegacy?
    ensures Told(bp, i, Advance(bp, i, w, resp, ch), trace + [Exchange(NextRequest(bp, i, w), resp, ch)])
  {
    if w.phase.Reporting? {
      ReportTold(bp, i, w, resp, ch, trace);
    } else if w.plan.op.Ensure? {
      EnsureTold(bp, i, w, resp, ch, trace);
    } else {
      match w.plan.op
      case NeedSecret(_, _) => SecretTold(bp, i, w, resp, ch, trace);
      case NeedClusterRole(_) => RoleTold(bp, i, w, resp, ch, trace);
      case RetireLegacy(_) => RetireTold(bp, i, w, resp, ch, trace);
      case _ => KeepingTold(bp, i, w, resp, ch, trace);
    }
  }

  // The resource was fetched, and there is something to do.
  lemma BeginTold(bp: Blueprint, i: Instance, cr: Object, plan: Plan, now: int, trace: seq<Exchange>)
    requires trace != [] && trace[|trace| - 1].response == Found(cr)
    requires trace[|trace| - 1].request == Get(bp.key(i, Custom))
    requires Kinded(bp, i)
    requires Keeping(plan)
      || (cr.body.Resource? && Suited(bp, i, cr.body.spec, plan) && plan.Then? && !PanicsNext(plan))
    ensures Told(bp, i, Enter(cr, plan, now), trace)
  {
    if UnnamedNext(plan) {
      assert SuitedOp(bp, i, cr.body.spec, plan.op);
      assert Unnamed(cr.body.spec, plan.op.server);
    }
  }

  lemma ShortPlansKeeping()
    ensures Keeping(CleanupPlan()) && Keeping(FinalizerPlan())
  {
    assert Keeping(CleanupPlan().rest);
  }

  lemma DispatchTold(
      bp: Blueprint, instances: set<Instance>, i: Instance, cr: Object, ch: Choice, trace: seq<Exchange>)
    requires Sound(bp, instances) && i in instances
    requires trace == [Exchange(Get(bp.key(i, Custom)), Found(cr), ch)]
    ensures Told(bp, i, Dispatch(bp, i, cr, ch), trace)
  {
    assert SlotKind(Custom, bp.key(i, Custom).kind);
    assert SlotKind(ClusterBinding(Manager), bp.key(i, ClusterBinding(Manager)).kind);
    ShortPlansKeeping();
    BeginTold(bp, i, cr, CleanupPlan(), ch.now, trace);
    BeginTold(bp, i, cr, FinalizerPlan(), ch.now, trace);
    if cr.body.Resource? {
      InstallSuited(bp, instances, i, OriginOf(cr), ch);
      BeginTold(bp, i, cr, InstallPlan(bp, i, OriginOf(cr), ch), ch.now, trace);
    }
  }

  // The first answer.
  lemma FetchTold(bp: Blueprint, instances: set<Instance>, i: Instance, resp: Response, ch: Choice)
    requires Sound(bp, instances) && i in instances
    ensures Told(bp, i, Advance(bp, i, Fetching, resp, ch), [Exchange(Get(bp.key(i, Custom)), resp, ch)])
  {
    assert SlotKind(Custom, bp.key(i, Custom).kind);
    if resp.Found? {
      DispatchTold(bp, instances, i, resp.obj, ch, [Exchange(Get(bp.key(i, Custom)), resp, ch)]);
    }
  }

  lemma StepTold(bp: Blueprint, s: System, a: Action, i: Instance, trace: seq<Exchange>)
    requires Inv(bp, s) && Enabled(bp, s, a) && i in s.workers
    requires OnRecord(bp, i, s.workers[i], trace) && Told(bp, i, s.workers[i], trace)
    ensures Told(bp, i, Do(bp, s, a).workers[i], Recorded(bp, s, a, i, trace))
  {
    if a.Step? && a.i == i {
      var w := s.workers[i];
      var resp := Answer(s, NextRequest(bp, i, w), a.outcome, a.at).1;
      assert SlotKind(Custom, bp.key(i, Custom).kind);
      assert SlotKind(ClusterBinding(Manager), bp.key(i, ClusterBinding(Manager)).kind);
      if w.Running? {
        AdvanceTold(bp, i, w, resp, a.ch, trace);
      } else {
        FetchTold(bp, s.workers.Keys, i, resp, a.ch);
        assert [] + [Exchange(Get(bp.key(i, Custom)), resp, a.ch)] == [Exchange(Get(bp.key(i, Custom)), resp, a.ch)];
      }
    }
  }

  lemma {:induction false} RunTold(bp: Blueprint, s: System, run: seq<Action>, i: Instance, sofar: seq<Exchange>)
    requires Inv(bp, s) && Legal(bp, s, run) && i in s.workers
    requires OnRecord(bp, i, s.workers[i], sofar) && Told(bp, i, s.workers[i], sofar)
    ensures i in After(bp, s, run).workers
    ensures Told(bp, i, After(bp, s, run).workers[i], Passage(bp, s, run, i, sofar))
    decreases |run|
  {
    if run != [] {
      StepKeepsInv(bp, s, run[0]);
      StepOnRecord(bp, s, run[0], i, sofar);
      StepTold(bp, s, run[0], i, sofar);
      RunTold(bp, Do(bp, s, run[0]), run[1..], i, Recorded(bp, s, run[0], i, sofar));
    }
  }

  // The conditions of a report: those the pass fetched, updated with one condition that the
  // last exchange explains.
  ghost predicate ReportsWhatHappened(key: Key, cr: Object, trace: seq<Exchange>, request: Request) {
    && trace != [] && cr.body.Resource?
    && exists c, now :: Explains(cr.body.spec, trace, c)
         && request == PatchStatus(key, Conditions.Upsert(cr.body.conditions, c, now))
  }

  lemma ReportingTold(bp: Blueprint, i: Instance, w: Worker, trace: seq<Exchange>)
    requires w.Running? && w.phase.Reporting? && Told(bp, i, w, trace)
    ensures ReportsWhatHappened(bp.key(i, Custom), w.cr, trace, NextRequest(bp, i, w))
  {
    assert Report(w, w.phase.condition) == Conditions.Upsert(w.cr.body.conditions, w.phase.condition, w.now);
  }

  lemma OthersSilent(bp: Blueprint, i: Instance, w: Worker, trace: seq<Exchange>)
    requires Told(bp, i, w, trace) && !(w.Running? && w.phase.Reporting?)
    ensures trace != [] ==> !Loud(bp, i, trace)
    ensures !NextRequest(bp, i, w).PatchStatus?
  {
  }

  // Over every run, and for every kind of object: whenever a pass is about to report, its
  // last exchange tells what - which call failed on which object, or whether the Deployment
  // was available when it was read. Whenever it is not, that exchange was none that calls
  // for a report: the rest of the failures go by in silence.
  lemma {:induction false} ReportsAreEarned(bp: Blueprint, s: System, run: seq<Action>, i: Instance)
    requires Initial(bp, s) && Legal(bp, s, run) && i in s.workers
    ensures var r := After(bp, s, run);
      i in r.workers
      && var trace, request := Passage(bp, s, run, i, []), NextRequest(bp, i, r.workers[i]);
        if request.PatchStatus? then
          && trace != [] && trace[0].request == Get(bp.key(i, Custom)) && trace[0].response.Found?
          && ReportsWhatHappened(bp.key(i, Custom), trace[0].response.obj, trace, request)
        else trace != [] ==> !Loud(bp, i, trace)
  {
    InitialInv(bp, s);
    RunKeepsInv(bp, s, run);
    RunOnRecord(bp, s, run, i, []);
    RunTold(bp, s, run, i, []);
    var w, trace := After(bp, s, run).workers[i], Passage(bp, s, run, i, []);
    if w.Running? && w.phase.Reporting? {
      ReportingTold(bp, i, w, trace);
    } else {
      OthersSilent(bp, i, w, trace);
    }
  }

  // Over every run: a pass is over only after certain exchanges, and it ended with an error
  // exactly if the last one says so - a refused update of the finalizer, a report of an error
  // or one that failed itself, a resource that cannot be read, an image that is not known.
  // The failures that go by in silence, and that of removing the manager binding of the other
  // scope, do not end it.
  lemma {:induction false} ErrorsAreEarned(bp: Blueprint, s: System, run: seq<Action>, i: Instance)
    requires Initial(bp, s) && Legal(bp, s, run) && i in s.workers
    requires var r := After(bp, s, run);
      i in r.workers && r.workers[i].Idle? && Passage(bp, s, run, i, []) != []
    ensures MayEnd(bp, i, Passage(bp, s, run, i, []))
    ensures After(bp, s, run).workers[i].failed <==> EndsInError(Passage(bp, s, run, i, []))
  {
    InitialInv(bp, s);
    RunTold(bp, s, run, i, []);
  }
}
