// The reconcile protocol as a step machine (controllers/authorino_controller.go,
// pkg/reconcilers/authorino_reconciler.go). One worker per custom resource makes one call
// to the API server per step; workers, users and crashes interleave freely.
//
// What a worker still has to do is a plan: a list of operations, of which each takes one
// or two calls and possibly a status report.
module Protocol {
  import opened Text
  import opened Api
  import opened Objects
  import opened Cluster
  import Conditions

  // ---- What the operator manages -------------------------------------------

  // The two cluster roles an instance may be bound to cluster-wide.
  datatype Grant = Manager | K8sAuth

  // The objects of one instance.
  datatype Slot =
    | Custom                       // the custom resource itself
    | AuthService
    | OidcService
    | MetricsService
    | Account
    | ClusterBinding(grant: Grant) // named after namespace and instance
    | LegacyBinding(grant: Grant)  // named after the instance only, before the migration
    | ManagerBinding
    | LeaderRole                   // one per namespace, shared by its instances
    | LeaderBinding
    | Application

  // The fields of a custom resource that the desired objects depend on.
  datatype Origin = Origin(uid: nat, labels: map<string, string>, spec: Spec)

  function OriginOf(cr: Object): Origin
    requires cr.body.Resource?
  {
    Origin(cr.uid, cr.meta.labels, cr.body.spec)
  }

  // How instances name and describe their objects. The protocol does not depend on how
  // names are spelled; `visit` is the order in which the map of tracing tags is visited.
  // Without a known image there is no Deployment to describe.
  datatype Blueprint = Blueprint(
    key: (Instance, Slot) -> Key,
    subject: Instance -> Subject,
    clusterRole: Grant -> Key,
    manifest: (Instance, Origin, Slot) -> Manifest,
    application: (Instance, Origin, seq<string>) -> Option<Manifest>)

  function RoleFor(g: Grant): RoleName {
    match g
    case Manager => ManagerRole
    case K8sAuth => K8sAuthRole
  }

  // The contents of an instance's cluster-wide binding.
  function GrantBody(bp: Blueprint, i: Instance, g: Grant): Body {
    Binding(RoleRef(ClusterRoleKind, RoleFor(g)), [bp.subject(i)])
  }

  // ---- Plans ---------------------------------------------------------------

  // How the outcome of reconcileResource is reported.
  datatype Policy = ServicePolicy | AccountPolicy | BindingPolicy | TolerantPolicy | RolePolicy | DeploymentPolicy

  datatype Op =
    | RemoveBinding(grant: Grant)
    | PutFinalizer(present: bool)
    | NeedSecret(server: Server, name: string)
    | SecretUnnamed(server: Server)
    | Panic
    | NeedClusterRole(grant: Grant)
    | Ensure(slot: Slot, manifest: Manifest, policy: Policy)
    | RetireLegacy(grant: Grant)

  datatype Plan = End | Then(op: Op, rest: Plan)

  // What the code takes from its surroundings besides responses: the order in which maps
  // are visited, and the clock.
  datatype Choice = Choice(visit: seq<string>, listenerFirst: bool, now: int)

  function CleanupPlan(): Plan {
    Then(RemoveBinding(Manager), Then(RemoveBinding(K8sAuth), Then(PutFinalizer(false), End)))
  }

  function FinalizerPlan(): Plan {
    Then(PutFinalizer(true), End)
  }

  function ServerTls(spec: Spec, server: Server): Tls {
    match server
    case ListenerServer => spec.listener.tls
    case OidcServerSide => spec.oidcServer.tls
  }

  function SecretPlan(spec: Spec, server: Server, rest: Plan): Plan {
    var tls := ServerTls(spec, server);
    if !tls.On() then rest
    else if tls.certSecret == None || tls.certSecret.value == "" then Then(SecretUnnamed(server), rest)
    else Then(NeedSecret(server, tls.certSecret.value), rest)
  }

  // Which server is checked first is unspecified.
  function FirstServer(listenerFirst: bool): Server {
    if listenerFirst then ListenerServer else OidcServerSide
  }

  function PreflightPlan(spec: Spec, listenerFirst: bool, rest: Plan): Plan {
    SecretPlan(spec, FirstServer(listenerFirst), SecretPlan(spec, FirstServer(!listenerFirst), rest))
  }

  function EnsurePlan(bp: Blueprint, i: Instance, o: Origin, slot: Slot, policy: Policy, rest: Plan): Plan {
    Then(Ensure(slot, bp.manifest(i, o, slot), policy), rest)
  }

  function ServicesPlan(bp: Blueprint, i: Instance, o: Origin, rest: Plan): Plan {
    EnsurePlan(bp, i, o, AuthService, ServicePolicy,
    EnsurePlan(bp, i, o, OidcService, ServicePolicy,
    EnsurePlan(bp, i, o, MetricsService, ServicePolicy, rest)))
  }

  function AccountPlan(bp: Blueprint, i: Instance, o: Origin, rest: Plan): Plan {
    EnsurePlan(bp, i, o, Account, AccountPolicy, rest)
  }

  // The manager binding that the current scope asks for is ensured, the other removed.
  function ManagerManifest(bp: Blueprint, i: Instance, o: Origin, slot: Slot): Manifest {
    if o.spec.clusterWide == slot.ClusterBinding? then bp.manifest(i, o, slot)
    else TagObjectToDelete(bp.manifest(i, o, slot))
  }

  function ManagerClusterPlan(bp: Blueprint, i: Instance, o: Origin, rest: Plan): Plan {
    Then(NeedClusterRole(Manager),
    Then(Ensure(ClusterBinding(Manager), ManagerManifest(bp, i, o, ClusterBinding(Manager)),
                if o.spec.clusterWide then BindingPolicy else TolerantPolicy), rest))
  }

  function ManagerLocalPlan(bp: Blueprint, i: Instance, o: Origin, rest: Plan): Plan {
    Then(NeedClusterRole(Manager),
    Then(Ensure(ManagerBinding, ManagerManifest(bp, i, o, ManagerBinding), BindingPolicy), rest))
  }

  function K8sAuthPlan(bp: Blueprint, i: Instance, o: Origin, rest: Plan): Plan {
    Then(NeedClusterRole(K8sAuth), EnsurePlan(bp, i, o, ClusterBinding(K8sAuth), BindingPolicy, rest))
  }

  function LeaderPlan(bp: Blueprint, i: Instance, o: Origin, rest: Plan): Plan {
    EnsurePlan(bp, i, o, LeaderRole, RolePolicy, EnsurePlan(bp, i, o, LeaderBinding, BindingPolicy, rest))
  }

  function LegacyPlan(rest: Plan): Plan {
    Then(RetireLegacy(Manager), Then(RetireLegacy(K8sAuth), rest))
  }

  function PermissionsPlan(bp: Blueprint, i: Instance, o: Origin, rest: Plan): Plan {
    ManagerClusterPlan(bp, i, o,
                       ManagerLocalPlan(bp, i, o, K8sAuthPlan(bp, i, o, LeaderPlan(bp, i, o, LegacyPlan(rest)))))
  }

  // Without a known image, building the Deployment panics.
  function DeploymentPlan(bp: Blueprint, i: Instance, o: Origin, visit: seq<string>): Plan {
    match bp.application(i, o, visit)
    case None => Then(Panic, End)
    case Some(m) => Then(Ensure(Application, m, DeploymentPolicy), End)
  }

  function InstallPlan(bp: Blueprint, i: Instance, o: Origin, ch: Choice): Plan {
    PreflightPlan(o.spec, ch.listenerFirst,
    ServicesPlan(bp, i, o,
    AccountPlan(bp, i, o,
    PermissionsPlan(bp, i, o,
    DeploymentPlan(bp, i, o, ch.visit)))))
  }

  // ---- Workers -------------------------------------------------------------

  // What follows a status report: give up with an error, go on, or end the pass with an
  // error only if the report failed.
  datatype Next = Abort | Continue | Finish

  // Where a worker is within its current operation.
  datatype Phase =
    | Fresh
    | Creating
    | Applying(found: Object)
    | Deleting
    | Retiring(legacy: Object)
    | Reporting(condition: Condition, next: Next)

  datatype Worker =
    | Idle(failed: bool)
    | Fetching
    | Running(cr: Object, plan: Plan, phase: Phase, now: int)

  function StatusReady(): Condition {
    Condition(ReadyType, True, 0, Provisioned, NoMessage)
  }

  function StatusNotReady(reason: Reason, message: Message): Condition {
    Condition(ReadyType, False, 0, reason, message)
  }

  // The conditions a report writes, from those the pass fetched.
  function Report(w: Worker, c: Condition): seq<Condition>
    requires w.Running?
  {
    Conditions.Upsert(if w.cr.body.Resource? then w.cr.body.conditions else [], c, w.now)
  }

  function WithFinalizer(cr: Object, present: bool): Object {
    cr.(meta := cr.meta.(finalizers :=
      if present then cr.meta.finalizers + {OperatorFinalizer} else cr.meta.finalizers - {OperatorFinalizer}))
  }

  // The next call a worker makes.
  function NextRequest(bp: Blueprint, i: Instance, w: Worker): Request {
    if !w.Running? then Get(bp.key(i, Custom))
    else if w.phase.Reporting? then PatchStatus(bp.key(i, Custom), Report(w, w.phase.condition))
    else if w.plan.End? then Get(bp.key(i, Custom))
    else match w.plan.op
      case RemoveBinding(g) => Delete(bp.key(i, ClusterBinding(g)), None)
      case PutFinalizer(present) => Update(bp.key(i, Custom), WithFinalizer(w.cr, present))
      case NeedSecret(_, name) => Get(Key(SecretKind, i.ns, name))
      case SecretUnnamed(_) => Get(bp.key(i, Custom))
      case Panic => Get(bp.key(i, Custom))
      case NeedClusterRole(g) => Get(bp.clusterRole(g))
      case Ensure(slot, m, _) =>
        (match w.phase
         case Creating => Create(m)
         case Applying(_) => Apply(m)
         case Deleting => Delete(m.key, None)
         case _ => Get(m.key))
      case RetireLegacy(g) =>
        (match w.phase
         case Retiring(o) => Delete(bp.key(i, LegacyBinding(g)), Some(Precondition(o.uid, o.version)))
         case _ => Get(bp.key(i, LegacyBinding(g))))
  }

  // Entering a plan: the end of the plan ends the pass, a panic ends it with an error, and
  // a known failure is reported at once.
  function Enter(cr: Object, plan: Plan, now: int): Worker {
    match plan
    case End => Idle(false)
    case Then(Panic, _) => Idle(true)
    case Then(SecretUnnamed(server), _) =>
      Running(cr, plan, Reporting(StatusNotReady(TlsSecretNotProvided, SecretNotNamed(server)), Abort), now)
    case Then(_, _) => Running(cr, plan, Fresh, now)
  }

  function Giveup(w: Worker, reason: Reason, message: Message): Worker
    requires w.Running?
  {
    w.(phase := Reporting(StatusNotReady(reason, message), Abort))
  }

  // What reconcileResource did last, as it tells its caller.
  datatype Crud = ReadOp | CreateOp | UpdateOp | DeleteOp | NoOp

  // What is reported of an error.
  datatype Failure = Failure(reason: Reason, verb: Verb)

  // The failure reported for an error, if the caller reports it at all.
  function ErrorReport(policy: Policy, crud: Crud): Option<Failure> {
    match policy
    case ServicePolicy =>
      (match crud
       case ReadOp => Some(Failure(UnableToGetServices, ToGet))
       case CreateOp => Some(Failure(UnableToCreateServices, ToCreate))
       case UpdateOp => Some(Failure(UnableToGetServices, ToUpdate))
       case _ => None)
    case AccountPolicy =>
      (match crud
       case ReadOp => Some(Failure(UnableToGetServiceAccount, ToGet))
       case _ => Some(Failure(UnableToCreateServiceAccount, ToCreate)))
    case BindingPolicy | TolerantPolicy =>
      (match crud
       case ReadOp => Some(Failure(UnableToGetBinding, ToGet))
       case CreateOp => Some(Failure(UnableToCreateBinding, ToCreate))
       case UpdateOp => Some(Failure(UnableToCreateBinding, ToUpdate))
       case _ => None)
    case RolePolicy =>
      (match crud
       case ReadOp => Some(Failure(UnableToGetLeaderElectionRole, ToGet))
       case CreateOp => Some(Failure(UnableToCreateLeaderElectionRole, ToCreate))
       case _ => None)
    case DeploymentPolicy =>
      (match crud
       case ReadOp => Some(Failure(UnableToGetDeployment, ToGet))
       case CreateOp => Some(Failure(UnableToCreateDeployment, ToCreate))
       case UpdateOp => Some(Failure(UnableToBuildDeployment, ToBuild))
       case _ => Some(Failure(UnableToUpdateDeployment, ToReconcile)))
  }

  // After reconcileResource: what its caller makes of (crud, obj, err).
  function Settle(w: Worker, crud: Crud, obj: Option<Body>, err: bool): Worker
    requires w.Running? && w.plan.Then? && w.plan.op.Ensure?
  {
    var policy := w.plan.op.policy;
    if err then
      match ErrorReport(policy, crud)
      case Some(f) =>
        w.(phase := Reporting(StatusNotReady(f.reason, Unable(f.verb, w.plan.op.manifest.key.name)),
                              if policy.TolerantPolicy? then Continue else Abort))
      case None => Enter(w.cr, w.plan.rest, w.now)
    else if policy.DeploymentPolicy? then
      if crud.UpdateOp? then w.(phase := Reporting(StatusNotReady(Updated, ResourceUpdated), Finish))
      else if obj == None || !obj.value.Workload? then Idle(true)
      else if DeploymentAvailable(obj.value.status) then w.(phase := Reporting(StatusReady(), Finish))
      else w.(phase := Reporting(StatusNotReady(DeploymentNotReady, ResourceNotReady), Finish))
    else Enter(w.cr, w.plan.rest, w.now)
  }

  function AdvanceEnsure(w: Worker, resp: Response): Worker
    requires w.Running? && w.plan.Then? && w.plan.op.Ensure?
  {
    var m := w.plan.op.manifest;
    match w.phase
    case Creating => Settle(w, CreateOp, Some(m.body), resp != Done)
    case Applying(o) => if resp == Done then Settle(w, NoOp, Some(o.body), false)
      else Settle(w, UpdateOp, Some(m.body), true)
    case Deleting => Settle(w, DeleteOp, Some(m.body), resp != Done)
    case _ =>
      match resp
      case Found(o) => w.(phase := if IsObjectTaggedToDelete(m) then Deleting else Applying(o))
      case NotFound => if IsObjectTaggedToDelete(m) then Settle(w, ReadOp, None, false) else w.(phase := Creating)
      case _ => Settle(w, ReadOp, None, true)
  }

  function AdvanceRetire(bp: Blueprint, i: Instance, w: Worker, resp: Response): Worker
    requires w.Running? && w.plan.Then? && w.plan.op.RetireLegacy?
  {
    if w.phase.Fresh? && resp.Found? && resp.obj.body.Binding?
       && SubjectIncluded(resp.obj.body.subjects, bp.subject(i))
    then w.(phase := Retiring(resp.obj))
    else Enter(w.cr, w.plan.rest, w.now)
  }

  function AdvanceReport(w: Worker, resp: Response): Worker
    requires w.Running? && w.phase.Reporting?
  {
    match w.phase.next
    case Abort => Idle(true)
    case Finish => Idle(resp != Done)
    case Continue => if w.plan.Then? then Enter(w.cr, w.plan.rest, w.now) else Idle(true)
  }

  // The fetched custom resource decides what the pass is about.
  function Dispatch(bp: Blueprint, i: Instance, cr: Object, ch: Choice): Worker {
    if cr.meta.deleting && OperatorFinalizer in cr.meta.finalizers then Enter(cr, CleanupPlan(), ch.now)
    else if cr.meta.deleting then Idle(false)
    else if OperatorFinalizer !in cr.meta.finalizers then Enter(cr, FinalizerPlan(), ch.now)
    else if !cr.body.Resource? then Idle(true)
    else Enter(cr, InstallPlan(bp, i, OriginOf(cr), ch), ch.now)
  }

  // A worker after the response to its call.
  function Advance(bp: Blueprint, i: Instance, before: Worker, resp: Response, ch: Choice): Worker {
    match before
    case Idle(_) => before
    case Fetching =>
      (match resp
       case Found(cr) => Dispatch(bp, i, cr, ch)
       case NotFound => Idle(false)
       case _ => Idle(true))
    case Running(_, _, _, _) =>
      var w := before.(now := ch.now);
      if w.phase.Reporting? then AdvanceReport(w, resp)
      else if w.plan.End? then Idle(false)
      else match w.plan.op
        case RemoveBinding(_) => Enter(w.cr, w.plan.rest, w.now)
        case PutFinalizer(_) => if resp == Done then Enter(w.cr, w.plan.rest, w.now) else Idle(true)
        case NeedSecret(server, name) =>
          if resp.Found? then Enter(w.cr, w.plan.rest, w.now)
          else Giveup(w, TlsSecretNotProvided,
                      if resp == NotFound then SecretNotFound(server, name) else SecretNotRead(server, name))
        case SecretUnnamed(_) => Idle(true)
        case Panic => Idle(true)
        case NeedClusterRole(g) =>
          if resp.Found? then Enter(w.cr, w.plan.rest, w.now)
          else if resp == NotFound then Giveup(w, ClusterRoleNotFound, Unable(ToFind, bp.clusterRole(g).name))
          else Giveup(w, UnableToGetClusterRole, Unable(ToGet, bp.clusterRole(g).name))
        case Ensure(_, _, _) => AdvanceEnsure(w, resp)
        case RetireLegacy(_) => AdvanceRetire(bp, i, w, resp)
  }

  // ---- The system ----------------------------------------------------------

  // All states of the store so far, the worker of each instance, and for each worker the
  // latest state in which it has seen its custom resource.
  datatype System = System(history: seq<Store>, workers: map<Instance, Worker>, floor: map<Instance, nat>) {
    function Now(): Store
      requires |history| > 0
    {
      history[|history| - 1]
    }
  }

  datatype Action =
    | Start(i: Instance)
    | Crash(i: Instance)
    | Step(i: Instance, outcome: Outcome, at: nat, ch: Choice)
    | UserWrite(key: Key, meta: Meta, body: Body)
    | UserDelete(key: Key)

  // Kinds have bodies of their own.
  predicate Fits(kind: Kind, body: Body) {
    match kind
    case AuthorinoKind => body.Resource?
    case ClusterRoleBindingKind => body.Binding?
    case RoleBindingKind => body.Binding?
    case DeploymentKind => body.Workload?
    case _ => true
  }

  // Reads may lag: a served read answers from some earlier state of the store.
  function Answer(s: System, request: Request, outcome: Outcome, at: nat): (Store, Response)
    requires at < |s.history|
  {
    match request
    case Get(_) => (s.Now(), if outcome == Served then Serve(s.history[at], request).1 else Failed)
    case _ => Call(s.Now(), request, outcome)
  }

  function UserWritten(store: Store, key: Key, meta: Meta, body: Body): Store {
    if key in store.objects then Put(store, key, Object(store.objects[key].uid, 0, meta, body))
    else Put(store, key, Object(store.nextUid, 0, meta, body)).(nextUid := store.nextUid + 1)
  }

  // Users do not write into the cluster-wide bindings of an instance, though they may
  // delete them and edit their metadata.
  predicate Forges(bp: Blueprint, s: System, key: Key, body: Body)
    requires |s.history| > 0
  {
    exists i, g | i in s.workers ::
      && key == bp.key(i, ClusterBinding(g))
      && !(key in s.Now().objects && s.Now().objects[key].body == body)
  }

  predicate Enabled(bp: Blueprint, s: System, a: Action)
    requires |s.history| > 0
  {
    match a
    case Start(i) => i in s.workers && s.workers[i].Idle?
    case Crash(i) => i in s.workers
    case Step(i, _, at, ch) =>
      && i in s.workers && i in s.floor && !s.workers[i].Idle?
      && at < |s.history|
      // A worker never sees its custom resource go back in time.
      && (s.workers[i].Fetching? ==> s.floor[i] <= at)
    case UserWrite(key, _, body) => Fits(key.kind, body) && !Forges(bp, s, key, body)
    case UserDelete(key) => true
  }

  function Do(bp: Blueprint, s: System, a: Action): System
    requires |s.history| > 0
    requires a.Step? ==> a.i in s.workers && a.at < |s.history|
  {
    match a
    case Start(i) => s.(workers := s.workers[i := Fetching])
    case Crash(i) => s.(workers := s.workers[i := Idle(true)])
    case Step(i, outcome, at, ch) =>
      var w := s.workers[i];
      var (store, resp) := Answer(s, NextRequest(bp, i, w), outcome, at);
      System(s.history + [store],
             s.workers[i := Advance(bp, i, w, resp, ch)],
             if w.Fetching? && outcome == Served then s.floor[i := at] else s.floor)
    case UserWrite(key, meta, body) => s.(history := s.history + [UserWritten(s.Now(), key, meta, body)])
    case UserDelete(key) => s.(history := s.history + [Remove(s.Now(), key)])
  }

  // A run: every action is possible when its turn comes.
  ghost predicate Legal(bp: Blueprint, s: System, run: seq<Action>)
    requires |s.history| > 0
    decreases |run|
  {
    run == [] || (Enabled(bp, s, run[0]) && Legal(bp, Do(bp, s, run[0]), run[1..]))
  }

  ghost function After(bp: Blueprint, s: System, run: seq<Action>): (r: System)
    requires |s.history| > 0
    requires Legal(bp, s, run)
    ensures |r.history| > 0
    decreases |run|
  {
    if run == [] then s else After(bp, Do(bp, s, run[0]), run[1..])
  }
}
