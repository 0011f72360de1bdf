// A pass that nobody disturbs and no call of which fails: what it leaves behind, and that
// doing it again changes nothing.
module Undisturbed {
  import opened Text
  import opened Api
  import opened Objects
  import opened Cluster
  import opened Protocol
  import opened Isolation
  import Conditions

  // ---- Running alone -------------------------------------------------------

  function Length(plan: Plan): nat {
    match plan
    case End => 0
    case Then(_, rest) => 1 + Length(rest)
  }

  function PhaseRank(phase: Phase): nat {
    match phase
    case Fresh => 4
    case Retiring(_) => 3
    case Creating | Applying(_) | Deleting => 2
    case Reporting(_, _) => 1
  }

  // How far a worker is from the end of its pass.
  function Remaining(w: Worker): nat {
    match w
    case Idle(_) => 0
    case Fetching => 1
    case Running(_, plan, phase, _) => 5 * Length(plan) + PhaseRank(phase)
  }

  lemma AdvanceShortens(bp: Blueprint, i: Instance, w: Worker, resp: Response, ch: Choice)
    requires w.Running?
    ensures Remaining(Advance(bp, i, w, resp, ch)) < Remaining(w)
  {
  }

  // One call, answered from the present state and served.
  function AloneStep(bp: Blueprint, i: Instance, w: Worker, store: Store, ch: Choice): (Worker, Store) {
    var (next, resp) := Serve(store, NextRequest(bp, i, w));
    (Advance(bp, i, w, resp, ch), next)
  }

  // The rest of a pass.
  function Alone(bp: Blueprint, i: Instance, w: Worker, store: Store, ch: Choice): Store
    decreases Remaining(w)
  {
    if !w.Running? then store
    else
      AdvanceShortens(bp, i, w, Serve(store, NextRequest(bp, i, w)).1, ch);
      var (w', store') := AloneStep(bp, i, w, store, ch);
      Alone(bp, i, w', store', ch)
  }

  // A whole pass, from fetching the custom resource.
  function Pass(bp: Blueprint, i: Instance, store: Store, ch: Choice): Store {
    var (w, store') := AloneStep(bp, i, Fetching, store, ch);
    Alone(bp, i, w, store', ch)
  }

  // ---- What each operation does --------------------------------------------

  function EnsureStore(m: Manifest, store: Store): Store {
    if IsObjectTaggedToDelete(m) then (if m.key in store.objects then Remove(store, m.key) else store)
    else if m.key in store.objects then Replace(store, m.key, Merged(store.objects[m.key], m))
    else Insert(store, m)
  }

  predicate Lists(bp: Blueprint, i: Instance, store: Store, key: Key) {
    && key in store.objects
    && store.objects[key].body.Binding?
    && bp.subject(i) in store.objects[key].body.subjects
  }

  function OpStore(bp: Blueprint, i: Instance, op: Op, store: Store): Store {
    match op
    case Ensure(_, m, _) => EnsureStore(m, store)
    case RetireLegacy(g) =>
      var key := bp.key(i, LegacyBinding(g));
      if Lists(bp, i, store, key) then Remove(store, key) else store
    case _ => store
  }

  // What is reported of an operation that cannot go ahead.
  function Blocked(bp: Blueprint, i: Instance, op: Op, store: Store): Option<Condition> {
    match op
    case NeedSecret(server, name) =>
      if Key(SecretKind, i.ns, name) in store.objects then None
      else Some(StatusNotReady(TlsSecretNotProvided, SecretNotFound(server, name)))
    case NeedClusterRole(g) =>
      if bp.clusterRole(g) in store.objects then None
      else Some(StatusNotReady(ClusterRoleNotFound, Unable(ToFind, bp.clusterRole(g).name)))
    case SecretUnnamed(server) => Some(StatusNotReady(TlsSecretNotProvided, SecretNotNamed(server)))
    case _ => None
  }

  // What is reported about the Deployment: whether it was available before it was applied.
  function Availability(m: Manifest, store: Store): Condition {
    if m.key in store.objects && store.objects[m.key].body.Workload?
       && DeploymentAvailable(store.objects[m.key].body.status)
    then StatusReady() else StatusNotReady(DeploymentNotReady, ResourceNotReady)
  }

  datatype Result = Result(store: Store, report: Option<Condition>)

  // A plan as a whole: the resources it leaves, and what it reports at the end.
  function RunPlan(bp: Blueprint, i: Instance, plan: Plan, store: Store): Result {
    match plan
    case End => Result(store, None)
    case Then(op, rest) =>
      if op.Panic? then Result(store, None)
      else if Blocked(bp, i, op, store).Some? then Result(store, Blocked(bp, i, op, store))
      else if op.Ensure? && op.policy.DeploymentPolicy? then
        Result(OpStore(bp, i, op, store), Some(Availability(op.manifest, store)))
      else RunPlan(bp, i, rest, OpStore(bp, i, op, store))
  }

  // The status report that ends a pass.
  function Reported(bp: Blueprint, i: Instance, r: Result, cr: Object, now: int): Store
    requires cr.body.Resource?
  {
    match r.report
    case None => r.store
    case Some(c) => Serve(r.store, PatchStatus(bp.key(i, Custom), Conditions.Upsert(cr.body.conditions, c, now))).0
  }

  // Plans that only ensure, check and retire.
  predicate Ordinary(plan: Plan) {
    match plan
    case End => true
    case Then(op, rest) =>
      && !op.PutFinalizer? && !op.RemoveBinding?
      && (op.Ensure? ==> Fits(op.manifest.key.kind, op.manifest.body))
      && (op.Ensure? && op.policy.DeploymentPolicy? ==> DesiredWorkload(op.manifest))
      && Ordinary(rest)
  }

  predicate DesiredWorkload(m: Manifest) {
    m.key.kind == DeploymentKind && m.body.Workload? && m.body.status == [] && !IsObjectTaggedToDelete(m)
  }

  ghost predicate Typed(store: Store) {
    forall key | key in store.objects :: Fits(key.kind, store.objects[key].body)
  }

  lemma AloneUnfolds(bp: Blueprint, i: Instance, w: Worker, store: Store, ch: Choice)
    requires w.Running?
    ensures Alone(bp, i, w, store, ch)
      == Alone(bp, i, AloneStep(bp, i, w, store, ch).0, AloneStep(bp, i, w, store, ch).1, ch)
  {
  }

  lemma ReportAlone(bp: Blueprint, i: Instance, w: Worker, store: Store, ch: Choice)
    requires w.Running? && w.phase.Reporting? && !w.phase.next.Continue? && w.cr.body.Resource?
    ensures Alone(bp, i, w, store, ch) == Reported(bp, i, Result(store, Some(w.phase.condition)), w.cr, w.now)
  {
    AloneUnfolds(bp, i, w, store, ch);
  }

  // reconcileResource in two calls.
  lemma EnsureAlone(bp: Blueprint, i: Instance, w: Worker, store: Store, ch: Choice)
    requires w.Running? && w.phase.Fresh? && w.plan.Then? && w.plan.op.Ensure? && w.now == ch.now
    ensures var m := w.plan.op.manifest;
      var present := m.key in store.objects;
      Alone(bp, i, w, store, ch) == Alone(bp, i,
        if IsObjectTaggedToDelete(m) then
          (if present then Settle(w.(phase := Deleting), DeleteOp, Some(m.body), false)
           else Settle(w, ReadOp, None, false))
        else if present then
          Settle(w.(phase := Applying(store.objects[m.key])), NoOp, Some(store.objects[m.key].body), false)
        else Settle(w.(phase := Creating), CreateOp, Some(m.body), false),
        EnsureStore(m, store), ch)
  {
    var m := w.plan.op.manifest;
    AloneUnfolds(bp, i, w, store, ch);
    if m.key in store.objects || !IsObjectTaggedToDelete(m) {
      var (w1, store1) := AloneStep(bp, i, w, store, ch);
      AloneUnfolds(bp, i, w1, store1, ch);
    }
  }

  lemma RetireAlone(bp: Blueprint, i: Instance, w: Worker, store: Store, ch: Choice)
    requires w.Running? && w.phase.Fresh? && w.plan.Then? && w.plan.op.RetireLegacy? && w.now == ch.now
    ensures Alone(bp, i, w, store, ch)
         == Alone(bp, i, Enter(w.cr, w.plan.rest, w.now), OpStore(bp, i, w.plan.op, store), ch)
  {
    AloneUnfolds(bp, i, w, store, ch);
    if Lists(bp, i, store, bp.key(i, LegacyBinding(w.plan.op.grant))) {
      var (w1, store1) := AloneStep(bp, i, w, store, ch);
      AloneUnfolds(bp, i, w1, store1, ch);
    }
  }

  lemma CheckAlone(bp: Blueprint, i: Instance, cr: Object, plan: Plan, store: Store, ch: Choice)
    requires plan.Then? && (plan.op.NeedSecret? || plan.op.NeedClusterRole?) && cr.body.Resource?
    ensures Alone(bp, i, Running(cr, plan, Fresh, ch.now), store, ch) ==
      match Blocked(bp, i, plan.op, store)
      case Some(c) => Reported(bp, i, Result(store, Some(c)), cr, ch.now)
      case None => Alone(bp, i, Enter(cr, plan.rest, ch.now), store, ch)
  {
    var w := Running(cr, plan, Fresh, ch.now);
    AloneUnfolds(bp, i, w, store, ch);
    if Blocked(bp, i, plan.op, store).Some? {
      ReportAlone(bp, i, AloneStep(bp, i, w, store, ch).0, store, ch);
    }
  }

  lemma DeploymentAlone(bp: Blueprint, i: Instance, w: Worker, store: Store, ch: Choice)
    requires w.Running? && w.phase.Fresh? && w.plan.Then? && w.plan.op.Ensure? && w.now == ch.now && w.cr.body.Resource?
    requires w.plan.op.policy.DeploymentPolicy? && DesiredWorkload(w.plan.op.manifest) && Typed(store)
    ensures var m := w.plan.op.manifest;
      Alone(bp, i, w, store, ch)
      == Reported(bp, i, Result(EnsureStore(m, store), Some(Availability(m, store))), w.cr, w.now)
  {
    var m := w.plan.op.manifest;
    EnsureAlone(bp, i, w, store, ch);
    var next :=
      if m.key in store.objects then
        Settle(w.(phase := Applying(store.objects[m.key])), NoOp, Some(store.objects[m.key].body), false)
      else Settle(w.(phase := Creating), CreateOp, Some(m.body), false);
    assert m.key in store.objects ==> Fits(m.key.kind, store.objects[m.key].body);
    ReportAlone(bp, i, next, EnsureStore(m, store), ch);
  }

  lemma EnsureTyped(m: Manifest, store: Store)
    requires Typed(store) && Fits(m.key.kind, m.body)
    ensures Typed(EnsureStore(m, store))
  {
  }

  // The small steps of an undisturbed pass add up to the outcome of its plan.
  lemma {:induction false} AloneRunsPlan(bp: Blueprint, i: Instance, cr: Object, plan: Plan, store: Store, ch: Choice)
    requires Ordinary(plan) && Typed(store) && cr.body.Resource?
    ensures Alone(bp, i, Enter(cr, plan, ch.now), store, ch)
         == Reported(bp, i, RunPlan(bp, i, plan, store), cr, ch.now)
    decreases plan
  {
    var w := Enter(cr, plan, ch.now);
    match plan
    case End =>
    case Then(op, rest) =>
      var next := OpStore(bp, i, op, store);
      match op
      case Panic =>
      case SecretUnnamed(_) => ReportAlone(bp, i, w, store, ch);
      case NeedSecret(_, _) =>
        CheckAlone(bp, i, cr, plan, store, ch);
        AloneRunsPlan(bp, i, cr, rest, store, ch);
      case NeedClusterRole(_) =>
        CheckAlone(bp, i, cr, plan, store, ch);
        AloneRunsPlan(bp, i, cr, rest, store, ch);
      case Ensure(_, m, policy) =>
        EnsureAlone(bp, i, w, store, ch);
        if policy.DeploymentPolicy? {
          DeploymentAlone(bp, i, w, store, ch);
        } else {
          EnsureTyped(m, store);
          AloneRunsPlan(bp, i, cr, rest, next, ch);
        }
      case RetireLegacy(_) =>
        RetireAlone(bp, i, w, store, ch);
        AloneRunsPlan(bp, i, cr, rest, next, ch);
      case _ =>
  }
}
