// Instances do not disturb one another, whatever the interleaving, the failures, the lag
// of reads and the crashes.
module Isolation {
  import opened Text
  import opened Api
  import opened Objects
  import opened Cluster
  import opened Protocol

  // ---- What is asked of names ----------------------------------------------

  // Objects of an instance that are its own. The leader-election Role is shared within a
  // namespace, and a legacy binding name may belong to anyone.
  predicate Own(slot: Slot) {
    !slot.LegacyBinding? && !slot.LeaderRole?
  }

  predicate SlotKind(slot: Slot, kind: Kind) {
    match slot
    case Custom => kind == AuthorinoKind
    case AuthService | OidcService | MetricsService => kind == ServiceKind
    case Account => kind == ServiceAccountKind
    case ClusterBinding(_) | LegacyBinding(_) => kind == ClusterRoleBindingKind
    case ManagerBinding | LeaderBinding => kind == RoleBindingKind
    case LeaderRole => kind == RoleKind
    case Application => kind == DeploymentKind
  }

  // Slots of which the operator submits a desired object.
  predicate Managed(slot: Slot) {
    !slot.Custom? && !slot.LegacyBinding?
  }

  ghost predicate KeysHaveKinds(bp: Blueprint, instances: set<Instance>) {
    && (forall i, slot | i in instances :: SlotKind(slot, bp.key(i, slot).kind))
    && (forall g :: bp.clusterRole(g).kind == ClusterRoleKind)
  }

  ghost predicate OwnKeysDiffer(bp: Blueprint, instances: set<Instance>) {
    forall i, j, s, t | i in instances && j in instances && Own(s) && Own(t) && bp.key(i, s) == bp.key(j, t) ::
      i == j && s == t
  }

  ghost predicate SubjectsDiffer(bp: Blueprint, instances: set<Instance>) {
    forall i, j | i in instances && j in instances && bp.subject(i) == bp.subject(j) :: i == j
  }

  ghost predicate ManifestsFit(bp: Blueprint, instances: set<Instance>) {
    && (forall i, o, slot | i in instances && Managed(slot) && slot != Application ::
        ManifestOk(bp, i, slot, bp.manifest(i, o, slot)))
    && (forall i, o, visit | i in instances && bp.application(i, o, visit).Some? ::
          ManifestOk(bp, i, Application, bp.application(i, o, visit).value))
  }

  // A blueprint fit for a set of instances: distinct own objects have distinct keys,
  // service accounts are told apart, and manifests are what they should be.
  ghost predicate Sound(bp: Blueprint, instances: set<Instance>) {
    && KeysHaveKinds(bp, instances)
    && OwnKeysDiffer(bp, instances)
    && SubjectsDiffer(bp, instances)
    && ManifestsFit(bp, instances)
  }

  // The instance's own legacy names do not spell its binding for that role.
  ghost predicate Apart(bp: Blueprint, i: Instance, g: Grant) {
    forall h :: bp.key(i, LegacyBinding(h)) != bp.key(i, ClusterBinding(g))
  }

  // The contents of an instance's leader-election binding.
  function LeaderBody(bp: Blueprint, i: Instance): Body {
    Binding(RoleRef(RoleKind, LeaderElectionRole), [bp.subject(i)])
  }

  predicate ManifestOk(bp: Blueprint, i: Instance, slot: Slot, m: Manifest) {
    && m.key == bp.key(i, slot)
    && !IsObjectTaggedToDelete(m)
    && Fits(m.key.kind, m.body)
    && (slot.ClusterBinding? ==> m.body == GrantBody(bp, i, slot.grant))
    && (slot.ManagerBinding? ==> m.body == GrantBody(bp, i, Manager))
    && (slot.LeaderRole? ==> m.body.Rules?)
    && (slot.LeaderBinding? ==> m.body == LeaderBody(bp, i))
    && (slot.Application? ==> m.body.Workload? && m.body.status == [])
  }

  // ---- What a worker may write ---------------------------------------------

  // A desired object, possibly tagged for deletion.
  predicate SubmittedOk(bp: Blueprint, i: Instance, slot: Slot, m: Manifest) {
    && Managed(slot)
    && m.key == bp.key(i, slot)
    && Fits(m.key.kind, m.body)
    && (slot.ClusterBinding? ==> m.body == GrantBody(bp, i, slot.grant))
    && (slot.ManagerBinding? ==> m.body == GrantBody(bp, i, Manager))
  }

  predicate PlanOk(bp: Blueprint, i: Instance, plan: Plan) {
    match plan
    case End => true
    case Then(op, rest) =>
      (op.Ensure? ==> SubmittedOk(bp, i, op.slot, op.manifest)) && PlanOk(bp, i, rest)
  }

  // The object stood under that key at some time.
  ghost predicate Seen(history: seq<Store>, key: Key, obj: Object) {
    exists k | 0 <= k < |history| :: key in history[k].objects && history[k].objects[key] == obj
  }

  // An object about to be retired was read and names this instance's service account.
  ghost predicate Validated(bp: Blueprint, history: seq<Store>, i: Instance, g: Grant, obj: Object) {
    && Seen(history, bp.key(i, LegacyBinding(g)), obj)
    && obj.body.Binding?
    && bp.subject(i) in obj.body.subjects
  }

  ghost predicate WorkerOk(bp: Blueprint, history: seq<Store>, i: Instance, w: Worker) {
    w.Running? ==>
      && PlanOk(bp, i, w.plan)
      && (w.phase.Creating? || w.phase.Applying? || w.phase.Deleting? ==> w.plan.Then? && w.plan.op.Ensure?)
      && (w.phase.Retiring? ==>
            && w.plan.Then? && w.plan.op.RetireLegacy?
            && Validated(bp, history, i, w.plan.op.grant, w.phase.legacy))
  }

  lemma SecretPlanOk(bp: Blueprint, i: Instance, spec: Spec, server: Server, rest: Plan)
    requires PlanOk(bp, i, rest)
    ensures PlanOk(bp, i, SecretPlan(spec, server, rest))
  {
  }

  lemma EnsurePlanOk(
      bp: Blueprint, instances: set<Instance>, i: Instance, o: Origin, slot: Slot, policy: Policy, rest: Plan)
    requires Sound(bp, instances) && i in instances
    requires Managed(slot) && slot != Application
    requires PlanOk(bp, i, rest)
    ensures PlanOk(bp, i, EnsurePlan(bp, i, o, slot, policy, rest))
  {
    assert ManifestOk(bp, i, slot, bp.manifest(i, o, slot));
  }

  lemma ManagerManifestOk(bp: Blueprint, instances: set<Instance>, i: Instance, o: Origin, slot: Slot)
    requires Sound(bp, instances) && i in instances
    requires Managed(slot) && slot != Application
    ensures SubmittedOk(bp, i, slot, ManagerManifest(bp, i, o, slot))
  {
    assert ManifestOk(bp, i, slot, bp.manifest(i, o, slot));
  }

  lemma CheckedPlanOk(bp: Blueprint, i: Instance, g: Grant, slot: Slot, m: Manifest, policy: Policy, rest: Plan)
    requires SubmittedOk(bp, i, slot, m) && PlanOk(bp, i, rest)
    ensures PlanOk(bp, i, Then(NeedClusterRole(g), Then(Ensure(slot, m, policy), rest)))
  {
  }

  lemma PermissionsPlanOk(bp: Blueprint, instances: set<Instance>, i: Instance, o: Origin, rest: Plan)
    requires Sound(bp, instances) && i in instances
    requires PlanOk(bp, i, rest)
    ensures PlanOk(bp, i, PermissionsPlan(bp, i, o, rest))
  {
    var legacy := LegacyPlan(rest);
    assert PlanOk(bp, i, legacy);
    var binding := EnsurePlan(bp, i, o, LeaderBinding, BindingPolicy, legacy);
    EnsurePlanOk(bp, instances, i, o, LeaderBinding, BindingPolicy, legacy);
    EnsurePlanOk(bp, instances, i, o, LeaderRole, RolePolicy, binding);
    var leader := LeaderPlan(bp, i, o, legacy);
    var slot := ClusterBinding(K8sAuth);
    assert ManifestOk(bp, i, slot, bp.manifest(i, o, slot));
    CheckedPlanOk(bp, i, K8sAuth, slot, bp.manifest(i, o, slot), BindingPolicy, leader);
    var auth := K8sAuthPlan(bp, i, o, leader);
    ManagerManifestOk(bp, instances, i, o, ManagerBinding);
    CheckedPlanOk(bp, i, Manager, ManagerBinding, ManagerManifest(bp, i, o, ManagerBinding), BindingPolicy, auth);
    var local := ManagerLocalPlan(bp, i, o, auth);
    slot := ClusterBinding(Manager);
    ManagerManifestOk(bp, instances, i, o, slot);
    CheckedPlanOk(bp, i, Manager, slot, ManagerManifest(bp, i, o, slot),
                  if o.spec.clusterWide then BindingPolicy else TolerantPolicy, local);
  }

  lemma ServicesPlanOk(bp: Blueprint, instances: set<Instance>, i: Instance, o: Origin, rest: Plan)
    requires Sound(bp, instances) && i in instances
    requires PlanOk(bp, i, rest)
    ensures PlanOk(bp, i, ServicesPlan(bp, i, o, rest))
  {
    var metrics := EnsurePlan(bp, i, o, MetricsService, ServicePolicy, rest);
    EnsurePlanOk(bp, instances, i, o, MetricsService, ServicePolicy, rest);
    EnsurePlanOk(bp, instances, i, o, OidcService, ServicePolicy, metrics);
    EnsurePlanOk(bp, instances, i, o, AuthService, ServicePolicy,
      EnsurePlan(bp, i, o, OidcService, ServicePolicy, metrics));
  }

  lemma InstallPlanOk(bp: Blueprint, instances: set<Instance>, i: Instance, o: Origin, ch: Choice)
    requires Sound(bp, instances) && i in instances
    ensures PlanOk(bp, i, InstallPlan(bp, i, o, ch))
  {
    var deployment := DeploymentPlan(bp, i, o, ch.visit);
    assert PlanOk(bp, i, deployment) by {
      if bp.application(i, o, ch.visit).Some? {
        assert ManifestOk(bp, i, Application, bp.application(i, o, ch.visit).value);
      }
    }
    var permissions := PermissionsPlan(bp, i, o, deployment);
    PermissionsPlanOk(bp, instances, i, o, deployment);
    var account := AccountPlan(bp, i, o, permissions);
    EnsurePlanOk(bp, instances, i, o, Account, AccountPolicy, permissions);
    var services := ServicesPlan(bp, i, o, account);
    ServicesPlanOk(bp, instances, i, o, account);
    var second := FirstServer(!ch.listenerFirst);
    SecretPlanOk(bp, i, o.spec, second, services);
    SecretPlanOk(bp, i, o.spec, FirstServer(ch.listenerFirst), SecretPlan(o.spec, second, services));
  }

  lemma EnterOk(bp: Blueprint, history: seq<Store>, i: Instance, cr: Object, plan: Plan, now: int)
    requires PlanOk(bp, i, plan)
    ensures WorkerOk(bp, history, i, Enter(cr, plan, now))
  {
  }

  lemma ShortPlansOk(bp: Blueprint, i: Instance)
    ensures PlanOk(bp, i, CleanupPlan()) && PlanOk(bp, i, FinalizerPlan())
  {
    var two := Then(RemoveBinding(K8sAuth), Then(PutFinalizer(false), End));
    assert PlanOk(bp, i, two);
  }

  lemma DispatchOk(bp: Blueprint, instances: set<Instance>, history: seq<Store>, i: Instance, cr: Object, ch: Choice)
    requires Sound(bp, instances) && i in instances
    ensures WorkerOk(bp, history, i, Dispatch(bp, i, cr, ch))
  {
    ShortPlansOk(bp, i);
    EnterOk(bp, history, i, cr, CleanupPlan(), ch.now);
    EnterOk(bp, history, i, cr, FinalizerPlan(), ch.now);
    if cr.body.Resource? {
      var o := OriginOf(cr);
      InstallPlanOk(bp, instances, i, o, ch);
      EnterOk(bp, history, i, cr, InstallPlan(bp, i, o, ch), ch.now);
    }
  }

  lemma RunningAdvanceOk(bp: Blueprint, history: seq<Store>, i: Instance, w: Worker, resp: Response, ch: Choice)
    requires WorkerOk(bp, history, i, w) && w.Running? && !w.phase.Reporting? && w.plan.Then?
    requires resp.Found? ==> Seen(history, Target(NextRequest(bp, i, w)), resp.obj)
    ensures WorkerOk(bp, history, i, Advance(bp, i, w, resp, ch))
  {
    EnterOk(bp, history, i, w.cr, w.plan.rest, ch.now);
  }

  lemma AdvanceOk(
      bp: Blueprint, instances: set<Instance>, history: seq<Store>, i: Instance, w: Worker, resp: Response, ch: Choice)
    requires Sound(bp, instances) && i in instances
    requires WorkerOk(bp, history, i, w)
    requires resp.Found? ==> Seen(history, Target(NextRequest(bp, i, w)), resp.obj)
    ensures WorkerOk(bp, history, i, Advance(bp, i, w, resp, ch))
  {
    if w.Fetching? && resp.Found? {
      DispatchOk(bp, instances, history, i, resp.obj, ch);
    } else if w.Running? && !w.phase.Reporting? && w.plan.Then? {
      RunningAdvanceOk(bp, history, i, w, resp, ch);
    }
  }

  // ---- Where a call goes ---------------------------------------------------

  // The slot of the object a worker's next call is about, if it is one of its own.
  function AboutSlot(w: Worker): Option<Slot> {
    if !w.Running? || w.phase.Reporting? || w.plan.End? then Some(Custom)
    else match w.plan.op
      case RemoveBinding(g) => Some(ClusterBinding(g))
      case PutFinalizer(_) | SecretUnnamed(_) | Panic => Some(Custom)
      case NeedSecret(_, _) | NeedClusterRole(_) => None
      case Ensure(slot, _, _) => Some(slot)
      case RetireLegacy(g) => Some(LegacyBinding(g))
  }

  lemma CallGoes(bp: Blueprint, instances: set<Instance>, history: seq<Store>, i: Instance, w: Worker)
    requires Sound(bp, instances) && i in instances
    requires WorkerOk(bp, history, i, w)
    ensures var r := NextRequest(bp, i, w);
      match AboutSlot(w)
      case None => r.Get?
      case Some(slot) =>
        && Target(r) == bp.key(i, slot)
        && (r.Create? ==> SubmittedOk(bp, i, slot, r.manifest))
        && (r.Apply? ==> SubmittedOk(bp, i, slot, r.manifest))
        && (r.Update? || r.PatchStatus? ==> slot.Custom?)
        && (slot.LegacyBinding? && !r.Get? ==>
              && w.phase.Retiring?
              && Validated(bp, history, i, slot.grant, w.phase.legacy)
              && r == Delete(bp.key(i, slot), Some(Precondition(w.phase.legacy.uid, w.phase.legacy.version))))
  {
  }

  // ---- Invariant -----------------------------------------------------------

  ghost predicate HistoryOk(history: seq<Store>) {
    && |history| > 0
    && (forall a | 0 <= a < |history| :: WellFormed(history[a]))
    && (forall a, b | 0 <= a <= b < |history| :: Follows(history[a], history[b]))
  }

  // Every cluster-wide binding that stands grants its role to its own service account.
  ghost predicate Isolated(bp: Blueprint, instances: set<Instance>, store: Store) {
    forall i, g | i in instances && bp.key(i, ClusterBinding(g)) in store.objects ::
      store.objects[bp.key(i, ClusterBinding(g))].body == GrantBody(bp, i, g)
  }

  ghost predicate WorkersOk(bp: Blueprint, s: System) {
    forall i | i in s.workers :: WorkerOk(bp, s.history, i, s.workers[i])
  }

  ghost predicate Inv(bp: Blueprint, s: System) {
    && Sound(bp, s.workers.Keys)
    && s.floor.Keys == s.workers.Keys
    && HistoryOk(s.history)
    && WorkersOk(bp, s)
    && Isolated(bp, s.workers.Keys, s.Now())
  }

  // Where runs begin: idle workers, and nothing foreign under the names of the cluster-wide
  // bindings. Anything else may already be there, legacy bindings in particular.
  ghost predicate Initial(bp: Blueprint, s: System) {
    && Sound(bp, s.workers.Keys)
    && s.floor.Keys == s.workers.Keys
    && |s.history| == 1
    && WellFormed(s.history[0])
    && (forall i | i in s.workers :: s.workers[i].Idle? && s.floor[i] == 0)
    && Isolated(bp, s.workers.Keys, s.history[0])
  }

  lemma InitialInv(bp: Blueprint, s: System)
    requires Initial(bp, s)
    ensures Inv(bp, s)
  {
  }

  lemma HistoryGrows(history: seq<Store>, next: Store)
    requires HistoryOk(history)
    requires WellFormed(next) && Follows(history[|history| - 1], next)
    ensures HistoryOk(history + [next])
  {
    var longer := history + [next];
    forall a, b | 0 <= a <= b < |longer|
      ensures Follows(longer[a], longer[b])
    {
      if b == |history| && a < b {
        FollowsTransitive(history[a], history[b - 1], next);
      }
    }
  }

  lemma SeenGrows(history: seq<Store>, next: Store, key: Key, obj: Object)
    requires Seen(history, key, obj)
    ensures Seen(history + [next], key, obj)
  {
    var k :| 0 <= k < |history| && key in history[k].objects && history[k].objects[key] == obj;
    assert (history + [next])[k] == history[k];
  }

  lemma WorkerOkGrows(bp: Blueprint, history: seq<Store>, next: Store, i: Instance, w: Worker)
    requires WorkerOk(bp, history, i, w)
    ensures WorkerOk(bp, history + [next], i, w)
  {
    if w.Running? && w.phase.Retiring? {
      SeenGrows(history, next, bp.key(i, LegacyBinding(w.plan.op.grant)), w.phase.legacy);
    }
  }

  // An object that was seen and still has its version is the one that stands now.
  lemma SeenIsCurrent(history: seq<Store>, key: Key, obj: Object)
    requires HistoryOk(history) && Seen(history, key, obj)
    requires var now := history[|history| - 1];
      key in now.objects && now.objects[key].version == obj.version
    ensures history[|history| - 1].objects[key] == obj
  {
    var k :| 0 <= k < |history| && key in history[k].objects && history[k].objects[key] == obj;
    SameVersionSameObject(history[k], history[k], history[|history| - 1], key);
  }

  // The effect of one worker's call on the store.
  ghost function Effect(bp: Blueprint, s: System, a: Action): Store
    requires |s.history| > 0 && Enabled(bp, s, a) && a.Step?
  {
    Answer(s, NextRequest(bp, a.i, s.workers[a.i]), a.outcome, a.at).0
  }

  lemma EffectFollows(bp: Blueprint, s: System, a: Action)
    requires Inv(bp, s) && a.Step? && Enabled(bp, s, a)
    ensures WellFormed(Effect(bp, s, a)) && Follows(s.Now(), Effect(bp, s, a))
  {
    CallFollows(s.Now(), NextRequest(bp, a.i, s.workers[a.i]), a.outcome);
  }

  // ---- Compare-and-delete --------------------------------------------------

  // Whatever happened between reading a legacy binding and deleting it: the delete removes
  // something if and only if it is served and what stands there is the very object that was
  // read, which lists the instance's service account at that moment.
  lemma {:induction false} LegacyDeleteIsExact(bp: Blueprint, s: System, a: Action)
    requires Inv(bp, s) && a.Step? && Enabled(bp, s, a)
    requires s.workers[a.i].Running? && s.workers[a.i].phase.Retiring?
    ensures var w := s.workers[a.i];
      && w.plan.Then? && w.plan.op.RetireLegacy?
      && var key, now, after := bp.key(a.i, LegacyBinding(w.plan.op.grant)), s.Now().objects, Effect(bp, s, a).objects;
      && (key in now && key !in after <==> !a.outcome.Refused? && key in now && now[key] == w.phase.legacy)
      && (key in now && key !in after ==> now[key].body.Binding? && bp.subject(a.i) in now[key].body.subjects)
  {
    var w := s.workers[a.i];
    var key := bp.key(a.i, LegacyBinding(w.plan.op.grant));
    if key in s.Now().objects && s.Now().objects[key].version == w.phase.legacy.version {
      SeenIsCurrent(s.history, key, w.phase.legacy);
    }
  }

  // ---- One instance leaves the others alone --------------------------------

  // A validated legacy object is never the present version of another instance's binding.
  lemma AnothersBindingDiffers(bp: Blueprint, s: System, i: Instance, g: Grant, legacy: Object, j: Instance, h: Grant)
    requires Inv(bp, s) && i in s.workers && j in s.workers && i != j
    requires Validated(bp, s.history, i, g, legacy)
    requires bp.key(i, LegacyBinding(g)) == bp.key(j, ClusterBinding(h))
    requires bp.key(j, ClusterBinding(h)) in s.Now().objects
    ensures s.Now().objects[bp.key(j, ClusterBinding(h))].version != legacy.version
  {
    var key := bp.key(j, ClusterBinding(h));
    if s.Now().objects[key].version == legacy.version {
      SeenIsCurrent(s.history, key, legacy);
      assert false;
    }
  }

  // A call of one instance's worker leaves every own object of every other instance as it
  // is, even when a legacy name spells another instance's binding.
  lemma {:induction false} OthersUntouched(bp: Blueprint, s: System, a: Action, j: Instance, slot: Slot)
    requires Inv(bp, s) && a.Step? && Enabled(bp, s, a)
    requires j in s.workers && j != a.i && Own(slot)
    ensures var key, now, after := bp.key(j, slot), s.Now().objects, Effect(bp, s, a).objects;
      && (key in after <==> key in now)
      && (key in now ==> after[key] == now[key])
  {
    var w := s.workers[a.i];
    var key := bp.key(j, slot);
    var r := NextRequest(bp, a.i, w);
    CallGoes(bp, s.workers.Keys, s.history, a.i, w);
    if Target(r) != key {
      OnlyTargetChanges(s.Now(), r, a.outcome, key);
    } else if !r.Get? && key in s.Now().objects {
      var mine := AboutSlot(w).value;
      assert SlotKind(mine, key.kind) && SlotKind(slot, key.kind);
      assert mine.LegacyBinding? && slot.ClusterBinding?;
      AnothersBindingDiffers(bp, s, a.i, mine.grant, w.phase.legacy, j, slot.grant);
    }
  }

  // ---- The invariant is kept -----------------------------------------------

  lemma CallKeepsBinding(bp: Blueprint, store: Store, r: Request, outcome: Outcome, key: Key, body: Body)
    requires key == Target(r) && body.Binding?
    requires key in store.objects ==> store.objects[key].body == body
    requires r.Get? || r.Delete? || (r.Create? && r.manifest.body == body) || (r.Apply? && r.manifest.body == body)
    ensures var after := Call(store, r, outcome).0.objects;
      key in after ==> after[key].body == body
  {
  }

  lemma StepKeepsIsolation(bp: Blueprint, s: System, a: Action)
    requires Inv(bp, s) && a.Step? && Enabled(bp, s, a)
    ensures Isolated(bp, s.workers.Keys, Effect(bp, s, a))
  {
    var w := s.workers[a.i];
    var r := NextRequest(bp, a.i, w);
    CallGoes(bp, s.workers.Keys, s.history, a.i, w);
    forall j, g | j in s.workers && bp.key(j, ClusterBinding(g)) in Effect(bp, s, a).objects
      ensures Effect(bp, s, a).objects[bp.key(j, ClusterBinding(g))].body == GrantBody(bp, j, g)
    {
      var key := bp.key(j, ClusterBinding(g));
      if Target(r) != key {
        OnlyTargetChanges(s.Now(), r, a.outcome, key);
      } else if !r.Get? {
        var mine := AboutSlot(w).value;
        assert SlotKind(mine, key.kind);
        CallKeepsBinding(bp, s.Now(), r, a.outcome, key, GrantBody(bp, j, g));
      }
    }
  }

  // A served read answers with something that stood under the key at some time.
  lemma AnswerSeen(s: System, r: Request, outcome: Outcome, at: nat)
    requires at < |s.history|
    requires Answer(s, r, outcome, at).1.Found?
    ensures Seen(s.history, Target(r), Answer(s, r, outcome, at).1.obj)
  {
    assert r.Get?;
    assert Target(r) in s.history[at].objects;
  }

  // The workers that stand by.
  lemma WorkersOkGrow(bp: Blueprint, s: System, next: Store)
    requires WorkersOk(bp, s)
    ensures forall j | j in s.workers :: WorkerOk(bp, s.history + [next], j, s.workers[j])
  {
    forall j | j in s.workers
      ensures WorkerOk(bp, s.history + [next], j, s.workers[j])
    {
      WorkerOkGrows(bp, s.history, next, j, s.workers[j]);
    }
  }

  lemma CallerOk(bp: Blueprint, s: System, a: Action)
    requires Inv(bp, s) && a.Step? && Enabled(bp, s, a)
    ensures WorkerOk(bp, Do(bp, s, a).history, a.i, Do(bp, s, a).workers[a.i])
  {
    var w := s.workers[a.i];
    var r := NextRequest(bp, a.i, w);
    var (store, resp) := Answer(s, r, a.outcome, a.at);
    WorkerOkGrows(bp, s.history, store, a.i, w);
    if resp.Found? {
      AnswerSeen(s, r, a.outcome, a.at);
      SeenGrows(s.history, store, Target(r), resp.obj);
    }
    AdvanceOk(bp, s.workers.Keys, s.history + [store], a.i, w, resp, a.ch);
  }

  lemma CallKeepsInv(bp: Blueprint, s: System, a: Action)
    requires Inv(bp, s) && a.Step? && Enabled(bp, s, a)
    ensures Inv(bp, Do(bp, s, a))
  {
    var store := Effect(bp, s, a);
    EffectFollows(bp, s, a);
    HistoryGrows(s.history, store);
    StepKeepsIsolation(bp, s, a);
    WorkersOkGrow(bp, s, store);
    CallerOk(bp, s, a);
    assert Do(bp, s, a).history == s.history + [store];
  }

  lemma UserKeepsInv(bp: Blueprint, s: System, a: Action)
    requires Inv(bp, s) && (a.UserWrite? || a.UserDelete?) && Enabled(bp, s, a)
    ensures Inv(bp, Do(bp, s, a))
  {
    var store := Do(bp, s, a).Now();
    assert WellFormed(store) && Follows(s.Now(), store);
    HistoryGrows(s.history, store);
    WorkersOkGrow(bp, s, store);
    forall i, g | i in s.workers && bp.key(i, ClusterBinding(g)) in store.objects
      ensures store.objects[bp.key(i, ClusterBinding(g))].body == GrantBody(bp, i, g)
    {
      var key := bp.key(i, ClusterBinding(g));
      if a.UserWrite? && a.key == key {
        assert !Forges(bp, s, key, a.body);
      }
    }
  }

  lemma StepKeepsInv(bp: Blueprint, s: System, a: Action)
    requires Inv(bp, s) && Enabled(bp, s, a)
    ensures Inv(bp, Do(bp, s, a))
  {
    match a
    case Start(_) =>
    case Crash(_) =>
    case Step(_, _, _, _) => CallKeepsInv(bp, s, a);
    case UserWrite(_, _, _) => UserKeepsInv(bp, s, a);
    case UserDelete(_) => UserKeepsInv(bp, s, a);
  }

  lemma {:induction false} RunKeepsInv(bp: Blueprint, s: System, run: seq<Action>)
    requires Inv(bp, s) && Legal(bp, s, run)
    ensures Inv(bp, After(bp, s, run))
    ensures After(bp, s, run).workers.Keys == s.workers.Keys
    decreases |run|
  {
    if run != [] {
      StepKeepsInv(bp, s, run[0]);
      RunKeepsInv(bp, Do(bp, s, run[0]), run[1..]);
    }
  }

  // Isolation over every run: at every moment, each cluster-wide binding under an
  // instance's name grants that instance's role to that instance's service account and to
  // nobody else, and the next call of any other instance leaves all its own objects alone.
  lemma {:induction false} IsolationOverRuns(bp: Blueprint, s: System, run: seq<Action>, i: Instance)
    requires Initial(bp, s) && Legal(bp, s, run)
    requires i in s.workers
    ensures var r := After(bp, s, run);
      && (forall g :: bp.key(i, ClusterBinding(g)) in r.Now().objects ==>
            r.Now().objects[bp.key(i, ClusterBinding(g))].body == GrantBody(bp, i, g))
      && (forall a: Action, slot | a.Step? && Enabled(bp, r, a) && a.i != i && Own(slot) ::
            && (bp.key(i, slot) in Effect(bp, r, a).objects <==> bp.key(i, slot) in r.Now().objects)
            && (bp.key(i, slot) in r.Now().objects ==>
                  Effect(bp, r, a).objects[bp.key(i, slot)] == r.Now().objects[bp.key(i, slot)]))
  {
    InitialInv(bp, s);
    RunKeepsInv(bp, s, run);
    var r := After(bp, s, run);
    forall a: Action, slot | a.Step? && Enabled(bp, r, a) && a.i != i && Own(slot)
      ensures bp.key(i, slot) in Effect(bp, r, a).objects <==> bp.key(i, slot) in r.Now().objects
      ensures bp.key(i, slot) in r.Now().objects ==>
        Effect(bp, r, a).objects[bp.key(i, slot)] == r.Now().objects[bp.key(i, slot)]
    {
      OthersUntouched(bp, r, a, i, slot);
    }
  }
}
