// Going from namespaced to cluster-wide scope never leaves an instance without its manager
// binding.
module ScopeSwitch {
  import opened Text
  import opened Api
  import opened Objects
  import opened Cluster
  import opened Protocol
  import opened Isolation

  function WideKey(bp: Blueprint, i: Instance): Key {
    bp.key(i, ClusterBinding(Manager))
  }

  function LocalKey(bp: Blueprint, i: Instance): Key {
    bp.key(i, ManagerBinding)
  }

  // The binding under that key grants the manager role to the instance's service account.
  predicate Grants(bp: Blueprint, i: Instance, store: Store, key: Key) {
    key in store.objects && store.objects[key].body == GrantBody(bp, i, Manager)
  }

  predicate Bound(bp: Blueprint, i: Instance, store: Store) {
    Grants(bp, i, store, WideKey(bp, i)) || Grants(bp, i, store, LocalKey(bp, i))
  }

  // ---- Plans ---------------------------------------------------------------

  // A plan that never takes the namespaced binding away.
  predicate KeepsLocal(plan: Plan) {
    match plan
    case End => true
    case Then(op, rest) =>
      && !op.RemoveBinding?
      && (op.Ensure? && op.slot.ManagerBinding? ==> !IsObjectTaggedToDelete(op.manifest))
      && KeepsLocal(rest)
  }

  // A plan that never takes the cluster-wide binding away, and the namespaced one only
  // once the other is there (`wide`).
  predicate WidensFirst(plan: Plan, wide: bool) {
    match plan
    case End => true
    case Then(op, rest) =>
      && !op.RemoveBinding?
      && (op.Ensure? ==> !op.policy.TolerantPolicy?)
      && (op.Ensure? && op.slot.ManagerBinding? && IsObjectTaggedToDelete(op.manifest) ==> wide)
      && if op.Ensure? && op.slot == ClusterBinding(Manager)
         then !IsObjectTaggedToDelete(op.manifest) && op.policy.BindingPolicy? && WidensFirst(rest, true)
         else WidensFirst(rest, wide)
  }

  lemma {:induction false} WideIsEnough(plan: Plan)
    requires WidensFirst(plan, false)
    ensures WidensFirst(plan, true)
  {
    if plan.Then? && !(plan.op.Ensure? && plan.op.slot == ClusterBinding(Manager)) {
      WideIsEnough(plan.rest);
    }
  }

  lemma NarrowPermissions(bp: Blueprint, instances: set<Instance>, i: Instance, o: Origin, rest: Plan)
    requires Sound(bp, instances) && i in instances && !o.spec.clusterWide
    requires KeepsLocal(rest)
    ensures KeepsLocal(PermissionsPlan(bp, i, o, rest))
  {
    var legacy := LegacyPlan(rest);
    assert KeepsLocal(legacy);
    var leader := LeaderPlan(bp, i, o, legacy);
    assert KeepsLocal(leader);
    var auth := K8sAuthPlan(bp, i, o, leader);
    assert KeepsLocal(auth);
    assert ManifestOk(bp, i, ManagerBinding, bp.manifest(i, o, ManagerBinding));
    var local := ManagerLocalPlan(bp, i, o, auth);
    assert KeepsLocal(local);
  }

  lemma WidePermissions(bp: Blueprint, instances: set<Instance>, i: Instance, o: Origin, rest: Plan)
    requires Sound(bp, instances) && i in instances && o.spec.clusterWide
    requires WidensFirst(rest, true)
    ensures WidensFirst(PermissionsPlan(bp, i, o, rest), false)
  {
    var legacy := LegacyPlan(rest);
    assert WidensFirst(legacy, true);
    var leader := LeaderPlan(bp, i, o, legacy);
    assert WidensFirst(leader, true);
    var auth := K8sAuthPlan(bp, i, o, leader);
    assert WidensFirst(auth, true);
    var local := ManagerLocalPlan(bp, i, o, auth);
    assert WidensFirst(local, true);
    assert ManifestOk(bp, i, ClusterBinding(Manager), bp.manifest(i, o, ClusterBinding(Manager)));
  }

  lemma NarrowServices(bp: Blueprint, i: Instance, o: Origin, rest: Plan)
    requires KeepsLocal(rest)
    ensures KeepsLocal(ServicesPlan(bp, i, o, AccountPlan(bp, i, o, rest)))
  {
    var account := AccountPlan(bp, i, o, rest);
    assert KeepsLocal(account);
    var metrics := EnsurePlan(bp, i, o, MetricsService, ServicePolicy, account);
    assert KeepsLocal(metrics);
  }

  lemma WideServices(bp: Blueprint, i: Instance, o: Origin, rest: Plan)
    requires WidensFirst(rest, false)
    ensures WidensFirst(ServicesPlan(bp, i, o, AccountPlan(bp, i, o, rest)), false)
  {
    var account := AccountPlan(bp, i, o, rest);
    assert WidensFirst(account, false);
    var metrics := EnsurePlan(bp, i, o, MetricsService, ServicePolicy, account);
    assert WidensFirst(metrics, false);
  }

  lemma NarrowPreflight(spec: Spec, listenerFirst: bool, rest: Plan)
    requires KeepsLocal(rest)
    ensures KeepsLocal(PreflightPlan(spec, listenerFirst, rest))
  {
  }

  lemma WidePreflight(spec: Spec, listenerFirst: bool, rest: Plan)
    requires WidensFirst(rest, false)
    ensures WidensFirst(PreflightPlan(spec, listenerFirst, rest), false)
  {
  }

  lemma DeploymentEither(bp: Blueprint, i: Instance, o: Origin, visit: seq<string>)
    ensures KeepsLocal(DeploymentPlan(bp, i, o, visit)) && WidensFirst(DeploymentPlan(bp, i, o, visit), true)
  {
  }

  lemma NarrowInstallPlan(bp: Blueprint, instances: set<Instance>, i: Instance, o: Origin, ch: Choice)
    requires Sound(bp, instances) && i in instances && !o.spec.clusterWide
    ensures KeepsLocal(InstallPlan(bp, i, o, ch))
  {
    var deployment := DeploymentPlan(bp, i, o, ch.visit);
    DeploymentEither(bp, i, o, ch.visit);
    NarrowPermissions(bp, instances, i, o, deployment);
    var permissions := PermissionsPlan(bp, i, o, deployment);
    NarrowServices(bp, i, o, permissions);
    NarrowPreflight(o.spec, ch.listenerFirst, ServicesPlan(bp, i, o, AccountPlan(bp, i, o, permissions)));
  }

  lemma WideInstallPlan(bp: Blueprint, instances: set<Instance>, i: Instance, o: Origin, ch: Choice)
    requires Sound(bp, instances) && i in instances && o.spec.clusterWide
    ensures WidensFirst(InstallPlan(bp, i, o, ch), false)
  {
    var deployment := DeploymentPlan(bp, i, o, ch.visit);
    DeploymentEither(bp, i, o, ch.visit);
    WidePermissions(bp, instances, i, o, deployment);
    var permissions := PermissionsPlan(bp, i, o, deployment);
    WideServices(bp, i, o, permissions);
    WidePreflight(o.spec, ch.listenerFirst, ServicesPlan(bp, i, o, AccountPlan(bp, i, o, permissions)));
  }

  // ---- Runs during which the scope widens ----------------------------------

  ghost function Fetches(bp: Blueprint, s: System, a: Action, i: Instance): Option<Object>
    requires |s.history| > 0 && Enabled(bp, s, a)
  {
    if a.Step? && a.i == i && s.workers[i].Fetching? then
      match Answer(s, Get(bp.key(i, Custom)), a.outcome, a.at).1
      case Found(cr) => Some(cr)
      case _ => None
    else None
  }

  // Users leave the two manager bindings alone and do not delete the resource; the resource
  // may be seen namespaced for a while, but not again once it was seen cluster-wide.
  ghost predicate Widens(bp: Blueprint, s: System, a: Action, i: Instance, seen: bool)
    requires |s.history| > 0 && Enabled(bp, s, a)
  {
    && (a.UserWrite? || a.UserDelete? ==> a.key != WideKey(bp, i) && a.key != LocalKey(bp, i))
    && match Fetches(bp, s, a, i)
       case None => true
       case Some(cr) => cr.body.Resource? && !cr.meta.deleting && (seen ==> cr.body.spec.clusterWide)
  }

  ghost predicate SeenAfter(bp: Blueprint, s: System, a: Action, i: Instance, seen: bool)
    requires |s.history| > 0 && Enabled(bp, s, a) && Widens(bp, s, a, i, seen)
  {
    seen || (Fetches(bp, s, a, i).Some? && Fetches(bp, s, a, i).value.body.spec.clusterWide)
  }

  ghost predicate Widening(bp: Blueprint, s: System, run: seq<Action>, i: Instance, seen: bool)
    requires |s.history| > 0 && Legal(bp, s, run)
    decreases |run|
  {
    run == [] ||
      (Widens(bp, s, run[0], i, seen)
       && Widening(bp, Do(bp, s, run[0]), run[1..], i, SeenAfter(bp, s, run[0], i, seen)))
  }

  // ---- Invariant -----------------------------------------------------------

  ghost predicate Covered(bp: Blueprint, i: Instance, now: Store, w: Worker, seen: bool) {
    if !seen then
      && Grants(bp, i, now, LocalKey(bp, i))
      && (w.Running? ==>
            && KeepsLocal(w.plan)
            && (w.phase.Deleting? ==>
                  w.plan.Then? && w.plan.op.Ensure? && IsObjectTaggedToDelete(w.plan.op.manifest)))
    else
      && Bound(bp, i, now)
      && (w.Running? ==>
            && WidensFirst(w.plan, Grants(bp, i, now, WideKey(bp, i)))
            && (w.phase.Reporting? ==> !w.phase.next.Continue?)
            && (w.phase.Deleting? ==> w.plan.Then? && w.plan.op.Ensure? && IsObjectTaggedToDelete(w.plan.op.manifest)))
  }

  // What one call of its worker does to the two manager bindings.
  lemma WideEffect(bp: Blueprint, s: System, a: Action)
    requires Inv(bp, s) && a.Step? && Enabled(bp, s, a) && Apart(bp, a.i, Manager)
    requires var w := s.workers[a.i];
      w.Running? ==> (w.plan.Then? ==> !w.plan.op.RemoveBinding?)
    requires var w := s.workers[a.i];
      w.Running? && w.phase.Deleting? ==> w.plan.Then? && w.plan.op.Ensure? && w.plan.op.slot != ClusterBinding(Manager)
    ensures Grants(bp, a.i, s.Now(), WideKey(bp, a.i)) ==> Grants(bp, a.i, Effect(bp, s, a), WideKey(bp, a.i))
  {
    var w := s.workers[a.i];
    var key := WideKey(bp, a.i);
    var r := NextRequest(bp, a.i, w);
    CallGoes(bp, s.workers.Keys, s.history, a.i, w);
    StepKeepsIsolation(bp, s, a);
    if Target(r) != key {
      OnlyTargetChanges(s.Now(), r, a.outcome, key);
    } else if !r.Get? {
      var mine := AboutSlot(w).value;
      assert SlotKind(mine, key.kind);
      assert mine == ClusterBinding(Manager);
    }
  }

  // A binding written with its own contents, or not written, stands as it did.
  lemma RewrittenStands(store: Store, r: Request, outcome: Outcome, key: Key, body: Body)
    requires key == Target(r) && body.Binding? && key in store.objects && store.objects[key].body == body
    requires r.Get? || (r.Create? && r.manifest.body == body) || (r.Apply? && r.manifest.body == body)
    ensures var after := Call(store, r, outcome).0.objects;
      key in after && after[key].body == body
  {
  }

  // What the worker may ask of its namespaced binding, unless it is deleting it.
  lemma LocalRequest(bp: Blueprint, s: System, a: Action)
    requires Inv(bp, s) && a.Step? && Enabled(bp, s, a)
    requires var w := s.workers[a.i];
      w.Running? && w.phase.Deleting? ==> w.plan.Then? && w.plan.op.Ensure? && w.plan.op.slot != ManagerBinding
    ensures var r := NextRequest(bp, a.i, s.workers[a.i]);
      var body := GrantBody(bp, a.i, Manager);
      Target(r) == LocalKey(bp, a.i) ==>
        r.Get? || (r.Create? && r.manifest.body == body) || (r.Apply? && r.manifest.body == body)
  {
    var w := s.workers[a.i];
    var r := NextRequest(bp, a.i, w);
    CallGoes(bp, s.workers.Keys, s.history, a.i, w);
    if Target(r) == LocalKey(bp, a.i) && !r.Get? {
      var mine := AboutSlot(w).value;
      assert SlotKind(mine, LocalKey(bp, a.i).kind);
      assert mine == ManagerBinding;
    }
  }

  lemma LocalEffect(bp: Blueprint, s: System, a: Action)
    requires Inv(bp, s) && a.Step? && Enabled(bp, s, a)
    requires var w := s.workers[a.i];
      w.Running? && w.phase.Deleting? ==> w.plan.Then? && w.plan.op.Ensure? && w.plan.op.slot != ManagerBinding
    ensures Grants(bp, a.i, s.Now(), LocalKey(bp, a.i)) ==> Grants(bp, a.i, Effect(bp, s, a), LocalKey(bp, a.i))
  {
    var key, r := LocalKey(bp, a.i), NextRequest(bp, a.i, s.workers[a.i]);
    LocalRequest(bp, s, a);
    assert !r.Get? ==> Effect(bp, s, a) == Call(s.Now(), r, a.outcome).0;
    if Target(r) != key {
      OnlyTargetChanges(s.Now(), r, a.outcome, key);
    } else if Grants(bp, a.i, s.Now(), key) {
      RewrittenStands(s.Now(), r, a.outcome, key, GrantBody(bp, a.i, Manager));
    }
  }

  // An untagged desired object that was ensured without error stands as desired.
  lemma EnsuredStands(bp: Blueprint, s: System, a: Action)
    requires Inv(bp, s) && a.Step? && Enabled(bp, s, a)
    requires EnsuresWide(s.workers[a.i])
    requires Answer(s, NextRequest(bp, a.i, s.workers[a.i]), a.outcome, a.at).1 == Done
    ensures Grants(bp, a.i, Effect(bp, s, a), WideKey(bp, a.i))
  {
    CallGoes(bp, s.workers.Keys, s.history, a.i, s.workers[a.i]);
  }

  // ---- One step ------------------------------------------------------------

  // Still in namespaced scope: the worker keeps to plans that keep the namespaced binding.
  lemma NarrowAdvances(bp: Blueprint, i: Instance, w: Worker, resp: Response, ch: Choice)
    requires w.Running? && KeepsLocal(w.plan)
    ensures var next := Advance(bp, i, w, resp, ch);
      next.Running? ==>
        && KeepsLocal(next.plan)
        && (next.phase.Deleting? ==>
            next.plan.Then? && next.plan.op.Ensure? && IsObjectTaggedToDelete(next.plan.op.manifest))
  {
  }

  // The call that creates or applies the cluster-wide binding.
  predicate EnsuresWide(w: Worker) {
    && w.Running? && w.plan.Then? && w.plan.op.Ensure? && w.plan.op.slot == ClusterBinding(Manager)
    && (w.phase.Creating? || w.phase.Applying?)
  }

  // In cluster-wide scope: the worker gets past the cluster-wide binding only by having it
  // ensured.
  lemma WideAdvances(bp: Blueprint, i: Instance, w: Worker, resp: Response, ch: Choice, had: bool, has: bool)
    requires w.Running? && WidensFirst(w.plan, had) && (had ==> has)
    requires w.phase.Reporting? ==> !w.phase.next.Continue?
    requires w.phase.Deleting? ==> w.plan.Then? && w.plan.op.Ensure? && IsObjectTaggedToDelete(w.plan.op.manifest)
    requires EnsuresWide(w) && resp == Done ==> has
    ensures var next := Advance(bp, i, w, resp, ch);
      next.Running? ==>
        && WidensFirst(next.plan, has)
        && (next.phase.Reporting? ==> !next.phase.next.Continue?)
        && (next.phase.Deleting? ==>
            next.plan.Then? && next.plan.op.Ensure? && IsObjectTaggedToDelete(next.plan.op.manifest))
  {
    if !had && has {
      WideIsEnough(w.plan);
      if w.plan.Then? && WidensFirst(w.plan.rest, false) {
        WideIsEnough(w.plan.rest);
      }
    }
  }

  lemma WideDeletes(w: Worker, wide: bool)
    requires w.Running? && WidensFirst(w.plan, wide)
    requires w.phase.Deleting? ==> w.plan.Then? && w.plan.op.Ensure? && IsObjectTaggedToDelete(w.plan.op.manifest)
    ensures w.phase.Deleting? ==> w.plan.op.slot != ClusterBinding(Manager)
    ensures w.phase.Deleting? && w.plan.op.slot == ManagerBinding ==> wide
    ensures w.plan.Then? ==> !w.plan.op.RemoveBinding?
  {
  }

  lemma NarrowRuns(bp: Blueprint, s: System, a: Action)
    requires Inv(bp, s) && a.Step? && Enabled(bp, s, a) && Apart(bp, a.i, Manager)
    requires s.workers[a.i].Running? && Covered(bp, a.i, s.Now(), s.workers[a.i], false)
    ensures Covered(bp, a.i, Do(bp, s, a).Now(), Do(bp, s, a).workers[a.i], false)
  {
    var w := s.workers[a.i];
    LocalEffect(bp, s, a);
    NarrowAdvances(bp, a.i, w, Answer(s, NextRequest(bp, a.i, w), a.outcome, a.at).1, a.ch);
  }

  lemma WideRuns(bp: Blueprint, s: System, a: Action)
    requires Inv(bp, s) && a.Step? && Enabled(bp, s, a) && Apart(bp, a.i, Manager)
    requires s.workers[a.i].Running? && Covered(bp, a.i, s.Now(), s.workers[a.i], true)
    ensures Covered(bp, a.i, Do(bp, s, a).Now(), Do(bp, s, a).workers[a.i], true)
  {
    var w := s.workers[a.i];
    var had := Grants(bp, a.i, s.Now(), WideKey(bp, a.i));
    var has := Grants(bp, a.i, Effect(bp, s, a), WideKey(bp, a.i));
    var resp := Answer(s, NextRequest(bp, a.i, w), a.outcome, a.at).1;
    WideDeletes(w, had);
    WideEffect(bp, s, a);
    if !(w.phase.Deleting? && w.plan.op.slot == ManagerBinding) {
      LocalEffect(bp, s, a);
    }
    if EnsuresWide(w) && resp == Done {
      EnsuredStands(bp, s, a);
    }
    WideAdvances(bp, a.i, w, resp, a.ch, had, has);
  }

  lemma DispatchCovers(
      bp: Blueprint, instances: set<Instance>, i: Instance, now: Store, cr: Object, ch: Choice, seen: bool)
    requires Sound(bp, instances) && i in instances && Covered(bp, i, now, Fetching, seen)
    requires cr.body.Resource? && !cr.meta.deleting && (seen ==> cr.body.spec.clusterWide)
    ensures Covered(bp, i, now, Dispatch(bp, i, cr, ch), seen || cr.body.spec.clusterWide)
  {
    var o := OriginOf(cr);
    var plan := InstallPlan(bp, i, o, ch);
    if o.spec.clusterWide {
      WideInstallPlan(bp, instances, i, o, ch);
      WideIsEnough(plan);
    } else {
      NarrowInstallPlan(bp, instances, i, o, ch);
    }
    EnterCovers(cr, plan, ch.now);
    EnterCovers(cr, FinalizerPlan(), ch.now);
  }

  lemma FetchCovers(bp: Blueprint, s: System, a: Action, seen: bool)
    requires Inv(bp, s) && a.Step? && Enabled(bp, s, a) && s.workers[a.i].Fetching?
    requires Covered(bp, a.i, s.Now(), s.workers[a.i], seen) && Widens(bp, s, a, a.i, seen)
    ensures Covered(bp, a.i, Do(bp, s, a).Now(), Do(bp, s, a).workers[a.i], SeenAfter(bp, s, a, a.i, seen))
  {
    match Answer(s, Get(bp.key(a.i, Custom)), a.outcome, a.at).1
    case Found(cr) =>
      DispatchCovers(bp, s.workers.Keys, a.i, s.Now(), cr, a.ch, seen);
    case _ =>
  }

  lemma EnterCovers(cr: Object, plan: Plan, now: int)
    ensures var w := Enter(cr, plan, now);
      w.Running? ==> w.plan == plan && !w.phase.Deleting? && (w.phase.Reporting? ==> w.phase.next.Abort?)
  {
  }

  lemma OthersKeepBindings(bp: Blueprint, s: System, a: Action, i: Instance)
    requires Inv(bp, s) && a.Step? && Enabled(bp, s, a) && i in s.workers && a.i != i
    ensures Grants(bp, i, Effect(bp, s, a), WideKey(bp, i)) == Grants(bp, i, s.Now(), WideKey(bp, i))
    ensures Grants(bp, i, Effect(bp, s, a), LocalKey(bp, i)) == Grants(bp, i, s.Now(), LocalKey(bp, i))
  {
    OthersUntouched(bp, s, a, i, ClusterBinding(Manager));
    OthersUntouched(bp, s, a, i, ManagerBinding);
  }

  lemma UsersKeepBindings(bp: Blueprint, s: System, a: Action, i: Instance)
    requires Inv(bp, s) && (a.UserWrite? || a.UserDelete?) && Enabled(bp, s, a)
    requires a.key != WideKey(bp, i) && a.key != LocalKey(bp, i)
    ensures Grants(bp, i, Do(bp, s, a).Now(), WideKey(bp, i)) == Grants(bp, i, s.Now(), WideKey(bp, i))
    ensures Grants(bp, i, Do(bp, s, a).Now(), LocalKey(bp, i)) == Grants(bp, i, s.Now(), LocalKey(bp, i))
  {
  }

  lemma BystandersKeepBindings(bp: Blueprint, s: System, a: Action, i: Instance, seen: bool)
    requires Inv(bp, s) && Enabled(bp, s, a) && i in s.workers
    requires a.Step? ==> a.i != i
    requires Widens(bp, s, a, i, seen)
    ensures Grants(bp, i, Do(bp, s, a).Now(), WideKey(bp, i)) == Grants(bp, i, s.Now(), WideKey(bp, i))
    ensures Grants(bp, i, Do(bp, s, a).Now(), LocalKey(bp, i)) == Grants(bp, i, s.Now(), LocalKey(bp, i))
  {
    match a
    case Start(_) =>
    case Crash(_) =>
    case Step(_, _, _, _) => OthersKeepBindings(bp, s, a, i);
    case UserWrite(_, _, _) => UsersKeepBindings(bp, s, a, i);
    case UserDelete(_) => UsersKeepBindings(bp, s, a, i);
  }

  lemma StepCovers(bp: Blueprint, s: System, a: Action, i: Instance, seen: bool)
    requires Inv(bp, s) && Enabled(bp, s, a) && i in s.workers && Apart(bp, i, Manager)
    requires Covered(bp, i, s.Now(), s.workers[i], seen) && Widens(bp, s, a, i, seen)
    ensures Covered(bp, i, Do(bp, s, a).Now(), Do(bp, s, a).workers[i], SeenAfter(bp, s, a, i, seen))
  {
    if a.Step? && a.i == i {
      if s.workers[i].Fetching? {
        FetchCovers(bp, s, a, seen);
      } else if seen {
        WideRuns(bp, s, a);
      } else {
        NarrowRuns(bp, s, a);
      }
    } else {
      BystandersKeepBindings(bp, s, a, i, seen);
    }
  }

  lemma {:induction false} RunCovers(bp: Blueprint, s: System, run: seq<Action>, i: Instance, seen: bool)
    requires Inv(bp, s) && Legal(bp, s, run) && i in s.workers && Apart(bp, i, Manager)
    requires Covered(bp, i, s.Now(), s.workers[i], seen) && Widening(bp, s, run, i, seen)
    ensures Bound(bp, i, After(bp, s, run).Now())
    decreases |run|
  {
    if run != [] {
      StepKeepsInv(bp, s, run[0]);
      StepCovers(bp, s, run[0], i, seen);
      RunCovers(bp, Do(bp, s, run[0]), run[1..], i, SeenAfter(bp, s, run[0], i, seen));
    }
  }

  // From a state in which an idle instance has its namespaced binding, through any run in
  // which the resource turns cluster-wide - with failing calls, lagging reads, crashes and
  // other instances at work - there is never a moment without a manager binding.
  lemma {:induction false} NoGapWhenWidening(bp: Blueprint, s: System, run: seq<Action>, i: Instance)
    requires Inv(bp, s) && Legal(bp, s, run) && i in s.workers && Apart(bp, i, Manager)
    requires s.workers[i].Idle? && Grants(bp, i, s.Now(), LocalKey(bp, i))
    requires Widening(bp, s, run, i, false)
    ensures Bound(bp, i, After(bp, s, run).Now())
  {
    RunCovers(bp, s, run, i, false);
  }
}
