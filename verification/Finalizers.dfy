// Cluster-wide bindings do not outlive their custom resource: the finalizer is in place
// before they are created, and the only way to break the bond is to take it off while one
// still stands.
module Finalizers {
  import opened Text
  import opened Api
  import opened Objects
  import opened Cluster
  import opened Protocol
  import opened Isolation

  // The custom resource is stored and carries the operator's finalizer.
  predicate Held(store: Store, key: Key) {
    key in store.objects && OperatorFinalizer in store.objects[key].meta.finalizers
  }

  predicate Live(store: Store, key: Key) {
    Held(store, key) && !store.objects[key].meta.deleting
  }

  ghost predicate Guarded(bp: Blueprint, i: Instance, store: Store) {
    forall g | bp.key(i, ClusterBinding(g)) in store.objects :: Held(store, bp.key(i, Custom))
  }

  // ---- What is asked of users and of the cleanup ---------------------------

  // Only the operator takes its finalizer off; an object with a finalizer cannot be
  // deleted outright.
  ghost predicate KeepsFinalizers(bp: Blueprint, s: System, a: Action)
    requires |s.history| > 0
  {
    forall i | i in s.workers && Held(s.Now(), bp.key(i, Custom)) ::
      && (a.UserWrite? && a.key == bp.key(i, Custom) ==> OperatorFinalizer in a.meta.finalizers)
      && (a.UserDelete? ==> a.key != bp.key(i, Custom))
  }

  ghost predicate FinalizersKept(bp: Blueprint, s: System, run: seq<Action>)
    requires |s.history| > 0 && Legal(bp, s, run)
    decreases |run|
  {
    run == [] || (KeepsFinalizers(bp, s, run[0]) && FinalizersKept(bp, Do(bp, s, run[0]), run[1..]))
  }

  ghost predicate NoBindings(bp: Blueprint, i: Instance, store: Store) {
    forall g :: bp.key(i, ClusterBinding(g)) !in store.objects
  }

  // A finalizer that comes off with this action comes off a resource without bindings.
  ghost predicate DropsClean(bp: Blueprint, s: System, a: Action)
    requires |s.history| > 0 && Enabled(bp, s, a)
  {
    forall i | i in s.workers && Held(s.Now(), bp.key(i, Custom)) && !Held(Do(bp, s, a).Now(), bp.key(i, Custom)) ::
      NoBindings(bp, i, s.Now())
  }

  ghost predicate AlwaysDropsClean(bp: Blueprint, s: System, run: seq<Action>)
    requires |s.history| > 0 && Legal(bp, s, run)
    decreases |run|
  {
    run == [] || (DropsClean(bp, s, run[0]) && AlwaysDropsClean(bp, Do(bp, s, run[0]), run[1..]))
  }

  ghost predicate AllGuarded(bp: Blueprint, s: System)
    requires |s.history| > 0
  {
    forall i | i in s.workers :: Guarded(bp, i, s.Now())
  }

  // At every moment of the run.
  ghost predicate AlwaysGuarded(bp: Blueprint, s: System, run: seq<Action>)
    requires |s.history| > 0 && Legal(bp, s, run)
    decreases |run|
  {
    AllGuarded(bp, s) && (run == [] || AlwaysGuarded(bp, Do(bp, s, run[0]), run[1..]))
  }

  // ---- Invariant of one instance -------------------------------------------

  predicate Installs(plan: Plan) {
    match plan
    case End => true
    case Then(op, rest) => !op.PutFinalizer? && !op.RemoveBinding? && Installs(rest)
  }

  // What the worker fetched is what stood in the last state in which it looked.
  ghost predicate Fetched(bp: Blueprint, i: Instance, history: seq<Store>, floor: nat, cr: Object) {
    floor < |history| && bp.key(i, Custom) in history[floor].objects && history[floor].objects[bp.key(i, Custom)] == cr
  }

  ghost predicate Installing(w: Worker) {
    && w.Running?
    && OperatorFinalizer in w.cr.meta.finalizers && !w.cr.meta.deleting
    && Installs(w.plan)
  }

  predicate Cleaning(w: Worker) {
    && w.Running? && w.phase.Fresh? && w.cr.meta.deleting
    && (w.plan == CleanupPlan() || w.plan == CleanupPlan().rest || w.plan == CleanupPlan().rest.rest)
  }

  ghost predicate Adding(w: Worker) {
    w.Running? && w.phase.Fresh? && w.plan == FinalizerPlan()
  }

  // Once seen live, the resource keeps the finalizer as long as its worker has not seen
  // anything newer.
  ghost predicate StaysHeld(key: Key, history: seq<Store>, floor: nat) {
    forall k, m | floor <= k <= m < |history| && Live(history[k], key) :: Held(history[m], key)
  }

  ghost predicate Safe(bp: Blueprint, i: Instance, history: seq<Store>, floor: nat, w: Worker)
    requires |history| > 0
  {
    && StaysHeld(bp.key(i, Custom), history, floor)
    && floor < |history|
    && Guarded(bp, i, history[|history| - 1])
    && (w.Running? ==>
          && Fetched(bp, i, history, floor, w.cr)
          && (Installing(w) || Cleaning(w) || Adding(w)))
  }

  // ---- Plans ---------------------------------------------------------------

  lemma InstallPlanInstalls(bp: Blueprint, i: Instance, o: Origin, ch: Choice)
    ensures Installs(InstallPlan(bp, i, o, ch))
  {
    var deployment := DeploymentPlan(bp, i, o, ch.visit);
    assert Installs(deployment);
    var legacy := LegacyPlan(deployment);
    assert Installs(legacy);
    var leader := LeaderPlan(bp, i, o, legacy);
    assert Installs(leader);
    var auth := K8sAuthPlan(bp, i, o, leader);
    assert Installs(auth);
    var local := ManagerLocalPlan(bp, i, o, auth);
    assert Installs(local);
    var permissions := PermissionsPlan(bp, i, o, deployment);
    assert Installs(permissions);
    var account := AccountPlan(bp, i, o, permissions);
    assert Installs(account);
    var metrics := EnsurePlan(bp, i, o, MetricsService, ServicePolicy, account);
    assert Installs(metrics);
    assert Installs(ServicesPlan(bp, i, o, account));
  }

  // ---- A state that does no harm -------------------------------------------

  // Nothing an instance cares about got worse from one state to the next.
  ghost predicate Harmless(bp: Blueprint, i: Instance, now: Store, next: Store) {
    && (Held(now, bp.key(i, Custom)) ==> Held(next, bp.key(i, Custom)))
    && (forall g :: bp.key(i, ClusterBinding(g)) in next.objects ==> bp.key(i, ClusterBinding(g)) in now.objects)
  }

  lemma StaysHeldGrows(key: Key, history: seq<Store>, floor: nat, next: Store)
    requires |history| > 0 && floor < |history|
    requires StaysHeld(key, history, floor)
    requires Held(history[|history| - 1], key) ==> Held(next, key)
    ensures StaysHeld(key, history + [next], floor)
  {
    var longer := history + [next];
    forall k, m | floor <= k <= m < |longer| && Live(longer[k], key)
      ensures Held(longer[m], key)
    {
      if m == |history| && k < m {
        assert Held(history[m - 1], key);
      }
    }
  }

  lemma HarmlessKeepsSafe(bp: Blueprint, i: Instance, history: seq<Store>, floor: nat, w: Worker, next: Store)
    requires |history| > 0 && Safe(bp, i, history, floor, w)
    requires Harmless(bp, i, history[|history| - 1], next)
    ensures Safe(bp, i, history + [next], floor, w)
  {
    StaysHeldGrows(bp.key(i, Custom), history, floor, next);
    assert (history + [next])[floor] == history[floor];
  }

  // The worker of a live resource holds it.
  lemma InstallingHolds(bp: Blueprint, i: Instance, history: seq<Store>, floor: nat, w: Worker)
    requires |history| > 0 && Safe(bp, i, history, floor, w) && Installing(w)
    ensures Held(history[|history| - 1], bp.key(i, Custom))
  {
    assert Live(history[floor], bp.key(i, Custom));
  }

  // ---- The worker's own calls ----------------------------------------------

  lemma InstallingAdvances(bp: Blueprint, i: Instance, w: Worker, resp: Response, ch: Choice)
    requires Installing(w)
    ensures var next := Advance(bp, i, w, resp, ch);
      next.Running? ==> Installing(next) && next.cr == w.cr
  {
  }

  // A status report and the management of other objects leave the finalizer alone.
  lemma InstallingKeepsFinalizer(bp: Blueprint, s: System, a: Action)
    requires Inv(bp, s) && a.Step? && Enabled(bp, s, a)
    requires Installing(s.workers[a.i])
    ensures Held(s.Now(), bp.key(a.i, Custom)) ==> Held(Effect(bp, s, a), bp.key(a.i, Custom))
  {
    var w := s.workers[a.i];
    var key := bp.key(a.i, Custom);
    var r := NextRequest(bp, a.i, w);
    CallGoes(bp, s.workers.Keys, s.history, a.i, w);
    if Target(r) != key {
      OnlyTargetChanges(s.Now(), r, a.outcome, key);
    } else {
      assert r.Get? || r.PatchStatus? by {
        if !r.Get? {
          assert SlotKind(AboutSlot(w).value, key.kind);
        }
      }
    }
  }

  lemma InstallingStep(bp: Blueprint, s: System, a: Action)
    requires Inv(bp, s) && a.Step? && Enabled(bp, s, a)
    requires Safe(bp, a.i, s.history, s.floor[a.i], s.workers[a.i])
    requires Installing(s.workers[a.i])
    ensures Safe(bp, a.i, Do(bp, s, a).history, Do(bp, s, a).floor[a.i], Do(bp, s, a).workers[a.i])
  {
    var w := s.workers[a.i];
    var next := Effect(bp, s, a);
    var resp := Answer(s, NextRequest(bp, a.i, w), a.outcome, a.at).1;
    InstallingHolds(bp, a.i, s.history, s.floor[a.i], w);
    InstallingKeepsFinalizer(bp, s, a);
    StaysHeldGrows(bp.key(a.i, Custom), s.history, s.floor[a.i], next);
    InstallingAdvances(bp, a.i, w, resp, a.ch);
    assert (s.history + [next])[s.floor[a.i]] == s.history[s.floor[a.i]];
  }

  lemma DispatchSafe(bp: Blueprint, i: Instance, cr: Object, ch: Choice)
    ensures var w := Dispatch(bp, i, cr, ch);
      w.Running? ==> w.cr == cr && (Installing(w) || Cleaning(w) || Adding(w))
  {
    if cr.body.Resource? {
      InstallPlanInstalls(bp, i, OriginOf(cr), ch);
      EnterKeeps(cr, InstallPlan(bp, i, OriginOf(cr), ch), ch.now);
    }
  }

  lemma EnterKeeps(cr: Object, plan: Plan, now: int)
    ensures Enter(cr, plan, now).Running? ==> Enter(cr, plan, now).cr == cr && Enter(cr, plan, now).plan == plan
  {
  }

  // Fetching the resource: the worker moves up to the state it has seen.
  lemma FetchStep(bp: Blueprint, s: System, a: Action)
    requires Inv(bp, s) && a.Step? && Enabled(bp, s, a)
    requires Safe(bp, a.i, s.history, s.floor[a.i], s.workers[a.i])
    requires s.workers[a.i].Fetching?
    ensures Safe(bp, a.i, Do(bp, s, a).history, Do(bp, s, a).floor[a.i], Do(bp, s, a).workers[a.i])
  {
    var key := bp.key(a.i, Custom);
    var resp := Answer(s, Get(key), a.outcome, a.at).1;
    StaysHeldGrows(key, s.history, s.floor[a.i], s.Now());
    if resp.Found? {
      DispatchSafe(bp, a.i, resp.obj, a.ch);
      assert (s.history + [s.Now()])[a.at] == s.history[a.at];
    }
  }

  predicate AtCleanup(w: Worker, g: Grant) {
    w.Running? && !w.phase.Reporting? && w.plan.Then? && w.plan.op == RemoveBinding(g)
  }

  // Deleting a binding in the final cleanup.
  lemma RemoveStep(bp: Blueprint, s: System, a: Action, g: Grant)
    requires Inv(bp, s) && a.Step? && Enabled(bp, s, a)
    requires AtCleanup(s.workers[a.i], g)
    ensures var key, next := bp.key(a.i, ClusterBinding(g)), Effect(bp, s, a);
      && (!a.outcome.Refused? || key !in s.Now().objects ==> key !in next.objects)
      && (forall other | other != key ::
            && (other in next.objects <==> other in s.Now().objects)
            && (other in next.objects ==> next.objects[other] == s.Now().objects[other]))
  {
  }

  // The finalizer stays while a binding is removed.
  lemma RemovingHolds(bp: Blueprint, s: System, a: Action, g: Grant)
    requires Inv(bp, s) && a.Step? && Enabled(bp, s, a)
    requires AtCleanup(s.workers[a.i], g)
    ensures Held(s.Now(), bp.key(a.i, Custom)) ==> Held(Effect(bp, s, a), bp.key(a.i, Custom))
  {
    RemoveStep(bp, s, a, g);
    assert SlotKind(Custom, bp.key(a.i, Custom).kind)
      && SlotKind(ClusterBinding(g), bp.key(a.i, ClusterBinding(g)).kind);
  }

  lemma CleaningRemoves(bp: Blueprint, s: System, a: Action, g: Grant)
    requires Inv(bp, s) && a.Step? && Enabled(bp, s, a)
    requires Safe(bp, a.i, s.history, s.floor[a.i], s.workers[a.i])
    requires Cleaning(s.workers[a.i]) && AtCleanup(s.workers[a.i], g)
    requires g == Manager ==> s.workers[a.i].plan == CleanupPlan()
    requires g == K8sAuth ==> s.workers[a.i].plan == CleanupPlan().rest
    ensures Safe(bp, a.i, Do(bp, s, a).history, Do(bp, s, a).floor[a.i], Do(bp, s, a).workers[a.i])
  {
    var next := Effect(bp, s, a);
    RemoveStep(bp, s, a, g);
    RemovingHolds(bp, s, a, g);
    StaysHeldGrows(bp.key(a.i, Custom), s.history, s.floor[a.i], next);
    assert (s.history + [next])[s.floor[a.i]] == s.history[s.floor[a.i]];
  }

  // An update of the finalizer that takes effect finds the very resource that was fetched,
  // which stood unchanged ever since.
  lemma UpdateFinds(bp: Blueprint, s: System, i: Instance, k: nat)
    requires Inv(bp, s) && i in s.workers && s.workers[i].Running?
    requires Fetched(bp, i, s.history, s.floor[i], s.workers[i].cr)
    requires s.floor[i] <= k < |s.history|
    requires bp.key(i, Custom) in s.Now().objects
    requires s.Now().objects[bp.key(i, Custom)].version == s.workers[i].cr.version
    ensures bp.key(i, Custom) in s.history[k].objects && s.history[k].objects[bp.key(i, Custom)] == s.workers[i].cr
    ensures s.Now().objects[bp.key(i, Custom)] == s.workers[i].cr
  {
    SameVersionSameObject(s.history[s.floor[i]], s.history[k], s.Now(), bp.key(i, Custom));
  }

  // An update of the custom resource leaves its bindings alone.
  lemma UpdateKeepsBindings(bp: Blueprint, s: System, i: Instance, obj: Object, outcome: Outcome, g: Grant)
    requires Inv(bp, s) && i in s.workers
    ensures var next := Call(s.Now(), Update(bp.key(i, Custom), obj), outcome).0;
      bp.key(i, ClusterBinding(g)) in next.objects <==> bp.key(i, ClusterBinding(g)) in s.Now().objects
  {
    assert SlotKind(Custom, bp.key(i, Custom).kind) && SlotKind(ClusterBinding(g), bp.key(i, ClusterBinding(g)).kind);
    OnlyTargetChanges(s.Now(), Update(bp.key(i, Custom), obj), outcome, bp.key(i, ClusterBinding(g)));
  }

  // No state the worker may still see shows the resource live.
  lemma DropKeepsHeld(bp: Blueprint, s: System, a: Action)
    requires Inv(bp, s) && a.Step? && Enabled(bp, s, a)
    requires Safe(bp, a.i, s.history, s.floor[a.i], s.workers[a.i])
    requires Cleaning(s.workers[a.i]) && s.workers[a.i].plan == CleanupPlan().rest.rest
    ensures StaysHeld(bp.key(a.i, Custom), s.history + [Effect(bp, s, a)], s.floor[a.i])
  {
    var w := s.workers[a.i];
    var key := bp.key(a.i, Custom);
    var next := Effect(bp, s, a);
    var history := s.history + [next];
    assert NextRequest(bp, a.i, w) == Update(key, WithFinalizer(w.cr, false));
    if key in s.Now().objects && s.Now().objects[key].version == w.cr.version {
      forall k, m | s.floor[a.i] <= k <= m < |history| && Live(history[k], key)
        ensures Held(history[m], key)
      {
        if k < |s.history| {
          UpdateFinds(bp, s, a.i, k);
        }
      }
    } else {
      assert next == s.Now();
      StaysHeldGrows(key, s.history, s.floor[a.i], next);
    }
  }

  // Taking the finalizer off.
  lemma DropStep(bp: Blueprint, s: System, a: Action)
    requires Inv(bp, s) && a.Step? && Enabled(bp, s, a) && DropsClean(bp, s, a)
    requires Safe(bp, a.i, s.history, s.floor[a.i], s.workers[a.i])
    requires Cleaning(s.workers[a.i]) && s.workers[a.i].plan == CleanupPlan().rest.rest
    ensures Safe(bp, a.i, Do(bp, s, a).history, Do(bp, s, a).floor[a.i], Do(bp, s, a).workers[a.i])
  {
    var w := s.workers[a.i];
    assert NextRequest(bp, a.i, w) == Update(bp.key(a.i, Custom), WithFinalizer(w.cr, false));
    forall g
      ensures bp.key(a.i, ClusterBinding(g)) in Effect(bp, s, a).objects <==>
        bp.key(a.i, ClusterBinding(g)) in s.Now().objects
    {
      UpdateKeepsBindings(bp, s, a.i, WithFinalizer(w.cr, false), a.outcome, g);
    }
    DropKeepsHeld(bp, s, a);
    assert Do(bp, s, a).Now() == Effect(bp, s, a);
    assert Do(bp, s, a).workers[a.i].Idle?;
  }

  lemma AddStep(bp: Blueprint, s: System, a: Action)
    requires Inv(bp, s) && a.Step? && Enabled(bp, s, a)
    requires Safe(bp, a.i, s.history, s.floor[a.i], s.workers[a.i])
    requires Adding(s.workers[a.i])
    ensures Safe(bp, a.i, Do(bp, s, a).history, Do(bp, s, a).floor[a.i], Do(bp, s, a).workers[a.i])
  {
    var w := s.workers[a.i];
    var key := bp.key(a.i, Custom);
    var next := Effect(bp, s, a);
    var r := Update(key, WithFinalizer(w.cr, true));
    assert NextRequest(bp, a.i, w) == r;
    forall g
      ensures bp.key(a.i, ClusterBinding(g)) in next.objects ==> bp.key(a.i, ClusterBinding(g)) in s.Now().objects
    {
      UpdateKeepsBindings(bp, s, a.i, WithFinalizer(w.cr, true), a.outcome, g);
    }
    assert Held(s.Now(), key) ==> Held(next, key);
    StaysHeldGrows(key, s.history, s.floor[a.i], next);
    assert Do(bp, s, a).workers[a.i].Idle?;
  }

  lemma OwnStepKeepsSafe(bp: Blueprint, s: System, a: Action)
    requires Inv(bp, s) && a.Step? && Enabled(bp, s, a) && DropsClean(bp, s, a)
    requires Safe(bp, a.i, s.history, s.floor[a.i], s.workers[a.i])
    ensures Safe(bp, a.i, Do(bp, s, a).history, Do(bp, s, a).floor[a.i], Do(bp, s, a).workers[a.i])
  {
    var w := s.workers[a.i];
    if w.Fetching? {
      FetchStep(bp, s, a);
    } else if Installing(w) {
      InstallingStep(bp, s, a);
    } else if Adding(w) {
      AddStep(bp, s, a);
    } else if w.plan == CleanupPlan() {
      CleaningRemoves(bp, s, a, Manager);
    } else if w.plan == CleanupPlan().rest {
      CleaningRemoves(bp, s, a, K8sAuth);
    } else {
      DropStep(bp, s, a);
    }
  }

  // ---- Everyone else -------------------------------------------------------

  lemma OthersHarmless(bp: Blueprint, s: System, a: Action, i: Instance)
    requires Inv(bp, s) && a.Step? && Enabled(bp, s, a)
    requires i in s.workers && i != a.i
    ensures Harmless(bp, i, s.Now(), Effect(bp, s, a))
  {
    OthersUntouched(bp, s, a, i, Custom);
    forall g
      ensures bp.key(i, ClusterBinding(g)) in Effect(bp, s, a).objects ==>
        bp.key(i, ClusterBinding(g)) in s.Now().objects
    {
      OthersUntouched(bp, s, a, i, ClusterBinding(g));
    }
  }

  // Users create no cluster-wide binding, as they do not write into one that is not there.
  lemma UsersBindNothing(bp: Blueprint, s: System, a: Action, i: Instance, g: Grant)
    requires Inv(bp, s) && (a.UserWrite? || a.UserDelete?) && Enabled(bp, s, a) && i in s.workers
    requires bp.key(i, ClusterBinding(g)) in Do(bp, s, a).Now().objects
    ensures bp.key(i, ClusterBinding(g)) in s.Now().objects
  {
    if a.UserWrite? && a.key == bp.key(i, ClusterBinding(g)) {
      assert !Forges(bp, s, a.key, a.body);
    }
  }

  lemma UsersHold(bp: Blueprint, s: System, a: Action, i: Instance)
    requires |s.history| > 0 && (a.UserWrite? || a.UserDelete?) && KeepsFinalizers(bp, s, a) && i in s.workers
    requires Held(s.Now(), bp.key(i, Custom))
    ensures Held(Do(bp, s, a).Now(), bp.key(i, Custom))
  {
  }

  lemma UsersHarmless(bp: Blueprint, s: System, a: Action, i: Instance)
    requires Inv(bp, s) && (a.UserWrite? || a.UserDelete?) && Enabled(bp, s, a) && KeepsFinalizers(bp, s, a)
    requires i in s.workers
    ensures Harmless(bp, i, s.Now(), Do(bp, s, a).Now())
  {
    var next := Do(bp, s, a).Now();
    if Held(s.Now(), bp.key(i, Custom)) {
      UsersHold(bp, s, a, i);
    }
    forall g | bp.key(i, ClusterBinding(g)) in next.objects
      ensures bp.key(i, ClusterBinding(g)) in s.Now().objects
    {
      UsersBindNothing(bp, s, a, i, g);
    }
  }

  // ---- Over every run ------------------------------------------------------

  ghost predicate AllSafe(bp: Blueprint, s: System)
    requires |s.history| > 0 && s.floor.Keys == s.workers.Keys
  {
    forall i | i in s.workers :: Safe(bp, i, s.history, s.floor[i], s.workers[i])
  }

  lemma OthersStepKeepsSafe(bp: Blueprint, s: System, a: Action, i: Instance)
    requires Inv(bp, s) && a.Step? && Enabled(bp, s, a) && i in s.workers && i != a.i
    requires Safe(bp, i, s.history, s.floor[i], s.workers[i])
    ensures var after := Do(bp, s, a);
      Safe(bp, i, after.history, after.floor[i], after.workers[i])
  {
    OthersHarmless(bp, s, a, i);
    HarmlessKeepsSafe(bp, i, s.history, s.floor[i], s.workers[i], Effect(bp, s, a));
  }

  lemma UserStepKeepsSafe(bp: Blueprint, s: System, a: Action, i: Instance)
    requires Inv(bp, s) && (a.UserWrite? || a.UserDelete?) && Enabled(bp, s, a) && KeepsFinalizers(bp, s, a)
    requires i in s.workers && Safe(bp, i, s.history, s.floor[i], s.workers[i])
    ensures var after := Do(bp, s, a);
      Safe(bp, i, after.history, after.floor[i], after.workers[i])
  {
    UsersHarmless(bp, s, a, i);
    HarmlessKeepsSafe(bp, i, s.history, s.floor[i], s.workers[i], Do(bp, s, a).Now());
  }

  lemma InstanceStaysSafe(bp: Blueprint, s: System, a: Action, i: Instance)
    requires Inv(bp, s) && Enabled(bp, s, a) && KeepsFinalizers(bp, s, a) && DropsClean(bp, s, a)
    requires i in s.workers && Safe(bp, i, s.history, s.floor[i], s.workers[i])
    ensures var after := Do(bp, s, a);
      && i in after.workers && i in after.floor && |after.history| > 0
      && Safe(bp, i, after.history, after.floor[i], after.workers[i])
  {
    match a
    case Start(_) =>
    case Crash(_) =>
    case Step(j, _, _, _) =>
      if i == j {
        OwnStepKeepsSafe(bp, s, a);
      } else {
        OthersStepKeepsSafe(bp, s, a, i);
      }
    case UserWrite(_, _, _) => UserStepKeepsSafe(bp, s, a, i);
    case UserDelete(_) => UserStepKeepsSafe(bp, s, a, i);
  }

  lemma SameInstances(bp: Blueprint, s: System, a: Action)
    requires Inv(bp, s) && Enabled(bp, s, a)
    ensures var after := Do(bp, s, a);
      after.workers.Keys == s.workers.Keys && after.floor.Keys == s.floor.Keys && |after.history| > 0
  {
  }

  lemma StepKeepsSafe(bp: Blueprint, s: System, a: Action)
    requires Inv(bp, s) && AllSafe(bp, s) && Enabled(bp, s, a)
    requires KeepsFinalizers(bp, s, a) && DropsClean(bp, s, a)
    ensures Do(bp, s, a).floor.Keys == Do(bp, s, a).workers.Keys && |Do(bp, s, a).history| > 0
    ensures AllSafe(bp, Do(bp, s, a))
  {
    var after := Do(bp, s, a);
    SameInstances(bp, s, a);
    forall i | i in after.workers
      ensures Safe(bp, i, after.history, after.floor[i], after.workers[i])
    {
      InstanceStaysSafe(bp, s, a, i);
    }
  }

  lemma InitiallySafe(bp: Blueprint, s: System)
    requires Initial(bp, s) && AllGuarded(bp, s)
    ensures AllSafe(bp, s)
  {
  }

  // Dropped clean, the finalizer keeps everything guarded.
  lemma {:induction false} CleanKeepsGuarded(bp: Blueprint, s: System, run: seq<Action>)
    requires Inv(bp, s) && AllSafe(bp, s) && Legal(bp, s, run)
    requires FinalizersKept(bp, s, run) && AlwaysDropsClean(bp, s, run)
    ensures AlwaysGuarded(bp, s, run)
    decreases |run|
  {
    if run != [] {
      StepKeepsInv(bp, s, run[0]);
      StepKeepsSafe(bp, s, run[0]);
      CleanKeepsGuarded(bp, Do(bp, s, run[0]), run[1..]);
    }
  }

  // A call that takes the finalizer off touches no binding of the instance.
  lemma DroppingKeepsBindings(bp: Blueprint, s: System, a: Action, i: Instance, g: Grant)
    requires Inv(bp, s) && Enabled(bp, s, a) && KeepsFinalizers(bp, s, a) && i in s.workers
    requires Held(s.Now(), bp.key(i, Custom)) && !Held(Do(bp, s, a).Now(), bp.key(i, Custom))
    ensures bp.key(i, ClusterBinding(g)) in Do(bp, s, a).Now().objects <==>
      bp.key(i, ClusterBinding(g)) in s.Now().objects
  {
    var r := NextRequest(bp, a.i, s.workers[a.i]);
    assert SlotKind(Custom, bp.key(i, Custom).kind) && SlotKind(ClusterBinding(g), bp.key(i, ClusterBinding(g)).kind);
    if Target(r) != bp.key(i, Custom) {
      OnlyTargetChanges(s.Now(), r, a.outcome, bp.key(i, Custom));
    } else {
      OnlyTargetChanges(s.Now(), r, a.outcome, bp.key(i, ClusterBinding(g)));
    }
  }

  // Guarded before and after, the finalizer was dropped clean.
  lemma GuardedDropsClean(bp: Blueprint, s: System, a: Action)
    requires Inv(bp, s) && Enabled(bp, s, a) && KeepsFinalizers(bp, s, a)
    requires |Do(bp, s, a).history| > 0 && Do(bp, s, a).workers.Keys == s.workers.Keys && AllGuarded(bp, Do(bp, s, a))
    ensures DropsClean(bp, s, a)
  {
    forall i, g | i in s.workers && Held(s.Now(), bp.key(i, Custom)) && !Held(Do(bp, s, a).Now(), bp.key(i, Custom))
      ensures bp.key(i, ClusterBinding(g)) !in s.Now().objects
    {
      DroppingKeepsBindings(bp, s, a, i, g);
      assert i in Do(bp, s, a).workers;
    }
  }

  lemma {:induction false} GuardedMeansClean(bp: Blueprint, s: System, run: seq<Action>)
    requires Inv(bp, s) && Legal(bp, s, run) && FinalizersKept(bp, s, run) && AlwaysGuarded(bp, s, run)
    ensures AlwaysDropsClean(bp, s, run)
    decreases |run|
  {
    if run != [] {
      SameInstances(bp, s, run[0]);
      StepKeepsInv(bp, s, run[0]);
      GuardedDropsClean(bp, s, run[0]);
      GuardedMeansClean(bp, Do(bp, s, run[0]), run[1..]);
    }
  }

  // Finalizer safety, exactly. Over every run in which only the operator takes its finalizer
  // off - whatever else users delete and edit, whichever calls fail, wherever the operator
  // crashes and however far reads lag - a cluster-wide binding exists only while its custom
  // resource is stored with the finalizer, at every moment, if and only if the finalizer
  // never comes off a resource with a binding still standing.
  lemma {:induction false} FinalizerSafety(bp: Blueprint, s: System, run: seq<Action>)
    requires Initial(bp, s) && AllGuarded(bp, s)
    requires Legal(bp, s, run) && FinalizersKept(bp, s, run)
    ensures AlwaysGuarded(bp, s, run) <==> AlwaysDropsClean(bp, s, run)
  {
    InitialInv(bp, s);
    InitiallySafe(bp, s);
    if AlwaysDropsClean(bp, s, run) {
      CleanKeepsGuarded(bp, s, run);
    } else if AlwaysGuarded(bp, s, run) {
      GuardedMeansClean(bp, s, run);
    }
  }
}
