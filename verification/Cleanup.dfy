// When the finalizer comes off clean: if the deletes of the final cleanup take effect. The
// code looks at no outcome of theirs, so that one refused delete may leave a binding behind.
module Cleanup {
  import opened Text
  import opened Api
  import opened Objects
  import opened Cluster
  import opened Protocol
  import opened Isolation
  import opened Finalizers

  // A delete of the final cleanup takes effect or finds nothing. Other failures are only
  // logged by the code, which then drops the finalizer all the same.
  ghost predicate CleansUp(bp: Blueprint, s: System, a: Action)
    requires |s.history| > 0
  {
    a.Step? && a.i in s.workers ==>
      forall g | AtCleanup(s.workers[a.i], g) ::
        !a.outcome.Refused? || bp.key(a.i, ClusterBinding(g)) !in s.Now().objects
  }

  ghost predicate AlwaysCleansUp(bp: Blueprint, s: System, run: seq<Action>)
    requires |s.history| > 0 && Legal(bp, s, run)
    decreases |run|
  {
    run == [] || (CleansUp(bp, s, run[0]) && AlwaysCleansUp(bp, Do(bp, s, run[0]), run[1..]))
  }

  // What the worker has cleaned up is gone.
  ghost predicate Swept(bp: Blueprint, i: Instance, now: Store, w: Worker) {
    w.Running? ==>
      && (w.plan == CleanupPlan().rest ==> bp.key(i, ClusterBinding(Manager)) !in now.objects)
      && (w.plan == CleanupPlan().rest.rest ==> NoBindings(bp, i, now))
  }

  ghost predicate AllSwept(bp: Blueprint, s: System)
    requires |s.history| > 0
  {
    forall i | i in s.workers :: Swept(bp, i, s.Now(), s.workers[i])
  }

  lemma InstallingSwept(bp: Blueprint, i: Instance, now: Store, w: Worker)
    requires w.Running? ==> Installs(w.plan)
    ensures Swept(bp, i, now, w)
  {
  }

  lemma FetchSweeps(bp: Blueprint, i: Instance, cr: Object, ch: Choice, now: Store)
    ensures Swept(bp, i, now, Dispatch(bp, i, cr, ch))
  {
    if cr.body.Resource? {
      InstallPlanInstalls(bp, i, OriginOf(cr), ch);
      EnterKeeps(cr, InstallPlan(bp, i, OriginOf(cr), ch), ch.now);
      InstallingSwept(bp, i, now, Enter(cr, InstallPlan(bp, i, OriginOf(cr), ch), ch.now));
    }
  }

  lemma RemovingSweeps(bp: Blueprint, s: System, a: Action, g: Grant)
    requires Inv(bp, s) && a.Step? && Enabled(bp, s, a) && CleansUp(bp, s, a)
    requires Swept(bp, a.i, s.Now(), s.workers[a.i])
    requires Cleaning(s.workers[a.i]) && AtCleanup(s.workers[a.i], g)
    ensures Swept(bp, a.i, Do(bp, s, a).Now(), Do(bp, s, a).workers[a.i])
  {
    RemoveStep(bp, s, a, g);
    assert Do(bp, s, a).Now() == Effect(bp, s, a);
    forall f | g == K8sAuth
      ensures bp.key(a.i, ClusterBinding(f)) !in Effect(bp, s, a).objects
    {
      assert f == Manager || f == K8sAuth;
    }
  }

  lemma OwnStepSweeps(bp: Blueprint, s: System, a: Action)
    requires Inv(bp, s) && a.Step? && Enabled(bp, s, a) && CleansUp(bp, s, a)
    requires Safe(bp, a.i, s.history, s.floor[a.i], s.workers[a.i])
    requires Swept(bp, a.i, s.Now(), s.workers[a.i])
    ensures Swept(bp, a.i, Do(bp, s, a).Now(), Do(bp, s, a).workers[a.i])
  {
    var w := s.workers[a.i];
    var resp := Answer(s, NextRequest(bp, a.i, w), a.outcome, a.at).1;
    if w.Fetching? {
      if resp.Found? {
        FetchSweeps(bp, a.i, resp.obj, a.ch, Do(bp, s, a).Now());
      }
    } else if Installing(w) {
      InstallingAdvances(bp, a.i, w, resp, a.ch);
      InstallingSwept(bp, a.i, Do(bp, s, a).Now(), Do(bp, s, a).workers[a.i]);
    } else if w.plan == CleanupPlan() {
      RemovingSweeps(bp, s, a, Manager);
    } else if w.plan == CleanupPlan().rest {
      RemovingSweeps(bp, s, a, K8sAuth);
    } else {
      assert Do(bp, s, a).workers[a.i].Idle?;
    }
  }

  lemma NoNewBindings(bp: Blueprint, s: System, a: Action, i: Instance)
    requires Inv(bp, s) && Enabled(bp, s, a) && KeepsFinalizers(bp, s, a) && i in s.workers
    requires a.Step? ==> a.i != i
    ensures forall g ::
      bp.key(i, ClusterBinding(g)) in Do(bp, s, a).Now().objects ==> bp.key(i, ClusterBinding(g)) in s.Now().objects
  {
    match a
    case Start(_) =>
    case Crash(_) =>
    case Step(_, _, _, _) => OthersHarmless(bp, s, a, i);
    case UserWrite(_, _, _) => UsersHarmless(bp, s, a, i);
    case UserDelete(_) => UsersHarmless(bp, s, a, i);
  }

  lemma BystanderSwept(bp: Blueprint, s: System, a: Action, i: Instance)
    requires Inv(bp, s) && Enabled(bp, s, a) && KeepsFinalizers(bp, s, a) && i in s.workers
    requires a.Step? ==> a.i != i
    requires Swept(bp, i, s.Now(), s.workers[i])
    ensures i in Do(bp, s, a).workers && Swept(bp, i, Do(bp, s, a).Now(), Do(bp, s, a).workers[i])
  {
    NoNewBindings(bp, s, a, i);
  }

  lemma StepSweeps(bp: Blueprint, s: System, a: Action)
    requires Inv(bp, s) && AllSafe(bp, s) && AllSwept(bp, s)
    requires Enabled(bp, s, a) && KeepsFinalizers(bp, s, a) && CleansUp(bp, s, a)
    ensures |Do(bp, s, a).history| > 0 && AllSwept(bp, Do(bp, s, a))
  {
    var after := Do(bp, s, a);
    SameInstances(bp, s, a);
    forall i | i in after.workers
      ensures Swept(bp, i, after.Now(), after.workers[i])
    {
      if a.Step? && a.i == i {
        OwnStepSweeps(bp, s, a);
      } else {
        BystanderSwept(bp, s, a, i);
      }
    }
  }

  // Swept before the finalizer is taken off.
  lemma SweptDropsClean(bp: Blueprint, s: System, a: Action)
    requires Inv(bp, s) && AllSafe(bp, s) && AllSwept(bp, s) && Enabled(bp, s, a) && KeepsFinalizers(bp, s, a)
    ensures DropsClean(bp, s, a)
  {
    forall i | i in s.workers && Held(s.Now(), bp.key(i, Custom)) && !Held(Do(bp, s, a).Now(), bp.key(i, Custom))
      ensures NoBindings(bp, i, s.Now())
    {
      OnlyCleanupDrops(bp, s, a, i);
    }
  }

  lemma OwnStepDrops(bp: Blueprint, s: System, a: Action)
    requires Inv(bp, s) && a.Step? && Enabled(bp, s, a)
    requires Safe(bp, a.i, s.history, s.floor[a.i], s.workers[a.i])
    requires Held(s.Now(), bp.key(a.i, Custom)) && !Held(Effect(bp, s, a), bp.key(a.i, Custom))
    ensures s.workers[a.i].Running? && s.workers[a.i].plan == CleanupPlan().rest.rest
  {
    var w := s.workers[a.i];
    if Installing(w) {
      InstallingKeepsFinalizer(bp, s, a);
    } else if w.Running? && w.plan == CleanupPlan() {
      RemovingHolds(bp, s, a, Manager);
    } else if w.Running? && w.plan == CleanupPlan().rest {
      RemovingHolds(bp, s, a, K8sAuth);
    }
  }

  lemma BystandersHold(bp: Blueprint, s: System, a: Action, i: Instance)
    requires Inv(bp, s) && Enabled(bp, s, a) && KeepsFinalizers(bp, s, a) && i in s.workers
    requires a.Step? ==> a.i != i
    requires Held(s.Now(), bp.key(i, Custom))
    ensures Held(Do(bp, s, a).Now(), bp.key(i, Custom))
  {
    match a
    case Start(_) =>
    case Crash(_) =>
    case Step(_, _, _, _) => OthersHarmless(bp, s, a, i);
    case UserWrite(_, _, _) => UsersHold(bp, s, a, i);
    case UserDelete(_) => UsersHold(bp, s, a, i);
  }

  lemma OnlyCleanupDrops(bp: Blueprint, s: System, a: Action, i: Instance)
    requires Inv(bp, s) && AllSafe(bp, s) && Enabled(bp, s, a) && KeepsFinalizers(bp, s, a) && i in s.workers
    requires Held(s.Now(), bp.key(i, Custom)) && !Held(Do(bp, s, a).Now(), bp.key(i, Custom))
    ensures s.workers[i].Running? && s.workers[i].plan == CleanupPlan().rest.rest
  {
    if a.Step? && a.i == i {
      OwnStepDrops(bp, s, a);
    } else {
      BystandersHold(bp, s, a, i);
    }
  }

  lemma {:induction false} CleanupDropsClean(bp: Blueprint, s: System, run: seq<Action>)
    requires Inv(bp, s) && AllSafe(bp, s) && AllSwept(bp, s) && Legal(bp, s, run)
    requires FinalizersKept(bp, s, run) && AlwaysCleansUp(bp, s, run)
    ensures AlwaysDropsClean(bp, s, run)
    decreases |run|
  {
    if run != [] {
      SweptDropsClean(bp, s, run[0]);
      StepKeepsInv(bp, s, run[0]);
      StepKeepsSafe(bp, s, run[0]);
      StepSweeps(bp, s, run[0]);
      CleanupDropsClean(bp, Do(bp, s, run[0]), run[1..]);
    }
  }

  lemma {:induction false} GuardedAtLast(bp: Blueprint, s: System, run: seq<Action>)
    requires |s.history| > 0 && Legal(bp, s, run) && AlwaysGuarded(bp, s, run)
    ensures AllGuarded(bp, After(bp, s, run))
    decreases |run|
  {
    if run != [] {
      GuardedAtLast(bp, Do(bp, s, run[0]), run[1..]);
    }
  }

  // Over every run in which only the operator takes its finalizer off and the deletes of the
  // final cleanup take effect, a cluster-wide binding exists only while its custom resource
  // is stored with the finalizer.
  lemma {:induction false} BindingsNeverOutliveResource(
      bp: Blueprint, s: System, run: seq<Action>, i: Instance, g: Grant)
    requires Initial(bp, s) && AllGuarded(bp, s)
    requires Legal(bp, s, run) && FinalizersKept(bp, s, run) && AlwaysCleansUp(bp, s, run)
    requires i in s.workers
    ensures var now := After(bp, s, run).Now();
      bp.key(i, ClusterBinding(g)) in now.objects ==> Held(now, bp.key(i, Custom))
  {
    InitialInv(bp, s);
    InitiallySafe(bp, s);
    CleanupDropsClean(bp, s, run);
    FinalizerSafety(bp, s, run);
    GuardedAtLast(bp, s, run);
    RunKeepsInv(bp, s, run);
  }

  // A delete of the cleanup leaves its binding behind exactly when it is refused while the
  // binding stands; the worker goes on to the finalizer either way.
  lemma {:induction false} CleanupIgnoresFailure(bp: Blueprint, s: System, a: Action, g: Grant)
    requires Inv(bp, s) && a.Step? && Enabled(bp, s, a)
    requires AtCleanup(s.workers[a.i], g)
    ensures bp.key(a.i, ClusterBinding(g)) in Effect(bp, s, a).objects <==>
      a.outcome.Refused? && bp.key(a.i, ClusterBinding(g)) in s.Now().objects
    ensures Do(bp, s, a).workers[a.i] == Enter(s.workers[a.i].cr, s.workers[a.i].plan.rest, a.ch.now)
  {
  }

  // ---- One refused delete orphans a binding --------------------------------

  // A resource on its way out, with its manager binding still there.
  function DyingResource(spec: Spec): Object {
    Object(0, 0, Meta(map[], {}, {OperatorFinalizer}, true), Resource(spec, []))
  }

  function DyingStore(bp: Blueprint, i: Instance, spec: Spec): Store {
    Store(map[bp.key(i, Custom) := DyingResource(spec),
              bp.key(i, ClusterBinding(Manager)) :=
                Object(1, 1, Meta(map[], {}, {}, false), GrantBody(bp, i, Manager))],
          2, 2)
  }

  function DyingSystem(bp: Blueprint, i: Instance, spec: Spec): System {
    System([DyingStore(bp, i, spec)], map[i := Idle(false)], map[i := 0])
  }

  lemma DyingInitial(bp: Blueprint, i: Instance, spec: Spec)
    requires Sound(bp, {i})
    ensures Initial(bp, DyingSystem(bp, i, spec)) && AllGuarded(bp, DyingSystem(bp, i, spec))
  {
    var s := DyingSystem(bp, i, spec);
    var store := DyingStore(bp, i, spec);
    assert s.workers.Keys == {i};
    forall g | bp.key(i, ClusterBinding(g)) in store.objects
      ensures store.objects[bp.key(i, ClusterBinding(g))].body == GrantBody(bp, i, g) && Held(store, bp.key(i, Custom))
    {
      assert bp.key(i, Custom) != bp.key(i, ClusterBinding(g))
        && bp.key(i, Custom) != bp.key(i, ClusterBinding(Manager));
      assert bp.key(i, ClusterBinding(g)) == bp.key(i, ClusterBinding(Manager)) ==> g == Manager;
    }
  }

  lemma Precede(bp: Blueprint, s: System, a: Action, rest: seq<Action>)
    requires |s.history| > 0 && Enabled(bp, s, a) && KeepsFinalizers(bp, s, a)
    requires |Do(bp, s, a).history| > 0 && Legal(bp, Do(bp, s, a), rest) && FinalizersKept(bp, Do(bp, s, a), rest)
    ensures Legal(bp, s, [a] + rest) && FinalizersKept(bp, s, [a] + rest)
    ensures After(bp, s, [a] + rest) == After(bp, Do(bp, s, a), rest)
  {
    assert ([a] + rest)[0] == a && ([a] + rest)[1..] == rest;
  }

  // The state after some calls of the cleanup.
  ghost predicate MidCleanup(bp: Blueprint, i: Instance, s: System, spec: Spec, plan: Plan) {
    && |s.history| > 0 && s.Now() == DyingStore(bp, i, spec)
    && s.workers.Keys == {i} && s.floor.Keys == {i}
    && s.workers[i].Running? && s.workers[i].phase.Fresh?
    && s.workers[i].cr == DyingResource(spec) && s.workers[i].plan == plan
  }

  // The delete of the manager binding is refused, that of the other one finds nothing.
  lemma CleanupGoesOn(bp: Blueprint, i: Instance, s: System, spec: Spec, plan: Plan, a: Action)
    requires Sound(bp, {i}) && a.Step? && a.i == i && a.at == 0
    requires MidCleanup(bp, i, s, spec, plan)
    requires (plan == CleanupPlan() && a.outcome == Refused) || (plan == CleanupPlan().rest && a.outcome == Served)
    ensures Enabled(bp, s, a) && KeepsFinalizers(bp, s, a) && MidCleanup(bp, i, Do(bp, s, a), spec, plan.rest)
  {
    assert bp.key(i, ClusterBinding(K8sAuth)) != bp.key(i, ClusterBinding(Manager));
    assert bp.key(i, ClusterBinding(K8sAuth)) != bp.key(i, Custom);
    assert Effect(bp, s, a) == s.Now();
  }

  // Then the finalizer comes off, and with it the resource.
  lemma CleanupEnds(bp: Blueprint, i: Instance, s: System, spec: Spec, a: Action)
    requires Sound(bp, {i}) && a.Step? && a.i == i && a.at == 0 && a.outcome == Served
    requires MidCleanup(bp, i, s, spec, CleanupPlan().rest.rest)
    ensures Enabled(bp, s, a) && KeepsFinalizers(bp, s, a)
    ensures |Do(bp, s, a).history| > 0 && i in Do(bp, s, a).workers && !Guarded(bp, i, Do(bp, s, a).Now())
  {
    var key := bp.key(i, Custom);
    assert key != bp.key(i, ClusterBinding(Manager));
    assert NextRequest(bp, i, s.workers[i]) == Update(key, WithFinalizer(DyingResource(spec), false));
    assert WithFinalizer(DyingResource(spec), false).meta.finalizers == {};
    assert Do(bp, s, a).Now() == Remove(s.Now(), key);
    assert bp.key(i, ClusterBinding(Manager)) in Do(bp, s, a).Now().objects;
  }

  // The worker sets out to clean up.
  ghost predicate SetsOut(bp: Blueprint, i: Instance, s: System, spec: Spec, a: Action) {
    && |s.history| > 0 && Enabled(bp, s, Start(i)) && KeepsFinalizers(bp, s, Start(i))
    && var s1 := Do(bp, s, Start(i));
      |s1.history| > 0 && Enabled(bp, s1, a) && KeepsFinalizers(bp, s1, a)
      && MidCleanup(bp, i, Do(bp, s1, a), spec, CleanupPlan())
  }

  lemma CleanupBegins(bp: Blueprint, i: Instance, spec: Spec, a: Action)
    requires Sound(bp, {i}) && a.Step? && a.i == i && a.at == 0 && a.outcome == Served
    ensures SetsOut(bp, i, DyingSystem(bp, i, spec), spec, a)
  {
    assert bp.key(i, Custom) != bp.key(i, ClusterBinding(Manager));
  }

  // A run that leaves the binding behind.
  ghost predicate Orphans(bp: Blueprint, i: Instance, s: System, run: seq<Action>) {
    && |s.history| > 0 && Legal(bp, s, run) && FinalizersKept(bp, s, run)
    && !Guarded(bp, i, After(bp, s, run).Now())
  }

  lemma PrecedeOrphans(bp: Blueprint, i: Instance, s: System, a: Action, rest: seq<Action>)
    requires |s.history| > 0 && Enabled(bp, s, a) && KeepsFinalizers(bp, s, a) && Orphans(bp, i, Do(bp, s, a), rest)
    ensures Orphans(bp, i, s, [a] + rest)
  {
    Precede(bp, s, a, rest);
  }

  lemma PrecedeTwoOrphans(bp: Blueprint, i: Instance, s: System, a: Action, b: Action, rest: seq<Action>)
    requires |s.history| > 0 && Enabled(bp, s, a) && KeepsFinalizers(bp, s, a)
    requires var next := Do(bp, s, a);
      |next.history| > 0 && Enabled(bp, next, b) && KeepsFinalizers(bp, next, b)
        && Orphans(bp, i, Do(bp, next, b), rest)
    ensures Orphans(bp, i, s, [a, b] + rest)
  {
    PrecedeOrphans(bp, i, Do(bp, s, a), b, rest);
    PrecedeOrphans(bp, i, s, a, [b] + rest);
    assert [a] + ([b] + rest) == [a, b] + rest;
  }

  lemma EndOrphans(bp: Blueprint, i: Instance, s: System, spec: Spec, served: Action)
    requires Sound(bp, {i}) && served.Step? && served.i == i && served.at == 0 && served.outcome == Served
    requires MidCleanup(bp, i, s, spec, CleanupPlan().rest.rest)
    ensures Orphans(bp, i, s, [served])
  {
    CleanupEnds(bp, i, s, spec, served);
    assert Orphans(bp, i, Do(bp, s, served), []);
    PrecedeOrphans(bp, i, s, served, []);
    assert [served] + [] == [served];
  }

  // From the second delete on.
  lemma LateCleanupOrphans(bp: Blueprint, i: Instance, s: System, spec: Spec, served: Action)
    requires Sound(bp, {i}) && served.Step? && served.i == i && served.at == 0 && served.outcome == Served
    requires MidCleanup(bp, i, s, spec, CleanupPlan().rest)
    ensures Orphans(bp, i, s, [served, served])
  {
    CleanupGoesOn(bp, i, s, spec, CleanupPlan().rest, served);
    EndOrphans(bp, i, Do(bp, s, served), spec, served);
    PrecedeOrphans(bp, i, s, served, [served]);
    assert [served] + [served] == [served, served];
  }

  lemma CleanupOrphans(bp: Blueprint, i: Instance, s: System, spec: Spec, served: Action, refused: Action)
    requires Sound(bp, {i}) && served.Step? && served.i == i && served.at == 0 && served.outcome == Served
    requires refused == served.(outcome := Refused)
    requires MidCleanup(bp, i, s, spec, CleanupPlan())
    ensures Orphans(bp, i, s, [refused, served, served])
  {
    CleanupGoesOn(bp, i, s, spec, CleanupPlan(), refused);
    LateCleanupOrphans(bp, i, Do(bp, s, refused), spec, served);
    PrecedeOrphans(bp, i, s, refused, [served, served]);
    assert [refused] + [served, served] == [refused, served, served];
  }

  lemma RunOrphans(bp: Blueprint, i: Instance, s: System, spec: Spec, served: Action, refused: Action)
    requires Sound(bp, {i}) && served.Step? && served.i == i && served.at == 0 && served.outcome == Served
    requires refused == served.(outcome := Refused)
    requires SetsOut(bp, i, s, spec, served)
    ensures Orphans(bp, i, s, [Start(i), served] + [refused, served, served])
  {
    CleanupOrphans(bp, i, Do(bp, Do(bp, s, Start(i)), served), spec, served, refused);
    PrecedeTwoOrphans(bp, i, s, Start(i), served, [refused, served, served]);
  }

  // Whatever the blueprint, the spec and the surroundings: from a store in which everything
  // is guarded, one refused delete in an otherwise undisturbed pass leaves the manager
  // binding of a deleted resource behind.
  lemma {:induction false} OneRefusalOrphans(bp: Blueprint, i: Instance, spec: Spec, ch: Choice)
    returns (s: System, run: seq<Action>)
    requires Sound(bp, {i})
    ensures Initial(bp, s) && AllGuarded(bp, s)
    ensures run == [Start(i), Step(i, Served, 0, ch), Step(i, Refused, 0, ch), Step(i, Served, 0, ch),
                    Step(i, Served, 0, ch)]
    ensures Orphans(bp, i, s, run)
  {
    var served, refused := Step(i, Served, 0, ch), Step(i, Refused, 0, ch);
    s := DyingSystem(bp, i, spec);
    DyingInitial(bp, i, spec);
    CleanupBegins(bp, i, spec, served);
    RunOrphans(bp, i, s, spec, served, refused);
    run := [Start(i), served] + [refused, served, served];
  }
}
