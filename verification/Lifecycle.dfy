// The finalizer through the life of a custom resource: a pass over a new one adds it, a pass
// over one on its way out takes it off, and nothing else of the resource changes.
module Lifecycle {
  import opened Text
  import opened Api
  import opened Objects
  import opened Cluster
  import opened Protocol
  import opened Isolation
  import opened Finalizers
  import opened Undisturbed
  import opened Convergence

  // The resource is as it was but for its version and its finalizers.
  predicate OnlyFinalizers(before: Object, after: Object, finalizers: set<Finalizer>) {
    after == before.(version := after.version, meta := before.meta.(finalizers := finalizers))
  }

  // ---- Undisturbed passes --------------------------------------------------

  // The update of the finalizer, once the resource is as fetched.
  lemma UpdateAlone(bp: Blueprint, i: Instance, store: Store, cr: Object, present: bool, ch: Choice)
    requires var key := bp.key(i, Custom);
      key in store.objects && store.objects[key] == cr
    ensures var w := Running(cr, Then(PutFinalizer(present), End), Fresh, ch.now);
      Alone(bp, i, w, store, ch) == Serve(store, NextRequest(bp, i, w)).0
  {
    var w := Running(cr, Then(PutFinalizer(present), End), Fresh, ch.now);
    AloneUnfolds(bp, i, w, store, ch);
  }

  lemma UpdateServed(store: Store, key: Key, cr: Object, finalizers: set<Finalizer>)
    requires key in store.objects && store.objects[key] == cr
    ensures var after := Serve(store, Update(key, cr.(meta := cr.meta.(finalizers := finalizers)))).0;
      && SameBut(store, after, key)
      && (key in after.objects <==> !cr.meta.deleting || finalizers != {})
      && (key in after.objects ==> OnlyFinalizers(cr, after.objects[key], finalizers))
  {
  }

  // A pass over a resource that has not got the operator's finalizer yet, and is not being
  // deleted, adds it and does nothing else: the resource keeps its other finalizers, its
  // labels, owners, spec and conditions. From then on passes install it.
  lemma {:induction false} NewResourceIsHeld(bp: Blueprint, i: Instance, store: Store, ch: Choice)
    requires var key := bp.key(i, Custom);
      && key in store.objects
      && !store.objects[key].meta.deleting && OperatorFinalizer !in store.objects[key].meta.finalizers
    ensures var key := bp.key(i, Custom);
      var before, after := store.objects[key], Pass(bp, i, store, ch);
      && SameBut(store, after, key) && key in after.objects
      && OnlyFinalizers(before, after.objects[key], before.meta.finalizers + {OperatorFinalizer})
      && (before.body.Resource? ==> Installable(after, key))
  {
    var key := bp.key(i, Custom);
    var cr := store.objects[key];
    UpdateAlone(bp, i, store, cr, true, ch);
    UpdateServed(store, key, cr, cr.meta.finalizers + {OperatorFinalizer});
  }

  // The two deletes that come first.
  function Unbound(bp: Blueprint, i: Instance, store: Store): Store {
    var once := Serve(store, Delete(bp.key(i, ClusterBinding(Manager)), None)).0;
    Serve(once, Delete(bp.key(i, ClusterBinding(K8sAuth)), None)).0
  }

  lemma UnboundObjects(bp: Blueprint, i: Instance, store: Store)
    ensures Unbound(bp, i, store).objects ==
      store.objects - {bp.key(i, ClusterBinding(Manager)), bp.key(i, ClusterBinding(K8sAuth))}
  {
  }

  lemma CleanupAlone(bp: Blueprint, i: Instance, store: Store, cr: Object, ch: Choice)
    ensures Alone(bp, i, Running(cr, CleanupPlan(), Fresh, ch.now), store, ch)
         == Alone(bp, i, Running(cr, Then(PutFinalizer(false), End), Fresh, ch.now), Unbound(bp, i, store), ch)
  {
    var w := Running(cr, CleanupPlan(), Fresh, ch.now);
    AloneUnfolds(bp, i, w, store, ch);
    var (w1, store1) := AloneStep(bp, i, w, store, ch);
    AloneUnfolds(bp, i, w1, store1, ch);
  }

  // A pass over a resource that is being deleted and has the operator's finalizer removes
  // the two cluster-wide bindings and takes that finalizer off; foreign finalizers stay, and
  // the resource is gone exactly if there are none. Everything else is as it was.
  lemma {:induction false} DyingResourceIsReleased(
      bp: Blueprint, instances: set<Instance>, i: Instance, store: Store, ch: Choice)
    requires Sound(bp, instances) && i in instances
    requires var key := bp.key(i, Custom);
      && key in store.objects
      && store.objects[key].meta.deleting && OperatorFinalizer in store.objects[key].meta.finalizers
    ensures var key := bp.key(i, Custom);
      var before, after := store.objects[key], Pass(bp, i, store, ch);
      var left := before.meta.finalizers - {OperatorFinalizer};
      && (key in after.objects <==> left != {})
      && (key in after.objects ==> OnlyFinalizers(before, after.objects[key], left))
      && (forall g :: bp.key(i, ClusterBinding(g)) !in after.objects)
      && (forall other | other != key && forall g :: other != bp.key(i, ClusterBinding(g)) ::
            && (other in after.objects <==> other in store.objects)
            && (other in after.objects ==> after.objects[other] == store.objects[other]))
  {
    var key := bp.key(i, Custom);
    var cr := store.objects[key];
    var unbound := Unbound(bp, i, store);
    CleanupAlone(bp, i, store, cr, ch);
    UnboundObjects(bp, i, store);
    assert forall g :: key != bp.key(i, ClusterBinding(g)) by {
      assert SlotKind(Custom, key.kind);
      assert forall g :: SlotKind(ClusterBinding(g), bp.key(i, ClusterBinding(g)).kind);
    }
    UpdateAlone(bp, i, unbound, cr, false, ch);
    UpdateServed(unbound, key, cr, cr.meta.finalizers - {OperatorFinalizer});
    forall g
      ensures bp.key(i, ClusterBinding(g)) !in unbound.objects
    {
      assert g == Manager || g == K8sAuth;
    }
  }

  // A pass leaves everything as it is where there is no resource, or one being deleted that
  // only others still hold.
  lemma {:induction false} NothingToDo(bp: Blueprint, i: Instance, store: Store, ch: Choice)
    requires var key := bp.key(i, Custom);
      key in store.objects ==>
        store.objects[key].meta.deleting && OperatorFinalizer !in store.objects[key].meta.finalizers
    ensures Pass(bp, i, store, ch) == store
  {
  }

  // ---- Over runs -----------------------------------------------------------

  // What a worker knows of the resource it works for.
  ghost predicate Informed(bp: Blueprint, i: Instance, history: seq<Store>, w: Worker) {
    w.Running? ==>
      && Seen(history, bp.key(i, Custom), w.cr)
      && (|| Installing(w)
          || (Cleaning(w) && OperatorFinalizer in w.cr.meta.finalizers)
          || (Adding(w) && !w.cr.meta.deleting && OperatorFinalizer !in w.cr.meta.finalizers))
  }

  ghost predicate AllInformed(bp: Blueprint, s: System) {
    forall i | i in s.workers :: Informed(bp, i, s.history, s.workers[i])
  }

  lemma DispatchInforms(bp: Blueprint, i: Instance, history: seq<Store>, cr: Object, ch: Choice)
    requires Seen(history, bp.key(i, Custom), cr)
    ensures Informed(bp, i, history, Dispatch(bp, i, cr, ch))
  {
    if cr.body.Resource? {
      InstallPlanInstalls(bp, i, OriginOf(cr), ch);
      EnterKeeps(cr, InstallPlan(bp, i, OriginOf(cr), ch), ch.now);
    }
  }

  lemma AdvanceInformed(bp: Blueprint, i: Instance, history: seq<Store>, w: Worker, resp: Response, ch: Choice)
    requires w.Running? && Informed(bp, i, history, w)
    ensures Informed(bp, i, history, Advance(bp, i, w, resp, ch))
  {
    if Installing(w) {
      InstallingAdvances(bp, i, w, resp, ch);
    }
  }

  lemma InformedGrows(bp: Blueprint, i: Instance, history: seq<Store>, next: Store, w: Worker)
    requires Informed(bp, i, history, w)
    ensures Informed(bp, i, history + [next], w)
  {
    if w.Running? {
      SeenGrows(history, next, bp.key(i, Custom), w.cr);
    }
  }

  lemma CallerInformed(bp: Blueprint, s: System, a: Action)
    requires Inv(bp, s) && a.Step? && Enabled(bp, s, a) && Informed(bp, a.i, s.history, s.workers[a.i])
    ensures Informed(bp, a.i, Do(bp, s, a).history, Do(bp, s, a).workers[a.i])
  {
    var w := s.workers[a.i];
    var r := NextRequest(bp, a.i, w);
    var (store, resp) := Answer(s, r, a.outcome, a.at);
    if w.Running? {
      AdvanceInformed(bp, a.i, s.history, w, resp, a.ch);
    } else if resp.Found? {
      AnswerSeen(s, r, a.outcome, a.at);
      DispatchInforms(bp, a.i, s.history, resp.obj, a.ch);
    }
    InformedGrows(bp, a.i, s.history, store, Do(bp, s, a).workers[a.i]);
  }

  lemma StepInforms(bp: Blueprint, s: System, a: Action)
    requires Inv(bp, s) && AllInformed(bp, s) && Enabled(bp, s, a)
    ensures |Do(bp, s, a).history| > 0 && AllInformed(bp, Do(bp, s, a))
  {
    var next := Do(bp, s, a);
    forall i | i in next.workers
      ensures Informed(bp, i, next.history, next.workers[i])
    {
      if a.Step? && a.i == i {
        CallerInformed(bp, s, a);
      } else if next.history != s.history {
        InformedGrows(bp, i, s.history, next.Now(), s.workers[i]);
        assert next.history == s.history + [next.Now()];
      }
    }
  }

  lemma {:induction false} RunInforms(bp: Blueprint, s: System, run: seq<Action>)
    requires Inv(bp, s) && AllInformed(bp, s) && Legal(bp, s, run)
    ensures AllInformed(bp, After(bp, s, run))
    decreases |run|
  {
    if run != [] {
      StepKeepsInv(bp, s, run[0]);
      StepInforms(bp, s, run[0]);
      RunInforms(bp, Do(bp, s, run[0]), run[1..]);
    }
  }

  // What an update asks for, in terms of the resource that was fetched.
  lemma UpdateRequest(bp: Blueprint, i: Instance, history: seq<Store>, w: Worker)
    requires Informed(bp, i, history, w) && NextRequest(bp, i, w).Update?
    ensures w.Running?
    ensures var finalizers := if w.cr.meta.deleting then w.cr.meta.finalizers - {OperatorFinalizer}
                              else w.cr.meta.finalizers + {OperatorFinalizer};
      NextRequest(bp, i, w) == Update(bp.key(i, Custom), w.cr.(meta := w.cr.meta.(finalizers := finalizers)))
    ensures w.cr.meta.deleting <==> OperatorFinalizer in w.cr.meta.finalizers
  {
  }

  // Over every run, an update by a worker - whatever happened since it read the resource -
  // either changes nothing at all, or it finds the very resource it read and moves the
  // operator's finalizer and nothing else: on to one that is live, off one that is being
  // deleted, which goes away exactly if no other finalizer is left.
  lemma {:induction false} UpdateMovesOnlyFinalizer(bp: Blueprint, s: System, run: seq<Action>, a: Action)
    requires Initial(bp, s) && Legal(bp, s, run) && a.Step? && a.i in s.workers
    requires var r := After(bp, s, run);
      Enabled(bp, r, a) && NextRequest(bp, a.i, r.workers[a.i]).Update?
    ensures var r, key := After(bp, s, run), bp.key(a.i, Custom);
      var now, after := r.Now(), Effect(bp, r, a);
      after == now ||
      (&& key in now.objects && SameBut(now, after, key)
       && var before := now.objects[key];
         if before.meta.deleting then
           && OperatorFinalizer in before.meta.finalizers
           && (key in after.objects <==> before.meta.finalizers - {OperatorFinalizer} != {})
           && (key in after.objects ==>
                 OnlyFinalizers(before, after.objects[key], before.meta.finalizers - {OperatorFinalizer}))
         else
           && OperatorFinalizer !in before.meta.finalizers && key in after.objects
           && OnlyFinalizers(before, after.objects[key], before.meta.finalizers + {OperatorFinalizer}))
  {
    InitialInv(bp, s);
    RunKeepsInv(bp, s, run);
    RunInforms(bp, s, run);
    var r, key := After(bp, s, run), bp.key(a.i, Custom);
    var w := r.workers[a.i];
    UpdateRequest(bp, a.i, r.history, w);
    UpdateEffect(r.history, key, w.cr, a.outcome);
  }

  lemma UpdateEffect(history: seq<Store>, key: Key, cr: Object, outcome: Outcome)
    requires HistoryOk(history) && Seen(history, key, cr)
    ensures var finalizers := if cr.meta.deleting then cr.meta.finalizers - {OperatorFinalizer}
                              else cr.meta.finalizers + {OperatorFinalizer};
      var now := history[|history| - 1];
      var after := Call(now, Update(key, cr.(meta := cr.meta.(finalizers := finalizers))), outcome).0;
      after == now ||
      (&& key in now.objects && now.objects[key] == cr && SameBut(now, after, key)
       && (key in after.objects <==> !cr.meta.deleting || finalizers != {})
       && (key in after.objects ==> OnlyFinalizers(cr, after.objects[key], finalizers)))
  {
    var finalizers := if cr.meta.deleting then cr.meta.finalizers - {OperatorFinalizer}
                      else cr.meta.finalizers + {OperatorFinalizer};
    var now := history[|history| - 1];
    if key in now.objects && now.objects[key].version == cr.version {
      SeenIsCurrent(history, key, cr);
      UpdateServed(now, key, cr, finalizers);
    }
  }
}
