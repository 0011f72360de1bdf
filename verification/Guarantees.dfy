// The protocol's guarantees with the operator's real names and manifests put in.
module Guarantees {
  import opened Text
  import opened Api
  import opened Objects
  import opened Cluster
  import opened Naming
  import opened Workloads
  import opened VisitOrder
  import opened Protocol
  import opened Isolation
  import opened Finalizers
  import opened Cleanup
  import opened ScopeSwitch
  import opened Exactness
  import opened WidePass
  import opened Undisturbed
  import opened Settling
  import opened Permissions
  import opened Convergence
  import opened Operator

  ghost predicate NoNamesClash(names: Spelling, h: Digest, instances: set<Instance>)
    requires Telling(names) && Labelled(instances)
  {
    forall i, j, g | i in instances && j in instances && i != j && i.ns == j.ns ::
      !CoresClash(h, i.ns, i.name, j.name, names.suffix(ClusterBinding(g)))
  }

  // Instances are independent exactly when no two of one namespace have clashing names: two
  // overlong names with the same kept part and digest, or a name that spells the cut form of
  // another. Across namespaces nothing can clash.
  lemma {:induction false} SoundUnlessNamesClash(
      names: Spelling, bp: Blueprint, h: Digest, images: Images, instances: set<Instance>)
    requires Describes(bp, names, h, images) && Telling(names) && Spelled(names) && Labelled(instances)
    ensures Sound(bp, instances) <==>
      NoNamesClash(names, h, instances)
  {
    SoundWith(names, bp, h, images, instances);
    forall i, j, g | i in instances && j in instances && i != j
      ensures KeyOf(names, h, i, ClusterBinding(g)) == KeyOf(names, h, j, ClusterBinding(g)) <==>
        i.ns == j.ns && CoresClash(h, i.ns, i.name, j.name, names.suffix(ClusterBinding(g)))
    {
      SharedBindingName(names, h, i, j, g);
    }
  }

  // The scope asks for a binding that one of the instance's old names spells.
  predicate SpellsItself(names: Spelling, h: Digest, i: Instance, wide: bool)
    requires BindingSuffix(names.suffix(ClusterBinding(Manager)))
      && BindingSuffix(names.suffix(ClusterBinding(K8sAuth)))
    requires NamespaceLabel(i.ns)
  {
    || FixedPoint(h, i.ns, i.name, names.suffix(ClusterBinding(K8sAuth)))
    || (wide && FixedPoint(h, i.ns, i.name, names.suffix(ClusterBinding(Manager))))
  }

  lemma MigratableUnlessSpelled(names: Spelling, bp: Blueprint, h: Digest, images: Images, i: Instance, wide: bool)
    requires Describes(bp, names, h, images) && Telling(names) && NamespaceLabel(i.ns)
    ensures Migratable(bp, i, wide) <==> !SpellsItself(names, h, i, wide)
  {
    ApartExactly(names, bp, h, images, i, K8sAuth);
    ApartExactly(names, bp, h, images, i, Manager);
  }

  // The permissions part of an undisturbed pass leaves all bindings as they should be unless
  // the name of the instance is a fixed point of cutting and hashing.
  lemma {:induction false} PermissionsUnlessSpelled(
      names: Spelling, bp: Blueprint, h: Digest, images: Images, instances: set<Instance>,
      i: Instance, cr: Object, store: Store, ch: Choice)
    requires Describes(bp, names, h, images) && Telling(names) && NamespaceLabel(i.ns)
    requires Sound(bp, instances) && i in instances
    requires cr.body.Resource? && Typed(store) && RolesInstalled(bp, store)
    ensures var o := OriginOf(cr);
      PermissionsStand(bp, i, o, Alone(bp, i, Enter(cr, PermissionsPlan(bp, i, o, End), ch.now), store, ch))
      <==> !SpellsItself(names, h, i, o.spec.clusterWide)
  {
    MigratableUnlessSpelled(names, bp, h, images, i, cr.body.spec.clusterWide);
    PermissionsPostcondition(bp, instances, i, cr, store, ch);
  }

  // What the two passes submit for the Deployment.
  lemma ApplicationsAgree(
      names: Spelling, bp: Blueprint, h: Digest, images: Images, i: Instance, o: Origin, v1: seq<string>,
      v2: seq<string>)
    requires Describes(bp, names, h, images)
    requires Enumerates(v1, o.spec.tracing.tags.Keys) && Enumerates(v2, o.spec.tracing.tags.Keys)
    ensures var d1, d2 := bp.application(i, o, v1), bp.application(i, o, v2);
      && d1.Some? == d2.Some?
      && (d1.Some? ==> SameUpToArgs(d1.value, d2.value))
      && (|o.spec.tracing.tags| <= 1 ==> d1 == d2)
  {
    DescribedApplication(names, bp, h, images, i, o, v1);
    DescribedApplication(names, bp, h, images, i, o, v2);
    VisitOrderOnlyPermutesArgs(i.name, i.ns, o.labels, o.spec, images, v1, v2);
  }

  // Convergence of the operator: a second undisturbed pass changes nothing but possibly the
  // order of the Deployment's tag arguments, and nothing at all with at most one tag - unless
  // both servers are without their secret and the passes check them in different orders,
  // when nothing changes but the message of the Ready condition.
  lemma {:induction false} ConvergesUpToTagOrder(
      names: Spelling, bp: Blueprint, h: Digest, images: Images, instances: set<Instance>,
      i: Instance, store: Store, ch1: Choice, ch2: Choice)
    requires Describes(bp, names, h, images) && Telling(names) && NamespaceLabel(i.ns)
    requires Sound(bp, instances) && i in instances
    requires Installable(store, bp.key(i, Custom)) && Typed(store)
    requires var o := OriginOf(store.objects[bp.key(i, Custom)]);
      && !SpellsItself(names, h, i, o.spec.clusterWide)
      && Enumerates(ch1.visit, o.spec.tracing.tags.Keys) && Enumerates(ch2.visit, o.spec.tracing.tags.Keys)
    ensures var o := OriginOf(store.objects[bp.key(i, Custom)]);
      var once := Pass(bp, i, store, ch1);
      var twice := Pass(bp, i, once, ch2);
      && (if Swapped(i, o.spec, store, ch1, ch2)
          then SameBut(once, twice, bp.key(i, Custom)) && OnlyMessageDiffers(once, twice, bp.key(i, Custom))
          else SameBut(once, twice, bp.key(i, Application))
               && AtMostApplied(once, twice, bp.application(i, o, ch2.visit)))
      && (bp.application(i, o, ch1.visit).Some? ==>
            && bp.application(i, o, ch2.visit).Some?
            && SameUpToArgs(bp.application(i, o, ch1.visit).value, bp.application(i, o, ch2.visit).value))
      && (|o.spec.tracing.tags| <= 1 ==> (twice == once <==> !Swapped(i, o.spec, store, ch1, ch2)))
  {
    var o := OriginOf(store.objects[bp.key(i, Custom)]);
    MigratableUnlessSpelled(names, bp, h, images, i, o.spec.clusterWide);
    ApplicationsAgree(names, bp, h, images, i, o, ch1.visit, ch2.visit);
    SecondPass(bp, instances, i, store, ch1, ch2);
  }

  // ---- Over runs -----------------------------------------------------------

  // All that is asked of the beginning of a run but names.
  ghost predicate StartsClean(bp: Blueprint, s: System) {
    && s.floor.Keys == s.workers.Keys
    && |s.history| == 1 && WellFormed(s.history[0])
    && (forall i | i in s.workers :: s.workers[i].Idle? && s.floor[i] == 0)
    && Isolated(bp, s.workers.Keys, s.history[0])
  }

  // Such a state begins the runs that the guarantees are about exactly when no names clash.
  lemma {:induction false} InitialUnlessNamesClash(names: Spelling, bp: Blueprint, h: Digest, images: Images, s: System)
    requires Describes(bp, names, h, images) && Telling(names) && Spelled(names) && Labelled(s.workers.Keys)
    requires StartsClean(bp, s)
    ensures Initial(bp, s) <==> NoNamesClash(names, h, s.workers.Keys)
  {
    SoundUnlessNamesClash(names, bp, h, images, s.workers.Keys);
  }

  // The binding of an instance by its real name, and what it should hold.
  function BindingKey(names: Spelling, h: Digest, i: Instance, g: Grant): Key {
    Key(ClusterRoleBindingKind, "", ClusterRoleBindingName(h, i.ns, i.name, names.suffix(ClusterBinding(g))))
  }

  function OwnGrant(i: Instance, g: Grant): Body {
    Binding(RoleRef(ClusterRoleKind, RoleFor(g)), [Subject(ServiceAccountKind, ServiceAccountName(i.name), i.ns)])
  }

  // Isolation of the operator: whatever happens, a binding that stands under an instance's
  // name grants its role to that instance's service account and to nobody else.
  lemma {:induction false} OperatorIsolates(
      names: Spelling, bp: Blueprint, h: Digest, images: Images, s: System, run: seq<Action>, i: Instance, g: Grant)
    requires Describes(bp, names, h, images) && Telling(names) && Spelled(names) && Labelled(s.workers.Keys)
    requires StartsClean(bp, s) && NoNamesClash(names, h, s.workers.Keys)
    requires Legal(bp, s, run) && i in s.workers
    ensures var now := After(bp, s, run).Now().objects;
      BindingKey(names, h, i, g) in now ==> now[BindingKey(names, h, i, g)].body == OwnGrant(i, g)
  {
    InitialUnlessNamesClash(names, bp, h, images, s);
    DescribedKeys(names, bp, h, images, i, g);
    IsolationOverRuns(bp, s, run, i);
  }

  // Finalizer safety of the operator.
  lemma {:induction false} OperatorGuards(
      names: Spelling, bp: Blueprint, h: Digest, images: Images, s: System, run: seq<Action>, i: Instance, g: Grant)
    requires Describes(bp, names, h, images) && Telling(names) && Spelled(names) && Labelled(s.workers.Keys)
    requires StartsClean(bp, s) && NoNamesClash(names, h, s.workers.Keys) && AllGuarded(bp, s)
    requires Legal(bp, s, run) && FinalizersKept(bp, s, run) && AlwaysCleansUp(bp, s, run) && i in s.workers
    ensures var now := After(bp, s, run).Now();
      BindingKey(names, h, i, g) in now.objects ==> Held(now, Key(AuthorinoKind, i.ns, i.name))
  {
    InitialUnlessNamesClash(names, bp, h, images, s);
    DescribedKeys(names, bp, h, images, i, g);
    BindingsNeverOutliveResource(bp, s, run, i, g);
  }

  // Going cluster-wide leaves no gap, over every run, for an instance whose name is no fixed
  // point for the manager suffix.
  lemma {:induction false} OperatorWidens(
      names: Spelling, bp: Blueprint, h: Digest, images: Images, s: System, run: seq<Action>, i: Instance)
    requires Describes(bp, names, h, images) && Telling(names) && NamespaceLabel(i.ns)
    requires Inv(bp, s) && Legal(bp, s, run) && i in s.workers
    requires !FixedPoint(h, i.ns, i.name, names.suffix(ClusterBinding(Manager)))
    requires s.workers[i].Idle? && Grants(bp, i, s.Now(), LocalKey(bp, i))
    requires Widening(bp, s, run, i, false)
    ensures Bound(bp, i, After(bp, s, run).Now())
  {
    ApartExactly(names, bp, h, images, i, Manager);
    NoGapWhenWidening(bp, s, run, i);
  }

  // And for no other: its undisturbed pass in cluster-wide scope ends without any.
  lemma {:induction false} WideUnlessSpelled(
      names: Spelling, bp: Blueprint, h: Digest, images: Images, instances: set<Instance>,
      i: Instance, store: Store, ch: Choice)
    requires Describes(bp, names, h, images) && Telling(names) && NamespaceLabel(i.ns)
    requires Sound(bp, instances) && i in instances
    requires Installable(store, bp.key(i, Custom)) && Typed(store) && RolesInstalled(bp, store)
    requires var spec := store.objects[bp.key(i, Custom)].body.spec;
      spec.clusterWide && SecretsThere(i, spec, store)
    ensures Bound(bp, i, Pass(bp, i, store, ch)) <==>
      !FixedPoint(h, i.ns, i.name, names.suffix(ClusterBinding(Manager)))
  {
    ApartExactly(names, bp, h, images, i, Manager);
    WidePassBound(bp, instances, i, store, ch);
  }
}
