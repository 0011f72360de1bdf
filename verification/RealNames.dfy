// The guarantees for the operator itself: its blueprint, with the constants of its code as
// the suffixes of names.
module RealNames {
  import opened Text
  import opened Api
  import opened Objects
  import opened Cluster
  import opened Naming
  import opened Workloads
  import opened VisitOrder
  import opened Protocol
  import opened Isolation
  import opened Finalizers
  import opened Cleanup
  import opened ScopeSwitch
  import opened Exactness
  import opened WidePass
  import opened Undisturbed
  import opened Settling
  import opened Permissions
  import opened Convergence
  import opened Operator
  import opened Guarantees

  function RealSuffix(g: Grant): (s: string)
    ensures BindingSuffix(s)
  {
    match g
    case Manager => MANAGER_BINDING_SUFFIX
    case K8sAuth => K8S_AUTH_BINDING_SUFFIX
  }

  function RealBinding(h: Digest, i: Instance, g: Grant): Key {
    Key(ClusterRoleBindingKind, "", ClusterRoleBindingName(h, i.ns, i.name, RealSuffix(g)))
  }

  ghost predicate RealNamesDiffer(h: Digest, instances: set<Instance>)
    requires Labelled(instances)
  {
    forall i, j, g | i in instances && j in instances && i != j && i.ns == j.ns ::
      !CoresClash(h, i.ns, i.name, j.name, RealSuffix(g))
  }

  // The name of the instance is a fixed point for a binding that its scope asks for.
  predicate RealFixedPoint(h: Digest, i: Instance, wide: bool)
    requires NamespaceLabel(i.ns)
  {
    || FixedPoint(h, i.ns, i.name, RealSuffix(K8sAuth))
    || (wide && FixedPoint(h, i.ns, i.name, RealSuffix(Manager)))
  }

  lemma RealSpelling(g: Grant)
    ensures OperatorSpelling().suffix(ClusterBinding(g)) == RealSuffix(g)
  {
  }

  lemma TheOperator(bp: Blueprint, h: Digest, images: Images) returns (names: Spelling)
    requires bp == OperatorBlueprint(h, images)
    ensures Describes(bp, names, h, images) && Telling(names) && Spelled(names)
    ensures forall g :: names.suffix(ClusterBinding(g)) == RealSuffix(g)
  {
    names := OperatorSpelling();
    OperatorDescribes(h, images);
    OperatorTelling();
    OperatorSpelled();
    forall g
      ensures names.suffix(ClusterBinding(g)) == RealSuffix(g)
    {
      RealSpelling(g);
    }
  }

  lemma SameClashes(names: Spelling, h: Digest, instances: set<Instance>)
    requires Telling(names) && Labelled(instances)
    requires forall g :: names.suffix(ClusterBinding(g)) == RealSuffix(g)
    ensures NoNamesClash(names, h, instances) <==> RealNamesDiffer(h, instances)
  {
  }

  // The operator's instances are independent exactly when no two of one namespace have
  // clashing names.
  lemma {:induction false} SoundExactly(bp: Blueprint, h: Digest, images: Images, instances: set<Instance>)
    requires bp == OperatorBlueprint(h, images) && Labelled(instances)
    ensures Sound(bp, instances) <==> RealNamesDiffer(h, instances)
  {
    var names := TheOperator(bp, h, images);
    SameClashes(names, h, instances);
    SoundUnlessNamesClash(names, bp, h, images, instances);
  }

  // ---- Over runs -----------------------------------------------------------

  // A clean state begins the runs that the guarantees are about exactly when no names clash.
  lemma {:induction false} InitialExactly(bp: Blueprint, h: Digest, images: Images, s: System)
    requires bp == OperatorBlueprint(h, images) && Labelled(s.workers.Keys) && StartsClean(bp, s)
    ensures Initial(bp, s) <==> RealNamesDiffer(h, s.workers.Keys)
  {
    var names := TheOperator(bp, h, images);
    SameClashes(names, h, s.workers.Keys);
    InitialUnlessNamesClash(names, bp, h, images, s);
  }

  // Whatever happens, a binding that stands under an instance's name grants its role to that
  // instance's service account and to nobody else.
  lemma {:induction false} Isolates(
      bp: Blueprint, h: Digest, images: Images, s: System, run: seq<Action>, i: Instance, g: Grant)
    requires bp == OperatorBlueprint(h, images) && Labelled(s.workers.Keys)
    requires StartsClean(bp, s) && RealNamesDiffer(h, s.workers.Keys)
    requires Legal(bp, s, run) && i in s.workers
    ensures var now := After(bp, s, run).Now().objects;
      RealBinding(h, i, g) in now ==> now[RealBinding(h, i, g)].body == OwnGrant(i, g)
  {
    var names := TheOperator(bp, h, images);
    SameClashes(names, h, s.workers.Keys);
    OperatorIsolates(names, bp, h, images, s, run, i, g);
  }

  // If no delete of a clean-up is refused while its binding stands, a binding stands only
  // beside the Authorino resource of that namespace and name, which has the finalizer.
  lemma {:induction false} Guards(
      bp: Blueprint, h: Digest, images: Images, s: System, run: seq<Action>, i: Instance, g: Grant)
    requires bp == OperatorBlueprint(h, images) && Labelled(s.workers.Keys)
    requires StartsClean(bp, s) && RealNamesDiffer(h, s.workers.Keys) && AllGuarded(bp, s)
    requires Legal(bp, s, run) && FinalizersKept(bp, s, run) && AlwaysCleansUp(bp, s, run) && i in s.workers
    ensures var now := After(bp, s, run).Now();
      RealBinding(h, i, g) in now.objects ==> Held(now, Key(AuthorinoKind, i.ns, i.name))
  {
    var names := TheOperator(bp, h, images);
    SameClashes(names, h, s.workers.Keys);
    OperatorGuards(names, bp, h, images, s, run, i, g);
  }

  // Going cluster-wide leaves no gap for an instance whose name is no fixed point for the
  // manager suffix,
  lemma {:induction false} Widens(bp: Blueprint, h: Digest, images: Images, s: System, run: seq<Action>, i: Instance)
    requires bp == OperatorBlueprint(h, images) && NamespaceLabel(i.ns)
    requires Inv(bp, s) && Legal(bp, s, run) && i in s.workers
    requires !FixedPoint(h, i.ns, i.name, RealSuffix(Manager))
    requires s.workers[i].Idle? && Grants(bp, i, s.Now(), LocalKey(bp, i))
    requires Widening(bp, s, run, i, false)
    ensures Bound(bp, i, After(bp, s, run).Now())
  {
    var names := TheOperator(bp, h, images);
    OperatorWidens(names, bp, h, images, s, run, i);
  }

  // ---- Over undisturbed passes ---------------------------------------------

  // and for no other.
  lemma {:induction false} WidensExactly(
      bp: Blueprint, h: Digest, images: Images, instances: set<Instance>, i: Instance, store: Store, ch: Choice)
    requires bp == OperatorBlueprint(h, images) && NamespaceLabel(i.ns)
    requires Sound(bp, instances) && i in instances
    requires Installable(store, bp.key(i, Custom)) && Typed(store) && RolesInstalled(bp, store)
    requires var spec := store.objects[bp.key(i, Custom)].body.spec;
      spec.clusterWide && SecretsThere(i, spec, store)
    ensures Bound(bp, i, Pass(bp, i, store, ch)) <==> !FixedPoint(h, i.ns, i.name, RealSuffix(Manager))
  {
    var names := TheOperator(bp, h, images);
    WideUnlessSpelled(names, bp, h, images, instances, i, store, ch);
  }

  // The permissions part leaves all bindings as they should be exactly for names that are no
  // fixed point.
  lemma {:induction false} PermitsExactly(
      bp: Blueprint, h: Digest, images: Images, instances: set<Instance>,
      i: Instance, cr: Object, store: Store, ch: Choice)
    requires bp == OperatorBlueprint(h, images) && NamespaceLabel(i.ns)
    requires Sound(bp, instances) && i in instances
    requires cr.body.Resource? && Typed(store) && RolesInstalled(bp, store)
    ensures var o := OriginOf(cr);
      PermissionsStand(bp, i, o, Alone(bp, i, Enter(cr, PermissionsPlan(bp, i, o, End), ch.now), store, ch))
      <==> !RealFixedPoint(h, i, o.spec.clusterWide)
  {
    var names := TheOperator(bp, h, images);
    PermissionsUnlessSpelled(names, bp, h, images, instances, i, cr, store, ch);
  }

  // A second pass changes nothing but possibly the order of the Deployment's tag arguments,
  // and with at most one tag nothing at all - unless both servers are without their secret
  // and the passes check them in different orders, when the message of Ready changes.
  lemma {:induction false} Converges(
      bp: Blueprint, h: Digest, images: Images, instances: set<Instance>,
      i: Instance, store: Store, ch1: Choice, ch2: Choice)
    requires bp == OperatorBlueprint(h, images) && NamespaceLabel(i.ns)
    requires Sound(bp, instances) && i in instances
    requires Installable(store, bp.key(i, Custom)) && Typed(store)
    requires var o := OriginOf(store.objects[bp.key(i, Custom)]);
      && !RealFixedPoint(h, i, o.spec.clusterWide)
      && Enumerates(ch1.visit, o.spec.tracing.tags.Keys) && Enumerates(ch2.visit, o.spec.tracing.tags.Keys)
    ensures var o := OriginOf(store.objects[bp.key(i, Custom)]);
      var once := Pass(bp, i, store, ch1);
      var twice := Pass(bp, i, once, ch2);
      && (if Swapped(i, o.spec, store, ch1, ch2)
          then SameBut(once, twice, bp.key(i, Custom)) && OnlyMessageDiffers(once, twice, bp.key(i, Custom))
          else SameBut(once, twice, bp.key(i, Application))
               && AtMostApplied(once, twice, bp.application(i, o, ch2.visit)))
      && (bp.application(i, o, ch1.visit).Some? ==>
            && bp.application(i, o, ch2.visit).Some?
            && SameUpToArgs(bp.application(i, o, ch1.visit).value, bp.application(i, o, ch2.visit).value))
      && (|o.spec.tracing.tags| <= 1 ==> (twice == once <==> !Swapped(i, o.spec, store, ch1, ch2)))
  {
    var names := TheOperator(bp, h, images);
    ConvergesUpToTagOrder(names, bp, h, images, instances, i, store, ch1, ch2);
  }
}
