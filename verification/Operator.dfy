// The operator's own blueprint: how instances really name and describe their objects, and
// when that makes them independent of one another.
module Operator {
  import opened Text
  import opened Api
  import opened Objects
  import opened Naming
  import opened Rbac
  import opened Services
  import opened Workloads
  import opened Protocol
  import opened Isolation
  import opened Settling

  // ---- The blueprint -------------------------------------------------------

  // The constants of consts.go: what the name of an object adds to that of its instance (for
  // the shared Role, the whole name), and the rules of that Role.
  datatype Spelling = Spelling(suffix: Slot -> string, rules: seq<PolicyRule>)

  function SuffixOf(slot: Slot): string {
    match slot
    case AuthService => AUTH_SERVICE
    case OidcService => OIDC_SERVICE
    case MetricsService => METRICS_SERVICE
    case ClusterBinding(Manager) => MANAGER_BINDING_SUFFIX
    case LegacyBinding(Manager) => MANAGER_BINDING_SUFFIX
    case ClusterBinding(K8sAuth) => K8S_AUTH_BINDING_SUFFIX
    case LegacyBinding(K8sAuth) => K8S_AUTH_BINDING_SUFFIX
    case ManagerBinding => MANAGER_BINDING_SUFFIX
    case LeaderBinding => LEADER_ELECTION_BINDING_SUFFIX
    case LeaderRole => LEADER_ELECTION_ROLE
    case Custom | Account | Application => ""
  }

  function OperatorSpelling(): Spelling {
    Spelling(slot => SuffixOf(slot), GetLeaderElectionRules())
  }

  function KeyOf(names: Spelling, h: Digest, i: Instance, slot: Slot): Key {
    match slot
    case Custom => Key(AuthorinoKind, i.ns, i.name)
    case AuthService | OidcService | MetricsService => Key(ServiceKind, i.ns, i.name + "-" + names.suffix(slot))
    case Account => Key(ServiceAccountKind, i.ns, ServiceAccountName(i.name))
    case ClusterBinding(_) =>
      Key(ClusterRoleBindingKind, "", ClusterRoleBindingName(h, i.ns, i.name, names.suffix(slot)))
    case LegacyBinding(_) => Key(ClusterRoleBindingKind, "", RoleBindingName(i.name, names.suffix(slot)))
    case ManagerBinding | LeaderBinding => Key(RoleBindingKind, i.ns, RoleBindingName(i.name, names.suffix(slot)))
    case LeaderRole => Key(RoleKind, i.ns, names.suffix(slot))
    case Application => Key(DeploymentKind, i.ns, i.name)
  }

  function AccountOf(i: Instance, labels: map<string, string>): Manifest {
    GetAuthorinoServiceAccount(i.ns, i.name, labels)
  }

  // A Service is described by one of the endpoints it exposes.
  function EndpointOf(slot: Slot): Endpoint {
    if slot.AuthService? then GrpcEndpoint else if slot.OidcService? then OidcEndpoint else MetricsEndpoint
  }

  function ServiceManifest(i: Instance, o: Origin, slot: Slot): Manifest {
    EndpointService(EndpointOf(slot), i.name, i.ns, o.spec, o.labels)
  }

  // Cluster-wide bindings have no owner; everything else is owned by the custom resource.
  function ManifestOf(names: Spelling, h: Digest, i: Instance, o: Origin, slot: Slot): Manifest {
    match slot
    case AuthService | OidcService | MetricsService => Owned(ServiceManifest(i, o, slot), o.uid)
    case Account => Owned(AccountOf(i, o.labels), o.uid)
    case ClusterBinding(g) =>
      GetAuthorinoClusterRoleBinding(h, i.ns, i.name, names.suffix(slot), RoleFor(g), AccountOf(i, o.labels), o.labels)
    case ManagerBinding =>
      Owned(GetAuthorinoRoleBinding(i.ns, i.name, names.suffix(slot), ClusterRoleKind, ManagerRole,
                                    AccountOf(i, o.labels), o.labels), o.uid)
    case LeaderRole => Owned(LeaderRoleManifest(i.ns, names.suffix(LeaderRole), names.rules), o.uid)
    case LeaderBinding =>
      Owned(GetAuthorinoRoleBinding(i.ns, i.name, names.suffix(slot), RoleKind, LeaderElectionRole,
                                    AccountOf(i, o.labels), o.labels), o.uid)
    // Not created from a manifest of this kind.
    case Custom | LegacyBinding(_) | Application => Manifest(KeyOf(names, h, i, slot), map[], map[], None, Empty)
  }

  function ApplicationOf(images: Images, i: Instance, o: Origin, visit: seq<string>): Option<Manifest> {
    match DeploymentOf(i.name, i.ns, o.labels, o.spec, images, visit)
    case None => None
    case Some(m) => Some(Owned(m, o.uid))
  }

  function ClusterRoleKey(g: Grant): Key {
    match g
    case Manager => Key(ClusterRoleKind, "", "authorino-manager-role")
    case K8sAuth => Key(ClusterRoleKind, "", "authorino-manager-k8s-auth-role")
  }

  function OperatorBlueprint(h: Digest, images: Images): Blueprint {
    var names := OperatorSpelling();
    Blueprint(
      (i, slot) => KeyOf(names, h, i, slot),
      i => GetSubjectForRoleBinding(AccountOf(i, map[])),
      g => ClusterRoleKey(g),
      (i, o, slot) => ManifestOf(names, h, i, o, slot),
      (i, o, visit) => ApplicationOf(images, i, o, visit))
  }

  // The cluster role that is looked for is the one that the bindings refer to.
  lemma CheckedRoleIsBound(names: Spelling, bp: Blueprint, h: Digest, images: Images, i: Instance, o: Origin, g: Grant)
    requires Describes(bp, names, h, images)
    ensures bp.manifest(i, o, ClusterBinding(g)).body.Binding?
    ensures var roleRef := bp.manifest(i, o, ClusterBinding(g)).body.roleRef;
      bp.clusterRole(g) == Key(roleRef.kind, "", RoleText(roleRef.role))
    ensures g == Manager ==>
      && bp.manifest(i, o, ManagerBinding).body.Binding?
      && bp.manifest(i, o, ManagerBinding).body.roleRef == bp.manifest(i, o, ClusterBinding(g)).body.roleRef
  {
    DescribedClusterBinding(names, bp, h, images, i, o, g);
    DescribedRoleBindings(names, bp, h, images, i, o);
  }

  // Everything in the namespace of the custom resource is owned by it, and so collected with
  // it; cluster-wide bindings cannot be. Accounts and bindings carry its labels.
  lemma Ownership(names: Spelling, bp: Blueprint, h: Digest, images: Images, i: Instance, o: Origin, slot: Slot)
    requires Describes(bp, names, h, images) && Managed(slot)
    ensures slot != Application ==>
      bp.manifest(i, o, slot).owner == if slot.ClusterBinding? then None else Some(o.uid)
    ensures slot.Account? || slot.ClusterBinding? || slot.ManagerBinding? || slot.LeaderBinding? ==>
      bp.manifest(i, o, slot).labels == o.labels
    ensures forall visit | bp.application(i, o, visit).Some? :: bp.application(i, o, visit).value.owner == Some(o.uid)
  {
  }

  // A blueprint that names and describes objects as above.
  ghost predicate Names(key: (Instance, Slot) -> Key, names: Spelling, h: Digest) {
    forall i, slot :: key(i, slot) == KeyOf(names, h, i, slot)
  }

  ghost predicate Describes(bp: Blueprint, names: Spelling, h: Digest, images: Images) {
    && Names(bp.key, names, h)
    && (forall i :: bp.subject(i) == Subject(ServiceAccountKind, ServiceAccountName(i.name), i.ns))
    && (forall g :: bp.clusterRole(g) == ClusterRoleKey(g))
    && (forall i, o, slot :: bp.manifest(i, o, slot) == ManifestOf(names, h, i, o, slot))
    && (forall i, o, visit :: bp.application(i, o, visit) == ApplicationOf(images, i, o, visit))
  }

  lemma OperatorDescribes(h: Digest, images: Images)
    ensures Describes(OperatorBlueprint(h, images), OperatorSpelling(), h, images)
  {
  }

  // The manifests of the blueprint are what the constructors make.
  lemma DescribedClusterBinding(
      names: Spelling, bp: Blueprint, h: Digest, images: Images, i: Instance, o: Origin, g: Grant)
    requires Describes(bp, names, h, images)
    ensures bp.manifest(i, o, ClusterBinding(g)) == GetAuthorinoClusterRoleBinding(
      h, i.ns, i.name, names.suffix(ClusterBinding(g)), RoleFor(g), AccountOf(i, o.labels), o.labels)
  {
  }

  lemma DescribedRoleBindings(names: Spelling, bp: Blueprint, h: Digest, images: Images, i: Instance, o: Origin)
    requires Describes(bp, names, h, images)
    ensures bp.manifest(i, o, ManagerBinding) == Owned(GetAuthorinoRoleBinding(
      i.ns, i.name, names.suffix(ManagerBinding), ClusterRoleKind, ManagerRole,
      AccountOf(i, o.labels), o.labels), o.uid)
    ensures bp.manifest(i, o, LeaderBinding) == Owned(GetAuthorinoRoleBinding(
      i.ns, i.name, names.suffix(LeaderBinding), RoleKind, LeaderElectionRole, AccountOf(i, o.labels), o.labels), o.uid)
  {
  }

  lemma DescribedOthers(names: Spelling, bp: Blueprint, h: Digest, images: Images, i: Instance, o: Origin)
    requires Describes(bp, names, h, images)
    ensures bp.manifest(i, o, Account) == Owned(AccountOf(i, o.labels), o.uid)
    ensures bp.manifest(i, o, LeaderRole)
      == Owned(LeaderRoleManifest(i.ns, names.suffix(LeaderRole), names.rules), o.uid)
  {
  }

  lemma DescribedServices(names: Spelling, bp: Blueprint, h: Digest, images: Images, i: Instance, o: Origin, slot: Slot)
    requires Describes(bp, names, h, images) && ServiceSlot(slot)
    ensures bp.manifest(i, o, slot) == Owned(ServiceManifest(i, o, slot), o.uid)
  {
  }

  lemma DescribedApplication(
      names: Spelling, bp: Blueprint, h: Digest, images: Images, i: Instance, o: Origin, visit: seq<string>)
    requires Describes(bp, names, h, images)
    ensures var d := DeploymentOf(i.name, i.ns, o.labels, o.spec, images, visit);
      bp.application(i, o, visit) == if d == None then None else Some(Owned(d.value, o.uid))
  {
  }

  lemma DescribedKeys(names: Spelling, bp: Blueprint, h: Digest, images: Images, i: Instance, g: Grant)
    requires Describes(bp, names, h, images)
    ensures bp.key(i, ClusterBinding(g)) ==
      Key(ClusterRoleBindingKind, "", ClusterRoleBindingName(h, i.ns, i.name, names.suffix(ClusterBinding(g))))
    ensures bp.key(i, LegacyBinding(g))
      == Key(ClusterRoleBindingKind, "", RoleBindingName(i.name, names.suffix(LegacyBinding(g))))
    ensures bp.key(i, Custom) == Key(AuthorinoKind, i.ns, i.name)
    ensures bp.subject(i) == Subject(ServiceAccountKind, ServiceAccountName(i.name), i.ns)
  {
  }

  // ---- What the suffixes must be like --------------------------------------

  predicate EndDifferently(s: string, t: string) {
    s != "" && t != "" && s[|s| - 1] != t[|t| - 1]
  }

  ghost predicate Telling(names: Spelling) {
    && EndDifferently(names.suffix(AuthService), names.suffix(OidcService))
    && EndDifferently(names.suffix(AuthService), names.suffix(MetricsService))
    && EndDifferently(names.suffix(OidcService), names.suffix(MetricsService))
    && EndDifferently(names.suffix(ManagerBinding), names.suffix(LeaderBinding))
    && (forall g ::
          && BindingSuffix(names.suffix(ClusterBinding(g)))
          && names.suffix(LegacyBinding(g)) == names.suffix(ClusterBinding(g)))
    && names.suffix(ClusterBinding(Manager)) != names.suffix(ClusterBinding(K8sAuth))
  }

  lemma OperatorTelling()
    ensures Telling(OperatorSpelling())
  {
    var names := OperatorSpelling();
    assert |names.suffix(ClusterBinding(Manager))| != |names.suffix(ClusterBinding(K8sAuth))|;
    forall g
      ensures BindingSuffix(names.suffix(ClusterBinding(g)))
        && names.suffix(LegacyBinding(g)) == names.suffix(ClusterBinding(g))
    {
      assert g == Manager || g == K8sAuth;
    }
  }

  predicate ServiceSlot(slot: Slot) {
    slot.AuthService? || slot.OidcService? || slot.MetricsService?
  }

  // As the constructors of Services spell them.
  ghost predicate Spelled(names: Spelling) {
    forall slot | ServiceSlot(slot) :: names.suffix(slot) == ServiceName(EndpointOf(slot))
  }

  lemma OperatorSpelled()
    ensures Spelled(OperatorSpelling())
  {
  }

  // ---- Names tell objects apart --------------------------------------------

  lemma DashedSame(a: string, b: string, suffix: string)
    requires a + "-" + suffix == b + "-" + suffix
    ensures a == b
  {
    assert a + "-" + suffix == a + ("-" + suffix) && b + "-" + suffix == b + ("-" + suffix);
    CancelRight(a, b, "-" + suffix);
  }

  lemma DashedTell(a: string, s: string, b: string, t: string)
    requires a + "-" + s == b + "-" + t
    requires s == t || EndDifferently(s, t) || EndDifferently(t, s)
    ensures a == b && s == t
  {
    if s != t {
      LastCharacter(a + "-", s, b + "-", t);
    } else {
      DashedSame(a, b, s);
    }
  }

  // Instances live in proper namespaces, and no two share the name of a cluster-wide
  // binding.
  ghost predicate WellNamed(names: Spelling, h: Digest, instances: set<Instance>) {
    forall i, j, g | i in instances && j in instances && i != j ::
      KeyOf(names, h, i, ClusterBinding(g)) != KeyOf(names, h, j, ClusterBinding(g))
  }

  ghost predicate Labelled(instances: set<Instance>) {
    forall i: Instance | i in instances :: NamespaceLabel(i.ns)
  }

  lemma ServiceKeys(names: Spelling, h: Digest, i: Instance, j: Instance, s: Slot, t: Slot)
    requires Telling(names)
    requires KeyOf(names, h, i, s) == KeyOf(names, h, j, t) && KeyOf(names, h, i, s).kind == ServiceKind
    ensures i == j && s == t
  {
    ServiceKey(names, h, i, s);
    ServiceKey(names, h, j, t);
    DashedTell(i.name, names.suffix(s), j.name, names.suffix(t));
  }

  lemma ServiceKey(names: Spelling, h: Digest, i: Instance, s: Slot)
    requires KeyOf(names, h, i, s).kind == ServiceKind
    ensures ServiceSlot(s)
    ensures KeyOf(names, h, i, s) == Key(ServiceKind, i.ns, i.name + "-" + names.suffix(s))
  {
  }

  lemma RoleBindingKeys(names: Spelling, h: Digest, i: Instance, j: Instance, s: Slot, t: Slot)
    requires Telling(names)
    requires KeyOf(names, h, i, s) == KeyOf(names, h, j, t) && KeyOf(names, h, i, s).kind == RoleBindingKind
    ensures i == j && s == t
  {
    RoleBindingKey(names, h, i, s);
    RoleBindingKey(names, h, j, t);
    DashedTell(i.name, names.suffix(s), j.name, names.suffix(t));
  }

  lemma RoleBindingKey(names: Spelling, h: Digest, i: Instance, s: Slot)
    requires KeyOf(names, h, i, s).kind == RoleBindingKind
    ensures s.ManagerBinding? || s.LeaderBinding?
    ensures KeyOf(names, h, i, s) == Key(RoleBindingKind, i.ns, i.name + "-" + names.suffix(s))
  {
  }

  lemma ClusterBindingKeys(
      names: Spelling, h: Digest, instances: set<Instance>, i: Instance, j: Instance, g: Grant, f: Grant)
    requires Telling(names) && Labelled(instances) && WellNamed(names, h, instances) && i in instances && j in instances
    requires KeyOf(names, h, i, ClusterBinding(g)) == KeyOf(names, h, j, ClusterBinding(f))
    ensures i == j && g == f
  {
    if g != f {
      assert {g, f} == {Manager, K8sAuth};
      SuffixesNeverCollide(h, i.ns, i.name, names.suffix(ClusterBinding(g)), j.ns, j.name,
                           names.suffix(ClusterBinding(f)));
    }
  }

  lemma SameAccount(a: string, b: string)
    requires ServiceAccountName(a) == ServiceAccountName(b)
    ensures a == b
  {
    CancelRight(a, b, "-authorino");
  }

  lemma OwnKeys(names: Spelling, h: Digest, instances: set<Instance>, i: Instance, j: Instance, s: Slot, t: Slot)
    requires Telling(names) && Labelled(instances) && WellNamed(names, h, instances) && i in instances && j in instances
    requires Own(s) && Own(t) && KeyOf(names, h, i, s) == KeyOf(names, h, j, t)
    ensures i == j && s == t
  {
    match s
    case AuthService | OidcService | MetricsService => ServiceKeys(names, h, i, j, s, t);
    case ManagerBinding | LeaderBinding => RoleBindingKeys(names, h, i, j, s, t);
    case ClusterBinding(g) => ClusterBindingKeys(names, h, instances, i, j, g, t.grant);
    case Account => SameAccount(i.name, j.name);
    case _ =>
  }

  // ---- The blueprint is sound ----------------------------------------------

  lemma ServiceFits(bp: Blueprint, i: Instance, slot: Slot, m: Manifest, uid: nat)
    requires ServiceSlot(slot)
    requires Services.Shaped(m, bp.key(i, slot)) && m.key.kind == ServiceKind
    ensures ManifestOk(bp, i, slot, Owned(m, uid))
  {
  }

  lemma ServiceAt(names: Spelling, key: (Instance, Slot) -> Key, h: Digest, i: Instance, slot: Slot)
    requires Names(key, names, h) && ServiceSlot(slot)
    ensures key(i, slot) == Key(ServiceKind, i.ns, i.name + "-" + names.suffix(slot))
  {
  }

  lemma ServicesOk(names: Spelling, bp: Blueprint, h: Digest, i: Instance, o: Origin, slot: Slot)
    requires Names(bp.key, names, h) && Spelled(names) && ServiceSlot(slot)
    ensures ManifestOk(bp, i, slot, ManifestOf(names, h, i, o, slot))
  {
    ServiceAt(names, bp.key, h, i, slot);
    ServiceShaped(EndpointOf(slot), i.name, i.ns, o.spec, o.labels);
    ServiceFits(bp, i, slot, ServiceManifest(i, o, slot), o.uid);
  }

  lemma BindingsOk(names: Spelling, bp: Blueprint, h: Digest, i: Instance, o: Origin, slot: Slot)
    requires slot.ClusterBinding? || slot.ManagerBinding? || slot.LeaderBinding?
    requires Names(bp.key, names, h)
    requires bp.subject(i) == Subject(ServiceAccountKind, ServiceAccountName(i.name), i.ns)
    ensures ManifestOk(bp, i, slot, ManifestOf(names, h, i, o, slot))
  {
  }

  lemma OthersOk(names: Spelling, bp: Blueprint, h: Digest, i: Instance, o: Origin, slot: Slot)
    requires slot.Account? || slot.LeaderRole?
    requires Names(bp.key, names, h)
    ensures ManifestOk(bp, i, slot, ManifestOf(names, h, i, o, slot))
  {
  }

  lemma ManifestsOk(names: Spelling, bp: Blueprint, h: Digest, images: Images, i: Instance, o: Origin, slot: Slot)
    requires Describes(bp, names, h, images) && Spelled(names) && Managed(slot) && slot != Application
    ensures ManifestOk(bp, i, slot, bp.manifest(i, o, slot))
  {
    match slot
    case AuthService | OidcService | MetricsService => ServicesOk(names, bp, h, i, o, slot);
    case ClusterBinding(_) | ManagerBinding | LeaderBinding => BindingsOk(names, bp, h, i, o, slot);
    case _ => OthersOk(names, bp, h, i, o, slot);
  }

  lemma ApplicationShaped(images: Images, i: Instance, o: Origin, visit: seq<string>)
    ensures var d := ApplicationOf(images, i, o, visit);
      d.Some? ==> Workloads.Shaped(d.value, Key(DeploymentKind, i.ns, i.name))
  {
    DeploymentShaped(i.name, i.ns, o.labels, o.spec, images, visit);
  }

  lemma ApplicationFits(bp: Blueprint, i: Instance, o: Origin, visit: seq<string>, d: Option<Manifest>)
    requires bp.application(i, o, visit) == d && bp.key(i, Application).kind == DeploymentKind
    requires d.Some? ==> Workloads.Shaped(d.value, bp.key(i, Application))
    ensures bp.application(i, o, visit).Some? ==> ManifestOk(bp, i, Application, bp.application(i, o, visit).value)
  {
  }

  lemma ApplicationKey(names: Spelling, key: (Instance, Slot) -> Key, h: Digest, i: Instance)
    requires Names(key, names, h)
    ensures key(i, Application) == Key(DeploymentKind, i.ns, i.name)
  {
  }

  lemma ApplicationOk(
      names: Spelling, bp: Blueprint, h: Digest, images: Images, i: Instance, o: Origin, visit: seq<string>)
    requires Describes(bp, names, h, images)
    ensures bp.application(i, o, visit).Some? ==> ManifestOk(bp, i, Application, bp.application(i, o, visit).value)
  {
    ApplicationKey(names, bp.key, h, i);
    ApplicationShaped(images, i, o, visit);
    ApplicationFits(bp, i, o, visit, ApplicationOf(images, i, o, visit));
  }

  lemma KindsFit(names: Spelling, h: Digest, i: Instance, slot: Slot)
    ensures SlotKind(slot, KeyOf(names, h, i, slot).kind)
  {
  }

  lemma KeysFit(names: Spelling, bp: Blueprint, h: Digest, images: Images, instances: set<Instance>)
    requires Describes(bp, names, h, images)
    ensures KeysHaveKinds(bp, instances)
  {
    forall i, slot | i in instances
      ensures SlotKind(slot, bp.key(i, slot).kind)
    {
      KindsFit(names, h, i, slot);
    }
  }

  lemma AllOwnKeys(names: Spelling, h: Digest, instances: set<Instance>)
    requires Telling(names) && Labelled(instances) && WellNamed(names, h, instances)
    ensures forall i, j, s, t | i in instances && j in instances && Own(s) && Own(t)
                                && KeyOf(names, h, i, s) == KeyOf(names, h, j, t) :: i == j && s == t
  {
    forall i, j, s, t | i in instances && j in instances && Own(s) && Own(t)
      && KeyOf(names, h, i, s) == KeyOf(names, h, j, t)
      ensures i == j && s == t
    {
      OwnKeys(names, h, instances, i, j, s, t);
    }
  }

  lemma NamedKeysDiffer(names: Spelling, key: (Instance, Slot) -> Key, h: Digest, instances: set<Instance>)
    requires Names(key, names, h) && Telling(names) && Labelled(instances) && WellNamed(names, h, instances)
    ensures forall i, j, s, t | i in instances && j in instances && Own(s) && Own(t) && key(i, s) == key(j, t) ::
      i == j && s == t
  {
    AllOwnKeys(names, h, instances);
  }

  lemma DifferingKeysNamed(names: Spelling, key: (Instance, Slot) -> Key, h: Digest, instances: set<Instance>)
    requires Names(key, names, h)
    requires forall i, j, s, t | i in instances && j in instances && Own(s) && Own(t) && key(i, s) == key(j, t) ::
      i == j && s == t
    ensures WellNamed(names, h, instances)
  {
    forall i, j, g | i in instances && j in instances && i != j
      ensures KeyOf(names, h, i, ClusterBinding(g)) != KeyOf(names, h, j, ClusterBinding(g))
    {
      assert key(i, ClusterBinding(g)) != key(j, ClusterBinding(g));
    }
  }

  lemma KeysDiffer(names: Spelling, bp: Blueprint, h: Digest, instances: set<Instance>)
    requires Names(bp.key, names, h) && Telling(names) && Labelled(instances)
    ensures OwnKeysDiffer(bp, instances) <==> WellNamed(names, h, instances)
  {
    if WellNamed(names, h, instances) {
      NamedKeysDiffer(names, bp.key, h, instances);
    }
    if OwnKeysDiffer(bp, instances) {
      DifferingKeysNamed(names, bp.key, h, instances);
    }
  }

  lemma AccountsDiffer(names: Spelling, bp: Blueprint, h: Digest, images: Images, instances: set<Instance>)
    requires Describes(bp, names, h, images)
    ensures SubjectsDiffer(bp, instances)
  {
    forall i, j | i in instances && j in instances && bp.subject(i) == bp.subject(j)
      ensures i == j
    {
      SameAccount(i.name, j.name);
    }
  }

  lemma AllManifestsFit(names: Spelling, bp: Blueprint, h: Digest, images: Images, instances: set<Instance>)
    requires Describes(bp, names, h, images) && Spelled(names)
    ensures ManifestsFit(bp, instances)
  {
    forall i, o, slot | i in instances && Managed(slot) && slot != Application
      ensures ManifestOk(bp, i, slot, bp.manifest(i, o, slot))
    {
      ManifestsOk(names, bp, h, images, i, o, slot);
    }
    forall i, o, visit | i in instances && bp.application(i, o, visit).Some?
      ensures ManifestOk(bp, i, Application, bp.application(i, o, visit).value)
    {
      ApplicationOk(names, bp, h, images, i, o, visit);
    }
  }

  lemma SoundWith(names: Spelling, bp: Blueprint, h: Digest, images: Images, instances: set<Instance>)
    requires Describes(bp, names, h, images) && Telling(names) && Spelled(names) && Labelled(instances)
    ensures Sound(bp, instances) <==> WellNamed(names, h, instances)
  {
    KeysFit(names, bp, h, images, instances);
    KeysDiffer(names, bp, h, instances);
    AccountsDiffer(names, bp, h, images, instances);
    AllManifestsFit(names, bp, h, images, instances);
  }

  // The operator's names and manifests make its instances independent exactly when no two
  // of them share the name of a cluster-wide binding: everything else is told apart.
  lemma {:induction false} OperatorIsSound(h: Digest, images: Images, instances: set<Instance>)
    requires Labelled(instances)
    ensures Sound(OperatorBlueprint(h, images), instances) <==> WellNamed(OperatorSpelling(), h, instances)
  {
    OperatorTelling();
    OperatorSpelled();
    OperatorDescribes(h, images);
    SoundWith(OperatorSpelling(), OperatorBlueprint(h, images), h, images, instances);
  }

  // Two instances share such a name only within a namespace, and only if the digests of two
  // overlong names collide or one name spells the cut form of the other.
  lemma SharedBindingName(names: Spelling, h: Digest, i: Instance, j: Instance, g: Grant)
    requires Telling(names) && NamespaceLabel(i.ns) && NamespaceLabel(j.ns) && i != j
    ensures KeyOf(names, h, i, ClusterBinding(g)) == KeyOf(names, h, j, ClusterBinding(g)) <==>
      i.ns == j.ns && CoresClash(h, i.ns, i.name, j.name, names.suffix(ClusterBinding(g)))
  {
    CollisionLaw(h, i.ns, i.name, names.suffix(ClusterBinding(g)), j.ns, j.name, names.suffix(ClusterBinding(g)));
  }

  // ---- Old names and new names ---------------------------------------------

  lemma OldSpellsNew(names: Spelling, h: Digest, i: Instance, f: Grant, g: Grant)
    requires Telling(names) && NamespaceLabel(i.ns)
    ensures KeyOf(names, h, i, LegacyBinding(f)) == KeyOf(names, h, i, ClusterBinding(g)) <==>
      f == g && FixedPoint(h, i.ns, i.name, names.suffix(ClusterBinding(g)))
  {
    CanonicalVersusLegacy(h, i.ns, i.name, names.suffix(ClusterBinding(g)), names.suffix(LegacyBinding(f)));
    if f != g {
      assert {f, g} == {Manager, K8sAuth};
    }
  }

  lemma ApartUnless(bp: Blueprint, i: Instance, g: Grant, fixed: bool)
    requires forall f :: bp.key(i, LegacyBinding(f)) == bp.key(i, ClusterBinding(g)) <==> f == g && fixed
    ensures Apart(bp, i, g) <==> !fixed
  {
    assert bp.key(i, LegacyBinding(g)) == bp.key(i, ClusterBinding(g)) <==> fixed;
  }

  // An old name of an instance spells its own binding exactly when its name is a fixed point
  // of cutting and hashing.
  lemma {:induction false} ApartExactly(
      names: Spelling, bp: Blueprint, h: Digest, images: Images, i: Instance, g: Grant)
    requires Describes(bp, names, h, images) && Telling(names) && NamespaceLabel(i.ns)
    ensures Apart(bp, i, g) <==> !FixedPoint(h, i.ns, i.name, names.suffix(ClusterBinding(g)))
  {
    var fixed := FixedPoint(h, i.ns, i.name, names.suffix(ClusterBinding(g)));
    forall f
      ensures bp.key(i, LegacyBinding(f)) == bp.key(i, ClusterBinding(g)) <==> f == g && fixed
    {
      OldSpellsNew(names, h, i, f, g);
    }
    ApartUnless(bp, i, g, fixed);
  }
}
