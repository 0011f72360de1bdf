// The Kubernetes objects the operator reads and writes, with the fields its code sets.
module Objects {
  import opened Text
  import opened Api

  // ---- Identity ------------------------------------------------------------

  datatype Kind =
    | AuthorinoKind
    | ServiceKind
    | ServiceAccountKind
    | ClusterRoleBindingKind
    | RoleBindingKind
    | RoleKind
    | DeploymentKind
    | ClusterRoleKind
    | SecretKind

  // Cluster-scoped objects have an empty namespace.
  datatype Key = Key(kind: Kind, ns: string, name: string)

  // An Authorino custom resource.
  datatype Instance = Instance(ns: string, name: string)

  // ---- Contents ------------------------------------------------------------

  datatype RoleName = ManagerRole | K8sAuthRole | LeaderElectionRole | OtherRole(name: string)

  datatype RoleRef = RoleRef(kind: Kind, role: RoleName)

  datatype Subject = Subject(kind: Kind, name: string, ns: string)

  datatype PolicyRule = PolicyRule(apiGroups: seq<string>, resources: seq<string>, verbs: seq<string>)

  datatype ServicePort = ServicePort(name: string, port: Int32, protocol: string, targetPort: Int32)

  datatype ServiceSpec = ServiceSpec(ports: seq<ServicePort>, selector: map<string, string>)

  datatype Source = FromConfigMap(name: string, items: seq<KeyToPath>) | FromSecret(name: string, items: seq<KeyToPath>)

  datatype Volume =
    | Projected(name: string, sources: seq<Source>, defaultMode: Option<Int32>)
    | SecretVolume(name: string, secretName: string)

  datatype Mount = Mount(name: string, mountPath: string, subPath: string, readOnly: bool)

  datatype EnvVar = EnvVar(name: string, value: string)

  datatype Container = Container(
    name: string, image: string, imagePullPolicy: string,
    args: seq<string>, env: seq<EnvVar>, mounts: seq<Mount>)

  // `podLabels` are those of the pod template.
  datatype DeploymentSpec = DeploymentSpec(
    replicas: Int32, selector: map<string, string>, podLabels: map<string, string>, serviceAccountName: string,
    containers: seq<Container>, volumes: seq<Volume>)

  datatype DeploymentCondition = DeploymentCondition(available: bool, status: Truth)

  // `Empty` stands for kinds of which the operator neither sets nor reads a field.
  datatype Body =
    | Empty
    | Binding(roleRef: RoleRef, subjects: seq<Subject>)
    | Rules(rules: seq<PolicyRule>)
    | Serving(service: ServiceSpec)
    | Workload(deployment: DeploymentSpec, status: seq<DeploymentCondition>)
    | Resource(spec: Spec, conditions: seq<Condition>)

  datatype Finalizer = OperatorFinalizer | OtherFinalizer(name: string)

  datatype Meta = Meta(labels: map<string, string>, owners: set<nat>, finalizers: set<Finalizer>, deleting: bool)

  // A stored object. No two versions of an object share a resource version.
  datatype Object = Object(uid: nat, version: nat, meta: Meta, body: Body)

  datatype Annotation = DeleteTag | OtherAnnotation(name: string)

  // What the operator submits.
  datatype Manifest = Manifest(
    key: Key, labels: map<string, string>, annotations: map<Annotation, string>, owner: Option<nat>, body: Body)

  // ---- Delete tagging (pkg/reconcilers/deployment.go:18-36) ----------------

  predicate IsObjectTaggedToDelete(m: Manifest) {
    DeleteTag in m.annotations && m.annotations[DeleteTag] == "true"
  }

  function TagObjectToDelete(m: Manifest): (tagged: Manifest)
    ensures IsObjectTaggedToDelete(tagged)
    ensures tagged == m.(annotations := tagged.annotations)
    ensures forall k | k != DeleteTag :: k in tagged.annotations <==> k in m.annotations
    ensures forall k | k != DeleteTag && k in m.annotations :: tagged.annotations[k] == m.annotations[k]
  {
    m.(annotations := m.annotations[DeleteTag := "true"])
  }

  // SubjectIncluded (pkg/resources/k8s_rbac.go:59-68): a search by kind, name and namespace.
  predicate SubjectIncluded(subjects: seq<Subject>, subject: Subject)
    ensures SubjectIncluded(subjects, subject) <==> subject in subjects
  {
    if subjects == [] then false
    else if subjects[0].kind == subject.kind && subjects[0].name == subject.name && subjects[0].ns == subject.ns then
      true
    else SubjectIncluded(subjects[1..], subject)
  }

  // DeploymentAvailable (pkg/reconcilers/deployment.go:429-437): the first condition of
  // type "Available" decides.
  predicate DeploymentAvailable(status: seq<DeploymentCondition>) {
    if status == [] then false
    else if status[0].available then status[0].status == True
    else DeploymentAvailable(status[1..])
  }

  // The entry at `k` is the first of type "Available".
  predicate FirstAvailable(status: seq<DeploymentCondition>, k: nat) {
    k < |status| && status[k].available && forall j | 0 <= j < k :: !status[j].available
  }

  // What it means for a Deployment to be available.
  ghost predicate ReportsAvailable(status: seq<DeploymentCondition>) {
    exists k: nat :: FirstAvailable(status, k) && status[k].status == True
  }

  lemma {:induction false} FirstFurtherOn(status: seq<DeploymentCondition>, k: nat)
    requires status != [] && !status[0].available
    ensures FirstAvailable(status, k + 1) <==> FirstAvailable(status[1..], k)
  {
    assert forall j | 0 <= j < |status| - 1 :: status[1..][j] == status[j + 1];
    if FirstAvailable(status, k + 1) {
      forall j | 0 <= j < k
        ensures !status[1..][j].available
      {
        assert status[1..][j] == status[j + 1];
      }
    }
  }

  // Conditions of other types do not matter, nor do later ones of that type.
  lemma {:induction false} AvailableExactly(status: seq<DeploymentCondition>)
    ensures DeploymentAvailable(status) <==> ReportsAvailable(status)
  {
    if status != [] {
      if status[0].available {
        assert FirstAvailable(status, 0);
        assert forall k: nat | FirstAvailable(status, k) :: k == 0;
      } else {
        AvailableExactly(status[1..]);
        if ReportsAvailable(status) {
          var k: nat :| FirstAvailable(status, k) && status[k].status == True;
          assert k > 0;
          FirstFurtherOn(status, k - 1);
          assert status[1..][k - 1] == status[k];
        }
        if ReportsAvailable(status[1..]) {
          var k: nat :| FirstAvailable(status[1..], k) && status[1..][k].status == True;
          FirstFurtherOn(status, k);
          assert status[k + 1] == status[1..][k];
        }
      }
    }
  }
}
