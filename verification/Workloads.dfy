// The Deployment of an instance (AuthorinoDeployment in pkg/reconcilers/deployment.go:38-156
// and pkg/resources/k8s_deployment.go).
module Workloads {
  import opened Text
  import opened Api
  import opened Objects
  import opened Naming
  import opened Flags
  import opened Args
  import opened RoundTrip
  import opened Environment
  import opened ImageTag
  import opened Services

  const CONTAINER: string := "authorino"
  const LISTENER_VOLUME: string := "tls-cert"
  const OIDC_VOLUME: string := "oidc-cert"

  // ---- What the parts should be --------------------------------------------

  // The operator's environment: the related image and the image built in, either of which
  // may be missing.
  datatype Images = Images(related: string, builtIn: string)

  function ImageOf(spec: Spec, images: Images): string {
    if spec.image != "" then spec.image
    else if images.related != "" then images.related
    else images.builtIn
  }

  // Every TLS server that is on names its secret object; the code reads the name without
  // looking.
  predicate CertNamed(tls: Tls) {
    tls.On() ==> tls.certSecret.Some?
  }

  function SourcesOf(v: VolumeSpec): seq<Source> {
    seq(|v.configMaps|, k requires 0 <= k < |v.configMaps| => FromConfigMap(v.configMaps[k], v.items))
    + seq(|v.secrets|, k requires 0 <= k < |v.secrets| => FromSecret(v.secrets[k], v.items))
  }

  function UserVolume(v: VolumeSpec, mode: Option<Int32>): Volume {
    Projected(v.name, SourcesOf(v), mode)
  }

  function UserMount(v: VolumeSpec): Mount {
    Mount(v.name, v.mountPath, "", false)
  }

  function UserVolumesOf(items: seq<VolumeSpec>, mode: Option<Int32>): (volumes: seq<Volume>)
    ensures |volumes| == |items|
  {
    seq(|items|, k requires 0 <= k < |items| => UserVolume(items[k], mode))
  }

  function UserMountsOf(items: seq<VolumeSpec>): (mounts: seq<Mount>)
    ensures |mounts| == |items|
  {
    seq(|items|, k requires 0 <= k < |items| => UserMount(items[k]))
  }

  function GetTlsVolumeMount(name: string, cert: CertFile, key: CertFile): seq<Mount> {
    [Mount(name, DefaultPath(cert), "tls.crt", true), Mount(name, DefaultPath(key), "tls.key", true)]
  }

  function GetTlsVolume(name: string, secret: string): Volume {
    SecretVolume(name, secret)
  }

  function TlsVolumes(tls: Tls, name: string): seq<Volume>
    requires CertNamed(tls)
  {
    if tls.On() then [GetTlsVolume(name, tls.certSecret.value)] else []
  }

  function TlsMounts(tls: Tls, name: string, cert: CertFile, key: CertFile): seq<Mount> {
    if tls.On() then GetTlsVolumeMount(name, cert, key) else []
  }

  function VolumesOf(spec: Spec): seq<Volume>
    requires CertNamed(spec.listener.tls) && CertNamed(spec.oidcServer.tls)
  {
    UserVolumesOf(spec.volumes.items, spec.volumes.defaultMode)
    + TlsVolumes(spec.listener.tls, LISTENER_VOLUME)
    + TlsVolumes(spec.oidcServer.tls, OIDC_VOLUME)
  }

  function MountsOf(spec: Spec): seq<Mount> {
    UserMountsOf(spec.volumes.items)
    + TlsMounts(spec.listener.tls, LISTENER_VOLUME, ListenerCert, ListenerKey)
    + TlsMounts(spec.oidcServer.tls, OIDC_VOLUME, OidcCert, OidcKey)
  }

  predicate OldImage(image: string) {
    DetectEnvVarVersion(VersionFromImage(image))
  }

  // Old images are configured by environment variables and get few arguments.
  function ArgsFor(image: string, ns: string, spec: Spec, visit: seq<string>): seq<string> {
    var line := Line(ArgsOf(ns, spec, visit));
    if OldImage(image) then Kept(line, Compatible(KeptFlag)) else line
  }

  function EnvFor(image: string, ns: string, spec: Spec): seq<EnvVar> {
    if OldImage(image) then
      EnvPrintable(ns, spec);
      Vars(EnvOf(ns, spec))
    else []
  }

  function GetContainer(
      image: string, policy: string, name: string, args: seq<string>, env: seq<EnvVar>, mounts: seq<Mount>): Container {
    Container(name, image, if policy == "" then "Always" else policy, args, env, mounts)
  }

  function GetDeployment(
      name: string, ns: string, account: string, replicas: Int32,
      containers: seq<Container>, volumes: seq<Volume>, labels: map<string, string>): Manifest {
    Manifest(Key(DeploymentKind, ns, name), labels, map[], None,
             Workload(DeploymentSpec(replicas, DefaultAuthorinoLabels(name), DefaultAuthorinoLabels(name), account,
                                     containers, volumes), []))
  }

  function ContainerOf(image: string, ns: string, spec: Spec, visit: seq<string>): Container {
    GetContainer(image, spec.imagePullPolicy, CONTAINER, ArgsFor(image, ns, spec, visit), EnvFor(image, ns, spec),
                 MountsOf(spec))
  }

  // The Deployment, or None where the code panics: without an image, or at the name of a
  // secret that is not there.
  function DeploymentOf(
      name: string, ns: string, labels: map<string, string>, spec: Spec, images: Images,
      visit: seq<string>): Option<Manifest> {
    var image := ImageOf(spec, images);
    if image == "" || !CertNamed(spec.listener.tls) || !CertNamed(spec.oidcServer.tls) then None
    else
      Some(GetDeployment(name, ns, ServiceAccountName(name), if spec.replicas == None then 1 else spec.replicas.value,
                         [ContainerOf(image, ns, spec, visit)], VolumesOf(spec), labels))
  }

  // ---- The code ------------------------------------------------------------

  method ProjectedSources(volume: VolumeSpec) returns (sources: seq<Source>)
    ensures sources == SourcesOf(volume)
  {
    sources := [];
    for k := 0 to |volume.configMaps|
      invariant sources == seq(k, j requires 0 <= j < k => FromConfigMap(volume.configMaps[j], volume.items))
    {
      sources := sources + [FromConfigMap(volume.configMaps[k], volume.items)];
    }
    ghost var maps := sources;
    for k := 0 to |volume.secrets|
      invariant sources == maps + seq(k, j requires 0 <= j < k => FromSecret(volume.secrets[j], volume.items))
    {
      sources := sources + [FromSecret(volume.secrets[k], volume.items)];
    }
  }

  method UserVolumes(spec: VolumesSpec) returns (volumes: seq<Volume>, mounts: seq<Mount>)
    ensures volumes == UserVolumesOf(spec.items, spec.defaultMode)
    ensures mounts == UserMountsOf(spec.items)
  {
    volumes, mounts := [], [];
    for i := 0 to |spec.items|
      invariant volumes == seq(i, k requires 0 <= k < i => UserVolume(spec.items[k], spec.defaultMode))
      invariant mounts == seq(i, k requires 0 <= k < i => UserMount(spec.items[k]))
    {
      var sources := ProjectedSources(spec.items[i]);
      volumes := volumes + [Projected(spec.items[i].name, sources, spec.defaultMode)];
      mounts := mounts + [Mount(spec.items[i].name, spec.items[i].mountPath, "", false)];
    }
  }

  // The container, with the command line and environment that suit its image.
  method AuthorinoContainer(image: string, ns: string, spec: Spec, visit: seq<string>, mounts: seq<Mount>)
    returns (container: Container)
    requires mounts == MountsOf(spec)
    ensures container == ContainerOf(image, ns, spec, visit)
  {
    var built := BuildAuthorinoArgs(ns, spec, visit);
    var args, env := Line(built), [];
    if DetectEnvVarVersion(VersionFromImage(image)) {
      var vars := BuildAuthorinoEnv(ns, spec);
      EnvPrintable(ns, spec);
      env := Vars(vars);
      args := CompatibleArgs(args);
    }
    container := GetContainer(image, spec.imagePullPolicy, CONTAINER, args, env, mounts);
  }

  // The certificate of one server; not `ok` where the code would follow a nil reference.
  method MountCertificate(
      tls: Tls, name: string, cert: CertFile, key: CertFile, volumes: seq<Volume>, mounts: seq<Mount>)
    returns (ok: bool, allVolumes: seq<Volume>, allMounts: seq<Mount>)
    ensures ok <==> CertNamed(tls)
    ensures ok ==> allVolumes == volumes + TlsVolumes(tls, name)
    ensures ok ==> allMounts == mounts + TlsMounts(tls, name, cert, key)
  {
    ok, allVolumes, allMounts := true, volumes, mounts;
    if tls.On() {
      if tls.certSecret == None {
        return false, volumes, mounts;
      }
      allMounts := allMounts + GetTlsVolumeMount(name, cert, key);
      allVolumes := allVolumes + [GetTlsVolume(name, tls.certSecret.value)];
    }
  }

  method MountVolumes(spec: Spec) returns (ok: bool, volumes: seq<Volume>, mounts: seq<Mount>)
    ensures ok <==> CertNamed(spec.listener.tls) && CertNamed(spec.oidcServer.tls)
    ensures ok ==> volumes == VolumesOf(spec) && mounts == MountsOf(spec)
  {
    volumes, mounts := UserVolumes(spec.volumes);
    ok, volumes, mounts :=
      MountCertificate(spec.listener.tls, LISTENER_VOLUME, ListenerCert, ListenerKey, volumes, mounts);
    if ok {
      ok, volumes, mounts := MountCertificate(spec.oidcServer.tls, OIDC_VOLUME, OidcCert, OidcKey, volumes, mounts);
    }
  }

  method ImageFor(spec: Spec, images: Images) returns (image: string)
    ensures image == ImageOf(spec, images)
  {
    image := spec.image;
    if image == "" {
      image := if images.related == "" then images.builtIn else images.related;
    }
  }

  // No Deployment stands for a panic.
  method AuthorinoDeployment(
      name: string, ns: string, labels: map<string, string>, spec: Spec, images: Images, visit: seq<string>)
    returns (deployment: Option<Manifest>)
    ensures deployment == DeploymentOf(name, ns, labels, spec, images, visit)
  {
    var image := ImageFor(spec, images);
    if image == "" {
      return None;
    }
    var ok, volumes, mounts := MountVolumes(spec);
    if !ok {
      return None;
    }
    var container := AuthorinoContainer(image, ns, spec, visit, mounts);
    var replicas := if spec.replicas == None then 1 else spec.replicas.value;
    deployment := Some(GetDeployment(name, ns, ServiceAccountName(name), replicas, [container], volumes, labels));
  }

  // ---- Well linked ---------------------------------------------------------

  function VolumeNames(volumes: seq<Volume>): set<string> {
    set v | v in volumes :: v.name
  }

  function MountNames(mounts: seq<Mount>): set<string> {
    set m | m in mounts :: m.name
  }

  // Every mount names a declared volume, and every volume is mounted.
  predicate Linked(volumes: seq<Volume>, mounts: seq<Mount>) {
    VolumeNames(volumes) == MountNames(mounts)
  }

  lemma LinkedTogether(v1: seq<Volume>, m1: seq<Mount>, v2: seq<Volume>, m2: seq<Mount>)
    requires Linked(v1, m1) && Linked(v2, m2)
    ensures Linked(v1 + v2, m1 + m2)
  {
    assert VolumeNames(v1 + v2) == VolumeNames(v1) + VolumeNames(v2);
    assert MountNames(m1 + m2) == MountNames(m1) + MountNames(m2);
  }

  lemma {:induction false} UsersLinked(items: seq<VolumeSpec>, mode: Option<Int32>)
    ensures Linked(UserVolumesOf(items, mode), UserMountsOf(items))
  {
    if items != [] {
      var n := |items| - 1;
      UsersLinked(items[..n], mode);
      assert UserVolumesOf(items, mode) == UserVolumesOf(items[..n], mode) + [UserVolume(items[n], mode)];
      assert UserMountsOf(items) == UserMountsOf(items[..n]) + [UserMount(items[n])];
      LinkedTogether(UserVolumesOf(items[..n], mode), UserMountsOf(items[..n]), [UserVolume(items[n], mode)],
                     [UserMount(items[n])]);
    }
  }

  lemma CertificateLinked(tls: Tls, name: string, cert: CertFile, key: CertFile)
    requires CertNamed(tls)
    ensures Linked(TlsVolumes(tls, name), TlsMounts(tls, name, cert, key))
  {
    if tls.On() {
      var mounts := TlsMounts(tls, name, cert, key);
      assert mounts[0].name == name && mounts[1].name == name;
      assert TlsVolumes(tls, name)[0].name == name;
      assert MountNames(mounts) == {name};
    }
  }

  lemma AllLinked(spec: Spec)
    requires CertNamed(spec.listener.tls) && CertNamed(spec.oidcServer.tls)
    ensures Linked(VolumesOf(spec), MountsOf(spec))
  {
    var users, mounted := UserVolumesOf(spec.volumes.items, spec.volumes.defaultMode), UserMountsOf(spec.volumes.items);
    var listener, oidc := TlsVolumes(spec.listener.tls, LISTENER_VOLUME), TlsVolumes(spec.oidcServer.tls, OIDC_VOLUME);
    var listenerMounts := TlsMounts(spec.listener.tls, LISTENER_VOLUME, ListenerCert, ListenerKey);
    var oidcMounts := TlsMounts(spec.oidcServer.tls, OIDC_VOLUME, OidcCert, OidcKey);
    UsersLinked(spec.volumes.items, spec.volumes.defaultMode);
    CertificateLinked(spec.listener.tls, LISTENER_VOLUME, ListenerCert, ListenerKey);
    CertificateLinked(spec.oidcServer.tls, OIDC_VOLUME, OidcCert, OidcKey);
    LinkedTogether(users, mounted, listener, listenerMounts);
    LinkedTogether(users + listener, mounted + listenerMounts, oidc, oidcMounts);
  }

  // The Deployment is built whenever an image is known and every TLS server that is on
  // names its secret; its volumes and mounts belong together, and each volume of the user
  // projects its ConfigMaps and then its Secrets, one source each, in their order.
  lemma DeploymentWellBuilt(
      name: string, ns: string, labels: map<string, string>, spec: Spec, images: Images, visit: seq<string>)
    ensures var d := DeploymentOf(name, ns, labels, spec, images, visit);
      && (d == None <==>
            ImageOf(spec, images) == "" || !CertNamed(spec.listener.tls) || !CertNamed(spec.oidcServer.tls))
      && (d.Some? ==>
            && d.value.body.Workload? && |d.value.body.deployment.containers| == 1
            && var (pod, container) := (d.value.body.deployment, d.value.body.deployment.containers[0]);
              && Linked(pod.volumes, container.mounts)
              && |pod.volumes| >= |spec.volumes.items|
              && forall k | 0 <= k < |spec.volumes.items| ::
                   Projects(pod.volumes[k], spec.volumes.items[k], spec.volumes.defaultMode))
  {
    if CertNamed(spec.listener.tls) && CertNamed(spec.oidcServer.tls) {
      AllLinked(spec);
      UsersFirst(spec);
    }
  }

  lemma UsersFirst(spec: Spec)
    requires CertNamed(spec.listener.tls) && CertNamed(spec.oidcServer.tls)
    ensures |VolumesOf(spec)| >= |spec.volumes.items|
    ensures forall k | 0 <= k < |spec.volumes.items| ::
      Projects(VolumesOf(spec)[k], spec.volumes.items[k], spec.volumes.defaultMode)
  {
  }

  predicate Projects(volume: Volume, asked: VolumeSpec, mode: Option<Int32>) {
    && volume.Projected? && volume.name == asked.name && volume.defaultMode == mode
    && |volume.sources| == |asked.configMaps| + |asked.secrets|
    && (forall j | 0 <= j < |asked.configMaps| :: volume.sources[j] == FromConfigMap(asked.configMaps[j], asked.items))
    && (forall j | 0 <= j < |asked.secrets| ::
        volume.sources[|asked.configMaps| + j] == FromSecret(asked.secrets[j], asked.items))
  }

  // What every such Deployment looks like from outside.
  predicate Shaped(m: Manifest, key: Key) {
    m.key == key && m.annotations == map[] && m.body.Workload? && m.body.status == []
  }

  lemma DeploymentShaped(
      name: string, ns: string, labels: map<string, string>, spec: Spec, images: Images, visit: seq<string>)
    ensures var d := DeploymentOf(name, ns, labels, spec, images, visit);
      d.Some? ==> Shaped(d.value, Key(DeploymentKind, ns, name))
  {
  }
}
