// What ends up in the Deployment of an instance: its one container, configured as its image
// needs it, its certificates, and the Services that lead to it.
module Containers {
  import opened Text
  import opened Api
  import opened Objects
  import opened Naming
  import opened Rbac
  import opened Flags
  import opened Args
  import opened RoundTrip
  import opened Environment
  import opened ImageTag
  import opened Services
  import opened Workloads

  // ---- The container -------------------------------------------------------

  // The Deployment described for a spec, which exists unless the code panics.
  predicate Described(
      d: Option<Manifest>, name: string, ns: string, labels: map<string, string>, spec: Spec, images: Images,
      visit: seq<string>) {
    d == DeploymentOf(name, ns, labels, spec, images, visit) && d.Some?
  }

  function PodOf(d: Option<Manifest>): DeploymentSpec
    requires d.Some? && d.value.body.Workload?
  {
    d.value.body.deployment
  }

  // Configured by the command line alone: every flag has the values of the spec, which can
  // be read back.
  ghost predicate ByArguments(c: Container, ns: string, spec: Spec, visit: seq<string>) {
    && c.env == []
    && (forall f :: Passed(c.args, FlagName(f)) == Shown(FlagValues(ns, spec, visit, f)))
    && (Enumerates(visit, spec.tracing.tags.Keys) ==> (ReadLine(c.args) == EffectiveOf(ns, spec) <==> Readable(spec)))
  }

  // The variable has the text of the spec.
  predicate VariableSet(env: seq<EnvVar>, ns: string, spec: Spec, f: Flag)
    requires Paired(f)
  {
    SetTo(env, EnvName(f)) == Shown(EnvValues(ns, spec, f))
  }

  ghost predicate KnownVariable(v: EnvVar) {
    exists f :: Paired(f) && v.name == EnvName(f)
  }

  // Each variable is set, and there are no others.
  ghost predicate SpecVariables(env: seq<EnvVar>, ns: string, spec: Spec) {
    && (forall f | Paired(f) :: VariableSet(env, ns, spec, f))
    && (forall k | 0 <= k < |env| :: KnownVariable(env[k]))
  }

  // The arguments of two flags, with the values of the spec, and no others.
  ghost predicate TwoFlagsOnly(args: seq<string>, ns: string, spec: Spec, visit: seq<string>) {
    && (forall f :: PassedOrNot(args, ns, spec, visit, f))
    && (forall k | 0 <= k < |args| :: KeptArgument(args[k]))
  }

  ghost predicate KeptArgument(arg: string) {
    exists f :: OneOfTwo(f) && ParseArg(arg).name == FlagName(f)
  }

  predicate PassedOrNot(args: seq<string>, ns: string, spec: Spec, visit: seq<string>, f: Flag) {
    Passed(args, FlagName(f)) == TwoFlagsValues(ns, spec, visit, f)
  }

  predicate OneOfTwo(f: Flag) {
    f == MetricsAddr || f == EnableLeaderElection
  }

  function TwoFlagsValues(ns: string, spec: Spec, visit: seq<string>, f: Flag): seq<Option<string>> {
    if OneOfTwo(f) then Shown(FlagValues(ns, spec, visit, f)) else []
  }

  // Configured by the environment, but for two flags.
  ghost predicate ByEnvironment(c: Container, ns: string, spec: Spec, visit: seq<string>) {
    SpecVariables(c.env, ns, spec) && TwoFlagsOnly(c.args, ns, spec, visit)
  }

  lemma ArgumentsSuffice(c: Container, ns: string, spec: Spec, visit: seq<string>)
    requires c.args == Line(ArgsOf(ns, spec, visit)) && c.env == []
    ensures ByArguments(c, ns, spec, visit)
  {
    forall f
      ensures Passed(c.args, FlagName(f)) == Shown(FlagValues(ns, spec, visit, f))
    {
      LinePassesValues(ns, spec, visit, f);
    }
    if Enumerates(visit, spec.tracing.tags.Keys) {
      RoundTrip.RoundTrip(ns, spec, visit);
    }
  }

  lemma {:induction false} KeptAreKept(line: seq<string>, keep: string -> bool)
    ensures forall k | 0 <= k < |Kept(line, keep)| :: keep(Kept(line, keep)[k])
    decreases line
  {
    if line != [] {
      KeptAreKept(line[..|line| - 1], keep);
    }
  }

  lemma OnlyKeptFlags(line: seq<string>, k: nat)
    requires k < |Kept(line, Compatible(KeptFlag))|
    ensures KeptArgument(Kept(line, Compatible(KeptFlag))[k])
  {
    KeptAreKept(line, Compatible(KeptFlag));
    var arg := Kept(line, Compatible(KeptFlag))[k];
    FirstPartIsName(arg);
    assert OneOfTwo(MetricsAddr) && OneOfTwo(EnableLeaderElection);
    assert ParseArg(arg).name == FlagName(MetricsAddr) || ParseArg(arg).name == FlagName(EnableLeaderElection);
  }

  lemma VariablesSuffice(env: seq<EnvVar>, ns: string, spec: Spec)
    requires Printable(EnvOf(ns, spec)) && env == Vars(EnvOf(ns, spec))
    ensures SpecVariables(env, ns, spec)
  {
    forall f | Paired(f)
      ensures VariableSet(env, ns, spec, f)
    {
      SetToVars(EnvOf(ns, spec), f);
      EnvCarriesValues(ns, spec, f);
    }
    forall k | 0 <= k < |env|
      ensures KnownVariable(env[k])
    {
      var f := EnvOf(ns, spec)[k].flag;
      assert Paired(f) && env[k].name == EnvName(f);
    }
  }

  lemma KeptPassed(args: seq<string>, ns: string, spec: Spec, visit: seq<string>, f: Flag)
    requires args == Kept(Line(ArgsOf(ns, spec, visit)), Compatible(KeptFlag))
    ensures PassedOrNot(args, ns, spec, visit, f)
  {
    KeptArgs(ns, spec, visit, f);
  }

  lemma KeptSuffice(args: seq<string>, ns: string, spec: Spec, visit: seq<string>)
    requires args == Kept(Line(ArgsOf(ns, spec, visit)), Compatible(KeptFlag))
    ensures TwoFlagsOnly(args, ns, spec, visit)
  {
    forall f
      ensures PassedOrNot(args, ns, spec, visit, f)
    {
      KeptPassed(args, ns, spec, visit, f);
    }
    forall k | 0 <= k < |args|
      ensures KeptArgument(args[k])
    {
      OnlyKeptFlags(Line(ArgsOf(ns, spec, visit)), k);
    }
  }

  // The parts of a container.
  lemma ContainerParts(image: string, ns: string, spec: Spec, visit: seq<string>, c: Container)
    requires c == ContainerOf(image, ns, spec, visit)
    ensures c.image == image && c.args == ArgsFor(image, ns, spec, visit) && c.env == EnvFor(image, ns, spec)
  {
  }

  lemma NewParts(image: string, ns: string, spec: Spec, visit: seq<string>, args: seq<string>, env: seq<EnvVar>)
    requires args == ArgsFor(image, ns, spec, visit) && env == EnvFor(image, ns, spec)
    requires !DetectEnvVarVersion(VersionFromImage(image))
    ensures args == Line(ArgsOf(ns, spec, visit)) && env == []
  {
  }

  lemma OldArgs(image: string, ns: string, spec: Spec, visit: seq<string>, args: seq<string>)
    requires args == ArgsFor(image, ns, spec, visit) && DetectEnvVarVersion(VersionFromImage(image))
    ensures TwoFlagsOnly(args, ns, spec, visit)
  {
    KeptSuffice(args, ns, spec, visit);
  }

  lemma OldEnv(image: string, ns: string, spec: Spec, env: seq<EnvVar>)
    requires env == EnvFor(image, ns, spec) && DetectEnvVarVersion(VersionFromImage(image))
    ensures SpecVariables(env, ns, spec)
  {
    EnvPrintable(ns, spec);
    VariablesSuffice(env, ns, spec);
  }

  // The container by what its image's version says.
  lemma ContainerByVersion(image: string, ns: string, spec: Spec, visit: seq<string>, c: Container)
    requires c == ContainerOf(image, ns, spec, visit)
    ensures c.image == image
    ensures if DetectEnvVarVersion(VersionFromImage(image)) then ByEnvironment(c, ns, spec, visit)
            else ByArguments(c, ns, spec, visit)
  {
    ContainerParts(image, ns, spec, visit, c);
    if DetectEnvVarVersion(VersionFromImage(image)) {
      OldArgs(image, ns, spec, visit, c.args);
      OldEnv(image, ns, spec, c.env);
    } else {
      NewParts(image, ns, spec, visit, c.args, c.env);
      ArgumentsSuffice(c, ns, spec, visit);
    }
  }

  lemma TheContainer(
      d: Option<Manifest>, name: string, ns: string, labels: map<string, string>, spec: Spec, images: Images,
      visit: seq<string>)
    requires Described(d, name, ns, labels, spec, images, visit)
    ensures d.value.body.Workload? && |PodOf(d).containers| == 1
    ensures PodOf(d).containers[0] == ContainerOf(ImageOf(spec, images), ns, spec, visit)
  {
  }

  // The container of a release image v0.m: from version 11 on it is configured by arguments
  // and nothing else, before that by the environment.
  lemma {:induction false} ReleaseContainer(
      d: Option<Manifest>, name: string, ns: string, labels: map<string, string>, spec: Spec, images: Images,
      visit: seq<string>, prefix: string, m: string, r: string)
    requires Described(d, name, ns, labels, spec, images, visit)
    requires d.value.body.Workload? && |PodOf(d).containers| == 1
    requires m != "" && Digits(m) && r != "" && ':' !in r && r[0] != '\n'
    requires PodOf(d).containers[0].image == prefix + ":" + ("v0." + m + "." + r)
    ensures if DigitsValue(m) <= 10 then ByEnvironment(PodOf(d).containers[0], ns, spec, visit)
            else ByArguments(PodOf(d).containers[0], ns, spec, visit)
  {
    var c := PodOf(d).containers[0];
    TheContainer(d, name, ns, labels, spec, images, visit);
    ContainerByVersion(ImageOf(spec, images), ns, spec, visit, c);
    OldImageDetection(prefix, m, r);
  }

  // So is the container of an image whose tag is no such version.
  lemma {:induction false} OtherContainer(
      d: Option<Manifest>, name: string, ns: string, labels: map<string, string>, spec: Spec, images: Images,
      visit: seq<string>)
    requires Described(d, name, ns, labels, spec, images, visit)
    requires d.value.body.Workload? && |PodOf(d).containers| == 1
    requires !Matches(VersionFromImage(PodOf(d).containers[0].image))
    ensures ByArguments(PodOf(d).containers[0], ns, spec, visit)
  {
    TheContainer(d, name, ns, labels, spec, images, visit);
    ContainerByVersion(ImageOf(spec, images), ns, spec, visit, PodOf(d).containers[0]);
  }

  // ---- The rest of the pod -------------------------------------------------

  // The image of the spec comes first, then the related one, then the one built in; without
  // a policy images are always pulled, and without a number there is one replica. The pod
  // runs as the service account of the instance.
  lemma {:induction false} PodFields(
      d: Option<Manifest>, name: string, ns: string, labels: map<string, string>, spec: Spec, images: Images,
      visit: seq<string>)
    requires Described(d, name, ns, labels, spec, images, visit)
    ensures d.value.key == Key(DeploymentKind, ns, name) && d.value.labels == labels
    ensures d.value.body.Workload? && d.value.body.status == [] && |PodOf(d).containers| == 1
    ensures var c := PodOf(d).containers[0];
      && (spec.image != "" ==> c.image == spec.image)
      && (spec.image == "" && images.related != "" ==> c.image == images.related)
      && (spec.image == "" && images.related == "" ==> c.image == images.builtIn)
      && c.image != ""
      && c.name == "authorino"
      && c.imagePullPolicy == (if spec.imagePullPolicy == "" then "Always" else spec.imagePullPolicy)
    ensures spec.replicas.Some? ==> PodOf(d).replicas == spec.replicas.value
    ensures spec.replicas.None? ==> PodOf(d).replicas == 1
    ensures GetAuthorinoServiceAccount(ns, name, labels).key == Key(ServiceAccountKind, ns, PodOf(d).serviceAccountName)
  {
    TheContainer(d, name, ns, labels, spec, images, visit);
  }

  // ---- Volumes and certificates --------------------------------------------

  // The certificate of a server: its secret is a volume, no other secret has that name, and
  // certificate and key are mounted from it where the server is told to look for them.
  ghost predicate CertificateInPlace(pod: DeploymentSpec, c: Container, secret: string, cert: CertFile, key: CertFile) {
    exists n: string ::
      && SecretVolume(n, secret) in pod.volumes
      && (forall v | v in pod.volumes && v.SecretVolume? && v.name == n :: v.secretName == secret)
      && Mount(n, DefaultPath(cert), "tls.crt", true) in c.mounts
      && Mount(n, DefaultPath(key), "tls.key", true) in c.mounts
  }

  lemma NoUserSecrets(items: seq<VolumeSpec>, mode: Option<Int32>)
    ensures forall v | v in UserVolumesOf(items, mode) :: v.Projected?
  {
  }

  lemma CertificateVolumes(spec: Spec, v: Volume)
    requires CertNamed(spec.listener.tls) && CertNamed(spec.oidcServer.tls)
    requires v in VolumesOf(spec) && v.SecretVolume?
    ensures v in TlsVolumes(spec.listener.tls, LISTENER_VOLUME) || v in TlsVolumes(spec.oidcServer.tls, OIDC_VOLUME)
  {
    NoUserSecrets(spec.volumes.items, spec.volumes.defaultMode);
  }

  lemma ListenerInPlace(pod: DeploymentSpec, c: Container, spec: Spec)
    requires CertNamed(spec.listener.tls) && CertNamed(spec.oidcServer.tls) && spec.listener.tls.On()
    requires pod.volumes == VolumesOf(spec) && c.mounts == MountsOf(spec)
    ensures CertificateInPlace(pod, c, spec.listener.tls.certSecret.value, ListenerCert, ListenerKey)
  {
    var n, secret := LISTENER_VOLUME, spec.listener.tls.certSecret.value;
    var mounts := TlsMounts(spec.listener.tls, n, ListenerCert, ListenerKey);
    assert mounts[0] in c.mounts && mounts[1] in c.mounts;
    assert TlsVolumes(spec.listener.tls, n)[0] in pod.volumes;
    assert n[0] != OIDC_VOLUME[0];
    forall v | v in pod.volumes && v.SecretVolume? && v.name == n
      ensures v.secretName == secret
    {
      CertificateVolumes(spec, v);
    }
  }

  lemma OidcInPlace(pod: DeploymentSpec, c: Container, spec: Spec)
    requires CertNamed(spec.listener.tls) && CertNamed(spec.oidcServer.tls) && spec.oidcServer.tls.On()
    requires pod.volumes == VolumesOf(spec) && c.mounts == MountsOf(spec)
    ensures CertificateInPlace(pod, c, spec.oidcServer.tls.certSecret.value, OidcCert, OidcKey)
  {
    var n, secret := OIDC_VOLUME, spec.oidcServer.tls.certSecret.value;
    var mounts := TlsMounts(spec.oidcServer.tls, n, OidcCert, OidcKey);
    assert mounts[0] in c.mounts && mounts[1] in c.mounts;
    assert TlsVolumes(spec.oidcServer.tls, n)[0] in pod.volumes;
    assert n[0] != LISTENER_VOLUME[0];
    forall v | v in pod.volumes && v.SecretVolume? && v.name == n
      ensures v.secretName == secret
    {
      CertificateVolumes(spec, v);
    }
  }

  lemma TheVolumes(
      d: Option<Manifest>, name: string, ns: string, labels: map<string, string>, spec: Spec, images: Images,
      visit: seq<string>)
    requires Described(d, name, ns, labels, spec, images, visit)
    ensures CertNamed(spec.listener.tls) && CertNamed(spec.oidcServer.tls)
    ensures d.value.body.Workload? && |PodOf(d).containers| == 1
    ensures PodOf(d).volumes == VolumesOf(spec) && PodOf(d).containers[0].mounts == MountsOf(spec)
  {
  }

  // Where the two servers are told to find certificate and key.
  lemma ToldWhere(ns: string, spec: Spec, visit: seq<string>)
    ensures spec.listener.tls.On() ==>
      && Shown(FlagValues(ns, spec, visit, TlsCert)) == [Some(DefaultPath(ListenerCert))]
      && Shown(FlagValues(ns, spec, visit, TlsCertKey)) == [Some(DefaultPath(ListenerKey))]
    ensures spec.oidcServer.tls.On() ==>
      && Shown(FlagValues(ns, spec, visit, OidcTlsCert)) == [Some(DefaultPath(OidcCert))]
      && Shown(FlagValues(ns, spec, visit, OidcTlsCertKey)) == [Some(DefaultPath(OidcKey))]
  {
  }

  // Each server whose TLS is not switched off finds the certificate and the key of its own secret at the very
  // paths its flags name, and every volume the user asked for is mounted where asked.
  lemma {:induction false} CertificatesInPlace(
      d: Option<Manifest>, name: string, ns: string, labels: map<string, string>, spec: Spec, images: Images,
      visit: seq<string>)
    requires Described(d, name, ns, labels, spec, images, visit)
    ensures d.value.body.Workload? && |PodOf(d).containers| == 1
    ensures spec.listener.tls.enabled != Some(false) ==>
      && spec.listener.tls.certSecret.Some?
      && CertificateInPlace(PodOf(d), PodOf(d).containers[0], spec.listener.tls.certSecret.value,
                            ListenerCert, ListenerKey)
      && Shown(FlagValues(ns, spec, visit, TlsCert)) == [Some(DefaultPath(ListenerCert))]
      && Shown(FlagValues(ns, spec, visit, TlsCertKey)) == [Some(DefaultPath(ListenerKey))]
    ensures spec.oidcServer.tls.enabled != Some(false) ==>
      && spec.oidcServer.tls.certSecret.Some?
      && CertificateInPlace(PodOf(d), PodOf(d).containers[0], spec.oidcServer.tls.certSecret.value, OidcCert, OidcKey)
      && Shown(FlagValues(ns, spec, visit, OidcTlsCert)) == [Some(DefaultPath(OidcCert))]
      && Shown(FlagValues(ns, spec, visit, OidcTlsCertKey)) == [Some(DefaultPath(OidcKey))]
    ensures forall k | 0 <= k < |spec.volumes.items| ::
      Mount(spec.volumes.items[k].name, spec.volumes.items[k].mountPath, "", false) in PodOf(d).containers[0].mounts
  {
    TheVolumes(d, name, ns, labels, spec, images, visit);
    ToldWhere(ns, spec, visit);
    UsersMounted(spec);
    if spec.listener.tls.On() {
      ListenerInPlace(PodOf(d), PodOf(d).containers[0], spec);
    }
    if spec.oidcServer.tls.On() {
      OidcInPlace(PodOf(d), PodOf(d).containers[0], spec);
    }
  }

  lemma UsersMounted(spec: Spec)
    ensures forall k | 0 <= k < |spec.volumes.items| ::
      Mount(spec.volumes.items[k].name, spec.volumes.items[k].mountPath, "", false) in MountsOf(spec)
  {
    forall k | 0 <= k < |spec.volumes.items|
      ensures Mount(spec.volumes.items[k].name, spec.volumes.items[k].mountPath, "", false) in MountsOf(spec)
    {
      assert UserMountsOf(spec.volumes.items)[k] in MountsOf(spec);
    }
  }

  // ---- Services and pods ---------------------------------------------------

  // A label selector.
  predicate Selects(selector: map<string, string>, labels: map<string, string>) {
    forall k | k in selector :: k in labels && labels[k] == selector[k]
  }

  lemma OwnLabelsOnly(name: string, other: string)
    ensures Selects(DefaultAuthorinoLabels(name), DefaultAuthorinoLabels(other)) <==> name == other
  {
    assert DefaultAuthorinoLabels(name)["authorino-resource"] == name;
    assert DefaultAuthorinoLabels(other)["authorino-resource"] == other;
  }

  lemma PodLabels(
      d: Option<Manifest>, name: string, ns: string, labels: map<string, string>, spec: Spec, images: Images,
      visit: seq<string>)
    requires Described(d, name, ns, labels, spec, images, visit)
    ensures d.value.body.Workload?
    ensures PodOf(d).selector == PodOf(d).podLabels == DefaultAuthorinoLabels(name)
  {
  }

  lemma ServiceSelector(endpoint: Endpoint, name: string, ns: string, labels: map<string, string>, spec: Spec)
    ensures var m := EndpointService(endpoint, name, ns, spec, labels);
      m.body.Serving? && m.body.service.selector == DefaultAuthorinoLabels(name)
  {
  }

  // Of the pods of its namespace, a Service leads to those of its own instance and to no
  // others; and so does a Deployment count them.
  lemma {:induction false} ServicesSelectOwnPods(
      d: Option<Manifest>, name: string, ns: string, labels: map<string, string>, spec: Spec, images: Images,
      visit: seq<string>,
      e: Option<Manifest>, other: string, otherLabels: map<string, string>, otherSpec: Spec, otherVisit: seq<string>,
      endpoint: Endpoint)
    requires Described(d, name, ns, labels, spec, images, visit)
    requires Described(e, other, ns, otherLabels, otherSpec, images, otherVisit)
    ensures d.value.body.Workload? && e.value.body.Workload?
    ensures Selects(PodOf(d).selector, PodOf(e).podLabels) <==> name == other
    ensures EndpointService(endpoint, name, ns, spec, labels).body.Serving?
    ensures Selects(EndpointService(endpoint, name, ns, spec, labels).body.service.selector, PodOf(e).podLabels)
      <==> name == other
  {
    PodLabels(d, name, ns, labels, spec, images, visit);
    PodLabels(e, other, ns, otherLabels, otherSpec, images, otherVisit);
    ServiceSelector(endpoint, name, ns, labels, spec);
    OwnLabelsOnly(name, other);
  }
}
