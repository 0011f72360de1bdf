// The three Services of an instance (pkg/resources/k8s_services.go,
// pkg/reconcilers/authorino_reconciler.go:50-102) and the ports they share with the
// container's command line.
module Services {
  import opened Text
  import opened Api
  import opened Objects
  import opened Flags
  import opened Args
  import opened RoundTrip
  import opened Maps

  const DEFAULT_GRPC_PORT: Int32 := 50051
  const DEFAULT_HTTP_PORT: Int32 := 5001
  const DEFAULT_OIDC_PORT: Int32 := 8083
  const DEFAULT_METRICS_PORT: Int32 := 8080

  const AUTH_SERVICE: string := "authorino-authorization"
  const OIDC_SERVICE: string := "authorino-oidc"
  const METRICS_SERVICE: string := "controller-metrics"

  // ---- Effective ports -----------------------------------------------------

  datatype Endpoint = GrpcEndpoint | HttpEndpoint | OidcEndpoint | MetricsEndpoint

  function AskedPort(spec: Spec, e: Endpoint): Option<Int32> {
    match e
    case GrpcEndpoint => spec.listener.GrpcPort()
    case HttpEndpoint => spec.listener.ports.http
    case OidcEndpoint => spec.oidcServer.port
    case MetricsEndpoint => spec.metrics.port
  }

  function DefaultPort(e: Endpoint): Int32 {
    match e
    case GrpcEndpoint => DEFAULT_GRPC_PORT
    case HttpEndpoint => DEFAULT_HTTP_PORT
    case OidcEndpoint => DEFAULT_OIDC_PORT
    case MetricsEndpoint => DEFAULT_METRICS_PORT
  }

  function EffectivePort(spec: Spec, e: Endpoint): Int32 {
    match AskedPort(spec, e)
    case Some(n) => n
    case None => DefaultPort(e)
  }

  // ---- Services ------------------------------------------------------------

  function DefaultAuthorinoLabels(name: string): map<string, string> {
    map["control-plane" := "controller-manager", "authorino-resource" := name]
  }

  function NewServicePort(name: string, number: Int32): ServicePort {
    ServicePort(name, number, "TCP", number)
  }

  function NewService(
      serviceName: string, ns: string, authorinoName: string, labels: map<string, string>,
      ports: seq<ServicePort>): Manifest {
    Manifest(Key(ServiceKind, ns, authorinoName + "-" + serviceName), labels, map[], None,
             Serving(ServiceSpec(ports, DefaultAuthorinoLabels(authorinoName))))
  }

  // A port of zero is not exposed.
  function Exposing(name: string, number: Int32): seq<ServicePort> {
    if number == 0 then [] else [NewServicePort(name, number)]
  }

  function AuthServiceOf(name: string, ns: string, grpc: Int32, http: Int32, labels: map<string, string>): Manifest {
    NewService(AUTH_SERVICE, ns, name, labels, Exposing("grpc", grpc) + Exposing("http", http))
  }

  function OidcServiceOf(name: string, ns: string, port: Int32, labels: map<string, string>): Manifest {
    NewService(OIDC_SERVICE, ns, name, labels, Exposing("http", port))
  }

  // The Service's own labels win over those of the custom resource.
  function MetricsLabels(name: string, labels: map<string, string>): map<string, string> {
    (labels + DefaultAuthorinoLabels(name))
    ["app.kubernetes.io/component" := "metrics"]
    ["app.kubernetes.io/part-of" := "authorino"]
    ["app.kubernetes.io/managed-by" := "authorino-operator"]
  }

  function MetricsServiceOf(name: string, ns: string, port: Int32, labels: map<string, string>): Manifest {
    NewService(METRICS_SERVICE, ns, name, MetricsLabels(name, labels), Exposing("http", port))
  }

  // The guarded append of a port.
  method ExposePort(before: seq<ServicePort>, name: string, number: Int32) returns (ports: seq<ServicePort>)
    ensures ports == before + Exposing(name, number)
  {
    ports := before;
    if number != 0 {
      ports := ports + [NewServicePort(name, number)];
    }
  }

  method NewAuthService(name: string, ns: string, grpcPort: Int32, httpPort: Int32, labels: map<string, string>)
    returns (m: Manifest)
    ensures m == AuthServiceOf(name, ns, grpcPort, httpPort, labels)
  {
    var ports := ExposePort([], "grpc", grpcPort);
    ports := ExposePort(ports, "http", httpPort);
    assert ports == Exposing("grpc", grpcPort) + Exposing("http", httpPort);
    m := NewService(AUTH_SERVICE, ns, name, labels, ports);
  }

  method NewOIDCService(name: string, ns: string, port: Int32, labels: map<string, string>) returns (m: Manifest)
    ensures m == OidcServiceOf(name, ns, port, labels)
  {
    var ports := ExposePort([], "http", port);
    assert ports == Exposing("http", port);
    m := NewService(OIDC_SERVICE, ns, name, labels, ports);
  }

  // A copy of the custom resource's labels with the defaults merged in.
  method MergedLabels(labels: GoMap?, defaults: map<string, string>, visit: seq<string>, merging: seq<string>)
    returns (merged: GoMap)
    requires Enumerates(visit, EntriesOf(labels).Keys) && Enumerates(merging, defaults.Keys)
    ensures fresh(merged) && merged.entries == EntriesOf(labels) + defaults
  {
    var copy := CopyMap(labels, visit);
    var pointer := new MapPointer(copy);
    var desired := new GoMap();
    desired.entries := defaults;
    var _ := MergeMapStringString(pointer, desired, merging);
    merged := pointer.target;
  }

  // The labels of the custom resource are copied before the Service's own are merged in:
  // nothing that existed before is modified.
  method NewMetricsService(
      name: string, ns: string, port: Int32, labels: GoMap?, visit: seq<string>, merging: seq<string>)
    returns (m: Manifest)
    requires Enumerates(visit, EntriesOf(labels).Keys)
    requires Enumerates(merging, DefaultAuthorinoLabels(name).Keys)
    ensures m == MetricsServiceOf(name, ns, port, EntriesOf(labels))
    ensures EntriesOf(labels) == old(EntriesOf(labels))
  {
    var ports := ExposePort([], "http", port);
    assert ports == Exposing("http", port);
    var metricLabels := MergedLabels(labels, DefaultAuthorinoLabels(name), visit, merging);
    metricLabels.entries := metricLabels.entries["app.kubernetes.io/component" := "metrics"];
    metricLabels.entries := metricLabels.entries["app.kubernetes.io/part-of" := "authorino"];
    metricLabels.entries := metricLabels.entries["app.kubernetes.io/managed-by" := "authorino-operator"];
    m := NewService(METRICS_SERVICE, ns, name, metricLabels.entries, ports);
  }

  // ---- Port agreement ------------------------------------------------------

  function PortsNamed(ports: seq<ServicePort>, name: string): seq<ServicePort> {
    if ports == [] then []
    else (if ports[0].name == name then [ports[0]] else []) + PortsNamed(ports[1..], name)
  }

  function EndpointPortName(e: Endpoint): string {
    if e == GrpcEndpoint then "grpc" else "http"
  }

  function EndpointFlag(e: Endpoint): Flag {
    match e
    case GrpcEndpoint => ExtAuthGrpcPort
    case HttpEndpoint => ExtAuthHttpPort
    case OidcEndpoint => OidcHttpPort
    case MetricsEndpoint => MetricsAddr
  }

  // The Service that exposes an endpoint.
  function EndpointService(e: Endpoint, name: string, ns: string, spec: Spec, labels: map<string, string>): Manifest {
    match e
    case GrpcEndpoint | HttpEndpoint =>
      AuthServiceOf(name, ns, EffectivePort(spec, GrpcEndpoint), EffectivePort(spec, HttpEndpoint), labels)
    case OidcEndpoint => OidcServiceOf(name, ns, EffectivePort(spec, OidcEndpoint), labels)
    case MetricsEndpoint => MetricsServiceOf(name, ns, EffectivePort(spec, MetricsEndpoint), labels)
  }

  // How the command line writes a port: the metrics server takes an address.
  function PortText(e: Endpoint, n: int): string {
    if e == MetricsEndpoint then ":" + IntText(n) else IntText(n)
  }

  // A port under which the Service forwards to the port of the same number.
  function Forwarded(name: string, number: Int32): ServicePort {
    ServicePort(name, number, "TCP", number)
  }

  lemma PortsOfTwo(a: string, m: Int32, b: string, n: Int32)
    requires a != b
    ensures PortsNamed(Exposing(a, m) + Exposing(b, n), a) == if m == 0 then [] else [Forwarded(a, m)]
    ensures PortsNamed(Exposing(a, m) + Exposing(b, n), b) == if n == 0 then [] else [Forwarded(b, n)]
  {
    PortsOfOne(b, n, a);
    if m != 0 {
      assert (Exposing(a, m) + Exposing(b, n))[1..] == Exposing(b, n);
    } else {
      assert Exposing(a, m) + Exposing(b, n) == Exposing(b, n);
    }
  }

  lemma PortsOfOne(a: string, m: Int32, other: string)
    ensures PortsNamed(Exposing(a, m), a) == if m == 0 then [] else [Forwarded(a, m)]
    ensures other != a ==> PortsNamed(Exposing(a, m), other) == []
  {
  }

  lemma EndpointValues(ns: string, spec: Spec, visit: seq<string>, e: Endpoint)
    ensures FlagValues(ns, spec, visit, EndpointFlag(e)) ==
      PortValues(e, AskedPort(spec, e))
  {
  }

  lemma ValuesPassed(ns: string, spec: Spec, visit: seq<string>, f: Flag, values: seq<Value>)
    requires FlagValues(ns, spec, visit, f) == values
    ensures Passed(Line(ArgsOf(ns, spec, visit)), FlagName(f)) == Shown(values)
  {
    LinePassesValues(ns, spec, visit, f);
  }

  function PortValues(e: Endpoint, asked: Option<int>): seq<Value> {
    if e == MetricsEndpoint then Addresses(asked) else Numbers(asked)
  }

  lemma PortShown(e: Endpoint, asked: Option<int>)
    ensures Shown(PortValues(e, asked)) == if asked == None then [] else [Some(PortText(e, asked.value))]
  {
  }

  // The text with which the container is told a port.
  lemma EndpointArgument(ns: string, spec: Spec, visit: seq<string>, e: Endpoint, f: Flag, asked: Option<int>)
    requires FlagValues(ns, spec, visit, f) == PortValues(e, asked)
    ensures Passed(Line(ArgsOf(ns, spec, visit)), FlagName(f))
      == if asked == None then [] else [Some(PortText(e, asked.value))]
  {
    ValuesPassed(ns, spec, visit, f, PortValues(e, asked));
    PortShown(e, asked);
  }

  // The ports in effect: as the spec says, or by default; of the two places for the gRPC
  // port, the deprecated one counts only when the other is empty.
  lemma EffectivePorts(spec: Spec)
    ensures spec.listener.ports.grpc.Some? ==> EffectivePort(spec, GrpcEndpoint) == spec.listener.ports.grpc.value
    ensures spec.listener.ports.grpc.None? && spec.listener.port.Some? ==>
      EffectivePort(spec, GrpcEndpoint) == spec.listener.port.value
    ensures spec.listener.ports.grpc.None? && spec.listener.port.None? ==> EffectivePort(spec, GrpcEndpoint) == 50051
    ensures EffectivePort(spec, HttpEndpoint) ==
      if spec.listener.ports.http.Some? then spec.listener.ports.http.value else 5001
    ensures EffectivePort(spec, OidcEndpoint) == if spec.oidcServer.port.Some? then spec.oidcServer.port.value else 8083
    ensures EffectivePort(spec, MetricsEndpoint) == if spec.metrics.port.Some? then spec.metrics.port.value else 8080
  {
  }

  // For every endpoint: its Service exposes the effective port exactly when that is not
  // zero, under one name and once, over TCP, and forwards it to the same port of the pod; the
  // container is told a port exactly when the spec names one, and then it is that port. No
  // Service exposes anything but its endpoints.
  lemma PortAgreement(
      name: string, ns: string, spec: Spec, labels: map<string, string>, visit: seq<string>, e: Endpoint)
    ensures EndpointService(e, name, ns, spec, labels).body.Serving?
    ensures PortsNamed(EndpointService(e, name, ns, spec, labels).body.service.ports, EndpointPortName(e))
         == var n := EffectivePort(spec, e);
            if n == 0 then [] else [ServicePort(EndpointPortName(e), n, "TCP", n)]
    ensures Passed(Line(ArgsOf(ns, spec, visit)), FlagName(EndpointFlag(e)))
         == if AskedPort(spec, e) == None then [] else [Some(PortText(e, EffectivePort(spec, e)))]
    ensures forall p | p in EndpointService(e, name, ns, spec, labels).body.service.ports ::
      exists x :: ServiceName(x) == ServiceName(e) && p.name == EndpointPortName(x)
  {
    ExposedPort(name, ns, spec, labels, e);
    OnlyEndpoints(name, ns, spec, labels, e);
    EndpointValues(ns, spec, visit, e);
    EndpointArgument(ns, spec, visit, e, EndpointFlag(e), AskedPort(spec, e));
  }

  lemma ExposedPort(name: string, ns: string, spec: Spec, labels: map<string, string>, e: Endpoint)
    ensures EndpointService(e, name, ns, spec, labels).body.Serving?
    ensures PortsNamed(EndpointService(e, name, ns, spec, labels).body.service.ports, EndpointPortName(e))
         == if EffectivePort(spec, e) == 0 then [] else [Forwarded(EndpointPortName(e), EffectivePort(spec, e))]
  {
    PortsOfTwo("grpc", EffectivePort(spec, GrpcEndpoint), "http", EffectivePort(spec, HttpEndpoint));
    PortsOfOne("http", EffectivePort(spec, e), "grpc");
  }

  lemma OnlyEndpoints(name: string, ns: string, spec: Spec, labels: map<string, string>, e: Endpoint)
    ensures EndpointService(e, name, ns, spec, labels).body.Serving?
    ensures forall p | p in EndpointService(e, name, ns, spec, labels).body.service.ports ::
      exists x :: ServiceName(x) == ServiceName(e) && p.name == EndpointPortName(x)
  {
    forall p | p in EndpointService(e, name, ns, spec, labels).body.service.ports
      ensures exists x :: ServiceName(x) == ServiceName(e) && p.name == EndpointPortName(x)
    {
      assert ServiceName(GrpcEndpoint) == ServiceName(HttpEndpoint);
      if e.GrpcEndpoint? || e.HttpEndpoint? {
        assert p.name == EndpointPortName(GrpcEndpoint) || p.name == EndpointPortName(HttpEndpoint);
      } else {
        assert p.name == EndpointPortName(e);
      }
    }
  }

  function ServiceName(e: Endpoint): string {
    match e
    case GrpcEndpoint | HttpEndpoint => AUTH_SERVICE
    case OidcEndpoint => OIDC_SERVICE
    case MetricsEndpoint => METRICS_SERVICE
  }

  // The labels of the custom resource are on all three Services; that of the metrics has
  // labels of its own, which win.
  lemma ServiceLabels(
      e: Endpoint, name: string, ns: string, spec: Spec, labels: map<string, string>,
      own: map<string, string>)
    requires own == map[
      "control-plane" := "controller-manager", "authorino-resource" := name,
      "app.kubernetes.io/component" := "metrics", "app.kubernetes.io/part-of" := "authorino",
      "app.kubernetes.io/managed-by" := "authorino-operator"]
    ensures EndpointService(e, name, ns, spec, labels).labels ==
      if e.MetricsEndpoint? then labels + own else labels
  {
    if e.MetricsEndpoint? {
      assert MetricsLabels(name, labels) == labels + own;
    }
  }

  // What every Service looks like from outside.
  predicate Shaped(m: Manifest, key: Key) {
    m.key == key && m.annotations == map[] && m.body.Serving?
  }

  lemma ServiceShaped(e: Endpoint, name: string, ns: string, spec: Spec, labels: map<string, string>)
    ensures Shaped(EndpointService(e, name, ns, spec, labels), Key(ServiceKind, ns, name + "-" + ServiceName(e)))
  {
  }
}
