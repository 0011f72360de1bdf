// The container's command line and environment (pkg/reconcilers/deployment.go): two
// printers of one spec, the parser that inverts the first, and their agreement.
module Args {
  import opened Text
  import opened Api
  import opened Flags

  // ---- What a spec asks of each flag ---------------------------------------

  // The value given to a flag, before formatting.
  datatype Value =
    | Bare
    | Plain(text: string)
    | Mounted(file: CertFile)
    | Number(number: int)
    | Address(port: int)
    | Listed(parts: seq<string>)
    | Pair(key: string, text: string)
  {
    // What the flag's "%s" or "%d" becomes; None for a flag without a value.
    function Shown(): Option<string> {
      match this
      case Bare => None
      case Plain(s) => Some(s)
      case Mounted(file) => Some(DefaultPath(file))
      case Number(n) => Some(IntText(n))
      case Address(n) => Some(":" + IntText(n))
      case Listed(parts) => Some(Join(parts, ','))
      case Pair(k, v) => Some(k + "=" + v)
    }
  }

  function Switch(on: bool): seq<Value> {
    if on then [Bare] else []
  }

  function Texts(s: string): seq<Value> {
    if s == "" then [] else [Plain(s)]
  }

  function Numbers(n: Option<int>): seq<Value> {
    if n == None then [] else [Number(n.value)]
  }

  function Addresses(port: Option<int>): seq<Value> {
    if port == None then [] else [Address(port.value)]
  }

  function WhenOn(tls: Tls, values: seq<Value>): seq<Value> {
    if tls.On() then values else []
  }

  function Ciphers(suites: seq<string>): seq<Value> {
    if suites == [] then [] else [Listed(suites)]
  }

  function TagValues(tags: map<string, string>, visit: seq<string>): seq<Value> {
    seq(|visit|, i requires 0 <= i < |visit| =>
      Pair(visit[i], if visit[i] in tags then tags[visit[i]] else ""))
  }

  // The values with which a flag is passed, in order. TLS flags appear only while TLS is
  // on, tracing flags only with an endpoint; tags come in the order in which the map
  // happens to be visited.
  function FlagValues(ns: string, spec: Spec, visit: seq<string>, f: Flag): seq<Value> {
    match f
    case WatchNamespace => if spec.clusterWide then [] else [Plain(ns)]
    case AuthConfigLabelSelector => Texts(spec.authConfigLabelSelectors)
    case SecretLabelSelector => Texts(spec.secretLabelSelectors)
    case SupersedingHostSubsets => Switch(spec.supersedingHostSubsets)
    case LogLevel => Texts(spec.logLevel)
    case LogMode => Texts(spec.logMode)
    case Timeout => Numbers(spec.listener.timeout)
    case ExtAuthGrpcPort => Numbers(spec.listener.GrpcPort())
    case ExtAuthHttpPort => Numbers(spec.listener.ports.http)
    case TlsCert => WhenOn(spec.listener.tls, [Mounted(ListenerCert)])
    case TlsCertKey => WhenOn(spec.listener.tls, [Mounted(ListenerKey)])
    case TlsMinVersion => WhenOn(spec.listener.tls, Texts(spec.listener.tls.minVersion))
    case TlsMaxVersion => WhenOn(spec.listener.tls, Texts(spec.listener.tls.maxVersion))
    case TlsCipherSuites => WhenOn(spec.listener.tls, Ciphers(spec.listener.tls.cipherSuites))
    case OidcHttpPort => Numbers(spec.oidcServer.port)
    case OidcTlsCert => WhenOn(spec.oidcServer.tls, [Mounted(OidcCert)])
    case OidcTlsCertKey => WhenOn(spec.oidcServer.tls, [Mounted(OidcKey)])
    case OidcTlsMinVersion => WhenOn(spec.oidcServer.tls, Texts(spec.oidcServer.tls.minVersion))
    case OidcTlsMaxVersion => WhenOn(spec.oidcServer.tls, Texts(spec.oidcServer.tls.maxVersion))
    case OidcTlsCipherSuites => WhenOn(spec.oidcServer.tls, Ciphers(spec.oidcServer.tls.cipherSuites))
    case EvaluatorCacheSize => Numbers(spec.evaluatorCacheSize)
    case TracingEndpoint => Texts(spec.tracing.endpoint)
    case TracingTag => if spec.tracing.endpoint != "" then TagValues(spec.tracing.tags, visit) else []
    case TracingInsecure => Switch(spec.tracing.endpoint != "" && spec.tracing.insecure)
    case DeepMetricsEnabled => Switch(spec.metrics.deep.Some? && spec.metrics.deep.value)
    case MetricsAddr => Addresses(spec.metrics.port)
    case HealthProbeAddr => Addresses(spec.healthzPort)
    case EnableLeaderElection => Switch(spec.replicas.Some? && spec.replicas.value > 1)
    case MaxHttpRequestBodySize => Numbers(spec.listener.maxHttpRequestBodySize)
  }

  // The flags of one of the two TLS servers, and where its certificate is mounted.
  datatype TlsFlags = TlsFlags(cert: Flag, key: Flag, min: Flag, max: Flag, suites: Flag,
                               certFile: CertFile, keyFile: CertFile)

  const LISTENER_TLS: TlsFlags :=
    TlsFlags(TlsCert, TlsCertKey, TlsMinVersion, TlsMaxVersion, TlsCipherSuites,
             ListenerCert, ListenerKey)

  const OIDC_TLS: TlsFlags :=
    TlsFlags(OidcTlsCert, OidcTlsCertKey, OidcTlsMinVersion, OidcTlsMaxVersion, OidcTlsCipherSuites,
             OidcCert, OidcKey)

  // One argument, before it is printed.
  datatype Arg = Arg(flag: Flag, value: Value) {
    // What fmt.Sprintf makes of it: "--flag" or "--flag=value".
    function Text(): string {
      match value.Shown()
      case None => "--" + FlagName(flag)
      case Some(v) => "--" + FlagName(flag) + "=" + v
    }
  }

  function Each(f: Flag, values: seq<Value>): (args: seq<Arg>)
    ensures |args| == |values|
  {
    seq(|values|, i requires 0 <= i < |values| => Arg(f, values[i]))
  }

  // The command line, section by section: each function appends its section to `args`.
  function ScopeArgs(args: seq<Arg>, ns: string, spec: Spec): seq<Arg> {
    args
    + Each(WatchNamespace, if spec.clusterWide then [] else [Plain(ns)])
    + Each(AuthConfigLabelSelector, Texts(spec.authConfigLabelSelectors))
    + Each(SecretLabelSelector, Texts(spec.secretLabelSelectors))
    + Each(SupersedingHostSubsets, Switch(spec.supersedingHostSubsets))
    + Each(LogLevel, Texts(spec.logLevel))
    + Each(LogMode, Texts(spec.logMode))
  }

  function PortArgs(args: seq<Arg>, listener: Listener): seq<Arg> {
    args
    + Each(Timeout, Numbers(listener.timeout))
    + Each(ExtAuthGrpcPort, Numbers(listener.GrpcPort()))
    + Each(ExtAuthHttpPort, Numbers(listener.ports.http))
  }

  function TlsArgs(args: seq<Arg>, tls: Tls, flags: TlsFlags): seq<Arg> {
    args
    + Each(flags.cert, WhenOn(tls, [Mounted(flags.certFile)]))
    + Each(flags.key, WhenOn(tls, [Mounted(flags.keyFile)]))
    + Each(flags.min, WhenOn(tls, Texts(tls.minVersion)))
    + Each(flags.max, WhenOn(tls, Texts(tls.maxVersion)))
    + Each(flags.suites, WhenOn(tls, Ciphers(tls.cipherSuites)))
  }

  function TracingArgs(args: seq<Arg>, tracing: Tracing, visit: seq<string>): seq<Arg> {
    args
    + Each(TracingEndpoint, Texts(tracing.endpoint))
    + Each(TracingTag, if tracing.endpoint != "" then TagValues(tracing.tags, visit) else [])
    + Each(TracingInsecure, Switch(tracing.endpoint != "" && tracing.insecure))
  }

  function OtherArgs(args: seq<Arg>, spec: Spec): seq<Arg> {
    args
    + Each(DeepMetricsEnabled, Switch(spec.metrics.deep.Some? && spec.metrics.deep.value))
    + Each(MetricsAddr, Addresses(spec.metrics.port))
    + Each(HealthProbeAddr, Addresses(spec.healthzPort))
    + Each(EnableLeaderElection, Switch(spec.replicas.Some? && spec.replicas.value > 1))
    + Each(MaxHttpRequestBodySize, Numbers(spec.listener.maxHttpRequestBodySize))
  }

  function ListenerArgs(ns: string, spec: Spec): seq<Arg> {
    TlsArgs(PortArgs(ScopeArgs([], ns, spec), spec.listener), spec.listener.tls, LISTENER_TLS)
  }

  function OidcArgs(args: seq<Arg>, oidc: OidcServer): seq<Arg> {
    TlsArgs(args + Each(OidcHttpPort, Numbers(oidc.port)), oidc.tls, OIDC_TLS)
  }

  function RemainingArgs(args: seq<Arg>, spec: Spec, visit: seq<string>): seq<Arg> {
    OtherArgs(TracingArgs(args + Each(EvaluatorCacheSize, Numbers(spec.evaluatorCacheSize)), spec.tracing, visit), spec)
  }

  function ArgsOf(ns: string, spec: Spec, visit: seq<string>): seq<Arg> {
    RemainingArgs(OidcArgs(ListenerArgs(ns, spec), spec.oidcServer), spec, visit)
  }

  // ---- buildAuthorinoArgs --------------------------------------------------

  // The guarded appends of the code, one per shape of guard. Each leaves `args` alone when
  // the spec does not ask for the flag.

  method AppendSwitch(args: seq<Arg>, f: Flag, on: bool) returns (res: seq<Arg>)
    ensures res == args + Each(f, Switch(on))
  {
    res := args;
    if on {
      res := res + [Arg(f, Bare)];
    }
  }

  method AppendValue(args: seq<Arg>, f: Flag, value: Value) returns (res: seq<Arg>)
    ensures res == args + Each(f, [value])
  {
    res := args + [Arg(f, value)];
  }

  method AppendText(args: seq<Arg>, f: Flag, value: string) returns (res: seq<Arg>)
    ensures res == args + Each(f, Texts(value))
  {
    res := args;
    if value != "" {
      res := AppendValue(res, f, Plain(value));
    }
  }

  method AppendNumber(args: seq<Arg>, f: Flag, value: Option<int>) returns (res: seq<Arg>)
    ensures res == args + Each(f, Numbers(value))
  {
    res := args;
    if value.Some? {
      res := AppendValue(res, f, Number(value.value));
    }
  }

  method AppendAddress(args: seq<Arg>, f: Flag, port: Option<int>) returns (res: seq<Arg>)
    ensures res == args + Each(f, Addresses(port))
  {
    res := args;
    if port.Some? {
      res := AppendValue(res, f, Address(port.value));
    }
  }

  // The five flags of a TLS server, which all depend on TLS being on.
  method AppendTls(args: seq<Arg>, tls: Tls, flags: TlsFlags) returns (res: seq<Arg>)
    ensures res == TlsArgs(args, tls, flags)
  {
    res := args;
    if tls.enabled == None || tls.enabled.value {
      res := AppendValue(res, flags.cert, Mounted(flags.certFile));
      res := AppendValue(res, flags.key, Mounted(flags.keyFile));
      res := AppendText(res, flags.min, tls.minVersion);
      res := AppendText(res, flags.max, tls.maxVersion);
      if |tls.cipherSuites| > 0 {
        res := AppendValue(res, flags.suites, Listed(tls.cipherSuites));
      }
    }
  }

  // Looking up a key that a Go map does not hold gives the empty text.
  method AppendTags(args: seq<Arg>, tags: map<string, string>, visit: seq<string>) returns (res: seq<Arg>)
    ensures res == args + Each(TracingTag, TagValues(tags, visit))
  {
    res := args;
    for i := 0 to |visit|
      invariant res == args + Each(TracingTag, TagValues(tags, visit[..i]))
    {
      var tag := if visit[i] in tags then tags[visit[i]] else "";
      res := AppendValue(res, TracingTag, Pair(visit[i], tag));
    }
    assert visit[..|visit|] == visit;
  }

  method AppendTracing(args: seq<Arg>, tracing: Tracing, visit: seq<string>) returns (res: seq<Arg>)
    ensures res == TracingArgs(args, tracing, visit)
  {
    res := args;
    if tracing.endpoint != "" {
      res := AppendValue(res, TracingEndpoint, Plain(tracing.endpoint));
      res := AppendTags(res, tracing.tags, visit);
      res := AppendSwitch(res, TracingInsecure, tracing.insecure);
    }
  }

  method AppendScope(args: seq<Arg>, ns: string, spec: Spec) returns (res: seq<Arg>)
    ensures res == ScopeArgs(args, ns, spec)
  {
    res := args;
    if !spec.clusterWide {
      res := AppendValue(res, WatchNamespace, Plain(ns));
    }
    res := AppendText(res, AuthConfigLabelSelector, spec.authConfigLabelSelectors);
    res := AppendText(res, SecretLabelSelector, spec.secretLabelSelectors);
    res := AppendSwitch(res, SupersedingHostSubsets, spec.supersedingHostSubsets);
    res := AppendText(res, LogLevel, spec.logLevel);
    res := AppendText(res, LogMode, spec.logMode);
  }

  method AppendPorts(args: seq<Arg>, listener: Listener) returns (res: seq<Arg>)
    ensures res == PortArgs(args, listener)
  {
    res := AppendNumber(args, Timeout, listener.timeout);
    var port := listener.ports.grpc;
    if port == None {
      port := listener.port; // deprecated
    }
    assert port == listener.GrpcPort();
    res := AppendNumber(res, ExtAuthGrpcPort, port);
    res := AppendNumber(res, ExtAuthHttpPort, listener.ports.http);
  }

  method AppendOther(args: seq<Arg>, spec: Spec) returns (res: seq<Arg>)
    ensures res == OtherArgs(args, spec)
  {
    res := AppendSwitch(args, DeepMetricsEnabled, spec.metrics.deep.Some? && spec.metrics.deep.value);
    res := AppendAddress(res, MetricsAddr, spec.metrics.port);
    res := AppendAddress(res, HealthProbeAddr, spec.healthzPort);
    res := AppendSwitch(res, EnableLeaderElection, spec.replicas.Some? && spec.replicas.value > 1);
    res := AppendNumber(res, MaxHttpRequestBodySize, spec.listener.maxHttpRequestBodySize);
  }

  // `visit` is the order in which the map of tracing tags is visited.
  method BuildAuthorinoArgs(ns: string, spec: Spec, visit: seq<string>) returns (args: seq<Arg>)
    ensures args == ArgsOf(ns, spec, visit)
  {
    args := AppendScope([], ns, spec);
    args := AppendPorts(args, spec.listener);
    args := AppendTls(args, spec.listener.tls, LISTENER_TLS);
    args := AppendNumber(args, OidcHttpPort, spec.oidcServer.port);
    args := AppendTls(args, spec.oidcServer.tls, OIDC_TLS);
    args := AppendNumber(args, EvaluatorCacheSize, spec.evaluatorCacheSize);
    args := AppendTracing(args, spec.tracing, visit);
    args := AppendOther(args, spec);
  }

  // ---- Reading a command line back -----------------------------------------

  // The values, in order, with which a flag is passed.
  function ValuesOf(args: seq<Arg>, f: Flag): seq<Value> {
    if args == [] then []
    else
      var last := args[|args| - 1];
      ValuesOf(args[..|args| - 1], f) + if last.flag == f then [last.value] else []
  }

  // Appending the arguments of one flag extends the values of that flag and no other.
  lemma {:induction false} ValuesAppend(args: seq<Arg>, g: Flag, values: seq<Value>, f: Flag)
    ensures ValuesOf(args + Each(g, values), f) ==
      if f == g then ValuesOf(args, f) + values else ValuesOf(args, f)
    decreases |values|
  {
    var all := args + Each(g, values);
    if values == [] {
      assert all == args;
    } else {
      var n := |values| - 1;
      ValuesAppend(args, g, values[..n], f);
      assert all[..|all| - 1] == args + Each(g, values[..n]);
      assert values == values[..n] + [values[n]];
    }
  }
}
