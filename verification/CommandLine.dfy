// Reading the printed command line back: the argument printer loses nothing of the
// effective spec, and exactly when it does.
module CommandLine {
  import opened Text
  import opened Api
  import opened Flags
  import opened Args

  // ---- Every flag carries exactly its values -------------------------------

  type Values = Flag -> seq<Value>

  // The arguments for the first k flags of an order, given the values of each flag.
  function Printed(table: Values, order: nat -> Flag, k: nat): seq<Arg>
    decreases k, table
  {
    if k == 0 then [] else Printed(table, order, k - 1) + Each(order(k - 1), table(order(k - 1)))
  }

  lemma PrintedStep(table: Values, order: nat -> Flag, k: nat)
    ensures Printed(table, order, k + 1) == Printed(table, order, k) + Each(order(k), table(order(k)))
  {
  }

  lemma PrintedMore(args: seq<Arg>, g: Flag, values: seq<Value>, all: seq<Arg>, f: Flag)
    requires all == args + Each(g, values)
    ensures ValuesOf(all, f) == if f == g then ValuesOf(args, f) + values else ValuesOf(args, f)
  {
    ValuesAppend(args, g, values, f);
  }

  lemma {:induction false} PrintedOthers(table: Values, order: nat -> Flag, k: nat, f: Flag)
    requires forall i: nat | i < k :: order(i) != f
    ensures ValuesOf(Printed(table, order, k), f) == []
    decreases k
  {
    if k > 0 {
      PrintedOthers(table, order, k - 1, f);
      PrintedMore(Printed(table, order, k - 1), order(k - 1), table(order(k - 1)), Printed(table, order, k), f);
    }
  }

  // Printing flag by flag, each flag once, passes every flag with its own values.
  lemma {:induction false} PrintedValues(table: Values, order: nat -> Flag, k: nat, r: nat)
    requires forall i: nat, j: nat | i < j < k :: order(i) != order(j)
    requires r < k
    ensures ValuesOf(Printed(table, order, k), order(r)) == table(order(r))
    decreases k
  {
    PrintedMore(Printed(table, order, k - 1), order(k - 1), table(order(k - 1)), Printed(table, order, k), order(r));
    if r == k - 1 {
      PrintedOthers(table, order, k - 1, order(r));
    } else {
      PrintedValues(table, order, k - 1, r);
    }
  }

  // One section of the table of values, printed from position k on.

  predicate ScopeRows(table: Values, order: nat -> Flag, k: nat, ns: string, spec: Spec) {
    && order(k) == WatchNamespace && table(WatchNamespace) == (if spec.clusterWide then [] else [Plain(ns)])
    && order(k + 1) == AuthConfigLabelSelector && table(AuthConfigLabelSelector) == Texts(spec.authConfigLabelSelectors)
    && order(k + 2) == SecretLabelSelector && table(SecretLabelSelector) == Texts(spec.secretLabelSelectors)
    && order(k + 3) == SupersedingHostSubsets && table(SupersedingHostSubsets) == Switch(spec.supersedingHostSubsets)
    && order(k + 4) == LogLevel && table(LogLevel) == Texts(spec.logLevel)
    && order(k + 5) == LogMode && table(LogMode) == Texts(spec.logMode)
  }

  lemma ScopePrinted(table: Values, order: nat -> Flag, k: nat, ns: string, spec: Spec)
    requires ScopeRows(table, order, k, ns, spec)
    ensures ScopeArgs(Printed(table, order, k), ns, spec) == Printed(table, order, k + 6)
  {
    PrintedStep(table, order, k);
    PrintedStep(table, order, k + 1);
    PrintedStep(table, order, k + 2);
    PrintedStep(table, order, k + 3);
    PrintedStep(table, order, k + 4);
    PrintedStep(table, order, k + 5);
  }

  predicate PortRows(table: Values, order: nat -> Flag, k: nat, listener: Listener) {
    && order(k) == Timeout && table(Timeout) == Numbers(listener.timeout)
    && order(k + 1) == ExtAuthGrpcPort && table(ExtAuthGrpcPort) == Numbers(listener.GrpcPort())
    && order(k + 2) == ExtAuthHttpPort && table(ExtAuthHttpPort) == Numbers(listener.ports.http)
  }

  lemma PortPrinted(table: Values, order: nat -> Flag, k: nat, listener: Listener)
    requires PortRows(table, order, k, listener)
    ensures PortArgs(Printed(table, order, k), listener) == Printed(table, order, k + 3)
  {
    PrintedStep(table, order, k);
    PrintedStep(table, order, k + 1);
    PrintedStep(table, order, k + 2);
  }

  predicate TlsRows(table: Values, order: nat -> Flag, k: nat, tls: Tls, flags: TlsFlags) {
    && order(k) == flags.cert && table(flags.cert) == WhenOn(tls, [Mounted(flags.certFile)])
    && order(k + 1) == flags.key && table(flags.key) == WhenOn(tls, [Mounted(flags.keyFile)])
    && order(k + 2) == flags.min && table(flags.min) == WhenOn(tls, Texts(tls.minVersion))
    && order(k + 3) == flags.max && table(flags.max) == WhenOn(tls, Texts(tls.maxVersion))
    && order(k + 4) == flags.suites && table(flags.suites) == WhenOn(tls, Ciphers(tls.cipherSuites))
  }

  lemma TlsPrinted(table: Values, order: nat -> Flag, k: nat, tls: Tls, flags: TlsFlags)
    requires TlsRows(table, order, k, tls, flags)
    ensures TlsArgs(Printed(table, order, k), tls, flags) == Printed(table, order, k + 5)
  {
    PrintedStep(table, order, k);
    PrintedStep(table, order, k + 1);
    PrintedStep(table, order, k + 2);
    PrintedStep(table, order, k + 3);
    PrintedStep(table, order, k + 4);
  }

  predicate TracingRows(table: Values, order: nat -> Flag, k: nat, tracing: Tracing, visit: seq<string>) {
    && order(k) == TracingEndpoint && table(TracingEndpoint) == Texts(tracing.endpoint)
    && order(k + 1) == TracingTag
         && table(TracingTag) == (if tracing.endpoint != "" then TagValues(tracing.tags, visit) else [])
    && order(k + 2) == TracingInsecure && table(TracingInsecure) == Switch(tracing.endpoint != "" && tracing.insecure)
  }

  lemma TracingPrinted(table: Values, order: nat -> Flag, k: nat, tracing: Tracing, visit: seq<string>)
    requires TracingRows(table, order, k, tracing, visit)
    ensures TracingArgs(Printed(table, order, k), tracing, visit) == Printed(table, order, k + 3)
  {
    PrintedStep(table, order, k);
    PrintedStep(table, order, k + 1);
    PrintedStep(table, order, k + 2);
  }

  predicate OtherRows(table: Values, order: nat -> Flag, k: nat, spec: Spec) {
    && order(k) == DeepMetricsEnabled
         && table(DeepMetricsEnabled) == Switch(spec.metrics.deep.Some? && spec.metrics.deep.value)
    && order(k + 1) == MetricsAddr && table(MetricsAddr) == Addresses(spec.metrics.port)
    && order(k + 2) == HealthProbeAddr && table(HealthProbeAddr) == Addresses(spec.healthzPort)
    && order(k + 3) == EnableLeaderElection
         && table(EnableLeaderElection) == Switch(spec.replicas.Some? && spec.replicas.value > 1)
    && order(k + 4) == MaxHttpRequestBodySize
         && table(MaxHttpRequestBodySize) == Numbers(spec.listener.maxHttpRequestBodySize)
  }

  lemma OtherPrinted(table: Values, order: nat -> Flag, k: nat, spec: Spec)
    requires OtherRows(table, order, k, spec)
    ensures OtherArgs(Printed(table, order, k), spec) == Printed(table, order, k + 5)
  {
    PrintedStep(table, order, k);
    PrintedStep(table, order, k + 1);
    PrintedStep(table, order, k + 2);
    PrintedStep(table, order, k + 3);
    PrintedStep(table, order, k + 4);
  }

  predicate AllRows(table: Values, order: nat -> Flag, ns: string, spec: Spec, visit: seq<string>) {
    && ScopeRows(table, order, 0, ns, spec)
    && PortRows(table, order, 6, spec.listener)
    && TlsRows(table, order, 9, spec.listener.tls, LISTENER_TLS)
    && order(14) == OidcHttpPort && table(OidcHttpPort) == Numbers(spec.oidcServer.port)
    && TlsRows(table, order, 15, spec.oidcServer.tls, OIDC_TLS)
    && order(20) == EvaluatorCacheSize && table(EvaluatorCacheSize) == Numbers(spec.evaluatorCacheSize)
    && TracingRows(table, order, 21, spec.tracing, visit)
    && OtherRows(table, order, 24, spec)
  }

  lemma ListenerPrinted(table: Values, order: nat -> Flag, ns: string, spec: Spec)
    requires ScopeRows(table, order, 0, ns, spec) && PortRows(table, order, 6, spec.listener)
    requires TlsRows(table, order, 9, spec.listener.tls, LISTENER_TLS)
    ensures ListenerArgs(ns, spec) == Printed(table, order, 14)
  {
    ScopePrinted(table, order, 0, ns, spec);
    PortPrinted(table, order, 6, spec.listener);
    TlsPrinted(table, order, 9, spec.listener.tls, LISTENER_TLS);
  }

  lemma OidcPrinted(table: Values, order: nat -> Flag, oidc: OidcServer)
    requires order(14) == OidcHttpPort && table(OidcHttpPort) == Numbers(oidc.port)
    requires TlsRows(table, order, 15, oidc.tls, OIDC_TLS)
    ensures OidcArgs(Printed(table, order, 14), oidc) == Printed(table, order, 20)
  {
    PrintedStep(table, order, 14);
    TlsPrinted(table, order, 15, oidc.tls, OIDC_TLS);
  }

  lemma TracedPrinted(table: Values, order: nat -> Flag, spec: Spec, visit: seq<string>)
    requires order(20) == EvaluatorCacheSize && table(EvaluatorCacheSize) == Numbers(spec.evaluatorCacheSize)
    requires TracingRows(table, order, 21, spec.tracing, visit)
    requires OtherRows(table, order, 24, spec)
    ensures RemainingArgs(Printed(table, order, 20), spec, visit) == Printed(table, order, FLAG_COUNT)
  {
    PrintedStep(table, order, 20);
    TracingPrinted(table, order, 21, spec.tracing, visit);
    OtherPrinted(table, order, 24, spec);
  }

  lemma ArgsPrinted(table: Values, order: nat -> Flag, ns: string, spec: Spec, visit: seq<string>)
    requires AllRows(table, order, ns, spec, visit)
    ensures ArgsOf(ns, spec, visit) == Printed(table, order, FLAG_COUNT)
  {
    ListenerPrinted(table, order, ns, spec);
    OidcPrinted(table, order, spec.oidcServer);
    TracedPrinted(table, order, spec, visit);
  }

  lemma PrintedCarry(table: Values, order: nat -> Flag, args: seq<Arg>, r: nat)
    requires args == Printed(table, order, FLAG_COUNT)
    requires forall i: nat, j: nat | i < j < FLAG_COUNT :: order(i) != order(j)
    requires r < FLAG_COUNT
    ensures ValuesOf(args, order(r)) == table(order(r))
  {
    PrintedValues(table, order, FLAG_COUNT, r);
  }

  lemma ArgsCarryRows(table: Values, order: nat -> Flag, ns: string, spec: Spec, visit: seq<string>, r: nat)
    requires AllRows(table, order, ns, spec, visit)
    requires forall i: nat, j: nat | i < j < FLAG_COUNT :: order(i) != order(j)
    requires r < FLAG_COUNT
    ensures ValuesOf(ArgsOf(ns, spec, visit), order(r)) == table(order(r))
  {
    ArgsPrinted(table, order, ns, spec, visit);
    PrintedCarry(table, order, ArgsOf(ns, spec, visit), r);
  }

  // ---- The table of values has those rows ----------------------------------

  function Table(ns: string, spec: Spec, visit: seq<string>): Values {
    f => FlagValues(ns, spec, visit, f)
  }

  function PrintOrder(): nat -> Flag {
    (k: nat) => FlagAt(k)
  }

  // Each section takes the table and the order as variables, so that its proof sees only
  // the few flags it is about.
  ghost predicate IsTable(table: Values, order: nat -> Flag, ns: string, spec: Spec, visit: seq<string>) {
    && (forall f :: table(f) == FlagValues(ns, spec, visit, f))
    && (forall k: nat :: order(k) == FlagAt(k))
  }

  lemma TableScopeRows(table: Values, order: nat -> Flag, ns: string, spec: Spec, visit: seq<string>)
    requires IsTable(table, order, ns, spec, visit)
    ensures ScopeRows(table, order, 0, ns, spec)
  {
  }

  lemma TablePortRows(table: Values, order: nat -> Flag, ns: string, spec: Spec, visit: seq<string>)
    requires IsTable(table, order, ns, spec, visit)
    ensures PortRows(table, order, 6, spec.listener)
  {
  }

  lemma TableTlsRows(table: Values, order: nat -> Flag, ns: string, spec: Spec, visit: seq<string>)
    requires IsTable(table, order, ns, spec, visit)
    ensures TlsRows(table, order, 9, spec.listener.tls, LISTENER_TLS)
  {
    assert order(9) == TlsCert && order(10) == TlsCertKey;
    assert order(11) == TlsMinVersion && order(12) == TlsMaxVersion && order(13) == TlsCipherSuites;
  }

  lemma TableOidcRows(table: Values, order: nat -> Flag, ns: string, spec: Spec, visit: seq<string>)
    requires IsTable(table, order, ns, spec, visit)
    ensures TlsRows(table, order, 15, spec.oidcServer.tls, OIDC_TLS)
  {
    assert order(15) == OidcTlsCert && order(16) == OidcTlsCertKey;
    assert order(17) == OidcTlsMinVersion && order(18) == OidcTlsMaxVersion && order(19) == OidcTlsCipherSuites;
  }

  lemma TableTracingRows(table: Values, order: nat -> Flag, ns: string, spec: Spec, visit: seq<string>)
    requires IsTable(table, order, ns, spec, visit)
    ensures TracingRows(table, order, 21, spec.tracing, visit)
  {
  }

  lemma OtherOrder(order: nat -> Flag)
    requires forall k: nat :: order(k) == FlagAt(k)
    ensures order(24) == DeepMetricsEnabled && order(25) == MetricsAddr && order(26) == HealthProbeAddr
    ensures order(27) == EnableLeaderElection && order(28) == MaxHttpRequestBodySize
  {
  }

  lemma TableOtherRows(table: Values, order: nat -> Flag, ns: string, spec: Spec, visit: seq<string>)
    requires IsTable(table, order, ns, spec, visit)
    ensures OtherRows(table, order, 24, spec)
  {
    OtherOrder(order);
    assert table(DeepMetricsEnabled) == Switch(spec.metrics.deep.Some? && spec.metrics.deep.value);
    assert table(EnableLeaderElection) == Switch(spec.replicas.Some? && spec.replicas.value > 1);
  }

  lemma TableSingleRows(table: Values, order: nat -> Flag, ns: string, spec: Spec, visit: seq<string>)
    requires IsTable(table, order, ns, spec, visit)
    ensures order(14) == OidcHttpPort && table(OidcHttpPort) == Numbers(spec.oidcServer.port)
    ensures order(20) == EvaluatorCacheSize && table(EvaluatorCacheSize) == Numbers(spec.evaluatorCacheSize)
  {
  }

  lemma TableRows(table: Values, order: nat -> Flag, ns: string, spec: Spec, visit: seq<string>)
    requires IsTable(table, order, ns, spec, visit)
    ensures AllRows(table, order, ns, spec, visit)
  {
    TableScopeRows(table, order, ns, spec, visit);
    TablePortRows(table, order, ns, spec, visit);
    TableTlsRows(table, order, ns, spec, visit);
    TableOidcRows(table, order, ns, spec, visit);
    TableTracingRows(table, order, ns, spec, visit);
    TableOtherRows(table, order, ns, spec, visit);
    TableSingleRows(table, order, ns, spec, visit);
  }

  lemma ArgsCarryTable(table: Values, order: nat -> Flag, ns: string, spec: Spec, visit: seq<string>, r: nat)
    requires IsTable(table, order, ns, spec, visit)
    requires r < FLAG_COUNT
    ensures ValuesOf(ArgsOf(ns, spec, visit), order(r)) == table(order(r))
  {
    TableRows(table, order, ns, spec, visit);
    forall i: nat, j: nat | i < j < FLAG_COUNT
      ensures order(i) != order(j)
    {
      FlagAtInjective(i, j);
    }
    ArgsCarryRows(table, order, ns, spec, visit, r);
  }

  // The command line passes every flag with exactly the values the spec asks for.
  lemma ArgsCarryValues(ns: string, spec: Spec, visit: seq<string>, f: Flag)
    ensures ValuesOf(ArgsOf(ns, spec, visit), f) == FlagValues(ns, spec, visit, f)
  {
    var r := FindFlag(f);
    ArgsCarryTable(Table(ns, spec, visit), PrintOrder(), ns, spec, visit, r);
  }
}
