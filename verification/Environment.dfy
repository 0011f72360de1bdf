// The deprecated environment variables (pkg/reconcilers/deployment.go:358-411), their
// agreement with the command line, and the arguments kept beside them for old images.
module Environment {
  import opened Text
  import opened Api
  import opened Flags
  import opened Args
  import opened CommandLine
  import opened RoundTrip
  import opened Objects

  // The flags that have an environment variable of the same meaning. A variable is
  // identified by its flag.
  predicate Paired(f: Flag) {
    match f
    case WatchNamespace | AuthConfigLabelSelector | SecretLabelSelector => true
    case EvaluatorCacheSize | DeepMetricsEnabled | LogLevel | LogMode => true
    case ExtAuthGrpcPort | ExtAuthHttpPort | TlsCert | TlsCertKey => true
    case Timeout | MaxHttpRequestBodySize => true
    case OidcHttpPort | OidcTlsCert | OidcTlsCertKey => true
    case _ => false
  }

  function EnvName(f: Flag): string
    requires Paired(f)
  {
    match f
    case WatchNamespace => "WATCH_NAMESPACE"
    case AuthConfigLabelSelector => "AUTH_CONFIG_LABEL_SELECTOR"
    case SecretLabelSelector => "SECRET_LABEL_SELECTOR"
    case EvaluatorCacheSize => "EVALUATOR_CACHE_SIZE"
    case DeepMetricsEnabled => "DEEP_METRICS_ENABLED"
    case LogLevel => "LOG_LEVEL"
    case LogMode => "LOG_MODE"
    case ExtAuthGrpcPort => "EXT_AUTH_GRPC_PORT"
    case ExtAuthHttpPort => "EXT_AUTH_HTTP_PORT"
    case TlsCert => "TLS_CERT"
    case TlsCertKey => "TLS_CERT_KEY"
    case Timeout => "TIMEOUT"
    case MaxHttpRequestBodySize => "MAX_HTTP_REQUEST_BODY_SIZE"
    case OidcHttpPort => "OIDC_HTTP_PORT"
    case OidcTlsCert => "OIDC_TLS_CERT"
    case OidcTlsCertKey => "OIDC_TLS_CERT_KEY"
  }

  lemma EnvNamesTell(f: Flag, g: Flag)
    requires Paired(f) && Paired(g)
    requires var n, m := EnvName(f), EnvName(g);
      |n| == |m| > 0 && n[0] == m[0] && (|n| > 9 ==> n[9] == m[9])
    ensures f == g
  {
  }

  // How a variable is spelled, given the flag: in capitals, with underscores.
  function Capital(c: char): char {
    if c == '-' then '_' else if 'a' <= c <= 'z' then (c as int - 'a' as int + 'A' as int) as char else c
  }

  // Of two texts of one length, the first and the tenth character: among the sixteen names
  // those tell every two apart.
  predicate Capitals(s: string, t: string) {
    |s| == |t| > 0 && t[0] == Capital(s[0]) && (|s| > 9 ==> t[9] == Capital(s[9]))
  }

  // Every variable is named after its flag.
  lemma NamesCorrespond(f: Flag)
    requires Paired(f)
    ensures Capitals(FlagName(f), EnvName(f))
  {
  }

  lemma EnvNamesDiffer(f: Flag, g: Flag)
    requires Paired(f) && Paired(g)
    requires EnvName(f) == EnvName(g)
    ensures f == g
  {
    NamesCorrespond(f);
    EnvNamesTell(f, g);
  }

  // And after no other.
  lemma {:induction false} NamesTell(f: Flag, g: Flag)
    requires Paired(f) && Paired(g) && Capitals(FlagName(f), EnvName(g))
    ensures f == g
  {
    NamesCorrespond(f);
    EnvNamesTell(f, g);
  }

  // "%v" of the deep-metrics switch.
  function Truths(b: Option<bool>): seq<Value> {
    if b == None then [] else [Plain(if b.value then "true" else "false")]
  }

  function WatchEnv(env: seq<Arg>, ns: string, spec: Spec): seq<Arg> {
    env
    + Each(WatchNamespace, if spec.clusterWide then [] else [Plain(ns)])
    + Each(AuthConfigLabelSelector, Texts(spec.authConfigLabelSelectors))
    + Each(SecretLabelSelector, Texts(spec.secretLabelSelectors))
    + Each(EvaluatorCacheSize, Numbers(spec.evaluatorCacheSize))
    + Each(DeepMetricsEnabled, Truths(spec.metrics.deep))
    + Each(LogLevel, Texts(spec.logLevel))
    + Each(LogMode, Texts(spec.logMode))
  }

  function ListenerEnv(env: seq<Arg>, listener: Listener): seq<Arg> {
    env
    + Each(ExtAuthGrpcPort, Numbers(listener.GrpcPort()))
    + Each(ExtAuthHttpPort, Numbers(listener.ports.http))
    + Each(TlsCert, WhenOn(listener.tls, [Mounted(ListenerCert)]))
    + Each(TlsCertKey, WhenOn(listener.tls, [Mounted(ListenerKey)]))
    + Each(Timeout, Numbers(listener.timeout))
    + Each(MaxHttpRequestBodySize, Numbers(listener.maxHttpRequestBodySize))
  }

  function OidcEnv(env: seq<Arg>, oidc: OidcServer): seq<Arg> {
    env
    + Each(OidcHttpPort, Numbers(oidc.port))
    + Each(OidcTlsCert, WhenOn(oidc.tls, [Mounted(OidcCert)]))
    + Each(OidcTlsCertKey, WhenOn(oidc.tls, [Mounted(OidcKey)]))
  }

  function EnvOf(ns: string, spec: Spec): seq<Arg> {
    OidcEnv(ServingEnv(ns, spec), spec.oidcServer)
  }

  function ServingEnv(ns: string, spec: Spec): seq<Arg> {
    ListenerEnv(WatchEnv([], ns, spec), spec.listener)
  }

  // ---- buildAuthorinoEnv ---------------------------------------------------

  method AppendNamespace(before: seq<Arg>, ns: string, wide: bool) returns (env: seq<Arg>)
    ensures env == before + Each(WatchNamespace, if wide then [] else [Plain(ns)])
  {
    env := before;
    if !wide {
      env := AppendValue(env, WatchNamespace, Plain(ns));
    }
  }

  method AppendTruth(before: seq<Arg>, f: Flag, truth: Option<bool>) returns (env: seq<Arg>)
    ensures env == before + Each(f, Truths(truth))
  {
    env := before;
    if truth.Some? {
      env := AppendValue(env, f, Plain(if truth.value then "true" else "false"));
    }
  }

  method AppendWatch(before: seq<Arg>, ns: string, spec: Spec) returns (env: seq<Arg>)
    ensures env == WatchEnv(before, ns, spec)
  {
    env := AppendNamespace(before, ns, spec.clusterWide);
    env := AppendText(env, AuthConfigLabelSelector, spec.authConfigLabelSelectors);
    env := AppendText(env, SecretLabelSelector, spec.secretLabelSelectors);
    env := AppendNumber(env, EvaluatorCacheSize, spec.evaluatorCacheSize);
    env := AppendTruth(env, DeepMetricsEnabled, spec.metrics.deep);
    env := AppendText(env, LogLevel, spec.logLevel);
    env := AppendText(env, LogMode, spec.logMode);
  }

  method AppendTlsEnv(before: seq<Arg>, tls: Tls, cert: Flag, certFile: CertFile, key: Flag, keyFile: CertFile)
    returns (env: seq<Arg>)
    ensures env == before + Each(cert, WhenOn(tls, [Mounted(certFile)])) + Each(key, WhenOn(tls, [Mounted(keyFile)]))
  {
    env := before;
    if tls.enabled == None || tls.enabled.value {
      env := AppendValue(env, cert, Mounted(certFile));
      env := AppendValue(env, key, Mounted(keyFile));
    }
  }

  method AppendListener(before: seq<Arg>, listener: Listener) returns (env: seq<Arg>)
    ensures env == ListenerEnv(before, listener)
  {
    var port := listener.ports.grpc;
    if port == None {
      port := listener.port; // deprecated
    }
    assert port == listener.GrpcPort();
    env := AppendNumber(before, ExtAuthGrpcPort, port);
    env := AppendNumber(env, ExtAuthHttpPort, listener.ports.http);
    env := AppendTlsEnv(env, listener.tls, TlsCert, ListenerCert, TlsCertKey, ListenerKey);
    env := AppendNumber(env, Timeout, listener.timeout);
    env := AppendNumber(env, MaxHttpRequestBodySize, listener.maxHttpRequestBodySize);
  }

  method BuildAuthorinoEnv(ns: string, spec: Spec) returns (env: seq<Arg>)
    ensures env == EnvOf(ns, spec)
  {
    env := AppendWatch([], ns, spec);
    env := AppendListener(env, spec.listener);
    env := AppendNumber(env, OidcHttpPort, spec.oidcServer.port);
    env := AppendTlsEnv(env, spec.oidcServer.tls, OidcTlsCert, OidcCert, OidcTlsCertKey, OidcKey);
  }

  // ---- Agreement of the two encodings --------------------------------------

  const ENV_COUNT: nat := 16

  function EnvAt(k: nat): Flag {
    if k == 0 then WatchNamespace
    else if k == 1 then AuthConfigLabelSelector
    else if k == 2 then SecretLabelSelector
    else if k == 3 then EvaluatorCacheSize
    else if k == 4 then DeepMetricsEnabled
    else if k == 5 then LogLevel
    else if k == 6 then LogMode
    else if k == 7 then ExtAuthGrpcPort
    else if k == 8 then ExtAuthHttpPort
    else if k == 9 then TlsCert
    else if k == 10 then TlsCertKey
    else if k == 11 then Timeout
    else if k == 12 then MaxHttpRequestBodySize
    else if k == 13 then OidcHttpPort
    else if k == 14 then OidcTlsCert
    else OidcTlsCertKey
  }

  lemma EnvAtInjective(i: nat, j: nat)
    requires i < j < ENV_COUNT
    ensures EnvAt(i) != EnvAt(j)
  {
  }

  lemma FindEnv(f: Flag) returns (k: nat)
    requires Paired(f)
    ensures k < ENV_COUNT && EnvAt(k) == f
  {
    match f
    case WatchNamespace => k := 0;
    case AuthConfigLabelSelector => k := 1;
    case SecretLabelSelector => k := 2;
    case EvaluatorCacheSize => k := 3;
    case DeepMetricsEnabled => k := 4;
    case LogLevel => k := 5;
    case LogMode => k := 6;
    case ExtAuthGrpcPort => k := 7;
    case ExtAuthHttpPort => k := 8;
    case TlsCert => k := 9;
    case TlsCertKey => k := 10;
    case Timeout => k := 11;
    case MaxHttpRequestBodySize => k := 12;
    case OidcHttpPort => k := 13;
    case OidcTlsCert => k := 14;
    case OidcTlsCertKey => k := 15;
  }

  // The values a variable must have, given those of the flags: the same, except that deep
  // metrics is a bare flag on one side and "true" or "false" on the other.
  function EnvValues(ns: string, spec: Spec, f: Flag): seq<Value> {
    if f.DeepMetricsEnabled? then Truths(spec.metrics.deep) else FlagValues(ns, spec, [], f)
  }

  predicate WatchEnvRows(table: Values, order: nat -> Flag, k: nat, ns: string, spec: Spec) {
    && order(k) == WatchNamespace && table(WatchNamespace) == (if spec.clusterWide then [] else [Plain(ns)])
    && order(k + 1) == AuthConfigLabelSelector && table(AuthConfigLabelSelector) == Texts(spec.authConfigLabelSelectors)
    && order(k + 2) == SecretLabelSelector && table(SecretLabelSelector) == Texts(spec.secretLabelSelectors)
    && order(k + 3) == EvaluatorCacheSize && table(EvaluatorCacheSize) == Numbers(spec.evaluatorCacheSize)
    && order(k + 4) == DeepMetricsEnabled && table(DeepMetricsEnabled) == Truths(spec.metrics.deep)
    && order(k + 5) == LogLevel && table(LogLevel) == Texts(spec.logLevel)
    && order(k + 6) == LogMode && table(LogMode) == Texts(spec.logMode)
  }

  lemma WatchEnvPrinted(table: Values, order: nat -> Flag, k: nat, ns: string, spec: Spec)
    requires WatchEnvRows(table, order, k, ns, spec)
    ensures WatchEnv(Printed(table, order, k), ns, spec) == Printed(table, order, k + 7)
  {
    PrintedStep(table, order, k);
    PrintedStep(table, order, k + 1);
    PrintedStep(table, order, k + 2);
    PrintedStep(table, order, k + 3);
    PrintedStep(table, order, k + 4);
    PrintedStep(table, order, k + 5);
    PrintedStep(table, order, k + 6);
  }

  predicate ListenerEnvRows(table: Values, order: nat -> Flag, k: nat, listener: Listener) {
    && order(k) == ExtAuthGrpcPort && table(ExtAuthGrpcPort) == Numbers(listener.GrpcPort())
    && order(k + 1) == ExtAuthHttpPort && table(ExtAuthHttpPort) == Numbers(listener.ports.http)
    && order(k + 2) == TlsCert && table(TlsCert) == WhenOn(listener.tls, [Mounted(ListenerCert)])
    && order(k + 3) == TlsCertKey && table(TlsCertKey) == WhenOn(listener.tls, [Mounted(ListenerKey)])
    && order(k + 4) == Timeout && table(Timeout) == Numbers(listener.timeout)
    && order(k + 5) == MaxHttpRequestBodySize
         && table(MaxHttpRequestBodySize) == Numbers(listener.maxHttpRequestBodySize)
  }

  lemma ListenerEnvPrinted(table: Values, order: nat -> Flag, k: nat, listener: Listener)
    requires ListenerEnvRows(table, order, k, listener)
    ensures ListenerEnv(Printed(table, order, k), listener) == Printed(table, order, k + 6)
  {
    PrintedStep(table, order, k);
    PrintedStep(table, order, k + 1);
    PrintedStep(table, order, k + 2);
    PrintedStep(table, order, k + 3);
    PrintedStep(table, order, k + 4);
    PrintedStep(table, order, k + 5);
  }

  predicate OidcEnvRows(table: Values, order: nat -> Flag, k: nat, oidc: OidcServer) {
    && order(k) == OidcHttpPort && table(OidcHttpPort) == Numbers(oidc.port)
    && order(k + 1) == OidcTlsCert && table(OidcTlsCert) == WhenOn(oidc.tls, [Mounted(OidcCert)])
    && order(k + 2) == OidcTlsCertKey && table(OidcTlsCertKey) == WhenOn(oidc.tls, [Mounted(OidcKey)])
  }

  lemma OidcEnvPrinted(table: Values, order: nat -> Flag, k: nat, oidc: OidcServer)
    requires OidcEnvRows(table, order, k, oidc)
    ensures OidcEnv(Printed(table, order, k), oidc) == Printed(table, order, k + 3)
  {
    PrintedStep(table, order, k);
    PrintedStep(table, order, k + 1);
    PrintedStep(table, order, k + 2);
  }

  lemma ServingPrinted(table: Values, order: nat -> Flag, ns: string, spec: Spec)
    requires WatchEnvRows(table, order, 0, ns, spec)
    requires ListenerEnvRows(table, order, 7, spec.listener)
    ensures ServingEnv(ns, spec) == Printed(table, order, 13)
  {
    WatchEnvPrinted(table, order, 0, ns, spec);
    ListenerEnvPrinted(table, order, 7, spec.listener);
  }

  lemma EnvPrinted(table: Values, order: nat -> Flag, ns: string, spec: Spec)
    requires WatchEnvRows(table, order, 0, ns, spec)
    requires ListenerEnvRows(table, order, 7, spec.listener)
    requires OidcEnvRows(table, order, 13, spec.oidcServer)
    ensures EnvOf(ns, spec) == Printed(table, order, ENV_COUNT)
  {
    ServingPrinted(table, order, ns, spec);
    OidcEnvPrinted(table, order, 13, spec.oidcServer);
  }

  lemma PrintedCarries(table: Values, order: nat -> Flag, env: seq<Arg>, r: nat)
    requires env == Printed(table, order, ENV_COUNT)
    requires forall i: nat, j: nat | i < j < ENV_COUNT :: order(i) != order(j)
    requires forall i: nat | i < ENV_COUNT :: Paired(order(i))
    ensures r < ENV_COUNT ==> ValuesOf(env, order(r)) == table(order(r))
    ensures forall f | !Paired(f) :: ValuesOf(env, f) == []
  {
    if r < ENV_COUNT {
      PrintedValues(table, order, ENV_COUNT, r);
    }
    forall f | !Paired(f)
      ensures ValuesOf(env, f) == []
    {
      PrintedOthers(table, order, ENV_COUNT, f);
    }
  }

  ghost predicate IsEnvTable(table: Values, order: nat -> Flag, ns: string, spec: Spec) {
    && (forall f :: table(f) == EnvValues(ns, spec, f))
    && (forall k: nat :: order(k) == EnvAt(k))
  }

  lemma TableWatchRows(table: Values, order: nat -> Flag, ns: string, spec: Spec)
    requires IsEnvTable(table, order, ns, spec)
    ensures WatchEnvRows(table, order, 0, ns, spec)
  {
  }

  lemma TableListenerRows(table: Values, order: nat -> Flag, ns: string, spec: Spec)
    requires IsEnvTable(table, order, ns, spec)
    ensures ListenerEnvRows(table, order, 7, spec.listener)
  {
    assert order(7) == ExtAuthGrpcPort && order(8) == ExtAuthHttpPort;
    assert order(9) == TlsCert && order(10) == TlsCertKey;
    assert order(11) == Timeout && order(12) == MaxHttpRequestBodySize;
  }

  lemma TableOidcEnvRows(table: Values, order: nat -> Flag, ns: string, spec: Spec)
    requires IsEnvTable(table, order, ns, spec)
    ensures OidcEnvRows(table, order, 13, spec.oidcServer)
  {
  }

  lemma EnvPaired(k: nat)
    ensures Paired(EnvAt(k))
  {
  }

  lemma EnvCarryTable(table: Values, order: nat -> Flag, ns: string, spec: Spec, r: nat)
    requires IsEnvTable(table, order, ns, spec)
    ensures r < ENV_COUNT ==> ValuesOf(EnvOf(ns, spec), order(r)) == table(order(r))
    ensures forall f | !Paired(f) :: ValuesOf(EnvOf(ns, spec), f) == []
  {
    TableWatchRows(table, order, ns, spec);
    TableListenerRows(table, order, ns, spec);
    TableOidcEnvRows(table, order, ns, spec);
    forall i: nat, j: nat | i < j < ENV_COUNT
      ensures order(i) != order(j)
    {
      EnvAtInjective(i, j);
    }
    forall i: nat | i < ENV_COUNT
      ensures Paired(order(i))
    {
      EnvPaired(i);
    }
    EnvPrinted(table, order, ns, spec);
    PrintedCarries(table, order, EnvOf(ns, spec), r);
  }

  lemma EnvCarriesValues(ns: string, spec: Spec, f: Flag)
    ensures ValuesOf(EnvOf(ns, spec), f) == if Paired(f) then EnvValues(ns, spec, f) else []
  {
    var table: Values := g => EnvValues(ns, spec, g);
    var order := (k: nat) => EnvAt(k);
    if Paired(f) {
      var r := FindEnv(f);
      EnvCarryTable(table, order, ns, spec, r);
    } else {
      EnvCarryTable(table, order, ns, spec, ENV_COUNT);
    }
  }

  // ---- At the level of text ------------------------------------------------

  function VarText(a: Arg): EnvVar
    requires Paired(a.flag) && a.value.Shown().Some?
  {
    EnvVar(EnvName(a.flag), a.value.Shown().value)
  }

  ghost predicate Printable(env: seq<Arg>) {
    forall i | 0 <= i < |env| :: Paired(env[i].flag) && env[i].value.Shown().Some?
  }

  function Vars(env: seq<Arg>): (vars: seq<EnvVar>)
    requires Printable(env)
    ensures |vars| == |env|
  {
    seq(|env|, i requires 0 <= i < |env| => VarText(env[i]))
  }

  // The values, in order, given to the variable of that name.
  function SetTo(vars: seq<EnvVar>, name: string): seq<Option<string>> {
    if vars == [] then []
    else
      var last := vars[|vars| - 1];
      SetTo(vars[..|vars| - 1], name) + if last.name == name then [Some(last.value)] else []
  }

  // The variables of that name are those of the flag, with their texts.
  predicate Names(vars: seq<EnvVar>, env: seq<Arg>, f: Flag, name: string) {
    && |vars| == |env|
    && forall i | 0 <= i < |env| ::
         && env[i].value.Shown() == Some(vars[i].value)
         && (vars[i].name == name <==> env[i].flag == f)
  }

  lemma {:induction false} SetToNamed(vars: seq<EnvVar>, env: seq<Arg>, f: Flag, name: string)
    requires Names(vars, env, f, name)
    ensures SetTo(vars, name) == Shown(ValuesOf(env, f))
  {
    if env != [] {
      var n := |env| - 1;
      SetToNamed(vars[..n], env[..n], f, name);
      ShownSnoc(ValuesOf(env[..n], f), env[n].value);
    }
  }

  lemma SetToVars(env: seq<Arg>, f: Flag)
    requires Printable(env) && Paired(f)
    ensures SetTo(Vars(env), EnvName(f)) == Shown(ValuesOf(env, f))
  {
    forall i | 0 <= i < |env|
      ensures Vars(env)[i].name == EnvName(f) <==> env[i].flag == f
    {
      if EnvName(env[i].flag) == EnvName(f) {
        EnvNamesDiffer(env[i].flag, f);
      }
    }
    SetToNamed(Vars(env), env, f, EnvName(f));
  }

  // What the last entry contributes to its own variable.
  lemma {:induction false} ValuesHold(env: seq<Arg>, i: nat)
    requires i < |env|
    ensures env[i].value in ValuesOf(env, env[i].flag)
  {
    var n := |env| - 1;
    if i < n {
      ValuesHold(env[..n], i);
    }
  }

  lemma EnvValuesShown(ns: string, spec: Spec, f: Flag, v: Value)
    requires Paired(f) && v in EnvValues(ns, spec, f)
    ensures v.Shown().Some?
  {
  }

  // Every variable that is built has a name and a text.
  lemma EnvPrintable(ns: string, spec: Spec)
    ensures Printable(EnvOf(ns, spec))
  {
    var env := EnvOf(ns, spec);
    forall i | 0 <= i < |env|
      ensures Paired(env[i].flag) && env[i].value.Shown().Some?
    {
      ValuesHold(env, i);
      EnvCarriesValues(ns, spec, env[i].flag);
      EnvValuesShown(ns, spec, env[i].flag, env[i].value);
    }
  }

  // An environment variable and its flag: for each of the sixteen pairs, an old image is
  // given in the variable exactly the text that a new image is given with the flag; the
  // deep-metrics variable is "true" exactly when the bare flag is there.
  lemma EnvironmentAgreesWithArgs(ns: string, spec: Spec, visit: seq<string>, f: Flag)
    requires Paired(f)
    ensures Printable(EnvOf(ns, spec))
    ensures var set' := SetTo(Vars(EnvOf(ns, spec)), EnvName(f));
      var passed := Passed(Line(ArgsOf(ns, spec, visit)), FlagName(f));
      if f.DeepMetricsEnabled? then set' == [Some("true")] <==> passed == [None]
      else set' == passed
  {
    EnvPrintable(ns, spec);
    SetToVars(EnvOf(ns, spec), f);
    EnvCarriesValues(ns, spec, f);
    LinePassesValues(ns, spec, visit, f);
    PairAgrees(ns, spec, visit, f);
  }

  lemma PairAgrees(ns: string, spec: Spec, visit: seq<string>, f: Flag)
    requires Paired(f)
    ensures f != DeepMetricsEnabled ==> EnvValues(ns, spec, f) == FlagValues(ns, spec, visit, f)
    ensures f == DeepMetricsEnabled ==>
      (Shown(EnvValues(ns, spec, f)) == [Some("true")] <==> Shown(FlagValues(ns, spec, visit, f)) == [None])
  {
    if f == DeepMetricsEnabled {
      var deep := spec.metrics.deep;
      assert deep.Some? ==> Shown(Truths(deep))[0] == Some(if deep.value then "true" else "false");
      assert "false"[0] != "true"[0];
    }
  }

  // ---- Arguments kept for old images ---------------------------------------

  predicate KeptFlag(name: string) {
    name == FlagName(MetricsAddr) || name == FlagName(EnableLeaderElection)
  }

  // What strings.Split(strings.TrimPrefix(arg, "--"), "=")[0] is.
  function FirstPart(arg: string): string {
    Split(if |arg| >= 2 && arg[..2] == "--" then arg[2..] else arg, '=')[0]
  }

  lemma FirstPartIsName(arg: string)
    ensures FirstPart(arg) == ParseArg(arg).name
  {
  }

  // The arguments that satisfy `keep`, in order.
  function Kept(line: seq<string>, keep: string -> bool): seq<string>
    decreases line
  {
    if line == [] then []
    else
      var last := line[|line| - 1];
      Kept(line[..|line| - 1], keep) + if keep(last) then [last] else []
  }

  function Compatible(keptName: string -> bool): string -> bool {
    arg => keptName(FirstPart(arg))
  }

  method CompatibleArgs(args: seq<string>) returns (compatible: seq<string>)
    ensures compatible == Kept(args, Compatible(KeptFlag))
  {
    compatible := [];
    for i := 0 to |args|
      invariant compatible == Kept(args[..i], Compatible(KeptFlag))
    {
      assert args[..i + 1][..i] == args[..i];
      if KeptFlag(FirstPart(args[i])) {
        compatible := compatible + [args[i]];
      }
    }
    assert args[..|args|] == args;
  }

  // A reader that only looks at kept arguments sees all it would see on the whole line; one
  // that only looks at others sees nothing.
  lemma {:induction false} KeptReads(line: seq<string>, keep: string -> bool, read: string -> seq<Option<string>>)
    ensures (forall arg | read(arg) != [] :: keep(arg)) ==> Gather(Kept(line, keep), read) == Gather(line, read)
    ensures (forall arg | keep(arg) :: read(arg) == []) ==> Gather(Kept(line, keep), read) == []
    decreases line
  {
    if line != [] {
      var n := |line| - 1;
      var rest := Kept(line[..n], keep);
      KeptReads(line[..n], keep, read);
      GatherSnoc(rest, line[n], read);
      assert rest + [] == rest;
      assert Gather(line[..n], read) + [] == Gather(line[..n], read);
    }
  }

  lemma KeptPasses(line: seq<string>, keptName: string -> bool, name: string)
    ensures Passed(Kept(line, Compatible(keptName)), name) == if keptName(name) then Passed(line, name) else []
  {
    var keep, read := Compatible(keptName), Reading(name);
    forall arg
      ensures keep(arg) <==> keptName(ParseArg(arg).name)
      ensures read(arg) != [] <==> ParseArg(arg).name == name
    {
      FirstPartIsName(arg);
    }
    KeptReads(line, keep, read);
  }

  lemma KeptNames(f: Flag)
    ensures KeptFlag(FlagName(f)) <==> f == MetricsAddr || f == EnableLeaderElection
  {
    if FlagName(f) == FlagName(MetricsAddr) {
      FlagNamesDiffer(f, MetricsAddr);
    }
    if FlagName(f) == FlagName(EnableLeaderElection) {
      FlagNamesDiffer(f, EnableLeaderElection);
    }
  }

  lemma KeptArgsPass(ns: string, spec: Spec, visit: seq<string>, keptName: string -> bool, f: Flag)
    ensures Passed(Kept(Line(ArgsOf(ns, spec, visit)), Compatible(keptName)), FlagName(f))
         == if keptName(FlagName(f)) then Shown(FlagValues(ns, spec, visit, f)) else []
  {
    KeptPasses(Line(ArgsOf(ns, spec, visit)), keptName, FlagName(f));
    LinePassesValues(ns, spec, visit, f);
  }

  // An old image keeps precisely the metrics address and the leader election switch, with
  // the values a new image gets.
  lemma KeptArgs(ns: string, spec: Spec, visit: seq<string>, f: Flag)
    ensures Passed(Kept(Line(ArgsOf(ns, spec, visit)), Compatible(KeptFlag)), FlagName(f))
         == if f == MetricsAddr || f == EnableLeaderElection then Shown(FlagValues(ns, spec, visit, f)) else []
  {
    KeptArgsPass(ns, spec, visit, KeptFlag, f);
    KeptNames(f);
  }

  // No environment variable repeats either of the two.
  lemma {:induction false} KeptNotInEnv(ns: string, spec: Spec, f: Flag)
    requires KeptFlag(FlagName(f))
    ensures ValuesOf(EnvOf(ns, spec), f) == []
  {
    KeptNames(f);
    EnvCarriesValues(ns, spec, f);
  }
}
