// The container's command line, as text, determines the effective spec: the parser that
// strips "--" and cuts at the first '=' recovers it, and exactly when.
module RoundTrip {
  import opened Text
  import opened Api
  import opened Flags
  import opened Args
  import CommandLine

  // ---- Parsing one argument ------------------------------------------------

  datatype Setting = Setting(name: string, value: Option<string>)

  // The leading dashes off, then the text before and after the first '='.
  function ParseArg(arg: string): Setting {
    var bare := if |arg| >= 2 && arg[..2] == "--" then arg[2..] else arg;
    var k := IndexOf(bare, '=');
    if k == |bare| then Setting(bare, None) else Setting(bare[..k], Some(bare[k + 1..]))
  }

  lemma {:induction false} ParseBare(name: string)
    requires '=' !in name
    ensures ParseArg("--" + name) == Setting(name, None)
  {
    var arg := "--" + name;
    assert arg[..2] == "--" && arg[2..] == name;
    assert IndexOf(name, '=') == |name|;
  }

  lemma {:induction false} ParseValued(name: string, v: string)
    requires '=' !in name
    ensures ParseArg("--" + name + "=" + v) == Setting(name, Some(v))
  {
    var arg := "--" + name + "=" + v;
    var bare := name + ['='] + v;
    assert arg[..2] == "--" && arg[2..] == bare;
    FirstSeparator(name, '=', v);
    assert bare[..|name|] == name && bare[|name| + 1..] == v;
  }

  lemma ParseText(arg: Arg)
    ensures ParseArg(arg.Text()) == Setting(FlagName(arg.flag), arg.value.Shown())
  {
    var name := FlagName(arg.flag);
    FlagNameClean(arg.flag);
    match arg.value.Shown()
    case None => ParseBare(name);
    case Some(v) => ParseValued(name, v);
  }

  // ---- Parsing a command line ----------------------------------------------

  function Line(args: seq<Arg>): (line: seq<string>)
    ensures |line| == |args|
  {
    Lines(args, (arg: Arg) => arg.Text())
  }

  function Lines<T>(args: seq<T>, show: T -> string): (line: seq<string>)
    ensures |line| == |args|
  {
    seq(|args|, i requires 0 <= i < |args| => show(args[i]))
  }

  function Mine(setting: Setting, name: string): seq<Option<string>> {
    if setting.name == name then [setting.value] else []
  }

  // What a reader makes of each argument, end to end.
  function Gather(line: seq<string>, read: string -> seq<Option<string>>): seq<Option<string>>
    decreases line
  {
    if line == [] then [] else Gather(line[..|line| - 1], read) + read(line[|line| - 1])
  }

  function Reading(name: string): string -> seq<Option<string>> {
    arg => Mine(ParseArg(arg), name)
  }

  // The values, in order, given to the flag of that name.
  function Passed(line: seq<string>, name: string): seq<Option<string>> {
    Gather(line, Reading(name))
  }

  lemma GatherSnoc(line: seq<string>, arg: string, read: string -> seq<Option<string>>)
    ensures Gather(line + [arg], read) == Gather(line, read) + read(arg)
  {
    assert (line + [arg])[..|line|] == line;
  }

  function Shown(values: seq<Value>): (texts: seq<Option<string>>)
    ensures |texts| == |values|
  {
    seq(|values|, i requires 0 <= i < |values| => values[i].Shown())
  }

  lemma ShownSnoc(values: seq<Value>, v: Value)
    ensures Shown(values + [v]) == Shown(values) + [v.Shown()]
  {
  }

  function MineIf(mine: bool, v: Value): seq<Option<string>> {
    if mine then [v.Shown()] else []
  }

  lemma {:induction false} GatherLine(args: seq<Arg>, show: Arg -> string, read: string -> seq<Option<string>>, f: Flag)
    requires forall arg :: read(show(arg)) == MineIf(arg.flag == f, arg.value)
    ensures Gather(Lines(args, show), read) == Shown(ValuesOf(args, f))
    decreases args
  {
    if args != [] {
      var n := |args| - 1;
      var rest, last := args[..n], args[n];
      GatherLine(rest, show, read, f);
      assert Lines(args, show) == Lines(rest, show) + [show(last)];
      GatherSnoc(Lines(rest, show), show(last), read);
      ShownSnoc(ValuesOf(rest, f), last.value);
    }
  }

  lemma ReadBack(arg: Arg, f: Flag)
    ensures Mine(ParseArg(arg.Text()), FlagName(f)) == MineIf(arg.flag == f, arg.value)
  {
    ParseText(arg);
    if FlagName(arg.flag) == FlagName(f) {
      FlagNamesDiffer(arg.flag, f);
    }
  }

  lemma PassedLine(args: seq<Arg>, f: Flag)
    ensures Passed(Line(args), FlagName(f)) == Shown(ValuesOf(args, f))
  {
    var show := (arg: Arg) => arg.Text();
    var read := Reading(FlagName(f));
    forall arg
      ensures read(show(arg)) == MineIf(arg.flag == f, arg.value)
    {
      ReadBack(arg, f);
    }
    GatherLine(args, show, read, f);
  }

  // A flag name on the printed line leads to the values the spec asks for that flag.
  lemma {:induction false} LinePassesValues(ns: string, spec: Spec, visit: seq<string>, f: Flag)
    ensures Passed(Line(ArgsOf(ns, spec, visit)), FlagName(f)) == Shown(FlagValues(ns, spec, visit, f))
  {
    PassedLine(ArgsOf(ns, spec, visit), f);
    CommandLine.ArgsCarryValues(ns, spec, visit, f);
  }

  // No flag but the tracing tag is ever passed twice.
  lemma PassedAtMostOnce(ns: string, spec: Spec, visit: seq<string>, f: Flag)
    requires f != TracingTag
    ensures |Passed(Line(ArgsOf(ns, spec, visit)), FlagName(f))| <= 1
  {
    LinePassesValues(ns, spec, visit, f);
    AtMostOneValue(ns, spec, visit, f);
  }

  lemma AtMostOneValue(ns: string, spec: Spec, visit: seq<string>, f: Flag)
    requires f != TracingTag
    ensures |FlagValues(ns, spec, visit, f)| <= 1
  {
  }

  // ---- What a spec amounts to for the container ----------------------------

  datatype Scope = Scope(
    watchNamespace: Option<string>, authConfigSelectors: string, secretSelectors: string,
    supersede: bool, logLevel: string, logMode: string)

  datatype PortSettings = PortSettings(timeout: Option<int>, grpc: Option<int>, http: Option<int>)

  datatype TlsSettings = TlsSettings(minVersion: string, maxVersion: string, suites: seq<string>)

  datatype TracingSettings = TracingSettings(endpoint: string, tags: map<string, string>, insecure: bool)

  datatype Limits = Limits(
    oidcPort: Option<int>, cacheSize: Option<int>, deepMetrics: bool, metricsPort: Option<int>,
    healthPort: Option<int>, leaderElection: bool, maxBody: Option<int>)

  datatype Effective = Effective(
    scope: Scope, ports: PortSettings, tls: Option<TlsSettings>, oidcTls: Option<TlsSettings>,
    tracing: Option<TracingSettings>, limits: Limits)

  function ScopeOf(ns: string, spec: Spec): Scope {
    Scope(if spec.clusterWide then None else Some(ns), spec.authConfigLabelSelectors, spec.secretLabelSelectors,
          spec.supersedingHostSubsets, spec.logLevel, spec.logMode)
  }

  // The deprecated port counts only when the new one is absent.
  function PortsOf(listener: Listener): PortSettings {
    PortSettings(listener.timeout, if listener.ports.grpc.Some? then listener.ports.grpc else listener.port,
                 listener.ports.http)
  }

  // TLS details are void while TLS is off.
  function TlsOf(tls: Tls): Option<TlsSettings> {
    if tls.enabled == Some(false) then None
    else Some(TlsSettings(tls.minVersion, tls.maxVersion, tls.cipherSuites))
  }

  // Tracing details are void without an endpoint.
  function TracingOf(tracing: Tracing): Option<TracingSettings> {
    if tracing.endpoint == "" then None
    else Some(TracingSettings(tracing.endpoint, tracing.tags, tracing.insecure))
  }

  function LimitsOf(spec: Spec): Limits {
    Limits(spec.oidcServer.port, spec.evaluatorCacheSize, spec.metrics.deep == Some(true), spec.metrics.port,
           spec.healthzPort, spec.replicas.Some? && spec.replicas.value > 1, spec.listener.maxHttpRequestBodySize)
  }

  function EffectiveOf(ns: string, spec: Spec): Effective {
    Effective(ScopeOf(ns, spec), PortsOf(spec.listener), TlsOf(spec.listener.tls), TlsOf(spec.oidcServer.tls),
              TracingOf(spec.tracing), LimitsOf(spec))
  }

  // ---- Reading settings off the values of a flag ---------------------------

  type Readings = seq<Option<string>>

  function ReadText(values: Readings): string {
    if values == [] || values[0] == None then "" else values[0].value
  }

  function ReadOptional(values: Readings): Option<string> {
    if values == [] then None else values[0]
  }

  function ReadSwitch(values: Readings): bool {
    values != []
  }

  function ReadNumber(values: Readings): Option<int> {
    if values == [] || values[0] == None then None else Atoi(values[0].value)
  }

  // ":8080" and the like.
  function ReadAddress(values: Readings): Option<int> {
    if values == [] || values[0] == None || values[0].value == "" then None else Atoi(values[0].value[1..])
  }

  function ReadList(values: Readings): seq<string> {
    if values == [] || values[0] == None then [] else Split(values[0].value, ',')
  }

  // Each value is "key=text", cut at its first '='.
  function ReadTags(values: Readings): map<string, string> {
    if values == [] then map[]
    else
      var before := ReadTags(values[..|values| - 1]);
      match values[|values| - 1]
      case None => before
      case Some(text) =>
        var k := IndexOf(text, '=');
        before[text[..k] := if k < |text| then text[k + 1..] else ""]
  }

  type Reader = string -> Readings

  function ReadScope(read: Reader): Scope {
    Scope(ReadOptional(read(FlagName(WatchNamespace))), ReadText(read(FlagName(AuthConfigLabelSelector))),
          ReadText(read(FlagName(SecretLabelSelector))), ReadSwitch(read(FlagName(SupersedingHostSubsets))),
          ReadText(read(FlagName(LogLevel))), ReadText(read(FlagName(LogMode))))
  }

  function ReadPorts(read: Reader): PortSettings {
    PortSettings(ReadNumber(read(FlagName(Timeout))), ReadNumber(read(FlagName(ExtAuthGrpcPort))),
                 ReadNumber(read(FlagName(ExtAuthHttpPort))))
  }

  function ReadTls(read: Reader, flags: TlsFlags): Option<TlsSettings> {
    if read(FlagName(flags.cert)) == [] then None
    else Some(TlsSettings(ReadText(read(FlagName(flags.min))), ReadText(read(FlagName(flags.max))),
                          ReadList(read(FlagName(flags.suites)))))
  }

  function ReadTracing(read: Reader): Option<TracingSettings> {
    if read(FlagName(TracingEndpoint)) == [] then None
    else Some(TracingSettings(ReadText(read(FlagName(TracingEndpoint))), ReadTags(read(FlagName(TracingTag))),
                              ReadSwitch(read(FlagName(TracingInsecure)))))
  }

  function ReadLimits(read: Reader): Limits {
    Limits(ReadNumber(read(FlagName(OidcHttpPort))), ReadNumber(read(FlagName(EvaluatorCacheSize))),
           ReadSwitch(read(FlagName(DeepMetricsEnabled))), ReadAddress(read(FlagName(MetricsAddr))),
           ReadAddress(read(FlagName(HealthProbeAddr))), ReadSwitch(read(FlagName(EnableLeaderElection))),
           ReadNumber(read(FlagName(MaxHttpRequestBodySize))))
  }

  function ReadAll(read: Reader): Effective {
    Effective(ReadScope(read), ReadPorts(read), ReadTls(read, LISTENER_TLS), ReadTls(read, OIDC_TLS),
              ReadTracing(read), ReadLimits(read))
  }

  function ReadLine(line: seq<string>): Effective {
    ReadAll(name => Passed(line, name))
  }

  // ---- Each kind of value is read back -------------------------------------

  lemma TextBack(s: string)
    ensures ReadText(Shown(Texts(s))) == s
  {
    assert s != "" ==> Shown(Texts(s)) == [Some(s)];
  }

  lemma SwitchBack(on: bool)
    ensures ReadSwitch(Shown(Switch(on))) == on
  {
  }

  predicate Fits(n: Option<int>) {
    n.Some? ==> -MAX_INT64 - 1 <= n.value <= MAX_INT64
  }

  lemma NumberBack(n: Option<int>)
    requires Fits(n)
    ensures ReadNumber(Shown(Numbers(n))) == n
  {
    if n.Some? {
      assert Shown(Numbers(n))[0] == Some(IntText(n.value));
      AtoiIntText(n.value);
    }
  }

  lemma AddressBack(n: Option<int>)
    requires Fits(n)
    ensures ReadAddress(Shown(Addresses(n))) == n
  {
    if n.Some? {
      assert Shown(Addresses(n))[0] == Some(":" + IntText(n.value));
      assert (":" + IntText(n.value))[1..] == IntText(n.value);
      AtoiIntText(n.value);
    }
  }

  predicate Free(c: char, names: seq<string>) {
    forall i | 0 <= i < |names| :: c !in names[i]
  }

  // A list of cipher suites survives exactly if no name contains the separator.
  lemma ListBack(suites: seq<string>)
    ensures ReadList(Shown(Ciphers(suites))) == suites <==> Free(',', suites)
  {
    if suites != [] {
      var text := Join(suites, ',');
      assert Shown(Ciphers(suites))[0] == Some(text);
      if Free(',', suites) {
        SplitJoin(suites, ',');
      } else {
        var i :| 0 <= i < |suites| && ',' in suites[i];
        assert forall p | p in Split(text, ',') :: ',' !in p;
        assert suites[i] in suites;
      }
    }
  }

  // ---- Tags ----------------------------------------------------------------

  lemma {:induction false} TagBack(key: string, text: string, before: Readings)
    requires '=' !in key
    ensures ReadTags(before + [Some(key + "=" + text)]) == ReadTags(before)[key := text]
  {
    var all := before + [Some(key + "=" + text)];
    assert all[..|all| - 1] == before;
    var line := key + "=" + text;
    assert line == key + ['='] + text;
    FirstSeparator(key, '=', text);
    assert line[..|key|] == key && line[|key| + 1..] == text;
  }

  lemma TagsSnoc(tags: map<string, string>, visit: seq<string>, key: string)
    requires key in tags
    ensures Shown(TagValues(tags, visit + [key])) == Shown(TagValues(tags, visit)) + [Some(key + "=" + tags[key])]
  {
  }

  lemma {:induction false} TagsBack(tags: map<string, string>, visit: seq<string>)
    requires forall k | k in visit :: k in tags && '=' !in k
    ensures ReadTags(Shown(TagValues(tags, visit))) == map k | k in visit :: tags[k]
  {
    if visit != [] {
      var n := |visit| - 1;
      var rest, key := visit[..n], visit[n];
      assert visit == rest + [key];
      TagsBack(tags, rest);
      TagsSnoc(tags, rest, key);
      TagBack(key, tags[key], Shown(TagValues(tags, rest)));
    }
  }

  lemma {:induction false} TagKeysClean(values: Readings)
    ensures forall k | k in ReadTags(values) :: '=' !in k
  {
    if values != [] {
      TagKeysClean(values[..|values| - 1]);
    }
  }

  predicate TagKeysFree(tags: map<string, string>) {
    forall k | k in tags :: '=' !in k
  }

  // A map of tags survives, in whatever order it was visited, exactly if no key contains
  // the separator.
  lemma MapBack(tags: map<string, string>, visit: seq<string>)
    requires Enumerates(visit, tags.Keys)
    ensures ReadTags(Shown(TagValues(tags, visit))) == tags <==> TagKeysFree(tags)
  {
    if TagKeysFree(tags) {
      TagsBack(tags, visit);
    } else {
      TagKeysClean(Shown(TagValues(tags, visit)));
    }
  }

  // ---- The whole command line ----------------------------------------------

  // A reader that finds under each flag what the spec asks for it.
  ghost predicate Finds(read: Reader, ns: string, spec: Spec, visit: seq<string>) {
    forall f :: read(FlagName(f)) == Shown(FlagValues(ns, spec, visit, f))
  }

  lemma ScopeBack(read: Reader, ns: string, spec: Spec, visit: seq<string>)
    requires Finds(read, ns, spec, visit)
    ensures ReadScope(read) == ScopeOf(ns, spec)
  {
    assert !spec.clusterWide ==> Shown(FlagValues(ns, spec, visit, WatchNamespace)) == [Some(ns)];
    TextBack(spec.authConfigLabelSelectors);
    TextBack(spec.secretLabelSelectors);
    SwitchBack(spec.supersedingHostSubsets);
    TextBack(spec.logLevel);
    TextBack(spec.logMode);
  }

  lemma PortsRead(read: Reader, listener: Listener)
    requires read(FlagName(Timeout)) == Shown(Numbers(listener.timeout))
    requires read(FlagName(ExtAuthGrpcPort)) == Shown(Numbers(listener.GrpcPort()))
    requires read(FlagName(ExtAuthHttpPort)) == Shown(Numbers(listener.ports.http))
    ensures ReadPorts(read) == PortsOf(listener)
  {
    NumberBack(listener.timeout);
    NumberBack(listener.GrpcPort());
    NumberBack(listener.ports.http);
  }

  lemma PortsBack(read: Reader, ns: string, spec: Spec, visit: seq<string>)
    requires Finds(read, ns, spec, visit)
    ensures ReadPorts(read) == PortsOf(spec.listener)
  {
    PortsRead(read, spec.listener);
  }

  lemma TlsBack(read: Reader, tls: Tls, flags: TlsFlags)
    requires read(FlagName(flags.cert)) == Shown(WhenOn(tls, [Mounted(flags.certFile)]))
    requires read(FlagName(flags.min)) == Shown(WhenOn(tls, Texts(tls.minVersion)))
    requires read(FlagName(flags.max)) == Shown(WhenOn(tls, Texts(tls.maxVersion)))
    requires read(FlagName(flags.suites)) == Shown(WhenOn(tls, Ciphers(tls.cipherSuites)))
    ensures ReadTls(read, flags) == TlsOf(tls) <==> (tls.On() ==> Free(',', tls.cipherSuites))
  {
    if tls.On() {
      assert |read(FlagName(flags.cert))| == 1;
      TextBack(tls.minVersion);
      TextBack(tls.maxVersion);
      ListBack(tls.cipherSuites);
    }
  }

  lemma ListenerTlsBack(read: Reader, ns: string, spec: Spec, visit: seq<string>)
    requires Finds(read, ns, spec, visit)
    ensures ReadTls(read, LISTENER_TLS) == TlsOf(spec.listener.tls)
       <==> (spec.listener.tls.On() ==> Free(',', spec.listener.tls.cipherSuites))
  {
    TlsBack(read, spec.listener.tls, LISTENER_TLS);
  }

  lemma OidcTlsBack(read: Reader, ns: string, spec: Spec, visit: seq<string>)
    requires Finds(read, ns, spec, visit)
    ensures ReadTls(read, OIDC_TLS) == TlsOf(spec.oidcServer.tls)
       <==> (spec.oidcServer.tls.On() ==> Free(',', spec.oidcServer.tls.cipherSuites))
  {
    TlsBack(read, spec.oidcServer.tls, OIDC_TLS);
  }

  lemma TracingRead(read: Reader, tracing: Tracing, visit: seq<string>)
    requires Enumerates(visit, tracing.tags.Keys)
    requires read(FlagName(TracingEndpoint)) == Shown(Texts(tracing.endpoint))
    requires read(FlagName(TracingTag)) == Shown(if tracing.endpoint != "" then TagValues(tracing.tags, visit) else [])
    requires read(FlagName(TracingInsecure)) == Shown(Switch(tracing.endpoint != "" && tracing.insecure))
    ensures ReadTracing(read) == TracingOf(tracing) <==> (tracing.endpoint != "" ==> TagKeysFree(tracing.tags))
  {
    if tracing.endpoint != "" {
      TextBack(tracing.endpoint);
      MapBack(tracing.tags, visit);
      SwitchBack(tracing.insecure);
    }
  }

  lemma TracingFound(read: Reader, ns: string, spec: Spec, visit: seq<string>)
    requires Finds(read, ns, spec, visit)
    ensures var tracing := spec.tracing;
      && read(FlagName(TracingEndpoint)) == Shown(Texts(tracing.endpoint))
      && read(FlagName(TracingTag)) == Shown(if tracing.endpoint != "" then TagValues(tracing.tags, visit) else [])
      && read(FlagName(TracingInsecure)) == Shown(Switch(tracing.endpoint != "" && tracing.insecure))
  {
  }

  lemma TracingBack(read: Reader, ns: string, spec: Spec, visit: seq<string>)
    requires Finds(read, ns, spec, visit)
    requires Enumerates(visit, spec.tracing.tags.Keys)
    ensures ReadTracing(read) == TracingOf(spec.tracing)
       <==> (spec.tracing.endpoint != "" ==> TagKeysFree(spec.tracing.tags))
  {
    TracingFound(read, ns, spec, visit);
    TracingRead(read, spec.tracing, visit);
  }

  lemma LimitsRead(read: Reader, spec: Spec)
    requires read(FlagName(OidcHttpPort)) == Shown(Numbers(spec.oidcServer.port))
    requires read(FlagName(EvaluatorCacheSize)) == Shown(Numbers(spec.evaluatorCacheSize))
    requires read(FlagName(DeepMetricsEnabled)) == Shown(Switch(spec.metrics.deep.Some? && spec.metrics.deep.value))
    requires read(FlagName(MetricsAddr)) == Shown(Addresses(spec.metrics.port))
    requires read(FlagName(HealthProbeAddr)) == Shown(Addresses(spec.healthzPort))
    requires read(FlagName(EnableLeaderElection)) == Shown(Switch(spec.replicas.Some? && spec.replicas.value > 1))
    requires read(FlagName(MaxHttpRequestBodySize)) == Shown(Numbers(spec.listener.maxHttpRequestBodySize))
    ensures ReadLimits(read) == LimitsOf(spec)
  {
    NumberBack(spec.oidcServer.port);
    NumberBack(spec.evaluatorCacheSize);
    SwitchBack(spec.metrics.deep.Some? && spec.metrics.deep.value);
    AddressBack(spec.metrics.port);
    AddressBack(spec.healthzPort);
    SwitchBack(spec.replicas.Some? && spec.replicas.value > 1);
    NumberBack(spec.listener.maxHttpRequestBodySize);
  }

  lemma NumbersFound(read: Reader, ns: string, spec: Spec, visit: seq<string>)
    requires Finds(read, ns, spec, visit)
    ensures read(FlagName(OidcHttpPort)) == Shown(Numbers(spec.oidcServer.port))
    ensures read(FlagName(EvaluatorCacheSize)) == Shown(Numbers(spec.evaluatorCacheSize))
    ensures read(FlagName(MaxHttpRequestBodySize)) == Shown(Numbers(spec.listener.maxHttpRequestBodySize))
  {
  }

  lemma ProbesFound(read: Reader, ns: string, spec: Spec, visit: seq<string>)
    requires Finds(read, ns, spec, visit)
    ensures read(FlagName(MetricsAddr)) == Shown(Addresses(spec.metrics.port))
    ensures read(FlagName(HealthProbeAddr)) == Shown(Addresses(spec.healthzPort))
  {
  }

  lemma SwitchesFound(read: Reader, ns: string, spec: Spec, visit: seq<string>)
    requires Finds(read, ns, spec, visit)
    ensures read(FlagName(DeepMetricsEnabled)) == Shown(Switch(spec.metrics.deep.Some? && spec.metrics.deep.value))
    ensures read(FlagName(EnableLeaderElection)) == Shown(Switch(spec.replicas.Some? && spec.replicas.value > 1))
  {
  }

  lemma LimitsBack(read: Reader, ns: string, spec: Spec, visit: seq<string>)
    requires Finds(read, ns, spec, visit)
    ensures ReadLimits(read) == LimitsOf(spec)
  {
    NumbersFound(read, ns, spec, visit);
    ProbesFound(read, ns, spec, visit);
    SwitchesFound(read, ns, spec, visit);
    LimitsRead(read, spec);
  }

  // The separators the printer relies on do not occur in what it prints.
  predicate Readable(spec: Spec) {
    && (spec.listener.tls.On() ==> Free(',', spec.listener.tls.cipherSuites))
    && (spec.oidcServer.tls.On() ==> Free(',', spec.oidcServer.tls.cipherSuites))
    && (spec.tracing.endpoint != "" ==> TagKeysFree(spec.tracing.tags))
  }

  lemma AllBack(read: Reader, ns: string, spec: Spec, visit: seq<string>)
    requires Finds(read, ns, spec, visit)
    requires Enumerates(visit, spec.tracing.tags.Keys)
    ensures ReadAll(read) == EffectiveOf(ns, spec) <==> Readable(spec)
  {
    ScopeBack(read, ns, spec, visit);
    PortsBack(read, ns, spec, visit);
    ListenerTlsBack(read, ns, spec, visit);
    OidcTlsBack(read, ns, spec, visit);
    TracingBack(read, ns, spec, visit);
    LimitsBack(read, ns, spec, visit);
  }

  // Reading the printed command line gives back the effective spec if and only if no
  // cipher name in use contains ',' and no tag key in use contains '='.
  lemma RoundTrip(ns: string, spec: Spec, visit: seq<string>)
    requires Enumerates(visit, spec.tracing.tags.Keys)
    ensures ReadLine(Line(ArgsOf(ns, spec, visit))) == EffectiveOf(ns, spec) <==> Readable(spec)
  {
    var line := Line(ArgsOf(ns, spec, visit));
    var read: Reader := name => Passed(line, name);
    forall f
      ensures read(FlagName(f)) == Shown(FlagValues(ns, spec, visit, f))
    {
      LinePassesValues(ns, spec, visit, f);
    }
    AllBack(read, ns, spec, visit);
  }
}
