// Command-line flags and deprecated environment variables of the Authorino container
// (pkg/reconcilers/consts.go): their names, their values for a given spec, and the parser
// that reads an argument back.
module Flags {
  import opened Text
  import opened Api

  // Where the TLS certificates and keys are mounted.
  datatype CertFile = ListenerCert | ListenerKey | OidcCert | OidcKey

  function DefaultPath(file: CertFile): string {
    match file
    case ListenerCert => "/etc/ssl/certs/tls.crt"
    case ListenerKey => "/etc/ssl/private/tls.key"
    case OidcCert => "/etc/ssl/certs/oidc.crt"
    case OidcKey => "/etc/ssl/private/oidc.key"
  }

  datatype Flag =
    | WatchNamespace
    | AuthConfigLabelSelector
    | SecretLabelSelector
    | SupersedingHostSubsets
    | LogLevel
    | LogMode
    | Timeout
    | ExtAuthGrpcPort
    | ExtAuthHttpPort
    | TlsCert
    | TlsCertKey
    | TlsMinVersion
    | TlsMaxVersion
    | TlsCipherSuites
    | OidcHttpPort
    | OidcTlsCert
    | OidcTlsCertKey
    | OidcTlsMinVersion
    | OidcTlsMaxVersion
    | OidcTlsCipherSuites
    | EvaluatorCacheSize
    | TracingEndpoint
    | TracingTag
    | TracingInsecure
    | DeepMetricsEnabled
    | MetricsAddr
    | HealthProbeAddr
    | EnableLeaderElection
    | MaxHttpRequestBodySize

  // The sections of the command line.
  datatype Section = ScopeSection | ListenerSection | OidcSection | OtherSection

  function SectionOf(f: Flag): Section {
    match f
    case WatchNamespace | AuthConfigLabelSelector | SecretLabelSelector | SupersedingHostSubsets | LogLevel | LogMode =>
      ScopeSection
    case Timeout | ExtAuthGrpcPort | ExtAuthHttpPort => ListenerSection
    case TlsCert | TlsCertKey | TlsMinVersion | TlsMaxVersion | TlsCipherSuites => ListenerSection
    case OidcHttpPort | OidcTlsCert | OidcTlsCertKey | OidcTlsMinVersion | OidcTlsMaxVersion | OidcTlsCipherSuites =>
      OidcSection
    case _ => OtherSection
  }

  function ScopeFlagName(f: Flag): string {
    match f
    case WatchNamespace => "watch-namespace"
    case AuthConfigLabelSelector => "auth-config-label-selector"
    case SecretLabelSelector => "secret-label-selector"
    case SupersedingHostSubsets => "allow-superseding-host-subsets"
    case LogLevel => "log-level"
    case _ => "log-mode"
  }

  function ListenerFlagName(f: Flag): string {
    match f
    case Timeout => "timeout"
    case ExtAuthGrpcPort => "ext-auth-grpc-port"
    case ExtAuthHttpPort => "ext-auth-http-port"
    case TlsCert => "tls-cert"
    case TlsCertKey => "tls-cert-key"
    case TlsMinVersion => "tls-min-version"
    case TlsMaxVersion => "tls-max-version"
    case _ => "tls-cipher-suites"
  }

  function OidcFlagName(f: Flag): string {
    match f
    case OidcHttpPort => "oidc-http-port"
    case OidcTlsCert => "oidc-tls-cert"
    case OidcTlsCertKey => "oidc-tls-cert-key"
    case OidcTlsMinVersion => "oidc-tls-min-version"
    case OidcTlsMaxVersion => "oidc-tls-max-version"
    case _ => "oidc-tls-cipher-suites"
  }

  function OtherFlagName(f: Flag): string {
    match f
    case EvaluatorCacheSize => "evaluator-cache-size"
    case TracingEndpoint => "tracing-service-endpoint"
    case TracingTag => "tracing-service-tag"
    case TracingInsecure => "tracing-service-insecure"
    case DeepMetricsEnabled => "deep-metrics-enabled"
    case MetricsAddr => "metrics-addr"
    case HealthProbeAddr => "health-probe-addr"
    case EnableLeaderElection => "enable-leader-election"
    case _ => "max-http-request-body-size"
  }

  function FlagName(f: Flag): string {
    match SectionOf(f)
    case ScopeSection => ScopeFlagName(f)
    case ListenerSection => ListenerFlagName(f)
    case OidcSection => OidcFlagName(f)
    case OtherSection => OtherFlagName(f)
  }

  // Names identify flags: a few characters tell all names of one length apart.
  function FlagOf(name: string): Option<Flag> {
    var n := |name|;
    if n == 7 then Some(Timeout)
    else if n == 8 then Some(if name[0] == 'l' then LogMode else TlsCert)
    else if n == 9 then Some(LogLevel)
    else if n == 12 then Some(if name[0] == 'm' then MetricsAddr else TlsCertKey)
    else if n == 13 then Some(OidcTlsCert)
    else if n == 14 then Some(OidcHttpPort)
    else if n == 15 then
      Some(if name[0] == 'w' then WatchNamespace
           else if name[5] == 'a' then TlsMaxVersion else TlsMinVersion)
    else if n == 17 then
      Some(if name[0] == 'h' then HealthProbeAddr
           else if name[0] == 'o' then OidcTlsCertKey else TlsCipherSuites)
    else if n == 18 then Some(if name[9] == 'g' then ExtAuthGrpcPort else ExtAuthHttpPort)
    else if n == 19 then Some(TracingTag)
    else if n == 20 then
      Some(if name[0] == 'd' then DeepMetricsEnabled
           else if name[0] == 'e' then EvaluatorCacheSize
           else if name[10] == 'a' then OidcTlsMaxVersion else OidcTlsMinVersion)
    else if n == 21 then Some(SecretLabelSelector)
    else if n == 22 then Some(if name[0] == 'e' then EnableLeaderElection else OidcTlsCipherSuites)
    else if n == 24 then Some(if name[16] == 'e' then TracingEndpoint else TracingInsecure)
    else if n == 26 then Some(if name[0] == 'a' then AuthConfigLabelSelector else MaxHttpRequestBodySize)
    else if n == 30 then Some(SupersedingHostSubsets)
    else None
  }

  lemma ScopeFlagsBack(f: Flag)
    requires SectionOf(f) == ScopeSection
    ensures FlagOf(ScopeFlagName(f)) == Some(f)
  {
  }

  lemma ListenerFlagsBack(f: Flag)
    requires SectionOf(f) == ListenerSection
    ensures FlagOf(ListenerFlagName(f)) == Some(f)
  {
  }

  lemma OidcFlagsBack(f: Flag)
    requires SectionOf(f) == OidcSection
    ensures FlagOf(OidcFlagName(f)) == Some(f)
  {
  }

  lemma OtherFlagsBack(f: Flag)
    requires SectionOf(f) == OtherSection
    ensures FlagOf(OtherFlagName(f)) == Some(f)
  {
  }

  lemma FlagBack(f: Flag)
    ensures FlagOf(FlagName(f)) == Some(f)
  {
    match SectionOf(f)
    case ScopeSection => ScopeFlagsBack(f);
    case ListenerSection => ListenerFlagsBack(f);
    case OidcSection => OidcFlagsBack(f);
    case OtherSection => OtherFlagsBack(f);
  }

  lemma FlagNamesDiffer(f: Flag, g: Flag)
    requires FlagName(f) == FlagName(g)
    ensures f == g
  {
    FlagBack(f);
    FlagBack(g);
  }

  // The parser cuts an argument at its first '=', which is never part of a flag name.
  lemma FlagNameClean(f: Flag)
    ensures '=' !in FlagName(f)
  {
    ScopeNamesClean(f);
    ListenerNamesClean(f);
    OidcNamesClean(f);
    OtherNamesClean(f);
  }

  lemma ScopeNamesClean(f: Flag)
    ensures '=' !in ScopeFlagName(f)
  {
    LongNamesClean();
  }

  lemma LongNamesClean()
    ensures '=' !in "auth-config-label-selector"
    ensures '=' !in "allow-superseding-host-subsets"
    ensures '=' !in "secret-label-selector"
  {
  }

  lemma ListenerNamesClean(f: Flag)
    ensures '=' !in ListenerFlagName(f)
  {
  }

  lemma OidcNamesClean(f: Flag)
    ensures '=' !in OidcFlagName(f)
  {
  }

  lemma OtherNamesClean(f: Flag)
    ensures '=' !in OtherFlagName(f)
  {
  }

  // The order in which flags are printed.
  const FLAG_COUNT: nat := 29

  function FlagAt(k: nat): Flag {
    if k == 0 then WatchNamespace
    else if k == 1 then AuthConfigLabelSelector
    else if k == 2 then SecretLabelSelector
    else if k == 3 then SupersedingHostSubsets
    else if k == 4 then LogLevel
    else if k == 5 then LogMode
    else if k == 6 then Timeout
    else if k == 7 then ExtAuthGrpcPort
    else if k == 8 then ExtAuthHttpPort
    else if k == 9 then TlsCert
    else if k == 10 then TlsCertKey
    else if k == 11 then TlsMinVersion
    else if k == 12 then TlsMaxVersion
    else if k == 13 then TlsCipherSuites
    else if k == 14 then OidcHttpPort
    else if k == 15 then OidcTlsCert
    else if k == 16 then OidcTlsCertKey
    else if k == 17 then OidcTlsMinVersion
    else if k == 18 then OidcTlsMaxVersion
    else if k == 19 then OidcTlsCipherSuites
    else if k == 20 then EvaluatorCacheSize
    else if k == 21 then TracingEndpoint
    else if k == 22 then TracingTag
    else if k == 23 then TracingInsecure
    else if k == 24 then DeepMetricsEnabled
    else if k == 25 then MetricsAddr
    else if k == 26 then HealthProbeAddr
    else if k == 27 then EnableLeaderElection
    else MaxHttpRequestBodySize
  }

  function Rank(f: Flag): (k: nat)
    ensures k < FLAG_COUNT && FlagAt(k) == f
  {
    match f
    case WatchNamespace => 0
    case AuthConfigLabelSelector => 1
    case SecretLabelSelector => 2
    case SupersedingHostSubsets => 3
    case LogLevel => 4
    case LogMode => 5
    case Timeout => 6
    case ExtAuthGrpcPort => 7
    case ExtAuthHttpPort => 8
    case TlsCert => 9
    case TlsCertKey => 10
    case TlsMinVersion => 11
    case TlsMaxVersion => 12
    case TlsCipherSuites => 13
    case OidcHttpPort => 14
    case OidcTlsCert => 15
    case OidcTlsCertKey => 16
    case OidcTlsMinVersion => 17
    case OidcTlsMaxVersion => 18
    case OidcTlsCipherSuites => 19
    case EvaluatorCacheSize => 20
    case TracingEndpoint => 21
    case TracingTag => 22
    case TracingInsecure => 23
    case DeepMetricsEnabled => 24
    case MetricsAddr => 25
    case HealthProbeAddr => 26
    case EnableLeaderElection => 27
    case MaxHttpRequestBodySize => 28
  }

  lemma FindFlag(f: Flag) returns (k: nat)
    ensures k < FLAG_COUNT && FlagAt(k) == f
  {
    k := Rank(f);
  }

  lemma FlagAtInjective(i: nat, j: nat)
    requires i < j < FLAG_COUNT
    ensures FlagAt(i) != FlagAt(j)
  {
    RankOfFlagAt(i);
    RankOfFlagAt(j);
  }

  lemma RankOfFlagAt(k: nat)
    requires k < FLAG_COUNT
    ensures Rank(FlagAt(k)) == k
  {
  }
}
