// The Authorino custom resource (api/v1beta1/authorino_types.go).
module Api {
  import opened Text

  type Int32 = n: int | -0x8000_0000 <= n <= 0x7FFF_FFFF
  type Int64 = n: int | -MAX_INT64 - 1 <= n <= MAX_INT64

  // ---- Status --------------------------------------------------------------

  datatype Truth = True | False | Unknown

  datatype ConditionType = ReadyType | OtherType(name: string)

  // The reasons of pkg/reconcilers/consts.go that the operator reports.
  datatype Reason =
    | Provisioned
    | Updated
    | UnableToCreateServices
    | UnableToGetServices
    | UnableToGetServiceAccount
    | UnableToCreateServiceAccount
    | UnableToGetBinding
    | UnableToCreateBinding
    | UnableToGetLeaderElectionRole
    | UnableToCreateLeaderElectionRole
    | ClusterRoleNotFound
    | UnableToGetClusterRole
    | TlsSecretNotProvided
    | UnableToGetDeployment
    | UnableToCreateDeployment
    | UnableToBuildDeployment
    | UnableToUpdateDeployment
    | DeploymentNotReady
    | OtherReason(text: string)

  // The two servers that may use TLS.
  datatype Server = ListenerServer | OidcServerSide

  // What an error message says was being done.
  datatype Verb = ToFind | ToGet | ToCreate | ToUpdate | ToBuild | ToReconcile

  // Messages by what their texts tell apart, next to the reason; the API server's own error
  // text is not part of them.
  datatype Message =
    | NoMessage
    | SecretNotNamed(server: Server)
    | SecretNotFound(server: Server, name: string)
    | SecretNotRead(server: Server, name: string)
    | Unable(verb: Verb, name: string)
    | ResourceUpdated
    | ResourceNotReady
    | OtherMessage(text: string)

  // `since` is the condition's LastTransitionTime.
  datatype Condition = Condition(ctype: ConditionType, status: Truth, since: int, reason: Reason, message: Message)

  // AuthorinoStatus.Ready: the first Ready condition decides.
  predicate Ready(conditions: seq<Condition>) {
    if conditions == [] then false
    else if conditions[0].ctype == ReadyType then conditions[0].status == True
    else Ready(conditions[1..])
  }

  // ---- Spec ----------------------------------------------------------------

  datatype Tls = Tls(
    enabled: Option<bool>,
    certSecret: Option<string>,
    minVersion: string,
    maxVersion: string,
    cipherSuites: seq<string>)
  {
    // An absent switch counts as on.
    predicate On() {
      enabled == None || enabled.value
    }
  }

  datatype Ports = Ports(grpc: Option<Int32>, http: Option<Int32>)

  datatype Listener = Listener(
    port: Option<Int32>,
    ports: Ports,
    tls: Tls,
    timeout: Option<Int64>,
    maxHttpRequestBodySize: Option<Int64>)
  {
    // The gRPC port asked for; the deprecated field counts only when the new one is absent.
    function GrpcPort(): Option<Int32> {
      if ports.grpc == None then port else ports.grpc
    }
  }

  datatype OidcServer = OidcServer(port: Option<Int32>, tls: Tls)

  datatype Tracing = Tracing(endpoint: string, tags: map<string, string>, insecure: bool)

  datatype Metrics = Metrics(port: Option<Int32>, deep: Option<bool>)

  datatype KeyToPath = KeyToPath(key: string, path: string)

  datatype VolumeSpec = VolumeSpec(
    name: string,
    mountPath: string,
    configMaps: seq<string>,
    secrets: seq<string>,
    items: seq<KeyToPath>)

  datatype VolumesSpec = VolumesSpec(items: seq<VolumeSpec>, defaultMode: Option<Int32>)

  datatype Spec = Spec(
    image: string,
    imagePullPolicy: string,
    replicas: Option<Int32>,
    volumes: VolumesSpec,
    logLevel: string,
    logMode: string,
    clusterWide: bool,
    listener: Listener,
    oidcServer: OidcServer,
    authConfigLabelSelectors: string,
    secretLabelSelectors: string,
    supersedingHostSubsets: bool,
    evaluatorCacheSize: Option<Int64>,
    tracing: Tracing,
    metrics: Metrics,
    healthzPort: Option<Int32>)

  // Go visits the entries of a map in an unspecified order; `order` is one such order.
  ghost predicate Enumerates<T(!new)>(order: seq<T>, keys: set<T>) {
    && (forall k :: k in keys <==> k in order)
    && (forall i, j | 0 <= i < j < |order| :: order[i] != order[j])
  }
}
