/** Data shared by the component-detection core: the error and result
    wrappers, the slice of the devfile library the core reads (attribute
    stores, Kubernetes components, projects), the Kubernetes resource
    vocabulary, and the application-api records the core fills in. */
module Types {

  datatype Option<T> = None | Some(value: T)

  /** Every error the core returns or passes on. */
  datatype Error =
    | QueryIsNil                              // "componentDetectionQuery is nil"
    | DuplicateComponent(name: string)        // "application already has a component with name %s"
    | SourceIsNil                             // "component source is nil"
    | AttributeUnreadable(key: AttrKey)       // a component attribute lookup failed other than by a missing key
    | WorkspaceAttributeUnreadable(wkey: string) // the same, for a workspace attribute
    | DevfileUnparsable(context: string)      // the devfile parser rejected the context's devfile
    | ComponentsUnavailable(context: string)  // listing the devfile's Kubernetes components failed
    | QuantityUnparsable(text: string)        // the quantity parser rejected a resource string

  datatype Result<T> = Ok(value: T) | Err(error: Error) {
    predicate IsFailure() { Err? }
    function PropagateFailure<U>(): Result<U> requires Err? { Err(error) }
    function Extract(): T requires Ok? { value }
  }

  // ---------------------------------------------------------------------
  // Devfile attribute stores

  /** The attribute keys the stub synthesiser reads from a Kubernetes component. */
  datatype AttrKey =
    | ContainerEnvKey | ContainerPortKey | RouteKey | ReplicaKey
    | CpuLimitKey | MemoryLimitKey | StorageLimitKey
    | CpuRequestKey | MemoryRequestKey | StorageRequestKey

  datatype EnvVar = EnvVar(name: string, value: string)

  /** A stored attribute value, tagged by what it decodes as. A key that is
      not in the store is the "key not found" case. */
  datatype AttrValue = Str(s: string) | Num(x: real) | EnvList(vars: seq<EnvVar>) | Malformed

  /** The outcome of one typed attribute read: found, key not found (never an
      error for the core), or any other decoding failure. */
  datatype Lookup<T> = Found(value: T) | KeyNotFound | Failed

  function GetString<K>(attrs: map<K, AttrValue>, key: K): Lookup<string> {
    if key !in attrs then KeyNotFound
    else if attrs[key].Str? then Found(attrs[key].s)
    else Failed
  }

  function GetNumber<K>(attrs: map<K, AttrValue>, key: K): Lookup<real> {
    if key !in attrs then KeyNotFound
    else if attrs[key].Num? then Found(attrs[key].x)
    else Failed
  }

  function GetEnv<K>(attrs: map<K, AttrValue>, key: K): Lookup<seq<EnvVar>> {
    if key !in attrs then KeyNotFound
    else if attrs[key].EnvList? then Found(attrs[key].vars)
    else Failed
  }

  /** Go's int(float64) conversion: truncation toward zero. */
  function TruncateToInt(x: real): (n: int)
    ensures x >= 0.0 ==> n as real <= x < n as real + 1.0
    ensures x < 0.0 ==> n as real - 1.0 < x <= n as real
  {
    if x >= 0.0 then x.Floor else -((-x).Floor)
  }

  datatype KubernetesComponent = KubernetesComponent(name: string, attributes: map<AttrKey, AttrValue>)

  datatype Metadata = Metadata(language: string, projectType: string)

  /** What parsing a context's devfile bytes and listing its Kubernetes
      components yields. */
  datatype DevfileOutcome =
    | ParseFailed
    | ComponentsFailed
    | Parsed(metadata: Metadata, kubernetes: seq<KubernetesComponent>)

  datatype Project = Project(name: string, remotes: map<string, string>)

  // ---------------------------------------------------------------------
  // Kubernetes resources

  datatype Resource = Cpu | Memory | Storage

  /** A parsed resource quantity; its arithmetic is not modelled. */
  datatype Quantity = Quantity(canonical: string)

  // ---------------------------------------------------------------------
  // Application-api records

  datatype GitSource = GitSource(
    url: string,
    revision: string,
    context: string,
    devfileUrl: string,
    dockerfileUrl: string)

  datatype ComponentSpec = ComponentSpec(
    componentName: string,
    application: string,
    gitSource: Option<GitSource>,
    containerImage: string,
    targetPort: int,
    route: string,
    replicas: int,
    env: seq<EnvVar>,
    limits: map<Resource, Quantity>,
    requests: map<Resource, Quantity>)

  datatype Component = Component(name: string, spec: ComponentSpec)

  datatype ComponentDetectionDescription = ComponentDetectionDescription(
    devfileFound: bool,
    language: string,
    projectType: string,
    componentStub: ComponentSpec)

  /** Go's read of a string-valued map: a missing key reads as "". */
  function GetOrEmpty(m: map<string, string>, key: string): string {
    if key in m then m[key] else ""
  }
}
