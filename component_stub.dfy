/** The component-stub synthesiser: for each detected devfile context, a
    component stub filled from the first Kubernetes component's attributes,
    recorded in the query's detection map under a sanitised name; then a
    minimal "Dockerfile" stub for every context that has only a Dockerfile. */
module ComponentStub {
  import opened Types
  import opened Naming

  const ApplicationPlaceholder: string := "insert-application-name"
  const DockerfileMarker: string := "Dockerfile"

  /** The fields of the query's spec.gitSource the stubs copy. */
  datatype QuerySource = QuerySource(url: string, revision: string)

  type Entry = (string, ComponentDetectionDescription)

  // ---------------------------------------------------------------------
  // Reading the first Kubernetes component's attributes

  /** One cpu/memory/storage limit or request: a missing or empty string
      adds nothing, a non-empty one must parse as a quantity. */
  function ReadResource(attrs: map<AttrKey, AttrValue>, key: AttrKey, parse: string -> Option<Quantity>): Result<Option<Quantity>> {
    var text := GetString(attrs, key);
    if text.Failed? then Err(AttributeUnreadable(key))
    else if text.KeyNotFound? || text.value == "" then Ok(None)
    else if parse(text.value).None? then Err(QuantityUnparsable(text.value))
    else Ok(Some(parse(text.value).value))
  }

  /** `list` with the outcome of one read added: an error passes through,
      a quantity is stored under its resource. */
  function AddRead(list: map<Resource, Quantity>, resource: Resource, read: Result<Option<Quantity>>): Result<map<Resource, Quantity>> {
    if read.Err? then Err(read.error)
    else if read.value.Some? then Ok(list[resource := read.value.value])
    else Ok(list)
  }

  /** The limits (or requests) read from the cpu, memory and storage keys, in
      that order, on top of `list`. */
  function ReadResources(list: map<Resource, Quantity>, attrs: map<AttrKey, AttrValue>,
                         cpuKey: AttrKey, memoryKey: AttrKey, storageKey: AttrKey,
                         parse: string -> Option<Quantity>): Result<map<Resource, Quantity>> {
    var withCpu := AddRead(list, Cpu, ReadResource(attrs, cpuKey, parse));
    if withCpu.Err? then withCpu
    else
      var withMemory := AddRead(withCpu.value, Memory, ReadResource(attrs, memoryKey, parse));
      if withMemory.Err? then withMemory
      else AddRead(withMemory.value, Storage, ReadResource(attrs, storageKey, parse))
  }

  /** The stub after reading env, port (only while the stub has none), route,
      replicas, limits and requests, stopping at the first read that fails
      other than by a missing key. */
  function ApplyKubernetesAttributes(stub: ComponentSpec, attrs: map<AttrKey, AttrValue>,
                                     parse: string -> Option<Quantity>): (r: Result<ComponentSpec>)
    ensures r.Ok? ==> r.value.(env := stub.env, targetPort := stub.targetPort, route := stub.route,
                               replicas := stub.replicas, limits := stub.limits, requests := stub.requests) == stub
    ensures r.Ok? ==>
      r.value.targetPort ==
      (if stub.targetPort != 0 then stub.targetPort
       else if GetNumber(attrs, ContainerPortKey).Found? then TruncateToInt(GetNumber(attrs, ContainerPortKey).value) else 0)
  {
    var envRead := GetEnv(attrs, ContainerEnvKey);
    var portRead := GetNumber(attrs, ContainerPortKey);
    var routeRead := GetString(attrs, RouteKey);
    var replicaRead := GetNumber(attrs, ReplicaKey);
    if envRead.Failed? then Err(AttributeUnreadable(ContainerEnvKey))
    else if stub.targetPort == 0 && portRead.Failed? then Err(AttributeUnreadable(ContainerPortKey))
    else if routeRead.Failed? then Err(AttributeUnreadable(RouteKey))
    else if replicaRead.Failed? then Err(AttributeUnreadable(ReplicaKey))
    else
      var limits :- ReadResources(stub.limits, attrs, CpuLimitKey, MemoryLimitKey, StorageLimitKey, parse);
      var requests :- ReadResources(stub.requests, attrs, CpuRequestKey, MemoryRequestKey, StorageRequestKey, parse);
      Ok(stub.(
        env := if envRead.Found? then envRead.value else stub.env,
        targetPort := if stub.targetPort != 0 then stub.targetPort
                      else if portRead.Found? then TruncateToInt(portRead.value) else 0,
        route := if routeRead.Found? then routeRead.value else "",
        replicas := if replicaRead.Found? then TruncateToInt(replicaRead.value) else 0,
        limits := limits,
        requests := requests))
  }

  /** A key whose read aborts the extraction, given the port scanned so far. */
  predicate KeyAborts(scannedPort: int, attrs: map<AttrKey, AttrValue>, parse: string -> Option<Quantity>, key: AttrKey) {
    match key
    case ContainerEnvKey => key in attrs && !attrs[key].EnvList?
    case ContainerPortKey => scannedPort == 0 && key in attrs && !attrs[key].Num?
    case RouteKey => key in attrs && !attrs[key].Str?
    case ReplicaKey => key in attrs && !attrs[key].Num?
    case _ => ResourceKeyAborts(attrs, parse, key)
  }

  /** Missing keys never abort; the extraction fails exactly when some key
      holds a value of the wrong kind or an unparsable quantity (the port key
      only counts while no port was scanned). */
  lemma ExtractionFailsIffSomeKeyAborts(stub: ComponentSpec, attrs: map<AttrKey, AttrValue>, parse: string -> Option<Quantity>)
    ensures ApplyKubernetesAttributes(stub, attrs, parse).Err? <==> exists key :: KeyAborts(stub.targetPort, attrs, parse, key)
  {
    if exists key :: KeyAborts(stub.targetPort, attrs, parse, key) {
      var key :| KeyAborts(stub.targetPort, attrs, parse, key);
      match key
      case ContainerEnvKey =>
      case ContainerPortKey =>
      case RouteKey =>
      case ReplicaKey =>
      case CpuLimitKey => ResourceReadFails(stub.limits, attrs, CpuLimitKey, MemoryLimitKey, StorageLimitKey, parse, CpuLimitKey);
      case MemoryLimitKey => ResourceReadFails(stub.limits, attrs, CpuLimitKey, MemoryLimitKey, StorageLimitKey, parse, MemoryLimitKey);
      case StorageLimitKey => ResourceReadFails(stub.limits, attrs, CpuLimitKey, MemoryLimitKey, StorageLimitKey, parse, StorageLimitKey);
      case CpuRequestKey => ResourceReadFails(stub.requests, attrs, CpuRequestKey, MemoryRequestKey, StorageRequestKey, parse, CpuRequestKey);
      case MemoryRequestKey => ResourceReadFails(stub.requests, attrs, CpuRequestKey, MemoryRequestKey, StorageRequestKey, parse, MemoryRequestKey);
      case StorageRequestKey => ResourceReadFails(stub.requests, attrs, CpuRequestKey, MemoryRequestKey, StorageRequestKey, parse, StorageRequestKey);
    } else {
      assert !KeyAborts(stub.targetPort, attrs, parse, ContainerEnvKey);
      assert !KeyAborts(stub.targetPort, attrs, parse, ContainerPortKey);
      assert !KeyAborts(stub.targetPort, attrs, parse, RouteKey);
      assert !KeyAborts(stub.targetPort, attrs, parse, ReplicaKey);
      assert !KeyAborts(stub.targetPort, attrs, parse, CpuLimitKey) && !KeyAborts(stub.targetPort, attrs, parse, MemoryLimitKey)
        && !KeyAborts(stub.targetPort, attrs, parse, StorageLimitKey);
      ResourcesReadable(stub.limits, attrs, CpuLimitKey, MemoryLimitKey, StorageLimitKey, parse);
      assert !KeyAborts(stub.targetPort, attrs, parse, CpuRequestKey) && !KeyAborts(stub.targetPort, attrs, parse, MemoryRequestKey)
        && !KeyAborts(stub.targetPort, attrs, parse, StorageRequestKey);
      ResourcesReadable(stub.requests, attrs, CpuRequestKey, MemoryRequestKey, StorageRequestKey, parse);
    }
  }

  predicate ResourceKeyAborts(attrs: map<AttrKey, AttrValue>, parse: string -> Option<Quantity>, key: AttrKey) {
    key in attrs && (!attrs[key].Str? || (attrs[key].s != "" && parse(attrs[key].s).None?))
  }

  lemma ResourceReadFails(list: map<Resource, Quantity>, attrs: map<AttrKey, AttrValue>,
                          cpuKey: AttrKey, memoryKey: AttrKey, storageKey: AttrKey,
                          parse: string -> Option<Quantity>, key: AttrKey)
    requires key == cpuKey || key == memoryKey || key == storageKey
    requires ResourceKeyAborts(attrs, parse, key)
    ensures ReadResources(list, attrs, cpuKey, memoryKey, storageKey, parse).Err?
  {
  }

  lemma ResourcesReadable(list: map<Resource, Quantity>, attrs: map<AttrKey, AttrValue>,
                          cpuKey: AttrKey, memoryKey: AttrKey, storageKey: AttrKey,
                          parse: string -> Option<Quantity>)
    requires !ResourceKeyAborts(attrs, parse, cpuKey)
    requires !ResourceKeyAborts(attrs, parse, memoryKey)
    requires !ResourceKeyAborts(attrs, parse, storageKey)
    ensures ReadResources(list, attrs, cpuKey, memoryKey, storageKey, parse).Ok?
  {
  }

  /** The resource for each limit or request key. */
  function ResourceOf(key: AttrKey): Resource {
    match key
    case CpuLimitKey => Cpu
    case CpuRequestKey => Cpu
    case MemoryLimitKey => Memory
    case MemoryRequestKey => Memory
    case _ => Storage
  }

  /** Starting from no entries, a resource is listed exactly when its key
      holds a non-empty string, and then under the quantity that string
      parses to. */
  lemma ResourceEntries(attrs: map<AttrKey, AttrValue>, cpuKey: AttrKey, memoryKey: AttrKey, storageKey: AttrKey,
                        parse: string -> Option<Quantity>, key: AttrKey)
    requires ResourceOf(cpuKey) == Cpu && ResourceOf(memoryKey) == Memory && ResourceOf(storageKey) == Storage
    requires key == cpuKey || key == memoryKey || key == storageKey
    requires ReadResources(map[], attrs, cpuKey, memoryKey, storageKey, parse).Ok?
    ensures ListsAsRead(ReadResources(map[], attrs, cpuKey, memoryKey, storageKey, parse).value, attrs, key, parse)
  {
  }

  /** How a resource list read from scratch reflects one key: the key's
      resource is listed exactly when the key holds a non-empty string, and
      then under the quantity that string parses to. */
  predicate ListsAsRead(list: map<Resource, Quantity>, attrs: map<AttrKey, AttrValue>, key: AttrKey,
                        parse: string -> Option<Quantity>) {
    && (ResourceOf(key) in list <==> key in attrs && attrs[key].Str? && attrs[key].s != "")
    && (ResourceOf(key) in list ==> parse(attrs[key].s) == Some(list[ResourceOf(key)]))
  }

  /** On success every field the extractor reads holds what its key holds:
      the env list when the env key is present (the stub's own otherwise),
      the route string or "", the replica count truncated toward zero or 0,
      and the limits and requests read on top of the stub's. */
  lemma KubernetesAttributeValues(stub: ComponentSpec, attrs: map<AttrKey, AttrValue>, parse: string -> Option<Quantity>)
    requires ApplyKubernetesAttributes(stub, attrs, parse).Ok?
    ensures ContainerEnvKey in attrs ==> attrs[ContainerEnvKey].EnvList?
    ensures RouteKey in attrs ==> attrs[RouteKey].Str?
    ensures ReplicaKey in attrs ==> attrs[ReplicaKey].Num?
    ensures ReadResources(stub.limits, attrs, CpuLimitKey, MemoryLimitKey, StorageLimitKey, parse).Ok?
    ensures ReadResources(stub.requests, attrs, CpuRequestKey, MemoryRequestKey, StorageRequestKey, parse).Ok?
    ensures var s := ApplyKubernetesAttributes(stub, attrs, parse).value;
      && s.env == (if ContainerEnvKey in attrs then attrs[ContainerEnvKey].vars else stub.env)
      && s.route == (if RouteKey in attrs then attrs[RouteKey].s else "")
      && s.replicas == (if ReplicaKey in attrs then TruncateToInt(attrs[ReplicaKey].x) else 0)
      && s.limits == ReadResources(stub.limits, attrs, CpuLimitKey, MemoryLimitKey, StorageLimitKey, parse).value
      && s.requests == ReadResources(stub.requests, attrs, CpuRequestKey, MemoryRequestKey, StorageRequestKey, parse).value
  {
  }

  /** Example: cpu limit "2" and memory limit "2Gi" give exactly a cpu and a
      memory limit, and no storage limit. */
  lemma CpuAndMemoryLimitExample(stub: ComponentSpec, parse: string -> Option<Quantity>, two: Quantity, twoGi: Quantity)
    requires stub.limits == map[] && stub.requests == map[]
    requires parse("2") == Some(two) && parse("2Gi") == Some(twoGi)
    ensures var r := ApplyKubernetesAttributes(stub, map[CpuLimitKey := Str("2"), MemoryLimitKey := Str("2Gi")], parse);
      && r.Ok?
      && r.value.limits == map[Cpu := two, Memory := twoGi]
      && r.value.requests == map[]
  {
  }

  /** A component without any of the keys changes nothing but clearing
      route and replicas. */
  lemma NoAttributesChangeNothing(stub: ComponentSpec, parse: string -> Option<Quantity>)
    ensures ApplyKubernetesAttributes(stub, map[], parse) == Ok(stub.(route := "", replicas := 0))
  {
  }

  // ---------------------------------------------------------------------
  // One devfile context

  /** componentPortsMap[context][0] when that list is non-empty, else 0. */
  function FirstPort(ports: map<string, seq<int>>, context: string): int {
    if context in ports && |ports[context]| != 0 then ports[context][0] else 0
  }

  function NewStub(name: string, gitSource: GitSource): ComponentSpec {
    ComponentSpec(name, ApplicationPlaceholder, Some(gitSource), "", 0, "", 0, [], map[], map[])
  }

  /** The git source of a devfile context's stub: the query's URL and
      revision at this context, with the context's devfile and Dockerfile URLs. */
  function DevfileGitSource(src: QuerySource, context: string, devfileUrls: map<string, string>,
                            dockerfiles: map<string, string>): GitSource {
    GitSource(src.url, src.revision, context, GetOrEmpty(devfileUrls, context), GetOrEmpty(dockerfiles, context))
  }

  /** The detection entry for the devfile context of `gitSource`, its stub
      named `name`, or the error that stops the synthesis there. */
  function DevfileEntry(gitSource: GitSource, outcome: DevfileOutcome, ports: map<string, seq<int>>,
                        name: string, parse: string -> Option<Quantity>): Result<ComponentDetectionDescription> {
    match outcome
    case ParseFailed => Err(DevfileUnparsable(gitSource.context))
    case ComponentsFailed => Err(ComponentsUnavailable(gitSource.context))
    case Parsed(metadata, kubernetes) =>
      var stub := NewStub(name, gitSource).(targetPort := FirstPort(ports, gitSource.context));
      var filled :- if |kubernetes| == 0 then Ok(stub) else ApplyKubernetesAttributes(stub, kubernetes[0].attributes, parse);
      Ok(ComponentDetectionDescription(gitSource.devfileUrl != "", metadata.language, metadata.projectType, filled))
  }

  /** A devfile context's entry: devfile found exactly when the context has a
      devfile URL; language and project type from the devfile; the query's
      git source at this context with both detection URLs; the given name;
      the placeholder application; no image; the scanned port, or the
      component's port attribute (truncated) only when the scanned one is 0. */
  lemma DevfileEntryFields(src: QuerySource, context: string, metadata: Metadata, kubernetes: seq<KubernetesComponent>,
                           devfileUrls: map<string, string>, dockerfiles: map<string, string>,
                           ports: map<string, seq<int>>, name: string, parse: string -> Option<Quantity>)
    requires DevfileEntry(DevfileGitSource(src, context, devfileUrls, dockerfiles), Parsed(metadata, kubernetes), ports, name, parse).Ok?
    ensures var d := DevfileEntry(DevfileGitSource(src, context, devfileUrls, dockerfiles), Parsed(metadata, kubernetes), ports, name, parse).value;
      var scanned := if context in ports && |ports[context]| > 0 then ports[context][0] else 0;
      && (d.devfileFound <==> context in devfileUrls && devfileUrls[context] != "")
      && d.language == metadata.language && d.projectType == metadata.projectType
      && d.componentStub.gitSource == Some(GitSource(src.url, src.revision, context,
                                                     if context in devfileUrls then devfileUrls[context] else "",
                                                     if context in dockerfiles then dockerfiles[context] else ""))
      && d.componentStub.componentName == name
      && d.componentStub.application == "insert-application-name"
      && d.componentStub.containerImage == ""
      && d.componentStub.targetPort ==
           (if scanned != 0 then scanned
            else if |kubernetes| != 0 && GetNumber(kubernetes[0].attributes, ContainerPortKey).Found?
            then TruncateToInt(GetNumber(kubernetes[0].attributes, ContainerPortKey).value)
            else 0)
  {
  }

  /** A devfile context fails exactly when its devfile cannot be parsed, its
      components cannot be listed, or its first Kubernetes component holds
      a key that aborts the extraction; without Kubernetes components it
      never fails once parsed. */
  lemma DevfileEntryFails(gitSource: GitSource, outcome: DevfileOutcome, ports: map<string, seq<int>>,
                          name: string, parse: string -> Option<Quantity>)
    ensures DevfileEntry(gitSource, outcome, ports, name, parse).Err? <==>
      || outcome.ParseFailed?
      || outcome.ComponentsFailed?
      || (outcome.Parsed? && |outcome.kubernetes| != 0 &&
          exists key :: KeyAborts(FirstPort(ports, gitSource.context), outcome.kubernetes[0].attributes, parse, key))
  {
    if outcome.Parsed? && |outcome.kubernetes| != 0 {
      var stub := NewStub(name, gitSource).(targetPort := FirstPort(ports, gitSource.context));
      ExtractionFailsIffSomeKeyAborts(stub, outcome.kubernetes[0].attributes, parse);
    }
  }

  /** A devfile context's stub starts with no env, route, replicas, limits
      or requests, so each holds what the first Kubernetes component's key
      for it holds: the env list or none, the route or "", the replica count
      or 0, and a limit or request exactly when its key holds a non-empty
      string, under that string's parse. Without Kubernetes components all
      stay unset. */
  lemma DevfileEntryAttributes(gitSource: GitSource, metadata: Metadata, kubernetes: seq<KubernetesComponent>,
                               ports: map<string, seq<int>>, name: string, parse: string -> Option<Quantity>)
    requires DevfileEntry(gitSource, Parsed(metadata, kubernetes), ports, name, parse).Ok?
    ensures var s := DevfileEntry(gitSource, Parsed(metadata, kubernetes), ports, name, parse).value.componentStub;
      var attrs := if |kubernetes| == 0 then map[] else kubernetes[0].attributes;
      && (ContainerEnvKey in attrs ==> attrs[ContainerEnvKey].EnvList? && s.env == attrs[ContainerEnvKey].vars)
      && (ContainerEnvKey !in attrs ==> s.env == [])
      && (RouteKey in attrs ==> attrs[RouteKey].Str? && s.route == attrs[RouteKey].s)
      && (RouteKey !in attrs ==> s.route == "")
      && (ReplicaKey in attrs ==> attrs[ReplicaKey].Num? && s.replicas == TruncateToInt(attrs[ReplicaKey].x))
      && (ReplicaKey !in attrs ==> s.replicas == 0)
      && ListsAsRead(s.limits, attrs, CpuLimitKey, parse)
      && ListsAsRead(s.limits, attrs, MemoryLimitKey, parse)
      && ListsAsRead(s.limits, attrs, StorageLimitKey, parse)
      && ListsAsRead(s.requests, attrs, CpuRequestKey, parse)
      && ListsAsRead(s.requests, attrs, MemoryRequestKey, parse)
      && ListsAsRead(s.requests, attrs, StorageRequestKey, parse)
  {
    if |kubernetes| != 0 {
      var stub := NewStub(name, gitSource).(targetPort := FirstPort(ports, gitSource.context));
      var attrs := kubernetes[0].attributes;
      KubernetesAttributeValues(stub, attrs, parse);
      ResourceEntries(attrs, CpuLimitKey, MemoryLimitKey, StorageLimitKey, parse, CpuLimitKey);
      ResourceEntries(attrs, CpuLimitKey, MemoryLimitKey, StorageLimitKey, parse, MemoryLimitKey);
      ResourceEntries(attrs, CpuLimitKey, MemoryLimitKey, StorageLimitKey, parse, StorageLimitKey);
      ResourceEntries(attrs, CpuRequestKey, MemoryRequestKey, StorageRequestKey, parse, CpuRequestKey);
      ResourceEntries(attrs, CpuRequestKey, MemoryRequestKey, StorageRequestKey, parse, MemoryRequestKey);
      ResourceEntries(attrs, CpuRequestKey, MemoryRequestKey, StorageRequestKey, parse, StorageRequestKey);
    }
  }

  // ---------------------------------------------------------------------
  // One dockerfile-only context

  function DockerfileGitSource(src: QuerySource, context: string, link: string): GitSource {
    GitSource(src.url, src.revision, context, "", link)
  }

  /** The entry for a context that has only a Dockerfile. */
  function DockerfileEntry(gitSource: GitSource, name: string): ComponentDetectionDescription {
    ComponentDetectionDescription(false, DockerfileMarker, DockerfileMarker, NewStub(name, gitSource))
  }

  // ---------------------------------------------------------------------
  // The whole synthesis

  /** The entry of the n-th devfile context visited, given its context and
      devfile outcome. */
  type DevfileBuilder = (nat, string, DevfileOutcome) -> Result<ComponentDetectionDescription>

  /** The entry of the n-th context visited overall, given a dockerfile-only
      context and its Dockerfile link. */
  type DockerfileBuilder = (nat, string, string) -> ComponentDetectionDescription

  /** The devfile loop's entries: the n-th context is named with draw n. */
  function DevfileBuild(src: QuerySource, devfileUrls: map<string, string>, dockerfiles: map<string, string>,
                        ports: map<string, seq<int>>, draws: nat -> NameDraw,
                        parse: string -> Option<Quantity>): DevfileBuilder {
    (n: nat, context: string, outcome: DevfileOutcome) =>
      var gitSource := DevfileGitSource(src, context, devfileUrls, dockerfiles);
      DevfileEntry(gitSource, outcome, ports, GetComponentName(gitSource, draws(n)), parse)
  }

  /** The dockerfile loop's entries: the n-th context is named with draw n. */
  function DockerfileBuild(src: QuerySource, draws: nat -> NameDraw): DockerfileBuilder {
    (n: nat, context: string, link: string) =>
      var gitSource := DockerfileGitSource(src, context, link);
      DockerfileEntry(gitSource, GetComponentName(gitSource, draws(n)))
  }

  function Contexts(devfiles: seq<(string, DevfileOutcome)>): (cs: seq<string>)
    ensures |cs| == |devfiles|
    ensures forall k :: 0 <= k < |devfiles| ==> cs[k] == devfiles[k].0
  {
    seq(|devfiles|, k requires 0 <= k < |devfiles| => devfiles[k].0)
  }

  predicate Distinct(s: seq<string>) { forall i, j :: 0 <= i < j < |s| ==> s[i] != s[j] }

  /** The order the dockerfile loop visits the dockerfile map in: each
      context left once the devfile contexts are deleted, once. */
  ghost predicate DockerOrderMatches(devfiles: seq<(string, DevfileOutcome)>, dockerfiles: map<string, string>, order: seq<string>) {
    && Distinct(order)
    && forall c :: c in order <==> c in dockerfiles && c !in Contexts(devfiles)
  }

  /** What the devfile loop has written and deleted, and the error it
      stopped at, if any. */
  datatype Pass = Pass(written: seq<Entry>, processed: seq<string>, error: Option<Error>)

  /** The devfile loop over the contexts in order, stopping at the first
      entry that fails. */
  function DevfilePass(devfiles: seq<(string, DevfileOutcome)>, build: DevfileBuilder): Pass
    decreases |devfiles|
  {
    if devfiles == [] then Pass([], [], None)
    else
      var n := |devfiles| - 1;
      var prev := DevfilePass(devfiles[..n], build);
      if prev.error.Some? then prev
      else
        match build(n, devfiles[n].0, devfiles[n].1)
        case Err(e) => prev.(error := Some(e))
        case Ok(d) => Pass(prev.written + [(d.componentStub.componentName, d)], prev.processed + [devfiles[n].0], None)
  }

  /** The dockerfile loop over `order`; its k-th context is the
      (offset + k)-th visited overall. */
  function DockerfilePass(order: seq<string>, dockerfiles: map<string, string>, build: DockerfileBuilder, offset: nat): seq<Entry>
    requires forall c :: c in order ==> c in dockerfiles
  {
    if order == [] then []
    else
      var n := |order| - 1;
      var d := build(offset + n, order[n], dockerfiles[order[n]]);
      DockerfilePass(order[..n], dockerfiles, build, offset) + [(d.componentStub.componentName, d)]
  }

  /** updateComponentStub for a non-nil query: the entries written, in
      order, the contexts deleted from the dockerfile map, and the error. */
  function Synthesize(src: QuerySource, devfiles: seq<(string, DevfileOutcome)>,
                      devfileUrls: map<string, string>, dockerfiles: map<string, string>,
                      ports: map<string, seq<int>>, dockerOrder: seq<string>,
                      draws: nat -> NameDraw, parse: string -> Option<Quantity>): Pass
    requires DockerOrderMatches(devfiles, dockerfiles, dockerOrder)
  {
    var first := DevfilePass(devfiles, DevfileBuild(src, devfileUrls, dockerfiles, ports, draws, parse));
    if first.error.Some? then first
    else first.(written := first.written + DockerfilePass(dockerOrder, dockerfiles, DockerfileBuild(src, draws), |devfiles|))
  }

  /** The detection map after the given writes, later writes winning. */
  function Record(detected: map<string, ComponentDetectionDescription>, written: seq<Entry>): map<string, ComponentDetectionDescription> {
    if written == [] then detected
    else
      var n := |written| - 1;
      Record(detected, written[..n])[written[n].0 := written[n].1]
  }

  function ContextSet(s: seq<string>): set<string> { set c | c in s }

  /** The devfile loop, entry by entry: the k-th write is the k-th context's
      entry under its stub's name, the k-th deletion is the k-th context,
      and an error is that of the first context whose entry fails, after
      the entries of every earlier context were written. */
  lemma DevfilePassIsEntryByEntry(devfiles: seq<(string, DevfileOutcome)>, build: DevfileBuilder)
    ensures var p := DevfilePass(devfiles, build);
      && |p.written| == |p.processed| <= |devfiles|
      && (forall k :: 0 <= k < |p.written| ==>
            && p.processed[k] == devfiles[k].0
            && p.written[k].0 == p.written[k].1.componentStub.componentName
            && build(k, devfiles[k].0, devfiles[k].1) == Ok(p.written[k].1))
      && (p.error.None? <==> |p.written| == |devfiles|)
      && (p.error.Some? ==> build(|p.written|, devfiles[|p.written|].0, devfiles[|p.written|].1) == Err(p.error.value))
  {
    DevfilePassLengths(devfiles, build);
    DevfilePassWrites(devfiles, build);
    DevfilePassFails(devfiles, build);
  }

  lemma {:induction false} DevfilePassLengths(devfiles: seq<(string, DevfileOutcome)>, build: DevfileBuilder)
    ensures var p := DevfilePass(devfiles, build);
      && |p.written| == |p.processed| <= |devfiles|
      && (p.error.None? <==> |p.written| == |devfiles|)
    decreases |devfiles|
  {
    if devfiles != [] {
      DevfilePassLengths(devfiles[..|devfiles| - 1], build);
    }
  }

  lemma {:induction false} DevfilePassWrites(devfiles: seq<(string, DevfileOutcome)>, build: DevfileBuilder)
    ensures var p := DevfilePass(devfiles, build);
      forall k :: 0 <= k < |p.written| && k < |p.processed| && k < |devfiles| ==>
        && p.processed[k] == devfiles[k].0
        && p.written[k].0 == p.written[k].1.componentStub.componentName
        && build(k, devfiles[k].0, devfiles[k].1) == Ok(p.written[k].1)
    decreases |devfiles|
  {
    if devfiles != [] {
      var n := |devfiles| - 1;
      var prev := DevfilePass(devfiles[..n], build);
      var p := DevfilePass(devfiles, build);
      DevfilePassWrites(devfiles[..n], build);
      DevfilePassLengths(devfiles[..n], build);
      forall k | 0 <= k < |p.written| && k < |p.processed| && k < |devfiles|
        ensures p.processed[k] == devfiles[k].0
        ensures p.written[k].0 == p.written[k].1.componentStub.componentName
        ensures build(k, devfiles[k].0, devfiles[k].1) == Ok(p.written[k].1)
      {
        if k < |prev.written| {
          assert devfiles[..n][k] == devfiles[k];
          assert p.written[k] == prev.written[k] && p.processed[k] == prev.processed[k];
        } else {
          assert prev.error.None? && k == n;
        }
      }
    }
  }

  lemma {:induction false} DevfilePassFails(devfiles: seq<(string, DevfileOutcome)>, build: DevfileBuilder)
    ensures var p := DevfilePass(devfiles, build);
      p.error.Some? ==>
        |p.written| < |devfiles| && build(|p.written|, devfiles[|p.written|].0, devfiles[|p.written|].1) == Err(p.error.value)
    decreases |devfiles|
  {
    if devfiles != [] {
      var n := |devfiles| - 1;
      DevfilePassFails(devfiles[..n], build);
      DevfilePassLengths(devfiles[..n], build);
    }
  }


  /** Once a context fails, the later contexts are never reached. */
  lemma {:induction false} DevfilePassStopsAtError(devfiles: seq<(string, DevfileOutcome)>, build: DevfileBuilder, k: nat)
    requires k <= |devfiles|
    requires DevfilePass(devfiles[..k], build).error.Some?
    ensures DevfilePass(devfiles, build) == DevfilePass(devfiles[..k], build)
    decreases |devfiles| - k
  {
    if k < |devfiles| {
      var n := |devfiles| - 1;
      assert devfiles[..n][..k] == devfiles[..k];
      DevfilePassStopsAtError(devfiles[..n], build, k);
    } else {
      assert devfiles[..k] == devfiles;
    }
  }

  /** The dockerfile loop, entry by entry: its k-th write is the entry of
      the k-th context in `order`, under its stub's name. */
  lemma {:induction false} DockerfilePassEntries(order: seq<string>, dockerfiles: map<string, string>,
                                                  build: DockerfileBuilder, offset: nat)
    requires forall c :: c in order ==> c in dockerfiles
    ensures var w := DockerfilePass(order, dockerfiles, build, offset);
      && |w| == |order|
      && forall k :: 0 <= k < |w| ==>
           && w[k].1 == build(offset + k, order[k], dockerfiles[order[k]])
           && w[k].0 == w[k].1.componentStub.componentName
    decreases |order|
  {
    if order != [] {
      var n := |order| - 1;
      DockerfilePassEntries(order[..n], dockerfiles, build, offset);
    }
  }

  function EntryContext(e: Entry): string {
    if e.1.componentStub.gitSource.Some? then e.1.componentStub.gitSource.value.context else ""
  }

  function WrittenContexts(written: seq<Entry>): (cs: seq<string>)
    ensures |cs| == |written|
    ensures forall k :: 0 <= k < |written| ==> cs[k] == EntryContext(written[k])
  {
    seq(|written|, k requires 0 <= k < |written| => EntryContext(written[k]))
  }

  /** Applying the devfile loop's builder. */
  lemma DevfileBuildApplies(src: QuerySource, devfileUrls: map<string, string>, dockerfiles: map<string, string>,
                            ports: map<string, seq<int>>, draws: nat -> NameDraw, parse: string -> Option<Quantity>,
                            n: nat, context: string, outcome: DevfileOutcome)
    ensures var gitSource := GitSource(src.url, src.revision, context, GetOrEmpty(devfileUrls, context), GetOrEmpty(dockerfiles, context));
      DevfileBuild(src, devfileUrls, dockerfiles, ports, draws, parse)(n, context, outcome)
        == DevfileEntry(gitSource, outcome, ports, GetComponentName(gitSource, draws(n)), parse)
  {
    assert DevfileGitSource(src, context, devfileUrls, dockerfiles)
        == GitSource(src.url, src.revision, context, GetOrEmpty(devfileUrls, context), GetOrEmpty(dockerfiles, context));
  }

  /** A devfile-loop entry carries its context's git source and is named
      from it with the draw of its position. */
  lemma DevfileBuildNamesEntries(src: QuerySource, devfileUrls: map<string, string>, dockerfiles: map<string, string>,
                                 ports: map<string, seq<int>>, draws: nat -> NameDraw, parse: string -> Option<Quantity>,
                                 n: nat, context: string, outcome: DevfileOutcome)
    requires DevfileBuild(src, devfileUrls, dockerfiles, ports, draws, parse)(n, context, outcome).Ok?
    ensures var d := DevfileBuild(src, devfileUrls, dockerfiles, ports, draws, parse)(n, context, outcome).value;
      var gitSource := GitSource(src.url, src.revision, context, GetOrEmpty(devfileUrls, context), GetOrEmpty(dockerfiles, context));
      && d.componentStub.gitSource == Some(gitSource)
      && d.componentStub.componentName == GetComponentName(gitSource, draws(n))
  {
    var gitSource := DevfileGitSource(src, context, devfileUrls, dockerfiles);
    var name := GetComponentName(gitSource, draws(n));
    assert DevfileBuild(src, devfileUrls, dockerfiles, ports, draws, parse)(n, context, outcome)
        == DevfileEntry(gitSource, outcome, ports, name, parse);
  }

  /** A dockerfile-loop entry: no devfile, language and project type
      "Dockerfile", the query's git source at the context with only the
      Dockerfile link, named from it with the draw of its position, and
      nothing else set. */
  lemma DockerfileBuildEntries(src: QuerySource, draws: nat -> NameDraw, n: nat, context: string, link: string)
    ensures var d := DockerfileBuild(src, draws)(n, context, link);
      var gitSource := GitSource(src.url, src.revision, context, "", link);
      && !d.devfileFound && d.language == "Dockerfile" && d.projectType == "Dockerfile"
      && d.componentStub.componentName == GetComponentName(gitSource, draws(n))
      && d.componentStub == ComponentSpec(d.componentStub.componentName, "insert-application-name", Some(gitSource),
                                          "", 0, "", 0, [], map[], map[])
  {
    DockerfileBuildApplies(src, draws, n, context, link);
  }

  /** The devfile contexts followed by the dockerfile-only ones are
      distinct and are exactly the contexts of either map. */
  lemma VisitOrderIsDistinct(devfiles: seq<(string, DevfileOutcome)>, dockerfiles: map<string, string>, dockerOrder: seq<string>)
    requires Distinct(Contexts(devfiles))
    requires DockerOrderMatches(devfiles, dockerfiles, dockerOrder)
    ensures Distinct(Contexts(devfiles) + dockerOrder)
    ensures forall c :: c in Contexts(devfiles) + dockerOrder <==> c in Contexts(devfiles) || c in dockerfiles
  {
    var all := Contexts(devfiles) + dockerOrder;
    forall i, j | 0 <= i < j < |all| ensures all[i] != all[j] {
      if j >= |devfiles| && i < |devfiles| {
        assert all[j] == dockerOrder[j - |devfiles|];
        assert all[i] in Contexts(devfiles);
      }
    }
  }

  /** Every entry a builder produces sits at the context it was built for. */
  ghost predicate DevfileBuildsAtContext(build: DevfileBuilder) {
    forall n: nat, context: string, outcome: DevfileOutcome :: build(n, context, outcome).Ok? ==>
      build(n, context, outcome).value.componentStub.gitSource.Some? &&
      build(n, context, outcome).value.componentStub.gitSource.value.context == context
  }

  ghost predicate DockerfileBuildsAtContext(build: DockerfileBuilder) {
    forall n: nat, context: string, link: string ::
      build(n, context, link).componentStub.gitSource.Some? &&
      build(n, context, link).componentStub.gitSource.value.context == context
  }

  lemma DevfileBuildIsAtContext(src: QuerySource, devfileUrls: map<string, string>, dockerfiles: map<string, string>,
                                ports: map<string, seq<int>>, draws: nat -> NameDraw, parse: string -> Option<Quantity>)
    ensures DevfileBuildsAtContext(DevfileBuild(src, devfileUrls, dockerfiles, ports, draws, parse))
  {
    forall n: nat, context: string, outcome: DevfileOutcome |
      DevfileBuild(src, devfileUrls, dockerfiles, ports, draws, parse)(n, context, outcome).Ok?
      ensures DevfileBuild(src, devfileUrls, dockerfiles, ports, draws, parse)(n, context, outcome).value.componentStub.gitSource.Some?
      ensures DevfileBuild(src, devfileUrls, dockerfiles, ports, draws, parse)(n, context, outcome).value.componentStub.gitSource.value.context == context
    {
      DevfileBuildNamesEntries(src, devfileUrls, dockerfiles, ports, draws, parse, n, context, outcome);
    }
  }

  lemma DockerfileBuildIsAtContext(src: QuerySource, draws: nat -> NameDraw)
    ensures DockerfileBuildsAtContext(DockerfileBuild(src, draws))
  {
    forall n: nat, context: string, link: string
      ensures DockerfileBuild(src, draws)(n, context, link).componentStub.gitSource.Some?
      ensures DockerfileBuild(src, draws)(n, context, link).componentStub.gitSource.value.context == context
    {
      DockerfileBuildEntries(src, draws, n, context, link);
    }
  }

  /** A completed devfile loop writes the contexts in order and deletes them. */
  lemma DevfilePassContexts(devfiles: seq<(string, DevfileOutcome)>, build: DevfileBuilder)
    requires DevfileBuildsAtContext(build)
    ensures var p := DevfilePass(devfiles, build);
      p.error.None? ==> WrittenContexts(p.written) == Contexts(devfiles) && p.processed == Contexts(devfiles)
  {
    var p := DevfilePass(devfiles, build);
    DevfilePassIsEntryByEntry(devfiles, build);
    if p.error.None? {
      forall k | 0 <= k < |devfiles| ensures EntryContext(p.written[k]) == devfiles[k].0 {
        assert build(k, devfiles[k].0, devfiles[k].1) == Ok(p.written[k].1);
      }
    }
  }

  lemma DockerfilePassContexts(order: seq<string>, dockerfiles: map<string, string>, build: DockerfileBuilder, offset: nat)
    requires forall c :: c in order ==> c in dockerfiles
    requires DockerfileBuildsAtContext(build)
    ensures WrittenContexts(DockerfilePass(order, dockerfiles, build, offset)) == order
  {
    var w := DockerfilePass(order, dockerfiles, build, offset);
    DockerfilePassEntries(order, dockerfiles, build, offset);
    forall k | 0 <= k < |order| ensures EntryContext(w[k]) == order[k] {
      assert w[k].1 == build(offset + k, order[k], dockerfiles[order[k]]);
    }
  }

  lemma WrittenContextsConcat(a: seq<Entry>, b: seq<Entry>)
    ensures WrittenContexts(a + b) == WrittenContexts(a) + WrittenContexts(b)
  {
    assert forall k :: 0 <= k < |a + b| ==> WrittenContexts(a + b)[k] == (WrittenContexts(a) + WrittenContexts(b))[k];
  }

  /** On success every context with a devfile or a Dockerfile gets exactly
      one entry: the devfile contexts first, then the dockerfile-only ones,
      so a context with both is written once, from its devfile; and every
      devfile context is deleted from the dockerfile map. */
  lemma SynthesisCoversEachContextOnce(src: QuerySource, devfiles: seq<(string, DevfileOutcome)>,
                                       devfileUrls: map<string, string>, dockerfiles: map<string, string>,
                                       ports: map<string, seq<int>>, dockerOrder: seq<string>,
                                       draws: nat -> NameDraw, parse: string -> Option<Quantity>)
    requires Distinct(Contexts(devfiles))
    requires DockerOrderMatches(devfiles, dockerfiles, dockerOrder)
    ensures var p := Synthesize(src, devfiles, devfileUrls, dockerfiles, ports, dockerOrder, draws, parse);
      p.error.None? ==>
        && WrittenContexts(p.written) == Contexts(devfiles) + dockerOrder
        && Distinct(WrittenContexts(p.written))
        && (forall c :: c in WrittenContexts(p.written) <==> c in Contexts(devfiles) || c in dockerfiles)
        && ContextSet(p.processed) == ContextSet(Contexts(devfiles))
  {
    var build := DevfileBuild(src, devfileUrls, dockerfiles, ports, draws, parse);
    var first := DevfilePass(devfiles, build);
    DevfileBuildIsAtContext(src, devfileUrls, dockerfiles, ports, draws, parse);
    DevfilePassContexts(devfiles, build);
    if first.error.None? {
      var dockerBuild := DockerfileBuild(src, draws);
      var rest := DockerfilePass(dockerOrder, dockerfiles, dockerBuild, |devfiles|);
      DockerfileBuildIsAtContext(src, draws);
      DockerfilePassContexts(dockerOrder, dockerfiles, dockerBuild, |devfiles|);
      WrittenContextsConcat(first.written, rest);
      VisitOrderIsDistinct(devfiles, dockerfiles, dockerOrder);
    }
  }

  /** With well-formed random draws, every key written is the entry's own
      component name and meets the name rules. */
  lemma WrittenKeysAreSanitizedNames(src: QuerySource, devfiles: seq<(string, DevfileOutcome)>,
                                     devfileUrls: map<string, string>, dockerfiles: map<string, string>,
                                     ports: map<string, seq<int>>, dockerOrder: seq<string>,
                                     draws: nat -> NameDraw, parse: string -> Option<Quantity>)
    requires DockerOrderMatches(devfiles, dockerfiles, dockerOrder)
    requires forall n: nat :: ValidDraw(draws(n))
    ensures WellNamed(Synthesize(src, devfiles, devfileUrls, dockerfiles, ports, dockerOrder, draws, parse).written)
  {
    DevfileBuildNamesValidly(src, devfileUrls, dockerfiles, ports, draws, parse);
    DockerfileBuildNamesValidly(src, draws);
    PassesWellNamed(devfiles, DevfileBuild(src, devfileUrls, dockerfiles, ports, draws, parse),
                    dockerOrder, dockerfiles, DockerfileBuild(src, draws));
  }

  /** The two passes together write only well-named entries when both
      builders name validly. */
  lemma PassesWellNamed(devfiles: seq<(string, DevfileOutcome)>, build: DevfileBuilder,
                        order: seq<string>, dockerfiles: map<string, string>, dockerBuild: DockerfileBuilder)
    requires forall c :: c in order ==> c in dockerfiles
    requires DevfileBuildNamesValid(build) && DockerfileBuildNamesValid(dockerBuild)
    ensures var first := DevfilePass(devfiles, build);
      && WellNamed(first.written)
      && WellNamed(first.written + DockerfilePass(order, dockerfiles, dockerBuild, |devfiles|))
  {
    var first := DevfilePass(devfiles, build);
    var rest := DockerfilePass(order, dockerfiles, dockerBuild, |devfiles|);
    DevfilePassWellNamed(devfiles, build);
    DockerfilePassWellNamed(order, dockerfiles, dockerBuild, |devfiles|);
    assert forall k :: 0 <= k < |first.written| ==> (first.written + rest)[k] == first.written[k];
    assert forall k :: |first.written| <= k < |first.written| + |rest| ==>
      (first.written + rest)[k] == rest[k - |first.written|];
  }

  /** Every entry is written under its stub's name, and that name meets the
      naming rules. */
  ghost predicate WellNamed(written: seq<Entry>) {
    forall k :: 0 <= k < |written| ==>
      written[k].0 == written[k].1.componentStub.componentName && MeetsNameRules(written[k].0)
  }

  ghost predicate DevfileBuildNamesValid(build: DevfileBuilder) {
    forall n: nat, context: string, outcome: DevfileOutcome :: build(n, context, outcome).Ok? ==>
      MeetsNameRules(build(n, context, outcome).value.componentStub.componentName)
  }

  ghost predicate DockerfileBuildNamesValid(build: DockerfileBuilder) {
    forall n: nat, context: string, link: string :: MeetsNameRules(build(n, context, link).componentStub.componentName)
  }

  lemma DevfileBuildNamesValidly(src: QuerySource, devfileUrls: map<string, string>, dockerfiles: map<string, string>,
                                 ports: map<string, seq<int>>, draws: nat -> NameDraw, parse: string -> Option<Quantity>)
    requires forall n: nat :: ValidDraw(draws(n))
    ensures DevfileBuildNamesValid(DevfileBuild(src, devfileUrls, dockerfiles, ports, draws, parse))
  {
    forall n: nat, context: string, outcome: DevfileOutcome
      | DevfileBuild(src, devfileUrls, dockerfiles, ports, draws, parse)(n, context, outcome).Ok?
      ensures MeetsNameRules(DevfileBuild(src, devfileUrls, dockerfiles, ports, draws, parse)(n, context, outcome).value.componentStub.componentName)
    {
      DevfileBuildNamesEntries(src, devfileUrls, dockerfiles, ports, draws, parse, n, context, outcome);
      GetComponentNameMeetsRules(GitSource(src.url, src.revision, context,
                                           GetOrEmpty(devfileUrls, context), GetOrEmpty(dockerfiles, context)), draws(n));
    }
  }

  lemma DockerfileBuildNamesValidly(src: QuerySource, draws: nat -> NameDraw)
    requires forall n: nat :: ValidDraw(draws(n))
    ensures DockerfileBuildNamesValid(DockerfileBuild(src, draws))
  {
    forall n: nat, context: string, link: string
      ensures MeetsNameRules(DockerfileBuild(src, draws)(n, context, link).componentStub.componentName)
    {
      DockerfileBuildEntries(src, draws, n, context, link);
      GetComponentNameMeetsRules(GitSource(src.url, src.revision, context, "", link), draws(n));
    }
  }

  lemma DevfilePassWellNamed(devfiles: seq<(string, DevfileOutcome)>, build: DevfileBuilder)
    requires DevfileBuildNamesValid(build)
    ensures WellNamed(DevfilePass(devfiles, build).written)
  {
    var p := DevfilePass(devfiles, build);
    DevfilePassIsEntryByEntry(devfiles, build);
    forall k | 0 <= k < |p.written| ensures MeetsNameRules(p.written[k].0) {
      assert build(k, devfiles[k].0, devfiles[k].1) == Ok(p.written[k].1);
    }
  }

  lemma DockerfilePassWellNamed(order: seq<string>, dockerfiles: map<string, string>, build: DockerfileBuilder, offset: nat)
    requires forall c :: c in order ==> c in dockerfiles
    requires DockerfileBuildNamesValid(build)
    ensures WellNamed(DockerfilePass(order, dockerfiles, build, offset))
  {
    DockerfilePassEntries(order, dockerfiles, build, offset);
  }

  /** Later writes win in the detection map; a key nobody wrote keeps its value. */
  lemma {:induction false} RecordLookup(detected: map<string, ComponentDetectionDescription>, written: seq<Entry>, name: string)
    ensures name in Record(detected, written) <==> name in detected || exists k :: 0 <= k < |written| && written[k].0 == name
    ensures (forall k :: 0 <= k < |written| ==> written[k].0 != name) && name in detected ==>
      Record(detected, written)[name] == detected[name]
    ensures forall k :: 0 <= k < |written| && written[k].0 == name && (forall l :: k < l < |written| ==> written[l].0 != name) ==>
      Record(detected, written)[name] == written[k].1
    decreases |written|
  {
    if written != [] {
      var n := |written| - 1;
      var prev := written[..n];
      RecordLookup(detected, prev, name);
      assert forall k :: 0 <= k < n ==> prev[k] == written[k];
      assert Record(detected, written) == Record(detected, prev)[written[n].0 := written[n].1];
      if written[n].0 == name {
        assert Record(detected, written)[name] == written[n].1;
      } else {
        assert name in Record(detected, written) <==> name in Record(detected, prev);
        assert name in Record(detected, prev) ==> Record(detected, written)[name] == Record(detected, prev)[name];
      }
    }
  }

  // ---------------------------------------------------------------------
  // The imperative synthesiser

  /** The query object; the synthesiser writes into its detection map. */
  class ComponentDetectionQuery {
    const source: QuerySource
    var componentDetected: map<string, ComponentDetectionDescription>

    constructor (source: QuerySource, detected: map<string, ComponentDetectionDescription>)
      ensures this.source == source && componentDetected == detected
    {
      this.source := source;
      componentDetected := detected;
    }
  }

  /** The caller's context-to-Dockerfile map, which the synthesiser deletes from. */
  class DockerfileContextMap {
    var contexts: map<string, string>

    constructor (contexts: map<string, string>)
      ensures this.contexts == contexts
    {
      this.contexts := contexts;
    }
  }

  /** The reads of the first Kubernetes component's attributes, in the
      source's order, each aborting on an error other than a missing key. */
  method FillFromKubernetesComponent(stub: ComponentSpec, attrs: map<AttrKey, AttrValue>,
                                     parse: string -> Option<Quantity>) returns (r: Result<ComponentSpec>)
    ensures r == ApplyKubernetesAttributes(stub, attrs, parse)
  {
    var filled := stub;
    var env := GetEnv(attrs, ContainerEnvKey);
    if env.Failed? {
      return Err(AttributeUnreadable(ContainerEnvKey));
    }
    if env.Found? {
      filled := filled.(env := env.value);
    }
    if filled.targetPort == 0 {
      var port := GetNumber(attrs, ContainerPortKey);
      filled := filled.(targetPort := if port.Found? then TruncateToInt(port.value) else 0);
      if port.Failed? {
        return Err(AttributeUnreadable(ContainerPortKey));
      }
    }
    var route := GetString(attrs, RouteKey);
    filled := filled.(route := if route.Found? then route.value else "");
    if route.Failed? {
      return Err(AttributeUnreadable(RouteKey));
    }
    var replicas := GetNumber(attrs, ReplicaKey);
    filled := filled.(replicas := if replicas.Found? then TruncateToInt(replicas.value) else 0);
    if replicas.Failed? {
      return Err(AttributeUnreadable(ReplicaKey));
    }
    var limits := ReadResources(filled.limits, attrs, CpuLimitKey, MemoryLimitKey, StorageLimitKey, parse);
    if limits.Err? {
      return Err(limits.error);
    }
    filled := filled.(limits := limits.value);
    var requests := ReadResources(filled.requests, attrs, CpuRequestKey, MemoryRequestKey, StorageRequestKey, parse);
    if requests.Err? {
      return Err(requests.error);
    }
    filled := filled.(requests := requests.value);
    return Ok(filled);
  }

  /** The body of the devfile loop up to the write: the n-th context's entry. */
  method BuildDevfileEntry(src: QuerySource, context: string, outcome: DevfileOutcome, dockerfileLink: string,
                           devfileUrls: map<string, string>, ghost dockerfiles: map<string, string>,
                           ports: map<string, seq<int>>, draws: nat -> NameDraw, parse: string -> Option<Quantity>, n: nat,
                           ghost build: DevfileBuilder)
    returns (r: Result<ComponentDetectionDescription>)
    requires dockerfileLink == GetOrEmpty(dockerfiles, context)
    requires build == DevfileBuild(src, devfileUrls, dockerfiles, ports, draws, parse)
    ensures r == build(n, context, outcome)
  {
    DevfileBuildApplies(src, devfileUrls, dockerfiles, ports, draws, parse, n, context, outcome);
    var gitSource := GitSource(src.url, src.revision, context, GetOrEmpty(devfileUrls, context), dockerfileLink);
    if outcome.ParseFailed? {
      return Err(DevfileUnparsable(context));
    }
    if outcome.ComponentsFailed? {
      return Err(ComponentsUnavailable(context));
    }
    var componentName := GetComponentName(gitSource, draws(n));
    var stub := NewStub(componentName, gitSource);
    if context in ports && |ports[context]| != 0 {
      stub := stub.(targetPort := ports[context][0]);
    }
    if |outcome.kubernetes| != 0 {
      var filled := FillFromKubernetesComponent(stub, outcome.kubernetes[0].attributes, parse);
      if filled.Err? {
        return Err(filled.error);
      }
      stub := filled.value;
    }
    return Ok(ComponentDetectionDescription(gitSource.devfileUrl != "", outcome.metadata.language, outcome.metadata.projectType, stub));
  }

  /** The devfile loop: each context's entry is written under its name and
      the context deleted from the dockerfile map, until an entry fails. */
  method WriteDevfileEntries(query: ComponentDetectionQuery, devfiles: seq<(string, DevfileOutcome)>,
                             devfileUrls: map<string, string>, dockerfileMap: DockerfileContextMap,
                             ports: map<string, seq<int>>, draws: nat -> NameDraw,
                             parse: string -> Option<Quantity>) returns (err: Option<Error>)
    requires Distinct(Contexts(devfiles))
    modifies query, dockerfileMap
    ensures var p := DevfilePass(devfiles, DevfileBuild(query.source, devfileUrls, old(dockerfileMap.contexts), ports, draws, parse));
      && err == p.error
      && (err.None? ==> p.processed == Contexts(devfiles))
      && query.componentDetected == Record(old(query.componentDetected), p.written)
      && dockerfileMap.contexts == old(dockerfileMap.contexts) - ContextSet(p.processed)
  {
    ghost var detected0 := query.componentDetected;
    ghost var dockerfiles0 := dockerfileMap.contexts;
    ghost var build := DevfileBuild(query.source, devfileUrls, dockerfiles0, ports, draws, parse);
    var i := 0;
    while i < |devfiles|
      invariant 0 <= i <= |devfiles|
      invariant DevfilePass(devfiles[..i], build).error.None?
      invariant DevfilePass(devfiles[..i], build).processed == Contexts(devfiles[..i])
      invariant query.componentDetected == Record(detected0, DevfilePass(devfiles[..i], build).written)
      invariant dockerfileMap.contexts == dockerfiles0 - ContextSet(DevfilePass(devfiles[..i], build).processed)
    {
      var context := devfiles[i].0;
      var dockerfileLink := GetOrEmpty(dockerfileMap.contexts, context);
      DevfileLoopVisitsNewContext(devfiles, build, i, dockerfiles0);
      var entry := BuildDevfileEntry(query.source, context, devfiles[i].1, dockerfileLink, devfileUrls, dockerfiles0, ports, draws, parse, i, build);
      if entry.Err? {
        DevfileLoopStops(devfiles, build, i);
        return Some(entry.error);
      }
      DevfileLoopAdvances(devfiles, build, i, detected0, dockerfiles0);
      var componentName := entry.value.componentStub.componentName;
      query.componentDetected := query.componentDetected[componentName := entry.value];
      dockerfileMap.contexts := dockerfileMap.contexts - {context};
      i := i + 1;
    }
    assert devfiles[..i] == devfiles;
    return None;
  }

  /** The dockerfile loop over the contexts left in the map, in `order`;
      `links` is the map as the loop reads it. */
  method WriteDockerfileEntries(query: ComponentDetectionQuery, order: seq<string>, dockerfileMap: DockerfileContextMap,
                                ghost links: map<string, string>, offset: nat, draws: nat -> NameDraw)
    requires forall c :: c in order ==> c in links && c in dockerfileMap.contexts && dockerfileMap.contexts[c] == links[c]
    modifies query
    ensures query.componentDetected == Record(old(query.componentDetected), DockerfilePass(order, links, DockerfileBuild(query.source, draws), offset))
  {
    ghost var detected0 := query.componentDetected;
    ghost var build := DockerfileBuild(query.source, draws);
    var j := 0;
    while j < |order|
      invariant 0 <= j <= |order|
      invariant query.componentDetected == Record(detected0, DockerfilePass(order[..j], links, build, offset))
    {
      var context := order[j];
      var link := dockerfileMap.contexts[context];
      var gitSource := DockerfileGitSource(query.source, context, link);
      var componentName := GetComponentName(gitSource, draws(offset + j));
      var entry := DockerfileEntry(gitSource, componentName);
      DockerfileBuildApplies(query.source, draws, offset + j, context, link);
      query.componentDetected := query.componentDetected[componentName := entry];
      DockerfilePassStep(order, links, build, offset, j);
      RecordAppend(detected0, DockerfilePass(order[..j], links, build, offset), (componentName, entry));
      j := j + 1;
    }
    assert order[..j] == order;
  }

  /** The devfile loop's next context has not been processed yet, so the
      dockerfile map still holds its original link. */
  lemma DevfileLoopVisitsNewContext(devfiles: seq<(string, DevfileOutcome)>, build: DevfileBuilder, i: nat,
                                    dockerfiles: map<string, string>)
    requires i < |devfiles| && Distinct(Contexts(devfiles))
    requires DevfilePass(devfiles[..i], build).processed == Contexts(devfiles[..i])
    ensures var rest := dockerfiles - ContextSet(DevfilePass(devfiles[..i], build).processed);
      GetOrEmpty(rest, devfiles[i].0) == GetOrEmpty(dockerfiles, devfiles[i].0)
  {
    var prev := DevfilePass(devfiles[..i], build);
    assert devfiles[i].0 !in ContextSet(prev.processed) by {
      assert forall k :: 0 <= k < i ==> Contexts(devfiles)[k] != Contexts(devfiles)[i];
    }
  }

  /** A failing entry ends the devfile loop with the state it had. */
  lemma DevfileLoopStops(devfiles: seq<(string, DevfileOutcome)>, build: DevfileBuilder, i: nat)
    requires i < |devfiles|
    requires DevfilePass(devfiles[..i], build).error.None?
    requires build(i, devfiles[i].0, devfiles[i].1).Err?
    ensures var prev := DevfilePass(devfiles[..i], build);
      DevfilePass(devfiles, build) == prev.(error := Some(build(i, devfiles[i].0, devfiles[i].1).error))
  {
    DevfilePassStep(devfiles, build, i);
    DevfilePassStopsAtError(devfiles, build, i + 1);
  }

  /** A successful entry is written, and its context leaves the dockerfile map. */
  lemma DevfileLoopAdvances(devfiles: seq<(string, DevfileOutcome)>, build: DevfileBuilder, i: nat,
                            detected: map<string, ComponentDetectionDescription>, dockerfiles: map<string, string>)
    requires i < |devfiles|
    requires DevfilePass(devfiles[..i], build).error.None?
    requires DevfilePass(devfiles[..i], build).processed == Contexts(devfiles[..i])
    requires build(i, devfiles[i].0, devfiles[i].1).Ok?
    ensures var prev := DevfilePass(devfiles[..i], build);
      var next := DevfilePass(devfiles[..i + 1], build);
      var d := build(i, devfiles[i].0, devfiles[i].1).value;
      && next.error.None?
      && next.processed == Contexts(devfiles[..i + 1])
      && Record(detected, next.written) == Record(detected, prev.written)[d.componentStub.componentName := d]
      && dockerfiles - ContextSet(next.processed) == (dockerfiles - ContextSet(prev.processed)) - {devfiles[i].0}
  {
    var prev := DevfilePass(devfiles[..i], build);
    var next := DevfilePass(devfiles[..i + 1], build);
    var d := build(i, devfiles[i].0, devfiles[i].1).value;
    DevfilePassStep(devfiles, build, i);
    assert next.written == prev.written + [(d.componentStub.componentName, d)];
    assert next.processed == prev.processed + [devfiles[i].0];
    RecordAppend(detected, prev.written, (d.componentStub.componentName, d));
    ContextsAppend(devfiles, i);
    RemoveOneMoreContext(dockerfiles, prev.processed, devfiles[i].0);
  }

  /** The contexts of one more devfile. */
  lemma ContextsAppend(devfiles: seq<(string, DevfileOutcome)>, i: nat)
    requires i < |devfiles|
    ensures Contexts(devfiles[..i + 1]) == Contexts(devfiles[..i]) + [devfiles[i].0]
  {
    assert Contexts(devfiles[..i + 1])[i] == devfiles[i].0;
  }

  /** Deleting one more processed context from the dockerfile map. */
  lemma RemoveOneMoreContext(dockerfiles: map<string, string>, processed: seq<string>, c: string)
    ensures dockerfiles - ContextSet(processed + [c]) == (dockerfiles - ContextSet(processed)) - {c}
  {
    assert ContextSet(processed + [c]) == ContextSet(processed) + {c};
  }

  /** One more context of the devfile loop. */
  lemma DevfilePassStep(devfiles: seq<(string, DevfileOutcome)>, build: DevfileBuilder, i: nat)
    requires i < |devfiles|
    requires DevfilePass(devfiles[..i], build).error.None?
    ensures var prev := DevfilePass(devfiles[..i], build);
      DevfilePass(devfiles[..i + 1], build) ==
        match build(i, devfiles[i].0, devfiles[i].1)
        case Err(e) => prev.(error := Some(e))
        case Ok(d) => Pass(prev.written + [(d.componentStub.componentName, d)], prev.processed + [devfiles[i].0], None)
  {
    assert devfiles[..i + 1][..i] == devfiles[..i];
  }

  /** One more context of the dockerfile loop. */
  lemma DockerfilePassStep(order: seq<string>, links: map<string, string>, build: DockerfileBuilder, offset: nat, j: nat)
    requires j < |order|
    requires forall c :: c in order ==> c in links
    ensures var d := build(offset + j, order[j], links[order[j]]);
      DockerfilePass(order[..j + 1], links, build, offset) == DockerfilePass(order[..j], links, build, offset) + [(d.componentStub.componentName, d)]
  {
    assert order[..j + 1][..j] == order[..j];
  }

  /** One more write. */
  lemma RecordAppend(detected: map<string, ComponentDetectionDescription>, written: seq<Entry>, e: Entry)
    ensures Record(detected, written + [e]) == Record(detected, written)[e.0 := e.1]
  {
    assert (written + [e])[..|written|] == written;
  }

  /** Applying the dockerfile loop's builder. */
  lemma DockerfileBuildApplies(src: QuerySource, draws: nat -> NameDraw, n: nat, context: string, link: string)
    ensures var gitSource := DockerfileGitSource(src, context, link);
      DockerfileBuild(src, draws)(n, context, link) == DockerfileEntry(gitSource, GetComponentName(gitSource, draws(n)))
  {
  }

  /** Writing two runs of entries is writing their concatenation. */
  lemma {:induction false} RecordConcat(detected: map<string, ComponentDetectionDescription>, a: seq<Entry>, b: seq<Entry>)
    ensures Record(detected, a + b) == Record(Record(detected, a), b)
    decreases |b|
  {
    if b == [] {
      assert a + b == a;
    } else {
      var n := |b| - 1;
      assert (a + b)[..|a + b| - 1] == a + b[..n];
      RecordConcat(detected, a, b[..n]);
    }
  }

  /** updateComponentStub. The devfile contexts are visited in the order of
      `devfiles`, the remaining dockerfile contexts in `dockerOrder`; the
      n-th context visited is named with draws(n). */
  method UpdateComponentStub(query: ComponentDetectionQuery?, devfiles: seq<(string, DevfileOutcome)>,
                             devfileUrls: map<string, string>, dockerfileMap: DockerfileContextMap,
                             ports: map<string, seq<int>>, dockerOrder: seq<string>,
                             draws: nat -> NameDraw, parse: string -> Option<Quantity>) returns (err: Option<Error>)
    requires Distinct(Contexts(devfiles))
    requires DockerOrderMatches(devfiles, dockerfileMap.contexts, dockerOrder)
    modifies query, dockerfileMap
    ensures query == null ==> err == Some(QueryIsNil) && dockerfileMap.contexts == old(dockerfileMap.contexts)
    ensures query != null ==>
      var p := Synthesize(query.source, devfiles, devfileUrls, old(dockerfileMap.contexts), ports, dockerOrder, draws, parse);
      && err == p.error
      && query.componentDetected == Record(old(query.componentDetected), p.written)
      && dockerfileMap.contexts == old(dockerfileMap.contexts) - ContextSet(p.processed)
  {
    if query == null {
      return Some(QueryIsNil);
    }
    ghost var dockerfiles0 := dockerfileMap.contexts;
    ghost var detected0 := query.componentDetected;
    err := WriteDevfileEntries(query, devfiles, devfileUrls, dockerfileMap, ports, draws, parse);
    if err.Some? {
      return;
    }
    ghost var first := DevfilePass(devfiles, DevfileBuild(query.source, devfileUrls, dockerfiles0, ports, draws, parse));
    assert forall c :: c in dockerOrder ==> c !in ContextSet(first.processed);
    ghost var detected1 := query.componentDetected;
    WriteDockerfileEntries(query, dockerOrder, dockerfileMap, dockerfiles0, |devfiles|, draws);
    RecordConcat(detected0, first.written, DockerfilePass(dockerOrder, dockerfiles0, DockerfileBuild(query.source, draws), |devfiles|));
  }
}
