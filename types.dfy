/**
 * The plain records the commands exchange with the UI (types.rs), reduced to
 * the fields whose values the model computes.
 */
module Types {
  import opened Outcome
  import opened RustStr

  /** An authenticated cluster client: an opaque handle bound to one context. */
  datatype Client = Client(id: nat)

  /** One kubeconfig context as the UI lists it. */
  datatype KubeContext = KubeContext(
    name: string,
    cluster: string,
    user: string,
    namespace: Option<string>,
    isCurrent: bool)

  datatype ContextListResponse = ContextListResponse(
    contexts: seq<KubeContext>,
    currentContext: Option<string>)

  datatype ClusterInfo = ClusterInfo(name: string, server: string, version: Option<string>)

  /**
   * Per-node details. CPU amounts are exact fractions of a core. The usage
   * percentages, `metrics_available` and `metrics_error` are floating-point
   * derivations of mock usage figures and are not part of this record.
   */
  datatype NodeDetails = NodeDetails(
    name: string,
    status: string,
    maxCpuCores: Fraction,
    maxMemoryBytes: nat,
    allocatableCpuCores: Fraction,
    allocatableMemoryBytes: nat,
    conditions: seq<string>,
    os: Option<string>,
    kernelVersion: Option<string>,
    kubeletVersion: Option<string>,
    containerRuntime: Option<string>,
    diskCapacity: Option<nat>,
    diskAllocatable: Option<nat>,
    labels: map<string, string>,
    annotations: map<string, string>,
    taints: seq<string>)

  datatype ClusterMetrics = ClusterMetrics(maxNodes: nat, activeNodes: nat, nodes: seq<NodeDetails>)

  datatype ClusterOverview = ClusterOverview(
    clusterInfo: ClusterInfo,
    nodeCount: nat,
    namespaceCount: nat,
    podCount: nat,
    deploymentCount: nat,
    kubernetesVersion: Option<string>,
    clusterMetrics: Option<ClusterMetrics>)
}
