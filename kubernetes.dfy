/**
 * kubernetes/mod.rs: the per-node derivations and the node counters of
 * `kuboard_calculate_cluster_metrics`, and the field mapping of
 * `kuboard_fetch_pod_events`. The API list calls are replaced by their
 * results, passed in as values.
 */
module Kubernetes {
  import opened Outcome
  import opened RustStr
  import opened Types
  import Utils

  // ---------------------------------------------------------------------------
  // The parts of a listed `Node` the derivations read
  // ---------------------------------------------------------------------------

  datatype NodeCondition = NodeCondition(conditionType: string, status: string)

  datatype Taint = Taint(key: string, value: Option<string>, effect: string)

  datatype NodeSystemInfo = NodeSystemInfo(
    operatingSystem: string,
    architecture: string,
    kernelVersion: string,
    kubeletVersion: string,
    containerRuntimeVersion: string)

  /** Quantities are the raw strings of `status.capacity` and `status.allocatable`. */
  datatype NodeStatus = NodeStatus(
    conditions: Option<seq<NodeCondition>>,
    capacity: Option<map<string, string>>,
    allocatable: Option<map<string, string>>,
    nodeInfo: Option<NodeSystemInfo>)

  /** `taints` is `spec.taints`, absent when either the spec or its taint list is. */
  datatype Node = Node(
    name: Option<string>,
    labels: Option<map<string, string>>,
    annotations: Option<map<string, string>>,
    taints: Option<seq<Taint>>,
    status: Option<NodeStatus>)

  // ---------------------------------------------------------------------------
  // Readiness
  // ---------------------------------------------------------------------------

  /** `conditions.iter().any(|c| c.type_ == "Ready" && c.status == "True")` */
  function HasReadyCondition(conditions: seq<NodeCondition>): (b: bool)
    ensures b <==> exists j :: 0 <= j < |conditions| && conditions[j] == NodeCondition("Ready", "True")
  {
    if conditions == [] then false
    else conditions[0] == NodeCondition("Ready", "True") || HasReadyCondition(conditions[1..])
  }

  /** A node without a status or without conditions is not ready. */
  predicate IsReady(node: Node)
    ensures IsReady(node) ==> node.status.Some? && node.status.value.conditions.Some?
    ensures IsReady(node) ==> |node.status.value.conditions.value| > 0
  {
    node.status.Some? && node.status.value.conditions.Some?
    && HasReadyCondition(node.status.value.conditions.value)
  }

  /** The node's conditions, or none when it reports none. */
  function Conditions(node: Node): seq<NodeCondition> {
    if node.status.Some? && node.status.value.conditions.Some? then node.status.value.conditions.value else []
  }

  /** Ready exactly when some reported condition is Ready/True. */
  lemma ReadyIffReadyCondition(node: Node)
    ensures IsReady(node) <==> exists j :: 0 <= j < |Conditions(node)| && Conditions(node)[j] == NodeCondition("Ready", "True")
  {
    var conditions := Conditions(node);
    assert IsReady(node) == HasReadyCondition(conditions);
  }

  // ---------------------------------------------------------------------------
  // Rendered strings
  // ---------------------------------------------------------------------------

  /** `format!("{}: {}", type_, status)` */
  function ConditionText(c: NodeCondition): string {
    c.conditionType + ": " + c.status
  }

  /** `format!("{}={}:{}", key, value or "", effect)` */
  function TaintText(t: Taint): string {
    t.key + "=" + t.value.UnwrapOr("") + ":" + t.effect
  }

  /** A taint without a value renders with nothing between '=' and ':'. */
  lemma TaintTextParts(t: Taint)
    ensures TaintText(t)[..|t.key| + 1] == t.key + "="
    ensures t.value.None? ==> TaintText(t) == t.key + "=:" + t.effect
    ensures t.value.Some? ==> TaintText(t) == t.key + "=" + t.value.value + ":" + t.effect
    ensures EndsWith(TaintText(t), ":" + t.effect)
  {
    var s := TaintText(t);
    assert s == (t.key + "=") + (t.value.UnwrapOr("") + ":" + t.effect);
    assert s == (t.key + "=" + t.value.UnwrapOr("")) + (":" + t.effect);
    EndsWithAppend(t.key + "=" + t.value.UnwrapOr(""), ":" + t.effect);
  }

  /** The taints, one string each and in order; none when the node has no taint list. */
  function TaintLines(node: Node): (r: seq<string>)
    ensures node.taints.None? ==> r == []
    ensures node.taints.Some? ==> (|r| == |node.taints.value|
      && forall i :: 0 <= i < |r| ==> r[i] == TaintText(node.taints.value[i]))
  {
    if node.taints.None? then []
    else seq(|node.taints.value|, i requires 0 <= i < |node.taints.value| => TaintText(node.taints.value[i]))
  }

  /** The conditions rendered as "type: status", in their original order. */
  function ConditionLines(conditions: seq<NodeCondition>): (r: seq<string>)
    ensures |r| == |conditions|
  {
    seq(|conditions|, i requires 0 <= i < |conditions| => ConditionText(conditions[i]))
  }

  /** The loop that pushes one "type: status" line per condition. */
  method RenderConditions(node: Node) returns (lines: seq<string>)
    ensures |lines| == |Conditions(node)|
    ensures forall i :: 0 <= i < |lines| ==> lines[i] == ConditionText(Conditions(node)[i])
    ensures lines == ConditionLines(Conditions(node))
  {
    lines := [];
    if node.status.Some? && node.status.value.conditions.Some? {
      var conditions := node.status.value.conditions.value;
      for i := 0 to |conditions|
        invariant |lines| == i
        invariant forall k :: 0 <= k < i ==> lines[k] == ConditionText(conditions[k])
      {
        lines := lines + [ConditionText(conditions[i])];
      }
    }
  }

  // ---------------------------------------------------------------------------
  // Capacity and allocatable figures
  // ---------------------------------------------------------------------------

  /** The raw quantity under `key` in a resource map, if the map and the key are present. */
  function Quantity(resources: Option<map<string, string>>, key: string): Option<string> {
    if resources.Some? && key in resources.value then Some(resources.value[key]) else None
  }

  /** A CPU figure: the parsed quantity, or zero cores when it is missing or does not parse. */
  function CoresOrZero(q: Option<string>): (r: Fraction)
    ensures r.denominator in {1, 1000}
    ensures q.Some? && Utils.ParseCpuString(q.value).Ok? ==> r == Utils.ParseCpuString(q.value).value
    ensures q.None? || Utils.ParseCpuString(q.value).Err? ==> r == Fraction(0, 1)
  {
    if q.Some? then
      match Utils.ParseCpuString(q.value)
      case Ok(cores) => cores
      case Err(_) => Fraction(0, 1)
    else Fraction(0, 1)
  }

  /** A memory figure: the parsed bytes, or zero when missing or unparsable. */
  function BytesOrZero(q: Option<string>): (r: nat)
    ensures q.Some? && Utils.ParseMemoryString(q.value).Ok? ==> r == Utils.ParseMemoryString(q.value).value
    ensures q.None? || Utils.ParseMemoryString(q.value).Err? ==> r == 0
  {
    if q.Some? then
      match Utils.ParseMemoryString(q.value)
      case Ok(bytes) => bytes
      case Err(_) => 0
    else 0
  }

  /** A disk figure: the parsed bytes, or None when missing or unparsable. */
  function BytesOrNone(q: Option<string>): (r: Option<nat>)
    ensures r.Some? <==> q.Some? && Utils.ParseMemoryString(q.value).Ok?
    ensures r.Some? ==> r.value == Utils.ParseMemoryString(q.value).value
  {
    if q.Some? then
      match Utils.ParseMemoryString(q.value)
      case Ok(bytes) => Some(bytes)
      case Err(_) => None
    else None
  }

  function Capacity(node: Node): Option<map<string, string>> {
    if node.status.Some? then node.status.value.capacity else None
  }

  function Allocatable(node: Node): Option<map<string, string>> {
    if node.status.Some? then node.status.value.allocatable else None
  }

  function Info(node: Node): Option<NodeSystemInfo> {
    if node.status.Some? then node.status.value.nodeInfo else None
  }

  /** The record one loop iteration of `kuboard_calculate_cluster_metrics` pushes for a node. */
  function Details(node: Node): NodeDetails {
    DetailsWith(node, ConditionLines(Conditions(node)))
  }

  /** The record of one node, given the condition lines rendered for it. */
  function DetailsWith(node: Node, conditions: seq<string>): NodeDetails {
    var info := Info(node);
    NodeDetails(
      name := node.name.UnwrapOr("Unknown"),
      status := if IsReady(node) then "Ready" else "Not Ready",
      maxCpuCores := CoresOrZero(Quantity(Capacity(node), "cpu")),
      maxMemoryBytes := BytesOrZero(Quantity(Capacity(node), "memory")),
      allocatableCpuCores := CoresOrZero(Quantity(Allocatable(node), "cpu")),
      allocatableMemoryBytes := BytesOrZero(Quantity(Allocatable(node), "memory")),
      conditions := conditions,
      os := if info.Some? then Some(info.value.operatingSystem + " " + info.value.architecture) else None,
      kernelVersion := if info.Some? then Some(info.value.kernelVersion) else None,
      kubeletVersion := if info.Some? then Some(info.value.kubeletVersion) else None,
      containerRuntime := if info.Some? then Some(info.value.containerRuntimeVersion) else None,
      diskCapacity := BytesOrNone(Quantity(Capacity(node), "ephemeral-storage")),
      diskAllocatable := BytesOrNone(Quantity(Allocatable(node), "ephemeral-storage")),
      labels := node.labels.UnwrapOr(map[]),
      annotations := node.annotations.UnwrapOr(map[]),
      taints := TaintLines(node))
  }

  /** The status string says "Ready" exactly for ready nodes, "Not Ready" otherwise; a nameless node is "Unknown". */
  lemma DetailsStatus(node: Node)
    ensures Details(node).status == "Ready" <==> IsReady(node)
    ensures Details(node).status == "Not Ready" <==> !IsReady(node)
    ensures node.name.None? ==> Details(node).name == "Unknown"
    ensures node.name.Some? ==> Details(node).name == node.name.value
  {
  }

  /** Without a status every capacity and allocatable figure keeps its default. */
  lemma DetailsDefaults(node: Node)
    requires node.status.None?
    ensures Details(node).maxCpuCores == Fraction(0, 1) && Details(node).allocatableCpuCores == Fraction(0, 1)
    ensures Details(node).maxMemoryBytes == 0 && Details(node).allocatableMemoryBytes == 0
    ensures Details(node).diskCapacity.None? && Details(node).diskAllocatable.None?
    ensures Details(node).conditions == [] && Details(node).os.None?
  {
  }

  /** A capacity memory figure that does not parse (a decimal "G", say) is reported as 0 bytes. */
  lemma DetailsUnparsableMemory(node: Node)
    requires node.status.Some? && node.status.value.capacity.Some?
    requires "memory" in node.status.value.capacity.value
    requires Utils.ParseMemoryString(node.status.value.capacity.value["memory"]).Err?
    ensures Details(node).maxMemoryBytes == 0
  {
  }

  /** A capacity memory figure that parses is reported as parsed. */
  lemma DetailsParsedMemory(node: Node)
    requires node.status.Some? && node.status.value.capacity.Some?
    requires "memory" in node.status.value.capacity.value
    requires Utils.ParseMemoryString(node.status.value.capacity.value["memory"]).Ok?
    ensures Details(node).maxMemoryBytes == Utils.ParseMemoryString(node.status.value.capacity.value["memory"]).value
  {
  }

  // ---------------------------------------------------------------------------
  // kuboard_calculate_cluster_metrics
  // ---------------------------------------------------------------------------

  /** The number of ready nodes. */
  function ReadyCount(nodes: seq<Node>): (r: nat)
    ensures r <= |nodes|
  {
    if nodes == [] then 0
    else ReadyCount(nodes[..|nodes| - 1]) + (if IsReady(nodes[|nodes| - 1]) then 1 else 0)
  }

  /** Every node is counted active exactly when every node is ready. */
  lemma {:induction false} ReadyCountAll(nodes: seq<Node>)
    ensures ReadyCount(nodes) == |nodes| <==> forall i :: 0 <= i < |nodes| ==> IsReady(nodes[i])
  {
    if nodes != [] {
      var init := nodes[..|nodes| - 1];
      ReadyCountAll(init);
      assert forall i :: 0 <= i < |init| ==> init[i] == nodes[i];
    }
  }

  /** No node is counted active exactly when no node is ready. */
  lemma {:induction false} ReadyCountNone(nodes: seq<Node>)
    ensures ReadyCount(nodes) == 0 <==> forall i :: 0 <= i < |nodes| ==> !IsReady(nodes[i])
  {
    if nodes != [] {
      var init := nodes[..|nodes| - 1];
      ReadyCountNone(init);
      assert forall i :: 0 <= i < |init| ==> init[i] == nodes[i];
    }
  }

  /** One iteration's work: the readiness check and the record pushed for the node. */
  method NodeRecord(node: Node) returns (details: NodeDetails, isReady: bool)
    ensures isReady == IsReady(node)
    ensures details == Details(node)
  {
    isReady := IsReady(node);
    var conditions := RenderConditions(node);
    details := DetailsWith(node, conditions);
  }

  /** `f` applied to each element of `xs`, in order; the list grows by one pushed element per step. */
  function Mapped<A, B>(f: A -> B, xs: seq<A>): (r: seq<B>)
    ensures |r| == |xs|
  {
    if xs == [] then [] else Mapped(f, xs[..|xs| - 1]) + [f(xs[|xs| - 1])]
  }

  /** The element at position i of a mapped list is the image of the element at position i. */
  lemma {:induction false} MappedAt<A, B>(f: A -> B, xs: seq<A>, i: nat)
    requires i < |xs|
    ensures Mapped(f, xs)[i] == f(xs[i])
  {
    var init := xs[..|xs| - 1];
    assert Mapped(f, xs) == Mapped(f, init) + [f(xs[|xs| - 1])];
    if i < |init| {
      MappedAt(f, init, i);
      assert init[i] == xs[i];
      assert Mapped(f, xs)[i] == Mapped(f, init)[i];
    }
  }

  /** The records of the listed nodes, one per node and in list order. */
  function DetailsList(nodes: seq<Node>): (r: seq<NodeDetails>)
    ensures |r| == |nodes|
  {
    Mapped(Details, nodes)
  }

  /** The record at position i describes the node at position i. */
  lemma DetailsListAt(nodes: seq<Node>, i: nat)
    requires i < |nodes|
    ensures DetailsList(nodes)[i] == Details(nodes[i])
  {
    MappedAt(Details, nodes, i);
  }

  /**
   * `kuboard_calculate_cluster_metrics` over the listed nodes: one record per
   * node in list order, `max_nodes` the list length and `active_nodes` the
   * ready count. A failed listing is returned as the error.
   */
  method CalculateClusterMetrics(listed: Result<seq<Node>, string>) returns (r: Result<ClusterMetrics, string>)
    ensures listed.Err? ==> r == Err(listed.error)
    ensures listed.Ok? ==> r == Ok(ClusterMetrics(|listed.value|, ReadyCount(listed.value), DetailsList(listed.value)))
    ensures r.Ok? ==> r.value.activeNodes <= r.value.maxNodes
  {
    if listed.Err? {
      return Err(listed.error);
    }
    var nodes := listed.value;
    var activeNodes := 0;
    var nodeDetails: seq<NodeDetails> := [];
    for i := 0 to |nodes|
      invariant activeNodes == ReadyCount(nodes[..i])
      invariant nodeDetails == DetailsList(nodes[..i])
    {
      var node := nodes[i];
      assert nodes[..i + 1][..i] == nodes[..i];
      var details, isReady := NodeRecord(node);
      if isReady {
        activeNodes := activeNodes + 1;
      }
      nodeDetails := nodeDetails + [details];
    }
    assert nodes[..|nodes|] == nodes;
    return Ok(ClusterMetrics(|nodes|, activeNodes, nodeDetails));
  }

  // ---------------------------------------------------------------------------
  // kuboard_fetch_pod_events
  // ---------------------------------------------------------------------------

  datatype ObjectReference = ObjectReference(kind: Option<string>, name: Option<string>, namespace: Option<string>)

  /** A listed core/v1 `Event`; its timestamps are already in RFC 3339 text. */
  datatype Event = Event(
    eventType: Option<string>,
    reason: Option<string>,
    message: Option<string>,
    firstTimestamp: Option<string>,
    lastTimestamp: Option<string>,
    count: Option<int>,
    involvedObject: ObjectReference)

  datatype InvolvedObject = InvolvedObject(kind: string, name: string, namespace: Option<string>)

  datatype PodEvent = PodEvent(
    eventType: string,
    reason: string,
    message: string,
    firstTimestamp: Option<string>,
    lastTimestamp: Option<string>,
    count: Option<int>,
    involvedObject: Option<InvolvedObject>)

  /** The per-event mapping: missing strings become "", the involved object is always present. */
  function ToPodEvent(e: Event): (r: PodEvent)
    ensures r.involvedObject.Some?
    ensures e.eventType.Some? ==> r.eventType == e.eventType.value
    ensures e.eventType.None? ==> r.eventType == ""
    ensures e.reason.Some? ==> r.reason == e.reason.value
    ensures e.reason.None? ==> r.reason == ""
    ensures e.message.Some? ==> r.message == e.message.value
    ensures e.message.None? ==> r.message == ""
    ensures r.firstTimestamp == e.firstTimestamp && r.lastTimestamp == e.lastTimestamp && r.count == e.count
    ensures r.involvedObject.value.kind == e.involvedObject.kind.UnwrapOr("")
    ensures r.involvedObject.value.name == e.involvedObject.name.UnwrapOr("")
    ensures r.involvedObject.value.namespace == e.involvedObject.namespace
  {
    PodEvent(
      e.eventType.UnwrapOr(""),
      e.reason.UnwrapOr(""),
      e.message.UnwrapOr(""),
      e.firstTimestamp,
      e.lastTimestamp,
      e.count,
      Some(InvolvedObject(
        e.involvedObject.kind.UnwrapOr(""),
        e.involvedObject.name.UnwrapOr(""),
        e.involvedObject.namespace)))
  }

  /** `kuboard_fetch_pod_events` on the result of the event listing. */
  function FetchPodEvents(listed: Result<seq<Event>, string>): (r: Result<seq<PodEvent>, string>)
    ensures listed.Err? ==> r == Err(listed.error)
    ensures listed.Ok? ==> (r.Ok? && |r.value| == |listed.value|
      && forall i :: 0 <= i < |listed.value| ==> r.value[i] == ToPodEvent(listed.value[i]))
  {
    match listed
    case Err(e) => Err(e)
    case Ok(events) => Ok(seq(|events|, i requires 0 <= i < |events| => ToPodEvent(events[i])))
  }

  /** Every mapped event names an involved object. */
  lemma PodEventsHaveInvolvedObject(listed: Result<seq<Event>, string>)
    requires listed.Ok?
    ensures forall e :: e in FetchPodEvents(listed).value ==> e.involvedObject.Some?
  {
  }
}
