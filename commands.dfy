/**
 * commands/mod.rs: the context commands over the shared application state,
 * the active-client guard of the resource commands, the two capacity parsers
 * and the capacity totals of `kuboard_get_cluster_metrics`. Loading the
 * kubeconfig, creating a client and listing nodes are I/O; their outcomes are
 * passed in as values.
 */
module Commands {
  import opened Outcome
  import opened RustStr
  import opened Types
  import Utils
  import Metrics
  import Kubernetes

  // ---------------------------------------------------------------------------
  // The kubeconfig, as far as the commands read it
  // ---------------------------------------------------------------------------

  datatype ContextBody = ContextBody(cluster: string, user: Option<string>, namespace: Option<string>)

  /** One entry of the kubeconfig's `contexts` list; its body may be missing. */
  datatype NamedContext = NamedContext(name: string, context: Option<ContextBody>)

  datatype Kubeconfig = Kubeconfig(currentContext: Option<string>, contexts: seq<NamedContext>)

  const NOT_LOADED: string := "Kubeconfig not loaded. Call list_contexts first."
  const NO_ACTIVE_CONTEXT: string := "No active context. Please set a context first."

  /** The `KubeContext` listed for an entry with a body. */
  function ToKubeContext(name: string, body: ContextBody, current: Option<string>): (c: KubeContext)
    ensures c.name == name && c.cluster == body.cluster && c.namespace == body.namespace
    ensures body.user.None? ==> c.user == ""
    ensures c.isCurrent <==> current == Some(name)
  {
    KubeContext(name, body.cluster, body.user.UnwrapOr(""), body.namespace, current == Some(name))
  }

  /** The contexts `kuboard_list_contexts` reports: one per entry with a body, in kubeconfig order. */
  function Projected(entries: seq<NamedContext>, current: Option<string>): (r: seq<KubeContext>)
    ensures |r| <= |entries|
  {
    if entries == [] then []
    else
      var last := entries[|entries| - 1];
      Projected(entries[..|entries| - 1], current)
      + (if last.context.Some? then [ToKubeContext(last.name, last.context.value, current)] else [])
  }

  /** Projection distributes over concatenation, so kubeconfig order is kept. */
  lemma {:induction false} ProjectedAppend(a: seq<NamedContext>, b: seq<NamedContext>, current: Option<string>)
    ensures Projected(a + b, current) == Projected(a, current) + Projected(b, current)
    decreases |b|
  {
    if b != [] {
      var init := b[..|b| - 1];
      assert (a + b)[..|a + b| - 1] == a + init;
      ProjectedAppend(a, init, current);
    } else {
      assert a + b == a;
    }
  }

  /**
   * Every listed context comes from an entry with a body: same name, cluster
   * and namespace, the user or "" when none, and `is_current` exactly when its
   * name is the kubeconfig's current context.
   */
  lemma {:induction false} ProjectedSound(entries: seq<NamedContext>, current: Option<string>, k: KubeContext)
    requires k in Projected(entries, current)
    ensures exists j :: (0 <= j < |entries| && entries[j].context.Some? && entries[j].name == k.name
      && k.cluster == entries[j].context.value.cluster
      && k.namespace == entries[j].context.value.namespace
      && k.user == entries[j].context.value.user.UnwrapOr(""))
    ensures k.isCurrent <==> current == Some(k.name)
  {
    var init := entries[..|entries| - 1];
    var last := entries[|entries| - 1];
    if k in Projected(init, current) {
      ProjectedSound(init, current, k);
      var j :| 0 <= j < |init| && init[j].context.Some? && init[j].name == k.name
        && k.cluster == init[j].context.value.cluster
        && k.namespace == init[j].context.value.namespace
        && k.user == init[j].context.value.user.UnwrapOr("");
      assert entries[j] == init[j];
    } else {
      assert k == ToKubeContext(last.name, last.context.value, current);
      assert entries[|entries| - 1] == last;
    }
  }

  /** Every entry with a body is listed. */
  lemma {:induction false} ProjectedComplete(entries: seq<NamedContext>, current: Option<string>, j: nat)
    requires j < |entries| && entries[j].context.Some?
    ensures ToKubeContext(entries[j].name, entries[j].context.value, current) in Projected(entries, current)
  {
    var init := entries[..|entries| - 1];
    if j < |init| {
      assert init[j] == entries[j];
      ProjectedComplete(init, current, j);
    }
  }

  /** An entry without a body contributes nothing. */
  lemma ProjectedSkipsBodiless(entries: seq<NamedContext>, entry: NamedContext, current: Option<string>)
    requires entry.context.None?
    ensures Projected(entries + [entry], current) == Projected(entries, current)
  {
    assert (entries + [entry])[..|entries|] == entries;
  }

  /** `.iter().any(|c| c.name == context_name)`, over every entry whether or not it has a body. */
  function ContextExists(entries: seq<NamedContext>, name: string): (b: bool)
    ensures b <==> exists j :: 0 <= j < |entries| && entries[j].name == name
  {
    if entries == [] then false
    else entries[0].name == name || ContextExists(entries[1..], name)
  }

  // ---------------------------------------------------------------------------
  // The capacity parsers
  // ---------------------------------------------------------------------------

  /** `parse_cpu_capacity`: cores after trimming; a trailing `m` (every copy stripped) means millicores. */
  function ParseCpuCapacity(input: string): (r: Result<Fraction, Metrics.QuantityError>)
    ensures r.Ok? ==> r.value.denominator in {1, 1000}
    ensures r.Err? ==> r.error.input == Trim(input)
  {
    var s := Trim(input);
    if EndsWith(s, "m") then Metrics.CpuFraction(s, "m", "millicores", 1000)
    else
      match ParseF64(s)
      case Ok(cores) => Ok(Fraction(cores, 1))
      case Err(e) => Err(Metrics.CpuError("cores", s, e))
  }

  /** `parse_memory_capacity`: bytes after trimming; only Ki, Mi and Gi are recognised. */
  function ParseMemoryCapacity(input: string): (r: Result<nat, Metrics.QuantityError>)
    ensures r.Ok? ==> r.value < U64_LIMIT
    ensures r.Err? ==> r.error.input == Trim(input)
  {
    var s := Trim(input);
    if EndsWith(s, "Ki") then Metrics.MemoryScaled(s, "Ki", "KiB", 1024)
    else if EndsWith(s, "Mi") then Metrics.MemoryScaled(s, "Mi", "MiB", 1048576)
    else if EndsWith(s, "Gi") then Metrics.MemoryScaled(s, "Gi", "GiB", 1073741824)
    else
      match ParseU64(s)
      case Ok(bytes) => Ok(bytes)
      case Err(e) => Err(Metrics.MemoryError("bytes", s, IntErrorText(e)))
  }

  /** The capacity CPU parser is the metrics one without the n and u suffixes. */
  lemma CpuCapacityAgreesWithQuantity(input: string)
    requires !EndsWith(Trim(input), "n") && !EndsWith(Trim(input), "u")
    ensures ParseCpuCapacity(input) == Metrics.ParseCpuQuantity(input)
  {
  }

  /** The capacity CPU parser is the utils one applied to the trimmed input, up to the error text. */
  lemma CpuCapacityAgreesWithUtils(input: string)
    ensures ParseCpuCapacity(input).Ok? <==> Utils.ParseCpuString(Trim(input)).Ok?
    ensures ParseCpuCapacity(input).Ok? ==> ParseCpuCapacity(input).value == Utils.ParseCpuString(Trim(input)).value
  {
  }

  /** "5n" is rejected as capacity but read as 5 nanocores by the metrics parser. */
  lemma CpuCapacityRejectsNanocores()
    ensures ParseCpuCapacity("5n") == Err(Metrics.CpuError("cores", "5n", FloatInvalid))
    ensures Metrics.ParseCpuQuantity("5n") == Ok(Fraction(5, 1000000000))
  {
    CpuCapacityFiveNanocores();
    QuantityFiveNanocores();
  }

  lemma QuantityFiveNanocores()
    ensures Metrics.ParseCpuQuantity("5n") == Ok(Fraction(5, 1000000000))
  {
    var d := "5";
    assert AllDigits(d) && DigitsValue(d) == 5 by {
      assert d[..|d| - 1] == [];
    }
    assert d + "n" == "5n";
    Metrics.CpuQuantityNanocores(d);
  }

  lemma CpuCapacityFiveNanocores()
    ensures ParseCpuCapacity("5n") == Err(Metrics.CpuError("cores", "5n", FloatInvalid))
  {
    TrimIdentity("5n");
    DiffersAtEnd("5n", "m");
    assert !IsDigit("5n"[1]);
  }

  /** At most one of the binary suffixes ends a string. */
  lemma BinarySuffixesExclusive(s: string)
    ensures !(EndsWith(s, "Ki") && EndsWith(s, "Mi"))
    ensures !(EndsWith(s, "Ki") && EndsWith(s, "Gi"))
    ensures !(EndsWith(s, "Mi") && EndsWith(s, "Gi"))
  {
    if |s| >= 2 {
      if s[|s| - 2] != 'K' {
        DiffersAt(s, "Ki");
      }
      if s[|s| - 2] != 'M' {
        DiffersAt(s, "Mi");
      }
      if s[|s| - 2] != 'G' {
        DiffersAt(s, "Gi");
      }
    }
  }

  /** The capacity memory parser is the metrics one without the Ti, K, M and G suffixes. */
  lemma MemoryCapacityAgreesWithQuantity(input: string)
    requires !EndsWith(Trim(input), "Ti")
    requires !EndsWith(Trim(input), "K") && !EndsWith(Trim(input), "M") && !EndsWith(Trim(input), "G")
    ensures ParseMemoryCapacity(input) == Metrics.ParseMemoryQuantity(input)
  {
  }

  /**
   * The capacity memory parser checks Ki, Mi, Gi where the utils one checks
   * Gi, Mi, Ki; the suffixes exclude each other, so both read the same bytes.
   */
  lemma MemoryCapacityAgreesWithUtils(input: string)
    ensures ParseMemoryCapacity(input).Ok? <==> Utils.ParseMemoryString(input).Ok?
    ensures ParseMemoryCapacity(input).Ok? ==> ParseMemoryCapacity(input).value == Utils.ParseMemoryString(input).value
  {
    var s := Trim(input);
    BinarySuffixesExclusive(s);
    if EndsWith(s, "Ki") {
      ScaledAgrees(s, "Ki", "KiB", Utils.KIB);
    } else if EndsWith(s, "Mi") {
      ScaledAgrees(s, "Mi", "MiB", Utils.MIB);
    } else if EndsWith(s, "Gi") {
      ScaledAgrees(s, "Gi", "GiB", Utils.GIB);
    } else {
      assert ParseMemoryCapacity(input).Ok? <==> ParseU64(s).Ok?;
      assert Utils.ParseMemoryString(input).Ok? <==> ParseU64(s).Ok?;
    }
  }

  /** Both parsers scale the same mantissa by the same factor. */
  lemma ScaledAgrees(s: string, suffix: string, unit: string, scale: nat)
    requires suffix != []
    ensures Metrics.MemoryScaled(s, suffix, unit, scale).Ok? <==> Utils.ScaleMantissa(TrimEndMatches(s, suffix), scale).Ok?
    ensures Metrics.MemoryScaled(s, suffix, unit, scale).Ok? ==>
      Metrics.MemoryScaled(s, suffix, unit, scale).value == Utils.ScaleMantissa(TrimEndMatches(s, suffix), scale).value
  {
  }

  /** "1Ti" is rejected as capacity but is 2^40 bytes to the metrics parser. */
  lemma MemoryCapacityRejectsTi()
    ensures ParseMemoryCapacity("1Ti") == Err(Metrics.MemoryError("bytes", "1Ti", IntErrorText(InvalidDigit)))
    ensures Metrics.ParseMemoryQuantity("1Ti") == Ok(1099511627776)
  {
    CapacityRejectsTi();
    QuantityReadsTi();
  }

  lemma CapacityRejectsTi()
    ensures ParseMemoryCapacity("1Ti") == Err(Metrics.MemoryError("bytes", "1Ti", IntErrorText(InvalidDigit)))
  {
    TrimIdentity("1Ti");
    DiffersAt("1Ti", "Ki");
    DiffersAt("1Ti", "Mi");
    DiffersAt("1Ti", "Gi");
    assert ParseU64("1Ti") == Err(InvalidDigit);
  }

  lemma QuantityReadsTi()
    ensures Metrics.ParseMemoryQuantity("1Ti") == Ok(1099511627776)
  {
    OneTi();
    Utils.Pow1024Values();
    Metrics.MemoryQuantityTi("1");
  }

  lemma OneTi()
    ensures "1" != [] && AllDigits("1") && DigitsValue("1") == 1 && "1" + "Ti" == "1Ti"
  {
    assert "1"[..0] == [];
  }

  // ---------------------------------------------------------------------------
  // The capacity totals of kuboard_get_cluster_metrics
  // ---------------------------------------------------------------------------

  /** A node's capacity quantity under `key`, if reported. */
  function CapacityQuantity(node: Kubernetes.Node, key: string): Option<string> {
    Kubernetes.Quantity(Kubernetes.Capacity(node), key)
  }

  /** The cores a node adds to the CPU total: its parsed capacity, or nothing. */
  function NodeCores(node: Kubernetes.Node): (r: real)
    ensures r >= 0.0
  {
    match CapacityQuantity(node, "cpu")
    case None => 0.0
    case Some(q) =>
      match ParseCpuCapacity(q)
      case Ok(cores) => cores.Value()
      case Err(_) => 0.0
  }

  /** The bytes a node adds to the total for `key`: its parsed capacity, or nothing. */
  function NodeBytes(node: Kubernetes.Node, key: string): (r: nat)
    ensures r < U64_LIMIT
  {
    match CapacityQuantity(node, key)
    case None => 0
    case Some(q) =>
      match ParseMemoryCapacity(q)
      case Ok(bytes) => bytes
      case Err(_) => 0
  }

  function TotalCores(nodes: seq<Kubernetes.Node>): (r: real)
    ensures r >= 0.0
  {
    if nodes == [] then 0.0 else TotalCores(nodes[..|nodes| - 1]) + NodeCores(nodes[|nodes| - 1])
  }

  function TotalBytes(nodes: seq<Kubernetes.Node>, key: string): (r: nat)
    ensures r <= |nodes| * (U64_LIMIT - 1)
  {
    if nodes == [] then 0 else TotalBytes(nodes[..|nodes| - 1], key) + NodeBytes(nodes[|nodes| - 1], key)
  }

  /** The byte total of two node lists is the sum of their totals. */
  lemma {:induction false} TotalBytesAppend(a: seq<Kubernetes.Node>, b: seq<Kubernetes.Node>, key: string)
    ensures TotalBytes(a + b, key) == TotalBytes(a, key) + TotalBytes(b, key)
    decreases |b|
  {
    if b != [] {
      var init := b[..|b| - 1];
      assert (a + b)[..|a + b| - 1] == a + init;
      TotalBytesAppend(a, init, key);
    } else {
      assert a + b == a;
    }
  }

  /** A node whose quantity is missing or fails to parse leaves the total unchanged. */
  lemma TotalBytesSkipsUnparsable(nodes: seq<Kubernetes.Node>, node: Kubernetes.Node, key: string)
    requires CapacityQuantity(node, key).None? || ParseMemoryCapacity(CapacityQuantity(node, key).value).Err?
    ensures TotalBytes(nodes + [node], key) == TotalBytes(nodes, key)
  {
    assert (nodes + [node])[..|nodes|] == nodes;
  }

  /** Disk capacity goes through the memory parser too, so an "1Ti" disk adds nothing. */
  lemma DiskTiAddsNothing(nodes: seq<Kubernetes.Node>, node: Kubernetes.Node)
    requires CapacityQuantity(node, "ephemeral-storage") == Some("1Ti")
    ensures TotalBytes(nodes + [node], "ephemeral-storage") == TotalBytes(nodes, "ephemeral-storage")
  {
    MemoryCapacityRejectsTi();
    TotalBytesSkipsUnparsable(nodes, node, "ephemeral-storage");
  }

  /** One node's contribution to the three totals, parsing each quantity it reports. */
  method ParseNodeCapacity(node: Kubernetes.Node) returns (cores: real, memoryBytes: nat, diskBytes: nat)
    ensures cores == NodeCores(node)
    ensures memoryBytes == NodeBytes(node, "memory")
    ensures diskBytes == NodeBytes(node, "ephemeral-storage")
  {
    cores, memoryBytes, diskBytes := 0.0, 0, 0;
    var cpu := CapacityQuantity(node, "cpu");
    if cpu.Some? {
      var parsed := ParseCpuCapacity(cpu.value);
      if parsed.Ok? {
        cores := parsed.value.Value();
      }
    }
    var memory := CapacityQuantity(node, "memory");
    if memory.Some? {
      var parsed := ParseMemoryCapacity(memory.value);
      if parsed.Ok? {
        memoryBytes := parsed.value;
      }
    }
    var disk := CapacityQuantity(node, "ephemeral-storage");
    if disk.Some? {
      var parsed := ParseMemoryCapacity(disk.value);
      if parsed.Ok? {
        diskBytes := parsed.value;
      }
    }
  }

  /** The capacity part of the cluster-metrics response. */
  datatype CapacityTotals = CapacityTotals(
    totalCpuCores: real,
    totalMemoryBytes: nat,
    totalDiskBytes: nat,
    nodesCount: nat)

  // ---------------------------------------------------------------------------
  // The shared application state and the commands that use it
  // ---------------------------------------------------------------------------

  /** `AppState`: the current client and context, and the last loaded kubeconfig. */
  class AppState {
    var currentClient: Option<Client>
    var currentContext: Option<string>
    var kubeconfig: Option<Kubeconfig>

    constructor()
      ensures currentClient.None? && currentContext.None? && kubeconfig.None?
    {
      currentClient := None;
      currentContext := None;
      kubeconfig := None;
    }

    /**
     * `kuboard_list_contexts`, given the outcome of loading the kubeconfig: on
     * success it stores the kubeconfig and lists its contexts; the current
     * client and context are never touched.
     */
    method ListContexts(loaded: Result<Kubeconfig, string>) returns (r: Result<ContextListResponse, string>)
      modifies this
      ensures loaded.Err? ==> r == Err("Failed to load kubeconfig: " + loaded.error)
      ensures loaded.Err? ==> kubeconfig == old(kubeconfig)
      ensures loaded.Ok? ==> kubeconfig == Some(loaded.value)
      ensures loaded.Ok? ==> r == Ok(ContextListResponse(
        Projected(loaded.value.contexts, loaded.value.currentContext), loaded.value.currentContext))
      ensures currentClient == old(currentClient) && currentContext == old(currentContext)
    {
      if loaded.Err? {
        return Err("Failed to load kubeconfig: " + loaded.error);
      }
      var config := loaded.value;
      kubeconfig := Some(config);
      var current := config.currentContext;
      var entries := config.contexts;
      var contexts: seq<KubeContext> := [];
      for i := 0 to |entries|
        invariant contexts == Projected(entries[..i], current)
      {
        assert entries[..i + 1][..i] == entries[..i];
        var entry := entries[i];
        if entry.context.Some? {
          var body := entry.context.value;
          contexts := contexts + [KubeContext(
            name := entry.name,
            cluster := body.cluster,
            user := body.user.UnwrapOr(""),
            namespace := body.namespace,
            isCurrent := current == Some(entry.name))];
        }
      }
      assert entries[..|entries|] == entries;
      return Ok(ContextListResponse(contexts, current));
    }

    /** The no-client guard of the resource commands. */
    function ActiveClient(): (r: Result<Client, string>)
      reads this
      ensures r.Ok? <==> currentClient.Some?
      ensures r.Ok? ==> r.value == currentClient.value
      ensures r.Err? ==> r.error == NO_ACTIVE_CONTEXT
    {
      match currentClient
      case Some(client) => Ok(client)
      case None => Err(NO_ACTIVE_CONTEXT)
    }

    /**
     * `kuboard_set_context`, given the outcome of creating a client for the
     * named context (consulted only once the name is known to exist).
     */
    method SetContext(name: string, created: Result<Client, string>) returns (r: Result<string, string>)
      modifies this
      ensures kubeconfig == old(kubeconfig)
      ensures old(kubeconfig).None? ==> r == Err(NOT_LOADED)
      ensures old(kubeconfig).Some? && !ContextExists(old(kubeconfig).value.contexts, name)
        ==> r == Err("Context '" + name + "' not found")
      ensures old(kubeconfig).Some? && ContextExists(old(kubeconfig).value.contexts, name) && created.Err?
        ==> r == Err("Failed to switch context: " + created.error)
      ensures r.Ok? <==> (old(kubeconfig).Some? && ContextExists(old(kubeconfig).value.contexts, name) && created.Ok?)
      ensures r.Ok? ==> r.value == "Context switched to: " + name
      ensures r.Ok? ==> currentClient == Some(created.value) && currentContext == Some(name)
      ensures r.Ok? ==> ActiveClient() == Ok(created.value)
      ensures r.Err? ==> currentClient == old(currentClient) && currentContext == old(currentContext)
    {
      if kubeconfig.None? {
        return Err(NOT_LOADED);
      }
      if !ContextExists(kubeconfig.value.contexts, name) {
        return Err("Context '" + name + "' not found");
      }
      match created {
        case Ok(client) =>
          currentClient := Some(client);
          currentContext := Some(name);
          return Ok("Context switched to: " + name);
        case Err(e) =>
          return Err("Failed to switch context: " + e);
      }
    }

    /**
     * The capacity totals of `kuboard_get_cluster_metrics`, given the outcome
     * of listing the nodes: each total sums the parsed capacities, and a
     * missing or unparsable quantity adds nothing.
     */
    method GetClusterMetrics(listed: Result<seq<Kubernetes.Node>, string>) returns (r: Result<CapacityTotals, string>)
      ensures currentClient.None? ==> r == Err(NO_ACTIVE_CONTEXT)
      ensures currentClient.Some? && listed.Err? ==> r == Err("Failed to get nodes: " + listed.error)
      ensures r.Ok? <==> (currentClient.Some? && listed.Ok?)
      ensures r.Ok? ==> r.value == CapacityTotals(
        TotalCores(listed.value), TotalBytes(listed.value, "memory"),
        TotalBytes(listed.value, "ephemeral-storage"), |listed.value|)
    {
      var client := ActiveClient();
      if client.Err? {
        return Err(client.error);
      }
      if listed.Err? {
        return Err("Failed to get nodes: " + listed.error);
      }
      var nodes := listed.value;
      var totalCpuCores := 0.0;
      var totalMemoryBytes := 0;
      var totalDiskBytes := 0;
      for i := 0 to |nodes|
        invariant totalCpuCores == TotalCores(nodes[..i])
        invariant totalMemoryBytes == TotalBytes(nodes[..i], "memory")
        invariant totalDiskBytes == TotalBytes(nodes[..i], "ephemeral-storage")
      {
        assert nodes[..i + 1][..i] == nodes[..i];
        var cores, memoryBytes, diskBytes := ParseNodeCapacity(nodes[i]);
        totalCpuCores := totalCpuCores + cores;
        totalMemoryBytes := totalMemoryBytes + memoryBytes;
        totalDiskBytes := totalDiskBytes + diskBytes;
      }
      assert nodes[..|nodes|] == nodes;
      return Ok(CapacityTotals(totalCpuCores, totalMemoryBytes, totalDiskBytes, |nodes|));
    }
  }
}
