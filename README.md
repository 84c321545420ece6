# Kuboard backend core in Dafny

Kuboard is a desktop Kubernetes dashboard. Its Rust (Tauri) backend does the
following, and this project models those pieces:

- It lists the contexts of a kubeconfig.
- It switches the active context and keeps the current client in shared state.
- It derives per-node details and cluster totals from listed nodes.
- It parses Kubernetes resource quantities ("250m", "8Gi", "500000000n"), in
  three near-copies with different suffix sets and trimming rules.
- It builds the timestamp skeleton of metrics histories.
- It watches pods and reports each change to the UI as Added, Modified or
  Deleted.

Everything else (the kube API, kubeconfig files, Tauri, the async runtime) is
I/O. Its results are passed into the model as values.

One module per source file:

| module | file | what it holds |
|---|---|---|
| `Outcome` | (Rust `Option`/`Result`) | `Option`, `Result` |
| `RustStr` | (Rust `str` and number parsing) | `trim`, `ends_with`, `trim_end_matches`, `parse::<u64>`, `parse::<f64>` on digit strings, the saturating `as u64`, `Display` of integers |
| `Types` | `src-tauri/src/types.rs` | the records the commands return |
| `Utils` | `src-tauri/src/utils.rs` | the CPU and memory string parsers, and the memory formatter (a `while` loop) |
| `Metrics` | `src-tauri/src/metrics/mod.rs` | `parse_cpu_quantity`, `parse_memory_quantity`, and the history generators (a push loop, then an in-place reverse of an array) |
| `Kubernetes` | `src-tauri/src/kubernetes/mod.rs` | node readiness, rendering and defaults, the node loop of `kuboard_calculate_cluster_metrics`, the pod-event mapping |
| `Commands` | `src-tauri/src/commands/mod.rs` | class `AppState` with the context commands and the capacity totals, and the two capacity parsers |
| `Watch` | `src-tauri/src/kubernetes/watch.rs` | class `PodWatcher` (handle and stop-sender slots), and class `WatchTask` (the spawned loop with its `seen` set) |
| `Optimized` | `src-tauri/src/commands/optimized.rs` | class `ClusterCache` with its 30-second validity rule |

## How values are represented

- **CPU amounts** are exact fractions `numerator / denominator`. The
  denominator is 1 for cores and 10^3, 10^6 or 10^9 for the m, u and n
  suffixes. `Fraction.Value()` gives the real number.
- **Byte counts** are natural numbers. The source's saturating `as u64` cast
  is written out as `SaturateU64`.
- **Mantissas** are digit strings. With those, every scale factor is an
  integer that an `f64` holds exactly. So for mantissas and scaled results
  below 2^53, integer arithmetic gives the same answers as the source. Above
  2^53 the source rounds to the nearest `f64`, and the model does not (see
  "Floating point" under Left out).
- **Errors** carry the source's message text. `Metrics.QuantityError.Text()`
  renders `Invalid <what> '<input>': <cause>`.

## Model

| member | source | states |
|---|---|---|
| RustStr.Trim | src-tauri/src/utils.rs:23 | the result has no whitespace at either end and is no longer than the input |
| RustStr.TrimMargins | src-tauri/src/utils.rs:23 | the result is a contiguous slice of the input, and everything cut off before and after it is whitespace |
| RustStr.TrimIdempotent | src-tauri/src/metrics/mod.rs:244 | trimming an already trimmed string changes nothing |
| RustStr.TrimEndMatches | src-tauri/src/utils.rs:13 | the result is a prefix of the input that no longer ends with the pattern; an input not ending with the pattern comes back unchanged |
| RustStr.TrimEndMatchesCopies | src-tauri/src/utils.rs:13 | what is cut off is a whole number of copies of the pattern |
| RustStr.TrimEndMatchesAppend | src-tauri/src/utils.rs:25 | one more trailing copy of the pattern is stripped like the rest |
| RustStr.SaturateU64 | src-tauri/src/utils.rs:26 | `as u64` keeps values below 2^64 and saturates larger ones to u64::MAX |
| RustStr.ParseU64 | src-tauri/src/utils.rs:35 | a successful unsigned parse is below 2^64 |
| RustStr.ScanU64Value | src-tauri/src/utils.rs:35 | the digit loop yields the decimal value of the digits, or overflow when it reaches 2^64 |
| RustStr.ScanU64Rejects | src-tauri/src/utils.rs:35 | any non-digit makes the parse fail |
| RustStr.ParseU64Spec | src-tauri/src/utils.rs:35 | parse succeeds iff an optional '+' is followed by a non-empty digit string whose value is below 2^64, and then yields that value |
| RustStr.NatToString | src-tauri/src/utils.rs:51 | the rendering is a non-empty digit string with no leading zero |
| RustStr.NatToStringRoundTrip | src-tauri/src/utils.rs:51 | reading the rendered digits back gives the number |
| RustStr.DigitsValueZeros | src-tauri/src/metrics/mod.rs:255-257 | appending k zeros multiplies a digit string's value by 10^k |
| Utils.ParseMemoryString | src-tauri/src/utils.rs:22-37 | a success fits u64 |
| Utils.ParseCpuString | src-tauri/src/utils.rs:10-19 | a success is a whole or a thousandth-denominated number of cores |
| Utils.CpuStringMillicores | src-tauri/src/utils.rs:11-14 | digits followed by "m" are that many thousandths of a core |
| Utils.CpuStringCores | src-tauri/src/utils.rs:15-18 | an unsuffixed digit string is that many whole cores |
| Utils.CpuStringOneCore | src-tauri/src/utils.rs:12 | "1000m" is exactly 1 core |
| Utils.CpuStringQuarterCore | src-tauri/src/utils.rs:13-14 | "250m" is exactly 0.25 cores |
| Utils.CpuStringTwoCores | src-tauri/src/utils.rs:16-17 | "2" is exactly 2 cores |
| Utils.CpuStringBareSuffix | src-tauri/src/utils.rs:13 | "m" alone fails with the empty-string float error |
| Utils.CpuStringRejectsLeadingSpace | src-tauri/src/utils.rs:11 | the CPU parser does not trim: any input with a leading blank fails |
| Utils.MemoryStringIgnoresLeadingSpace | src-tauri/src/utils.rs:23 | the memory parser trims: a leading blank never changes its answer |
| Utils.MemoryStringGi | src-tauri/src/utils.rs:24-26 | "<d>Gi" is d * 2^30 bytes, saturated to u64 |
| Utils.MemoryStringMi | src-tauri/src/utils.rs:27-29 | "<d>Mi" is d * 2^20 bytes, saturated to u64, and the Gi branch is not taken |
| Utils.MemoryStringKi | src-tauri/src/utils.rs:30-32 | "<d>Ki" is d * 2^10 bytes, saturated to u64, and neither earlier branch is taken |
| Utils.MemoryStringGiMiAgree | src-tauri/src/utils.rs:21 | "8Gi" and "8192Mi" both give 8589934592 bytes |
| Utils.MemoryStringRepeatedSuffix | src-tauri/src/utils.rs:25 | "<s>GiGi" parses exactly like "<s>Gi" |
| Utils.MemoryStringBytes | src-tauri/src/utils.rs:33-35 | without Gi, Mi or Ki the trimmed input must be an optionally '+'-signed digit string whose value fits u64; it succeeds iff so and then gives that value |
| Utils.FormatMemory | src-tauri/src/utils.rs:40-55 | below 1024 bytes the text is exactly "<bytes> B"; otherwise the chosen unit k satisfies 1 <= k <= 4, 1024^k <= bytes, bytes < 1024^(k+1) when k < 4, and size * 1024^k == bytes |
| Metrics.ParseCpuQuantity | src-tauri/src/metrics/mod.rs:243-269 | a success has denominator 1, 10^3, 10^6 or 10^9; an error names the trimmed input |
| Metrics.CpuQuantityMillicores | src-tauri/src/metrics/mod.rs:246-251 | "<d>m" is d / 10^3 cores |
| Metrics.CpuQuantityNanocores | src-tauri/src/metrics/mod.rs:252-257 | "<d>n" is d / 10^9 cores, and the m branch is not taken |
| Metrics.CpuQuantityMicrocores | src-tauri/src/metrics/mod.rs:258-263 | "<d>u" is d / 10^6 cores, and neither earlier branch is taken |
| Metrics.CpuQuantityCores | src-tauri/src/metrics/mod.rs:244 | a digit string with any blank padding around it is that many whole cores |
| Metrics.CpuQuantityExampleMillicores | src-tauri/src/metrics/mod.rs:246-251 | "150m" is 0.15 cores |
| Metrics.CpuQuantityExampleNanocores | src-tauri/src/metrics/mod.rs:252-257 | "500000000n" is 0.5 cores |
| Metrics.CpuQuantityExampleMicrocores | src-tauri/src/metrics/mod.rs:258-263 | "500000u" is 0.5 cores |
| Metrics.ParseMemoryQuantity | src-tauri/src/metrics/mod.rs:272-315 | a success fits u64; an error names the trimmed input |
| Metrics.MemoryQuantityKi | src-tauri/src/metrics/mod.rs:275-279 | "<d>Ki" is d * 1024^1 bytes |
| Metrics.MemoryQuantityMi | src-tauri/src/metrics/mod.rs:280-284 | "<d>Mi" is d * 1024^2 bytes |
| Metrics.MemoryQuantityGi | src-tauri/src/metrics/mod.rs:285-289 | "<d>Gi" is d * 1024^3 bytes |
| Metrics.MemoryQuantityTi | src-tauri/src/metrics/mod.rs:290-294 | "<d>Ti" is d * 1024^4 bytes |
| Metrics.MemoryQuantityK | src-tauri/src/metrics/mod.rs:295-299 | "<d>K" is d * 1000^1 bytes |
| Metrics.MemoryQuantityM | src-tauri/src/metrics/mod.rs:300-304 | "<d>M" is d * 1000^2 bytes |
| Metrics.MemoryQuantityG | src-tauri/src/metrics/mod.rs:305-309 | "<d>G" is d * 1000^3 bytes |
| Metrics.MemoryQuantityBytes | src-tauri/src/metrics/mod.rs:310-313 | without a recognised suffix the trimmed input must be a u64 digit string, which gives that many bytes |
| Metrics.MemoryQuantityRejectsLowerK | src-tauri/src/metrics/mod.rs:312-313 | lower-case "1k" fails as a byte count, with "invalid digit" and the input in the message |
| Metrics.PointAt | src-tauri/src/metrics/mod.rs:196 | point i is stamped exactly 60 * i seconds before now and carries the flag |
| Metrics.Pushed | src-tauri/src/metrics/mod.rs:195-221 | the push loop leaves one point per minute index |
| Metrics.PushedAt | src-tauri/src/metrics/mod.rs:195-196 | the i-th pushed point is stamped now - 60 * i |
| Metrics.ReversedAt | src-tauri/src/metrics/mod.rs:224 | position k of the reversal holds position n-1-k of the original |
| Metrics.Timeline | src-tauri/src/metrics/mod.rs:195-224 | a history over d minutes holds d + 1 points |
| Metrics.TimelineAt | src-tauri/src/metrics/mod.rs:195-224 | after the reverse, point k is stamped now - 60 * (duration - k) and carries the flag |
| Metrics.TimelineShape | src-tauri/src/metrics/mod.rs:195-224 | duration + 1 points, the first at now - 60 * duration and the last at now, 60 s apart, every flag equal to the given one |
| Metrics.TimelineIncreasing | src-tauri/src/metrics/mod.rs:224 | timestamps strictly increase along the history |
| Metrics.ReverseInPlace | src-tauri/src/metrics/mod.rs:224 | the array afterwards holds the reversal of its old contents |
| Metrics.BuildTimeline | src-tauri/src/metrics/mod.rs:192-224 | the push loop followed by the in-place reverse yields the timeline |
| Metrics.FetchNodeMetricsHistory | src-tauri/src/metrics/mod.rs:168-235 | unavailable metrics API, a failed reading, an unparsable CPU or an unparsable memory figure each give their own error; it succeeds iff none occurs, and then returns the timeline with every point flagged real |
| Metrics.GenerateMockMetricsHistory | src-tauri/src/metrics/mod.rs:354-400 | the timeline with every point flagged mock |
| Metrics.WrappedTimestamp | src-tauri/src/metrics/mod.rs:196 | the as-written u32 offset never moves a stamp after now, nor 2^32 s or more before it |
| Metrics.WrappedTimestampAgrees | src-tauri/src/metrics/mod.rs:196 | up to minute 71582788 the u32 offset equals the intended 60 * i |
| Metrics.WrappedTimestampCounterexample | src-tauri/src/metrics/mod.rs:360 | at minute 71582789 the u32 offset wraps to 44 s, stamping that point later than the one-minute-old point |
| Kubernetes.IsReady | src-tauri/src/kubernetes/mod.rs:85-92 | a ready node has a status with a non-empty condition list |
| Kubernetes.HasReadyCondition | src-tauri/src/kubernetes/mod.rs:85-92 | true iff some condition is exactly type "Ready" with status "True" |
| Kubernetes.ReadyIffReadyCondition | src-tauri/src/kubernetes/mod.rs:85-92 | a node is ready iff its conditions include Ready/True; no status or no conditions means not ready |
| Kubernetes.TaintTextParts | src-tauri/src/kubernetes/mod.rs:215-220 | a taint renders as key "=" value ":" effect, with nothing between '=' and ':' when the value is absent |
| Kubernetes.TaintLines | src-tauri/src/kubernetes/mod.rs:212-223 | one rendered string per taint, in order; none without a taint list |
| Kubernetes.RenderConditions | src-tauri/src/kubernetes/mod.rs:101-108 | one "type: status" line per condition, in the original order |
| Kubernetes.CoresOrZero | src-tauri/src/kubernetes/mod.rs:121-125 | the parsed CPU figure, or 0 cores when the key is missing or does not parse |
| Kubernetes.BytesOrZero | src-tauri/src/kubernetes/mod.rs:126-130 | the parsed memory figure, or 0 when missing or unparsable |
| Kubernetes.BytesOrNone | src-tauri/src/kubernetes/mod.rs:131-135 | the parsed disk figure, or None when missing or unparsable |
| Kubernetes.DetailsStatus | src-tauri/src/kubernetes/mod.rs:82-98 | the status is "Ready" iff the node is ready and "Not Ready" otherwise; a missing name becomes "Unknown" |
| Kubernetes.DetailsDefaults | src-tauri/src/kubernetes/mod.rs:111-118 | without a status every capacity and allocatable figure keeps its default (0 or None), with no conditions and no OS |
| Kubernetes.DetailsUnparsableMemory | src-tauri/src/kubernetes/mod.rs:126-130 | a capacity memory figure that fails to parse leaves max memory at 0 |
| Kubernetes.DetailsParsedMemory | src-tauri/src/kubernetes/mod.rs:126-130 | a capacity memory figure that parses is reported as parsed |
| Kubernetes.NodeRecord | src-tauri/src/kubernetes/mod.rs:82-256 | one iteration computes the node's readiness and its details record |
| Kubernetes.ReadyCount | src-tauri/src/kubernetes/mod.rs:94-96 | the ready count never exceeds the node count |
| Kubernetes.ReadyCountAll | src-tauri/src/kubernetes/mod.rs:94-96 | every node counts as active iff every node is ready |
| Kubernetes.ReadyCountNone | src-tauri/src/kubernetes/mod.rs:94-96 | no node counts as active iff no node is ready |
| Kubernetes.Details | src-tauri/src/kubernetes/mod.rs:82-256 | the record pushed for one node (its properties are the Details* lemmas) |
| Kubernetes.MappedAt | src-tauri/src/kubernetes/mod.rs:233 | a list built by pushing the image of each element in turn holds, at position i, the image of element i |
| Kubernetes.DetailsList | src-tauri/src/kubernetes/mod.rs:233 | one record per listed node |
| Kubernetes.DetailsListAt | src-tauri/src/kubernetes/mod.rs:233-256 | the record at position i describes node i |
| Kubernetes.CalculateClusterMetrics | src-tauri/src/kubernetes/mod.rs:74-263 | a failed listing is returned as the error; otherwise max_nodes is the node count, active_nodes the ready count (so active <= max), with one record per node in order |
| Kubernetes.ToPodEvent | src-tauri/src/kubernetes/mod.rs:297-311 | a missing type, reason or message becomes ""; timestamps, count and namespace pass through; the involved object is always present, its kind and name defaulting to "" when absent |
| Kubernetes.FetchPodEvents | src-tauri/src/kubernetes/mod.rs:284-313 | a failed listing is the error; otherwise one mapped event per listed event, in order |
| Kubernetes.PodEventsHaveInvolvedObject | src-tauri/src/kubernetes/mod.rs:305 | every returned event has an involved object |
| Commands.ToKubeContext | src-tauri/src/commands/mod.rs:54-61 | name, cluster and namespace are copied; a missing user becomes ""; is_current holds iff the name is the current context |
| Commands.Projected | src-tauri/src/commands/mod.rs:51-63 | no more contexts are listed than there are entries |
| Commands.ProjectedAppend | src-tauri/src/commands/mod.rs:51-63 | listing distributes over concatenation, so kubeconfig order is kept |
| Commands.ProjectedSound | src-tauri/src/commands/mod.rs:54-61 | every listed context comes from an entry with a body; user is "" when absent; is_current holds iff the name is the current context |
| Commands.ProjectedComplete | src-tauri/src/commands/mod.rs:54-61 | every entry with a body is listed |
| Commands.ProjectedSkipsBodiless | src-tauri/src/commands/mod.rs:54 | an entry without a body adds nothing |
| Commands.ContextExists | src-tauri/src/commands/mod.rs:102-104 | true iff some entry, with or without a body, has the name |
| Commands.ParseCpuCapacity | src-tauri/src/commands/mod.rs:727-739 | a success is whole or thousandth cores; an error names the trimmed input |
| Commands.ParseMemoryCapacity | src-tauri/src/commands/mod.rs:741-762 | a success fits u64; an error names the trimmed input |
| Commands.CpuCapacityAgreesWithQuantity | src-tauri/src/commands/mod.rs:727-739 | on input not ending in n or u once trimmed, the capacity and metrics CPU parsers agree, errors included |
| Commands.CpuCapacityAgreesWithUtils | src-tauri/src/commands/mod.rs:727-739 | the capacity CPU parser succeeds iff the utils one does on the trimmed input, with the same value |
| Commands.CpuCapacityRejectsNanocores | src-tauri/src/commands/mod.rs:736-738 | "5n" is an invalid cores literal for the capacity parser but 5 nanocores for the metrics one |
| Commands.BinarySuffixesExclusive | src-tauri/src/commands/mod.rs:744-757 | no string ends with two of Ki, Mi, Gi |
| Commands.MemoryCapacityAgreesWithQuantity | src-tauri/src/commands/mod.rs:741-762 | without a Ti, K, M or G suffix the capacity and metrics memory parsers agree, errors included |
| Commands.MemoryCapacityAgreesWithUtils | src-tauri/src/commands/mod.rs:741-762 | the capacity memory parser (Ki, Mi, Gi order) succeeds iff the utils one (Gi, Mi, Ki order) does, with the same bytes |
| Commands.MemoryCapacityRejectsTi | src-tauri/src/commands/mod.rs:759-762 | "1Ti" is an invalid byte count for the capacity parser but 2^40 bytes for the metrics one |
| Commands.NodeCores | src-tauri/src/commands/mod.rs:616-620 | a node's CPU contribution is never negative |
| Commands.NodeBytes | src-tauri/src/commands/mod.rs:623-634 | a node's memory or disk contribution fits u64 |
| Commands.TotalCores | src-tauri/src/commands/mod.rs:612-620 | the CPU total is never negative |
| Commands.TotalBytes | src-tauri/src/commands/mod.rs:612-635 | the total over n nodes is at most n * u64::MAX |
| Commands.TotalBytesAppend | src-tauri/src/commands/mod.rs:612-635 | the total over two node lists is the sum of their totals |
| Commands.TotalBytesSkipsUnparsable | src-tauri/src/commands/mod.rs:623-634 | a node whose quantity is missing or fails to parse leaves the total unchanged |
| Commands.DiskTiAddsNothing | src-tauri/src/commands/mod.rs:630-634 | disk goes through the memory parser, so a "1Ti" disk adds nothing |
| Commands.ParseNodeCapacity | src-tauri/src/commands/mod.rs:614-635 | one node's parsed CPU, memory and disk contributions |
| Commands.AppState.constructor | src-tauri/src/app_state.rs:21-29 | no client, no context, no kubeconfig |
| Commands.AppState.ListContexts | src-tauri/src/commands/mod.rs:33-90 | a load failure gives "Failed to load kubeconfig: ..." and keeps the stored kubeconfig; on success it stores the kubeconfig and returns the listed contexts and the current name; client and context are never touched |
| Commands.AppState.ActiveClient | src-tauri/src/commands/mod.rs:249-251 | Ok iff a client is set; otherwise "No active context. Please set a context first." |
| Commands.AppState.SetContext | src-tauri/src/commands/mod.rs:93-122 | without a kubeconfig: "Kubeconfig not loaded. Call list_contexts first."; unknown name: "Context '<name>' not found"; client failure: "Failed to switch context: ..."; success iff none of these occurs, then client and context are set, the active client is the new one, and the reply is "Context switched to: <name>"; on any error client and context are unchanged |
| Commands.AppState.GetClusterMetrics | src-tauri/src/commands/mod.rs:582-635 | no client gives the no-active-context error; a failed listing gives "Failed to get nodes: ..."; otherwise the totals are the sums of the parsed capacities, with the node count |
| Watch.PodKey | src-tauri/src/kubernetes/watch.rs:91-94 | the key starts with the namespace (or "default" when absent), has '/' right after it, and ends with the pod's name |
| Watch.Step | src-tauri/src/kubernetes/watch.rs:86-151 | one turn emits at most one event and never drops earlier emissions |
| Watch.Run | src-tauri/src/kubernetes/watch.rs:79-154 | a run only appends to the emissions; after the loop has exited nothing changes |
| Watch.ApplyClassifies | src-tauri/src/kubernetes/watch.rs:89-104 | a named Apply reports Added iff its key was unseen, otherwise Modified, and the key is seen afterwards |
| Watch.DeleteForgets | src-tauri/src/kubernetes/watch.rs:114-127 | a named Delete removes its key (no-op if absent) and always reports Deleted |
| Watch.IgnoredItems | src-tauri/src/kubernetes/watch.rs:89-134 | unnamed Apply/Delete and Init, InitApply, InitDone change nothing |
| Watch.ErrorEndStop | src-tauri/src/kubernetes/watch.rs:81-150 | a stream error emits "Watch error: <e>" and the loop goes on; stream end emits "Watch stream ended" and exits; a stop exits silently |
| Watch.RunAppend | src-tauri/src/kubernetes/watch.rs:79-154 | running two stretches of the stream in turn is running their concatenation |
| Watch.StreamEndIsFinal | src-tauri/src/kubernetes/watch.rs:144-150 | nothing after the end of the stream is processed |
| Watch.StopIsFinal | src-tauri/src/kubernetes/watch.rs:81-84 | nothing after a stop is processed, and the stop emits nothing |
| Watch.ApplyApplyDeleteApply | src-tauri/src/kubernetes/watch.rs:89-127 | Apply, Apply, Delete, Apply of one pod reports Added, Modified, Deleted, Added |
| Watch.InitApplyThenApply | src-tauri/src/kubernetes/watch.rs:130-134 | a pod seen only during the initial sync is reported Added on its first Apply |
| Watch.RunEndsExited | src-tauri/src/kubernetes/watch.rs:144-150 | a run that reaches the end of the stream has exited |
| Watch.WatchTask.constructor | src-tauri/src/kubernetes/watch.rs:77 | the watch task starts with an empty seen set and nothing emitted |
| Watch.WatchTask.Handle | src-tauri/src/kubernetes/watch.rs:86-151 | one turn updates the seen set in place exactly as Step says |
| Watch.WatchTask.Process | src-tauri/src/kubernetes/watch.rs:79-154 | the loop leaves the watch task in the state Run gives |
| Watch.PodWatcher.IsActive | src-tauri/src/kubernetes/watch.rs:43-45 | a watcher is active exactly while it holds a task handle |
| Watch.PodWatcher.constructor | src-tauri/src/kubernetes/watch.rs:36-41 | a new watcher has both slots empty and is not active |
| Watch.PodWatcher.Stop | src-tauri/src/kubernetes/watch.rs:47-54 | both slots are taken, the old sender is signalled and the old handle aborted; afterwards the watcher is not active |
| Watch.PodWatcher.Start | src-tauri/src/kubernetes/watch.rs:56-163 | stops the previous watch task (returning the sender it signalled and the handle it aborted), installs the new handle and sender, returns Ok(()), and is active |
| Watch.PodWatcher.Drop | src-tauri/src/kubernetes/watch.rs:166-170 | dropping stops the watcher: the old sender is signalled, the old handle aborted, and the watcher is no longer active |
| Watch.StopIdle | src-tauri/src/kubernetes/watch.rs:47-54 | stopping an idle watcher signals nothing and aborts nothing |
| Watch.StreamEndKeepsActive | src-tauri/src/kubernetes/watch.rs:43-45 | a watcher whose task ended on its own is still active, with the watch task exited after "Watch stream ended" |
| Optimized.Elapsed | src-tauri/src/commands/optimized.rs:43 | elapsed time is now minus the stamp, or 0 when the clock ran backwards |
| Optimized.ClusterCache.IsValid | src-tauri/src/commands/optimized.rs:41-44 | valid for the cache's own context while fewer than 30 whole seconds have elapsed (see ValidWindow) |
| Optimized.ClusterCache.constructor | src-tauri/src/commands/optimized.rs:29-39 | nothing cached, stamped now, for the empty context name |
| Optimized.ClusterCache.Invalidate | src-tauri/src/commands/optimized.rs:46-53 | all five cached values cleared and the stamp reset to now; the context name is kept |
| Optimized.ClusterCache.SwitchContext | src-tauri/src/commands/optimized.rs:84-88 | after a switch the cache is empty, for the new context, and valid |
| Optimized.ClusterCache.CachedOverview | src-tauri/src/commands/optimized.rs:110-118 | an overview is returned iff the cache is valid for the context and holds one, and then it is the stored one |
| Optimized.ClusterCache.StoreOverview | src-tauri/src/commands/optimized.rs:174-179 | the overview is stored for the context and stamped now; the lists are untouched; the cache is then valid |
| Optimized.ClusterCache.CachedNodes | src-tauri/src/commands/optimized.rs:193-201 | a node list is returned iff the cache is valid for the context and holds one, and then it is the stored one |
| Optimized.ClusterCache.StoreNodes | src-tauri/src/commands/optimized.rs:213-218 | the node list is stored for the context and stamped now; the other entries are untouched; the cache is then valid |
| Optimized.ClusterCache.StoreAll | src-tauri/src/commands/optimized.rs:254-268 | all four lists are stored, a failed listing as an empty list, for the context and stamped now; the overview is kept; the cache is then valid |
| Optimized.StoreAllThenNodes | src-tauri/src/commands/optimized.rs:193-268 | after a batch load, the node listing is served from the cache before stamp + 30 and not from then on |
| Optimized.ValidWindow | src-tauri/src/commands/optimized.rs:41-44 | validity holds iff the context matches and now < stamp + 30, including any time before the stamp |
| Optimized.ExpiryIsPermanent | src-tauri/src/commands/optimized.rs:43 | once expired, a cache stays expired as the clock advances |
| Optimized.OtherContextInvalid | src-tauri/src/commands/optimized.rs:42 | a cache is never valid for another context |
| Optimized.StoreThenLookup | src-tauri/src/commands/optimized.rs:110-179 | a stored overview is served back for its context before stamp + 30 and not from then on |
| Optimized.SwitchThenLookup | src-tauri/src/commands/optimized.rs:84-118 | right after a switch nothing is served, though the cache is valid |

## Left out

- Floating point. The model keeps no `f64` rounding and treats `parse::<f64>`
  only on digit-string mantissas; any other mantissa ("1.5", "1e3", "inf",
  "-1") is reported as an invalid float literal. The source accepts those.
  - A mantissa above 2^53 is rounded by `parse::<f64>` in the source; the model
    keeps its exact value ("9007199254740993Ki": the source gives
    9223372036854775808, the model 9223372036854776832).
  - A scaled product above 2^53 is rounded by the source's `*` before the
    `as u64` cast; the model keeps the exact product before saturating
    ("10000000001G" is exactly 10^19 + 10^9 in the model).
  - This applies to Utils.MemoryStringGi, Utils.MemoryStringMi,
    Utils.MemoryStringKi and Metrics.MemoryQuantityKi through
    Metrics.MemoryQuantityG, and to the CPU parsers' mantissas.
- Utils.FormatMemory: the `{:.1}` rendering of the scaled size is not modelled.
  The result carries the exact size and unit name instead of the text.
- Also left out because they are floating-point derivations of mock or fetched
  figures:
  - the usage percentages and their `.min(100.0)` clamps;
  - `metrics_available` and `metrics_error` on nodes;
  - the sine-based usage values of the history points;
  - `kuboard_format_cpu`.
- Commands.AppState.GetClusterMetrics: only the capacity totals are modelled.
  - The usage totals need metrics-server or pod-list calls whose results are
    only ever summed as floats.
  - The totals are unbounded naturals. The source's `u64 +=` would panic in a
    debug build, or wrap in a release build, past 2^64 bytes.
- Kubernetes.CalculateClusterMetrics: the per-node call to
  `kuboard_fetch_node_metrics` is left out. It returns hard-coded mock
  constants.
- I/O is passed in as values. This covers the kube API calls, kubeconfig
  loading, client creation, the metrics-server availability check and the
  system clock (whole seconds). Tauri's `emit` is modelled as appending to a
  log; its failures, which the source only logs, are not modelled.
- Concurrency. This covers `tokio::spawn`, `select!`, the mpsc stop channel,
  `JoinHandle::abort` and the `RwLock`s of the application state.
  - The spawned task is an abstract slot (`TaskHandle`).
  - A stop request is one more `StreamItem` that the watch task consumes.
  - Which of a stop and a stream item `select!` takes first is left to the
    order of the items.
- Watch.Pod: only the name and namespace of a pod are kept. The object
  emitted with each event is this reduced pod.
- Optimized: the struct and its methods are modelled. The commands that use
  it are modelled only through their cache steps, for two reasons:
  - The module is not declared in `commands/mod.rs`, and the cache field of
    `AppState` is commented out (`app_state.rs:17,26`).
  - The module's own client factory always fails with "Not implemented".
- Metrics.WrappedTimestamp: it models only the timestamp arithmetic of the
  as-written code.
- Metrics.BuildTimeline: stamps point i at the corrected `now - 60 * i`. The
  source's `u32` product `i * 60` wraps or panics once the duration reaches
  71582789 minutes (see Findings).
- Metrics.FetchNodeMetricsHistory: stamps its points as BuildTimeline does,
  at the corrected `now - 60 * i`, not the source's wrapping `u32` offset.
- Metrics.GenerateMockMetricsHistory: stamps its points as BuildTimeline
  does, at the corrected `now - 60 * i`, not the source's wrapping `u32`
  offset.
- The other watcher kinds, port forwarding, exec and the remaining resource
  commands are not part of this model.

## Findings

| source | as written | input that shows it | evidently intended | confidence | as-written member | corrected member |
|---|---|---|---|---|---|---|
| src-tauri/src/metrics/mod.rs:196 and :360 | `now - (i * 60) as i64` multiplies in `u32` (`i` ranges over `0..=duration_minutes: u32`) and only then widens | duration_minutes = 71582789: `i * 60` overflows `u32` at the last point. A debug build panics; a release build wraps the offset to 44 s, so the oldest point is stamped after the one-minute-old point | widen first, `now - (i as i64) * 60`, so timestamps fall 60 s apart for every u32 duration | not executed | Metrics.WrappedTimestampCounterexample | Metrics.TimelineIncreasing |
