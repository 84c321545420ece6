/**
 * kubernetes/watch.rs: the pod watcher. `PodWatcher` owns two slots, the
 * spawned task's handle and the sender of its stop channel; the watch task folds
 * the watch stream into emitted UI events while it keeps the set of pod keys
 * it has seen. The watch task is an abstract slot here, and a stop request is one
 * more item of the stream the watch task consumes.
 */
module Watch {
  import opened Outcome

  // ---------------------------------------------------------------------------
  // Stream items and emitted events
  // ---------------------------------------------------------------------------

  datatype WatchEventType = Added | Modified | Deleted

  /** The pod metadata the loop reads; the rest of the object is passed through. */
  datatype Pod = Pod(name: Option<string>, namespace: Option<string>)

  /** `watcher::Event`. */
  datatype WatcherEvent = Apply(pod: Pod) | Delete(pod: Pod) | Init | InitApply(initPod: Pod) | InitDone

  /** What one turn of the watch task's loop receives: a stream item, the end of the stream, or a stop signal. */
  datatype StreamItem =
    | Event(event: WatcherEvent)
    | StreamError(message: string)
    | StreamEnd
    | StopSignal

  /**
   * What the watch task emits to the UI: `pod-watch-event` carrying the
   * classification and the pod, or `pod-watch-error` carrying its message.
   * An emission that fails is logged and dropped by the source; the log
   * records every attempt.
   */
  datatype Emission = PodWatchEvent(eventType: WatchEventType, pod: Pod) | PodWatchError(error: string)

  /** The key of a named pod: its namespace (or "default") and its name, separated by '/'. */
  function PodKey(pod: Pod): (key: string)
    requires pod.name.Some?
    ensures |key| == |pod.namespace.UnwrapOr("default")| + 1 + |pod.name.value|
    ensures key[..|pod.namespace.UnwrapOr("default")|] == pod.namespace.UnwrapOr("default")
    ensures key[|pod.namespace.UnwrapOr("default")|] == '/'
    ensures key[|pod.namespace.UnwrapOr("default")| + 1..] == pod.name.value
  {
    pod.namespace.UnwrapOr("default") + "/" + pod.name.value
  }

  // ---------------------------------------------------------------------------
  // The watch task's loop as a function of its inputs
  // ---------------------------------------------------------------------------

  /** The watch task's state: the seen keys, the emissions so far, and whether the loop has exited. */
  datatype TaskState = TaskState(seen: set<string>, emitted: seq<Emission>, exited: bool)

  const Idle: TaskState := TaskState({}, [], false)

  /** One turn of the loop on one item. */
  function Step(st: TaskState, item: StreamItem): (r: TaskState)
    ensures |st.emitted| <= |r.emitted| <= |st.emitted| + 1
    ensures r.emitted[..|st.emitted|] == st.emitted
  {
    match item
    case Event(Apply(pod)) =>
      if pod.name.None? then st
      else
        var key := PodKey(pod);
        var eventType := if key in st.seen then Modified else Added;
        TaskState(st.seen + {key}, st.emitted + [PodWatchEvent(eventType, pod)], st.exited)
    case Event(Delete(pod)) =>
      if pod.name.None? then st
      else TaskState(st.seen - {PodKey(pod)}, st.emitted + [PodWatchEvent(Deleted, pod)], st.exited)
    case Event(Init) => st
    case Event(InitApply(_)) => st
    case Event(InitDone) => st
    case StreamError(e) => TaskState(st.seen, st.emitted + [PodWatchError("Watch error: " + e)], st.exited)
    case StreamEnd => TaskState(st.seen, st.emitted + [PodWatchError("Watch stream ended")], true)
    case StopSignal => TaskState(st.seen, st.emitted, true)
  }

  /** The loop over a sequence of items: once it has exited, nothing more is processed. */
  function Run(st: TaskState, items: seq<StreamItem>): (r: TaskState)
    ensures |st.emitted| <= |r.emitted| && r.emitted[..|st.emitted|] == st.emitted
    ensures st.exited ==> r == st
    decreases |items|
  {
    if st.exited || items == [] then st else Run(Step(st, items[0]), items[1..])
  }

  // ---------------------------------------------------------------------------
  // Properties of one turn
  // ---------------------------------------------------------------------------

  /** An Apply for a named pod reports Added exactly when its key was unseen, and marks it seen. */
  lemma ApplyClassifies(st: TaskState, pod: Pod)
    requires pod.name.Some?
    ensures Step(st, Event(Apply(pod))).seen == st.seen + {PodKey(pod)}
    ensures Step(st, Event(Apply(pod))).emitted == st.emitted + [PodWatchEvent(if PodKey(pod) in st.seen then Modified else Added, pod)]
    ensures PodKey(pod) in Step(st, Event(Apply(pod))).seen
    ensures Step(st, Event(Apply(pod))).exited == st.exited
  {
  }

  /** A Delete for a named pod forgets its key (a no-op if unseen) and always reports Deleted. */
  lemma DeleteForgets(st: TaskState, pod: Pod)
    requires pod.name.Some?
    ensures Step(st, Event(Delete(pod))).seen == st.seen - {PodKey(pod)}
    ensures PodKey(pod) !in st.seen ==> Step(st, Event(Delete(pod))).seen == st.seen
    ensures Step(st, Event(Delete(pod))).emitted == st.emitted + [PodWatchEvent(Deleted, pod)]
  {
  }

  /** Apply and Delete of a pod without a name, and the three initial-sync events, change nothing. */
  lemma IgnoredItems(st: TaskState, pod: Pod)
    ensures pod.name.None? ==> Step(st, Event(Apply(pod))) == st && Step(st, Event(Delete(pod))) == st
    ensures Step(st, Event(Init)) == st && Step(st, Event(InitApply(pod))) == st && Step(st, Event(InitDone)) == st
  {
  }

  /** A stream error is reported and the loop goes on; the end of the stream is reported once and ends it; a stop ends it silently. */
  lemma ErrorEndStop(st: TaskState, e: string)
    ensures Step(st, StreamError(e)) == st.(emitted := st.emitted + [PodWatchError("Watch error: " + e)])
    ensures Step(st, StreamEnd) == TaskState(st.seen, st.emitted + [PodWatchError("Watch stream ended")], true)
    ensures Step(st, StopSignal) == st.(exited := true)
  {
  }

  // ---------------------------------------------------------------------------
  // Properties of whole runs
  // ---------------------------------------------------------------------------

  /** Running two pieces of the stream one after the other is running their concatenation. */
  lemma {:induction false} RunAppend(st: TaskState, a: seq<StreamItem>, b: seq<StreamItem>)
    ensures Run(st, a + b) == Run(Run(st, a), b)
    decreases |a|
  {
    if !st.exited && a != [] {
      assert (a + b)[0] == a[0];
      assert (a + b)[1..] == a[1..] + b;
      RunAppend(Step(st, a[0]), a[1..], b);
    } else if a == [] {
      assert a + b == b;
    }
  }

  /** Nothing after the end of the stream is processed. */
  lemma StreamEndIsFinal(st: TaskState, before: seq<StreamItem>, after: seq<StreamItem>)
    ensures Run(st, before + [StreamEnd] + after) == Run(st, before + [StreamEnd])
  {
    RunAppend(st, before + [StreamEnd], after);
    RunAppend(st, before, [StreamEnd]);
    var mid := Run(st, before);
    if !mid.exited {
      assert [StreamEnd][1..] == [];
    }
  }

  /** Nothing after a stop signal is processed, and the stop itself emits nothing. */
  lemma StopIsFinal(st: TaskState, before: seq<StreamItem>, after: seq<StreamItem>)
    ensures Run(st, before + [StopSignal] + after) == Run(st, before + [StopSignal])
    ensures Run(st, before + [StopSignal]).emitted == Run(st, before).emitted
  {
    RunAppend(st, before + [StopSignal], after);
    RunAppend(st, before, [StopSignal]);
    var mid := Run(st, before);
    if !mid.exited {
      assert [StopSignal][1..] == [];
    }
  }

  /** Apply, Apply, Delete, Apply of one pod reports Added, Modified, Deleted, Added. */
  lemma ApplyApplyDeleteApply(pod: Pod)
    requires pod.name.Some?
    ensures Run(Idle, [Event(Apply(pod)), Event(Apply(pod)), Event(Delete(pod)), Event(Apply(pod))]).emitted
      == [PodWatchEvent(Added, pod), PodWatchEvent(Modified, pod), PodWatchEvent(Deleted, pod), PodWatchEvent(Added, pod)]
  {
    var items := [Event(Apply(pod)), Event(Apply(pod)), Event(Delete(pod)), Event(Apply(pod))];
    var key := PodKey(pod);
    var s1 := Step(Idle, items[0]);
    assert s1 == TaskState({key}, [PodWatchEvent(Added, pod)], false);
    var s2 := Step(s1, items[1]);
    assert s2 == TaskState({key}, [PodWatchEvent(Added, pod), PodWatchEvent(Modified, pod)], false);
    var s3 := Step(s2, items[2]);
    assert s3.seen == {} && !s3.exited;
    var s4 := Step(s3, items[3]);
    assert s4.emitted == s3.emitted + [PodWatchEvent(Added, pod)];
    assert Run(Idle, items) == Run(s1, items[1..]);
    assert Run(s1, items[1..]) == Run(s2, items[2..]);
    assert Run(s2, items[2..]) == Run(s3, items[3..]);
    assert Run(s3, items[3..]) == Run(s4, []);
  }

  /** A pod seen only during the initial sync is reported Added on its first Apply. */
  lemma InitApplyThenApply(pod: Pod)
    requires pod.name.Some?
    ensures Run(Idle, [Event(Init), Event(InitApply(pod)), Event(InitDone), Event(Apply(pod))]).emitted
      == [PodWatchEvent(Added, pod)]
  {
    var items := [Event(Init), Event(InitApply(pod)), Event(InitDone), Event(Apply(pod))];
    assert Run(Idle, items) == Run(Idle, items[1..]);
    assert Run(Idle, items[1..]) == Run(Idle, items[2..]);
    assert Run(Idle, items[2..]) == Run(Idle, items[3..]);
    assert Run(Idle, items[3..]) == Run(Step(Idle, items[3]), []);
  }

  // ---------------------------------------------------------------------------
  // The spawned task
  // ---------------------------------------------------------------------------

  /** The spawned loop: the `seen_pods` set it mutates, the emissions, and whether it has exited. */
  class WatchTask {
    var seen: set<string>
    var emitted: seq<Emission>
    var exited: bool

    function State(): TaskState
      reads this
    {
      TaskState(seen, emitted, exited)
    }

    constructor()
      ensures State() == Idle
    {
      seen := {};
      emitted := [];
      exited := false;
    }

    /** One turn of the loop, updating the seen set in place. */
    method Handle(item: StreamItem)
      modifies this
      ensures State() == Step(old(State()), item)
    {
      match item {
        case Event(Apply(pod)) =>
          if pod.name.Some? {
            var key := PodKey(pod);
            var isNew := key !in seen;
            seen := seen + {key};
            var eventType := if isNew then Added else Modified;
            emitted := emitted + [PodWatchEvent(eventType, pod)];
          }
        case Event(Delete(pod)) =>
          if pod.name.Some? {
            seen := seen - {PodKey(pod)};
            emitted := emitted + [PodWatchEvent(Deleted, pod)];
          }
        case Event(Init) =>
        case Event(InitApply(_)) =>
        case Event(InitDone) =>
        case StreamError(e) =>
          emitted := emitted + [PodWatchError("Watch error: " + e)];
        case StreamEnd =>
          emitted := emitted + [PodWatchError("Watch stream ended")];
          exited := true;
        case StopSignal =>
          exited := true;
      }
    }

    /** The loop: takes items until it exits or they run out. */
    method Process(items: seq<StreamItem>)
      modifies this
      ensures State() == Run(old(State()), items)
    {
      var i := 0;
      while i < |items| && !exited
        invariant 0 <= i <= |items|
        invariant Run(State(), items[i..]) == Run(old(State()), items)
        decreases |items| - i
      {
        assert items[i..][0] == items[i];
        assert items[i..][1..] == items[i + 1..];
        Handle(items[i]);
        i := i + 1;
      }
    }
  }

  // ---------------------------------------------------------------------------
  // PodWatcher
  // ---------------------------------------------------------------------------

  /** The `JoinHandle` of a spawned task, and the `Sender` half of its stop channel. */
  datatype TaskHandle = TaskHandle(task: nat)
  datatype StopSender = StopSender(task: nat)

  class PodWatcher {
    var handle: Option<TaskHandle>
    var stopTx: Option<StopSender>

    /** `PodWatcher::new`: idle. */
    constructor()
      ensures handle.None? && stopTx.None?
      ensures !IsActive()
    {
      handle := None;
      stopTx := None;
    }

    /** `is_active`: a handle is held; whether its task has exited is not consulted. */
    predicate IsActive()
      reads this
    {
      handle.Some?
    }

    /**
     * `stop`: takes both slots, returning the sender that is signalled and the
     * handle that is aborted; an idle watcher is left as it was.
     */
    method Stop() returns (signalled: Option<StopSender>, aborted: Option<TaskHandle>)
      modifies this
      ensures signalled == old(stopTx) && aborted == old(handle)
      ensures handle.None? && stopTx.None?
      ensures !IsActive()
    {
      signalled := stopTx;
      stopTx := None;
      aborted := handle;
      handle := None;
    }

    /**
     * `start`: stops any previous task, then installs the handle and the stop
     * sender of the newly spawned task `task`; it always succeeds.
     */
    method Start(task: nat) returns (r: Result<(), string>, signalled: Option<StopSender>, stopped: Option<TaskHandle>)
      modifies this
      ensures signalled == old(stopTx) && stopped == old(handle)
      ensures r == Ok(())
      ensures handle == Some(TaskHandle(task)) && stopTx == Some(StopSender(task))
      ensures IsActive()
    {
      signalled, stopped := Stop();
      handle := Some(TaskHandle(task));
      stopTx := Some(StopSender(task));
      r := Ok(());
    }

    /** `Drop`: stops the watcher, signalling its sender and aborting its task as `stop` does. */
    method Drop() returns (signalled: Option<StopSender>, aborted: Option<TaskHandle>)
      modifies this
      ensures signalled == old(stopTx) && aborted == old(handle)
      ensures handle.None? && stopTx.None?
      ensures !IsActive()
    {
      signalled, aborted := Stop();
    }
  }

  /** Stopping an idle watcher signals nothing and aborts nothing. */
  method StopIdle(w: PodWatcher) returns (signalled: Option<StopSender>, aborted: Option<TaskHandle>)
    requires w.handle.None? && w.stopTx.None?
    modifies w
    ensures signalled.None? && aborted.None?
    ensures w.handle.None? && w.stopTx.None?
  {
    signalled, aborted := w.Stop();
  }

  /**
   * A watcher started on a task whose stream then ends stays active: the
   * task ending on its own never clears the watcher's handle. Only `stop` or
   * a new `start` does.
   */
  method StreamEndKeepsActive(task: nat, items: seq<StreamItem>) returns (w: PodWatcher, t: WatchTask)
    ensures w.IsActive() && w.handle == Some(TaskHandle(task))
    ensures t.exited
    ensures t.emitted == Run(Idle, items + [StreamEnd]).emitted
  {
    w := new PodWatcher();
    var _, _, _ := w.Start(task);
    t := new WatchTask();
    t.Process(items + [StreamEnd]);
    RunEndsExited(items);
  }

  /** Whatever came before, a run that reaches the end of the stream has exited. */
  lemma RunEndsExited(items: seq<StreamItem>)
    ensures Run(Idle, items + [StreamEnd]).exited
  {
    RunAppend(Idle, items, [StreamEnd]);
    var mid := Run(Idle, items);
    if !mid.exited {
      assert [StreamEnd][1..] == [];
    }
  }
}
