/**
 * commands/optimized.rs: `ClusterCache`, a per-context cache of the cluster
 * overview and of four resource lists, with a 30-second validity window, and
 * the two rules the optimized commands build on it: a context switch
 * invalidates the cache for the new context, and a cached overview is served
 * only while the cache is valid for the current context. Time is whole
 * seconds since the epoch, passed in where the source reads the system clock.
 */
module Optimized {
  import opened Outcome
  import opened Types

  /** A listed API object (node, namespace, pod or deployment), kept opaque. */
  datatype ApiObject = ApiObject(name: string)

  /** How long a cache entry stays valid, in seconds. */
  const TTL: nat := 30

  /** `last_updated.elapsed().unwrap_or_default().as_secs()`: a clock that ran backwards counts as 0. */
  function Elapsed(lastUpdated: int, now: int): (r: nat)
    ensures now >= lastUpdated ==> r == now - lastUpdated
    ensures now < lastUpdated ==> r == 0
  {
    if now >= lastUpdated then now - lastUpdated else 0
  }

  class ClusterCache {
    var overview: Option<ClusterOverview>
    var nodes: Option<seq<ApiObject>>
    var namespaces: Option<seq<ApiObject>>
    var pods: Option<seq<ApiObject>>
    var deployments: Option<seq<ApiObject>>
    var lastUpdated: int
    var contextName: string

    /** Nothing cached. */
    predicate Empty()
      reads this
    {
      overview.None? && nodes.None? && namespaces.None? && pods.None? && deployments.None?
    }

    /** `ClusterCache::new`: empty, stamped now, for the empty context name. */
    constructor(now: int)
      ensures Empty()
      ensures lastUpdated == now && contextName == ""
    {
      overview := None;
      nodes := None;
      namespaces := None;
      pods := None;
      deployments := None;
      lastUpdated := now;
      contextName := "";
    }

    /** `is_valid`: the cache is for `context` and was stamped fewer than 30 whole seconds ago. */
    predicate IsValid(context: string, now: int)
      reads this
    {
      contextName == context && Elapsed(lastUpdated, now) < TTL
    }

    /** `invalidate`: drops every cached value and restamps; the context name is kept. */
    method Invalidate(now: int)
      modifies this
      ensures Empty()
      ensures lastUpdated == now
      ensures contextName == old(contextName)
    {
      overview := None;
      nodes := None;
      namespaces := None;
      pods := None;
      deployments := None;
      lastUpdated := now;
    }

    /** The cache step of a successful optimized context switch. */
    method SwitchContext(context: string, now: int)
      modifies this
      ensures Empty()
      ensures contextName == context && lastUpdated == now
      ensures IsValid(context, now)
    {
      Invalidate(now);
      contextName := context;
    }

    /** The cache check of the optimized overview command: a hit needs validity and a stored overview. */
    method CachedOverview(context: string, now: int) returns (r: Option<ClusterOverview>)
      ensures r.Some? <==> (IsValid(context, now) && overview.Some?)
      ensures r.Some? ==> r.value == overview.value
    {
      if IsValid(context, now) {
        if overview.Some? {
          return Some(overview.value);
        }
      }
      return None;
    }

    /** The cache step after the overview is computed: stored, for `context`, stamped now. */
    method StoreOverview(o: ClusterOverview, context: string, now: int)
      modifies this
      ensures overview == Some(o) && contextName == context && lastUpdated == now
      ensures nodes == old(nodes) && namespaces == old(namespaces)
      ensures pods == old(pods) && deployments == old(deployments)
      ensures IsValid(context, now)
    {
      overview := Some(o);
      contextName := context;
      lastUpdated := now;
    }

    /** The cache check of the optimized node listing: a hit needs validity and a stored node list. */
    method CachedNodes(context: string, now: int) returns (r: Option<seq<ApiObject>>)
      ensures r.Some? <==> (IsValid(context, now) && nodes.Some?)
      ensures r.Some? ==> r.value == nodes.value
    {
      if IsValid(context, now) {
        if nodes.Some? {
          return Some(nodes.value);
        }
      }
      return None;
    }

    /** The cache step after a successful node listing: stored, for `context`, stamped now. */
    method StoreNodes(listed: seq<ApiObject>, context: string, now: int)
      modifies this
      ensures nodes == Some(listed) && contextName == context && lastUpdated == now
      ensures overview == old(overview) && namespaces == old(namespaces)
      ensures pods == old(pods) && deployments == old(deployments)
      ensures IsValid(context, now)
    {
      nodes := Some(listed);
      contextName := context;
      lastUpdated := now;
    }

    /**
     * The cache step of the batch loader: all four lists stored (a failed
     * listing is stored as empty), for `context`, stamped now; the overview is kept.
     */
    method StoreAll(listedNodes: Result<seq<ApiObject>, string>, listedNamespaces: Result<seq<ApiObject>, string>,
                    listedPods: Result<seq<ApiObject>, string>, listedDeployments: Result<seq<ApiObject>, string>,
                    context: string, now: int)
      modifies this
      ensures nodes == Some(if listedNodes.Ok? then listedNodes.value else [])
      ensures namespaces == Some(if listedNamespaces.Ok? then listedNamespaces.value else [])
      ensures pods == Some(if listedPods.Ok? then listedPods.value else [])
      ensures deployments == Some(if listedDeployments.Ok? then listedDeployments.value else [])
      ensures overview == old(overview)
      ensures contextName == context && lastUpdated == now
      ensures IsValid(context, now)
    {
      nodes := Some(OrEmpty(listedNodes));
      namespaces := Some(OrEmpty(listedNamespaces));
      pods := Some(OrEmpty(listedPods));
      deployments := Some(OrEmpty(listedDeployments));
      contextName := context;
      lastUpdated := now;
    }
  }

  /** `result.map(|l| l.items).unwrap_or_default()`: a failed listing counts as an empty one. */
  function OrEmpty(listed: Result<seq<ApiObject>, string>): (r: seq<ApiObject>)
    ensures listed.Ok? ==> r == listed.value
    ensures listed.Err? ==> r == []
  {
    if listed.Ok? then listed.value else []
  }

  /** After the batch loader, a node lookup for the same context within the window is served from the cache. */
  method StoreAllThenNodes(c: ClusterCache, listed: seq<ApiObject>, context: string, stamp: int, now: int)
    returns (hit: Option<seq<ApiObject>>)
    modifies c
    ensures now < stamp + TTL ==> hit == Some(listed)
    ensures now >= stamp + TTL ==> hit.None?
  {
    c.StoreAll(Ok(listed), Err("nodes"), Err("pods"), Err("deployments"), context, stamp);
    hit := c.CachedNodes(context, now);
  }

  /**
   * Validity of a cache stamped at `stamp` for `name`: it holds for `context`
   * at `now` exactly when the names match and `now` is before `stamp + 30`
   * (any time before the stamp included).
   */
  lemma ValidWindow(name: string, stamp: int, context: string, now: int)
    ensures (name == context && Elapsed(stamp, now) < TTL) <==> (name == context && now < stamp + TTL)
  {
  }

  /** Once a cache has expired for a context, it stays expired as the clock moves on. */
  lemma ExpiryIsPermanent(stamp: int, now: int, later: int)
    requires Elapsed(stamp, now) >= TTL && later >= now
    ensures Elapsed(stamp, later) >= TTL
  {
  }

  /** A cache is never valid for a context other than its own. */
  lemma OtherContextInvalid(c: ClusterCache, context: string, now: int)
    requires c.contextName != context
    ensures !c.IsValid(context, now)
  {
  }

  /** A stored overview is served back for its context within the window, and not after. */
  method StoreThenLookup(c: ClusterCache, o: ClusterOverview, context: string, stamp: int, now: int)
    returns (hit: Option<ClusterOverview>)
    modifies c
    ensures now < stamp + TTL ==> hit == Some(o)
    ensures now >= stamp + TTL ==> hit.None?
  {
    c.StoreOverview(o, context, stamp);
    hit := c.CachedOverview(context, now);
  }

  /** Right after a context switch there is nothing to serve, even though the cache is valid. */
  method SwitchThenLookup(c: ClusterCache, context: string, now: int) returns (hit: Option<ClusterOverview>)
    modifies c
    ensures hit.None?
    ensures c.IsValid(context, now)
  {
    c.SwitchContext(context, now);
    hit := c.CachedOverview(context, now);
  }
}
