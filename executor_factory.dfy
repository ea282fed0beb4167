/**
 * The factory that configures multiple-node graph executors: five job
 * partitioning bounds, the function-cost statistics, and the cache of
 * execution plans that every configuration change must empty.
 */
module ExecutorFactory {
  import opened Common

  /** Capacity of the plan cache installed when none was configured. */
  const DEFAULT_EXECUTION_PLAN_CACHE: Int32 := 100

  /** The function-cost statistics object; its contents are not modelled. */
  class FunctionCost {
    constructor () {}
  }

  /** A computation cycle, only passed through to the executor. */
  datatype SingleComputationCycle = SingleComputationCycle(cycleId: nat)

  /** A partitioned execution plan, identified only by the graph it was built for. */
  datatype ExecutionPlan = ExecutionPlan(graphId: nat)

  /**
   * The execution-plan cache, seen as a bounded container of plans keyed by
   * graph identity; its eviction policy is not modelled.
   */
  class ExecutionPlanCache {
    var capacity: Int32
    var plans: map<nat, ExecutionPlan>

    constructor (size: Int32)
      ensures capacity == size && plans == map[]
    {
      capacity := size;
      plans := map[];
    }

    function Get(graphId: nat): (r: Option<ExecutionPlan>)
      reads this
      ensures r.Some? <==> graphId in plans
      ensures r.Some? ==> r.value == plans[graphId]
    {
      if graphId in plans then Some(plans[graphId]) else None
    }

    method Put(graphId: nat, plan: ExecutionPlan)
      modifies this
      ensures plans == old(plans)[graphId := plan] && capacity == old(capacity)
    {
      plans := plans[graphId := plan];
    }

    method Clear()
      modifies this
      ensures plans == map[] && capacity == old(capacity)
    {
      plans := map[];
    }
  }

  /** The executor the factory hands out: the bounds, the cost object and the cache, as passed. */
  datatype MultipleNodeExecutor = MultipleNodeExecutor(
    cycle: SingleComputationCycle,
    minimumJobItems: Int32,
    maximumJobItems: Int32,
    minimumJobCost: Int64,
    maximumJobCost: Int64,
    maximumConcurrency: Int32,
    functionCost: FunctionCost?,
    executionPlanCache: ExecutionPlanCache?)

  /** The partitioning parameters and cost object of a factory, as one value. */
  datatype Configuration = Configuration(
    minimumJobItems: Int32,
    maximumJobItems: Int32,
    minimumJobCost: Int64,
    maximumJobCost: Int64,
    maximumConcurrency: Int32,
    functionCost: FunctionCost?)

  class MultipleNodeExecutorFactory {
    var executionPlanCache: ExecutionPlanCache?
    var minimumJobItems: Int32
    var maximumJobItems: Int32
    var minimumJobCost: Int64
    var maximumJobCost: Int64
    var maximumConcurrency: Int32
    var functionCost: FunctionCost?

    /** Everything but the cache. */
    function Config(): (c: Configuration)
      reads this
      ensures c.functionCost == functionCost && c.maximumConcurrency == maximumConcurrency
    {
      Configuration(minimumJobItems, maximumJobItems, minimumJobCost, maximumJobCost,
                    maximumConcurrency, functionCost)
    }

    /**
     * The cache object is the same as before and, if there is one, it holds
     * no plans and keeps its capacity.
     */
    twostate predicate CacheInvalidated()
      reads this, executionPlanCache
    {
      && executionPlanCache == old(executionPlanCache)
      && (executionPlanCache != null ==>
            executionPlanCache.plans == map[] && executionPlanCache.capacity == old(executionPlanCache.capacity))
    }

    constructor ()
      ensures minimumJobItems == 1 && maximumJobItems == INT32_MAX
      ensures minimumJobCost == 1 && maximumJobCost == INT64_MAX
      ensures maximumConcurrency == INT32_MAX
      ensures executionPlanCache == null && functionCost == null
    {
      executionPlanCache := null;
      minimumJobItems := 1;
      maximumJobItems := INT32_MAX;
      minimumJobCost := 1;
      maximumJobCost := INT64_MAX;
      maximumConcurrency := INT32_MAX;
      functionCost := null;
    }

    /** Empties the cache if there is one; never creates one. */
    method InvalidateExecutionPlanCache()
      modifies executionPlanCache
      ensures CacheInvalidated()
      ensures executionPlanCache == null ==> unchanged(this)
    {
      if executionPlanCache != null {
        executionPlanCache.Clear();
      }
    }

    method SetMinimumJobItems(minimumJobItems: Int32)
      modifies this, executionPlanCache
      ensures Config() == old(Config()).(minimumJobItems := minimumJobItems)
      ensures CacheInvalidated()
    {
      this.minimumJobItems := minimumJobItems;
      InvalidateExecutionPlanCache();
    }

    method SetMaximumJobItems(maximumJobItems: Int32)
      modifies this, executionPlanCache
      ensures Config() == old(Config()).(maximumJobItems := maximumJobItems)
      ensures CacheInvalidated()
    {
      this.maximumJobItems := maximumJobItems;
      InvalidateExecutionPlanCache();
    }

    method SetMinimumJobCost(minimumJobCost: Int64)
      modifies this, executionPlanCache
      ensures Config() == old(Config()).(minimumJobCost := minimumJobCost)
      ensures CacheInvalidated()
    {
      this.minimumJobCost := minimumJobCost;
      InvalidateExecutionPlanCache();
    }

    method SetMaximumJobCost(maximumJobCost: Int64)
      modifies this, executionPlanCache
      ensures Config() == old(Config()).(maximumJobCost := maximumJobCost)
      ensures CacheInvalidated()
    {
      this.maximumJobCost := maximumJobCost;
      InvalidateExecutionPlanCache();
    }

    /** The number of job tails expected to run in parallel on one node host. */
    method SetMaximumConcurrency(maximumConcurrency: Int32)
      modifies this, executionPlanCache
      ensures Config() == old(Config()).(maximumConcurrency := maximumConcurrency)
      ensures CacheInvalidated()
    {
      this.maximumConcurrency := maximumConcurrency;
      InvalidateExecutionPlanCache();
    }

    /** Rejects null before touching anything; otherwise stores the cost and empties the cache. */
    method SetFunctionCost(functionCost: FunctionCost?) returns (outcome: Outcome)
      modifies this, executionPlanCache
      ensures functionCost == null ==> outcome == Fail(NullArgument("functionCost"))
      ensures functionCost == null ==> unchanged(this)
      ensures functionCost == null && executionPlanCache != null ==> unchanged(executionPlanCache)
      ensures functionCost != null ==> outcome == Pass
      ensures functionCost != null ==> Config() == old(Config()).(functionCost := functionCost)
      ensures functionCost != null ==> CacheInvalidated()
    {
      if functionCost == null {
        return Fail(NullArgument("functionCost"));
      }
      this.functionCost := functionCost;
      InvalidateExecutionPlanCache();
      outcome := Pass;
    }

    /** Installs a new, empty cache; the previous cache object is left as it was. */
    method SetCacheSize(size: Int32)
      modifies this
      ensures fresh(executionPlanCache)
      ensures executionPlanCache.capacity == size && executionPlanCache.plans == map[]
      ensures Config() == old(Config())
    {
      executionPlanCache := new ExecutionPlanCache(size);
    }

    /** Passes the current bounds, cost object and cache through to a new executor. */
    method CreateExecutor(cycle: Option<SingleComputationCycle>) returns (r: Result<MultipleNodeExecutor>)
      ensures cycle.None? ==> r == Failure(NullArgument("cycle"))
      ensures cycle.Some? ==> r.Success?
      ensures r.Success? ==>
        && r.value.cycle == cycle.value
        && r.value.minimumJobItems == minimumJobItems
        && r.value.maximumJobItems == maximumJobItems
        && r.value.minimumJobCost == minimumJobCost
        && r.value.maximumJobCost == maximumJobCost
        && r.value.maximumConcurrency == maximumConcurrency
        && r.value.functionCost == functionCost
        && r.value.executionPlanCache == executionPlanCache
    {
      if cycle.None? {
        return Failure(NullArgument("cycle"));
      }
      r := Success(MultipleNodeExecutor(cycle.value, minimumJobItems, maximumJobItems, minimumJobCost,
                                        maximumJobCost, maximumConcurrency, functionCost, executionPlanCache));
    }

    /**
     * Fills in what configuration left out: a fresh cost object (whose setter
     * empties an existing cache) and a default-sized cache. Afterwards both are
     * present, so a second call changes nothing.
     */
    method AfterPropertiesSet()
      modifies this, executionPlanCache
      ensures functionCost != null && executionPlanCache != null
      ensures old(functionCost) != null ==> functionCost == old(functionCost)
      ensures old(functionCost) == null ==> fresh(functionCost)
      ensures old(executionPlanCache) != null ==> executionPlanCache == old(executionPlanCache)
      ensures old(executionPlanCache) == null ==>
        fresh(executionPlanCache) && executionPlanCache.capacity == DEFAULT_EXECUTION_PLAN_CACHE
        && executionPlanCache.plans == map[]
      ensures old(executionPlanCache) != null && old(functionCost) == null ==>
        executionPlanCache.plans == map[] && executionPlanCache.capacity == old(executionPlanCache.capacity)
      ensures old(functionCost) != null && old(executionPlanCache) != null ==>
        unchanged(this) && unchanged(executionPlanCache)
      ensures Config().(functionCost := null) == old(Config()).(functionCost := null)
    {
      if functionCost == null {
        var cost := new FunctionCost();
        var outcome := SetFunctionCost(cost);
      }
      if executionPlanCache == null {
        SetCacheSize(DEFAULT_EXECUTION_PLAN_CACHE);
      }
    }
  }

  /** One call of one of the five partitioning-bound setters. */
  datatype BoundChange =
    | NewMinimumJobItems(items: Int32)
    | NewMaximumJobItems(items: Int32)
    | NewMinimumJobCost(cost: Int64)
    | NewMaximumJobCost(cost: Int64)
    | NewMaximumConcurrency(concurrency: Int32)

  /** The configuration after `change`. */
  function Changed(c: Configuration, change: BoundChange): (r: Configuration)
    ensures r.functionCost == c.functionCost
  {
    match change
    case NewMinimumJobItems(n) => c.(minimumJobItems := n)
    case NewMaximumJobItems(n) => c.(maximumJobItems := n)
    case NewMinimumJobCost(n) => c.(minimumJobCost := n)
    case NewMaximumJobCost(n) => c.(maximumJobCost := n)
    case NewMaximumConcurrency(n) => c.(maximumConcurrency := n)
  }

  /**
   * A plan cached before any bound changes is never found afterwards,
   * whichever of the five setters is called: the partitioning parameters
   * and the cache cannot disagree.
   */
  method StalePlanIsNeverServed(factory: MultipleNodeExecutorFactory, graphId: nat, plan: ExecutionPlan,
                                change: BoundChange)
    returns (before: Option<ExecutionPlan>, after: Option<ExecutionPlan>)
    requires factory.executionPlanCache != null
    modifies factory, factory.executionPlanCache
    ensures before == Some(plan) && after == None
    ensures factory.Config() == Changed(old(factory.Config()), change)
  {
    factory.executionPlanCache.Put(graphId, plan);
    before := factory.executionPlanCache.Get(graphId);
    match change {
      case NewMinimumJobItems(n) => factory.SetMinimumJobItems(n);
      case NewMaximumJobItems(n) => factory.SetMaximumJobItems(n);
      case NewMinimumJobCost(n) => factory.SetMinimumJobCost(n);
      case NewMaximumJobCost(n) => factory.SetMaximumJobCost(n);
      case NewMaximumConcurrency(n) => factory.SetMaximumConcurrency(n);
    }
    after := factory.executionPlanCache.Get(graphId);
  }

  /**
   * The setters never compare the bounds: a minimum above the maximum is
   * accepted and handed to the executor as it is.
   */
  method InvertedBoundsPassThrough(minimum: Int32, maximum: Int32) returns (r: Result<MultipleNodeExecutor>)
    ensures r.Success?
    ensures r.value.minimumJobItems == minimum && r.value.maximumJobItems == maximum
  {
    var factory := new MultipleNodeExecutorFactory();
    factory.SetMinimumJobItems(minimum);
    factory.SetMaximumJobItems(maximum);
    r := factory.CreateExecutor(Some(SingleComputationCycle(0)));
  }
}
