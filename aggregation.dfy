/**
 * ComputeClusterCosts after its queries have returned: the data-minutes
 * fallback, the discount settings, the four cost queries folded into
 * costData, the two breakdown loops, and the conversion of costData into one
 * ClusterCosts per cluster.
 */
module ClusterAggregation {
  import opened Wrappers
  import opened QueryResults
  import opened ClusterCostModel
  import opened Accumulation
  import opened Breakdowns

  /**
   * The parsed results of the queries ComputeClusterCosts drains, in the
   * order it issues them. A query that failed contributes no series.
   */
  datatype QueryBatch = QueryBatch(
    dataCount: seq<QueryResult>,
    totalGPU: seq<QueryResult>,
    totalCPU: seq<QueryResult>,
    totalRAM: seq<QueryResult>,
    totalStorage: seq<QueryResult>,
    cpuModePct: seq<QueryResult>,
    ramSystemPct: seq<QueryResult>)

  /**
   * The two discount settings of the provider's configuration, each already
   * run through ParsePercentString: None where that parse failed.
   */
  datatype DiscountConfig = DiscountConfig(discount: Option<real>, negotiatedDiscount: Option<real>)

  /**
   * The general discount, which applies to CPU and RAM only: the parsed
   * setting, or zero when the configuration or the percentage could not be read.
   */
  function DiscountOf(config: Option<DiscountConfig>): (d: real)
    ensures config.Some? && config.value.discount.Some? ==> d == config.value.discount.value
    ensures config.None? || config.value.discount.None? ==> d == 0.0
  {
    if config.Some? && config.value.discount.Some? then config.value.discount.value else 0.0
  }

  /**
   * The negotiated (custom) discount, which applies to every category: the
   * parsed setting, or zero when the configuration or the percentage could
   * not be read.
   */
  function CustomDiscountOf(config: Option<DiscountConfig>): (d: real)
    ensures config.Some? && config.value.negotiatedDiscount.Some? ==> d == config.value.negotiatedDiscount.value
    ensures config.None? || config.value.negotiatedDiscount.None? ==> d == 0.0
  {
    if config.Some? && config.value.negotiatedDiscount.Some? then config.value.negotiatedDiscount.value else 0.0
  }

  /**
   * The minutes of data behind the costs: the first value of the data-count
   * query when it has one, otherwise the minutes of the whole window.
   */
  function DataMins(dataCount: seq<QueryResult>, mins: real): (m: real)
    ensures |dataCount| > 0 && HasValues(dataCount[0]) ==> m == dataCount[0].values[0].value
    ensures dataCount == [] || !HasValues(dataCount[0]) ==> m == mins
  {
    if |dataCount| > 0 && HasValues(dataCount[0]) then dataCount[0].values[0].value else mins
  }

  /**
   * The hours of data passed on to NewClusterCostsFromCumulative: the data
   * minutes over sixty, so a reported count of minutes becomes hours.
   */
  function DataHours(dataCount: seq<QueryResult>, w: TimeRange): (h: real)
    ensures |dataCount| > 0 && HasValues(dataCount[0]) ==> h * MinsPerHour == dataCount[0].values[0].value
  {
    DataMins(dataCount, Minutes(w)) / MinsPerHour
  }

  /** Without a data count the costs are spread over the whole window. */
  lemma MissingDataCountUsesWindow(dataCount: seq<QueryResult>, w: TimeRange)
    requires dataCount == [] || !HasValues(dataCount[0])
    ensures DataHours(dataCount, w) == Hours(w)
  {
  }

  /** costData after the GPU and CPU calls of setCostsFromResults. */
  function AfterGpuAndCpu(batch: QueryBatch, discount: real, customDiscount: real, defaultID: string): CostData
  {
    Accumulate(Accumulate(map[], batch.totalGPU, Gpu, 0.0, customDiscount, defaultID),
               batch.totalCPU, Cpu, discount, customDiscount, defaultID)
  }

  /** costData after the four calls of setCostsFromResults, in the source's order. */
  function CostDataOf(batch: QueryBatch, discount: real, customDiscount: real, defaultID: string): CostData
  {
    Accumulate(Accumulate(AfterGpuAndCpu(batch, discount, customDiscount, defaultID),
                          batch.totalRAM, Ram, discount, customDiscount, defaultID),
               batch.totalStorage, Storage, 0.0, customDiscount, defaultID)
  }

  /** The clusters that receive an entry: those named by any series of the four cost queries. */
  function CostClusters(batch: QueryBatch, defaultID: string): set<string>
  {
    Clusters(batch.totalGPU, defaultID) + Clusters(batch.totalCPU, defaultID)
    + Clusters(batch.totalRAM, defaultID) + Clusters(batch.totalStorage, defaultID)
  }

  /** costData holds an entry for exactly the clusters of the four cost queries. */
  lemma CostDataKeys(batch: QueryBatch, discount: real, customDiscount: real, defaultID: string)
    ensures CostDataOf(batch, discount, customDiscount, defaultID).Keys == CostClusters(batch, defaultID)
  {
    var gpu := Accumulate(map[], batch.totalGPU, Gpu, 0.0, customDiscount, defaultID);
    var cpu := AfterGpuAndCpu(batch, discount, customDiscount, defaultID);
    var ram := Accumulate(cpu, batch.totalRAM, Ram, discount, customDiscount, defaultID);
    AccumulateKeys(map[], batch.totalGPU, Gpu, 0.0, customDiscount, defaultID);
    AccumulateKeys(gpu, batch.totalCPU, Cpu, discount, customDiscount, defaultID);
    AccumulateKeys(cpu, batch.totalRAM, Ram, discount, customDiscount, defaultID);
    AccumulateKeys(ram, batch.totalStorage, Storage, 0.0, customDiscount, defaultID);
  }

  lemma DiscountedSumIsQueryCost(rs: seq<QueryResult>, k: string, discount: real, customDiscount: real, defaultID: string)
    ensures DiscountedSum(rs, k, discount, customDiscount, defaultID) == QueryCost(rs, k, discount, customDiscount, defaultID)
  {
    DiscountedSumIsScaledSum(rs, k, discount, customDiscount, defaultID);
  }

  /** What a stage adds to category `c` of cluster `k`. */
  function StageAmount(rs: seq<QueryResult>, name: Category, discount: real, customDiscount: real,
                       defaultID: string, k: string, c: Category): real
  {
    if c == name || c == Total then DiscountedSum(rs, k, discount, customDiscount, defaultID) else 0.0
  }

  lemma FirstStages(batch: QueryBatch, discount: real, customDiscount: real, defaultID: string, k: string, c: Category)
    ensures Cost(AfterGpuAndCpu(batch, discount, customDiscount, defaultID), k, c)
         == StageAmount(batch.totalGPU, Gpu, 0.0, customDiscount, defaultID, k, c)
          + StageAmount(batch.totalCPU, Cpu, discount, customDiscount, defaultID, k, c)
  {
    var gpu := Accumulate(map[], batch.totalGPU, Gpu, 0.0, customDiscount, defaultID);
    AccumulateAt(map[], batch.totalGPU, Gpu, 0.0, customDiscount, defaultID, k, c);
    AccumulateAt(gpu, batch.totalCPU, Cpu, discount, customDiscount, defaultID, k, c);
  }

  lemma LastStages(batch: QueryBatch, discount: real, customDiscount: real, defaultID: string, k: string, c: Category)
    ensures Cost(CostDataOf(batch, discount, customDiscount, defaultID), k, c)
         == Cost(AfterGpuAndCpu(batch, discount, customDiscount, defaultID), k, c)
          + StageAmount(batch.totalRAM, Ram, discount, customDiscount, defaultID, k, c)
          + StageAmount(batch.totalStorage, Storage, 0.0, customDiscount, defaultID, k, c)
  {
    var cpu := AfterGpuAndCpu(batch, discount, customDiscount, defaultID);
    var ram := Accumulate(cpu, batch.totalRAM, Ram, discount, customDiscount, defaultID);
    AccumulateAt(cpu, batch.totalRAM, Ram, discount, customDiscount, defaultID, k, c);
    AccumulateAt(ram, batch.totalStorage, Storage, 0.0, customDiscount, defaultID, k, c);
  }

  /**
   * Each category of costData is the sum of its own query's leading values:
   * CPU and RAM scaled by both discounts, GPU and storage by the negotiated
   * discount only.
   */
  lemma CostDataFigures(batch: QueryBatch, discount: real, customDiscount: real, defaultID: string, k: string)
    ensures var cd := CostDataOf(batch, discount, customDiscount, defaultID);
            && Cost(cd, k, Cpu) == QueryCost(batch.totalCPU, k, discount, customDiscount, defaultID)
            && Cost(cd, k, Gpu) == QueryCost(batch.totalGPU, k, 0.0, customDiscount, defaultID)
            && Cost(cd, k, Ram) == QueryCost(batch.totalRAM, k, discount, customDiscount, defaultID)
            && Cost(cd, k, Storage) == QueryCost(batch.totalStorage, k, 0.0, customDiscount, defaultID)
  {
    FirstStages(batch, discount, customDiscount, defaultID, k, Cpu);
    LastStages(batch, discount, customDiscount, defaultID, k, Cpu);
    FirstStages(batch, discount, customDiscount, defaultID, k, Gpu);
    LastStages(batch, discount, customDiscount, defaultID, k, Gpu);
    FirstStages(batch, discount, customDiscount, defaultID, k, Ram);
    LastStages(batch, discount, customDiscount, defaultID, k, Ram);
    FirstStages(batch, discount, customDiscount, defaultID, k, Storage);
    LastStages(batch, discount, customDiscount, defaultID, k, Storage);
    DiscountedSumIsQueryCost(batch.totalCPU, k, discount, customDiscount, defaultID);
    DiscountedSumIsQueryCost(batch.totalGPU, k, 0.0, customDiscount, defaultID);
    DiscountedSumIsQueryCost(batch.totalRAM, k, discount, customDiscount, defaultID);
    DiscountedSumIsQueryCost(batch.totalStorage, k, 0.0, customDiscount, defaultID);
  }

  /** costData's running "total" always equals the sum of the four categories. */
  lemma CostDataTotals(batch: QueryBatch, discount: real, customDiscount: real, defaultID: string)
    ensures TotalsConsistent(CostDataOf(batch, discount, customDiscount, defaultID))
  {
    var gpu := Accumulate(map[], batch.totalGPU, Gpu, 0.0, customDiscount, defaultID);
    var cpu := AfterGpuAndCpu(batch, discount, customDiscount, defaultID);
    var ram := Accumulate(cpu, batch.totalRAM, Ram, discount, customDiscount, defaultID);
    AccumulateKeepsTotals(map[], batch.totalGPU, Gpu, 0.0, customDiscount, defaultID);
    AccumulateKeepsTotals(gpu, batch.totalCPU, Cpu, discount, customDiscount, defaultID);
    AccumulateKeepsTotals(cpu, batch.totalRAM, Ram, discount, customDiscount, defaultID);
    AccumulateKeepsTotals(ram, batch.totalStorage, Storage, 0.0, customDiscount, defaultID);
  }

  /** A cluster's entry in a breakdown map, if it has one. */
  function EntryOf(bd: BreakdownMap, id: string): Option<Breakdown>
  {
    if id in bd then Some(bd[id]) else None
  }

  /** A conversion's outcome with the CPU and RAM breakdowns set. */
  function WithBreakdowns(costs: Result<ClusterCosts, CostError>, cpu: Option<Breakdown>, ram: Option<Breakdown>)
    : Result<ClusterCosts, CostError>
  {
    if costs.Failure? then Failure(costs.error)
    else Success(costs.value.(cpuBreakdown := cpu, ramBreakdown := ram))
  }

  /** The ClusterCosts the conversion loop builds for cluster `id`, or the error it stops with. */
  function EntryFor(costData: CostData, id: string, cpuBD: BreakdownMap, ramBD: BreakdownMap,
                    parsed: Result<TimeRange, string>, window: string, offset: string, dataHours: real)
    : Result<ClusterCosts, CostError>
  {
    WithBreakdowns(NewClusterCostsFromCumulative(Cost(costData, id, Cpu), Cost(costData, id, Gpu),
                                                 Cost(costData, id, Ram), Cost(costData, id, Storage),
                                                 parsed, window, offset, dataHours),
                   EntryOf(cpuBD, id), EntryOf(ramBD, id))
  }

  /** Whether the window and the data hours leave no time to spread the costs over. */
  predicate NoHours(parsed: Result<TimeRange, string>, dataHours: real)
  {
    parsed.Failure? || EffectiveHours(parsed.value, dataHours) == 0.0
  }

  /**
   * The conversion loop: one ClusterCosts per costData entry, carrying the
   * CPU and RAM breakdowns of its cluster when there are any. A single
   * failing conversion discards everything built so far, and since the
   * failure depends only on the window and the data hours, the result fails
   * exactly when costData is not empty and there are no hours.
   */
  method Materialise(costData: CostData, cpuBD: BreakdownMap, ramBD: BreakdownMap,
                     parsed: Result<TimeRange, string>, window: string, offset: string, dataHours: real)
    returns (r: Result<map<string, ClusterCosts>, CostError>)
    ensures r.Failure? <==> costData != map[] && NoHours(parsed, dataHours)
    ensures r.Failure? && parsed.Failure? ==> r.error == RangeParseFailure(parsed.error)
    ensures r.Failure? && parsed.Success? ==> r.error == IllegalTimeRange(window, offset)
    ensures r.Success? ==> r.value.Keys == costData.Keys
    ensures r.Success? ==> forall id :: id in r.value ==>
              EntryFor(costData, id, cpuBD, ramBD, parsed, window, offset, dataHours) == Success(r.value[id])
  {
    var costsByCluster: map<string, ClusterCosts> := map[];
    var remaining := costData.Keys;
    while remaining != {}
      invariant remaining <= costData.Keys
      invariant costsByCluster.Keys == costData.Keys - remaining
      invariant remaining != costData.Keys ==> !NoHours(parsed, dataHours)
      invariant forall id :: id in costsByCluster ==>
                  EntryFor(costData, id, cpuBD, ramBD, parsed, window, offset, dataHours) == Success(costsByCluster[id])
      decreases remaining
    {
      var id :| id in remaining;
      var cd := costData[id];
      var costs := NewClusterCostsFromCumulative(Lookup(cd, Cpu), Lookup(cd, Gpu), Lookup(cd, Ram), Lookup(cd, Storage),
                                                 parsed, window, offset, dataHours);
      if costs.Failure? {
        return Failure(costs.error);
      }
      var c := costs.value;
      if id in cpuBD {
        c := c.(cpuBreakdown := Some(cpuBD[id]));
      }
      if id in ramBD {
        c := c.(ramBreakdown := Some(ramBD[id]));
      }
      assert Success(c) == EntryFor(costData, id, cpuBD, ramBD, parsed, window, offset, dataHours);
      costsByCluster := costsByCluster[id := c];
      remaining := remaining - {id};
    }
    return Success(costsByCluster);
  }

  /**
   * What ComputeClusterCosts promises cluster `k`, stated from the queries
   * alone: each category is its query's sum, discounted; the CPU breakdown
   * sums the CPU-mode series by mode and the RAM breakdown sums the
   * RAM-system series into `system`, each present only for a cluster that
   * has such a series.
   */
  function ExpectedCosts(batch: QueryBatch, config: Option<DiscountConfig>, w: TimeRange,
                         window: string, offset: string, defaultID: string, k: string)
    : Result<ClusterCosts, CostError>
  {
    var discount := DiscountOf(config);
    var customDiscount := CustomDiscountOf(config);
    WithBreakdowns(
      NewClusterCostsFromCumulative(
        QueryCost(batch.totalCPU, k, discount, customDiscount, defaultID),
        QueryCost(batch.totalGPU, k, 0.0, customDiscount, defaultID),
        QueryCost(batch.totalRAM, k, discount, customDiscount, defaultID),
        QueryCost(batch.totalStorage, k, 0.0, customDiscount, defaultID),
        Success(w), window, offset, DataHours(batch.dataCount, w)),
      ExpectedCpuBreakdown(batch.cpuModePct, k, defaultID),
      ExpectedRamBreakdown(batch.ramSystemPct, k, defaultID))
  }

  /** A cost query's sum for cluster `k`, scaled by the two discounts. */
  function QueryCost(rs: seq<QueryResult>, k: string, discount: real, customDiscount: real, defaultID: string): real
  {
    ClusterSum(rs, k, defaultID) * Factor(discount, customDiscount)
  }

  /** The CPU breakdown a cluster is given: its mode sums, if it has a CPU-mode series. */
  function ExpectedCpuBreakdown(rs: seq<QueryResult>, k: string, defaultID: string): Option<Breakdown>
  {
    if k in Clusters(rs, defaultID) then Some(CpuBreakdownOf(rs, k, defaultID)) else None
  }

  /** The RAM breakdown a cluster is given: its system sum, if it has a RAM-system series. */
  function ExpectedRamBreakdown(rs: seq<QueryResult>, k: string, defaultID: string): Option<Breakdown>
  {
    if k in Clusters(rs, defaultID) then Some(RamBreakdownOf(rs, k, defaultID)) else None
  }

  lemma ZeroPlus(b: Breakdown)
    ensures Plus(ZeroBreakdown, b) == b
  {
  }

  /** The CPU breakdown map holds, for exactly the clusters with a CPU-mode series, their mode sums. */
  lemma CpuBreakdownEntry(rs: seq<QueryResult>, defaultID: string, k: string)
    requires AllHaveValues(rs)
    ensures EntryOf(CpuFold(map[], rs, defaultID), k) == ExpectedCpuBreakdown(rs, k, defaultID)
  {
    CpuFoldKeys(map[], rs, defaultID);
    CpuFoldSums(map[], rs, defaultID, k);
    ZeroPlus(CpuBreakdownOf(rs, k, defaultID));
  }

  /** The RAM breakdown map holds, for exactly the clusters with a RAM-system series, their sums. */
  lemma RamBreakdownEntry(rs: seq<QueryResult>, defaultID: string, k: string)
    requires AllHaveValues(rs)
    ensures EntryOf(RamFold(map[], rs, defaultID), k) == ExpectedRamBreakdown(rs, k, defaultID)
  {
    RamFoldKeys(map[], rs, defaultID);
    RamFoldSums(map[], rs, defaultID, k);
    ZeroPlus(RamBreakdownOf(rs, k, defaultID));
  }

  /** Any costData and breakdown maps with the expected figures for `k` yield the expected entry. */
  lemma EntryFromFigures(batch: QueryBatch, config: Option<DiscountConfig>, w: TimeRange,
                         window: string, offset: string, defaultID: string, k: string,
                         cd: CostData, cpuBD: BreakdownMap, ramBD: BreakdownMap)
    requires Cost(cd, k, Cpu) == QueryCost(batch.totalCPU, k, DiscountOf(config), CustomDiscountOf(config), defaultID)
    requires Cost(cd, k, Gpu) == QueryCost(batch.totalGPU, k, 0.0, CustomDiscountOf(config), defaultID)
    requires Cost(cd, k, Ram) == QueryCost(batch.totalRAM, k, DiscountOf(config), CustomDiscountOf(config), defaultID)
    requires Cost(cd, k, Storage) == QueryCost(batch.totalStorage, k, 0.0, CustomDiscountOf(config), defaultID)
    requires EntryOf(cpuBD, k) == ExpectedCpuBreakdown(batch.cpuModePct, k, defaultID)
    requires EntryOf(ramBD, k) == ExpectedRamBreakdown(batch.ramSystemPct, k, defaultID)
    ensures EntryFor(cd, k, cpuBD, ramBD, Success(w), window, offset, DataHours(batch.dataCount, w))
         == ExpectedCosts(batch, config, w, window, offset, defaultID, k)
  {
  }

  /** The entry the conversion loop builds from the folded maps is the expected one. */
  lemma EntryIsExpected(batch: QueryBatch, config: Option<DiscountConfig>, w: TimeRange,
                        window: string, offset: string, defaultID: string, k: string)
    requires AllHaveValues(batch.cpuModePct) && AllHaveValues(batch.ramSystemPct)
    ensures EntryFor(CostDataOf(batch, DiscountOf(config), CustomDiscountOf(config), defaultID), k,
                     CpuFold(map[], batch.cpuModePct, defaultID), RamFold(map[], batch.ramSystemPct, defaultID),
                     Success(w), window, offset, DataHours(batch.dataCount, w))
         == ExpectedCosts(batch, config, w, window, offset, defaultID, k)
  {
    var discount := DiscountOf(config);
    var customDiscount := CustomDiscountOf(config);
    var cd := CostDataOf(batch, discount, customDiscount, defaultID);
    CostDataFigures(batch, discount, customDiscount, defaultID, k);
    CpuBreakdownEntry(batch.cpuModePct, defaultID, k);
    RamBreakdownEntry(batch.ramSystemPct, defaultID, k);
    EntryFromFigures(batch, config, w, window, offset, defaultID, k,
                     cd, CpuFold(map[], batch.cpuModePct, defaultID), RamFold(map[], batch.ramSystemPct, defaultID));
  }

  /**
   * ComputeClusterCosts from the point where its queries have returned: a
   * time range that does not parse is an error; otherwise every cluster
   * named by a cost query gets the costs ExpectedCosts describes, and the
   * whole call fails when there is such a cluster but no hours to spread
   * its costs over. The CPU-mode and RAM-system loops read each series'
   * first value unchecked, so their series must all have one.
   */
  method ComputeClusterCosts(batch: QueryBatch, parsed: Result<TimeRange, string>, config: Option<DiscountConfig>,
                             defaultID: string, window: string, offset: string)
    returns (r: Result<map<string, ClusterCosts>, CostError>)
    requires AllHaveValues(batch.cpuModePct) && AllHaveValues(batch.ramSystemPct)
    ensures parsed.Failure? ==> r == Failure(RangeParseFailure(parsed.error))
    ensures parsed.Success? ==>
              (r.Failure? <==> CostClusters(batch, defaultID) != {}
                               && EffectiveHours(parsed.value, DataHours(batch.dataCount, parsed.value)) == 0.0)
    ensures parsed.Success? && r.Failure? ==> r.error == IllegalTimeRange(window, offset)
    ensures r.Success? ==> r.value.Keys == CostClusters(batch, defaultID)
    ensures r.Success? ==> forall k :: k in r.value ==>
              ExpectedCosts(batch, config, parsed.value, window, offset, defaultID, k) == Success(r.value[k])
  {
    if parsed.Failure? {
      return Failure(RangeParseFailure(parsed.error));
    }
    var mins := Minutes(parsed.value);
    var dataMins := mins;
    if |batch.dataCount| > 0 && |batch.dataCount[0].values| > 0 {
      dataMins := batch.dataCount[0].values[0].value;
    }

    var discount, customDiscount := 0.0, 0.0;
    if config.Some? {
      discount := if config.value.discount.Some? then config.value.discount.value else 0.0;
      customDiscount := if config.value.negotiatedDiscount.Some? then config.value.negotiatedDiscount.value else 0.0;
    }
    assert discount == DiscountOf(config) && customDiscount == CustomDiscountOf(config);

    var costData: CostData := map[];
    costData := SetCostsFromResults(costData, batch.totalGPU, Gpu, 0.0, customDiscount, defaultID);
    costData := SetCostsFromResults(costData, batch.totalCPU, Cpu, discount, customDiscount, defaultID);
    costData := SetCostsFromResults(costData, batch.totalRAM, Ram, discount, customDiscount, defaultID);
    costData := SetCostsFromResults(costData, batch.totalStorage, Storage, 0.0, customDiscount, defaultID);
    assert costData == CostDataOf(batch, discount, customDiscount, defaultID);
    CostDataKeys(batch, discount, customDiscount, defaultID);

    var cpuBreakdownMap := CpuBreakdowns(batch.cpuModePct, defaultID);
    var ramBreakdownMap := RamBreakdowns(batch.ramSystemPct, defaultID);

    assert dataMins / MinsPerHour == DataHours(batch.dataCount, parsed.value);
    r := Materialise(costData, cpuBreakdownMap, ramBreakdownMap, parsed, window, offset, dataMins / MinsPerHour);
    if r.Success? {
      forall k | k in r.value
        ensures ExpectedCosts(batch, config, parsed.value, window, offset, defaultID, k) == Success(r.value[k])
      {
        EntryIsExpected(batch, config, parsed.value, window, offset, defaultID, k);
      }
    }
  }
}
