# Cluster costs of the cost model

This project models the cluster-cost core of the cost model's `pkg/costmodel/cluster.go`, and proves properties of that model.

- **`ClusterCosts` and `NewClusterCostsFromCumulative`.** These turn one cluster's cumulative CPU, GPU, RAM and storage costs over a time window into cumulative figures and monthly rates. The monthly rates use 730 hours per month.
- **`ComputeClusterCosts`, after its metric queries have returned.** Its steps are:
  - the data-minutes fallback;
  - the discount settings;
  - the four `setCostsFromResults` calls that fold the cost queries into the per-cluster `costData` map;
  - the CPU-mode and RAM-system breakdown loops;
  - the loop that converts `costData` into one `ClusterCosts` per cluster.
- **The `Totals` tables.** `resultToTotals` and `resultToTotal` turn query results into rows of formatted (timestamp, value) pairs. `ClusterCostsForAllClusters` and `AverageClusterTotals` run their queries in order, stop at the first error, and assemble the tables.

The modules are:

- `Wrappers`: `Option` and `Result`.
- `QueryResults`: a parsed series. This covers the cluster it is filed under (its `cluster_id` label, or the default cluster ID), its CPU mode, its leading value, and sums over series.
- `ClusterCostModel`: `ClusterCosts`, `ClusterCostsBreakdown` and `NewClusterCostsFromCumulative`.
- `Accumulation`: `setCostsFromResults` as a method, with the fold that specifies it and lemmas about the fold.
- `Breakdowns`: the CPU-mode and RAM-system loops as methods, with their folds and closed-form sums.
- `ClusterAggregation`: the rest of `ComputeClusterCosts`, and the statement of what each cluster's entry is in terms of the raw query results.
- `TotalsTables`: `resultToTotals`, `resultToTotal`, `ClusterCostsForAllClusters` and `AverageClusterTotals`.

GPU and storage are scaled by the negotiated discount only (`pkg/costmodel/cluster.go:298`, `:301`); CPU and RAM are scaled by both discounts.

## Model

| member | source | states |
|---|---|---|
| QueryResults.ClusterOf | pkg/costmodel/cluster.go:285-288 | A series is filed under its `cluster_id` label when that label is present and non-empty, and under the default cluster ID when it is missing or empty |
| QueryResults.ModeOf | pkg/costmodel/cluster.go:315-330 | A series' mode is Idle, System or User exactly when its `mode` label is "idle", "system" or "user"; a missing label or any other value is Other |
| ClusterAggregation.DiscountOf | pkg/costmodel/cluster.go:264-270 | The general discount is the parsed setting when the configuration and its percentage could both be read, and zero otherwise |
| ClusterAggregation.CustomDiscountOf | pkg/costmodel/cluster.go:264-275 | The negotiated discount is the parsed setting when the configuration and its percentage could both be read, and zero otherwise |
| ClusterAggregation.DataMins | pkg/costmodel/cluster.go:256-261 | The data minutes are the first value of the first data-count series when there is one, and the window's minutes otherwise |
| ClusterAggregation.DataHours | pkg/costmodel/cluster.go:355 | The hours passed to the conversion are the data minutes over 60: when the data-count query reports a value, that value equals the data hours times 60 (the fallback is MissingDataCountUsesWindow) |
| QueryResults.ClustersMembers | pkg/costmodel/cluster.go:284-291 | A cluster gets an entry exactly when some series is filed under it, by its non-empty `cluster_id` or the default ID |
| QueryResults.ModeSumsPartition | pkg/costmodel/cluster.go:315-330 | The four mode buckets of the CPU breakdown add up to the cluster's plain sum, with unknown or missing modes counted as Other |
| QueryResults.ClusterSumAbsent | pkg/costmodel/cluster.go:284-295 | A cluster that no series is filed under accumulates nothing |
| ClusterCostModel.NewClusterCostsFromCumulative | pkg/costmodel/cluster.go:91-125 | The outcomes are: a parse error passed on; failure exactly when neither dataHours nor the window gives non-zero hours, with the illegal-time-range error; success whenever dataHours is non-zero; otherwise start/end from the range, the four cumulatives kept, total cumulative their sum, and no breakdowns |
| ClusterCostModel.MonthlyRates | pkg/costmodel/cluster.go:110-122 | Each monthly figure times the effective hours equals its cumulative cost times 730, and the monthly total is the sum of the four monthly figures |
| ClusterCostModel.TotalMonthlyIsRateOfTotal | pkg/costmodel/cluster.go:113-122 | The monthly total equals the monthly rate of the cumulative total |
| ClusterCostModel.MonthlyRoundTrip | pkg/costmodel/cluster.go:113-122 | Scaling each monthly figure back by hours / 730 recovers its cumulative cost, the total included |
| ClusterCostModel.DataHoursOverrideWindow | pkg/costmodel/cluster.go:98-107 | A non-zero dataHours always succeeds, and two windows then give the same costs apart from start and end |
| ClusterCostModel.ZeroDataHoursFallsBackToWindow | pkg/costmodel/cluster.go:98-107 | With zero dataHours the call succeeds exactly when the window has non-zero length, and each of the four monthly rates is taken over the window's hours; otherwise it fails with the illegal-time-range error |
| Accumulation.SetCostsFromResults | pkg/costmodel/cluster.go:283-297 | The loop computes the in-order fold of its per-series step over the results |
| Accumulation.DepositAt | pkg/costmodel/cluster.go:293-294 | A deposit raises the named category and "total" by the amount and leaves every other category alone |
| Accumulation.AddSeriesAmounts | pkg/costmodel/cluster.go:284-295 | One series raises its own cluster's category and total by its discounted leading value, or by nothing when it has no samples; other clusters are unchanged |
| Accumulation.DiscountedSumIsScaledSum | pkg/costmodel/cluster.go:293-294 | Discounting each series then summing equals summing then scaling by (1 - discount)(1 - customDiscount) |
| Accumulation.AccumulateDiscounted | pkg/costmodel/cluster.go:283-297 | After the fold, each cluster's category and total have grown by the sum of the discounted amounts of its series, and every other category is unchanged |
| Accumulation.AccumulateAmounts | pkg/costmodel/cluster.go:283-297 | After the fold, each cluster's category and total have grown by its query sum times the discount factor, and every other category is unchanged |
| Accumulation.AccumulateAt | pkg/costmodel/cluster.go:283-297 | The same fact, one category of one cluster at a time |
| Accumulation.AccumulateKeys | pkg/costmodel/cluster.go:284-291 | Every series creates its cluster's entry, with or without samples, and nothing else is created |
| Accumulation.AccumulateKeepsTotals | pkg/costmodel/cluster.go:293-294 | "total" stays equal to the sum of the four categories |
| Breakdowns.CpuBreakdowns | pkg/costmodel/cluster.go:303-333 | The loop computes the in-order fold of per-series mode additions |
| Breakdowns.CpuBreakdownOfCons | pkg/costmodel/cluster.go:304-330 | A cluster's closed-form CPU breakdown is the first series' contribution plus that of the rest |
| Breakdowns.AddCpuSeriesAt | pkg/costmodel/cluster.go:306-330 | One series adds its leading value to its own cluster's bucket for its mode, and to nothing else |
| Breakdowns.CpuFoldKeys | pkg/costmodel/cluster.go:304-312 | The CPU breakdown map gets an entry for exactly the clusters of the series |
| Breakdowns.CpuFoldSums | pkg/costmodel/cluster.go:304-333 | Each cluster's CPU breakdown gains, per mode, the sum of the leading values of its series in that mode |
| Breakdowns.RamBreakdowns | pkg/costmodel/cluster.go:335-350 | The loop computes the in-order fold of per-series System additions |
| Breakdowns.RamBreakdownOfCons | pkg/costmodel/cluster.go:336-350 | A cluster's closed-form RAM breakdown is the first series' contribution plus that of the rest |
| Breakdowns.AddRamSeriesAt | pkg/costmodel/cluster.go:338-347 | One series adds its leading value to its own cluster's System field, and to nothing else |
| Breakdowns.RamFoldKeys | pkg/costmodel/cluster.go:336-344 | The RAM breakdown map gets an entry for exactly the clusters of the series |
| Breakdowns.RamFoldSums | pkg/costmodel/cluster.go:336-350 | Each cluster's RAM breakdown gains the sum of its series' leading values in System; the other fields stay zero |
| ClusterAggregation.MissingDataCountUsesWindow | pkg/costmodel/cluster.go:256-261 | Without a data-count value, the data hours are the window's hours |
| ClusterAggregation.CostDataKeys | pkg/costmodel/cluster.go:298-301 | costData has an entry for exactly the clusters named by the GPU, CPU, RAM and storage series |
| ClusterAggregation.DiscountedSumIsQueryCost | pkg/costmodel/cluster.go:293-294 | A query's discounted sum for a cluster is its plain sum times the discount factor |
| ClusterAggregation.FirstStages | pkg/costmodel/cluster.go:298-299 | After the GPU and CPU calls, each category holds the discounted sum of its own query only |
| ClusterAggregation.LastStages | pkg/costmodel/cluster.go:300-301 | The RAM and storage calls add only their own query's discounted sums |
| ClusterAggregation.CostDataFigures | pkg/costmodel/cluster.go:264-301 | CPU and RAM hold their query sums scaled by both discounts; GPU and storage hold theirs scaled by the negotiated discount only |
| ClusterAggregation.CostDataTotals | pkg/costmodel/cluster.go:298-301 | costData's "total" of each cluster is the sum of its four categories |
| ClusterAggregation.Materialise | pkg/costmodel/cluster.go:352-377 | The outcomes are: failure exactly when costData is non-empty and no hours are available, with the parse or illegal-range error; otherwise the same keys as costData, each entry built from its figures with its CPU and RAM breakdowns when present |
| ClusterAggregation.CpuBreakdownEntry | pkg/costmodel/cluster.go:303-333 | A cluster's CPU breakdown is present exactly when some series names it, and then it equals the closed-form mode sums |
| ClusterAggregation.RamBreakdownEntry | pkg/costmodel/cluster.go:335-350 | A cluster's RAM breakdown is present exactly when some series names it, and then its System field is the cluster's sum |
| ClusterAggregation.EntryFromFigures | pkg/costmodel/cluster.go:352-374 | A conversion from the expected figures and breakdowns yields the expected entry |
| ClusterAggregation.EntryIsExpected | pkg/costmodel/cluster.go:256-374 | The entry built from the folded maps is the one ExpectedCosts gives from the raw query results |
| ClusterAggregation.ComputeClusterCosts | pkg/costmodel/cluster.go:256-377 | The outcomes are: a parse error passed on; failure exactly when some cost series exists and no hours are available; otherwise one entry per cost-query cluster, equal to ExpectedCosts, so its cumulatives are the discounted query sums and its breakdowns the mode sums |
| TotalsTables.ResultToTotals | pkg/costmodel/cluster.go:387-409 | The outcomes are: a parse error passed on; the not-enough-data error for no series; otherwise one row per sample of the first series, in order |
| TotalsTables.FirstTableAppend | pkg/costmodel/cluster.go:420-443 | Appending series changes nothing for a cluster that already has a table |
| TotalsTables.FirstTableSnoc | pkg/costmodel/cluster.go:420-443 | One more series gives its cluster a table only if the cluster had none and the series has a sample |
| TotalsTables.FirstTableExists | pkg/costmodel/cluster.go:426-442 | A cluster has a table exactly when one of its series has a sample |
| TotalsTables.LaterSeriesLost | pkg/costmodel/cluster.go:439-440 | A later series of a cluster that already has a table leaves that table as it was |
| TotalsTables.ResultToTotal | pkg/costmodel/cluster.go:411-447 | The outcomes are: a parse error passed on; otherwise a table for exactly the clusters with a sampled series, each the first such series' first sample as a one-row table |
| TotalsTables.MergeField | pkg/costmodel/cluster.go:489-494 | A merge loop keeps every earlier cluster and adds the new ones; each cluster with a table has it set in that field, and the other fields are kept |
| TotalsTables.MergedTotals | pkg/costmodel/cluster.go:483-516 | After the three merges from an empty map, each cluster holds the CPU, memory and storage tables of the maps it appears in, with nil elsewhere and nil total cost |
| TotalsTables.ClusterCostsForAllClusters | pkg/costmodel/cluster.go:466-518 | The outcomes are: the first query or parse error in source order, tagged with its query; otherwise one Totals per cluster with a sampled series in any of the three results, each field that query's table for the cluster |
| TotalsTables.AverageClusterTotals | pkg/costmodel/cluster.go:540-586 | The outcomes are: the first query or parse error in source order, unwrapped; otherwise the default cluster's table from each of the four queries, nil where it has none |

## Left out

- Running the queries is not modelled. This covers the concurrent queries, the WaitGroup, the channels and the error collector. `ComputeClusterCosts` receives each query's parsed series, and a failed query contributes no series.
- Query strings are not modelled: the PromQL templates, the offset formatting and `GetLocalStorageQuery`. They only shape the text sent to the backend.
- Time-range parsing is a parameter, the outcome of `ParseTimeRange`. Both parses inside `ComputeClusterCosts` are taken to give the same range, because the clock is outside the model.
- The provider's configuration and `ParsePercentString` are inputs: an optional configuration holding two optional percentages. A missing value reads as zero.
- The default cluster ID read from the environment is a parameter, and logging is left out.
- Costs are `real`. The model does not capture float64 rounding, infinities or NaN.
- Number formatting with `%f` is a parameter `fmt`. Nothing is assumed about the text it produces.
- The `RAMOtherPct` query is issued but its result is never read. `StorageBreakdown` is never assigned. Neither appears in the model beyond a field that is always nil.
- `ClusterCostsOverTime` is not part of this model.
- Go's random map iteration order is replaced by an arbitrary choice of the next key. Every statement about the result holds for any order: the conversion error does not depend on the cluster, and each merge writes each key once.
- nil slices and maps are not distinguished from empty ones, except in `Totals`, where a nil field is `None`.
- ClusterAggregation.ComputeClusterCosts: the two breakdown loops read `result.Values[0]` without a check, so a series without samples makes the source panic. The model requires every breakdown series to have a sample.
- Breakdowns.CpuBreakdowns: the requirement above applies here too; the case that panics is not modelled.
- Breakdowns.RamBreakdowns: the requirement above applies here too; the case that panics is not modelled.
- Error messages are datatype values, not text. The value names the query and its cause, which is what the `Error for query %s: %s` text carries.
