/**
 * The CPU-mode and RAM-system breakdown loops of ComputeClusterCosts: one
 * ClusterCostsBreakdown per cluster, created empty and accumulated additively.
 */
module Breakdowns {
  import opened QueryResults
  import opened ClusterCostModel

  /** cpuBreakdownMap / ramBreakdownMap: cluster ID -> breakdown. */
  type BreakdownMap = map<string, Breakdown>

  /** A cluster's breakdown, or the empty breakdown when it has none yet. */
  function BreakdownAt(m: BreakdownMap, k: string): Breakdown
  {
    if k in m then m[k] else ZeroBreakdown
  }

  /** Field-wise sum of two breakdowns. */
  function Plus(a: Breakdown, b: Breakdown): Breakdown
  {
    Breakdown(a.idle + b.idle, a.other + b.other, a.system + b.system, a.user + b.user)
  }

  /**
   * Every series has a first sample. Both breakdown loops read `Values[0]`
   * without checking, so a series without samples would panic.
   */
  predicate AllHaveValues(rs: seq<QueryResult>)
  {
    forall i :: 0 <= i < |rs| ==> HasValues(rs[i])
  }

  lemma AllHaveValuesTail(rs: seq<QueryResult>)
    requires rs != [] && AllHaveValues(rs)
    ensures AllHaveValues(rs[1..])
  {
    forall i | 0 <= i < |rs| - 1 ensures HasValues(rs[1..][i]) {
      assert rs[1..][i] == rs[i + 1];
    }
  }

  /** Adds `v` to the field of `b` that mode `m` selects. */
  function AddToMode(b: Breakdown, m: Mode, v: real): Breakdown
  {
    match m
    case Idle => b.(idle := b.idle + v)
    case System => b.(system := b.system + v)
    case User => b.(user := b.user + v)
    case Other => b.(other := b.other + v)
  }

  /** One iteration of the CPU-mode loop. */
  function AddCpuSeries(bd: BreakdownMap, r: QueryResult, defaultID: string): BreakdownMap
    requires HasValues(r)
  {
    var id := ClusterOf(r, defaultID);
    bd[id := AddToMode(BreakdownAt(bd, id), ModeOf(r), r.values[0].value)]
  }

  /** The CPU-mode loop as a fold over the series, in order. */
  function CpuFold(bd: BreakdownMap, rs: seq<QueryResult>, defaultID: string): BreakdownMap
    requires AllHaveValues(rs)
    decreases |rs|
  {
    if rs == [] then bd else CpuFold(AddCpuSeries(bd, rs[0], defaultID), rs[1..], defaultID)
  }

  /**
   * The CPU-mode loop: each series' leading value is added to the `idle`,
   * `system` or `user` field of its cluster's breakdown, or to `other` for
   * any other mode and for a series without a mode label.
   */
  method CpuBreakdowns(results: seq<QueryResult>, defaultID: string) returns (bd: BreakdownMap)
    requires AllHaveValues(results)
    ensures bd == CpuFold(map[], results, defaultID)
  {
    bd := map[];
    for i := 0 to |results|
      invariant CpuFold(bd, results[i..], defaultID) == CpuFold(map[], results, defaultID)
    {
      ghost var before := bd;
      var result := results[i];
      var clusterID := if ClusterLabel in result.labels then result.labels[ClusterLabel] else "";
      if clusterID == "" {
        clusterID := defaultID;
      }
      var cpuBD := if clusterID in bd then bd[clusterID] else ZeroBreakdown;
      var mode := if ModeLabel in result.labels then result.labels[ModeLabel] else "other";
      var v := result.values[0].value;
      if mode == "idle" {
        cpuBD := cpuBD.(idle := cpuBD.idle + v);
      } else if mode == "system" {
        cpuBD := cpuBD.(system := cpuBD.system + v);
      } else if mode == "user" {
        cpuBD := cpuBD.(user := cpuBD.user + v);
      } else {
        cpuBD := cpuBD.(other := cpuBD.other + v);
      }
      assert clusterID == ClusterOf(result, defaultID);
      assert cpuBD == AddToMode(BreakdownAt(before, clusterID), ModeOf(result), v);
      bd := bd[clusterID := cpuBD];
      assert bd == AddCpuSeries(before, result, defaultID);
      assert results[i..][1..] == results[i + 1..];
    }
  }

  /** The breakdown the CPU-mode series of `rs` give cluster `k`: each field sums its own mode. */
  function CpuBreakdownOf(rs: seq<QueryResult>, k: string, defaultID: string): Breakdown
  {
    Breakdown(ModeSum(rs, k, Idle, defaultID), ModeSum(rs, k, Other, defaultID),
              ModeSum(rs, k, System, defaultID), ModeSum(rs, k, User, defaultID))
  }

  lemma PlusZero(b: Breakdown)
    ensures Plus(b, ZeroBreakdown) == b
  {
  }

  lemma PlusAssociative(a: Breakdown, b: Breakdown, c: Breakdown)
    ensures Plus(Plus(a, b), c) == Plus(a, Plus(b, c))
  {
  }

  /** What one CPU-mode series contributes to cluster `k`'s breakdown. */
  function CpuShare(r: QueryResult, k: string, defaultID: string): Breakdown
  {
    Breakdown(ModeShare(r, k, Idle, defaultID), ModeShare(r, k, Other, defaultID),
              ModeShare(r, k, System, defaultID), ModeShare(r, k, User, defaultID))
  }

  lemma CpuBreakdownOfCons(rs: seq<QueryResult>, k: string, defaultID: string)
    requires rs != []
    ensures CpuBreakdownOf(rs, k, defaultID) == Plus(CpuShare(rs[0], k, defaultID), CpuBreakdownOf(rs[1..], k, defaultID))
  {
  }

  /** The effect of one CPU-mode series on one cluster's breakdown. */
  lemma AddCpuSeriesAt(bd: BreakdownMap, r: QueryResult, defaultID: string, k: string)
    requires HasValues(r)
    ensures BreakdownAt(AddCpuSeries(bd, r, defaultID), k) == Plus(BreakdownAt(bd, k), CpuShare(r, k, defaultID))
  {
    var b := BreakdownAt(bd, k);
    if ClusterOf(r, defaultID) == k {
      assert BreakdownAt(AddCpuSeries(bd, r, defaultID), k) == AddToMode(b, ModeOf(r), r.values[0].value);
    } else {
      assert CpuShare(r, k, defaultID) == ZeroBreakdown;
      PlusZero(b);
    }
  }

  /** The CPU-mode loop creates a breakdown for exactly the clusters that have a series. */
  lemma {:induction false} CpuFoldKeys(bd: BreakdownMap, rs: seq<QueryResult>, defaultID: string)
    requires AllHaveValues(rs)
    ensures CpuFold(bd, rs, defaultID).Keys == bd.Keys + Clusters(rs, defaultID)
    decreases |rs|
  {
    if rs != [] {
      AllHaveValuesTail(rs);
      CpuFoldKeys(AddCpuSeries(bd, rs[0], defaultID), rs[1..], defaultID);
    }
  }

  /**
   * What the CPU-mode loop computes: each field of a cluster's breakdown adds
   * up the leading values of that cluster's series in that mode.
   */
  lemma {:induction false} CpuFoldSums(bd: BreakdownMap, rs: seq<QueryResult>, defaultID: string, k: string)
    requires AllHaveValues(rs)
    ensures BreakdownAt(CpuFold(bd, rs, defaultID), k) == Plus(BreakdownAt(bd, k), CpuBreakdownOf(rs, k, defaultID))
    decreases |rs|
  {
    if rs != [] {
      var bd1 := AddCpuSeries(bd, rs[0], defaultID);
      AllHaveValuesTail(rs);
      CpuFoldSums(bd1, rs[1..], defaultID, k);
      AddCpuSeriesAt(bd, rs[0], defaultID, k);
      CpuBreakdownOfCons(rs, k, defaultID);
      PlusAssociative(BreakdownAt(bd, k), CpuShare(rs[0], k, defaultID), CpuBreakdownOf(rs[1..], k, defaultID));
    } else {
      PlusZero(BreakdownAt(bd, k));
    }
  }

  /** One iteration of the RAM-system loop: only the `system` field moves. */
  function AddRamSeries(bd: BreakdownMap, r: QueryResult, defaultID: string): BreakdownMap
    requires HasValues(r)
  {
    var id := ClusterOf(r, defaultID);
    var b := BreakdownAt(bd, id);
    bd[id := b.(system := b.system + r.values[0].value)]
  }

  /** The RAM-system loop as a fold over the series, in order. */
  function RamFold(bd: BreakdownMap, rs: seq<QueryResult>, defaultID: string): BreakdownMap
    requires AllHaveValues(rs)
    decreases |rs|
  {
    if rs == [] then bd else RamFold(AddRamSeries(bd, rs[0], defaultID), rs[1..], defaultID)
  }

  /** The RAM-system loop: each series' leading value is added to its cluster's `system` field. */
  method RamBreakdowns(results: seq<QueryResult>, defaultID: string) returns (bd: BreakdownMap)
    requires AllHaveValues(results)
    ensures bd == RamFold(map[], results, defaultID)
  {
    bd := map[];
    for i := 0 to |results|
      invariant RamFold(bd, results[i..], defaultID) == RamFold(map[], results, defaultID)
    {
      ghost var before := bd;
      var result := results[i];
      var clusterID := if ClusterLabel in result.labels then result.labels[ClusterLabel] else "";
      if clusterID == "" {
        clusterID := defaultID;
      }
      var ramBD := if clusterID in bd then bd[clusterID] else ZeroBreakdown;
      assert clusterID == ClusterOf(result, defaultID);
      ramBD := ramBD.(system := ramBD.system + result.values[0].value);
      bd := bd[clusterID := ramBD];
      assert bd == AddRamSeries(before, result, defaultID);
      assert results[i..][1..] == results[i + 1..];
    }
  }

  /** The breakdown the RAM-system series of `rs` give cluster `k`: only `system` is ever set. */
  function RamBreakdownOf(rs: seq<QueryResult>, k: string, defaultID: string): Breakdown
  {
    ZeroBreakdown.(system := ClusterSum(rs, k, defaultID))
  }

  lemma RamBreakdownOfCons(rs: seq<QueryResult>, k: string, defaultID: string)
    requires rs != []
    ensures RamBreakdownOf(rs, k, defaultID) == Plus(ZeroBreakdown.(system := Share(rs[0], k, defaultID)), RamBreakdownOf(rs[1..], k, defaultID))
  {
  }

  /** The effect of one RAM-system series on one cluster's breakdown. */
  lemma AddRamSeriesAt(bd: BreakdownMap, r: QueryResult, defaultID: string, k: string)
    requires HasValues(r)
    ensures BreakdownAt(AddRamSeries(bd, r, defaultID), k) == Plus(BreakdownAt(bd, k), ZeroBreakdown.(system := Share(r, k, defaultID)))
  {
    if ClusterOf(r, defaultID) != k {
      PlusZero(BreakdownAt(bd, k));
    }
  }

  /** The RAM-system loop creates a breakdown for exactly the clusters that have a series. */
  lemma {:induction false} RamFoldKeys(bd: BreakdownMap, rs: seq<QueryResult>, defaultID: string)
    requires AllHaveValues(rs)
    ensures RamFold(bd, rs, defaultID).Keys == bd.Keys + Clusters(rs, defaultID)
    decreases |rs|
  {
    if rs != [] {
      AllHaveValuesTail(rs);
      RamFoldKeys(AddRamSeries(bd, rs[0], defaultID), rs[1..], defaultID);
    }
  }

  /**
   * What the RAM-system loop computes: the `system` field of a cluster's
   * breakdown adds up the leading values of its series, while `idle`, `user`
   * and `other` keep their starting values.
   */
  lemma {:induction false} RamFoldSums(bd: BreakdownMap, rs: seq<QueryResult>, defaultID: string, k: string)
    requires AllHaveValues(rs)
    ensures BreakdownAt(RamFold(bd, rs, defaultID), k) == Plus(BreakdownAt(bd, k), RamBreakdownOf(rs, k, defaultID))
    decreases |rs|
  {
    if rs != [] {
      var bd1 := AddRamSeries(bd, rs[0], defaultID);
      AllHaveValuesTail(rs);
      RamFoldSums(bd1, rs[1..], defaultID, k);
      AddRamSeriesAt(bd, rs[0], defaultID, k);
      RamBreakdownOfCons(rs, k, defaultID);
      PlusAssociative(BreakdownAt(bd, k), ZeroBreakdown.(system := Share(rs[0], k, defaultID)), RamBreakdownOf(rs[1..], k, defaultID));
    } else {
      PlusZero(BreakdownAt(bd, k));
    }
  }
}
