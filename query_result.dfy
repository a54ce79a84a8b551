/**
 * One labelled series of a metrics query result (PromQueryResult in the
 * costmodel package), and the per-series facts the cost code reads from it:
 * the cluster it belongs to, its CPU mode, and its leading value.
 */
module QueryResults {

  /** One (timestamp, value) sample of a series. */
  datatype Sample = Sample(timestamp: real, value: real)

  /** A parsed series: its label set and its samples in time order. */
  datatype QueryResult = QueryResult(labels: map<string, string>, values: seq<Sample>)

  /** The label that names a series' cluster. */
  const ClusterLabel: string := "cluster_id"

  /** The label that names a series' CPU execution mode. */
  const ModeLabel: string := "mode"

  /**
   * The cluster a series is filed under: its `cluster_id` label, or the
   * default cluster ID when that label is missing or empty (a missing label
   * makes GetString fail and leaves the empty string behind).
   */
  function ClusterOf(r: QueryResult, defaultID: string): (id: string)
    ensures ClusterLabel in r.labels && r.labels[ClusterLabel] != "" ==> id == r.labels[ClusterLabel]
    ensures ClusterLabel !in r.labels || r.labels[ClusterLabel] == "" ==> id == defaultID
  {
    if ClusterLabel in r.labels && r.labels[ClusterLabel] != "" then r.labels[ClusterLabel] else defaultID
  }

  /** True when the series carries at least one sample. */
  predicate HasValues(r: QueryResult)
  {
    |r.values| > 0
  }

  /** The value of the first sample, or 0 for a series without samples. */
  function LeadingValue(r: QueryResult): real
  {
    if HasValues(r) then r.values[0].value else 0.0
  }

  /** The clusters the series of `rs` are filed under. */
  function Clusters(rs: seq<QueryResult>, defaultID: string): set<string>
  {
    if rs == [] then {} else {ClusterOf(rs[0], defaultID)} + Clusters(rs[1..], defaultID)
  }

  /** A cluster is among the clusters of `rs` exactly when some series of `rs` is filed under it. */
  lemma {:induction false} ClustersMembers(rs: seq<QueryResult>, k: string, defaultID: string)
    ensures k in Clusters(rs, defaultID) <==> exists i :: 0 <= i < |rs| && ClusterOf(rs[i], defaultID) == k
  {
    if rs != [] {
      ClustersMembers(rs[1..], k, defaultID);
      if k in Clusters(rs[1..], defaultID) {
        var i :| 0 <= i < |rs| - 1 && ClusterOf(rs[1..][i], defaultID) == k;
        assert ClusterOf(rs[i + 1], defaultID) == k;
      }
      if exists i :: 0 <= i < |rs| && ClusterOf(rs[i], defaultID) == k {
        var i :| 0 <= i < |rs| && ClusterOf(rs[i], defaultID) == k;
        if i > 0 {
          assert ClusterOf(rs[1..][i - 1], defaultID) == k;
        }
      }
    }
  }

  /** What a series contributes to cluster `k`: its leading value if it is filed under `k`. */
  function Share(r: QueryResult, k: string, defaultID: string): real
  {
    if ClusterOf(r, defaultID) == k then LeadingValue(r) else 0.0
  }

  /** The sum of the leading values of the series of `rs` filed under cluster `k`. */
  function ClusterSum(rs: seq<QueryResult>, k: string, defaultID: string): real
  {
    if rs == [] then 0.0 else Share(rs[0], k, defaultID) + ClusterSum(rs[1..], k, defaultID)
  }

  /** The CPU execution modes the breakdown distinguishes. */
  datatype Mode = Idle | System | User | Other

  /**
   * The mode of a series: `idle`, `system` and `user` are recognised; any other
   * value, and a missing `mode` label, count as Other.
   */
  function ModeOf(r: QueryResult): (m: Mode)
    ensures m == Idle <==> ModeLabel in r.labels && r.labels[ModeLabel] == "idle"
    ensures m == System <==> ModeLabel in r.labels && r.labels[ModeLabel] == "system"
    ensures m == User <==> ModeLabel in r.labels && r.labels[ModeLabel] == "user"
  {
    if ModeLabel !in r.labels then Other
    else if r.labels[ModeLabel] == "idle" then Idle
    else if r.labels[ModeLabel] == "system" then System
    else if r.labels[ModeLabel] == "user" then User
    else Other
  }

  /** What a series contributes to cluster `k` in mode `m`. */
  function ModeShare(r: QueryResult, k: string, m: Mode, defaultID: string): real
  {
    if ClusterOf(r, defaultID) == k && ModeOf(r) == m then LeadingValue(r) else 0.0
  }

  /** The sum of the leading values of the series of `rs` filed under cluster `k` in mode `m`. */
  function ModeSum(rs: seq<QueryResult>, k: string, m: Mode, defaultID: string): real
  {
    if rs == [] then 0.0 else ModeShare(rs[0], k, m, defaultID) + ModeSum(rs[1..], k, m, defaultID)
  }

  /** Summing over the four modes gives the cluster's plain sum: the classification loses nothing. */
  lemma {:induction false} ModeSumsPartition(rs: seq<QueryResult>, k: string, defaultID: string)
    ensures ModeSum(rs, k, Idle, defaultID) + ModeSum(rs, k, System, defaultID)
          + ModeSum(rs, k, User, defaultID) + ModeSum(rs, k, Other, defaultID)
         == ClusterSum(rs, k, defaultID)
  {
    if rs != [] {
      ModeSumsPartition(rs[1..], k, defaultID);
    }
  }

  /** A cluster none of whose series appear in `rs` sums to zero. */
  lemma {:induction false} ClusterSumAbsent(rs: seq<QueryResult>, k: string, defaultID: string)
    requires k !in Clusters(rs, defaultID)
    ensures ClusterSum(rs, k, defaultID) == 0.0
  {
    if rs != [] {
      ClusterSumAbsent(rs[1..], k, defaultID);
    }
  }
}
