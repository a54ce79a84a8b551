/**
 * The Totals tables of cluster.go: resultToTotals and resultToTotal, which
 * turn parsed query results into rows of formatted (timestamp, value) pairs,
 * and the two callers that assemble them, ClusterCostsForAllClusters (one
 * Totals per cluster) and AverageClusterTotals (the default cluster's).
 */
module TotalsTables {
  import opened Wrappers
  import opened QueryResults

  /** A [][]string table: one row per sample, holding its formatted timestamp and value. */
  type Table = seq<seq<string>>

  /**
   * Totals. Each field is None while it is nil: a field nobody assigned, or
   * a lookup of a cluster that has no table.
   */
  datatype Totals = Totals(totalCost: Option<Table>, cpuCost: Option<Table>,
                           memCost: Option<Table>, storageCost: Option<Table>)

  /** A freshly allocated `&Totals{}`. */
  const EmptyTotals: Totals := Totals(None, None, None, None)

  /** The queries whose failures ClusterCostsForAllClusters reports by name. */
  datatype QueryName = ClusterCores | ClusterRAM | ClusterStorage

  /**
   * What the client returned for a query: a failure of the query itself, or
   * an answer, which NewQueryResults either parses or rejects.
   */
  datatype Response = Failed(msg: string) | Answered(parsed: Result<seq<QueryResult>, string>)

  /** The errors of this part of the file. */
  datatype TotalsError =
    | QueryError(msg: string)                    // the client's error, as it is
    | ParseError(msg: string)                    // NewQueryResults' error, as it is
    | NotEnoughData                              // resultToTotals on an empty result
    | ForQuery(query: QueryName, cause: TotalsError) // "Error for query <q>: <cause>"

  /** The row a sample becomes; `fmt` renders a number the way `%f` does. */
  function SampleRow(s: Sample, fmt: real -> string): seq<string>
  {
    [fmt(s.timestamp), fmt(s.value)]
  }

  /**
   * resultToTotals: every sample of the first series becomes a row, in order;
   * the other series are ignored. No series at all is an error, and so is
   * an answer that does not parse.
   */
  method ResultToTotals(parsed: Result<seq<QueryResult>, string>, fmt: real -> string)
    returns (r: Result<Table, TotalsError>)
    ensures parsed.Failure? ==> r == Failure(ParseError(parsed.error))
    ensures parsed.Success? && parsed.value == [] ==> r == Failure(NotEnoughData)
    ensures parsed.Success? && parsed.value != [] ==>
              && r.Success?
              && |r.value| == |parsed.value[0].values|
              && forall i :: 0 <= i < |r.value| ==> r.value[i] == SampleRow(parsed.value[0].values[i], fmt)
  {
    if parsed.Failure? {
      return Failure(ParseError(parsed.error));
    }
    var results := parsed.value;
    if |results| == 0 {
      return Failure(NotEnoughData);
    }
    var result := results[0];
    var totals: Table := [];
    for i := 0 to |result.values|
      invariant |totals| == i
      invariant forall j :: 0 <= j < i ==> totals[j] == SampleRow(result.values[j], fmt)
    {
      var value := result.values[i];
      var toAppend := [fmt(value.timestamp), fmt(value.value)];
      totals := totals + [toAppend];
    }
    return Success(totals);
  }

  /**
   * The table resultToTotal keeps for cluster `k`: the first sample of the
   * first series filed under `k` that has a sample, as a one-row table, or
   * None when there is no such series.
   */
  function FirstTable(rs: seq<QueryResult>, k: string, defaultID: string, fmt: real -> string): Option<Table>
  {
    if rs == [] then None
    else if ClusterOf(rs[0], defaultID) == k && HasValues(rs[0]) then Some([SampleRow(rs[0].values[0], fmt)])
    else FirstTable(rs[1..], k, defaultID, fmt)
  }

  /** The clusters that have a series with at least one sample. */
  function ValuedClusters(rs: seq<QueryResult>, defaultID: string): set<string>
  {
    if rs == [] then {}
    else (if HasValues(rs[0]) then {ClusterOf(rs[0], defaultID)} else {}) + ValuedClusters(rs[1..], defaultID)
  }

  /** A map lookup that reads a missing key as nil. */
  function Get(m: map<string, Table>, k: string): Option<Table>
  {
    if k in m then Some(m[k]) else None
  }

  /** Appending series after `s` changes nothing for a cluster `s` already has a table for. */
  lemma {:induction false} FirstTableAppend(s: seq<QueryResult>, t: seq<QueryResult>, k: string,
                                            defaultID: string, fmt: real -> string)
    ensures FirstTable(s + t, k, defaultID, fmt)
         == if FirstTable(s, k, defaultID, fmt).Some? then FirstTable(s, k, defaultID, fmt)
            else FirstTable(t, k, defaultID, fmt)
  {
    if s == [] {
      assert s + t == t;
    } else {
      assert (s + t)[0] == s[0];
      assert (s + t)[1..] == s[1..] + t;
      FirstTableAppend(s[1..], t, k, defaultID, fmt);
    }
  }

  /** Appending one series: it gives `k` a table only if `k` has none yet. */
  lemma FirstTableSnoc(s: seq<QueryResult>, r: QueryResult, k: string, defaultID: string, fmt: real -> string)
    ensures FirstTable(s + [r], k, defaultID, fmt)
         == if FirstTable(s, k, defaultID, fmt).Some? then FirstTable(s, k, defaultID, fmt)
            else if ClusterOf(r, defaultID) == k && HasValues(r) then Some([SampleRow(r.values[0], fmt)])
            else None
  {
    FirstTableAppend(s, [r], k, defaultID, fmt);
    assert [r][1..] == [];
  }

  /** A cluster has a table exactly when it has a series with a sample. */
  lemma {:induction false} FirstTableExists(rs: seq<QueryResult>, k: string, defaultID: string, fmt: real -> string)
    ensures FirstTable(rs, k, defaultID, fmt).Some? <==> k in ValuedClusters(rs, defaultID)
  {
    if rs != [] {
      FirstTableExists(rs[1..], k, defaultID, fmt);
    }
  }

  /**
   * A later series of a cluster that already has a table is lost: the
   * branch that would add its row builds the longer table and drops it.
   */
  lemma LaterSeriesLost(s: seq<QueryResult>, r: QueryResult, k: string, defaultID: string, fmt: real -> string)
    requires FirstTable(s, k, defaultID, fmt).Some?
    ensures FirstTable(s + [r], k, defaultID, fmt) == FirstTable(s, k, defaultID, fmt)
  {
    FirstTableAppend(s, [r], k, defaultID, fmt);
  }

  /**
   * resultToTotal: for each cluster with a series that has a sample, the
   * one-row table of the first such series; series without samples are
   * skipped, and an answer that does not parse is an error.
   */
  method ResultToTotal(parsed: Result<seq<QueryResult>, string>, fmt: real -> string, defaultID: string)
    returns (r: Result<map<string, Table>, TotalsError>)
    ensures parsed.Failure? ==> r == Failure(ParseError(parsed.error))
    ensures parsed.Success? ==>
              && r.Success?
              && r.value.Keys == ValuedClusters(parsed.value, defaultID)
              && forall k :: Get(r.value, k) == FirstTable(parsed.value, k, defaultID, fmt)
  {
    if parsed.Failure? {
      return Failure(ParseError(parsed.error));
    }
    var results := parsed.value;
    var toReturn: map<string, Table> := map[];
    for i := 0 to |results|
      invariant forall k :: Get(toReturn, k) == FirstTable(results[..i], k, defaultID, fmt)
    {
      ghost var before := toReturn;
      var result := results[i];
      var clusterID := if ClusterLabel in result.labels then result.labels[ClusterLabel] else "";
      if clusterID == "" {
        clusterID := defaultID;
      }
      assert results[..i + 1] == results[..i] + [result];
      forall k
        ensures FirstTable(results[..i + 1], k, defaultID, fmt)
             == if FirstTable(results[..i], k, defaultID, fmt).Some? then FirstTable(results[..i], k, defaultID, fmt)
                else if ClusterOf(result, defaultID) == k && HasValues(result) then Some([SampleRow(result.values[0], fmt)])
                else None
      {
        FirstTableSnoc(results[..i], result, k, defaultID, fmt);
      }
      assert clusterID == ClusterOf(result, defaultID);
      if |result.values| == 0 {
        assert forall k :: Get(toReturn, k) == FirstTable(results[..i + 1], k, defaultID, fmt);
        continue;
      }
      var value := result.values[0];
      var toAppend := [fmt(value.timestamp), fmt(value.value)];
      assert toAppend == SampleRow(result.values[0], fmt);
      if clusterID in toReturn {
        var t := toReturn[clusterID];
        t := t + [toAppend];
      } else {
        toReturn := toReturn[clusterID := [toAppend]];
      }
      forall k ensures Get(toReturn, k) == FirstTable(results[..i + 1], k, defaultID, fmt) {
        assert Get(before, k) == FirstTable(results[..i], k, defaultID, fmt);
      }
    }
    assert results[..|results|] == results;
    forall k ensures k in toReturn <==> k in ValuedClusters(results, defaultID) {
      FirstTableExists(results, k, defaultID, fmt);
    }
    return Success(toReturn);
  }

  /** The Totals fields a merge loop can assign. */
  datatype Field = CpuCost | MemCost | StorageCost

  /** Totals with one field assigned. */
  function SetField(t: Totals, field: Field, table: Table): Totals
  {
    match field
    case CpuCost => t.(cpuCost := Some(table))
    case MemCost => t.(memCost := Some(table))
    case StorageCost => t.(storageCost := Some(table))
  }

  /** What one merge loop leaves at cluster `k`. */
  function MergedAt(toReturn: map<string, Totals>, tables: map<string, Table>, field: Field, k: string): Totals
    requires k in toReturn || k in tables
  {
    if k !in tables then toReturn[k]
    else SetField(if k in toReturn then toReturn[k] else EmptyTotals, field, tables[k])
  }

  /**
   * One of ClusterCostsForAllClusters' merge loops: every cluster with a
   * table gets a Totals if it has none yet, and the table goes into `field`.
   */
  method MergeField(toReturn: map<string, Totals>, tables: map<string, Table>, field: Field)
    returns (out: map<string, Totals>)
    ensures out.Keys == toReturn.Keys + tables.Keys
    ensures forall k :: k in out ==> out[k] == MergedAt(toReturn, tables, field, k)
  {
    out := toReturn;
    var remaining := tables.Keys;
    while remaining != {}
      invariant remaining <= tables.Keys
      invariant out.Keys == toReturn.Keys + (tables.Keys - remaining)
      invariant forall k :: k in out ==>
                  out[k] == if k in remaining then toReturn[k] else MergedAt(toReturn, tables, field, k)
      decreases remaining
    {
      var clusterID :| clusterID in remaining;
      if clusterID !in out {
        out := out[clusterID := EmptyTotals];
      }
      out := out[clusterID := SetField(out[clusterID], field, tables[clusterID])];
      remaining := remaining - {clusterID};
    }
  }

  /**
   * The three merge loops one after the other, starting from an empty map:
   * each cluster ends up with the table of every result map it appears in.
   */
  lemma MergedTotals(cores: map<string, Table>, ram: map<string, Table>, storage: map<string, Table>,
                     m1: map<string, Totals>, m2: map<string, Totals>, m3: map<string, Totals>)
    requires m1.Keys == cores.Keys
    requires forall k :: k in m1 ==> m1[k] == MergedAt(map[], cores, CpuCost, k)
    requires m2.Keys == m1.Keys + ram.Keys
    requires forall k :: k in m2 ==> m2[k] == MergedAt(m1, ram, MemCost, k)
    requires m3.Keys == m2.Keys + storage.Keys
    requires forall k :: k in m3 ==> m3[k] == MergedAt(m2, storage, StorageCost, k)
    ensures m3.Keys == cores.Keys + ram.Keys + storage.Keys
    ensures forall k :: k in m3 ==> m3[k] == Totals(None, Get(cores, k), Get(ram, k), Get(storage, k))
  {
    forall k | k in m3
      ensures m3[k] == Totals(None, Get(cores, k), Get(ram, k), Get(storage, k))
    {
      if k in m2 {
        if k in m1 {
          assert m1[k] == Totals(None, Get(cores, k), None, None);
        }
        assert m2[k] == Totals(None, Get(cores, k), Get(ram, k), None);
      }
    }
  }

  /** A cluster's Totals as ClusterCostsForAllClusters is meant to assemble them. */
  function ClusterTotals(cores: seq<QueryResult>, ram: seq<QueryResult>, storage: seq<QueryResult>,
                         defaultID: string, fmt: real -> string, k: string): Totals
  {
    Totals(None, FirstTable(cores, k, defaultID, fmt), FirstTable(ram, k, defaultID, fmt),
           FirstTable(storage, k, defaultID, fmt))
  }

  /** The error ClusterCostsForAllClusters reports first, if any. */
  function FirstFailure(cores: Response, ram: Response, storage: Response): Option<TotalsError>
  {
    if cores.Failed? then Some(ForQuery(ClusterCores, QueryError(cores.msg)))
    else if ram.Failed? then Some(ForQuery(ClusterRAM, QueryError(ram.msg)))
    else if storage.Failed? then Some(ForQuery(ClusterStorage, QueryError(storage.msg)))
    else if cores.parsed.Failure? then Some(ForQuery(ClusterCores, ParseError(cores.parsed.error)))
    else if ram.parsed.Failure? then Some(ForQuery(ClusterRAM, ParseError(ram.parsed.error)))
    else if storage.parsed.Failure? then Some(ForQuery(ClusterStorage, ParseError(storage.parsed.error)))
    else None
  }

  /**
   * ClusterCostsForAllClusters after its three queries: the first failure,
   * in the order the source checks them, or one Totals for every cluster
   * that has a table in any of the three results, each field taken from its
   * own query and the total cost left nil.
   */
  method ClusterCostsForAllClusters(cores: Response, ram: Response, storage: Response,
                                    fmt: real -> string, defaultID: string)
    returns (r: Result<map<string, Totals>, TotalsError>)
    ensures FirstFailure(cores, ram, storage).Some? ==> r == Failure(FirstFailure(cores, ram, storage).value)
    ensures FirstFailure(cores, ram, storage).None? ==>
              && r.Success?
              && r.value.Keys == ValuedClusters(cores.parsed.value, defaultID)
                               + ValuedClusters(ram.parsed.value, defaultID)
                               + ValuedClusters(storage.parsed.value, defaultID)
              && forall k :: k in r.value ==>
                   r.value[k] == ClusterTotals(cores.parsed.value, ram.parsed.value, storage.parsed.value, defaultID, fmt, k)
  {
    if cores.Failed? {
      return Failure(ForQuery(ClusterCores, QueryError(cores.msg)));
    }
    if ram.Failed? {
      return Failure(ForQuery(ClusterRAM, QueryError(ram.msg)));
    }
    if storage.Failed? {
      return Failure(ForQuery(ClusterStorage, QueryError(storage.msg)));
    }

    var toReturn: map<string, Totals> := map[];

    var coreTotal := ResultToTotal(cores.parsed, fmt, defaultID);
    if coreTotal.Failure? {
      return Failure(ForQuery(ClusterCores, coreTotal.error));
    }
    toReturn := MergeField(toReturn, coreTotal.value, CpuCost);
    ghost var m1 := toReturn;

    var ramTotal := ResultToTotal(ram.parsed, fmt, defaultID);
    if ramTotal.Failure? {
      return Failure(ForQuery(ClusterRAM, ramTotal.error));
    }
    toReturn := MergeField(toReturn, ramTotal.value, MemCost);
    ghost var m2 := toReturn;

    var storageTotal := ResultToTotal(storage.parsed, fmt, defaultID);
    if storageTotal.Failure? {
      return Failure(ForQuery(ClusterStorage, storageTotal.error));
    }
    toReturn := MergeField(toReturn, storageTotal.value, StorageCost);

    MergedTotals(coreTotal.value, ramTotal.value, storageTotal.value, m1, m2, toReturn);
    forall k | k in toReturn
      ensures toReturn[k] == ClusterTotals(cores.parsed.value, ram.parsed.value, storage.parsed.value, defaultID, fmt, k)
    {
      assert Get(coreTotal.value, k) == FirstTable(cores.parsed.value, k, defaultID, fmt);
      assert Get(ramTotal.value, k) == FirstTable(ram.parsed.value, k, defaultID, fmt);
      assert Get(storageTotal.value, k) == FirstTable(storage.parsed.value, k, defaultID, fmt);
    }
    return Success(toReturn);
  }

  /** The error AverageClusterTotals returns first, if any: errors are passed on as they are. */
  function FirstRawFailure(cores: Response, ram: Response, storage: Response, total: Response): Option<TotalsError>
  {
    if cores.Failed? then Some(QueryError(cores.msg))
    else if ram.Failed? then Some(QueryError(ram.msg))
    else if storage.Failed? then Some(QueryError(storage.msg))
    else if total.Failed? then Some(QueryError(total.msg))
    else if cores.parsed.Failure? then Some(ParseError(cores.parsed.error))
    else if ram.parsed.Failure? then Some(ParseError(ram.parsed.error))
    else if storage.parsed.Failure? then Some(ParseError(storage.parsed.error))
    else if total.parsed.Failure? then Some(ParseError(total.parsed.error))
    else None
  }

  /**
   * AverageClusterTotals after its four queries: the first failure, passed
   * on unwrapped, or the default cluster's table from each query, nil where
   * the default cluster has none.
   */
  method AverageClusterTotals(cores: Response, ram: Response, storage: Response, total: Response,
                              fmt: real -> string, defaultID: string)
    returns (r: Result<Totals, TotalsError>)
    ensures FirstRawFailure(cores, ram, storage, total).Some? ==>
              r == Failure(FirstRawFailure(cores, ram, storage, total).value)
    ensures FirstRawFailure(cores, ram, storage, total).None? ==>
              r == Success(Totals(FirstTable(total.parsed.value, defaultID, defaultID, fmt),
                                  FirstTable(cores.parsed.value, defaultID, defaultID, fmt),
                                  FirstTable(ram.parsed.value, defaultID, defaultID, fmt),
                                  FirstTable(storage.parsed.value, defaultID, defaultID, fmt)))
  {
    if cores.Failed? {
      return Failure(QueryError(cores.msg));
    }
    if ram.Failed? {
      return Failure(QueryError(ram.msg));
    }
    if storage.Failed? {
      return Failure(QueryError(storage.msg));
    }
    if total.Failed? {
      return Failure(QueryError(total.msg));
    }

    var coreTotal := ResultToTotal(cores.parsed, fmt, defaultID);
    if coreTotal.Failure? {
      return Failure(coreTotal.error);
    }
    var ramTotal := ResultToTotal(ram.parsed, fmt, defaultID);
    if ramTotal.Failure? {
      return Failure(ramTotal.error);
    }
    var storageTotal := ResultToTotal(storage.parsed, fmt, defaultID);
    if storageTotal.Failure? {
      return Failure(storageTotal.error);
    }
    var clusterTotal := ResultToTotal(total.parsed, fmt, defaultID);
    if clusterTotal.Failure? {
      return Failure(clusterTotal.error);
    }

    assert Get(clusterTotal.value, defaultID) == FirstTable(total.parsed.value, defaultID, defaultID, fmt);
    assert Get(coreTotal.value, defaultID) == FirstTable(cores.parsed.value, defaultID, defaultID, fmt);
    assert Get(ramTotal.value, defaultID) == FirstTable(ram.parsed.value, defaultID, defaultID, fmt);
    assert Get(storageTotal.value, defaultID) == FirstTable(storage.parsed.value, defaultID, defaultID, fmt);
    return Success(Totals(Get(clusterTotal.value, defaultID), Get(coreTotal.value, defaultID),
                          Get(ramTotal.value, defaultID), Get(storageTotal.value, defaultID)));
  }
}
