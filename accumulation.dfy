/**
 * The intermediate per-cluster cost map of ComputeClusterCosts and the
 * setCostsFromResults helper that fills it: every series is filed under its
 * cluster, and its discounted leading value is added to its category and to
 * "total".
 */
module Accumulation {
  import opened QueryResults

  /**
   * The keys of costData's inner maps. The source keys them by the strings
   * "cpu", "gpu", "ram", "storage" and "total"; no other key is ever used.
   */
  datatype Category = Cpu | Gpu | Ram | Storage | Total

  /** costData: cluster ID -> cost category -> accumulated cost. */
  type CostData = map<string, map<Category, real>>

  /** A Go map read: a missing key reads as zero. */
  function Lookup(m: map<Category, real>, key: Category): real
  {
    if key in m then m[key] else 0.0
  }

  /** `costData[id][category]`, zero when either key is missing. */
  function Cost(cd: CostData, id: string, category: Category): real
  {
    if id in cd then Lookup(cd[id], category) else 0.0
  }

  /** The amount one series adds: its leading value scaled by both discounts. */
  function Discounted(v: real, discount: real, customDiscount: real): real
  {
    v * (1.0 - discount) * (1.0 - customDiscount)
  }

  /** The combined scale factor `(1 - discount) * (1 - customDiscount)`. */
  function Factor(discount: real, customDiscount: real): real
  {
    (1.0 - discount) * (1.0 - customDiscount)
  }

  lemma DiscountedIsScaled(v: real, discount: real, customDiscount: real)
    ensures Discounted(v, discount, customDiscount) == v * Factor(discount, customDiscount)
  {
  }

  lemma Distribute(x: real, s: real, f: real)
    ensures x * f + s * f == (x + s) * f
  {
  }

  /**
   * One iteration of setCostsFromResults: make sure the series' cluster has an
   * entry, and if the series has values add its discounted leading value to
   * `name` and to "total".
   */
  function AddSeries(cd: CostData, r: QueryResult, name: Category,
                     discount: real, customDiscount: real, defaultID: string): CostData
  {
    var id := ClusterOf(r, defaultID);
    var inner := if id in cd then cd[id] else map[];
    cd[id := if HasValues(r) then Deposit(inner, name, Discounted(r.values[0].value, discount, customDiscount))
             else inner]
  }

  /** Adds `amount` to category `name` and to "total". */
  function Deposit(inner: map<Category, real>, name: Category, amount: real): map<Category, real>
  {
    var inner' := inner[name := Lookup(inner, name) + amount];
    inner'[Total := Lookup(inner', Total) + amount]
  }

  /** setCostsFromResults as a fold of AddSeries over the results, in order. */
  function Accumulate(cd: CostData, rs: seq<QueryResult>, name: Category,
                      discount: real, customDiscount: real, defaultID: string): CostData
    decreases |rs|
  {
    if rs == [] then cd
    else Accumulate(AddSeries(cd, rs[0], name, discount, customDiscount, defaultID),
                    rs[1..], name, discount, customDiscount, defaultID)
  }

  /** setCostsFromResults: folds every series of `results` into `costData`. */
  method SetCostsFromResults(costData: CostData, results: seq<QueryResult>, name: Category,
                             discount: real, customDiscount: real, defaultID: string)
    returns (out: CostData)
    ensures out == Accumulate(costData, results, name, discount, customDiscount, defaultID)
  {
    out := costData;
    for i := 0 to |results|
      invariant Accumulate(out, results[i..], name, discount, customDiscount, defaultID)
             == Accumulate(costData, results, name, discount, customDiscount, defaultID)
    {
      ghost var before := out;
      var result := results[i];
      var clusterID := if ClusterLabel in result.labels then result.labels[ClusterLabel] else "";
      if clusterID == "" {
        clusterID := defaultID;
      }
      assert clusterID == ClusterOf(result, defaultID);
      var inner := if clusterID in out then out[clusterID] else map[];
      if |result.values| > 0 {
        inner := Deposit(inner, name, Discounted(result.values[0].value, discount, customDiscount));
      }
      out := out[clusterID := inner];
      assert out == AddSeries(before, result, name, discount, customDiscount, defaultID);
      assert results[i..][1..] == results[i + 1..];
    }
  }

  /** Depositing moves `name` and "total" by the amount and leaves every other category alone. */
  lemma DepositAt(inner: map<Category, real>, name: Category, amount: real, c: Category)
    requires name != Total
    ensures Lookup(Deposit(inner, name, amount), c)
         == Lookup(inner, c) + (if c == name || c == Total then amount else 0.0)
  {
  }

  /** The effect of one series on one cluster's figures. */
  lemma AddSeriesAmounts(cd: CostData, r: QueryResult, name: Category,
                         discount: real, customDiscount: real, defaultID: string,
                         k: string, c: Category)
    requires name != Total
    ensures Cost(AddSeries(cd, r, name, discount, customDiscount, defaultID), k, c)
         == Cost(cd, k, c) + (if c == name || c == Total then Amount(r, k, discount, customDiscount, defaultID) else 0.0)
  {
    var id := ClusterOf(r, defaultID);
    var inner := if id in cd then cd[id] else map[];
    if HasValues(r) {
      var amount := Discounted(r.values[0].value, discount, customDiscount);
      DepositAt(inner, name, amount, c);
      assert AddSeries(cd, r, name, discount, customDiscount, defaultID) == cd[id := Deposit(inner, name, amount)];
    } else {
      assert AddSeries(cd, r, name, discount, customDiscount, defaultID) == cd[id := inner];
    }
  }

  /** What one series adds to cluster `k`'s figures. */
  function Amount(r: QueryResult, k: string, discount: real, customDiscount: real, defaultID: string): real
  {
    if ClusterOf(r, defaultID) == k && HasValues(r) then Discounted(r.values[0].value, discount, customDiscount)
    else 0.0
  }

  /** The amounts the series of `rs` add to cluster `k`'s figures, summed. */
  function DiscountedSum(rs: seq<QueryResult>, k: string, discount: real, customDiscount: real,
                         defaultID: string): real
  {
    if rs == [] then 0.0
    else Amount(rs[0], k, discount, customDiscount, defaultID)
         + DiscountedSum(rs[1..], k, discount, customDiscount, defaultID)
  }

  /** Discounting each series and then summing is discounting the sum. */
  lemma {:induction false} DiscountedSumIsScaledSum(rs: seq<QueryResult>, k: string,
                                                    discount: real, customDiscount: real, defaultID: string)
    ensures DiscountedSum(rs, k, discount, customDiscount, defaultID)
         == ClusterSum(rs, k, defaultID) * Factor(discount, customDiscount)
  {
    if rs != [] {
      DiscountedSumIsScaledSum(rs[1..], k, discount, customDiscount, defaultID);
      if HasValues(rs[0]) {
        DiscountedIsScaled(rs[0].values[0].value, discount, customDiscount);
      }
      Distribute(Share(rs[0], k, defaultID), ClusterSum(rs[1..], k, defaultID), Factor(discount, customDiscount));
    }
  }

  /** AccumulateAmounts, with the amounts as the sum of the per-series discounted amounts. */
  lemma {:induction false} AccumulateDiscounted(cd: CostData, rs: seq<QueryResult>, name: Category,
                                                discount: real, customDiscount: real, defaultID: string,
                                                k: string, other: Category)
    requires name != Total
    ensures var cd' := Accumulate(cd, rs, name, discount, customDiscount, defaultID);
            var added := DiscountedSum(rs, k, discount, customDiscount, defaultID);
            && Cost(cd', k, name) == Cost(cd, k, name) + added
            && Cost(cd', k, Total) == Cost(cd, k, Total) + added
            && (other != name && other != Total ==> Cost(cd', k, other) == Cost(cd, k, other))
    decreases |rs|
  {
    if rs != [] {
      var cd1 := AddSeries(cd, rs[0], name, discount, customDiscount, defaultID);
      AddSeriesAmounts(cd, rs[0], name, discount, customDiscount, defaultID, k, name);
      AddSeriesAmounts(cd, rs[0], name, discount, customDiscount, defaultID, k, Total);
      AddSeriesAmounts(cd, rs[0], name, discount, customDiscount, defaultID, k, other);
      AccumulateDiscounted(cd1, rs[1..], name, discount, customDiscount, defaultID, k, other);
    }
  }

  /**
   * What setCostsFromResults adds up: each cluster's `name` figure and its
   * "total" grow by the sum of the leading values of the series filed under
   * it, scaled by both discounts, and every other category is left alone.
   */
  lemma AccumulateAmounts(cd: CostData, rs: seq<QueryResult>, name: Category,
                          discount: real, customDiscount: real, defaultID: string,
                          k: string, other: Category)
    requires name != Total
    ensures var cd' := Accumulate(cd, rs, name, discount, customDiscount, defaultID);
            var added := ClusterSum(rs, k, defaultID) * Factor(discount, customDiscount);
            && Cost(cd', k, name) == Cost(cd, k, name) + added
            && Cost(cd', k, Total) == Cost(cd, k, Total) + added
            && (other != name && other != Total ==> Cost(cd', k, other) == Cost(cd, k, other))
  {
    AccumulateDiscounted(cd, rs, name, discount, customDiscount, defaultID, k, other);
    DiscountedSumIsScaledSum(rs, k, discount, customDiscount, defaultID);
  }

  /** AccumulateDiscounted for one category at a time. */
  lemma AccumulateAt(cd: CostData, rs: seq<QueryResult>, name: Category,
                     discount: real, customDiscount: real, defaultID: string,
                     k: string, c: Category)
    requires name != Total
    ensures Cost(Accumulate(cd, rs, name, discount, customDiscount, defaultID), k, c)
         == Cost(cd, k, c) + (if c == name || c == Total then DiscountedSum(rs, k, discount, customDiscount, defaultID) else 0.0)
  {
    AccumulateDiscounted(cd, rs, name, discount, customDiscount, defaultID, k, c);
  }

  /**
   * Every series creates its cluster's entry, whether or not it has values,
   * and no other entry is created.
   */
  lemma {:induction false} AccumulateKeys(cd: CostData, rs: seq<QueryResult>, name: Category,
                                          discount: real, customDiscount: real, defaultID: string)
    ensures Accumulate(cd, rs, name, discount, customDiscount, defaultID).Keys
         == cd.Keys + Clusters(rs, defaultID)
    decreases |rs|
  {
    if rs != [] {
      var cd1 := AddSeries(cd, rs[0], name, discount, customDiscount, defaultID);
      AccumulateKeys(cd1, rs[1..], name, discount, customDiscount, defaultID);
    }
  }

  /** Every cluster's "total" is the sum of its four categories. */
  ghost predicate TotalsConsistent(cd: CostData)
  {
    forall k :: k in cd ==> Cost(cd, k, Total) == Cost(cd, k, Cpu) + Cost(cd, k, Gpu) + Cost(cd, k, Ram) + Cost(cd, k, Storage)
  }

  /**
   * setCostsFromResults on a category keeps "total" equal to the sum of the
   * categories, so costData's "total" agrees with the TotalCumulative that
   * materialisation computes from the four categories.
   */
  lemma {:induction false} AccumulateKeepsTotals(cd: CostData, rs: seq<QueryResult>, name: Category,
                                                 discount: real, customDiscount: real, defaultID: string)
    requires name != Total
    requires TotalsConsistent(cd)
    ensures TotalsConsistent(Accumulate(cd, rs, name, discount, customDiscount, defaultID))
    decreases |rs|
  {
    if rs != [] {
      var cd1 := AddSeries(cd, rs[0], name, discount, customDiscount, defaultID);
      forall k | k in cd1
        ensures Cost(cd1, k, Total) == Cost(cd1, k, Cpu) + Cost(cd1, k, Gpu) + Cost(cd1, k, Ram) + Cost(cd1, k, Storage)
      {
        AddSeriesAmounts(cd, rs[0], name, discount, customDiscount, defaultID, k, Cpu);
        AddSeriesAmounts(cd, rs[0], name, discount, customDiscount, defaultID, k, Gpu);
        AddSeriesAmounts(cd, rs[0], name, discount, customDiscount, defaultID, k, Ram);
        AddSeriesAmounts(cd, rs[0], name, discount, customDiscount, defaultID, k, Storage);
        AddSeriesAmounts(cd, rs[0], name, discount, customDiscount, defaultID, k, Total);
        if k !in cd {
          assert Cost(cd, k, Total) == 0.0 && Cost(cd, k, Cpu) == 0.0 && Cost(cd, k, Gpu) == 0.0
              && Cost(cd, k, Ram) == 0.0 && Cost(cd, k, Storage) == 0.0;
        }
      }
      AccumulateKeepsTotals(cd1, rs[1..], name, discount, customDiscount, defaultID);
    }
  }
}
