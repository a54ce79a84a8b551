/**
 * The ClusterCosts value object of cluster.go and its constructor
 * NewClusterCostsFromCumulative, which turns cumulative costs over a window
 * into monthly rates.
 */
module ClusterCostModel {
  import opened Wrappers

  /** util.HoursPerMonth: the length of the normalised month. */
  const HoursPerMonth: real := 730.0

  /** util.MinsPerHour. */
  const MinsPerHour: real := 60.0

  /** A resolved time window: its start and end instants, in seconds. */
  datatype TimeRange = TimeRange(start: real, end: real)

  /** The window's length in hours (`end.Sub(start).Hours()`). */
  function Hours(w: TimeRange): real
  {
    (w.end - w.start) / 3600.0
  }

  /** The window's length in minutes (`end.Sub(start).Minutes()`). */
  function Minutes(w: TimeRange): real
  {
    (w.end - w.start) / 60.0
  }

  /** ClusterCostsBreakdown: per-category fractions of a resource's usage. */
  datatype Breakdown = Breakdown(idle: real, other: real, system: real, user: real)

  /** The breakdown a freshly allocated ClusterCostsBreakdown holds. */
  const ZeroBreakdown: Breakdown := Breakdown(0.0, 0.0, 0.0, 0.0)

  /** ClusterCosts: cumulative and monthly-rate costs of one cluster over a window. */
  datatype ClusterCosts = ClusterCosts(
    start: real,
    end: real,
    cpuCumulative: real,
    cpuMonthly: real,
    cpuBreakdown: Option<Breakdown>,
    gpuCumulative: real,
    gpuMonthly: real,
    ramCumulative: real,
    ramMonthly: real,
    ramBreakdown: Option<Breakdown>,
    storageCumulative: real,
    storageMonthly: real,
    storageBreakdown: Option<Breakdown>,
    totalCumulative: real,
    totalMonthly: real)

  /** The errors NewClusterCostsFromCumulative returns. */
  datatype CostError =
    | RangeParseFailure(msg: string)                   // ParseTimeRange's own error, passed through
    | IllegalTimeRange(window: string, offset: string) // the window has zero length

  /**
   * The hours the monthly rate is computed against: the given `dataHours`,
   * or the window's length when `dataHours` is zero.
   */
  function EffectiveHours(w: TimeRange, dataHours: real): real
  {
    if dataHours == 0.0 then Hours(w) else dataHours
  }

  /** A cumulative cost over `hours` hours scaled to a monthly rate. */
  function MonthlyRate(cumulative: real, hours: real): real
    requires hours != 0.0
  {
    cumulative / hours * HoursPerMonth
  }

  /**
   * NewClusterCostsFromCumulative. `parsed` is the outcome of
   * ParseTimeRange(window, offset). Fails with the parse error, or with
   * IllegalTimeRange when neither `dataHours` nor the window gives a
   * non-zero number of hours; otherwise the four cumulative costs are kept
   * and the cumulative total adds them up. The monthly figures are described
   * by MonthlyRates.
   */
  function NewClusterCostsFromCumulative(cpu: real, gpu: real, ram: real, storage: real,
                                         parsed: Result<TimeRange, string>,
                                         window: string, offset: string,
                                         dataHours: real): (r: Result<ClusterCosts, CostError>)
    ensures parsed.Failure? ==> r == Failure(RangeParseFailure(parsed.error))
    ensures parsed.Success? ==>
      (r.Failure? <==> EffectiveHours(parsed.value, dataHours) == 0.0)
    ensures parsed.Success? && dataHours != 0.0 ==> r.Success?
    ensures r.Failure? && parsed.Success? ==> r.error == IllegalTimeRange(window, offset)
    ensures r.Success? ==>
      var c, h := r.value, EffectiveHours(parsed.value, dataHours);
      && h != 0.0
      && c.start == parsed.value.start && c.end == parsed.value.end
      && c.cpuCumulative == cpu && c.gpuCumulative == gpu
      && c.ramCumulative == ram && c.storageCumulative == storage
      && c.totalCumulative == cpu + gpu + ram + storage
      && c.cpuBreakdown.None? && c.ramBreakdown.None? && c.storageBreakdown.None?
  {
    match parsed
    case Failure(e) => Failure(RangeParseFailure(e))
    case Success(w) =>
      var hours := EffectiveHours(w, dataHours);
      if hours == 0.0 then Failure(IllegalTimeRange(window, offset))
      else
        var cpuMonthly := MonthlyRate(cpu, hours);
        var gpuMonthly := MonthlyRate(gpu, hours);
        var ramMonthly := MonthlyRate(ram, hours);
        var storageMonthly := MonthlyRate(storage, hours);
        Success(ClusterCosts(
          w.start, w.end,
          cpu, cpuMonthly, None,
          gpu, gpuMonthly,
          ram, ramMonthly, None,
          storage, storageMonthly, None,
          cpu + gpu + ram + storage,
          cpuMonthly + gpuMonthly + ramMonthly + storageMonthly))
  }

  /**
   * Each monthly figure is its cumulative cost per hour times the hours in a
   * month, and the monthly total adds up the four monthly figures.
   */
  lemma MonthlyRates(cpu: real, gpu: real, ram: real, storage: real,
                     parsed: Result<TimeRange, string>,
                     window: string, offset: string, dataHours: real)
    requires NewClusterCostsFromCumulative(cpu, gpu, ram, storage, parsed, window, offset, dataHours).Success?
    ensures var c := NewClusterCostsFromCumulative(cpu, gpu, ram, storage, parsed, window, offset, dataHours).value;
            var h := EffectiveHours(parsed.value, dataHours);
            && c.cpuMonthly * h == cpu * HoursPerMonth
            && c.gpuMonthly * h == gpu * HoursPerMonth
            && c.ramMonthly * h == ram * HoursPerMonth
            && c.storageMonthly * h == storage * HoursPerMonth
            && c.totalMonthly == c.cpuMonthly + c.gpuMonthly + c.ramMonthly + c.storageMonthly
  {
  }

  /**
   * The monthly total is the monthly rate of the cumulative total: summing
   * then normalising agrees with normalising then summing.
   */
  lemma TotalMonthlyIsRateOfTotal(cpu: real, gpu: real, ram: real, storage: real,
                                  parsed: Result<TimeRange, string>,
                                  window: string, offset: string, dataHours: real)
    requires NewClusterCostsFromCumulative(cpu, gpu, ram, storage, parsed, window, offset, dataHours).Success?
    ensures var c := NewClusterCostsFromCumulative(cpu, gpu, ram, storage, parsed, window, offset, dataHours).value;
            c.totalMonthly == c.totalCumulative / EffectiveHours(parsed.value, dataHours) * HoursPerMonth
  {
    var h := EffectiveHours(parsed.value, dataHours);
    var c := NewClusterCostsFromCumulative(cpu, gpu, ram, storage, parsed, window, offset, dataHours).value;
    calc {
      c.totalMonthly;
      cpu / h * HoursPerMonth + gpu / h * HoursPerMonth + ram / h * HoursPerMonth + storage / h * HoursPerMonth;
      { assert cpu / h + gpu / h + ram / h + storage / h == (cpu + gpu + ram + storage) / h; }
      (cpu + gpu + ram + storage) / h * HoursPerMonth;
    }
  }

  /**
   * The cumulative costs are recovered from the monthly ones: multiplying a
   * monthly rate back by the hours and dividing by the month length is the
   * identity on each category and on the total.
   */
  lemma MonthlyRoundTrip(cpu: real, gpu: real, ram: real, storage: real,
                         parsed: Result<TimeRange, string>,
                         window: string, offset: string, dataHours: real)
    requires NewClusterCostsFromCumulative(cpu, gpu, ram, storage, parsed, window, offset, dataHours).Success?
    ensures var c := NewClusterCostsFromCumulative(cpu, gpu, ram, storage, parsed, window, offset, dataHours).value;
            var h := EffectiveHours(parsed.value, dataHours);
            && c.cpuMonthly * h / HoursPerMonth == c.cpuCumulative
            && c.gpuMonthly * h / HoursPerMonth == c.gpuCumulative
            && c.ramMonthly * h / HoursPerMonth == c.ramCumulative
            && c.storageMonthly * h / HoursPerMonth == c.storageCumulative
            && c.totalMonthly * h / HoursPerMonth == c.totalCumulative
  {
    TotalMonthlyIsRateOfTotal(cpu, gpu, ram, storage, parsed, window, offset, dataHours);
    MonthlyRates(cpu, gpu, ram, storage, parsed, window, offset, dataHours);
  }

  /**
   * A non-zero `dataHours` overrides the window: two windows give the same
   * monthly figures whenever the data hours are given.
   */
  lemma DataHoursOverrideWindow(cpu: real, gpu: real, ram: real, storage: real,
                                w1: TimeRange, w2: TimeRange,
                                window: string, offset: string, dataHours: real)
    requires dataHours != 0.0
    ensures var c1 := NewClusterCostsFromCumulative(cpu, gpu, ram, storage, Success(w1), window, offset, dataHours);
            var c2 := NewClusterCostsFromCumulative(cpu, gpu, ram, storage, Success(w2), window, offset, dataHours);
            && c1.Success? && c2.Success?
            && c1.value.(start := w2.start, end := w2.end) == c2.value
  {
  }

  /**
   * With no data hours a window of positive length succeeds, and the rate is
   * taken against the window's length; a zero-length window always fails.
   */
  lemma ZeroDataHoursFallsBackToWindow(cpu: real, gpu: real, ram: real, storage: real,
                                       w: TimeRange, window: string, offset: string)
    ensures var r := NewClusterCostsFromCumulative(cpu, gpu, ram, storage, Success(w), window, offset, 0.0);
            && (r.Success? <==> w.end != w.start)
            && (r.Success? ==> r.value.cpuMonthly * Hours(w) == cpu * HoursPerMonth)
            && (r.Success? ==> r.value.gpuMonthly * Hours(w) == gpu * HoursPerMonth)
            && (r.Success? ==> r.value.ramMonthly * Hours(w) == ram * HoursPerMonth)
            && (r.Success? ==> r.value.storageMonthly * Hours(w) == storage * HoursPerMonth)
            && (r.Failure? ==> r.error == IllegalTimeRange(window, offset))
  {
    var r := NewClusterCostsFromCumulative(cpu, gpu, ram, storage, Success(w), window, offset, 0.0);
    if r.Success? {
      MonthlyRates(cpu, gpu, ram, storage, Success(w), window, offset, 0.0);
    }
  }
}
