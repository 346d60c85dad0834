/**
 * The overview page: the current sample, three short histories (CPU, RAM,
 * GPU) of at most 60 values, a status line and the monitoring switch that
 * owns a one-second update timer.
 */
module Overview {
  import opened Wrappers
  import opened Models
  import opened ChartData
  import opened Channels

  /** _maxHistoryPoints: the capacity of the three histories. */
  const MaxHistoryPoints: nat := 60

  /** The interval, in seconds, of the timer StartMonitoring creates. */
  const UpdateIntervalSeconds: int := 1

  /** The sample the page starts with: every figure zero, stamped with the construction time. */
  function DefaultMetrics(now: Timestamp): PerformanceMetrics
  {
    PerformanceMetrics(0.0, 0.0, 0, 0, 0.0, 0.0, 0.0, 0, 0, now)
  }

  /** The three history collections (CpuHistory, RamHistory, GpuHistory). */
  datatype Trend = Trend(cpu: seq<real>, ram: seq<real>, gpu: seq<real>)

  const EmptyTrend := Trend([], [], [])

  /** The histories after AddToHistory has appended the three readings of a sample. */
  function Push(t: Trend, m: PerformanceMetrics): (r: Trend)
    ensures r.cpu == Appended(t.cpu, Reading(m, Cpu), MaxHistoryPoints)
    ensures r.ram == Appended(t.ram, Reading(m, Ram), MaxHistoryPoints)
    ensures r.gpu == Appended(t.gpu, Reading(m, Gpu), MaxHistoryPoints)
  {
    Trend(
      Appended(t.cpu, m.cpuUsage, MaxHistoryPoints),
      Appended(t.ram, m.ramUsagePercent, MaxHistoryPoints),
      Appended(t.gpu, m.gpuUsage, MaxHistoryPoints))
  }

  /** Each history holds the last 60 readings of its quantity. */
  ghost predicate Follows(t: Trend, samples: seq<PerformanceMetrics>)
  {
    && t.cpu == LastN(Series(samples, Cpu), MaxHistoryPoints)
    && t.ram == LastN(Series(samples, Ram), MaxHistoryPoints)
    && t.gpu == LastN(Series(samples, Gpu), MaxHistoryPoints)
  }

  /** Pushing a sample keeps the histories the windows of the longer run of samples. */
  lemma PushFollows(t: Trend, samples: seq<PerformanceMetrics>, m: PerformanceMetrics)
    requires Follows(t, samples)
    ensures Follows(Push(t, m), samples + [m])
  {
    WindowStep(samples, m, Cpu, t.cpu, MaxHistoryPoints);
    WindowStep(samples, m, Ram, t.ram, MaxHistoryPoints);
    WindowStep(samples, m, Gpu, t.gpu, MaxHistoryPoints);
  }

  /**
   * Histories that follow the samples have one length, at most 60, and end
   * with the readings of the newest sample.
   */
  lemma FollowsAligned(t: Trend, samples: seq<PerformanceMetrics>)
    requires Follows(t, samples)
    ensures |t.cpu| == |t.ram| == |t.gpu| <= MaxHistoryPoints
    ensures |samples| > 0 ==> |t.cpu| > 0
    ensures |samples| > 0 ==> t.cpu[|t.cpu| - 1] == samples[|samples| - 1].cpuUsage
    ensures |samples| > 0 ==> t.ram[|t.ram| - 1] == samples[|samples| - 1].ramUsagePercent
    ensures |samples| > 0 ==> t.gpu[|t.gpu| - 1] == samples[|samples| - 1].gpuUsage
  {
    if |samples| > 0 {
      SeriesAt(samples, Cpu, |samples| - 1);
      SeriesAt(samples, Ram, |samples| - 1);
      SeriesAt(samples, Gpu, |samples| - 1);
    }
  }

  class OverviewViewModel {
    /** _updateTimer: absent (null) until the first start; StopMonitoring stops it but keeps it. */
    var timer: Option<Timer>
    var currentMetrics: PerformanceMetrics
    var trend: Trend
    var statusText: string
    var isMonitoring: bool

    /** Every sample taken since construction. */
    ghost var samples: seq<PerformanceMetrics>

    ghost predicate Valid()
      reads this
    {
      && Follows(trend, samples)
      && (|samples| > 0 ==> currentMetrics == samples[|samples| - 1])
      && (isMonitoring ==> timer == Some(Timer(UpdateIntervalSeconds, true)))
      && (!isMonitoring ==> timer.None? || !timer.value.running)
    }

    /** The page starts with a zero sample stamped now, empty histories and monitoring off. */
    constructor (now: Timestamp)
      ensures Valid()
      ensures timer == None && !isMonitoring
      ensures currentMetrics == DefaultMetrics(now)
      ensures trend == EmptyTrend && statusText == "Initializing..."
    {
      timer := None;
      currentMetrics := DefaultMetrics(now);
      trend := EmptyTrend;
      statusText := "Initializing...";
      isMonitoring := false;
      samples := [];
    }

    /** StartMonitoring: does nothing while monitoring; otherwise starts a new one-second timer. */
    method StartMonitoring()
      requires Valid()
      modifies this`timer, this`isMonitoring, this`statusText
      ensures Valid()
      ensures old(isMonitoring) ==> timer == old(timer) && isMonitoring && statusText == old(statusText)
      ensures !old(isMonitoring) ==>
        timer == Some(Timer(UpdateIntervalSeconds, true)) && isMonitoring && statusText == "Monitoring active"
    {
      if isMonitoring {
        return;
      }
      timer := Some(Timer(UpdateIntervalSeconds, true));
      isMonitoring := true;
      statusText := "Monitoring active";
    }

    /** StopMonitoring: does nothing unless monitoring; otherwise stops the timer and clears IsMonitoring. */
    method StopMonitoring()
      requires Valid()
      modifies this`timer, this`isMonitoring, this`statusText
      ensures Valid()
      ensures !old(isMonitoring) ==> timer == old(timer) && !isMonitoring && statusText == old(statusText)
      ensures old(isMonitoring) ==>
        timer == Some(Timer(UpdateIntervalSeconds, false)) && !isMonitoring && statusText == "Monitoring stopped"
    {
      if !isMonitoring {
        return;
      }
      if timer.Some? {
        timer := Some(timer.value.(running := false));
      }
      isMonitoring := false;
      statusText := "Monitoring stopped";
    }

    /**
     * AddToHistory: appends a value and removes the oldest once there are more
     * than 60. The collection it updates in place is passed in and handed back.
     */
    method AddToHistory(history: seq<real>, value: real) returns (updated: seq<real>)
      ensures updated == Appended(history, value, MaxHistoryPoints)
    {
      updated := history + [value];
      if |updated| > MaxHistoryPoints {
        updated := updated[1..];
      }
    }

    /** The common part of both UpdateMetrics overloads for a non-null sample. */
    method Take(m: PerformanceMetrics)
      requires Valid()
      modifies this`currentMetrics, this`trend, this`samples
      ensures Valid()
      ensures currentMetrics == m && trend == Push(old(trend), m) && samples == old(samples) + [m]
    {
      var cpu := AddToHistory(trend.cpu, m.cpuUsage);
      var ram := AddToHistory(trend.ram, m.ramUsagePercent);
      var gpu := AddToHistory(trend.gpu, m.gpuUsage);
      PushFollows(trend, samples, m);
      currentMetrics, trend, samples := m, Trend(cpu, ram, gpu), samples + [m];
    }

    /**
     * UpdateMetrics(): one tick. The monitor's answer is read: a sample becomes
     * the current one, is added to the histories and the status shows the
     * update time (clock, already formatted as HH:mm:ss); a null sample changes
     * nothing; a failing read is caught and reported in the status.
     */
    method UpdateMetrics(read: MetricsRead, clock: string)
      requires Valid()
      modifies this`currentMetrics, this`trend, this`samples, this`statusText
      ensures Valid()
      ensures read.Sample? ==>
        && currentMetrics == read.metrics && trend == Push(old(trend), read.metrics)
        && samples == old(samples) + [read.metrics] && statusText == "Updated: " + clock
      ensures read.NullSample? ==>
        currentMetrics == old(currentMetrics) && trend == old(trend) && samples == old(samples) && statusText == old(statusText)
      ensures read.ReadFailed? ==>
        && currentMetrics == old(currentMetrics) && trend == old(trend) && samples == old(samples)
        && statusText == "Error updating metrics"
    {
      match read
      case Sample(m) =>
        Take(m);
        statusText := "Updated: " + clock;
      case NullSample =>
      case ReadFailed =>
        statusText := "Error updating metrics";
    }

    /** UpdateMetrics(metrics): a null argument changes nothing; a sample is taken without touching the status. */
    method UpdateMetricsWith(metrics: Option<PerformanceMetrics>)
      requires Valid()
      modifies this`currentMetrics, this`trend, this`samples
      ensures Valid()
      ensures metrics.Some? ==>
        currentMetrics == metrics.value && trend == Push(old(trend), metrics.value) && samples == old(samples) + [metrics.value]
      ensures metrics.None? ==> currentMetrics == old(currentMetrics) && trend == old(trend) && samples == old(samples)
    {
      if metrics.None? {
        return;
      }
      Take(metrics.value);
    }

    /** RefreshNow: the same as a timer tick. */
    method RefreshNow(read: MetricsRead, clock: string)
      requires Valid()
      modifies this`currentMetrics, this`trend, this`samples, this`statusText
      ensures Valid()
      ensures read.Sample? ==>
        && currentMetrics == read.metrics && trend == Push(old(trend), read.metrics)
        && samples == old(samples) + [read.metrics] && statusText == "Updated: " + clock
      ensures read.NullSample? ==>
        currentMetrics == old(currentMetrics) && trend == old(trend) && samples == old(samples) && statusText == old(statusText)
      ensures read.ReadFailed? ==>
        && currentMetrics == old(currentMetrics) && trend == old(trend) && samples == old(samples)
        && statusText == "Error updating metrics"
    {
      UpdateMetrics(read, clock);
    }
  }
}
