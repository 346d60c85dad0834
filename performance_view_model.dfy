/**
 * The performance page: five bounded histories (CPU, RAM, GPU, network, disk)
 * fed by a timer tick, the chart series drawn from them, per-channel
 * statistics, the update-interval choice and the mutually exclusive time-range
 * flags that set the charts' x-axis maximum.
 */
module Performance {
  import opened Wrappers
  import opened Models
  import opened ChartData
  import opened Channels

  /** _maxDataPoints: the capacity of every history. */
  const MaxDataPoints: nat := 300

  /** The initial x-axis maximum of every chart (CreatePlotModel). */
  const InitialAxisMaximum: int := 60

  /**
   * The update-interval picker: index 0 is 1 second, index 2 is 5 seconds, and
   * index 1 and every other index is 2 seconds.
   */
  function IntervalSeconds(index: int): (seconds: int)
    ensures seconds == 1 <==> index == 0
    ensures seconds == 5 <==> index == 2
    ensures seconds == 2 <==> index != 0 && index != 2
  {
    match index
    case 0 => 1
    case 1 => 2
    case 2 => 5
    case _ => 2
  }

  datatype TimeRange = OneMinute | FiveMinutes | FifteenMinutes | ThirtyMinutes | OneHour

  /** The x-axis maximum, in seconds, that selecting a time range sets. */
  function RangeSeconds(r: TimeRange): (seconds: int)
    ensures seconds % 60 == 0 && 60 <= seconds <= 3600
  {
    match r
    case OneMinute => 60
    case FiveMinutes => 300
    case FifteenMinutes => 900
    case ThirtyMinutes => 1800
    case OneHour => 3600
  }

  /** Different ranges set different axis maxima. */
  lemma RangeSecondsInjective(r: TimeRange, q: TimeRange)
    requires RangeSeconds(r) == RangeSeconds(q)
    ensures r == q
  {
  }

  /** The five time-range properties IsOneMinute, IsFiveMinutes, IsFifteenMinutes, IsThirtyMinutes and IsOneHour. */
  datatype RangeFlags = RangeFlags(oneMinute: bool, fiveMinutes: bool, fifteenMinutes: bool, thirtyMinutes: bool, oneHour: bool)
  {
    function Of(r: TimeRange): bool
    {
      match r
      case OneMinute => oneMinute
      case FiveMinutes => fiveMinutes
      case FifteenMinutes => fifteenMinutes
      case ThirtyMinutes => thirtyMinutes
      case OneHour => oneHour
    }
  }

  /** The flags after one property's setter stores a value. */
  function SetFlag(flags: RangeFlags, r: TimeRange, value: bool): (f: RangeFlags)
    ensures f.Of(r) == value
    ensures forall q :: q != r ==> f.Of(q) == flags.Of(q)
  {
    match r
    case OneMinute => flags.(oneMinute := value)
    case FiveMinutes => flags.(fiveMinutes := value)
    case FifteenMinutes => flags.(fifteenMinutes := value)
    case ThirtyMinutes => flags.(thirtyMinutes := value)
    case OneHour => flags.(oneHour := value)
  }

  /** Only the given range selected. */
  function Only(r: TimeRange): (f: RangeFlags)
    ensures forall q :: f.Of(q) == (q == r)
  {
    RangeFlags(r == OneMinute, r == FiveMinutes, r == FifteenMinutes, r == ThirtyMinutes, r == OneHour)
  }

  /** At most one time range is selected, and the x-axes show the selected one. */
  predicate RangesConsistent(flags: RangeFlags, axisMaximum: int)
  {
    && (forall r, q :: flags.Of(r) && flags.Of(q) ==> r == q)
    && (forall r :: flags.Of(r) ==> axisMaximum == RangeSeconds(r))
  }

  // ------------------------------------------------------------ chart series

  /** One chart point: the sample's index and its value. */
  datatype DataPoint = DataPoint(x: real, y: real)

  /** The series a chart draws from a history: the point (i, data[i]) for each element, in order. */
  function Points(data: seq<real>): (points: seq<DataPoint>)
    ensures |points| == |data|
    decreases |data|
  {
    if |data| == 0 then []
    else Points(data[..|data| - 1]) + [DataPoint((|data| - 1) as real, data[|data| - 1])]
  }

  /** The i-th point of a chart is the i-th history value plotted at x = i. */
  lemma {:induction false} PointsAt(data: seq<real>, i: int)
    requires 0 <= i < |data|
    ensures Points(data)[i] == DataPoint(i as real, data[i])
    decreases |data|
  {
    if i < |data| - 1 {
      PointsAt(data[..|data| - 1], i);
    }
  }

  /** UpdateChartSeries: clears a line series and adds one point per history element. */
  method UpdateChartSeries(data: seq<real>) returns (points: seq<DataPoint>)
    ensures points == Points(data)
  {
    points := [];
    var i := 0;
    while i < |data|
      invariant 0 <= i <= |data|
      invariant points == Points(data[..i])
    {
      assert data[..i + 1][..i] == data[..i];
      points := points + [DataPoint(i as real, data[i])];
      i := i + 1;
    }
    assert data[..i] == data;
  }

  // -------------------------------------------------------------- statistics

  /**
   * The statistics shown for the network and disk channels, which have no
   * minimum property.
   */
  datatype PartialStatistics = PartialStatistics(current: real, average: real, max: real)

  function WithoutMin(st: Statistics): PartialStatistics
  {
    PartialStatistics(st.current, st.average, st.max)
  }

  /** One channel's statistic properties after an update: recomputed from a non-empty history, kept otherwise. */
  function Refreshed(previous: Statistics, history: seq<real>): (st: Statistics)
    ensures |history| > 0 ==> st == CalculateStatistics(history)
    ensures |history| == 0 ==> st == previous
  {
    if |history| > 0 then
      Statistics(history[|history| - 1], Minimum(history), Maximum(history), Average(history))
    else previous
  }

  /** The same for a channel without a minimum property. */
  function RefreshedPartial(previous: PartialStatistics, history: seq<real>): (st: PartialStatistics)
    ensures |history| > 0 ==> st == WithoutMin(CalculateStatistics(history))
    ensures |history| == 0 ==> st == previous
  {
    if |history| > 0 then
      PartialStatistics(history[|history| - 1], Average(history), Maximum(history))
    else previous
  }

  // --------------------------------------------------- the view model's state

  /** The five history collections (_cpuHistory, _ramHistory, ...). */
  datatype Histories = Histories(cpu: seq<real>, ram: seq<real>, gpu: seq<real>, network: seq<real>, disk: seq<real>)
  {
    function Of(c: Channel): seq<real>
    {
      match c
      case Cpu => cpu
      case Ram => ram
      case Gpu => gpu
      case Network => network
      case Disk => disk
    }
  }

  /** The points of the line series of the five plot models. */
  datatype Plots = Plots(cpu: seq<DataPoint>, ram: seq<DataPoint>, gpu: seq<DataPoint>,
                         network: seq<DataPoint>, disk: seq<DataPoint>)

  /**
   * The statistic properties: CpuCurrent, CpuMin, CpuMax and CpuAverage (and
   * likewise for RAM and GPU); NetworkCurrent, NetworkAverage and NetworkMax
   * (and likewise for disk).
   */
  datatype StatisticProperties = StatisticProperties(
    cpu: Statistics, ram: Statistics, gpu: Statistics, network: PartialStatistics, disk: PartialStatistics)

  const NoHistories := Histories([], [], [], [], [])
  const NoPlots := Plots([], [], [], [], [])
  const ZeroStatistics := StatisticProperties(
    Statistics(0.0, 0.0, 0.0, 0.0), Statistics(0.0, 0.0, 0.0, 0.0), Statistics(0.0, 0.0, 0.0, 0.0),
    PartialStatistics(0.0, 0.0, 0.0), PartialStatistics(0.0, 0.0, 0.0))

  /** Each history holds the last 300 readings of its channel. */
  ghost predicate FollowSamples(h: Histories, samples: seq<PerformanceMetrics>)
  {
    forall c :: h.Of(c) == LastN(Series(samples, c), MaxDataPoints)
  }

  /** Each chart plots its history. */
  predicate ShowHistories(p: Plots, h: Histories)
  {
    && p.cpu == Points(h.cpu) && p.ram == Points(h.ram) && p.gpu == Points(h.gpu)
    && p.network == Points(h.network) && p.disk == Points(h.disk)
  }

  /** The statistic properties are those of the histories (all zero while they are empty). */
  predicate AgreeWith(st: StatisticProperties, h: Histories)
  {
    && st.cpu == CalculateStatistics(h.cpu)
    && st.ram == CalculateStatistics(h.ram)
    && st.gpu == CalculateStatistics(h.gpu)
    && st.network == WithoutMin(CalculateStatistics(h.network))
    && st.disk == WithoutMin(CalculateStatistics(h.disk))
  }

  /** The five histories follow the samples, so they always have the same length, at most 300. */
  lemma FollowSamplesAligned(h: Histories, samples: seq<PerformanceMetrics>)
    requires FollowSamples(h, samples)
    ensures |h.cpu| == |h.ram| == |h.gpu| == |h.network| == |h.disk| <= MaxDataPoints
    ensures |samples| > 0 ==> forall c :: h.Of(c)[|h.Of(c)| - 1] == Reading(samples[|samples| - 1], c)
  {
    assert h.Of(Cpu) == h.cpu && h.Of(Ram) == h.ram && h.Of(Gpu) == h.gpu;
    assert h.Of(Network) == h.network && h.Of(Disk) == h.disk;
    if |samples| > 0 {
      forall c
        ensures h.Of(c)[|h.Of(c)| - 1] == Reading(samples[|samples| - 1], c)
      {
        SeriesAt(samples, c, |samples| - 1);
      }
    }
  }

  /** The histories after AddToHistory has appended each channel's reading of a sample. */
  function Tick(h: Histories, m: PerformanceMetrics): (r: Histories)
    ensures forall c :: r.Of(c) == Appended(h.Of(c), Reading(m, c), MaxDataPoints)
  {
    Histories(
      Appended(h.cpu, m.cpuUsage, MaxDataPoints),
      Appended(h.ram, m.ramUsagePercent, MaxDataPoints),
      Appended(h.gpu, m.gpuUsage, MaxDataPoints),
      Appended(h.network, m.networkUsageMbps, MaxDataPoints),
      Appended(h.disk, m.diskUsagePercent, MaxDataPoints))
  }

  /** A tick keeps every history the window of its channel, and leaves none empty. */
  lemma TickFollowsSamples(h: Histories, samples: seq<PerformanceMetrics>, m: PerformanceMetrics)
    requires FollowSamples(h, samples)
    ensures FollowSamples(Tick(h, m), samples + [m])
    ensures forall c :: |Tick(h, m).Of(c)| > 0
  {
    forall c
      ensures Tick(h, m).Of(c) == LastN(Series(samples + [m], c), MaxDataPoints)
      ensures |Tick(h, m).Of(c)| > 0
    {
      WindowStep(samples, m, c, h.Of(c), MaxDataPoints);
    }
  }

  /** Statistics refreshed from five non-empty histories are those of the histories. */
  lemma RefreshedAgree(st: StatisticProperties, h: Histories)
    requires forall c :: |h.Of(c)| > 0
    ensures AgreeWith(StatisticProperties(
      Refreshed(st.cpu, h.cpu), Refreshed(st.ram, h.ram), Refreshed(st.gpu, h.gpu),
      RefreshedPartial(st.network, h.network), RefreshedPartial(st.disk, h.disk)), h)
  {
    assert |h.Of(Cpu)| > 0 && |h.Of(Ram)| > 0 && |h.Of(Gpu)| > 0 && |h.Of(Network)| > 0 && |h.Of(Disk)| > 0;
  }

  /**
   * The view model's invariant on its values: the histories follow the
   * samples, the charts and statistics show the histories, and the range
   * flags agree with the axis.
   */
  ghost predicate Consistent(h: Histories, p: Plots, st: StatisticProperties,
                             samples: seq<PerformanceMetrics>, flags: RangeFlags, axisMaximum: int)
  {
    && FollowSamples(h, samples)
    && ShowHistories(p, h)
    && AgreeWith(st, h)
    && RangesConsistent(flags, axisMaximum)
  }

  class PerformanceViewModel {
    /** _updateTimer: absent (null) or a started timer with its interval. */
    var timer: Option<Timer>
    var updateIntervalIndex: int

    var flags: RangeFlags
    /** The x-axis Maximum, which UpdateTimeRange sets on all five charts together. */
    var axisMaximum: int

    var histories: Histories
    var plots: Plots
    var statistics: StatisticProperties

    /** Every sample appended since construction or the last ClearHistory. */
    ghost var samples: seq<PerformanceMetrics>

    ghost predicate Valid()
      reads this
    {
      Consistent(histories, plots, statistics, samples, flags, axisMaximum)
    }

    constructor ()
      ensures Valid()
      ensures timer == None && updateIntervalIndex == 1
      ensures flags == Only(OneMinute)
      ensures axisMaximum == InitialAxisMaximum
      ensures histories == NoHistories && plots == NoPlots && statistics == ZeroStatistics
    {
      timer := None;
      updateIntervalIndex := 1;
      flags := Only(OneMinute);
      axisMaximum := InitialAxisMaximum;
      histories, plots, statistics := NoHistories, NoPlots, ZeroStatistics;
      samples := [];
    }

    /** StartMonitoring: does nothing while a timer exists; otherwise starts one at the chosen interval. */
    method StartMonitoring()
      modifies this`timer
      ensures old(timer).Some? ==> timer == old(timer)
      ensures old(timer).None? ==> timer == Some(Timer(IntervalSeconds(updateIntervalIndex), true))
    {
      if timer.Some? {
        return;
      }
      var interval := IntervalSeconds(updateIntervalIndex);
      timer := Some(Timer(interval, true));
    }

    /** StopMonitoring: stops and drops the timer. */
    method StopMonitoring()
      modifies this`timer
      ensures timer == None
    {
      timer := None;
    }

    /**
     * Setting UpdateIntervalIndex: when the value changes and a timer exists,
     * the timer is replaced by one at the new interval; the histories are not touched.
     */
    method SetUpdateIntervalIndex(value: int)
      modifies this`updateIntervalIndex, this`timer
      ensures updateIntervalIndex == value
      ensures old(timer).Some? && value != old(updateIntervalIndex) ==>
        timer == Some(Timer(IntervalSeconds(value), true))
      ensures old(timer).None? || value == old(updateIntervalIndex) ==> timer == old(timer)
    {
      if value == updateIntervalIndex {
        return;
      }
      updateIntervalIndex := value;
      if timer.Some? {
        StopMonitoring();
        StartMonitoring();
      }
    }

    /**
     * Setting one time-range flag. Only a change fires the handler; a change to
     * true clears the other four flags and sets every x-axis maximum to the
     * range's length. A change to false clears only that flag.
     */
    method SetTimeRange(r: TimeRange, value: bool)
      requires RangesConsistent(flags, axisMaximum)
      modifies this`flags, this`axisMaximum
      ensures RangesConsistent(flags, axisMaximum)
      ensures flags.Of(r) == value
      ensures value && !old(flags.Of(r)) ==> flags == Only(r) && axisMaximum == RangeSeconds(r)
      ensures !(value && !old(flags.Of(r))) ==> flags == SetFlag(old(flags), r, value) && axisMaximum == old(axisMaximum)
    {
      if flags.Of(r) == value {
        assert flags == SetFlag(flags, r, value) by {
          var f := SetFlag(flags, r, value);
          assert forall q :: f.Of(q) == flags.Of(q);
          assert f.Of(OneMinute) == flags.Of(OneMinute) && f.Of(FiveMinutes) == flags.Of(FiveMinutes);
          assert f.Of(FifteenMinutes) == flags.Of(FifteenMinutes) && f.Of(ThirtyMinutes) == flags.Of(ThirtyMinutes);
          assert f.Of(OneHour) == flags.Of(OneHour);
        }
        return;
      }
      if value {
        // The other four setters run with false, whose handlers do nothing.
        flags := Only(r);
        UpdateTimeRange(RangeSeconds(r));
      } else {
        flags := SetFlag(flags, r, false);
      }
    }

    /** UpdateTimeRange: sets the x-axis maximum of all five charts. */
    method UpdateTimeRange(seconds: int)
      modifies this`axisMaximum
      ensures axisMaximum == seconds
    {
      axisMaximum := seconds;
    }

    /**
     * AddToHistory: appends a value to a history and drops the oldest once it
     * holds more than 300. The collection it updates in place is passed in and
     * handed back.
     */
    static method AddToHistory(history: seq<real>, value: real) returns (updated: seq<real>)
      ensures updated == Appended(history, value, MaxDataPoints)
    {
      updated := history + [value];
      if |updated| > MaxDataPoints {
        updated := updated[1..];
      }
    }

    /**
     * UpdateCharts (one timer tick): a sample is appended to all five
     * histories, the charts are redrawn and the statistics recomputed. A null
     * sample, or a failing read (caught and logged), changes nothing.
     */
    method UpdateCharts(read: MetricsRead)
      requires Valid()
      modifies this`histories, this`plots, this`statistics, this`samples
      ensures Valid()
      ensures read.Sample? ==> samples == old(samples) + [read.metrics]
      ensures read.Sample? ==> histories == Tick(old(histories), read.metrics)
      ensures !read.Sample? ==> histories == old(histories) && plots == old(plots) && statistics == old(statistics)
      ensures !read.Sample? ==> samples == old(samples)
    {
      if read.Sample? {
        var m := read.metrics;
        var h, p, st := Advance(histories, plots, statistics, samples, flags, axisMaximum, m);
        histories, plots, statistics, samples := h, p, st, samples + [m];
      }
    }

    /** The body of a tick on values: the five appends, the redraw and the new statistics. */
    static method Advance(h0: Histories, p0: Plots, st0: StatisticProperties, ghost samples: seq<PerformanceMetrics>,
                   flags: RangeFlags, axisMaximum: int, m: PerformanceMetrics)
      returns (h: Histories, p: Plots, st: StatisticProperties)
      requires Consistent(h0, p0, st0, samples, flags, axisMaximum)
      ensures h == Tick(h0, m)
      ensures Consistent(h, p, st, samples + [m], flags, axisMaximum)
    {
      var cpu := AddToHistory(h0.cpu, m.cpuUsage);
      var ram := AddToHistory(h0.ram, m.ramUsagePercent);
      var gpu := AddToHistory(h0.gpu, m.gpuUsage);
      var network := AddToHistory(h0.network, m.networkUsageMbps);
      var disk := AddToHistory(h0.disk, m.diskUsagePercent);
      h := Histories(cpu, ram, gpu, network, disk);
      p := RedrawCharts(h);
      st := UpdateStatistics(st0, h);
      TickFollowsSamples(h0, samples, m);
      RefreshedAgree(st0, h);
    }

    /** The five UpdateChartSeries calls of a tick: the plots redrawn from the histories. */
    static method RedrawCharts(h: Histories) returns (p: Plots)
      ensures ShowHistories(p, h)
    {
      var cpu := UpdateChartSeries(h.cpu);
      var ram := UpdateChartSeries(h.ram);
      var gpu := UpdateChartSeries(h.gpu);
      var network := UpdateChartSeries(h.network);
      var disk := UpdateChartSeries(h.disk);
      p := Plots(cpu, ram, gpu, network, disk);
    }

    /**
     * UpdateStatistics: each channel with a non-empty history takes its last
     * value, average, minimum and maximum; an empty one keeps its properties.
     */
    static method UpdateStatistics(previous: StatisticProperties, h: Histories) returns (st: StatisticProperties)
      ensures st == StatisticProperties(
        Refreshed(previous.cpu, h.cpu), Refreshed(previous.ram, h.ram), Refreshed(previous.gpu, h.gpu),
        RefreshedPartial(previous.network, h.network), RefreshedPartial(previous.disk, h.disk))
    {
      st := previous;
      if |h.cpu| > 0 {
        st := st.(cpu := Refreshed(st.cpu, h.cpu));
      }
      if |h.ram| > 0 {
        st := st.(ram := Refreshed(st.ram, h.ram));
      }
      if |h.gpu| > 0 {
        st := st.(gpu := Refreshed(st.gpu, h.gpu));
      }
      if |h.network| > 0 {
        st := st.(network := RefreshedPartial(st.network, h.network));
      }
      if |h.disk| > 0 {
        st := st.(disk := RefreshedPartial(st.disk, h.disk));
      }
    }

    /** ClearHistory: empties every history and chart and zeroes every statistic. */
    method ClearHistory()
      requires Valid()
      modifies this`histories, this`plots, this`statistics, this`samples
      ensures Valid()
      ensures histories == NoHistories && plots == NoPlots && statistics == ZeroStatistics
      ensures samples == []
    {
      histories, plots, statistics := NoHistories, NoPlots, ZeroStatistics;
      samples := [];
    }
  }
}
