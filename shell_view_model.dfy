/**
 * The window shell: the system sample shown in the title area, the status
 * line, and the refresh timer whose interval comes from the settings service.
 */
module Shell {
  import opened Wrappers
  import opened Models
  import opened Settings

  /** The bounds ChangeRefreshInterval accepts, in seconds. */
  const MinRefreshInterval := 1
  const MaxRefreshInterval := 60

  /** The sample the shell starts with: every figure zero, stamped with the construction time. */
  function EmptyMetrics(now: Timestamp): PerformanceMetrics
  {
    PerformanceMetrics(0.0, 0.0, 0, 0, 0.0, 0.0, 0.0, 0, 0, now)
  }

  /** Whether ChangeRefreshInterval acts on a requested interval. */
  predicate AcceptedInterval(seconds: int)
  {
    MinRefreshInterval <= seconds <= MaxRefreshInterval
  }

  class ShellViewModel {
    const settingsService: SettingsService
    /** _updateTimer: absent until initialisation creates it; Shutdown stops it but keeps it. */
    var timer: Option<Timer>
    var systemMetrics: PerformanceMetrics
    var appTitle: string
    var statusText: string
    var isMonitoring: bool
    var refreshInterval: int

    /** A timer always ticks at RefreshInterval, and monitoring means the timer runs. */
    predicate Valid()
      reads this`timer, this`isMonitoring, this`refreshInterval
    {
      && (timer.Some? ==> timer.value.interval == refreshInterval)
      && (isMonitoring ==> timer.Some? && timer.value.running)
    }

    /**
     * The constructor sets an empty sample and runs InitializeMonitoring: the
     * interval is read from the settings, a timer at that interval is started,
     * IsMonitoring is set and a first update runs. When reading the interval
     * fails, only the status reports it. read and clock are the first
     * update's monitor answer and time of day.
     */
    constructor (settingsService: SettingsService, now: Timestamp, read: MetricsRead, clock: string)
      ensures Valid()
      ensures this.settingsService == settingsService
      ensures appTitle == "SystemPulse"
      ensures var stored := Lookup(settingsService.settings, RefreshIntervalKey, Whole(DefaultRefreshInterval));
        && (stored.Success? ==>
              && refreshInterval == stored.value.n && timer == Some(Timer(refreshInterval, true)) && isMonitoring
              && systemMetrics == (if read.Sample? then read.metrics else EmptyMetrics(now))
              && statusText == (match read
                                case Sample(_) => "Updated: " + clock
                                case NullSample => "Ready"
                                case ReadFailed => "Error updating metrics"))
        && (stored.Failure? ==>
              && refreshInterval == DefaultRefreshInterval && timer == None && !isMonitoring
              && systemMetrics == EmptyMetrics(now) && statusText == "Monitoring initialization failed")
    {
      this.settingsService := settingsService;
      timer := None;
      systemMetrics := EmptyMetrics(now);
      appTitle := "SystemPulse";
      statusText := "Ready";
      isMonitoring := false;
      refreshInterval := DefaultRefreshInterval;
      new;
      var interval := settingsService.GetRefreshInterval();
      if interval.Failure? {
        statusText := "Monitoring initialization failed";
        return;
      }
      refreshInterval := interval.value;
      timer := Some(Timer(refreshInterval, true));
      isMonitoring := true;
      UpdateMetrics(read, clock);
    }

    /**
     * UpdateMetrics: a sample becomes SystemMetrics and the status shows the
     * update time; a null sample changes nothing; a failing read is reported.
     */
    method UpdateMetrics(read: MetricsRead, clock: string)
      modifies this`systemMetrics, this`statusText
      ensures read.Sample? ==> systemMetrics == read.metrics && statusText == "Updated: " + clock
      ensures read.NullSample? ==> systemMetrics == old(systemMetrics) && statusText == old(statusText)
      ensures read.ReadFailed? ==> systemMetrics == old(systemMetrics) && statusText == "Error updating metrics"
    {
      match read
      case Sample(m) =>
        systemMetrics := m;
        statusText := "Updated: " + clock;
      case NullSample =>
      case ReadFailed =>
        statusText := "Error updating metrics";
    }

    /**
     * ChangeRefreshInterval: an interval outside [1, 60] is ignored. Otherwise
     * RefreshInterval takes it, an existing timer is restarted at it (even
     * after Shutdown, and without touching IsMonitoring) and it is stored in
     * the settings.
     */
    method ChangeRefreshInterval(seconds: int)
      requires Valid()
      modifies this`refreshInterval, this`timer, settingsService`settings
      ensures Valid()
      ensures !AcceptedInterval(seconds) ==>
        && refreshInterval == old(refreshInterval) && timer == old(timer)
        && settingsService.settings == old(settingsService.settings)
      ensures AcceptedInterval(seconds) ==>
        && refreshInterval == seconds
        && timer == (if old(timer).Some? then Some(Timer(seconds, true)) else None)
        && settingsService.settings == old(settingsService.settings)[RefreshIntervalKey := Whole(seconds)]
    {
      if seconds < MinRefreshInterval || seconds > MaxRefreshInterval {
        return;
      }
      refreshInterval := seconds;
      if timer.Some? {
        timer := Some(Timer(seconds, true));
      }
      settingsService.SetRefreshIntervalAsync(seconds);
    }

    /** Shutdown: stops the timer, if any, and clears IsMonitoring. */
    method Shutdown()
      requires Valid()
      modifies this`timer, this`isMonitoring
      ensures Valid()
      ensures !isMonitoring
      ensures timer == (if old(timer).Some? then Some(old(timer).value.(running := false)) else None)
    {
      if timer.Some? {
        timer := Some(timer.value.(running := false));
      }
      isMonitoring := false;
    }

    /** RefreshNow: the same as a timer tick. */
    method RefreshNow(read: MetricsRead, clock: string)
      modifies this`systemMetrics, this`statusText
      ensures read.Sample? ==> systemMetrics == read.metrics && statusText == "Updated: " + clock
      ensures read.NullSample? ==> systemMetrics == old(systemMetrics) && statusText == old(statusText)
      ensures read.ReadFailed? ==> systemMetrics == old(systemMetrics) && statusText == "Error updating metrics"
    {
      UpdateMetrics(read, clock);
    }
  }
}
