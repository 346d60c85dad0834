/**
 * The records the services hand to the view models: one performance sample,
 * one process row and one Windows service row. Timestamps are opaque ticks;
 * string properties the source leaves unset (null) are the empty string here,
 * which is how string interpolation renders them.
 */
module Models {

  /** A DateTime, as ticks supplied by the caller (the model has no clock). */
  type Timestamp = int

  /** One sample from the system monitor. */
  datatype PerformanceMetrics = PerformanceMetrics(
    cpuUsage: real,
    ramUsagePercent: real,
    ramUsageBytes: int,
    totalRamBytes: int,
    gpuUsage: real,
    diskUsagePercent: real,
    networkUsageMbps: real,
    processCount: int,
    threadCount: int,
    timestamp: Timestamp)

  /** A ProcessState value: the three named members or any other integer cast to the enum. */
  datatype ProcessState = Running | Suspended | Terminated | UndefinedState(code: int)

  /**
   * A ProcessPriority value: the seven named levels, or an integer that names
   * none of them (the default value of the enum, or a cast from the OS priority
   * class that has no member here).
   */
  datatype ProcessPriority =
    | RealTime | High | AboveNormal | Normal | BelowNormal | Low | Idle
    | UndefinedPriority(code: int)

  /** One row of the process list (the icon bytes are not modelled). */
  datatype ProcessInfo = ProcessInfo(
    pid: int,
    name: string,
    fullPath: string,
    cpuUsage: real,
    memoryUsage: int,
    diskIOBytesPerSec: int,
    gpuUsage: real,
    user: string,
    commandLine: string,
    startTime: Timestamp,
    state: ProcessState,
    priority: ProcessPriority,
    threadCount: int,
    isSystemProcess: bool)

  datatype ServiceState = ServiceRunning | ServiceStopped | StartPending | StopPending

  datatype ServiceStartMode = Boot | SystemStart | Automatic | Manual | Disabled

  /** One Windows service as listed by the service manager. */
  datatype ServiceInfo = ServiceInfo(
    name: string,
    displayName: string,
    description: string,
    state: ServiceState,
    startMode: ServiceStartMode,
    processName: string)

  /** Enum.ToString() of a service state: the member's name. */
  function ServiceStateName(s: ServiceState): string
  {
    match s
    case ServiceRunning => "Running"
    case ServiceStopped => "Stopped"
    case StartPending => "StartPending"
    case StopPending => "StopPending"
  }

  /** Enum.ToString() of a start mode: the member's name. */
  function StartModeName(m: ServiceStartMode): string
  {
    match m
    case Boot => "Boot"
    case SystemStart => "System"
    case Automatic => "Automatic"
    case Manual => "Manual"
    case Disabled => "Disabled"
  }

  /**
   * The outcome of asking the system monitor for a sample: a sample, a null
   * sample, or an exception from the call.
   */
  datatype MetricsRead = Sample(metrics: PerformanceMetrics) | NullSample | ReadFailed

  /** A DispatcherTimer: its interval in seconds and whether it is started. */
  datatype Timer = Timer(interval: int, running: bool)
}
