/**
 * ExportHelper: the performance history and the process list as CSV text, one
 * header line and then one line per item, each line ended by the Windows
 * line terminator. The date pattern of the timestamp column is an input.
 */
module Export {
  import opened Text
  import opened Queries
  import opened Numerics
  import opened Models
  import opened Formatting

  /** Environment.NewLine on Windows. */
  const NewLine: string := "\r\n"

  /** The text a StringBuilder holds after AppendLine of each row in turn. */
  function Lines(rows: seq<string>): string
    decreases |rows|
  {
    if |rows| == 0 then "" else rows[0] + NewLine + Lines(rows[1..])
  }

  /** Appending one more line extends the text at its end. */
  lemma {:induction false} LinesAppend(rows: seq<string>, r: string)
    ensures Lines(rows + [r]) == Lines(rows) + r + NewLine
    decreases |rows|
  {
    if |rows| == 0 {
      assert Lines([r]) == r + NewLine + Lines([]);
    } else {
      assert (rows + [r])[1..] == rows[1..] + [r];
      LinesAppend(rows[1..], r);
    }
  }

  function WithCarriageReturn(r: string): string
  {
    r + "\r"
  }

  /**
   * Splitting the text at line feeds gives every row back, in order, with
   * the carriage return of its terminator, and an empty piece after the last.
   */
  lemma {:induction false} LinesSplit(rows: seq<string>)
    requires forall i :: 0 <= i < |rows| ==> '\n' !in rows[i]
    ensures Split(Lines(rows), '\n') == Mapped(rows, WithCarriageReturn) + [""]
    decreases |rows|
  {
    if |rows| > 0 {
      var r := rows[0];
      LinesSplit(rows[1..]);
      assert Lines(rows) == WithCarriageReturn(r) + ['\n'] + Lines(rows[1..]);
      SplitAtSeparator(WithCarriageReturn(r), '\n', Lines(rows[1..]));
      assert Mapped(rows, WithCarriageReturn) == [WithCarriageReturn(r)] + Mapped(rows[1..], WithCarriageReturn);
    }
  }

  /** The line structure of an export: the header, then one line per item. */
  lemma CsvLines(header: string, lines: seq<string>)
    requires '\n' !in header
    requires forall i :: 0 <= i < |lines| ==> '\n' !in lines[i]
    ensures var pieces := Split(Lines([header] + lines), '\n');
      && |pieces| == |lines| + 2
      && pieces[0] == header + "\r"
      && (forall i :: 0 <= i < |lines| ==> pieces[i + 1] == lines[i] + "\r")
      && pieces[|lines| + 1] == ""
  {
    LinesSplit([header] + lines);
  }

  /**
   * The StringBuilder loop of both exports: AppendLine of the header, then
   * AppendLine of each item's line in input order.
   */
  method AppendLines<T>(header: string, items: seq<T>, line: T -> string) returns (csv: string)
    ensures csv == Lines([header] + Mapped(items, line))
  {
    var rows := [header];
    csv := header + NewLine;
    assert csv == Lines(rows);
    for i := 0 to |items|
      invariant rows == [header] + Mapped(items[..i], line)
      invariant csv == Lines(rows)
    {
      LinesAppend(rows, line(items[i]));
      assert Mapped(items[..i + 1], line) == Mapped(items[..i], line) + [line(items[i])];
      rows := rows + [line(items[i])];
      csv := csv + line(items[i]) + NewLine;
    }
    assert items[..|items|] == items;
  }

  // ------------------------------------------------------ ExportMetricsToCSV

  const MetricsColumns: seq<string> := ["Timestamp", "CPU%", "RAM%", "GPU%", "Disk%", "Network(Mbps)", "Processes", "Threads"]

  /** "Timestamp,CPU%,RAM%,GPU%,Disk%,Network(Mbps),Processes,Threads" */
  const MetricsHeader: string := Join(MetricsColumns, ',')

  /** The eight fields of one sample, in header order; `dateText` formats a timestamp as yyyy-MM-dd HH:mm:ss. */
  function MetricFields(m: PerformanceMetrics, dateText: Timestamp -> string): (f: seq<string>)
    ensures |f| == 8
  {
    [dateText(m.timestamp), Fixed(m.cpuUsage, 2), Fixed(m.ramUsagePercent, 2), Fixed(m.gpuUsage, 2),
     Fixed(m.diskUsagePercent, 2), Fixed(m.networkUsageMbps, 2),
     IntToString(m.processCount), IntToString(m.threadCount)]
  }

  function MetricLine(dateText: Timestamp -> string): PerformanceMetrics -> string
  {
    (m: PerformanceMetrics) => Join(MetricFields(m, dateText), ',')
  }

  /** The text ExportMetricsToCSV returns. */
  function MetricsCsv(metrics: seq<PerformanceMetrics>, dateText: Timestamp -> string): string
  {
    Lines([MetricsHeader] + Mapped(metrics, MetricLine(dateText)))
  }

  /** ExportMetricsToCSV: the file name is accepted and never used. */
  method ExportMetricsToCSV(metrics: seq<PerformanceMetrics>, filename: string, dateText: Timestamp -> string)
    returns (csv: string)
    ensures csv == MetricsCsv(metrics, dateText)
  {
    csv := AppendLines(MetricsHeader, metrics, MetricLine(dateText));
  }

  /** With no samples the export is the header line alone. */
  lemma MetricsEmpty(dateText: Timestamp -> string)
    ensures MetricsCsv([], dateText) == MetricsHeader + "\r\n"
  {
    assert [MetricsHeader] + Mapped([], MetricLine(dateText)) == [MetricsHeader];
    assert Lines([MetricsHeader]) == MetricsHeader + NewLine + Lines([]);
  }

  /** The text is an optional minus sign and decimal digits, and parses back to n. */
  predicate ReadsAs(s: string, n: int)
  {
    && |s| >= 1
    && (forall k :: (if s[0] == '-' then 1 else 0) <= k < |s| ==> IsDigit(s[k]))
    && ParseInt(s) == n
  }

  /** Neither a comma nor a line feed appears in fixed-point or integer text. */
  lemma NumberTextsFree(c: char)
    requires c == ',' || c == '\n'
    ensures forall x: real :: c !in Fixed(x, 2)
    ensures forall i: int :: c !in IntToString(i)
  {
    forall x: real ensures c !in Fixed(x, 2) {
      FixedChars(x, 2);
    }
    forall i: int ensures c !in IntToString(i) {
      IntToStringRoundTrip(i);
    }
  }

  /** A comma or a line feed appears in no field of a sample unless it is in the date text. */
  lemma MetricFieldsFree(m: PerformanceMetrics, dateText: Timestamp -> string, c: char)
    requires c == ',' || c == '\n'
    requires c !in dateText(m.timestamp)
    ensures forall k :: 0 <= k < 8 ==> c !in MetricFields(m, dateText)[k]
  {
    NumberTextsFree(c);
  }

  /**
   * A sample's line splits at commas into exactly its eight fields, in header
   * order, when the date text has no comma; the two counts read back.
   */
  lemma MetricLineFields(m: PerformanceMetrics, dateText: Timestamp -> string)
    requires ',' !in dateText(m.timestamp)
    ensures var f := Split(MetricLine(dateText)(m), ',');
      && f == MetricFields(m, dateText) && |f| == |Split(MetricsHeader, ',')| == 8
      && ReadsAs(f[6], m.processCount) && ReadsAs(f[7], m.threadCount)
  {
    var f := MetricFields(m, dateText);
    MetricFieldsFree(m, dateText, ',');
    SplitJoin(f, ',');
    IntToStringRoundTrip(m.processCount);
    IntToStringRoundTrip(m.threadCount);
    HeaderFields();
  }

  /** Each header splits at commas into its eight column names and holds no line feed. */
  lemma HeaderFields()
    ensures Split(MetricsHeader, ',') == MetricsColumns && '\n' !in MetricsHeader
    ensures Split(ProcessesHeader, ',') == ProcessesColumns && '\n' !in ProcessesHeader
  {
    ColumnsFree(MetricsColumns);
    ColumnsFree(ProcessesColumns);
  }

  lemma ColumnsFree(columns: seq<string>)
    requires columns == MetricsColumns || columns == ProcessesColumns
    ensures Split(Join(columns, ','), ',') == columns && '\n' !in Join(columns, ',')
  {
    assert forall k :: 0 <= k < |columns| ==> ',' !in columns[k] && '\n' !in columns[k];
    SplitJoin(columns, ',');
    JoinKeepsOut(columns, ',', '\n');
  }

  /**
   * The metrics export is the header line and then one line per sample, in
   * input order, when the date texts hold no line feed.
   */
  lemma MetricsCsvLines(metrics: seq<PerformanceMetrics>, dateText: Timestamp -> string)
    requires forall i :: 0 <= i < |metrics| ==> '\n' !in dateText(metrics[i].timestamp)
    ensures var pieces := Split(MetricsCsv(metrics, dateText), '\n');
      && |pieces| == |metrics| + 2
      && pieces[0] == MetricsHeader + "\r"
      && (forall i :: 0 <= i < |metrics| ==> pieces[i + 1] == MetricLine(dateText)(metrics[i]) + "\r")
      && pieces[|metrics| + 1] == ""
  {
    var lines := Mapped(metrics, MetricLine(dateText));
    forall i | 0 <= i < |lines|
      ensures '\n' !in lines[i]
    {
      MetricFieldsFree(metrics[i], dateText, '\n');
      JoinKeepsOut(MetricFields(metrics[i], dateText), ',', '\n');
    }
    HeaderFields();
    CsvLines(MetricsHeader, lines);
  }

  /** A character in none of the parts and not the separator is not in their join. */
  lemma {:induction false} JoinKeepsOut(parts: seq<string>, sep: char, c: char)
    requires c != sep
    requires forall i :: 0 <= i < |parts| ==> c !in parts[i]
    ensures c !in Join(parts, sep)
    decreases |parts|
  {
    if |parts| > 1 {
      JoinKeepsOut(parts[1..], sep, c);
    }
  }

  // ---------------------------------------------------- ExportProcessesToCSV

  const ProcessesColumns: seq<string> := ["PID", "Name", "CPU%", "Memory(MB)", "Threads", "User", "Status", "Priority"]

  /** "PID,Name,CPU%,Memory(MB),Threads,User,Status,Priority" */
  const ProcessesHeader: string := Join(ProcessesColumns, ',')

  /** `MemoryUsage / 1024 / 1024` on a long: two divisions truncating toward zero. */
  function MemoryMB(bytes: int): int
  {
    TruncDiv(TruncDiv(bytes, 1024), 1024)
  }

  /** The memory column is the whole number of mebibytes, rounded toward zero. */
  lemma MemoryMBMeaning(bytes: int)
    ensures bytes >= 0 ==> MemoryMB(bytes) >= 0 && MemoryMB(bytes) * 1048576 <= bytes < (MemoryMB(bytes) + 1) * 1048576
    ensures bytes < 0 ==> MemoryMB(bytes) == -MemoryMB(-bytes)
  {
    if bytes >= 0 {
      var k := bytes / 1024;
      var q := k / 1024;
      assert bytes == k * 1024 + bytes % 1024;
      assert k == q * 1024 + k % 1024;
      assert TruncDiv(bytes, 1024) == k;
      assert MemoryMB(bytes) == q;
    } else {
      assert TruncDiv(bytes, 1024) == -((-bytes) / 1024);
      assert TruncDiv(-bytes, 1024) == (-bytes) / 1024;
    }
  }

  /** Enum.ToString of a ProcessState: the member name, or the number for an undefined value. */
  function StateText(s: ProcessState): string
  {
    match s
    case Running => "Running"
    case Suspended => "Suspended"
    case Terminated => "Terminated"
    case UndefinedState(code) => IntToString(code)
  }

  /** Enum.ToString of a ProcessPriority: the member name, or the number for an undefined value. */
  function PriorityText(p: ProcessPriority): string
  {
    match p
    case RealTime => "RealTime"
    case High => "High"
    case AboveNormal => "AboveNormal"
    case Normal => "Normal"
    case BelowNormal => "BelowNormal"
    case Low => "Low"
    case Idle => "Idle"
    case UndefinedPriority(code) => IntToString(code)
  }

  /** Neither enum text holds a comma or a line feed. */
  lemma EnumTextsFree(s: ProcessState, p: ProcessPriority, c: char)
    requires c == ',' || c == '\n'
    ensures c !in StateText(s) && c !in PriorityText(p)
  {
    NumberTextsFree(c);
    StateTextFree(s, c);
    PriorityTextFree(p, c);
  }

  lemma StateTextFree(s: ProcessState, c: char)
    requires c == ',' || c == '\n'
    requires s.UndefinedState? ==> c !in IntToString(s.code)
    ensures c !in StateText(s)
  {
  }

  lemma PriorityTextFree(p: ProcessPriority, c: char)
    requires c == ',' || c == '\n'
    requires p.UndefinedPriority? ==> c !in IntToString(p.code)
    ensures c !in PriorityText(p)
  {
  }

  /** The name wrapped in double quotes as it is: embedded quotes are not doubled. */
  function Quoted(name: string): string
  {
    "\"" + name + "\""
  }

  /** The eight fields of one process, in header order. */
  function ProcessFields(p: ProcessInfo): (f: seq<string>)
    ensures |f| == 8
  {
    [IntToString(p.pid), Quoted(p.name), Fixed(p.cpuUsage, 2), IntToString(MemoryMB(p.memoryUsage)),
     IntToString(p.threadCount), p.user, StateText(p.state), PriorityText(p.priority)]
  }

  function ProcessLine(p: ProcessInfo): string
  {
    Join(ProcessFields(p), ',')
  }

  /** The text ExportProcessesToCSV returns. */
  function ProcessesCsv(processes: seq<ProcessInfo>): string
  {
    Lines([ProcessesHeader] + Mapped(processes, ProcessLine))
  }

  /** ExportProcessesToCSV: the header, then one line per process. */
  method ExportProcessesToCSV(processes: seq<ProcessInfo>) returns (csv: string)
    ensures csv == ProcessesCsv(processes)
  {
    csv := AppendLines(ProcessesHeader, processes, ProcessLine);
  }

  /** A comma or a line feed appears in no field of a process unless it is in the name or the user. */
  lemma ProcessFieldsFree(p: ProcessInfo, c: char)
    requires c == ',' || c == '\n'
    requires c !in p.name && c !in p.user
    ensures forall k :: 0 <= k < 8 ==> c !in ProcessFields(p)[k]
  {
    NumberTextsFree(c);
    EnumTextsFree(p.state, p.priority, c);
    assert c !in Quoted(p.name);
  }

  /**
   * A process line splits at commas into its eight fields when neither the
   * name nor the user holds a comma; the id, the memory column and the
   * thread count read back, and the name sits between the two quotes as is.
   */
  lemma ProcessLineFields(p: ProcessInfo)
    requires ',' !in p.name && ',' !in p.user
    ensures var f := Split(ProcessLine(p), ',');
      && f == ProcessFields(p) && |f| == |Split(ProcessesHeader, ',')| == 8
      && ReadsAs(f[0], p.pid)
      && f[1][0] == '"' && f[1][|f[1]| - 1] == '"' && f[1][1..|f[1]| - 1] == p.name
      && ReadsAs(f[3], MemoryMB(p.memoryUsage))
      && ReadsAs(f[4], p.threadCount)
  {
    ProcessFieldsFree(p, ',');
    SplitJoin(ProcessFields(p), ',');
    ProcessFieldsRead(p);
    HeaderFields();
  }

  /** The numeric fields of a process read back, and the name field is the name between quotes. */
  lemma ProcessFieldsRead(p: ProcessInfo)
    ensures var f := ProcessFields(p);
      && ReadsAs(f[0], p.pid)
      && f[1][0] == '"' && f[1][|f[1]| - 1] == '"' && f[1][1..|f[1]| - 1] == p.name
      && ReadsAs(f[3], MemoryMB(p.memoryUsage))
      && ReadsAs(f[4], p.threadCount)
  {
    IntToStringRoundTrip(p.pid);
    IntToStringRoundTrip(MemoryMB(p.memoryUsage));
    IntToStringRoundTrip(p.threadCount);
    var q := Quoted(p.name);
    assert q[1..|q| - 1] == p.name;
  }

  /**
   * The process export is the header line and then one line per process, in
   * input order, when no name or user holds a line feed.
   */
  lemma ProcessesCsvLines(processes: seq<ProcessInfo>)
    requires forall i :: 0 <= i < |processes| ==> '\n' !in processes[i].name && '\n' !in processes[i].user
    ensures var pieces := Split(ProcessesCsv(processes), '\n');
      && |pieces| == |processes| + 2
      && pieces[0] == ProcessesHeader + "\r"
      && (forall i :: 0 <= i < |processes| ==> pieces[i + 1] == ProcessLine(processes[i]) + "\r")
      && pieces[|processes| + 1] == ""
  {
    var lines := Mapped(processes, ProcessLine);
    forall i | 0 <= i < |lines|
      ensures '\n' !in lines[i]
    {
      ProcessFieldsFree(processes[i], '\n');
      JoinKeepsOut(ProcessFields(processes[i]), ',', '\n');
    }
    HeaderFields();
    CsvLines(ProcessesHeader, lines);
  }
}
