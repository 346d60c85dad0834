/**
 * The process service: the process list read from the operating system, the
 * lookup by id and name search built on it, and the kill, kill-tree, suspend
 * and resume commands with their protection rule. The operating system's
 * answers are inputs: the enumeration of processes, and a table of the
 * processes by id.
 */
module ProcessServices {
  import opened Wrappers
  import opened Text
  import opened Sorting
  import opened Queries
  import opened Models

  /**
   * The details of one process that a listing reads besides its id and name.
   * An absent string is a property that reads as null.
   */
  datatype Details = Details(
    mainModuleFile: Option<string>,
    user: Option<string>,
    commandLine: Option<string>,
    startTime: Timestamp,
    threadCount: int,
    workingSet: int,
    priority: ProcessPriority)

  /**
   * One operating-system process: its id and name, its details (None when
   * reading them throws, for example for a protected process), and whether
   * Kill succeeds on it.
   */
  datatype OsProcess = OsProcess(id: int, name: string, details: Option<Details>, killable: bool)

  /** The processes the system can look up by id. */
  type ProcessTable = map<int, OsProcess>

  /** The names that IsSystemProcess protects. */
  const CriticalProcesses: seq<string> := ["System", "csrss", "winlogon", "svchost", "services"]

  /** IsSystemProcess: the whole name equals a critical name, ignoring case. */
  predicate IsSystemProcess(name: string)
  {
    exists i :: 0 <= i < |CriticalProcesses| && EqualsIgnoreCase(name, CriticalProcesses[i])
  }

  /** The protection is by exact name, up to case: a name that merely contains a critical one is not protected. */
  lemma SystemProcessExamples()
    ensures IsSystemProcess("SVCHOST") && IsSystemProcess("system") && IsSystemProcess("Csrss")
    ensures !IsSystemProcess("svchost.exe") && !IsSystemProcess("explorer") && !IsSystemProcess("")
  {
    assert EqualsIgnoreCase("SVCHOST", CriticalProcesses[3]);
    assert EqualsIgnoreCase("system", CriticalProcesses[0]);
    assert EqualsIgnoreCase("Csrss", CriticalProcesses[1]);
    forall i | 0 <= i < |CriticalProcesses|
      ensures !EqualsIgnoreCase("svchost.exe", CriticalProcesses[i])
      ensures !EqualsIgnoreCase("explorer", CriticalProcesses[i])
      ensures !EqualsIgnoreCase("", CriticalProcesses[i])
    {
      assert |Upper(CriticalProcesses[i])| != |Upper("svchost.exe")|;
      if i == 3 {
        assert Upper("explorer")[0] != Upper(CriticalProcesses[i])[0];
      } else {
        assert Upper("explorer")[0] != Upper(CriticalProcesses[i])[0] || |Upper("explorer")| != |Upper(CriticalProcesses[i])|;
      }
      assert |Upper("")| != |Upper(CriticalProcesses[i])|;
    }
  }

  /** Whether a name is protected does not depend on its case. */
  lemma SystemProcessIgnoresCase(a: string, b: string)
    requires EqualsIgnoreCase(a, b)
    ensures IsSystemProcess(a) <==> IsSystemProcess(b)
  {
  }

  /** The ProcessInfo a listing builds for a readable process; the fields it does not set keep their defaults. */
  function Record(id: int, name: string, d: Details): (p: ProcessInfo)
    ensures p.pid == id && p.name == name && p.memoryUsage == d.workingSet
    ensures p.isSystemProcess == IsSystemProcess(name)
  {
    ProcessInfo(
      id, name,
      if d.mainModuleFile.Some? then d.mainModuleFile.value else "N/A",
      0.0, d.workingSet, 0, 0.0,
      if d.user.Some? then d.user.value else "N/A",
      if d.commandLine.Some? then d.commandLine.value else "N/A",
      d.startTime, Running, d.priority, d.threadCount,
      IsSystemProcess(name))
  }

  /** The records of the readable processes of a listing, in listing order. */
  function Records(listing: seq<OsProcess>): (r: seq<ProcessInfo>)
    ensures |r| <= |listing|
    decreases |listing|
  {
    if |listing| == 0 then []
    else
      var rest := Records(listing[..|listing| - 1]);
      var last := listing[|listing| - 1];
      if last.details.Some? then rest + [Record(last.id, last.name, last.details.value)] else rest
  }

  /** A record is listed exactly when it comes from a process of the listing whose details could be read. */
  lemma {:induction false} RecordsMembers(listing: seq<OsProcess>, p: ProcessInfo)
    ensures p in Records(listing) <==>
      exists i :: 0 <= i < |listing| && listing[i].details.Some? &&
        p == Record(listing[i].id, listing[i].name, listing[i].details.value)
    decreases |listing|
  {
    if |listing| > 0 {
      var init := listing[..|listing| - 1];
      RecordsMembers(init, p);
      if p in Records(init) {
        var i :| 0 <= i < |init| && init[i].details.Some? && p == Record(init[i].id, init[i].name, init[i].details.value);
        assert listing[i] == init[i];
      }
      if exists i :: 0 <= i < |listing| && listing[i].details.Some? &&
          p == Record(listing[i].id, listing[i].name, listing[i].details.value) {
        var i :| 0 <= i < |listing| && listing[i].details.Some? &&
          p == Record(listing[i].id, listing[i].name, listing[i].details.value);
        if i < |init| {
          assert init[i] == listing[i];
        }
      }
    }
  }

  /** The memory column as a sort key. */
  function MemoryKey(p: ProcessInfo): SortKey
  {
    NumKey(p.memoryUsage as real)
  }

  /**
   * GetProcesses: one record per process whose details can be read (the
   * others are skipped), ordered by descending memory with ties kept in
   * listing order. When the enumeration itself fails (listing is None) the
   * result is empty.
   */
  method GetProcesses(listing: Option<seq<OsProcess>>) returns (processes: seq<ProcessInfo>)
    ensures listing.None? ==> processes == []
    ensures listing.Some? ==> processes == StableSort(Records(listing.value), MemoryKey, true)
  {
    var found: seq<ProcessInfo> := [];
    if listing.Some? {
      var all := listing.value;
      var i := 0;
      while i < |all|
        invariant 0 <= i <= |all|
        invariant found == Records(all[..i])
      {
        assert all[..i + 1][..i] == all[..i];
        var proc := all[i];
        if proc.details.Some? {
          found := found + [Record(proc.id, proc.name, proc.details.value)];
        }
        i := i + 1;
      }
      assert all[..i] == all;
    }
    processes := StableSort(found, MemoryKey, true);
  }

  /** The list GetProcesses returns holds the readable records, largest memory first, ties in listing order. */
  lemma GetProcessesOrder(listing: seq<OsProcess>)
    ensures var r := StableSort(Records(listing), MemoryKey, true);
      && multiset(r) == multiset(Records(listing))
      && (forall i, j :: 0 <= i < j < |r| ==> r[i].memoryUsage >= r[j].memoryUsage)
  {
    var r := StableSort(Records(listing), MemoryKey, true);
    forall i, j | 0 <= i < j < |r|
      ensures r[i].memoryUsage >= r[j].memoryUsage
    {
      assert !Before(MemoryKey(r[j]), MemoryKey(r[i]), true);
    }
  }

  /**
   * GetProcessById: a record with only id, name, path, memory and thread
   * count set (so IsSystemProcess is false even for a protected name), or
   * null when the id is unknown or its details cannot be read.
   */
  function GetProcessById(table: ProcessTable, pid: int): (r: Option<ProcessInfo>)
    ensures r.Some? <==> pid in table && table[pid].details.Some?
    ensures r.Some? ==> r.value.pid == table[pid].id && r.value.name == table[pid].name && !r.value.isSystemProcess
    ensures r.Some? ==> r.value.memoryUsage == table[pid].details.value.workingSet
  {
    if pid in table && table[pid].details.Some? then
      var proc := table[pid];
      var d := proc.details.value;
      Some(ProcessInfo(
        proc.id, proc.name,
        if d.mainModuleFile.Some? then d.mainModuleFile.value else "N/A",
        0.0, d.workingSet, 0, 0.0, "", "", 0, Running, UndefinedPriority(0), d.threadCount, false))
    else None
  }

  /** The name test of SearchProcesses. */
  function NameContains(term: string): ProcessInfo -> bool
  {
    (p: ProcessInfo) => ContainsIgnoreCase(p.name, term)
  }

  /** SearchProcesses: the GetProcesses list restricted to names containing the term, ignoring case, in the same order. */
  method SearchProcesses(listing: Option<seq<OsProcess>>, term: string) returns (found: seq<ProcessInfo>)
    ensures listing.None? ==> found == []
    ensures listing.Some? ==> found == Where(StableSort(Records(listing.value), MemoryKey, true), NameContains(term))
    ensures forall p :: p in found ==> ContainsIgnoreCase(p.name, term)
  {
    var all := GetProcesses(listing);
    found := Where(all, NameContains(term));
    WhereMembers(all, NameContains(term));
  }

  /** Why a process command fails. */
  datatype ProcessError =
    | NotFound(pid: int)
    | CannotKillSystemProcess
    | KillDenied(pid: int)

  /**
   * KillProcessAsync: an unknown id fails; a protected name fails with
   * "Cannot kill system processes" before Kill is called; otherwise the
   * process is killed, or the Kill call fails.
   */
  function KillProcess(table: ProcessTable, pid: int): (r: Result<ProcessTable, ProcessError>)
    ensures pid !in table ==> r == Failure(NotFound(pid))
    ensures pid in table && IsSystemProcess(table[pid].name) ==> r == Failure(CannotKillSystemProcess)
    ensures r.Success? <==> pid in table && !IsSystemProcess(table[pid].name) && table[pid].killable
    ensures r.Success? ==> r.value == table - {pid}
  {
    if pid !in table then Failure(NotFound(pid))
    else
      var proc := table[pid];
      if IsSystemProcess(proc.name) then Failure(CannotKillSystemProcess)
      else if !proc.killable then Failure(KillDenied(pid))
      else Success(table - {pid})
  }

  /**
   * KillProcessTreeAsync: kills the process and its descendants (given, as the
   * system reports them) with no protection check; an unknown id fails, and
   * so does the call when the root or any descendant still running cannot be
   * killed (Kill(entireProcessTree) throws, and the exception is rethrown).
   */
  function KillProcessTree(table: ProcessTable, pid: int, descendants: set<int>): (r: Result<ProcessTable, ProcessError>)
    ensures pid !in table ==> r == Failure(NotFound(pid))
    ensures r.Success? <==>
      pid in table && table[pid].killable && forall d :: d in descendants && d in table ==> table[d].killable
    ensures r.Success? ==> r.value == table - ({pid} + descendants)
  {
    if pid !in table then Failure(NotFound(pid))
    else if !table[pid].killable then Failure(KillDenied(pid))
    else if exists d :: d in descendants && d in table && !table[d].killable then Failure(KillDenied(pid))
    else Success(table - ({pid} + descendants))
  }

  /** A protected process that Kill refuses is killed by KillTree all the same. */
  lemma KillTreeBypassesProtection(table: ProcessTable, pid: int, descendants: set<int>)
    requires pid in table && table[pid].killable && IsSystemProcess(table[pid].name)
    requires forall d :: d in descendants && d in table ==> table[d].killable
    ensures KillProcess(table, pid).Failure?
    ensures KillProcessTree(table, pid, descendants).Success?
    ensures pid !in KillProcessTree(table, pid, descendants).value
  {
  }

  /** SuspendProcessAsync and ResumeProcessAsync: they only look the id up; no process changes state. */
  function SuspendProcess(table: ProcessTable, pid: int): (r: Result<ProcessTable, ProcessError>)
    ensures r.Failure? <==> pid !in table
    ensures r.Success? ==> r.value == table
  {
    if pid in table then Success(table) else Failure(NotFound(pid))
  }

  function ResumeProcess(table: ProcessTable, pid: int): (r: Result<ProcessTable, ProcessError>)
    ensures r.Failure? <==> pid !in table
    ensures r.Success? ==> r.value == table
  {
    if pid in table then Success(table) else Failure(NotFound(pid))
  }

  /** Suspending then resuming a process is the identity on the process table, whatever its state. */
  lemma SuspendResumeChangeNothing(table: ProcessTable, pid: int)
    requires pid in table
    ensures SuspendProcess(table, pid) == Success(table)
    ensures ResumeProcess(SuspendProcess(table, pid).value, pid) == Success(table)
  {
  }
}
