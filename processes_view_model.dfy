/**
 * The processes page: the full process list from the process service, the
 * displayed list filtered by a name query and sorted by a column, and the
 * kill and suspend commands.
 */
module Processes {
  import opened Wrappers
  import opened Text
  import opened Sorting
  import opened Queries
  import opened Models
  import opened ProcessServices

  /** The sort key of a column: CPU, Memory and Name are known; any other column sorts by memory. */
  function ColumnKey(column: string): ProcessInfo -> SortKey
  {
    match column
    case "CPU" => (p: ProcessInfo) => NumKey(p.cpuUsage)
    case "Name" => (p: ProcessInfo) => TextKey(p.name)
    case _ => MemoryKey
  }

  predicate KnownColumn(column: string)
  {
    column == "CPU" || column == "Memory" || column == "Name"
  }

  /** An unknown column always sorts descending. */
  function Direction(column: string, descending: bool): bool
  {
    if KnownColumn(column) then descending else true
  }

  /** The search filter: a blank query keeps everything, otherwise the name must contain it, ignoring case. */
  function Filtered(all: seq<ProcessInfo>, query: string): seq<ProcessInfo>
  {
    if IsBlank(query) then all else Where(all, NameContains(query))
  }

  /** The list ApplyFiltersAndSort shows. */
  function Displayed(all: seq<ProcessInfo>, query: string, column: string, descending: bool): seq<ProcessInfo>
  {
    StableSort(Filtered(all, query), ColumnKey(column), Direction(column, descending))
  }

  /**
   * The displayed list holds, as often as the full list does, exactly the
   * processes whose name matches the query, in the column's order.
   */
  lemma DisplayedMeaning(all: seq<ProcessInfo>, query: string, column: string, descending: bool, p: ProcessInfo)
    ensures var d := Displayed(all, query, column, descending);
      && multiset(d) == multiset(Filtered(all, query))
      && SortedBy(d, ColumnKey(column), Direction(column, descending))
      && (p in d <==> p in all && (IsBlank(query) || ContainsIgnoreCase(p.name, query)))
      && multiset(d)[p] == (if IsBlank(query) || ContainsIgnoreCase(p.name, query) then multiset(all)[p] else 0)
  {
    var d := Displayed(all, query, column, descending);
    assert p in d <==> p in multiset(d);
    if !IsBlank(query) {
      WhereMembers(all, NameContains(query));
      WhereCounts(all, NameContains(query), p);
    }
  }

  /** For an unknown column the direction flag has no effect: memory descending. */
  lemma UnknownColumnSortsByMemory(all: seq<ProcessInfo>, query: string, column: string)
    requires !KnownColumn(column)
    ensures Displayed(all, query, column, false) == Displayed(all, query, column, true)
    ensures Displayed(all, query, column, false) == StableSort(Filtered(all, query), MemoryKey, true)
  {
  }

  /** A blank query with the memory column shows the full list reordered by descending memory. */
  lemma BlankQueryKeepsAll(all: seq<ProcessInfo>, query: string)
    requires IsBlank(query)
    ensures multiset(Displayed(all, query, "Memory", true)) == multiset(all)
  {
  }

  class ProcessesViewModel {
    /** _allProcesses */
    var allProcesses: seq<ProcessInfo>
    /** Processes: the displayed collection. */
    var processes: seq<ProcessInfo>
    var searchQuery: string
    var sortColumn: string
    var sortDescending: bool
    var selectedProcess: Option<ProcessInfo>

    constructor ()
      ensures allProcesses == [] && processes == [] && searchQuery == ""
      ensures sortColumn == "Memory" && sortDescending && selectedProcess == None
    {
      allProcesses, processes := [], [];
      searchQuery := "";
      sortColumn, sortDescending := "Memory", true;
      selectedProcess := None;
    }

    /** ApplyFiltersAndSort: clears Processes and adds the filtered, sorted list one by one. */
    method ApplyFiltersAndSort()
      modifies this`processes
      ensures processes == Displayed(allProcesses, searchQuery, sortColumn, sortDescending)
    {
      processes := Refill(Displayed(allProcesses, searchQuery, sortColumn, sortDescending));
    }

    /** RefreshProcesses: reloads the full list from the process service and redisplays it. */
    method RefreshProcesses(listing: Option<seq<OsProcess>>)
      modifies this`allProcesses, this`processes
      ensures listing.None? ==> allProcesses == []
      ensures listing.Some? ==> allProcesses == StableSort(Records(listing.value), MemoryKey, true)
      ensures processes == Displayed(allProcesses, searchQuery, sortColumn, sortDescending)
    {
      allProcesses := GetProcesses(listing);
      ApplyFiltersAndSort();
    }

    /** SearchProcesses: redisplays with the current query; the full list is not touched. */
    method SearchProcesses()
      modifies this`processes
      ensures processes == Displayed(allProcesses, searchQuery, sortColumn, sortDescending)
    {
      ApplyFiltersAndSort();
    }

    /**
     * SortByColumn: the current column flips the direction; another column
     * becomes the sort column with the direction unchanged. Then the list is
     * redisplayed.
     */
    method SortByColumn(column: string)
      modifies this`sortColumn, this`sortDescending, this`processes
      ensures column == old(sortColumn) ==> sortColumn == column && sortDescending == !old(sortDescending)
      ensures column != old(sortColumn) ==> sortColumn == column && sortDescending == old(sortDescending)
      ensures processes == Displayed(allProcesses, searchQuery, sortColumn, sortDescending)
    {
      if sortColumn == column {
        sortDescending := !sortDescending;
      } else {
        sortColumn := column;
      }
      ApplyFiltersAndSort();
    }

    /**
     * KillProcessAsync: a null process does nothing. Otherwise the service
     * kills it by id; on success the page refreshes from the listing read
     * afterwards, and a failure is caught and logged with nothing refreshed.
     * The outcome of the service call is returned (None for a null process).
     */
    method KillProcessAsync(process: Option<ProcessInfo>, table: ProcessTable, listingAfter: Option<seq<OsProcess>>)
      returns (outcome: Option<Result<ProcessTable, ProcessError>>)
      modifies this`allProcesses, this`processes
      ensures process.None? ==> outcome == None
      ensures process.Some? ==> outcome == Some(KillProcess(table, process.value.pid))
      ensures outcome.Some? && outcome.value.Success? ==>
        && (listingAfter.None? ==> allProcesses == [])
        && (listingAfter.Some? ==> allProcesses == StableSort(Records(listingAfter.value), MemoryKey, true))
        && processes == Displayed(allProcesses, searchQuery, sortColumn, sortDescending)
      ensures !(outcome.Some? && outcome.value.Success?) ==>
        allProcesses == old(allProcesses) && processes == old(processes)
    {
      if process.None? {
        return None;
      }
      var r := KillProcess(table, process.value.pid);
      outcome := Some(r);
      if r.Success? {
        RefreshProcesses(listingAfter);
      }
    }

    /** SuspendProcessAsync: a null process does nothing; otherwise the service call's outcome, caught and logged. */
    method SuspendProcessAsync(process: Option<ProcessInfo>, table: ProcessTable)
      returns (outcome: Option<Result<ProcessTable, ProcessError>>)
      ensures process.None? ==> outcome == None
      ensures process.Some? ==> outcome.Some? && (outcome.value.Success? <==> process.value.pid in table)
      ensures process.Some? && outcome.value.Success? ==> outcome.value.value == table
    {
      if process.None? {
        return None;
      }
      outcome := Some(SuspendProcess(table, process.value.pid));
    }
  }
}
