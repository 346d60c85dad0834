/**
 * The WMI service: the Windows service listing built from Win32_Service rows,
 * start, stop and restart of a service, the active-user query, user logoff,
 * and the GPU figures. The rows and the outcome of each WMI call are inputs.
 */
module WmiServices {
  import opened Wrappers
  import opened Text
  import opened Models
  import opened Queries

  /** One Win32_Service row; an absent property reads as null. */
  datatype WmiRow = WmiRow(
    name: Option<string>,
    displayName: Option<string>,
    state: Option<string>,
    startMode: Option<string>,
    description: Option<string>)

  /** Enum.Parse(typeof(ServiceState), s, ignoreCase: true), on the member names. */
  function ParseState(s: string): Option<ServiceState>
  {
    var u := Upper(s);
    if u == "RUNNING" then Some(ServiceRunning)
    else if u == "STOPPED" then Some(ServiceStopped)
    else if u == "STARTPENDING" then Some(StartPending)
    else if u == "STOPPENDING" then Some(StopPending)
    else None
  }

  /** Enum.Parse(typeof(ServiceStartMode), s, ignoreCase: true), on the member names. */
  function ParseStartMode(s: string): Option<ServiceStartMode>
  {
    var u := Upper(s);
    if u == "BOOT" then Some(Boot)
    else if u == "SYSTEM" then Some(SystemStart)
    else if u == "AUTOMATIC" then Some(Automatic)
    else if u == "MANUAL" then Some(Manual)
    else if u == "DISABLED" then Some(Disabled)
    else None
  }

  /** A state parses to exactly the member whose name it spells, ignoring case. */
  lemma ParseStateMeaning(s: string, st: ServiceState)
    ensures ParseState(s) == Some(st) <==> EqualsIgnoreCase(s, ServiceStateName(st))
  {
    assert Upper("Running") == "RUNNING" && Upper("Stopped") == "STOPPED";
    assert Upper("StartPending") == "STARTPENDING" && Upper("StopPending") == "STOPPENDING";
  }

  /** A start mode parses to exactly the member whose name it spells, ignoring case. */
  lemma ParseStartModeMeaning(s: string, m: ServiceStartMode)
    ensures ParseStartMode(s) == Some(m) <==> EqualsIgnoreCase(s, StartModeName(m))
  {
    assert Upper("Boot") == "BOOT" && Upper("System") == "SYSTEM" && Upper("Automatic") == "AUTOMATIC";
    assert Upper("Manual") == "MANUAL" && Upper("Disabled") == "DISABLED";
  }

  /** The names Win32_Service reports for pending states and automatic start do not parse. */
  lemma WmiSpellingsDoNotParse()
    ensures ParseState("Start Pending") == None
    ensures ParseStartMode("Auto") == None
    ensures ParseState("Unknown") == None && ParseStartMode("Unknown") == None
  {
    assert Upper("Start Pending")[5] == ' ';
    assert |Upper("Auto")| == 4 && Upper("Auto")[3] == 'O';
    assert |Upper("Unknown")| == 7 && Upper("Unknown")[0] == 'U';
  }

  /** The ServiceInfo a row makes, with its fallbacks; None when State or StartMode does not parse. */
  function ServiceOf(row: WmiRow): (r: Option<ServiceInfo>)
    ensures r.Some? ==> r.value.name == (if row.name.Some? then row.name.value else "Unknown")
    ensures r.Some? ==> r.value.displayName == (if row.displayName.Some? then row.displayName.value else r.value.name)
    ensures r.Some? ==> r.value.description == (if row.description.Some? then row.description.value else "N/A")
  {
    var name := if row.name.Some? then row.name.value else "Unknown";
    var displayName := if row.displayName.Some? then row.displayName.value else name;
    var state := if row.state.Some? then row.state.value else "Unknown";
    var startMode := if row.startMode.Some? then row.startMode.value else "Unknown";
    var description := if row.description.Some? then row.description.value else "N/A";
    var st := ParseState(state);
    var sm := ParseStartMode(startMode);
    if st.Some? && sm.Some? then Some(ServiceInfo(name, displayName, description, st.value, sm.value, ""))
    else None
  }

  /** The listing of a run of rows: the first row that does not parse ends it (the exception leaves the loop). */
  function ServicesFrom(rows: seq<WmiRow>): seq<ServiceInfo>
  {
    TakeWhileSome(Mapped(rows, ServiceOf))
  }

  /**
   * The listing is the records of the longest prefix of rows that all parse:
   * element i comes from row i, and when the listing is shorter than the rows
   * the row after it is the one that failed. Rows that all parse are all listed.
   */
  lemma ServicesFromIsPrefix(rows: seq<WmiRow>)
    ensures var r := ServicesFrom(rows);
      && |r| <= |rows|
      && (forall i :: 0 <= i < |r| ==> ServiceOf(rows[i]) == Some(r[i]))
      && (|r| < |rows| ==> ServiceOf(rows[|r|]).None?)
      && ((forall i :: 0 <= i < |rows| ==> ServiceOf(rows[i]).Some?) ==> |r| == |rows|)
  {
    TakeWhileSomeIsPrefix(Mapped(rows, ServiceOf));
    if forall i :: 0 <= i < |rows| ==> ServiceOf(rows[i]).Some? {
      TakeWhileSomeAll(Mapped(rows, ServiceOf));
    }
  }

  /**
   * GetServices: adds one record per row until a row's State or StartMode
   * does not parse; the records added so far are returned. A query that
   * fails outright (rows is None) gives an empty list.
   */
  method GetServices(rows: Option<seq<WmiRow>>) returns (services: seq<ServiceInfo>)
    ensures rows.None? ==> services == []
    ensures rows.Some? ==> services == ServicesFrom(rows.value)
  {
    if rows.None? {
      return [];
    }
    services := CollectWhile(rows.value, ServiceOf);
  }

  /** What the WMI query and method call of StartServiceAsync or StopServiceAsync meet. */
  datatype ControlOutcome = ControlOutcome(found: bool, invokeThrows: bool)

  /** StartServiceAsync / StopServiceAsync: true iff a matching service was found and its method call did not throw. */
  function Control(c: ControlOutcome): (ok: bool)
    ensures ok <==> c.found && !c.invokeThrows
  {
    if !c.found then false
    else if c.invokeThrows then false
    else true
  }

  /**
   * RestartServiceAsync: stop, and only when that succeeded start; the result
   * is the start's. startCalled tells whether the start was attempted.
   */
  method RestartServiceAsync(stop: ControlOutcome, start: ControlOutcome) returns (ok: bool, startCalled: bool)
    ensures startCalled <==> Control(stop)
    ensures ok <==> Control(stop) && Control(start)
    ensures !startCalled ==> !ok
  {
    var stopped := Control(stop);
    if stopped {
      ok := Control(start);
      startCalled := true;
    } else {
      ok, startCalled := false, false;
    }
  }

  /** The user names of a run of Win32_ComputerSystemProduct rows, dropping null and empty ones. */
  function UserNames(items: seq<Option<string>>): (r: seq<string>)
    ensures |r| <= |items|
    decreases |items|
  {
    if |items| == 0 then []
    else
      var rest := UserNames(items[..|items| - 1]);
      var u := items[|items| - 1];
      if u.Some? && u.value != "" then rest + [u.value] else rest
  }

  /** A name is returned exactly when some row holds it, and no returned name is empty. */
  lemma {:induction false} UserNamesMembers(items: seq<Option<string>>, name: string)
    ensures name in UserNames(items) <==> name != "" && Some(name) in items
    decreases |items|
  {
    if |items| > 0 {
      var init := items[..|items| - 1];
      UserNamesMembers(init, name);
      assert items == init + [items[|items| - 1]];
    }
  }

  /** GetActiveUsers: the non-empty user names, in row order; a failing query gives the names read so far, here none. */
  method GetActiveUsers(items: Option<seq<Option<string>>>) returns (users: seq<string>)
    ensures items.None? ==> users == []
    ensures items.Some? ==> users == UserNames(items.value)
  {
    users := [];
    if items.None? {
      return;
    }
    var all := items.value;
    for i := 0 to |all|
      invariant users == UserNames(all[..i])
    {
      assert all[..i + 1][..i] == all[..i];
      var user := all[i];
      if user.Some? && user.value != "" {
        users := users + [user.value];
      }
    }
    assert all[..|all|] == all;
  }

  /** LogoffUserAsync: only logs the request; it always reports success. */
  function LogoffUser(username: string): (ok: bool)
    ensures ok
  {
    true
  }

  /** GetGPUUsage and GetGPUMemoryUsage: not implemented, always 0 whatever the query finds. */
  function GpuUsage(adapters: Option<nat>): (usage: real)
    ensures usage == 0.0
  {
    0.0
  }

  function GpuMemoryUsage(): (usage: real)
    ensures usage == 0.0
  {
    0.0
  }
}
