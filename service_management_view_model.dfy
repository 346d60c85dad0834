/**
 * The services page: the full service list from the WMI service, the
 * displayed list filtered by a text query and a status and sorted by display
 * name, and the start, stop and restart commands.
 */
module ServiceManagement {
  import opened Wrappers
  import opened Text
  import opened Sorting
  import opened Queries
  import opened Models
  import opened WmiServices

  /** The text test of the search filter: name, display name or description contains the query, ignoring case. */
  function MatchesQuery(query: string): ServiceInfo -> bool
  {
    (s: ServiceInfo) =>
      ContainsIgnoreCase(s.name, query) || ContainsIgnoreCase(s.displayName, query)
      || ContainsIgnoreCase(s.description, query)
  }

  function InState(state: ServiceState): ServiceInfo -> bool
  {
    (s: ServiceInfo) => s.state == state
  }

  function DisplayNameKey(s: ServiceInfo): SortKey
  {
    TextKey(s.displayName)
  }

  /** The search filter (skipped for a blank query), then the status filter (skipped when none is set). */
  function Filtered(all: seq<ServiceInfo>, query: string, statusFilter: Option<ServiceState>): seq<ServiceInfo>
  {
    var searched := if IsBlank(query) then all else Where(all, MatchesQuery(query));
    if statusFilter.Some? then Where(searched, InState(statusFilter.value)) else searched
  }

  /** The list ApplyFiltersAndSort shows: the filtered services ordered by display name. */
  function Displayed(all: seq<ServiceInfo>, query: string, statusFilter: Option<ServiceState>): seq<ServiceInfo>
  {
    StableSort(Filtered(all, query, statusFilter), DisplayNameKey, false)
  }

  /**
   * A service is shown exactly when it is in the full list, matches a
   * non-blank query, and is in the filtered status if one is set; the list is
   * in display-name order.
   */
  lemma DisplayedMeaning(all: seq<ServiceInfo>, query: string, statusFilter: Option<ServiceState>, s: ServiceInfo)
    ensures var d := Displayed(all, query, statusFilter);
      && multiset(d) == multiset(Filtered(all, query, statusFilter))
      && SortedBy(d, DisplayNameKey, false)
      && (s in d <==>
            && s in all
            && (IsBlank(query) || MatchesQuery(query)(s))
            && (statusFilter.Some? ==> s.state == statusFilter.value))
  {
    var d := Displayed(all, query, statusFilter);
    var filtered := Filtered(all, query, statusFilter);
    assert s in d <==> s in multiset(d);
    assert multiset(d) == multiset(filtered);
    var searched := if IsBlank(query) then all else Where(all, MatchesQuery(query));
    if !IsBlank(query) {
      WhereMembers(all, MatchesQuery(query));
    }
    assert s in searched <==> s in all && (IsBlank(query) || MatchesQuery(query)(s));
    if statusFilter.Some? {
      WhereMembers(searched, InState(statusFilter.value));
      assert filtered == Where(searched, InState(statusFilter.value));
      assert s in filtered <==> s in searched && s.state == statusFilter.value;
    } else {
      assert filtered == searched;
    }
  }

  /** Every service in a filtered status is shown in display-name order and in that status. */
  lemma StatusFilterKeepsState(all: seq<ServiceInfo>, query: string, state: ServiceState)
    ensures forall i :: 0 <= i < |Displayed(all, query, Some(state))| ==> Displayed(all, query, Some(state))[i].state == state
  {
    forall i | 0 <= i < |Displayed(all, query, Some(state))|
      ensures Displayed(all, query, Some(state))[i].state == state
    {
      DisplayedMeaning(all, query, Some(state), Displayed(all, query, Some(state))[i]);
    }
  }

  /** FilterByStatus: choosing the active status clears the filter; any other status becomes the filter. */
  function ToggledFilter(current: Option<ServiceState>, status: ServiceState): (r: Option<ServiceState>)
    ensures current == Some(status) ==> r == None
    ensures current != Some(status) ==> r == Some(status)
  {
    if current == Some(status) then None else Some(status)
  }

  /** Choosing the same status twice restores the original filter when it was another status or none. */
  lemma ToggleTwice(current: Option<ServiceState>, status: ServiceState)
    ensures ToggledFilter(ToggledFilter(current, status), status) == (if current == Some(status) then Some(status) else None)
  {
  }

  /**
   * `service.State = ...` on the shared record: every record with that
   * service's name (Windows service names are unique) takes the new state.
   */
  function WithState(list: seq<ServiceInfo>, name: string, state: ServiceState): (r: seq<ServiceInfo>)
    ensures |r| == |list|
    ensures forall i :: 0 <= i < |list| && list[i].name == name ==> r[i] == list[i].(state := state)
    ensures forall i :: 0 <= i < |list| && list[i].name != name ==> r[i] == list[i]
  {
    seq(|list|, i requires 0 <= i < |list| => if list[i].name == name then list[i].(state := state) else list[i])
  }

  function LoadedText(count: int): string
  {
    "Loaded " + IntToString(count) + " services"
  }

  class ServiceManagementViewModel {
    /** _allServices */
    var allServices: seq<ServiceInfo>
    /** Services: the displayed collection. */
    var services: seq<ServiceInfo>
    var searchQuery: string
    var statusFilter: Option<ServiceState>
    var selectedService: Option<ServiceInfo>
    var statusText: string
    var isLoading: bool

    constructor ()
      ensures allServices == [] && services == [] && searchQuery == "" && statusFilter == None
      ensures selectedService == None && statusText == "Loading services..." && !isLoading
    {
      allServices, services := [], [];
      searchQuery, statusFilter, selectedService := "", None, None;
      statusText, isLoading := "Loading services...", false;
    }

    /** ApplyFiltersAndSort: clears Services and adds the filtered, sorted list one by one. */
    method ApplyFiltersAndSort()
      modifies this`services
      ensures services == Displayed(allServices, searchQuery, statusFilter)
    {
      services := Refill(Displayed(allServices, searchQuery, statusFilter));
    }

    /** LoadServices: reloads the full list, redisplays it and reports the displayed count. */
    method LoadServices(rows: Option<seq<WmiRow>>)
      modifies this`allServices, this`services, this`statusText, this`isLoading
      ensures rows.None? ==> allServices == []
      ensures rows.Some? ==> allServices == ServicesFrom(rows.value)
      ensures services == Displayed(allServices, searchQuery, statusFilter)
      ensures statusText == LoadedText(|services|) && !isLoading
    {
      isLoading := true;
      statusText := "Loading services...";
      allServices := GetServices(rows);
      ApplyFiltersAndSort();
      statusText := LoadedText(|services|);
      isLoading := false;
    }

    /** FilterByStatus: toggles the status filter and redisplays. */
    method FilterByStatus(status: ServiceState)
      modifies this`statusFilter, this`services
      ensures statusFilter == ToggledFilter(old(statusFilter), status)
      ensures services == Displayed(allServices, searchQuery, statusFilter)
    {
      statusFilter := ToggledFilter(statusFilter, status);
      ApplyFiltersAndSort();
    }

    /** SearchServices: redisplays with the current query. */
    method SearchServices()
      modifies this`services
      ensures services == Displayed(allServices, searchQuery, statusFilter)
    {
      ApplyFiltersAndSort();
    }

    /**
     * StartServiceAsync: nothing for a null or already running service.
     * Otherwise the WMI start is called; on success the record is marked
     * StartPending (pendingView is the list shown during the delay) and the
     * list is reloaded from rows; on failure the status says so.
     */
    method StartServiceAsync(service: Option<ServiceInfo>, control: ControlOutcome, rows: Option<seq<WmiRow>>)
      returns (ghost pendingView: seq<ServiceInfo>)
      modifies this`allServices, this`services, this`statusText, this`isLoading
      ensures service.None? || service.value.state == ServiceRunning ==>
        && allServices == old(allServices) && services == old(services)
        && statusText == old(statusText) && isLoading == old(isLoading)
      ensures service.Some? && service.value.state != ServiceRunning && Control(control) ==>
        && pendingView == WithState(old(services), service.value.name, StartPending)
        && (rows.Some? ==> allServices == ServicesFrom(rows.value)) && (rows.None? ==> allServices == [])
        && services == Displayed(allServices, searchQuery, statusFilter)
        && statusText == LoadedText(|services|) && !isLoading
      ensures service.Some? && service.value.state != ServiceRunning && !Control(control) ==>
        && allServices == old(allServices) && services == old(services)
        && statusText == "Failed to start " + service.value.displayName && !isLoading
    {
      pendingView := services;
      if service.None? || service.value.state == ServiceRunning {
        return;
      }
      var s := service.value;
      isLoading := true;
      var success := Control(control);
      if success {
        allServices := WithState(allServices, s.name, StartPending);
        services := WithState(services, s.name, StartPending);
        pendingView := services;
        statusText := "Starting " + s.displayName + "...";
        LoadServices(rows);
      } else {
        statusText := "Failed to start " + s.displayName;
      }
      isLoading := false;
    }

    /** StopServiceAsync: the same for stopping, with StopPending; nothing for a null or already stopped service. */
    method StopServiceAsync(service: Option<ServiceInfo>, control: ControlOutcome, rows: Option<seq<WmiRow>>)
      returns (ghost pendingView: seq<ServiceInfo>)
      modifies this`allServices, this`services, this`statusText, this`isLoading
      ensures service.None? || service.value.state == ServiceStopped ==>
        && allServices == old(allServices) && services == old(services)
        && statusText == old(statusText) && isLoading == old(isLoading)
      ensures service.Some? && service.value.state != ServiceStopped && Control(control) ==>
        && pendingView == WithState(old(services), service.value.name, StopPending)
        && (rows.Some? ==> allServices == ServicesFrom(rows.value)) && (rows.None? ==> allServices == [])
        && services == Displayed(allServices, searchQuery, statusFilter)
        && statusText == LoadedText(|services|) && !isLoading
      ensures service.Some? && service.value.state != ServiceStopped && !Control(control) ==>
        && allServices == old(allServices) && services == old(services)
        && statusText == "Failed to stop " + service.value.displayName && !isLoading
    {
      pendingView := services;
      if service.None? || service.value.state == ServiceStopped {
        return;
      }
      var s := service.value;
      isLoading := true;
      var success := Control(control);
      if success {
        allServices := WithState(allServices, s.name, StopPending);
        services := WithState(services, s.name, StopPending);
        pendingView := services;
        statusText := "Stopping " + s.displayName + "...";
        LoadServices(rows);
      } else {
        statusText := "Failed to stop " + s.displayName;
      }
      isLoading := false;
    }

    /**
     * RestartServiceAsync: nothing for a null service. Otherwise stop-then-start
     * through the WMI service; on success the list is reloaded, on failure the
     * status says so and nothing is reloaded.
     */
    method RestartServiceAsync(service: Option<ServiceInfo>, stop: ControlOutcome, start: ControlOutcome, rows: Option<seq<WmiRow>>)
      modifies this`allServices, this`services, this`statusText, this`isLoading
      ensures service.None? ==>
        && allServices == old(allServices) && services == old(services)
        && statusText == old(statusText) && isLoading == old(isLoading)
      ensures service.Some? && Control(stop) && Control(start) ==>
        && (rows.Some? ==> allServices == ServicesFrom(rows.value)) && (rows.None? ==> allServices == [])
        && services == Displayed(allServices, searchQuery, statusFilter)
        && statusText == LoadedText(|services|) && !isLoading
      ensures service.Some? && !(Control(stop) && Control(start)) ==>
        && allServices == old(allServices) && services == old(services)
        && statusText == "Failed to restart " + service.value.displayName && !isLoading
    {
      if service.None? {
        return;
      }
      var s := service.value;
      isLoading := true;
      statusText := "Restarting " + s.displayName + "...";
      var success, _ := WmiServices.RestartServiceAsync(stop, start);
      if success {
        LoadServices(rows);
      } else {
        statusText := "Failed to restart " + s.displayName;
      }
      isLoading := false;
    }
  }
}
