/**
 * The startup-applications page: the Run entries of the current user's and
 * the machine's registry, a displayed list filtered by a text query and a
 * source and sorted by name, and the commands that switch entries on and off.
 * Entries are objects shared between the full list and the displayed one, so
 * switching one through the displayed list switches it in the full list too.
 */
module StartupApps {
  import opened Wrappers
  import opened Text
  import opened Sorting
  import opened Queries

  /** StartupAppInfo: only IsEnabled is ever changed after an entry is built. */
  class StartupApp {
    const name: string
    const path: string
    /** Delay in seconds. */
    const delay: int
    /** "Windows", "User" or "Manufacturer". */
    const source: string
    var isEnabled: bool

    /** The entry LoadStartupAppsFromRegistry builds: no delay, enabled. */
    constructor (name: string, path: string, source: string)
      ensures this.name == name && this.path == path && this.source == source
      ensures delay == 0 && isEnabled
    {
      this.name, this.path, this.source := name, path, source;
      delay := 0;
      isEnabled := true;
    }
  }

  /** One value of a Run key: its name and its data as a string (None when the data is null). */
  datatype RegistryValue = RegistryValue(valueName: string, data: Option<string>)

  /** The values that make an entry: string.IsNullOrEmpty is false for their data. */
  predicate HasCommand(v: RegistryValue)
  {
    v.data.Some? && v.data.value != ""
  }

  /** What an entry holds besides its flag: name, path and source. */
  datatype AppEntry = AppEntry(name: string, path: string, source: string)

  function EntryOf(source: string): RegistryValue -> AppEntry
  {
    (v: RegistryValue) => AppEntry(v.valueName, if v.data.Some? then v.data.value else "", source)
  }

  /** The entries of one Run key (None when the key cannot be opened), in value order. */
  function KeyEntries(key: Option<seq<RegistryValue>>, source: string): seq<AppEntry>
  {
    if key.None? then [] else Mapped(Where(key.value, HasCommand), EntryOf(source))
  }

  /** The entries read from the registry before sorting: the user's key first ("User"), then the machine's ("Windows"). */
  function RegistryEntries(userKey: Option<seq<RegistryValue>>, machineKey: Option<seq<RegistryValue>>): seq<AppEntry>
  {
    KeyEntries(userKey, "User") + KeyEntries(machineKey, "Windows")
  }

  /**
   * An entry is read exactly when one of the two keys holds a value of that
   * name whose data is that non-empty path, and its source names the key.
   */
  lemma RegistryEntriesMeaning(userKey: Option<seq<RegistryValue>>, machineKey: Option<seq<RegistryValue>>, e: AppEntry)
    ensures e in RegistryEntries(userKey, machineKey) <==>
      && e.path != ""
      && ((e.source == "User" && userKey.Some? && RegistryValue(e.name, Some(e.path)) in userKey.value)
         || (e.source == "Windows" && machineKey.Some? && RegistryValue(e.name, Some(e.path)) in machineKey.value))
  {
    KeyEntriesMeaning(userKey, "User", e);
    KeyEntriesMeaning(machineKey, "Windows", e);
  }

  lemma KeyEntriesMeaning(key: Option<seq<RegistryValue>>, source: string, e: AppEntry)
    ensures e in KeyEntries(key, source) <==>
      e.path != "" && e.source == source && key.Some? && RegistryValue(e.name, Some(e.path)) in key.value
  {
    if key.Some? {
      var kept := Where(key.value, HasCommand);
      var entries := KeyEntries(key, source);
      assert entries == Mapped(kept, EntryOf(source));
      WhereMembers(key.value, HasCommand);
      var v := RegistryValue(e.name, Some(e.path));
      if e in entries {
        var i :| 0 <= i < |entries| && entries[i] == e;
        var w := kept[i];
        assert w in kept;
        assert entries[i] == EntryOf(source)(w);
        assert w.data == Some(e.path);
      }
      if e.path != "" && e.source == source && v in key.value {
        assert v in kept;
        var i :| 0 <= i < |kept| && kept[i] == v;
        assert entries[i] == EntryOf(source)(v);
      }
    }
  }

  /** The sort key of OrderBy(a => a.Name). */
  function NameKey(a: StartupApp): SortKey
  {
    TextKey(a.name)
  }

  /** The text test of the search filter: the name or the path contains the query, ignoring case. */
  function MatchesQuery(query: string): StartupApp -> bool
  {
    (a: StartupApp) => ContainsIgnoreCase(a.name, query) || ContainsIgnoreCase(a.path, query)
  }

  function FromSource(source: string): StartupApp -> bool
  {
    (a: StartupApp) => a.source == source
  }

  /** The search filter (skipped for a blank query), then the source filter (skipped for "All", exact otherwise). */
  function Filtered(all: seq<StartupApp>, query: string, sourceFilter: string): seq<StartupApp>
  {
    var searched := if IsBlank(query) then all else Where(all, MatchesQuery(query));
    if sourceFilter != "All" then Where(searched, FromSource(sourceFilter)) else searched
  }

  /** The list ApplyFiltersAndSort shows. */
  function Displayed(all: seq<StartupApp>, query: string, sourceFilter: string): seq<StartupApp>
  {
    StableSort(Filtered(all, query, sourceFilter), NameKey, false)
  }

  /**
   * An entry is shown exactly when it is in the full list, matches a
   * non-blank query and comes from the chosen source unless that is "All";
   * the list is in name order and holds the same entry objects as the full list.
   */
  lemma DisplayedMeaning(all: seq<StartupApp>, query: string, sourceFilter: string, a: StartupApp)
    ensures var d := Displayed(all, query, sourceFilter);
      && multiset(d) == multiset(Filtered(all, query, sourceFilter))
      && SortedBy(d, NameKey, false)
      && (a in d <==>
            && a in all
            && (IsBlank(query) || MatchesQuery(query)(a))
            && (sourceFilter != "All" ==> a.source == sourceFilter))
  {
    var d := Displayed(all, query, sourceFilter);
    var filtered := Filtered(all, query, sourceFilter);
    assert a in d <==> a in multiset(d);
    assert multiset(d) == multiset(filtered);
    var searched := if IsBlank(query) then all else Where(all, MatchesQuery(query));
    if !IsBlank(query) {
      WhereMembers(all, MatchesQuery(query));
    }
    assert a in searched <==> a in all && (IsBlank(query) || MatchesQuery(query)(a));
    if sourceFilter != "All" {
      WhereMembers(searched, FromSource(sourceFilter));
      assert filtered == Where(searched, FromSource(sourceFilter));
      assert a in filtered <==> a in searched && a.source == sourceFilter;
    } else {
      assert filtered == searched;
    }
  }

  /** The "All" source with a blank query shows every entry. */
  lemma ShowAll(all: seq<StartupApp>, query: string)
    requires IsBlank(query)
    ensures multiset(Displayed(all, query, "All")) == multiset(all)
  {
  }

  /** One entry with no delay per registry value, in the same order. */
  ghost predicate BuiltFrom(apps: seq<StartupApp>, entries: seq<AppEntry>)
  {
    && |apps| == |entries|
    && forall i :: 0 <= i < |apps| ==>
      AppEntry(apps[i].name, apps[i].path, apps[i].source) == entries[i] && apps[i].delay == 0
  }

  ghost predicate AllEnabled(apps: seq<StartupApp>)
    reads apps
  {
    forall i :: 0 <= i < |apps| ==> apps[i].isEnabled
  }

  /** No entry object is listed twice. */
  ghost predicate Distinct(apps: seq<StartupApp>)
  {
    forall i, j :: 0 <= i < j < |apps| ==> apps[i] != apps[j]
  }

  /** Builds one fresh, enabled entry per registry value, in order. */
  method NewApps(entries: seq<AppEntry>) returns (apps: seq<StartupApp>)
    ensures forall i :: 0 <= i < |apps| ==> fresh(apps[i])
    ensures BuiltFrom(apps, entries) && AllEnabled(apps) && Distinct(apps)
  {
    apps := [];
    for i := 0 to |entries|
      invariant |apps| == i
      invariant forall k :: 0 <= k < i ==> fresh(apps[k])
      invariant forall k :: 0 <= k < i ==>
        AppEntry(apps[k].name, apps[k].path, apps[k].source) == entries[k] && apps[k].delay == 0 && apps[k].isEnabled
      invariant forall k, l :: 0 <= k < l < i ==> apps[k] != apps[l]
    {
      var app := new StartupApp(entries[i].name, entries[i].path, entries[i].source);
      apps := apps + [app];
    }
  }

  /**
   * LoadStartupAppsFromRegistry: one fresh, enabled entry per value with
   * non-empty data, the user's key then the machine's (`created`), returned
   * ordered by name.
   */
  method LoadFromRegistry(userKey: Option<seq<RegistryValue>>, machineKey: Option<seq<RegistryValue>>)
    returns (apps: seq<StartupApp>, ghost created: seq<StartupApp>)
    ensures forall i :: 0 <= i < |created| ==> fresh(created[i])
    ensures BuiltFrom(created, RegistryEntries(userKey, machineKey)) && AllEnabled(created) && Distinct(created)
    ensures apps == StableSort(created, NameKey, false)
  {
    var found := NewApps(RegistryEntries(userKey, machineKey));
    created := found;
    apps := StableSort(found, NameKey, false);
  }

  function LoadedText(count: int): string
  {
    "Loaded " + IntToString(count) + " startup applications"
  }

  /** The source filters the page offers. */
  const SourceOptions: seq<string> := ["All", "Windows", "User", "Manufacturer"]

  class StartupAppsViewModel {
    /** _allApps */
    var allApps: seq<StartupApp>
    /** StartupApps: the displayed collection. */
    var startupApps: seq<StartupApp>
    var searchQuery: string
    var sourceFilter: string
    var statusText: string
    var isLoading: bool

    constructor ()
      ensures allApps == [] && startupApps == [] && searchQuery == "" && sourceFilter == "All"
      ensures statusText == "Loading startup apps..." && !isLoading
    {
      allApps, startupApps := [], [];
      searchQuery, sourceFilter := "", "All";
      statusText, isLoading := "Loading startup apps...", false;
    }

    /** ApplyFiltersAndSort: clears StartupApps and adds the filtered, sorted entries one by one. */
    method ApplyFiltersAndSort()
      modifies this`startupApps
      ensures startupApps == Displayed(allApps, searchQuery, sourceFilter)
    {
      startupApps := Refill(Displayed(allApps, searchQuery, sourceFilter));
    }

    /** LoadStartupApps: rereads the registry, redisplays and reports the displayed count. */
    method LoadStartupApps(userKey: Option<seq<RegistryValue>>, machineKey: Option<seq<RegistryValue>>)
      returns (ghost created: seq<StartupApp>)
      modifies this`allApps, this`startupApps, this`statusText, this`isLoading
      ensures forall i :: 0 <= i < |created| ==> fresh(created[i])
      ensures BuiltFrom(created, RegistryEntries(userKey, machineKey)) && AllEnabled(created) && Distinct(created)
      ensures allApps == StableSort(created, NameKey, false)
      ensures startupApps == Displayed(allApps, searchQuery, sourceFilter)
      ensures statusText == LoadedText(|startupApps|) && !isLoading
    {
      var apps;
      apps, created := LoadFromRegistry(userKey, machineKey);
      ShowLoaded(apps);
    }

    /** The end of LoadStartupApps: the loaded entries become the full list and are redisplayed with the count. */
    method ShowLoaded(apps: seq<StartupApp>)
      modifies this`allApps, this`startupApps, this`statusText, this`isLoading
      ensures allApps == apps
      ensures startupApps == Displayed(allApps, searchQuery, sourceFilter)
      ensures statusText == LoadedText(|startupApps|) && !isLoading
    {
      allApps := apps;
      ApplyFiltersAndSort();
      statusText, isLoading := LoadedText(|startupApps|), false;
    }

    /** FilterBySource: the source becomes the filter and the list is redisplayed. */
    method FilterBySource(source: string)
      modifies this`sourceFilter, this`startupApps
      ensures sourceFilter == source
      ensures startupApps == Displayed(allApps, searchQuery, sourceFilter)
    {
      sourceFilter := source;
      ApplyFiltersAndSort();
    }

    /** SearchApps: redisplays with the current query. */
    method SearchApps()
      modifies this`startupApps
      ensures startupApps == Displayed(allApps, searchQuery, sourceFilter)
    {
      ApplyFiltersAndSort();
    }

    /** ToggleApp: nothing for a null entry; otherwise its flag flips, wherever it is listed. */
    method ToggleApp(app: StartupApp?)
      modifies app
      ensures app != null ==> app.isEnabled == !old(app.isEnabled)
    {
      if app == null {
        return;
      }
      app.isEnabled := !app.isEnabled;
    }

    /** EnableAll: every displayed entry is enabled; entries filtered out keep their flag. */
    method EnableAll()
      modifies startupApps
      ensures forall i :: 0 <= i < |startupApps| ==> startupApps[i].isEnabled
      ensures forall a: StartupApp :: a in allApps && a !in startupApps ==> a.isEnabled == old(a.isEnabled)
    {
      SetAll(startupApps, true);
    }

    /** DisableAll: every displayed entry is disabled; entries filtered out keep their flag. */
    method DisableAll()
      modifies startupApps
      ensures forall i :: 0 <= i < |startupApps| ==> !startupApps[i].isEnabled
      ensures forall a: StartupApp :: a in allApps && a !in startupApps ==> a.isEnabled == old(a.isEnabled)
    {
      SetAll(startupApps, false);
    }
  }

  /** The foreach of EnableAll and DisableAll: sets the flag of each listed entry. */
  method SetAll(apps: seq<StartupApp>, enabled: bool)
    modifies apps
    ensures forall i :: 0 <= i < |apps| ==> apps[i].isEnabled == enabled
  {
    for i := 0 to |apps|
      invariant forall k :: 0 <= k < i ==> apps[k].isEnabled == enabled
    {
      apps[i].isEnabled := enabled;
    }
  }

  /**
   * The displayed entries are entries of the full list (the same objects), so
   * a flag switched through the page is switched in the full list as well.
   */
  lemma DisplayedAreShared(all: seq<StartupApp>, query: string, sourceFilter: string)
    ensures forall a :: a in Displayed(all, query, sourceFilter) ==> a in all
  {
    forall a | a in Displayed(all, query, sourceFilter)
      ensures a in all
    {
      DisplayedMeaning(all, query, sourceFilter, a);
    }
  }
}
