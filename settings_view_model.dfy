/**
 * The settings page: nine editable settings, the snapshot they make, the
 * unsaved-changes flag kept by a property-change handler, and the save,
 * cancel and reset commands. The settings file is an input (what reading it
 * gives) and an outcome (whether writing it succeeds).
 */
module SettingsPage {
  import opened Wrappers

  /** AppSettings: the nine settings the page edits, as they are saved. */
  datatype AppSettings = AppSettings(
    themeIndex: int,
    windowOpacity: real,
    refreshInterval: int,
    chartHistory: int,
    alwaysOnTop: bool,
    startWithWindows: bool,
    minimizeToTray: bool,
    startMinimized: bool,
    showNotifications: bool)

  /** new AppSettings(): the same values the page's properties start with. */
  const Defaults := AppSettings(0, 1.0, 2, 300, false, false, false, false, true)

  /** The application themes. */
  datatype ElementTheme = Light | Dark | DefaultTheme

  /** ApplyTheme's mapping from the theme index: 0 is light, 1 dark, anything else the system default. */
  function ThemeFor(index: int): (t: ElementTheme)
    ensures t == Light <==> index == 0
    ensures t == Dark <==> index == 1
    ensures t == DefaultTheme <==> index != 0 && index != 1
  {
    match index
    case 0 => Light
    case 1 => Dark
    case 2 => DefaultTheme
    case _ => DefaultTheme
  }

  /** Only the first two indices choose a fixed theme; 2 and every out-of-range index follow the system. */
  lemma ThemeForOutOfRange(index: int)
    requires index < 0 || index > 2
    ensures ThemeFor(index) == ThemeFor(2)
  {
  }

  /** What LoadSettings finds: no file, a file that cannot be read or parsed, or the deserialised value (None for JSON null). */
  datatype SettingsJson = NoFile | Unreadable | Deserialized(settings: Option<AppSettings>)

  /** The settings LoadSettings leaves: the file's when it deserialises to an object, the defaults otherwise. */
  function LoadedSettings(file: SettingsJson): (s: AppSettings)
    ensures file.Deserialized? && file.settings.Some? ==> s == file.settings.value
    ensures !(file.Deserialized? && file.settings.Some?) ==> s == Defaults
  {
    if file.Deserialized? && file.settings.Some? then file.settings.value else Defaults
  }

  /**
   * The unsaved-changes flag after an assignment of settings: it is raised
   * when the handler is attached and some setting takes a new value, and is
   * never lowered.
   */
  function Dirtied(dirty: bool, handlerAttached: bool, before: AppSettings, after: AppSettings): (r: bool)
    ensures dirty ==> r
    ensures !dirty ==> (r <==> handlerAttached && before != after)
  {
    dirty || (handlerAttached && before != after)
  }

  class SettingsViewModel {
    var selectedThemeIndex: int
    var windowOpacity: real
    var refreshInterval: int
    var chartHistory: int
    var alwaysOnTop: bool
    var startWithWindows: bool
    var minimizeToTray: bool
    var startMinimized: bool
    var showNotifications: bool
    var statusText: string
    var hasUnsavedChanges: bool
    /** _originalSettings: what Cancel restores. */
    var originalSettings: AppSettings
    /** Whether the PropertyChanged handler that raises the flag is attached (from the end of the constructor on). */
    var handlerAttached: bool
    /** The theme last handed to the application by ApplyTheme, if any. */
    var appTheme: Option<ElementTheme>

    /** GetCurrentSettings: the nine properties as a snapshot. */
    function Current(): AppSettings
      reads this
    {
      AppSettings(selectedThemeIndex, windowOpacity, refreshInterval, chartHistory,
        alwaysOnTop, startWithWindows, minimizeToTray, startMinimized, showNotifications)
    }

    /**
     * The constructor: the properties start at the defaults, LoadSettings
     * applies the file's settings (the handler is not attached yet, so the
     * flag stays clear), the result becomes the original, and then the
     * handler is attached.
     */
    constructor (file: SettingsJson)
      ensures Current() == LoadedSettings(file) && originalSettings == Current()
      ensures !hasUnsavedChanges && handlerAttached && statusText == ""
      ensures appTheme == (if LoadedSettings(file).themeIndex != 0 then Some(ThemeFor(LoadedSettings(file).themeIndex)) else None)
    {
      selectedThemeIndex, windowOpacity, refreshInterval, chartHistory := 0, 1.0, 2, 300;
      alwaysOnTop, startWithWindows, minimizeToTray, startMinimized, showNotifications := false, false, false, false, true;
      statusText, hasUnsavedChanges := "", false;
      originalSettings := Defaults;
      handlerAttached := false;
      appTheme := None;
      new;
      LoadSettings(file);
      originalSettings := Current();
      handlerAttached := true;
    }

    /** LoadSettings: applies the deserialised settings; without them the properties keep their values. */
    method LoadSettings(file: SettingsJson)
      modifies this
      ensures file.Deserialized? && file.settings.Some? ==> Current() == file.settings.value
      ensures !(file.Deserialized? && file.settings.Some?) ==> Current() == old(Current())
      ensures file.Deserialized? && file.settings.Some? ==>
        hasUnsavedChanges == Dirtied(old(hasUnsavedChanges), handlerAttached, old(Current()), file.settings.value)
      ensures !(file.Deserialized? && file.settings.Some?) ==> hasUnsavedChanges == old(hasUnsavedChanges)
      ensures file.Deserialized? && file.settings.Some? && file.settings.value.themeIndex != old(selectedThemeIndex) ==>
        appTheme == Some(ThemeFor(file.settings.value.themeIndex))
      ensures !(file.Deserialized? && file.settings.Some? && file.settings.value.themeIndex != old(selectedThemeIndex)) ==>
        appTheme == old(appTheme)
      ensures statusText == old(statusText) && originalSettings == old(originalSettings) && handlerAttached == old(handlerAttached)
    {
      if file.Deserialized? && file.settings.Some? {
        ApplySettings(file.settings.value);
      }
    }

    /** The PropertyChanged handler for a setting that changed: raises the flag when attached. */
    method SettingChanged()
      modifies this`hasUnsavedChanges
      ensures hasUnsavedChanges == (old(hasUnsavedChanges) || handlerAttached)
    {
      if handlerAttached {
        hasUnsavedChanges := true;
      }
    }

    /** The SelectedThemeIndex setter: on a change, ApplyTheme hands the mapped theme over, and the handler runs. */
    method SetSelectedThemeIndex(value: int)
      modifies this`selectedThemeIndex, this`appTheme, this`hasUnsavedChanges
      ensures selectedThemeIndex == value
      ensures value != old(selectedThemeIndex) ==> appTheme == Some(ThemeFor(value))
      ensures value == old(selectedThemeIndex) ==> appTheme == old(appTheme)
      ensures hasUnsavedChanges == (old(hasUnsavedChanges) || (handlerAttached && value != old(selectedThemeIndex)))
    {
      if value != selectedThemeIndex {
        selectedThemeIndex := value;
        appTheme := Some(ThemeFor(value));
        SettingChanged();
      }
    }

    /** The WindowOpacity setter (its window hook does nothing without a main window). */
    method SetWindowOpacity(value: real)
      modifies this`windowOpacity, this`hasUnsavedChanges
      ensures windowOpacity == value
      ensures hasUnsavedChanges == (old(hasUnsavedChanges) || (handlerAttached && value != old(windowOpacity)))
    {
      if value != windowOpacity {
        windowOpacity := value;
        SettingChanged();
      }
    }

    method SetRefreshInterval(value: int)
      modifies this`refreshInterval, this`hasUnsavedChanges
      ensures refreshInterval == value
      ensures hasUnsavedChanges == (old(hasUnsavedChanges) || (handlerAttached && value != old(refreshInterval)))
    {
      if value != refreshInterval {
        refreshInterval := value;
        SettingChanged();
      }
    }

    method SetChartHistory(value: int)
      modifies this`chartHistory, this`hasUnsavedChanges
      ensures chartHistory == value
      ensures hasUnsavedChanges == (old(hasUnsavedChanges) || (handlerAttached && value != old(chartHistory)))
    {
      if value != chartHistory {
        chartHistory := value;
        SettingChanged();
      }
    }

    /** The AlwaysOnTop setter (its window hook does nothing without a main window). */
    method SetAlwaysOnTop(value: bool)
      modifies this`alwaysOnTop, this`hasUnsavedChanges
      ensures alwaysOnTop == value
      ensures hasUnsavedChanges == (old(hasUnsavedChanges) || (handlerAttached && value != old(alwaysOnTop)))
    {
      if value != alwaysOnTop {
        alwaysOnTop := value;
        SettingChanged();
      }
    }

    method SetStartWithWindows(value: bool)
      modifies this`startWithWindows, this`hasUnsavedChanges
      ensures startWithWindows == value
      ensures hasUnsavedChanges == (old(hasUnsavedChanges) || (handlerAttached && value != old(startWithWindows)))
    {
      if value != startWithWindows {
        startWithWindows := value;
        SettingChanged();
      }
    }

    method SetMinimizeToTray(value: bool)
      modifies this`minimizeToTray, this`hasUnsavedChanges
      ensures minimizeToTray == value
      ensures hasUnsavedChanges == (old(hasUnsavedChanges) || (handlerAttached && value != old(minimizeToTray)))
    {
      if value != minimizeToTray {
        minimizeToTray := value;
        SettingChanged();
      }
    }

    method SetStartMinimized(value: bool)
      modifies this`startMinimized, this`hasUnsavedChanges
      ensures startMinimized == value
      ensures hasUnsavedChanges == (old(hasUnsavedChanges) || (handlerAttached && value != old(startMinimized)))
    {
      if value != startMinimized {
        startMinimized := value;
        SettingChanged();
      }
    }

    method SetShowNotifications(value: bool)
      modifies this`showNotifications, this`hasUnsavedChanges
      ensures showNotifications == value
      ensures hasUnsavedChanges == (old(hasUnsavedChanges) || (handlerAttached && value != old(showNotifications)))
    {
      if value != showNotifications {
        showNotifications := value;
        SettingChanged();
      }
    }

    /**
     * ApplySettings: sets the nine properties, so that afterwards
     * GetCurrentSettings gives back exactly the settings applied. Each setter
     * that changes its value runs the handler, so the flag is raised iff the
     * handler is attached and some setting changed; a new theme index is
     * applied as a theme.
     */
    method ApplySettings(s: AppSettings)
      modifies this`selectedThemeIndex, this`windowOpacity, this`refreshInterval, this`chartHistory
      modifies this`alwaysOnTop, this`startWithWindows, this`minimizeToTray, this`startMinimized
      modifies this`showNotifications, this`appTheme, this`hasUnsavedChanges
      ensures Current() == s
      ensures hasUnsavedChanges == Dirtied(old(hasUnsavedChanges), handlerAttached, old(Current()), s)
      ensures s.themeIndex != old(selectedThemeIndex) ==> appTheme == Some(ThemeFor(s.themeIndex))
      ensures s.themeIndex == old(selectedThemeIndex) ==> appTheme == old(appTheme)
    {
      var changed := Current() != s;
      AssignSettings(s);
      if changed {
        SettingChanged();
      }
    }

    /** The nine property assignments, with ApplyTheme on a new theme index. */
    method AssignSettings(s: AppSettings)
      modifies this`selectedThemeIndex, this`windowOpacity, this`refreshInterval, this`chartHistory
      modifies this`alwaysOnTop, this`startWithWindows, this`minimizeToTray, this`startMinimized
      modifies this`showNotifications, this`appTheme
      ensures Current() == s
      ensures s.themeIndex != old(selectedThemeIndex) ==> appTheme == Some(ThemeFor(s.themeIndex))
      ensures s.themeIndex == old(selectedThemeIndex) ==> appTheme == old(appTheme)
    {
      if s.themeIndex != selectedThemeIndex {
        appTheme := Some(ThemeFor(s.themeIndex));
      }
      selectedThemeIndex, windowOpacity, refreshInterval, chartHistory :=
        s.themeIndex, s.windowOpacity, s.refreshInterval, s.chartHistory;
      alwaysOnTop, startWithWindows, minimizeToTray, startMinimized, showNotifications :=
        s.alwaysOnTop, s.startWithWindows, s.minimizeToTray, s.startMinimized, s.showNotifications;
    }

    /** GetSettings: the current snapshot. */
    method GetSettings() returns (s: AppSettings)
      ensures s == Current()
    {
      s := Current();
    }

    /**
     * SaveAsync: when the file is written, the current settings become the
     * original and the flag is cleared; "Settings saved successfully" is shown
     * (`shown`) until the delay clears it. When writing fails only the status
     * changes, to "Failed to save settings".
     */
    method SaveAsync(writeSucceeds: bool) returns (ghost shown: string)
      modifies this`originalSettings, this`hasUnsavedChanges, this`statusText
      ensures writeSucceeds ==> originalSettings == Current() && !hasUnsavedChanges
      ensures writeSucceeds ==> shown == "Settings saved successfully" && statusText == ""
      ensures !writeSucceeds ==> originalSettings == old(originalSettings) && hasUnsavedChanges == old(hasUnsavedChanges)
      ensures !writeSucceeds ==> statusText == "Failed to save settings" && shown == statusText
    {
      var settings := Current();
      if !writeSucceeds {
        statusText := "Failed to save settings";
        shown := statusText;
        return;
      }
      originalSettings := settings;
      hasUnsavedChanges := false;
      statusText := "Settings saved successfully";
      shown := statusText;
      statusText := "";
    }

    /** Cancel: the original settings are restored and the flag the restoring raised is cleared. */
    method Cancel()
      modifies this`selectedThemeIndex, this`windowOpacity, this`refreshInterval, this`chartHistory
      modifies this`alwaysOnTop, this`startWithWindows, this`minimizeToTray, this`startMinimized
      modifies this`showNotifications, this`appTheme, this`hasUnsavedChanges, this`statusText
      ensures Current() == originalSettings
      ensures originalSettings.themeIndex != old(selectedThemeIndex) ==> appTheme == Some(ThemeFor(originalSettings.themeIndex))
      ensures originalSettings.themeIndex == old(selectedThemeIndex) ==> appTheme == old(appTheme)
      ensures !hasUnsavedChanges && statusText == "Changes cancelled"
    {
      ApplySettings(originalSettings);
      hasUnsavedChanges := false;
      statusText := "Changes cancelled";
    }

    /**
     * ResetToDefaultsAsync: the defaults are applied and saved (a failed save
     * is reported by SaveAsync and does not stop the reset), "Reset to
     * defaults" is shown, and the delay clears the status.
     */
    method ResetToDefaultsAsync(writeSucceeds: bool)
      modifies this`selectedThemeIndex, this`windowOpacity, this`refreshInterval, this`chartHistory
      modifies this`alwaysOnTop, this`startWithWindows, this`minimizeToTray, this`startMinimized
      modifies this`showNotifications, this`appTheme, this`hasUnsavedChanges, this`statusText
      modifies this`originalSettings
      ensures Current() == Defaults && statusText == ""
      ensures Defaults.themeIndex != old(selectedThemeIndex) ==> appTheme == Some(ThemeFor(Defaults.themeIndex))
      ensures Defaults.themeIndex == old(selectedThemeIndex) ==> appTheme == old(appTheme)
      ensures writeSucceeds ==> originalSettings == Defaults && !hasUnsavedChanges
      ensures !writeSucceeds ==> originalSettings == old(originalSettings)
      ensures !writeSucceeds ==> hasUnsavedChanges == Dirtied(old(hasUnsavedChanges), handlerAttached, old(Current()), Defaults)
    {
      ApplySettings(Defaults);
      var _ := SaveAsync(writeSucceeds);
      statusText := "Reset to defaults";
      statusText := "";
    }
  }

  /** Saving clears the flag and a later Cancel restores what was saved. */
  method SaveThenCancel(page: SettingsViewModel, edit: AppSettings)
    modifies page
    ensures page.Current() == old(page.Current()) && page.originalSettings == old(page.Current())
    ensures !page.hasUnsavedChanges
  {
    var _ := page.SaveAsync(true);
    page.ApplySettings(edit);
    page.Cancel();
  }

  /** An edit of a setting on a page whose handler is attached raises the flag. */
  method EditMarksDirty(page: SettingsViewModel, interval: int)
    requires page.handlerAttached && interval != page.refreshInterval
    modifies page
    ensures page.hasUnsavedChanges && page.refreshInterval == interval
  {
    page.SetRefreshInterval(interval);
  }
}
