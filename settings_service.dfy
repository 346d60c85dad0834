/**
 * The settings service: an in-memory key-to-value store loaded once from the
 * settings file, read with a per-call default and written key by key.
 */
module Settings {
  import opened Wrappers

  /** A stored setting: the boxed value of a string, an int, a double or a bool. */
  datatype Value = Text(text: string) | Whole(n: int) | Fraction(x: real) | Switch(b: bool)

  /** Unboxing with `(T)value` succeeds only when the boxed value has exactly the type T. */
  predicate SameType(a: Value, b: Value)
  {
    match (a, b)
    case (Text(_), Text(_)) => true
    case (Whole(_), Whole(_)) => true
    case (Fraction(_), Fraction(_)) => true
    case (Switch(_), Switch(_)) => true
    case _ => false
  }

  /** The InvalidCastException of an unboxing to the wrong type. */
  datatype CastError = InvalidCast

  /**
   * What LoadSettings finds: no file, a file whose read or parse throws, or the
   * parsed dictionary (None when the file holds the JSON literal null).
   */
  datatype SettingsFile = NoFile | Unreadable | Parsed(content: Option<map<string, Value>>)

  const ThemeKey := "Theme"
  const RefreshIntervalKey := "RefreshInterval"
  const WindowOpacityKey := "WindowOpacity"

  const DefaultTheme := "System"
  const DefaultRefreshInterval := 2
  const DefaultWindowOpacity := 1.0

  /** GetSetting(key, defaultValue) on a given store. */
  function Lookup(settings: map<string, Value>, key: string, default: Value): Result<Value, CastError>
  {
    if key !in settings then Success(default)
    else if SameType(settings[key], default) then Success(settings[key])
    else Failure(InvalidCast)
  }

  /** Reading a key back after storing it gives the stored value, when read at the stored type. */
  lemma LookupAfterStore(settings: map<string, Value>, key: string, value: Value, default: Value)
    requires SameType(value, default)
    ensures Lookup(settings[key := value], key, default) == Success(value)
  {
  }

  /** Reading it at another type fails with a cast error. */
  lemma LookupWrongType(settings: map<string, Value>, key: string, value: Value, default: Value)
    requires !SameType(value, default)
    ensures Lookup(settings[key := value], key, default) == Failure(InvalidCast)
  {
  }

  /** Storing one key leaves every other key's reading as it was. */
  lemma LookupOtherKey(settings: map<string, Value>, key: string, value: Value, other: string, default: Value)
    requires other != key
    ensures Lookup(settings[key := value], other, default) == Lookup(settings, other, default)
  {
  }

  /** A successful reading has the type of the default. */
  lemma LookupTyped(settings: map<string, Value>, key: string, default: Value)
    ensures Lookup(settings, key, default).Success? ==> SameType(Lookup(settings, key, default).value, default)
  {
  }

  class SettingsService {
    /** _settings */
    var settings: map<string, Value>

    /** The service loads the settings file on construction. */
    constructor (file: SettingsFile)
      ensures file.Parsed? && file.content.Some? ==> settings == file.content.value
      ensures !(file.Parsed? && file.content.Some?) ==> settings == map[]
    {
      settings := map[];
      new;
      LoadSettings(file);
    }

    /**
     * LoadSettings: the parsed dictionary when the file exists and parses to
     * one; an empty store when the file is missing, unreadable, corrupt or null.
     */
    method LoadSettings(file: SettingsFile)
      modifies this`settings
      ensures file.Parsed? && file.content.Some? ==> settings == file.content.value
      ensures !(file.Parsed? && file.content.Some?) ==> settings == map[]
    {
      match file
      case Parsed(content) =>
        settings := if content.Some? then content.value else map[];
      case _ =>
        settings := map[];
    }

    /**
     * GetSetting: the default for an absent key, the stored value when it has
     * the default's type, a cast failure otherwise.
     */
    method GetSetting(key: string, default: Value) returns (r: Result<Value, CastError>)
      ensures key !in settings ==> r == Success(default)
      ensures key in settings ==> (r.Success? <==> SameType(settings[key], default))
      ensures key in settings && r.Success? ==> r.value == settings[key]
      ensures r == Lookup(settings, key, default)
    {
      if key in settings {
        var value := settings[key];
        if SameType(value, default) {
          return Success(value);
        }
        return Failure(InvalidCast);
      }
      return Success(default);
    }

    /** SetSettingAsync: stores the value under the key (the file save that follows is not modelled). */
    method SetSettingAsync(key: string, value: Value)
      modifies this`settings
      ensures settings == old(settings)[key := value]
    {
      settings := settings[key := value];
    }

    /** GetTheme: the "Theme" string, "System" when absent. */
    method GetTheme() returns (r: Result<string, CastError>)
      ensures ThemeKey !in settings ==> r == Success(DefaultTheme)
      ensures ThemeKey in settings ==> (r.Success? <==> settings[ThemeKey].Text?)
      ensures ThemeKey in settings && r.Success? ==> r.value == settings[ThemeKey].text
    {
      var v := GetSetting(ThemeKey, Text(DefaultTheme));
      return if v.Success? then Success(v.value.text) else Failure(v.error);
    }

    method SetThemeAsync(theme: string)
      modifies this`settings
      ensures settings == old(settings)[ThemeKey := Text(theme)]
    {
      SetSettingAsync(ThemeKey, Text(theme));
    }

    /** GetRefreshInterval: the "RefreshInterval" int, 2 when absent. */
    method GetRefreshInterval() returns (r: Result<int, CastError>)
      ensures RefreshIntervalKey !in settings ==> r == Success(DefaultRefreshInterval)
      ensures RefreshIntervalKey in settings ==> (r.Success? <==> settings[RefreshIntervalKey].Whole?)
      ensures RefreshIntervalKey in settings && r.Success? ==> r.value == settings[RefreshIntervalKey].n
    {
      var v := GetSetting(RefreshIntervalKey, Whole(DefaultRefreshInterval));
      return if v.Success? then Success(v.value.n) else Failure(v.error);
    }

    method SetRefreshIntervalAsync(seconds: int)
      modifies this`settings
      ensures settings == old(settings)[RefreshIntervalKey := Whole(seconds)]
    {
      SetSettingAsync(RefreshIntervalKey, Whole(seconds));
    }

    /** GetWindowOpacity: the "WindowOpacity" double, 1.0 when absent. */
    method GetWindowOpacity() returns (r: Result<real, CastError>)
      ensures WindowOpacityKey !in settings ==> r == Success(DefaultWindowOpacity)
      ensures WindowOpacityKey in settings ==> (r.Success? <==> settings[WindowOpacityKey].Fraction?)
      ensures WindowOpacityKey in settings && r.Success? ==> r.value == settings[WindowOpacityKey].x
    {
      var v := GetSetting(WindowOpacityKey, Fraction(DefaultWindowOpacity));
      return if v.Success? then Success(v.value.x) else Failure(v.error);
    }

    method SetWindowOpacityAsync(opacity: real)
      modifies this`settings
      ensures settings == old(settings)[WindowOpacityKey := Fraction(opacity)]
    {
      SetSettingAsync(WindowOpacityKey, Fraction(opacity));
    }
  }
}
