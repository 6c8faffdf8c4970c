/**
 * ThemeContext: whether the app is dark, where that choice is stored
 * (the "darkMode" field of the preferences object), and the colour set
 * each choice selects.
 */
module ThemeContext {
  import opened Domain

  /** What `useColorScheme()` reports. */
  datatype ColorScheme = LightScheme | DarkScheme | NoScheme

  datatype StatusBarStyle = LightContent | DarkContent

  datatype ThemeColors = ThemeColors(
    background: string,
    surface: string,
    primary: string,
    primaryText: string,
    text: string,
    textSecondary: string,
    border: string,
    tabBar: string,
    statusBar: StatusBarStyle)

  const LightColors := ThemeColors("#f5f5f5", "#ffffff", "#4CAF50", "#ffffff", "#333333",
                                   "#666666", "#e0e0e0", "#ffffff", DarkContent)

  const DarkColors := ThemeColors("#121212", "#1e1e1e", "#4CAF50", "#ffffff", "#ffffff",
                                  "#b0b0b0", "#2a2a2a", "#1e1e1e", LightContent)

  /** `isDarkMode ? darkColors : lightColors` */
  function Colors(isDarkMode: bool): (c: ThemeColors)
    ensures c == DarkColors <==> isDarkMode
    ensures c == LightColors <==> !isDarkMode
    ensures c.primary == "#4CAF50" && c.primaryText == "#ffffff"
  {
    if isDarkMode then DarkColors else LightColors
  }

  /** JavaScript truthiness of a parsed JSON value. */
  predicate Truthy(v: Json) {
    match v
    case JNull => false
    case JBool(b) => b
    case JNumber(n) => n != 0.0
    case JString(s) => s != ""
    case JArray(_) => true
    case JObject(_) => true
  }

  /**
   * `loadThemePreference`: the dark-mode setting after loading. With no
   * stored preferences, a read that fails, or a stored `null` (reading a
   * field of null throws), the system scheme decides; a stored object
   * decides by its "darkMode" field; any other stored value has no such
   * field, which reads as false.
   */
  function LoadedDarkMode(saved: Option<Value>, read: Outcome, system: ColorScheme): (dark: bool)
    ensures read == Failed || saved.None? || saved == Some(Document(JNull)) ==> (dark <==> system == DarkScheme)
    ensures read == Succeeded && saved.Some? && saved.value.Document? && saved.value.doc.JObject? ==>
      (dark <==> "darkMode" in saved.value.doc.fields && Truthy(saved.value.doc.fields["darkMode"]))
    ensures (read == Succeeded && saved.Some? && !(saved.value.Document? && saved.value.doc.JObject?)
             && saved != Some(Document(JNull))) ==> !dark
  {
    if read == Failed || saved.None? then system == DarkScheme
    else match saved.value
      case Document(JNull) => system == DarkScheme
      case Document(JObject(fields)) => "darkMode" in fields && Truthy(fields["darkMode"])
      case _ => false
  }

  /**
   * The preferences `toggleTheme` writes after reading `saved`: "darkMode"
   * set to the new value, every other field kept; `{}` stands in for
   * missing preferences. None when nothing changes in storage: setting a
   * field of null throws, and on any other non-object the field is
   * dropped (or refused) and the same value would be written back.
   */
  function PreferencesAfterToggle(saved: Option<Value>, newValue: bool): (r: Option<Json>)
    ensures r.Some? <==> saved.None? || (saved.value.Document? && saved.value.doc.JObject?)
    ensures r.Some? ==> r.value.JObject? && "darkMode" in r.value.fields
                        && r.value.fields["darkMode"] == JBool(newValue)
    ensures saved.None? ==> r == Some(JObject(map["darkMode" := JBool(newValue)]))
    ensures r.Some? && saved.Some? ==>
      forall k :: k != "darkMode" ==>
        (k in r.value.fields <==> k in saved.value.doc.fields)
        && (k in r.value.fields ==> r.value.fields[k] == saved.value.doc.fields[k])
  {
    match saved
    case None => Some(JObject(map["darkMode" := JBool(newValue)]))
    case Some(Document(JObject(fields))) => Some(JObject(fields["darkMode" := JBool(newValue)]))
    case Some(_) => None
  }

  /**
   * Loading what a toggle wrote gives the toggled value, whatever the
   * system scheme and whatever else the preferences held.
   */
  lemma LoadAfterToggle(saved: Option<Value>, newValue: bool, system: ColorScheme)
    requires PreferencesAfterToggle(saved, newValue).Some?
    ensures LoadedDarkMode(Some(Document(PreferencesAfterToggle(saved, newValue).value)), Succeeded, system) == newValue
  {
    var doc := PreferencesAfterToggle(saved, newValue).value;
    assert doc.fields["darkMode"] == JBool(newValue);
  }

  /** Toggling twice stores the original value again, keeping the other fields. */
  lemma ToggleTwice(fields: map<string, Json>, b: bool)
    requires "darkMode" in fields && fields["darkMode"] == JBool(b)
    ensures PreferencesAfterToggle(Some(Document(PreferencesAfterToggle(Some(Document(JObject(fields))), !b).value)), b)
         == Some(JObject(fields))
  {
    var once := fields["darkMode" := JBool(!b)];
    assert once["darkMode" := JBool(b)] == fields;
  }

  class Provider {
    var isDarkMode: bool
    const store: KeyValueStore

    /** `useState(false)`: light until the preference is loaded. */
    constructor (store: KeyValueStore)
      ensures !isDarkMode && this.store == store
    {
      isDarkMode := false;
      this.store := store;
    }

    /** The colour set given to the screens. */
    function CurrentColors(): (c: ThemeColors)
      reads this
      ensures c == DarkColors <==> isDarkMode
    {
      Colors(isDarkMode)
    }

    /** `loadThemePreference`, with `system` the device's colour scheme. */
    method LoadThemePreference(read: Outcome, system: ColorScheme)
      modifies this`isDarkMode
      ensures isDarkMode == LoadedDarkMode(store.GetItem(PreferencesKey), read, system)
    {
      if read == Failed {
        isDarkMode := system == DarkScheme;
        return;
      }
      var saved := store.GetItem(PreferencesKey);
      match saved {
        case None =>
          isDarkMode := system == DarkScheme;
        case Some(Document(JNull)) =>
          isDarkMode := system == DarkScheme;
        case Some(Document(JObject(fields))) =>
          isDarkMode := "darkMode" in fields && Truthy(fields["darkMode"]);
        case Some(_) =>
          isDarkMode := false;
      }
    }

    /**
     * `toggleTheme`: the setting flips at once; the new value is then
     * stored if the preferences can be read and written.
     */
    method ToggleTheme(read: Outcome, write: Outcome)
      modifies this`isDarkMode, store
      ensures isDarkMode == !old(isDarkMode)
      ensures var r := PreferencesAfterToggle(old(store.GetItem(PreferencesKey)), isDarkMode);
        store.entries == if read == Succeeded && r.Some? && write == Succeeded
                         then old(store.entries)[PreferencesKey := Document(r.value)]
                         else old(store.entries)
      ensures (read == Succeeded && write == Succeeded
               && PreferencesAfterToggle(old(store.GetItem(PreferencesKey)), isDarkMode).Some?) ==>
        forall system :: LoadedDarkMode(store.GetItem(PreferencesKey), Succeeded, system) == isDarkMode
    {
      var newValue := !isDarkMode;
      isDarkMode := newValue;
      if read == Failed {
        return;
      }
      var saved := store.GetItem(PreferencesKey);
      var preferences := PreferencesAfterToggle(saved, newValue);
      if preferences.Some? {
        store.SetItem(PreferencesKey, Document(preferences.value), write);
        forall system {
          LoadAfterToggle(saved, newValue, system);
        }
      }
    }
  }
}
