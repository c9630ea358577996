/**
 * `useSettingsStore`: the theme preference, persisted as JSON text in the
 * device's key-value storage under one fixed key.
 */
module SettingsStore {
  import opened Wrappers
  import opened Json

  const THEME_KEY: string := "@moments_theme_mode"

  /** AsyncStorage: string keys to string values; each call may fail with a message. */
  class AsyncStorage {
    var items: map<string, string>

    constructor (initial: map<string, string>)
      ensures items == initial
    {
      items := initial;
    }

    /** `getItem`: the stored value, or `null` when the key is absent. */
    method GetItem(key: string, fault: Option<string>) returns (r: Result<Option<string>, string>)
      ensures fault.Some? ==> r == Failure(fault.value)
      ensures fault.None? ==> r == Success(if key in items then Some(items[key]) else None)
    {
      if fault.Some? {
        return Failure(fault.value);
      }
      r := Success(if key in items then Some(items[key]) else None);
    }

    /** `setItem`: store the value under the key, or fail and store nothing. */
    method SetItem(key: string, value: string, fault: Option<string>) returns (r: Result<(), string>)
      modifies this
      ensures fault.Some? ==> r == Failure(fault.value) && items == old(items)
      ensures fault.None? ==> r == Success(()) && items == old(items)[key := value]
    {
      if fault.Some? {
        return Failure(fault.value);
      }
      items := items[key := value];
      r := Success(());
    }
  }

  /**
   * The mode a successful read of the saved value selects: dark when nothing
   * is saved, the decoded value otherwise; `None` when `JSON.parse` throws.
   */
  function SavedMode(saved: Option<string>): (r: Option<bool>)
    ensures saved.None? ==> r == Some(true)
    ensures saved.Some? ==> (r.Some? <==> saved.value == "true" || saved.value == "false")
  {
    if saved.None? then Some(true) else DecodeBool(saved.value)
  }

  /** The mode and the storage after a successful `toggleTheme`. */
  function Toggled(mode: bool, items: map<string, string>): (r: (bool, map<string, string>))
    ensures r.0 == !mode && THEME_KEY in r.1
    ensures forall k :: k in items && k != THEME_KEY ==> k in r.1 && r.1[k] == items[k]
  {
    (!mode, items[THEME_KEY := EncodeBool(!mode)])
  }

  /** A toggle persists exactly the new mode: reading the key back selects it. */
  lemma ToggleThenLoad(mode: bool, items: map<string, string>)
    ensures SavedMode(Some(Toggled(mode, items).1[THEME_KEY])) == Some(Toggled(mode, items).0)
  {
    BoolRoundTrip(!mode);
  }

  /** Two toggles give back the mode and, once the mode has been saved, the storage too. */
  lemma ToggleTwice(mode: bool, items: map<string, string>)
    ensures Toggled(Toggled(mode, items).0, Toggled(mode, items).1).0 == mode
    ensures THEME_KEY in items && items[THEME_KEY] == EncodeBool(mode) ==>
              Toggled(Toggled(mode, items).0, Toggled(mode, items).1).1 == items
  {
    var twice := Toggled(Toggled(mode, items).0, Toggled(mode, items).1).1;
    assert twice == items[THEME_KEY := EncodeBool(mode)];
  }

  class SettingsState {
    var isDarkMode: bool
    var isLoading: bool
    const storage: AsyncStorage

    /** The initial state: dark mode, not loading. */
    constructor (device: AsyncStorage)
      ensures storage == device && isDarkMode && !isLoading
    {
      storage := device;
      isDarkMode, isLoading := true, false;
    }

    /**
     * `loadSettings`: read the saved mode. A failed read, or saved text that
     * is not a boolean, leaves the mode as it was; loading always ends.
     */
    method LoadSettings(fault: Option<string>)
      modifies this
      ensures !isLoading && storage.items == old(storage.items)
      ensures fault.Some? ==> isDarkMode == old(isDarkMode)
      ensures fault.None? ==>
                var selected := SavedMode(if THEME_KEY in storage.items then Some(storage.items[THEME_KEY]) else None);
                isDarkMode == selected.GetOr(old(isDarkMode))
    {
      isLoading := true;
      var r := storage.GetItem(THEME_KEY, fault);
      if r.Failure? {
        isLoading := false;
        return;
      }
      var saved := r.value;
      if saved.None? {
        isDarkMode, isLoading := true, false;
        return;
      }
      var parsed := DecodeBool(saved.value);
      if parsed.None? {
        isLoading := false;
        return;
      }
      isDarkMode, isLoading := parsed.value, false;
    }

    /**
     * `toggleTheme`: persist the negated mode first, and flip the in-memory
     * mode only once that write succeeded; a failed write changes nothing.
     */
    method ToggleTheme(fault: Option<string>)
      modifies this, storage
      ensures isLoading == old(isLoading)
      ensures fault.Some? ==> isDarkMode == old(isDarkMode) && storage.items == old(storage.items)
      ensures fault.None? ==> (isDarkMode, storage.items) == Toggled(old(isDarkMode), old(storage.items))
    {
      var newMode := !isDarkMode;
      var r := storage.SetItem(THEME_KEY, EncodeBool(newMode), fault);
      if r.Success? {
        isDarkMode := newMode;
      }
    }
  }
}
