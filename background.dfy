/**
 * The background script's two listeners: the install reset and the context-menu append.
 * Each writes the shared store; the writes a listener issues are not awaited by one another,
 * so each one's backend outcome is an input of its own.
 */
module Background {
  import opened Wrappers
  import opened Api
  import opened Storage

  /** The options record the install listener writes. */
  const DefaultOptions: LocalStorageOptions := LocalStorageOptions(false, "", Imperial)

  /** The table after the install listener: each slot reset unless its own write was rejected. */
  function InstallEffect(s: LocalStorage, citiesError: bool, optionsError: bool): (r: LocalStorage)
    ensures r.cities == if citiesError then s.cities else Some([])
    ensures r.options == if optionsError then s.options else Some(DefaultOptions)
  {
    var afterCities := if citiesError then s else WriteCities(s, []);
    if optionsError then afterCities else WriteOptions(afterCities, DefaultOptions)
  }

  /**
   * The table after a context-menu click: the stored list with the selection appended is
   * written back. A rejected read, a rejected write, or a list that was never stored (the
   * spread of `undefined` throws before the write) leaves the table as it was.
   */
  function ClickEffect(s: LocalStorage, selectionText: string, readError: bool, writeError: bool): (r: LocalStorage)
    ensures r.options == s.options
    ensures r.cities.Some? <==> s.cities.Some?
    ensures s.cities.Some? && !readError && !writeError ==> r.cities.value == s.cities.value + [selectionText]
    ensures readError || writeError ==> r == s
  {
    if readError || writeError || s.cities.None? then s
    else WriteCities(s, s.cities.value + [selectionText])
  }

  /** `chrome.runtime.onInstalled` listener: `setStoredCities([])` and `setStoredOptions(defaults)`. */
  method OnInstalled(store: Store, citiesError: bool, optionsError: bool)
    modifies store
    ensures store.State() == InstallEffect(old(store.State()), citiesError, optionsError)
  {
    var _ := store.SetStoredCities([], citiesError);
    var _ := store.SetStoredOptions(DefaultOptions, optionsError);
  }

  /** `chrome.contextMenus.onClicked` listener: read the list, append the selection, write it back. */
  method OnContextMenuClicked(store: Store, selectionText: string, readError: bool, writeError: bool)
    modifies store
    ensures store.State() == ClickEffect(old(store.State()), selectionText, readError, writeError)
  {
    var r := store.GetStoredCities(readError);
    if r.Success? && r.value.Some? {
      var _ := store.SetStoredCities(r.value.value + [selectionText], writeError);
    }
  }

  /** A successful install discards whatever the store held. */
  lemma InstallResets(s: LocalStorage)
    ensures InstallEffect(s, false, false) == LocalStorage(Some([]), Some(DefaultOptions))
  {
  }

  /** Installing again after a successful install changes nothing, whichever of its writes fail. */
  lemma InstallIdempotent(s: LocalStorage, citiesError: bool, optionsError: bool)
    ensures InstallEffect(InstallEffect(s, false, false), citiesError, optionsError) == InstallEffect(s, false, false)
  {
  }

  /** A successful click appends the selection to the end, without de-duplication, and keeps `options`. */
  lemma ClickAppends(s: LocalStorage, selectionText: string)
    requires s.cities.Some?
    ensures ClickEffect(s, selectionText, false, false).cities == Some(s.cities.value + [selectionText])
    ensures ClickEffect(s, selectionText, false, false).options == s.options
  {
  }

  /** No click, successful or not, touches the `options` slot. */
  lemma ClickKeepsOptions(s: LocalStorage, selectionText: string, readError: bool, writeError: bool)
    ensures ClickEffect(s, selectionText, readError, writeError).options == s.options
  {
  }

  /** Install followed by one click with text `t` leaves exactly `[t]`. */
  lemma InstallThenClick(s: LocalStorage, t: string)
    ensures ClickEffect(InstallEffect(s, false, false), t, false, false).cities == Some([t])
  {
    assert [] + [t] == [t];
  }

  /** A run of successful clicks, one per selection, in order. */
  function Clicks(s: LocalStorage, selections: seq<string>): LocalStorage
    decreases |selections|
  {
    if selections == [] then s else Clicks(ClickEffect(s, selections[0], false, false), selections[1..])
  }

  /**
   * On a stored list, successful clicks append their selections in click order, duplicates
   * and all, and never touch `options`.
   */
  lemma {:induction false} ClicksAppendInOrder(s: LocalStorage, selections: seq<string>)
    requires s.cities.Some?
    ensures Clicks(s, selections) == LocalStorage(Some(s.cities.value + selections), s.options)
    decreases |selections|
  {
    if selections != [] {
      var next := ClickEffect(s, selections[0], false, false);
      ClicksAppendInOrder(next, selections[1..]);
      assert next == LocalStorage(Some(s.cities.value + [selections[0]]), s.options);
      assert selections == [selections[0]] + selections[1..];
      assert s.cities.value + [selections[0]] + selections[1..] == s.cities.value + selections;
    } else {
      assert s.cities.value + selections == s.cities.value;
    }
  }
}
