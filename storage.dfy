/**
 * The extension's persisted store: two independent slots, `cities` and `options`, in the
 * browser's local key-value table. Every operation either completes or is rejected because
 * the backend reported `lastError`; that report is an input of each call.
 */
module Storage {
  import opened Wrappers
  import opened Api

  /** `LocalStorageOptions`: the options record kept in the `options` slot. */
  datatype LocalStorageOptions = LocalStorageOptions(hasAutoOverlay: bool, homeCity: string, tempScale: TempScale)

  /** `LocalStorage`: what the two slots hold; `None` is a key that was never written. */
  datatype LocalStorage = LocalStorage(cities: Option<seq<string>>, options: Option<LocalStorageOptions>)

  /** The error a rejected store operation carries (`chrome.runtime.lastError`). */
  datatype StoreError = LastError

  /** A table in which neither key was ever written. */
  const Unwritten: LocalStorage := LocalStorage(None, None)

  /** The table after `{ cities: l }` has been written: the slot is overwritten, not merged. */
  function WriteCities(s: LocalStorage, l: seq<string>): LocalStorage
  {
    s.(cities := Some(l))
  }

  /** The table after `{ options: o }` has been written. */
  function WriteOptions(s: LocalStorage, o: LocalStorageOptions): LocalStorage
  {
    s.(options := Some(o))
  }

  /** How a set settles: rejected exactly when the backend reports an error. */
  function SetOutcome(lastError: bool): (r: Outcome<StoreError>)
    ensures r.Fail? <==> lastError
  {
    if lastError then Fail(LastError) else Pass
  }

  /** How a get settles: rejected on a backend error, otherwise with the slot's value. */
  function GetOutcome<T>(lastError: bool, slot: Option<T>): (r: Result<Option<T>, StoreError>)
    ensures r.Failure? <==> lastError
    ensures r.Success? ==> r.value == slot
  {
    if lastError then Failure(LastError) else Success(slot)
  }

  /** `chrome.storage.local`, holding the two slots the extension uses. */
  class Store {
    var cities: Option<seq<string>>
    var options: Option<LocalStorageOptions>

    /** The table as a value. */
    function State(): LocalStorage
      reads this
    {
      LocalStorage(cities, options)
    }

    /** A fresh profile: neither key has been written. */
    constructor ()
      ensures State() == Unwritten
    {
      cities := None;
      options := None;
    }

    /** `setStoredCities`: overwrites the `cities` slot; a rejected write changes nothing. */
    method SetStoredCities(l: seq<string>, lastError: bool) returns (r: Outcome<StoreError>)
      modifies this
      ensures r == SetOutcome(lastError)
      ensures State() == if lastError then old(State()) else WriteCities(old(State()), l)
    {
      r := SetOutcome(lastError);
      if !lastError {
        cities := Some(l);
      }
    }

    /** `getStoredCities`: the `cities` slot (absent if never written), unless rejected. */
    method GetStoredCities(lastError: bool) returns (r: Result<Option<seq<string>>, StoreError>)
      ensures r.Failure? <==> lastError
      ensures r.Success? ==> r.value == cities
    {
      r := GetOutcome(lastError, cities);
    }

    /** `setStoredOptions`: overwrites the `options` slot; a rejected write changes nothing. */
    method SetStoredOptions(o: LocalStorageOptions, lastError: bool) returns (r: Outcome<StoreError>)
      modifies this
      ensures r == SetOutcome(lastError)
      ensures State() == if lastError then old(State()) else WriteOptions(old(State()), o)
    {
      r := SetOutcome(lastError);
      if !lastError {
        options := Some(o);
      }
    }

    /** `getStoredOptions`: the `options` slot (absent if never written), unless rejected. */
    method GetStoredOptions(lastError: bool) returns (r: Result<Option<LocalStorageOptions>, StoreError>)
      ensures r.Failure? <==> lastError
      ensures r.Success? ==> r.value == options
    {
      r := GetOutcome(lastError, options);
    }
  }

  /** Writing `cities` leaves the `options` slot as it was, and the other way round. */
  lemma WritesTouchOneSlot(s: LocalStorage, l: seq<string>, o: LocalStorageOptions)
    ensures WriteCities(s, l).options == s.options
    ensures WriteOptions(s, o).cities == s.cities
  {
  }

  /** A read of a slot right after a write of it returns exactly what was written. */
  lemma ReadAfterWrite(s: LocalStorage, l: seq<string>, o: LocalStorageOptions)
    ensures WriteCities(s, l).cities == Some(l)
    ensures WriteOptions(s, o).options == Some(o)
  {
  }

  /** There is no merge: a second write of a slot fully overrides the first. */
  lemma SecondWriteOverrides(s: LocalStorage, l1: seq<string>, l2: seq<string>,
                             o1: LocalStorageOptions, o2: LocalStorageOptions)
    ensures WriteCities(WriteCities(s, l1), l2) == WriteCities(s, l2)
    ensures WriteOptions(WriteOptions(s, o1), o2) == WriteOptions(s, o2)
  {
  }

  /** The slots are independent: the order of one write to each does not matter. */
  lemma WritesCommute(s: LocalStorage, l: seq<string>, o: LocalStorageOptions)
    ensures WriteCities(WriteOptions(s, o), l) == WriteOptions(WriteCities(s, l), o)
  {
  }

  /** A read of a slot that was never written settles with "absent". */
  lemma UnwrittenReadsAbsent()
    ensures GetOutcome(false, Unwritten.cities) == Success(None)
    ensures GetOutcome(false, Unwritten.options) == Success(None)
  {
  }

  /**
   * The store methods compose as the slot functions say: on a store no one else writes, a
   * successful `setStoredCities(l)` followed by `getStoredCities()` returns `l`, and a
   * successful `setStoredOptions(o)` followed by `getStoredOptions()` returns `o`.
   */
  method SetThenGet(store: Store, l: seq<string>, o: LocalStorageOptions)
    returns (gotCities: Result<Option<seq<string>>, StoreError>,
             gotOptions: Result<Option<LocalStorageOptions>, StoreError>)
    modifies store
    ensures gotCities == Success(Some(l))
    ensures gotOptions == Success(Some(o))
    ensures store.State() == LocalStorage(Some(l), Some(o))
  {
    var _ := store.SetStoredCities(l, false);
    var _ := store.SetStoredOptions(o, false);
    gotCities := store.GetStoredCities(false);
    gotOptions := store.GetStoredOptions(false);
  }
}
