/**
 * The popup: the list of tracked cities, the add-city input and the options, the handlers
 * that change them and write them to the store, and the list of weather cards it renders.
 */
module Popup {
  import opened Wrappers
  import opened Api
  import opened Storage

  // ---------------------------------------------------------------------------------------
  // Pure helpers the handlers and the render use
  // ---------------------------------------------------------------------------------------

  /** The list an add produces: the input appended at the end, unless the input is empty. */
  function AddedCities(cities: seq<string>, input: string): (r: seq<string>)
    ensures |r| == |cities| + (if input == "" then 0 else 1)
    ensures r[..|cities|] == cities
    ensures input != "" ==> r[|cities|] == input
  {
    if input == "" then cities else cities + [input]
  }

  /** The start position `Array.prototype.splice(index, …)` uses on a list of length `n`. */
  function SpliceStart(n: nat, index: int): (k: nat)
    ensures k <= n
  {
    if index < 0 then (if n + index < 0 then 0 else n + index)
    else if index < n then index else n
  }

  /** The list `splice(index, 1)` leaves behind: the element at the start position, if any, is gone. */
  function Splice1<T>(s: seq<T>, index: int): (r: seq<T>)
    ensures SpliceStart(|s|, index) < |s| ==>
              |r| == |s| - 1 &&
              forall j :: 0 <= j < |r| ==> r[j] == if j < SpliceStart(|s|, index) then s[j] else s[j + 1]
    ensures SpliceStart(|s|, index) == |s| ==> r == s
  {
    var k := SpliceStart(|s|, index);
    if k < |s| then s[..k] + s[k + 1..] else s
  }

  /** The other temperature scale. */
  function Toggled(t: TempScale): (u: TempScale)
    ensures u != t
  {
    if t == Imperial then Metric else Imperial
  }

  /** The record the scale button writes: only `tempScale` flips. */
  function WithToggledScale(o: LocalStorageOptions): (r: LocalStorageOptions)
    ensures r.tempScale != o.tempScale
    ensures r.homeCity == o.homeCity && r.hasAutoOverlay == o.hasAutoOverlay
  {
    o.(tempScale := Toggled(o.tempScale))
  }

  /** The props of one rendered weather card; `onDelete` is the index its delete button removes. */
  datatype CardProps = CardProps(city: string, tempScale: TempScale, onDelete: Option<int>)

  /** `cities.map(...)`: one deletable card per city, in list order, numbered from `from`. */
  function CityCards(cities: seq<string>, scale: TempScale, from: int): (r: seq<CardProps>)
    ensures |r| == |cities|
    ensures forall k :: 0 <= k < |r| ==> r[k] == CardProps(cities[k], scale, Some(from + k))
    decreases |cities|
  {
    if cities == [] then []
    else [CardProps(cities[0], scale, Some(from))] + CityCards(cities[1..], scale, from + 1)
  }

  /** The card list: the home city's card (not deletable) first if it is set, then every city. */
  function PopupCards(o: LocalStorageOptions, cities: seq<string>): (r: seq<CardProps>)
    ensures |r| == |cities| + (if o.homeCity != "" then 1 else 0)
    ensures o.homeCity != "" ==> r[0] == CardProps(o.homeCity, o.tempScale, None)
    ensures o.homeCity != "" ==> forall k :: 0 <= k < |cities| ==> r[1 + k] == CardProps(cities[k], o.tempScale, Some(k))
    ensures o.homeCity == "" ==> forall k :: 0 <= k < |cities| ==> r[k] == CardProps(cities[k], o.tempScale, Some(k))
  {
    var tail := CityCards(cities, o.tempScale, 0);
    if o.homeCity == "" then tail
    else
      var r := [CardProps(o.homeCity, o.tempScale, None)] + tail;
      assert forall k :: 0 <= k < |tail| ==> r[1 + k] == tail[k];
      r
  }

  // ---------------------------------------------------------------------------------------
  // The popup component and its handlers
  // ---------------------------------------------------------------------------------------

  /**
   * The popup's component state, tied to the store it reads and writes. `shownCities` is the
   * list the last committed render mapped to cards: React renders again only when a state
   * setter runs with a new value, so an in-place splice whose write fails leaves the screen
   * showing the list from before it.
   */
  class App {
    const store: Store
    var cities: seq<string>
    var cityInput: string
    var options: Option<LocalStorageOptions>
    var shownCities: seq<string>

    /** The cards on screen were rendered from the current list. */
    predicate ScreenCurrent()
      reads this
    {
      shownCities == cities
    }

    /** Mounting: an empty list, an empty input, options not yet loaded. */
    constructor (store: Store)
      ensures this.store == store
      ensures cities == [] && cityInput == "" && options == None
      ensures ScreenCurrent()
    {
      this.store := store;
      cities := [];
      cityInput := "";
      options := None;
      shownCities := [];
    }

    /**
     * The mount effect's `getStoredCities().then(setCities)`: a stored list replaces the
     * in-memory one and is rendered; a rejected read leaves everything alone.
     */
    method LoadCities(lastError: bool)
      modifies this
      ensures var stored := old(store.cities);
              if !lastError && stored.Some? then cities == stored.value && ScreenCurrent()
              else cities == old(cities) && shownCities == old(shownCities)
      ensures cityInput == old(cityInput) && options == old(options)
    {
      var r := store.GetStoredCities(lastError);
      if r.Success? && r.value.Some? {
        cities := r.value.value;
        shownCities := cities;
      }
    }

    /**
     * The mount effect's `getStoredOptions().then(setOptions)`: an absent record stays unloaded;
     * a successful read renders again, from the current list.
     */
    method LoadOptions(lastError: bool)
      modifies this
      ensures options == if lastError then old(options) else old(store.options)
      ensures shownCities == if lastError then old(shownCities) else cities
      ensures cities == old(cities) && cityInput == old(cityInput)
    {
      var r := store.GetStoredOptions(lastError);
      if r.Success? {
        options := r.value;
        shownCities := cities;
      }
    }

    /** Typing in the add-city field; a changed input renders again, from the current list. */
    method SetCityInput(text: string)
      requires options.Some?
      modifies this
      ensures cityInput == text
      ensures shownCities == if text == old(cityInput) then old(shownCities) else cities
      ensures cities == old(cities) && options == old(options)
    {
      if text != cityInput {
        shownCities := cities;
      }
      cityInput := text;
    }

    /**
     * `handleCityButtonClick`: an empty input does nothing; otherwise the list with the input
     * appended is written, and only once the write succeeds does it become the in-memory list,
     * rendered, with the input cleared.
     */
    method HandleCityButtonClick(lastError: bool)
      requires options.Some?
      modifies this, store
      ensures old(cityInput) == "" ==>
                cities == old(cities) && cityInput == "" && shownCities == old(shownCities) &&
                store.State() == old(store.State())
      ensures old(cityInput) != "" && lastError ==>
                cities == old(cities) && cityInput == old(cityInput) && shownCities == old(shownCities) &&
                store.State() == old(store.State())
      ensures old(cityInput) != "" && !lastError ==>
                cities == AddedCities(old(cities), old(cityInput)) && cityInput == "" && ScreenCurrent() &&
                store.State() == WriteCities(old(store.State()), cities)
      ensures options == old(options)
    {
      if cityInput == "" {
        return;
      }
      var updatedCities := cities + [cityInput];
      var r := store.SetStoredCities(updatedCities, lastError);
      if r.Pass? {
        cities := updatedCities;
        cityInput := "";
        shownCities := cities;
      }
    }

    /**
     * `handleCityDeleteButtonClick`: the in-memory list is spliced in place before the write,
     * so it is shortened even when the write of the shortened list fails; only a successful
     * write calls `setCities` and so renders the shortened list.
     */
    method HandleCityDeleteButtonClick(index: int, lastError: bool)
      requires options.Some?
      modifies this, store
      ensures cities == Splice1(old(cities), index)
      ensures store.State() == if lastError then old(store.State()) else WriteCities(old(store.State()), cities)
      ensures shownCities == if lastError then old(shownCities) else cities
      ensures cityInput == old(cityInput) && options == old(options)
    {
      cities := Splice1(cities, index);
      var updatedCities := cities;
      var r := store.SetStoredCities(updatedCities, lastError);
      if r.Pass? {
        shownCities := updatedCities;
      }
    }

    /**
     * `handleTempScaleButtonClick`: the record with the other scale is written, and becomes the
     * in-memory options only once the write succeeds; that `setOptions` renders again, from the
     * current list.
     */
    method HandleTempScaleButtonClick(lastError: bool)
      requires options.Some?
      modifies this, store
      ensures var updated := WithToggledScale(old(options.value));
              if lastError then options == old(options) && store.State() == old(store.State())
              else options == Some(updated) && store.State() == WriteOptions(old(store.State()), updated)
      ensures shownCities == if lastError then old(shownCities) else cities
      ensures cities == old(cities) && cityInput == old(cityInput)
    {
      var updatedOptions := WithToggledScale(options.value);
      var r := store.SetStoredOptions(updatedOptions, lastError);
      if r.Pass? {
        options := Some(updatedOptions);
        shownCities := cities;
      }
    }

    /** The committed render: nothing until the options are loaded, then the cards of the shown list. */
    function Render(): (r: Option<seq<CardProps>>)
      reads this
      ensures r.None? <==> options.None?
      ensures options.Some? ==>
                r.Some? && |r.value| == |shownCities| + (if options.value.homeCity != "" then 1 else 0)
      ensures options.Some? && options.value.homeCity != "" ==>
                r.Some? && r.value[0] == CardProps(options.value.homeCity, options.value.tempScale, None) &&
                forall k :: 0 <= k < |shownCities| ==>
                  r.value[1 + k] == CardProps(shownCities[k], options.value.tempScale, Some(k))
      ensures options.Some? && options.value.homeCity == "" ==>
                r.Some? &&
                forall k :: 0 <= k < |shownCities| ==>
                  r.value[k] == CardProps(shownCities[k], options.value.tempScale, Some(k))
    {
      if options.None? then None else Some(PopupCards(options.value, shownCities))
    }
  }

  // ---------------------------------------------------------------------------------------
  // Properties of the helpers
  // ---------------------------------------------------------------------------------------

  /** Deleting an index inside the list removes exactly that element and keeps the others in order. */
  lemma DeleteInRange<T>(s: seq<T>, i: int)
    requires 0 <= i < |s|
    ensures |Splice1(s, i)| == |s| - 1
    ensures Splice1(s, i) == s[..i] + s[i + 1..]
    ensures multiset(Splice1(s, i)) + multiset{s[i]} == multiset(s)
  {
    assert s == s[..i] + [s[i]] + s[i + 1..];
  }

  /** An index at or past the end removes nothing. */
  lemma DeleteOutOfRange<T>(s: seq<T>, i: int)
    requires i >= |s|
    ensures Splice1(s, i) == s
  {
  }

  /** A rendered card with a delete button is the card of the city at the index it deletes. */
  lemma DeletableCardAt(o: LocalStorageOptions, cities: seq<string>, k: nat)
    requires k < |PopupCards(o, cities)|
    requires PopupCards(o, cities)[k].onDelete.Some?
    ensures var i := k - (if o.homeCity != "" then 1 else 0);
            0 <= i < |cities| && PopupCards(o, cities)[k] == CardProps(cities[i], o.tempScale, Some(i))
  {
    if o.homeCity != "" {
      assert k != 0;
      assert PopupCards(o, cities)[1 + (k - 1)] == CardProps(cities[k - 1], o.tempScale, Some(k - 1));
    }
  }

  /** The delete button of a rendered city card removes exactly the city that card shows. */
  lemma {:induction false} DeleteCardRemovesItsCity(o: LocalStorageOptions, cities: seq<string>, k: nat)
    requires k < |PopupCards(o, cities)|
    requires PopupCards(o, cities)[k].onDelete.Some?
    ensures var card := PopupCards(o, cities)[k];
            0 <= card.onDelete.value < |cities| &&
            card.city == cities[card.onDelete.value] &&
            multiset(Splice1(cities, card.onDelete.value)) + multiset{card.city} == multiset(cities)
  {
    DeletableCardAt(o, cities, k);
    var card := PopupCards(o, cities)[k];
    DeleteInRange(cities, card.onDelete.value);
  }

  /**
   * A screen left stale by a rejected delete write: with `["A", "B", "C"]` on screen and the
   * state already spliced to `["B", "C"]`, the card showing "B" deletes index 1, which removes
   * "C", and the card showing "C" deletes index 2, which removes nothing.
   */
  lemma StaleScreenDeletesOtherCity(o: LocalStorageOptions)
    requires o.homeCity == ""
    ensures var cards := PopupCards(o, ["A", "B", "C"]);
            cards[1].city == "B" && cards[1].onDelete == Some(1) &&
            Splice1(["B", "C"], 1) == ["B"] &&
            cards[2].city == "C" && cards[2].onDelete == Some(2) &&
            Splice1(["B", "C"], 2) == ["B", "C"]
  {
    assert PopupCards(o, ["A", "B", "C"])[0 + 1] == CardProps("B", o.tempScale, Some(1));
    assert PopupCards(o, ["A", "B", "C"])[0 + 2] == CardProps("C", o.tempScale, Some(2));
    assert ["B", "C"][..1] + ["B", "C"][2..] == ["B"];
  }

  /**
   * A delete fired from a current screen removes exactly the city its card shows, and every
   * path that renders brings the screen back to the current list.
   */
  method DeleteFromCurrentScreen(app: App, k: nat, lastError: bool) returns (removed: string)
    requires app.options.Some? && app.ScreenCurrent()
    requires k < |app.Render().value| && app.Render().value[k].onDelete.Some?
    modifies app, app.store
    ensures multiset(app.cities) + multiset{removed} == multiset(old(app.cities))
    ensures removed == old(app.Render().value[k].city)
    ensures !lastError ==> app.ScreenCurrent()
  {
    var card := app.Render().value[k];
    DeleteCardRemovesItsCity(app.options.value, app.cities, k);
    removed := card.city;
    app.HandleCityDeleteButtonClick(card.onDelete.value, lastError);
  }

  /**
   * The popup after `["A", "B", "C"]` is stored and loaded and a delete of index 0 has its write
   * rejected: the state is spliced to `["B", "C"]` while the screen still shows all three.
   */
  method RejectedDeleteLeavesStaleScreen() returns (app: App)
    ensures fresh(app) && fresh(app.store)
    ensures app.options == Some(LocalStorageOptions(false, "", Imperial))
    ensures app.cities == ["B", "C"] && app.shownCities == ["A", "B", "C"]
    ensures app.cityInput == ""
    ensures app.store.cities == Some(["A", "B", "C"])
  {
    var store := new Store();
    var _ := store.SetStoredCities(["A", "B", "C"], false);
    var _ := store.SetStoredOptions(LocalStorageOptions(false, "", Imperial), false);
    app := new App(store);
    app.LoadCities(false);
    app.LoadOptions(false);
    DeleteInRange(["A", "B", "C"], 0);
    assert ["A", "B", "C"][..0] + ["A", "B", "C"][1..] == ["B", "C"];
    app.HandleCityDeleteButtonClick(0, true);
  }

  /**
   * The stale screen reached through the popup's own handlers: after the rejected delete, the
   * card showing "B" deletes index 1, and a successful write of that leaves `["B"]` stored.
   */
  method StaleScreenScenario() returns (cardCity: string, stored: Option<seq<string>>)
    ensures cardCity == "B"
    ensures stored == Some(["B"])
  {
    DeleteInRange(["B", "C"], 1);
    assert ["B", "C"][..1] + ["B", "C"][2..] == ["B"];
    assert Splice1(["B", "C"], 1) == ["B"];
    var app := RejectedDeleteLeavesStaleScreen();
    var card := app.Render().value[1];
    assert card == CardProps("B", Imperial, Some(1)) by {
      assert app.Render().value[0 + 1] == CardProps(app.shownCities[1], Imperial, Some(1));
    }
    cardCity := card.city;
    app.HandleCityDeleteButtonClick(card.onDelete.value, false);
    stored := app.store.cities;
  }

  /**
   * Typing in the input after the rejected delete renders again, from the spliced list: the
   * screen then shows `["B", "C"]`, although the store still holds `["A", "B", "C"]`.
   */
  method TypingRendersSplicedList() returns (shown: seq<string>, stored: Option<seq<string>>)
    ensures shown == ["B", "C"]
    ensures stored == Some(["A", "B", "C"])
  {
    var app := RejectedDeleteLeavesStaleScreen();
    app.SetCityInput("Oslo");
    shown := app.shownCities;
    stored := app.store.cities;
  }

  /** Toggling the scale twice restores the original record. */
  lemma ToggleTwice(o: LocalStorageOptions)
    ensures WithToggledScale(WithToggledScale(o)) == o
  {
  }

  /** Adds from a sequence of inputs, one after the other, each through `AddedCities`. */
  function AddAll(cities: seq<string>, inputs: seq<string>): seq<string>
    decreases |inputs|
  {
    if inputs == [] then cities else AddAll(AddedCities(cities, inputs[0]), inputs[1..])
  }

  /** The non-empty inputs, in order. */
  function NonEmpty(inputs: seq<string>): (r: seq<string>)
    ensures forall k :: 0 <= k < |r| ==> r[k] != ""
    ensures |r| <= |inputs|
    decreases |inputs|
  {
    if inputs == [] then [] else (if inputs[0] == "" then [] else [inputs[0]]) + NonEmpty(inputs[1..])
  }

  /**
   * Adding is append-only and order-preserving: after any sequence of adds the list is the
   * original list followed by the non-empty inputs in the order they were added.
   */
  lemma {:induction false} AddAllAppendsInOrder(cities: seq<string>, inputs: seq<string>)
    ensures AddAll(cities, inputs) == cities + NonEmpty(inputs)
    decreases |inputs|
  {
    if inputs != [] {
      AddAllAppendsInOrder(AddedCities(cities, inputs[0]), inputs[1..]);
      var head := if inputs[0] == "" then [] else [inputs[0]];
      assert AddedCities(cities, inputs[0]) == cities + head;
      assert NonEmpty(inputs) == head + NonEmpty(inputs[1..]);
    }
  }

  /** The scenario: `["Paris"]`, add `"Tokyo"`, then delete index 0. */
  lemma ParisTokyo()
    ensures AddedCities(["Paris"], "Tokyo") == ["Paris", "Tokyo"]
    ensures Splice1(["Paris", "Tokyo"], 0) == ["Tokyo"]
  {
  }
}
