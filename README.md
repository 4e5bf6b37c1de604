# Weather extension: store and handler model

This project models the state logic of a browser extension that tracks the weather for a
list of cities. The extension keeps two independent slots in the browser's local key-value
store: `cities`, a list of city names, and `options`, a record of `hasAutoOverlay`, `homeCity`
and `tempScale` (`imperial` or `metric`). Three parts of the extension drive that store:

- the popup adds a city, deletes a city by index and toggles the temperature scale;
- the options page edits the home city and the overlay flag and saves the record;
- the background script resets both slots on install and appends selected text on a
  context-menu click.

Each weather card the popup renders never touches the store. It receives `city` and
`tempScale` as props, fetches the weather for that pair, and moves between `loading`, `ready`
and `error`.

Modules, one per source file, plus `Wrappers` for the shared result types:

- `Wrappers`: `Option`, `Result` and `Outcome`.
- `Api` (`src/utils/api.ts`): the temperature scale, the weather record the card reads, and a
  fetch's settled outcome.
- `Storage` (`src/utils/storage.ts`): the table as a value (`LocalStorage`), the slot-write
  functions, and the class `Store` whose four methods read and write the slots.
- `Popup` (`src/popup/popup.tsx`): the class `App` with the popup's `cities`, `cityInput` and
  `options` state, and the pure card-list render.
- `OptionsPage` (`src/options/options.tsx`): the class `App` with the form's `options`,
  `formState` and pending cooldown.
- `Background` (`src/background/background.ts`): the two listeners as methods on a `Store`,
  each specified by a function on the table.
- `Card` (`src/components/WeatherCard/WeatherCard.tsx`): the card as a value with its
  transitions and render, and the class `WeatherCard` whose methods follow them.

Asynchronous calls are modelled as sequential steps. Each store call takes the backend's
`chrome.runtime.lastError` report as a boolean input. A rejected call settles with
`LastError`, and a rejected write leaves the table unchanged. A fetch is its settled outcome:
`Fetched(data)` or `FetchFailed`. The options page's one-second timer is a separate
`CooldownElapsed` event.

The popup's handlers and the options page's handlers require the options to be loaded. Until
then the component renders nothing, so no control exists that could fire them
(`src/popup/popup.tsx:114-116`, `src/options/options.tsx:51-53`). The options page's edit and
save handlers also require a `ready` form, because their controls are disabled while saving.

In these places the code behaves in ways a reader might not expect, and the model follows
the code:

- The weather client takes only `city` and always requests imperial units
  (`src/utils/api.ts:27-31`), although the card passes its `tempScale` too
  (`src/components/WeatherCard/WeatherCard.tsx:49`). A card on the metric scale therefore
  labels Fahrenheit values with ℃. The model keeps the fetch uninterpreted. It records each
  fetch by the `(city, tempScale)` pair that triggered it.
- A fetch that settles after the card's props changed is not discarded. Its result is applied
  like any other (`src/components/WeatherCard/WeatherCard.tsx:48-55`).
- The popup's screen is not always its state. `cities.splice` shortens the state array in
  place, but nothing renders it until the next state setter runs, and the delete handler's own
  `setCities` runs only after a successful write (`src/popup/popup.tsx:69-72`). Typing in the
  input or a successful scale toggle also renders the spliced array
  (`src/popup/popup.tsx:127, 91`). The popup model keeps the last rendered list as its own
  field, `shownCities`. After a rejected delete the cards on screen index a list that has
  already been spliced, so a delete button can remove a different city or none.
- Deleting an index that is out of range follows `Array.prototype.splice`. A negative index
  counts from the end. An index at or past the end removes nothing.
- Save re-enables the form only after the write succeeds and the timer fires. A failed write
  leaves the form disabled in `saving` for good.

## Model

| member | source | states |
|---|---|---|
| Storage.SetOutcome | src/utils/storage.ts:19-27 | a set is rejected exactly when the backend reports `lastError` |
| Storage.GetOutcome | src/utils/storage.ts:33-41 | a get is rejected exactly when the backend reports an error, and otherwise settles with the slot's value (absent if never written) |
| Storage.Store.constructor | src/utils/storage.ts:3-6 | a fresh table has neither key written |
| Storage.Store.SetStoredCities | src/utils/storage.ts:16-28 | the `cities` slot becomes the given list and `options` is unchanged; on `lastError` the call is rejected and nothing changes |
| Storage.Store.GetStoredCities | src/utils/storage.ts:30-42 | rejected iff the backend errs; otherwise returns the `cities` slot, absent if never written |
| Storage.Store.SetStoredOptions | src/utils/storage.ts:44-56 | the `options` slot becomes the given record and `cities` is unchanged; on `lastError` the call is rejected and nothing changes |
| Storage.Store.GetStoredOptions | src/utils/storage.ts:58-70 | rejected iff the backend errs; otherwise returns the `options` slot, absent if never written |
| Storage.WritesTouchOneSlot | src/utils/storage.ts:16-17 | writing `cities` keeps `options`, and writing `options` keeps `cities` |
| Storage.ReadAfterWrite | src/utils/storage.ts:16-69 | a slot read after its write holds exactly the value written |
| Storage.SecondWriteOverrides | src/utils/storage.ts:17 | a second write of a slot fully overrides the first: there is no merge |
| Storage.WritesCommute | src/utils/storage.ts:44-45 | one write to each slot gives the same table in either order |
| Storage.UnwrittenReadsAbsent | src/utils/storage.ts:38 | a successful read of a never-written slot settles with absent |
| Storage.SetThenGet | src/utils/storage.ts:16-70 | on a store no one else writes, a get after a successful set of each slot returns exactly what was set |
| Popup.AddedCities | src/popup/popup.tsx:54-57 | an empty input leaves the list; otherwise the list keeps every city as a prefix and gains exactly the input at the end |
| Popup.SpliceStart | src/popup/popup.tsx:70 | the start position `splice` uses never lies past the end of the list |
| Popup.Splice1 | src/popup/popup.tsx:70 | when the start position is inside the list, the result is one shorter and keeps every other element in its original order; otherwise the list is unchanged |
| Popup.Toggled | src/popup/popup.tsx:78 | the toggled scale always differs from the original |
| Popup.WithToggledScale | src/popup/popup.tsx:76-79 | the toggled record has the other scale and the same `homeCity` and `hasAutoOverlay` |
| Popup.CityCards | src/popup/popup.tsx:157-164 | one card per city in list order; card k shows city k with the current scale and deletes index k |
| Popup.PopupCards | src/popup/popup.tsx:154-164 | the home city's card comes first (no delete button) exactly when `homeCity` is non-empty, followed by every city's card in list order |
| Popup.App.constructor | src/popup/popup.tsx:27-29 | the popup starts with an empty list, an empty input and options not loaded |
| Popup.App.LoadCities | src/popup/popup.tsx:36-38 | a successful read of a stored list replaces the in-memory list and is rendered; a rejected read leaves the list and the screen |
| Popup.App.LoadOptions | src/popup/popup.tsx:40-42 | a successful read replaces the in-memory options with the stored slot (absent stays unloaded) and renders the current list; a rejected read leaves them |
| Popup.App.SetCityInput | src/popup/popup.tsx:124-128 | typing replaces only the input; a changed input renders the current list again |
| Popup.App.HandleCityButtonClick | src/popup/popup.tsx:53-62 | an empty input changes nothing and writes nothing; otherwise the list with the input appended is written, and only on success does it become the in-memory and rendered list, with the input cleared |
| Popup.App.HandleCityDeleteButtonClick | src/popup/popup.tsx:69-73 | the in-memory list is spliced whether or not the write succeeds; a successful write persists exactly the spliced list and renders it, while a rejected one leaves the screen showing the list from before the splice |
| Popup.App.HandleTempScaleButtonClick | src/popup/popup.tsx:75-93 | the record with the other scale is written, and becomes the in-memory options only on success, which renders the current list again; list and input are untouched |
| Popup.App.Render | src/popup/popup.tsx:114-164 | nothing renders while the options are not loaded; once loaded, the home city's card (no delete button) comes first exactly when `homeCity` is non-empty, followed by card k for city k of the last rendered list, with the current scale and delete index k |
| Popup.DeleteInRange | src/popup/popup.tsx:69-72 | deleting index i with 0 ≤ i < n leaves n-1 elements: the list without its i-th element, in original order, as a multiset the old one minus that element |
| Popup.DeleteOutOfRange | src/popup/popup.tsx:70 | an index at or past the end removes nothing |
| Popup.DeletableCardAt | src/popup/popup.tsx:154-163 | a rendered card with a delete button is the card of the city at the index it deletes, that index counting past the home card |
| Popup.DeleteCardRemovesItsCity | src/popup/popup.tsx:157-163 | on cards rendered from a list, each delete button names a valid index of that list whose city is the one the card shows, and deleting it removes exactly that city |
| Popup.StaleScreenDeletesOtherCity | src/popup/popup.tsx:157-163 | after a rejected delete leaves `A, B, C` on screen over the spliced `["B","C"]`, the card for B deletes C and the card for C deletes nothing |
| Popup.RejectedDeleteLeavesStaleScreen | src/popup/popup.tsx:69-73 | with `["A","B","C"]` stored and loaded, a delete of index 0 whose write is rejected leaves the state `["B","C"]` and the screen `["A","B","C"]` |
| Popup.StaleScreenScenario | src/popup/popup.tsx:157-163 | on that stale screen, the card showing B deletes index 1, and a successful write of that stores `["B"]`: the city C, not B, is removed |
| Popup.TypingRendersSplicedList | src/popup/popup.tsx:124-128 | after the rejected delete, typing in the input renders the spliced list: the screen shows `["B","C"]` while the store still holds `["A","B","C"]` |
| Popup.DeleteFromCurrentScreen | src/popup/popup.tsx:69-73 | a delete fired from a screen rendered from the current list removes exactly the city its card shows, and a successful write leaves the screen current |
| Popup.ToggleTwice | src/popup/popup.tsx:76-79 | toggling the scale twice restores the original record |
| Popup.AddAllAppendsInOrder | src/popup/popup.tsx:53-61 | after any sequence of adds the list is the original followed by the non-empty inputs in the order they were added |
| Popup.ParisTokyo | src/popup/popup.tsx:57-72 | `["Paris"]` plus `"Tokyo"` is `["Paris","Tokyo"]`, and deleting index 0 from that leaves `["Tokyo"]` |
| OptionsPage.WithHomeCity | src/options/options.tsx:42-45 | editing the home city replaces only `homeCity` |
| OptionsPage.WithAutoOverlay | src/options/options.tsx:47-49 | flipping the switch replaces only `hasAutoOverlay` |
| OptionsPage.ViewOf | src/options/options.tsx:55-94 | the form shows the record's two fields; field, switch and button are disabled exactly when saving; the label is `Save` when ready, `Saving...` otherwise |
| OptionsPage.App.constructor | src/options/options.tsx:24-25 | the page starts with options not loaded and the form ready |
| OptionsPage.App.LoadOptions | src/options/options.tsx:27-31 | a successful read replaces the in-memory options with the stored slot; a rejected read leaves them |
| OptionsPage.App.HandleHomeCityChange | src/options/options.tsx:42-45 | only `homeCity` changes in memory, `tempScale` is kept, and nothing is written |
| OptionsPage.App.HandleAutoOverlayChange | src/options/options.tsx:47-49 | only `hasAutoOverlay` changes in memory, `tempScale` is kept, and nothing is written |
| OptionsPage.App.HandleSaveButtonClick | src/options/options.tsx:33-39 | the form moves to `saving` and the whole record is written; only a successful write schedules the return to `ready` |
| OptionsPage.App.CooldownElapsed | src/options/options.tsx:36-38 | the scheduled timer returns the form to `ready` |
| OptionsPage.App.Render | src/options/options.tsx:51-55 | nothing renders while the options are not loaded; otherwise the controls are disabled exactly when saving |
| OptionsPage.EditsKeepScale | src/options/options.tsx:42-49 | neither options-page edit changes `tempScale` |
| OptionsPage.SaveCycle | src/options/options.tsx:33-39 | a successful save followed by the timer leaves the store holding the record and the form ready |
| Background.InstallEffect | src/background/background.ts:7-13 | `cities` becomes `[]` unless its write is rejected, and `options` becomes the defaults unless its own write is rejected |
| Background.ClickEffect | src/background/background.ts:22-25 | `options` is kept and `cities` stays present or absent; a stored list gains the selection at the end when both calls succeed, and a rejected read or write leaves the table |
| Background.OnInstalled | src/background/background.ts:7-13 | both slots are reset to their defaults, each unless its own write is rejected |
| Background.OnContextMenuClicked | src/background/background.ts:22-25 | the stored list with the selection appended is written back; a rejected read or write, or a list never stored, leaves the table |
| Background.InstallResets | src/background/background.ts:7-13 | a successful install leaves `cities = []` and the default options, whatever the table held |
| Background.InstallIdempotent | src/background/background.ts:7-13 | installing again after a successful install changes nothing, whichever of its writes fail |
| Background.ClickAppends | src/background/background.ts:22-25 | a successful click appends the selection at the end, without de-duplication or validation |
| Background.ClickKeepsOptions | src/background/background.ts:23-24 | no click touches the `options` slot |
| Background.InstallThenClick | src/background/background.ts:7-25 | install followed by one click with text t leaves `cities = [t]` |
| Background.ClicksAppendInOrder | src/background/background.ts:22-25 | successful clicks append their selections in click order, duplicates included, and keep `options` |
| Card.Mount | src/components/WeatherCard/WeatherCard.tsx:44-49 | a new card is `loading` with no data, and one fetch has been issued for its pair |
| Card.WithProps | src/components/WeatherCard/WeatherCard.tsx:48-55 | new props issue a fetch exactly when `(city, tempScale)` changes, and neither the state nor the data is reset |
| Card.Settle | src/components/WeatherCard/WeatherCard.tsx:50-54 | fetched data is stored and the card is `ready`; a failure makes it `error` and keeps the data |
| Card.StepKeepsConsistent | src/components/WeatherCard/WeatherCard.tsx:44-55 | every transition keeps `ready` backed by data and the latest fetch matching the current props |
| Card.RunKeepsConsistent | src/components/WeatherCard/WeatherCard.tsx:44-55 | every run of events keeps the card consistent |
| Card.RunState | src/components/WeatherCard/WeatherCard.tsx:48-55 | after any run the state is decided by the last settlement alone, with no retry and no reset on a prop change |
| Card.StillLoading | src/components/WeatherCard/WeatherCard.tsx:45-54 | a mounted card is `loading` exactly as long as no fetch has settled |
| Card.UnitSymbol | src/components/WeatherCard/WeatherCard.tsx:46 | the symbol is ℉ exactly for imperial, otherwise ℃ |
| Card.View | src/components/WeatherCard/WeatherCard.tsx:57-80 | the title is the `city` prop while loading or in error and the fetched name when ready; the body is the loading text, the error text or the two temperatures with the unit; the delete button is present exactly when `onDelete` is supplied |
| Card.ReadyCardShowsOldDataAfterCityChange | src/components/WeatherCard/WeatherCard.tsx:48-72 | a ready card whose city changes still shows the previous fetch's name until a new fetch settles |
| Card.WeatherCard.constructor | src/components/WeatherCard/WeatherCard.tsx:39-49 | the component starts as `Mount` describes |
| Card.WeatherCard.SetProps | src/components/WeatherCard/WeatherCard.tsx:48-55 | the component follows `WithProps` |
| Card.WeatherCard.FetchSettled | src/components/WeatherCard/WeatherCard.tsx:50-54 | the component follows `Settle` |
| Card.WeatherCard.Render | src/components/WeatherCard/WeatherCard.tsx:26-30 | the title follows the state, and the delete button is present exactly when `onDelete` is supplied |

## Left out

- The weather client (`src/utils/api.ts`): the HTTP GET and the JSON decode are not modelled. A fetch is only its settled outcome. The weather record keeps only the three fields the card renders.
- Messages to the active tab (`TOGGLE_SCALE` after a scale toggle, `TOGGLE_OVERLAY` from the overlay button, `src/popup/popup.tsx:81-90, 95-106`): they are fire-and-forget browser messaging. `src/utils/messages` is not part of this model.
- The context-menu registration (`src/background/background.ts:15-19`): it is a browser side effect only.
- React rendering, markup, CSS and the `ReactDOM.render` bootstrap: only the render choices (card list, title, body, unit, delete button, disabled flags, button label) are modelled.
- The one-second `setTimeout` (`src/options/options.tsx:36-38`): it is the `CooldownElapsed` event, not time.
- `Math.round` on the temperatures (`src/components/WeatherCard/WeatherCard.tsx:74, 77`): it is floating-point display rounding. The view carries the unrounded values.
- The `console.log` in `handleHomeCityChange`: it is diagnostic output only.
- Popup.App: a render is modelled as happening whenever a state setter runs, except typing the same input again. React may also skip a render for a setter whose new value equals the old one, or batch several setters into one render. Neither is modelled.
- Concurrent and interleaved store access, including the lost update between the popup's add and the context-menu append: this is asynchrony, not a promised property. Each model step runs to completion.
- Popup.App.LoadCities: when the `cities` slot was never written, the source stores `undefined`. While the options are still null the render returns null (`src/popup/popup.tsx:114-116`); the first render with the options loaded throws at `cities.map` (`src/popup/popup.tsx:157`). The model keeps the previous list instead.
- Popup.Splice1: the index is an integer. A fractional JavaScript `number` index is not modelled.
- Card.Settle: the model does not match a settlement to a particular issued fetch, and does not bound the number of settlements. In the source each issued fetch settles at most once. The model therefore over-approximates the runs the program can produce. Lemmas over all runs (`RunState`, `RunKeepsConsistent`, `StillLoading`) stay sound, but they also cover runs the program cannot produce. Stale results being applied does match the source.
- Storage.Store.SetStoredCities: a rejected write is assumed to leave the slot unchanged. The source does not say what the browser keeps after an error.
- Storage.Store.SetStoredOptions: the same assumption about rejected writes applies.
- Unhandled rejections: a rejected store call in the source only propagates as an unhandled rejection. In the model the continuation simply does not run.
