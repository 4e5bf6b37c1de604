/**
 * The options page: a form over the options record that edits it in memory and writes the
 * whole record to the store on save, then stays disabled until a cooldown timer fires.
 */
module OptionsPage {
  import opened Wrappers
  import opened Api
  import opened Storage

  /** `FormState`. */
  datatype FormState = Ready | Saving

  /** The record after the home-city field is edited: only `homeCity` changes. */
  function WithHomeCity(o: LocalStorageOptions, homeCity: string): (r: LocalStorageOptions)
    ensures r.homeCity == homeCity
    ensures r.hasAutoOverlay == o.hasAutoOverlay && r.tempScale == o.tempScale
  {
    o.(homeCity := homeCity)
  }

  /** The record after the overlay switch is flipped: only `hasAutoOverlay` changes. */
  function WithAutoOverlay(o: LocalStorageOptions, hasAutoOverlay: bool): (r: LocalStorageOptions)
    ensures r.hasAutoOverlay == hasAutoOverlay
    ensures r.homeCity == o.homeCity && r.tempScale == o.tempScale
  {
    o.(hasAutoOverlay := hasAutoOverlay)
  }

  /** What the form shows: the two field values, whether the controls are disabled, the button label. */
  datatype FormView = FormView(homeCity: string, autoOverlayChecked: bool, disabled: bool, buttonLabel: string)

  /** The form for a loaded record. */
  function ViewOf(o: LocalStorageOptions, formState: FormState): (v: FormView)
    ensures v.homeCity == o.homeCity && v.autoOverlayChecked == o.hasAutoOverlay
    ensures v.disabled <==> formState == Saving
    ensures v.buttonLabel == (if formState == Ready then "Save" else "Saving...")
  {
    FormView(o.homeCity, o.hasAutoOverlay, formState == Saving,
             if formState == Ready then "Save" else "Saving...")
  }

  /** The options page's component state, tied to the store it reads and writes. */
  class App {
    const store: Store
    var options: Option<LocalStorageOptions>
    var formState: FormState
    /** A successful save has scheduled the timer that re-enables the form. */
    var cooldownPending: bool

    /**
     * A timer is pending only while a save is shown as in progress, so a `ready` form has none.
     * This is what lets a save promise that a timer is pending exactly when its own write
     * succeeded, and so that after a failed write no event returns the form to `ready`.
     */
    predicate Valid()
      reads this
    {
      cooldownPending ==> formState == Saving
    }

    /** Mounting: options not yet loaded, form ready. */
    constructor (store: Store)
      ensures Valid()
      ensures this.store == store
      ensures options == None && formState == Ready && !cooldownPending
    {
      this.store := store;
      options := None;
      formState := Ready;
      cooldownPending := false;
    }

    /** The mount effect's `getStoredOptions().then(setOptions)`; an absent record stays unloaded. */
    method LoadOptions(lastError: bool)
      requires Valid()
      modifies this
      ensures Valid()
      ensures options == if lastError then old(options) else old(store.options)
      ensures formState == old(formState) && cooldownPending == old(cooldownPending)
    {
      var r := store.GetStoredOptions(lastError);
      if r.Success? {
        options := r.value;
      }
    }

    /** `handleHomeCityChange`: replaces `homeCity` in the in-memory record; nothing is written. */
    method HandleHomeCityChange(homeCity: string)
      requires Valid() && options.Some? && formState == Ready
      modifies this
      ensures Valid()
      ensures options == Some(WithHomeCity(old(options.value), homeCity))
      ensures options.value.tempScale == old(options.value.tempScale)
      ensures formState == old(formState) && cooldownPending == old(cooldownPending)
    {
      options := Some(WithHomeCity(options.value, homeCity));
    }

    /** `handleAutoOverlayChange`: replaces `hasAutoOverlay` in the in-memory record; nothing is written. */
    method HandleAutoOverlayChange(hasAutoOverlay: bool)
      requires Valid() && options.Some? && formState == Ready
      modifies this
      ensures Valid()
      ensures options == Some(WithAutoOverlay(old(options.value), hasAutoOverlay))
      ensures options.value.tempScale == old(options.value.tempScale)
      ensures formState == old(formState) && cooldownPending == old(cooldownPending)
    {
      options := Some(WithAutoOverlay(options.value, hasAutoOverlay));
    }

    /**
     * `handleSaveButtonClick`: the form goes to `Saving` and the whole in-memory record is
     * written; only a successful write schedules the cooldown, so a failed one leaves the form
     * in `Saving` for good.
     */
    method HandleSaveButtonClick(lastError: bool)
      requires Valid() && options.Some? && formState == Ready
      modifies this, store
      ensures Valid()
      ensures formState == Saving
      ensures cooldownPending <==> !lastError
      ensures options == old(options)
      ensures store.State() == if lastError then old(store.State()) else WriteOptions(old(store.State()), old(options.value))
    {
      formState := Saving;
      var r := store.SetStoredOptions(options.value, lastError);
      if r.Pass? {
        cooldownPending := true;
      }
    }

    /** The save's timer fires: the form is `Ready` again. */
    method CooldownElapsed()
      requires Valid() && cooldownPending
      modifies this
      ensures Valid()
      ensures formState == Ready && !cooldownPending
      ensures options == old(options)
    {
      formState := Ready;
      cooldownPending := false;
    }

    /** The render: nothing while the options are not loaded, otherwise the form. */
    function Render(): (v: Option<FormView>)
      reads this
      ensures v.None? <==> options.None?
      ensures v.Some? ==> (v.value.disabled <==> formState == Saving)
    {
      if options.None? then None else Some(ViewOf(options.value, formState))
    }
  }

  /** An edit of either field, on any record, keeps its temperature scale. */
  lemma EditsKeepScale(o: LocalStorageOptions, homeCity: string, hasAutoOverlay: bool)
    ensures WithHomeCity(o, homeCity).tempScale == o.tempScale
    ensures WithAutoOverlay(o, hasAutoOverlay).tempScale == o.tempScale
  {
  }

  /**
   * A whole save cycle on a loaded, ready form: the record reaches the store and the form is
   * ready again once the cooldown has elapsed.
   */
  method SaveCycle(page: App)
    requires page.Valid() && page.options.Some? && page.formState == Ready
    modifies page, page.store
    ensures page.Valid() && page.formState == Ready
    ensures page.store.options == old(page.options)
  {
    page.HandleSaveButtonClick(false);
    page.CooldownElapsed();
  }
}
