/**
 * The weather card: a component that fetches the weather for its `(city, tempScale)` pair
 * whenever that pair changes, moves between `loading`, `ready` and `error` as fetches settle,
 * and renders a title, a body and an optional delete button.
 */
module Card {
  import opened Wrappers
  import opened Api

  /** `WeatherCardState`. */
  datatype WeatherCardState = Loading | Error | Ready

  /** The pair a fetch is issued for: the effect's dependency list. */
  datatype Request = Request(city: string, tempScale: TempScale)

  /**
   * A card's props, its two state fields, and every fetch issued so far in issue order.
   * `hasOnDelete` records whether an `onDelete` callback was supplied.
   */
  datatype CardModel = CardModel(city: string, tempScale: TempScale, hasOnDelete: bool,
                                 weatherData: Option<OpenWeatherData>, cardState: WeatherCardState,
                                 requests: seq<Request>)

  /**
   * What every reachable card satisfies: `ready` always has data to show, and the latest
   * fetch issued is for the current props.
   */
  predicate Consistent(m: CardModel)
  {
    (m.cardState == Ready ==> m.weatherData.Some?) &&
    |m.requests| > 0 && m.requests[|m.requests| - 1] == Request(m.city, m.tempScale)
  }

  /** Mounting: `loading`, no data, and the effect's first fetch issued. */
  function Mount(city: string, tempScale: TempScale, hasOnDelete: bool): (m: CardModel)
    ensures m.cardState == Loading && m.weatherData == None
    ensures m.requests == [Request(city, tempScale)]
    ensures Consistent(m)
  {
    CardModel(city, tempScale, hasOnDelete, None, Loading, [Request(city, tempScale)])
  }

  /**
   * A re-render with new props: the effect issues a fetch only when `(city, tempScale)`
   * differs from the previous pair, and the state is not reset to `loading`.
   */
  function WithProps(m: CardModel, city: string, tempScale: TempScale, hasOnDelete: bool): (r: CardModel)
    ensures r.cardState == m.cardState && r.weatherData == m.weatherData
    ensures r.city == city && r.tempScale == tempScale && r.hasOnDelete == hasOnDelete
    ensures Request(city, tempScale) == Request(m.city, m.tempScale) ==> r.requests == m.requests
    ensures Request(city, tempScale) != Request(m.city, m.tempScale) ==>
              r.requests == m.requests + [Request(city, tempScale)]
  {
    var changed := Request(city, tempScale) != Request(m.city, m.tempScale);
    CardModel(city, tempScale, hasOnDelete, m.weatherData, m.cardState,
              if changed then m.requests + [Request(city, tempScale)] else m.requests)
  }

  /**
   * A fetch settles: data moves the card to `ready` with that data; a rejection moves it to
   * `error` and keeps whatever data it had. No settlement is discarded as stale.
   */
  function Settle(m: CardModel, outcome: FetchOutcome): (r: CardModel)
    ensures outcome.Fetched? ==> r.cardState == Ready && r.weatherData == Some(outcome.data)
    ensures outcome.FetchFailed? ==> r.cardState == Error && r.weatherData == m.weatherData
    ensures r.city == m.city && r.tempScale == m.tempScale && r.hasOnDelete == m.hasOnDelete
    ensures r.requests == m.requests
  {
    match outcome
    case Fetched(data) => m.(weatherData := Some(data), cardState := Ready)
    case FetchFailed => m.(cardState := Error)
  }

  /** What can happen to a mounted card: new props, or one of its fetches settling. */
  datatype CardEvent = Props(city: string, tempScale: TempScale, hasOnDelete: bool) | Settled(outcome: FetchOutcome)

  function Step(m: CardModel, e: CardEvent): CardModel
  {
    match e
    case Props(city, tempScale, hasOnDelete) => WithProps(m, city, tempScale, hasOnDelete)
    case Settled(outcome) => Settle(m, outcome)
  }

  /** The card after a run of events, in order. */
  function Run(m: CardModel, events: seq<CardEvent>): CardModel
    decreases |events|
  {
    if events == [] then m else Run(Step(m, events[0]), events[1..])
  }

  /** The outcome of the last settlement in a run of events, if there is one. */
  function LastSettled(events: seq<CardEvent>): Option<FetchOutcome>
    decreases |events|
  {
    if events == [] then None
    else match LastSettled(events[1..])
      case Some(o) => Some(o)
      case None => if events[0].Settled? then Some(events[0].outcome) else None
  }

  /** Each event keeps a card consistent. */
  lemma StepKeepsConsistent(m: CardModel, e: CardEvent)
    requires Consistent(m)
    ensures Consistent(Step(m, e))
  {
  }

  /** Every card reached from a mount by any run of events is consistent. */
  lemma {:induction false} RunKeepsConsistent(m: CardModel, events: seq<CardEvent>)
    requires Consistent(m)
    ensures Consistent(Run(m, events))
    decreases |events|
  {
    if events != [] {
      StepKeepsConsistent(m, events[0]);
      RunKeepsConsistent(Step(m, events[0]), events[1..]);
    }
  }

  /**
   * The state after a run is decided by the last settlement alone: `ready` if it brought data,
   * `error` if it was a rejection, and unchanged (so `loading` after a mount) if nothing settled.
   * Prop changes never move the state, so there is no retry and no reset.
   */
  lemma {:induction false} RunState(m: CardModel, events: seq<CardEvent>)
    ensures Run(m, events).cardState ==
              match LastSettled(events)
              case None => m.cardState
              case Some(Fetched(_)) => Ready
              case Some(FetchFailed) => Error
    decreases |events|
  {
    if events != [] {
      RunState(Step(m, events[0]), events[1..]);
    }
  }

  /** A card stays `loading` after its mount exactly as long as no fetch has settled. */
  lemma StillLoading(city: string, tempScale: TempScale, hasOnDelete: bool, events: seq<CardEvent>)
    ensures Run(Mount(city, tempScale, hasOnDelete), events).cardState == Loading <==> LastSettled(events).None?
  {
    RunState(Mount(city, tempScale, hasOnDelete), events);
  }

  /** The body text while loading. */
  const LoadingText: string := "Loading..."

  /** The body text after a failed fetch. */
  const ErrorText: string := "Error: could not retrieve weather data for this city."

  /** The unit symbol shown after each temperature: ℉ for imperial, ℃ otherwise. */
  function UnitSymbol(tempScale: TempScale): (c: char)
    ensures c == '\U{2109}' <==> tempScale == Imperial
    ensures c == '\U{2109}' || c == '\U{2103}'
  {
    if tempScale == Imperial then '\U{2109}' else '\U{2103}'
  }

  /** The card's body: a message, or the two temperatures with their unit symbol. */
  datatype CardBody = Message(text: string) | Temperatures(temp: real, feelsLike: real, unit: char)

  /** What the card renders: its title, its body and whether it has a delete button. */
  datatype CardView = CardView(title: string, body: CardBody, hasDeleteButton: bool)

  /** The render of a consistent card. */
  function View(m: CardModel): (v: CardView)
    requires Consistent(m)
    ensures v.title == if m.cardState == Ready then m.weatherData.value.name else m.city
    ensures v.hasDeleteButton <==> m.hasOnDelete
    ensures m.cardState == Loading ==> v.body == Message(LoadingText)
    ensures m.cardState == Error ==> v.body == Message(ErrorText)
    ensures m.cardState == Ready ==>
              v.body == Temperatures(m.weatherData.value.temp, m.weatherData.value.feelsLike, UnitSymbol(m.tempScale))
  {
    if m.cardState == Loading || m.cardState == Error then
      CardView(m.city, Message(if m.cardState == Loading then LoadingText else ErrorText), m.hasOnDelete)
    else
      var data := m.weatherData.value;
      CardView(data.name, Temperatures(data.temp, data.feelsLike, UnitSymbol(m.tempScale)), m.hasOnDelete)
  }

  /**
   * Because a prop change does not reset the state, a `ready` card whose city changes keeps
   * showing the previous fetch's name and temperatures until the new fetch settles.
   */
  lemma ReadyCardShowsOldDataAfterCityChange(m: CardModel, city: string, hasOnDelete: bool)
    requires Consistent(m) && m.cardState == Ready
    ensures Consistent(WithProps(m, city, m.tempScale, hasOnDelete))
    ensures View(WithProps(m, city, m.tempScale, hasOnDelete)).title == m.weatherData.value.name
  {
  }

  /** The weather card component's state. */
  class WeatherCard {
    var city: string
    var tempScale: TempScale
    var hasOnDelete: bool
    var weatherData: Option<OpenWeatherData>
    var cardState: WeatherCardState
    /** The fetches the effect has issued, in order. */
    var requests: seq<Request>

    /** The component as a value. */
    function Model(): CardModel
      reads this
    {
      CardModel(city, tempScale, hasOnDelete, weatherData, cardState, requests)
    }

    /** Mounting with its first props; the effect issues the first fetch. */
    constructor (city: string, tempScale: TempScale, hasOnDelete: bool)
      ensures Model() == Mount(city, tempScale, hasOnDelete)
      ensures Consistent(Model())
    {
      this.city := city;
      this.tempScale := tempScale;
      this.hasOnDelete := hasOnDelete;
      weatherData := None;
      cardState := Loading;
      requests := [Request(city, tempScale)];
    }

    /** The parent re-renders the card with new props. */
    method SetProps(city: string, tempScale: TempScale, hasOnDelete: bool)
      requires Consistent(Model())
      modifies this
      ensures Model() == WithProps(old(Model()), city, tempScale, hasOnDelete)
      ensures Consistent(Model())
    {
      if Request(city, tempScale) != Request(this.city, this.tempScale) {
        requests := requests + [Request(city, tempScale)];
      }
      this.city := city;
      this.tempScale := tempScale;
      this.hasOnDelete := hasOnDelete;
    }

    /** One of the card's fetches settles (`.then` or `.catch`). */
    method FetchSettled(outcome: FetchOutcome)
      requires Consistent(Model())
      modifies this
      ensures Model() == Settle(old(Model()), outcome)
      ensures Consistent(Model())
    {
      match outcome {
        case Fetched(data) =>
          weatherData := Some(data);
          cardState := Ready;
        case FetchFailed =>
          cardState := Error;
      }
    }

    /** The render. */
    function Render(): (v: CardView)
      reads this
      requires Consistent(Model())
      ensures v.title == if cardState == Ready then weatherData.value.name else city
      ensures v.hasDeleteButton <==> hasOnDelete
    {
      View(Model())
    }
  }
}
