/**
 * The state of the weather panel: the reading on display (`weatherData`) and
 * the text of the city input (`city`).
 *
 * A query's network round trip (building the provider URL, `fetch`,
 * `response.json()`) is represented by the `Response` it produced. A
 * successful query replaces the reading in full with five fields taken from
 * the body without conversion; every failure -- the request failing, a body
 * that is not JSON, or a body lacking `current`, `current.condition` or
 * `location` (reading a field of a missing object throws) -- raises the
 * "City not found" alert and leaves the reading as it was. Only the input's
 * change handler writes `city`.
 */
module WeatherPanel {
  import opened Options
  import ConditionIcon

  /** The reading the panel displays. The numbers are only displayed, never computed with. */
  datatype Reading = Reading(humidity: real, wind: real, temperature: real, city: string, condition: string)

  /** `current.condition` of the provider's body. */
  datatype ConditionBody = ConditionBody(text: string)

  /** `current` of the provider's body. */
  datatype CurrentBody = CurrentBody(humidity: real, windKph: real, tempC: real, condition: Option<ConditionBody>)

  /** `location` of the provider's body. */
  datatype LocationBody = LocationBody(name: string)

  /** A parsed JSON body; a provider error body has no `current` and no `location`. */
  datatype Payload = Payload(current: Option<CurrentBody>, location: Option<LocationBody>)

  /** What one query's `fetch` and `response.json()` produced. */
  datatype Response = NetworkError | NotJson | Json(data: Payload)

  /** The default location queried when the panel is mounted. */
  const DefaultCity := "India"

  /**
   * The reading a response yields, or `None` when building it throws. The
   * fields are copied as they are: humidity from `current.humidity`, wind
   * from `current.wind_kph`, temperature from `current.temp_c`, city from
   * `location.name` and condition from `current.condition.text`.
   */
  function Extract(response: Response): (r: Option<Reading>)
    ensures r.Some? <==>
      response.Json? && response.data.current.Some? &&
      response.data.current.value.condition.Some? && response.data.location.Some?
    ensures r.Some? ==>
      var current := response.data.current.value;
      r.value.humidity == current.humidity &&
      r.value.wind == current.windKph &&
      r.value.temperature == current.tempC &&
      r.value.city == response.data.location.value.name &&
      r.value.condition == current.condition.value.text
  {
    match response
    case NetworkError => None
    case NotJson => None
    case Json(Payload(Some(current), Some(location))) =>
      (match current.condition
       case Some(condition) =>
         Some(Reading(current.humidity, current.windKph, current.tempC, location.name, condition.text))
       case None => None)
    case Json(_) => None
  }

  /** The provider body that reports `reading`. */
  function BodyOf(reading: Reading): Response
  {
    Json(Payload(
      Some(CurrentBody(reading.humidity, reading.wind, reading.temperature, Some(ConditionBody(reading.condition)))),
      Some(LocationBody(reading.city))))
  }

  /** Every reading is recovered, field for field, from the body that reports it. */
  lemma ExtractBodyOf(reading: Reading)
    ensures Extract(BodyOf(reading)) == Some(reading)
  {
  }

  // ---------------------------------------------------------------------------
  // The panel's state and its transitions, as values
  // ---------------------------------------------------------------------------

  /** `weatherData` (`None` for `null`) and `city`. */
  datatype Panel = Panel(weatherData: Option<Reading>, city: string)

  /** The state before any query has completed: no reading, empty input. */
  const Initial := Panel(None, "")

  /** A keystroke setting the input's text, or a completed query with its response. */
  datatype Event = Typed(text: string) | Searched(query: string, response: Response)

  /** The state after one event. */
  function Step(p: Panel, e: Event): Panel
  {
    match e
    case Typed(text) => p.(city := text)
    case Searched(_, response) =>
      match Extract(response)
      case Some(reading) => p.(weatherData := Some(reading))
      case None => p
  }

  /** The state after a sequence of events, in order. */
  function Run(p: Panel, events: seq<Event>): Panel
    decreases |events|
  {
    if events == [] then p else Run(Step(p, events[0]), events[1..])
  }

  /** The query succeeded. */
  predicate Succeeded(e: Event)
  {
    e.Searched? && Extract(e.response).Some?
  }

  /** The text of the last keystroke in `events`, or `before` when there is none. */
  function LastTyped(events: seq<Event>, before: string): string
  {
    if events == [] then before
    else if events[|events| - 1].Typed? then events[|events| - 1].text
    else LastTyped(events[..|events| - 1], before)
  }

  /** The reading of the last successful query in `events`, or `before` when there is none. */
  function LastReading(events: seq<Event>, before: Option<Reading>): Option<Reading>
  {
    if events == [] then before
    else if Succeeded(events[|events| - 1]) then Extract(events[|events| - 1].response)
    else LastReading(events[..|events| - 1], before)
  }

  /** Running events one sequence after another is running them all at once. */
  lemma {:induction false} RunAppend(p: Panel, events: seq<Event>, more: seq<Event>)
    ensures Run(p, events + more) == Run(Run(p, events), more)
    decreases |events|
  {
    if events == [] {
      assert events + more == more;
    } else {
      assert (events + more)[0] == events[0];
      assert (events + more)[1..] == events[1..] + more;
      RunAppend(Step(p, events[0]), events[1..], more);
    }
  }

  /** The input holds the text of the last keystroke: queries never change it. */
  lemma {:induction false} CityIsLastTyped(p: Panel, events: seq<Event>)
    ensures Run(p, events).city == LastTyped(events, p.city)
    decreases |events|
  {
    if events != [] {
      var front, last := events[..|events| - 1], events[|events| - 1];
      assert events == front + [last];
      RunAppend(p, front, [last]);
      CityIsLastTyped(p, front);
    }
  }

  /**
   * The reading on display is the one of the last successful query; a failed
   * query or a keystroke leaves it as it was.
   */
  lemma {:induction false} ReadingIsLastSuccess(p: Panel, events: seq<Event>)
    ensures Run(p, events).weatherData == LastReading(events, p.weatherData)
    decreases |events|
  {
    if events != [] {
      var front, last := events[..|events| - 1], events[|events| - 1];
      assert events == front + [last];
      RunAppend(p, front, [last]);
      ReadingIsLastSuccess(p, front);
    }
  }

  /** A successful query replaces the reading in full, whatever was shown before. */
  lemma SuccessReplacesReading(p: Panel, query: string, response: Response, reading: Reading)
    requires Extract(response) == Some(reading)
    ensures Step(p, Searched(query, response)) == Panel(Some(reading), p.city)
  {
  }

  /** Failed queries, however many, change nothing. */
  lemma {:induction false} FailuresChangeNothing(p: Panel, events: seq<Event>)
    requires forall k :: 0 <= k < |events| ==> events[k].Searched? && !Succeeded(events[k])
    ensures Run(p, events) == p
    decreases |events|
  {
    if events != [] {
      FailuresChangeNothing(Step(p, events[0]), events[1..]);
    }
  }

  /** Once a reading is shown the panel never goes back to showing none. */
  lemma {:induction false} LoadedStaysLoaded(p: Panel, events: seq<Event>)
    requires p.weatherData.Some?
    ensures Run(p, events).weatherData.Some?
    decreases |events|
  {
    if events != [] {
      LoadedStaysLoaded(Step(p, events[0]), events[1..]);
    }
  }

  /** From the initial state, a reading is shown exactly when some query has succeeded. */
  lemma EmptyUntilSuccess(events: seq<Event>)
    ensures Run(Initial, events).weatherData.Some? <==> exists k :: 0 <= k < |events| && Succeeded(events[k])
  {
    ReadingIsLastSuccess(Initial, events);
    LastReadingFound(events, None);
  }

  /** `LastReading` finds a reading exactly when some event succeeded or there was one before. */
  lemma {:induction false} LastReadingFound(events: seq<Event>, before: Option<Reading>)
    ensures LastReading(events, before).Some? <==>
      before.Some? || exists k :: 0 <= k < |events| && Succeeded(events[k])
    decreases |events|
  {
    if events != [] {
      var front := events[..|events| - 1];
      LastReadingFound(front, before);
      if exists k :: 0 <= k < |front| && Succeeded(front[k]) {
        var k :| 0 <= k < |front| && Succeeded(front[k]);
        assert events[k] == front[k];
      }
      if exists k :: 0 <= k < |events| && Succeeded(events[k]) {
        var k :| 0 <= k < |events| && Succeeded(events[k]);
        if k < |front| {
          assert front[k] == events[k];
        }
      }
    }
  }

  /** The icon the panel shows: none while empty, otherwise the classifier's choice for the condition. */
  function ShownIcon(p: Panel): (icon: Option<string>)
    ensures icon.Some? <==> p.weatherData.Some?
    ensures icon.Some? ==> icon.value in ConditionIcon.Icons
  {
    match p.weatherData
    case None => None
    case Some(reading) => Some(ConditionIcon.WeatherImage(Some(reading.condition)))
  }

  // ---------------------------------------------------------------------------
  // The component, with its state updated in place
  // ---------------------------------------------------------------------------

  /** The weather panel component with its two pieces of state. */
  class Weather {
    var weatherData: Option<Reading>
    var city: string
    /** The location text of every query issued, in order. */
    ghost var queries: seq<string>

    /** The current state as a value. */
    function State(): Panel
      reads this
    {
      Panel(weatherData, city)
    }

    /**
     * Mounting: empty state, then the one query for the default location,
     * which completes with `response`.
     */
    constructor (response: Response)
      ensures queries == [DefaultCity]
      ensures State() == Step(Initial, Searched(DefaultCity, response))
      ensures weatherData == Extract(response) && city == ""
    {
      weatherData := None;
      city := "";
      queries := [];
      new;
      var _ := Search(DefaultCity, response);
    }

    /**
     * `search(cityName)`, completing with `response`: a success replaces the
     * reading in full; a failure raises the alert (`alerted`) and changes
     * nothing. The input text is never touched.
     */
    method Search(cityName: string, response: Response) returns (alerted: bool)
      modifies this`weatherData, this`queries
      ensures queries == old(queries) + [cityName]
      ensures State() == Step(old(State()), Searched(cityName, response))
      ensures alerted <==> Extract(response).None?
      ensures alerted ==> weatherData == old(weatherData)
      ensures !alerted ==> weatherData == Extract(response)
      ensures city == old(city)
    {
      queries := queries + [cityName];
      var reading := Extract(response);
      match reading
      case Some(r) =>
        weatherData := Some(r);
        alerted := false;
      case None =>
        alerted := true;
    }

    /** The input's change handler: `city` takes the new text; the reading is untouched. */
    method SetCity(text: string)
      modifies this`city
      ensures city == text
      ensures weatherData == old(weatherData)
      ensures State() == Step(old(State()), Typed(text))
    {
      city := text;
    }

    /** The search icon's click handler: a query for the text currently in the input. */
    method SearchClicked(response: Response) returns (alerted: bool)
      modifies this`weatherData, this`queries
      ensures queries == old(queries) + [old(city)]
      ensures State() == Step(old(State()), Searched(old(city), response))
      ensures alerted <==> Extract(response).None?
    {
      alerted := Search(city, response);
    }
  }
}
