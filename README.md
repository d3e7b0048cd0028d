# Weather panel: condition icons and reading state

This project models the core of a single-page weather widget (`src/components/Weather.jsx`).
A user types a city name, a query fetches the current conditions from a weather provider,
and the panel shows temperature, city, humidity, wind and an icon for the condition.

The model has two parts:

- `ConditionIcon` (`condition_icon.dfy`) covers `getWeatherImage`, a pure classifier. It maps
  an optional condition text to one of five asset paths. An absent or empty text gives
  `/assets/clear.png`. Otherwise the text is lower-cased and tested for substrings in a
  fixed order: sun/clear, then rain/drizzle, then cloud/overcast, then snow/blizzard.
  The first group that matches wins, and no match gives `/assets/cloud.png`. Text that
  mentions "cloud" or "overcast" gets `/assets/drizzle.png`. That is what the component
  does, and the model keeps it. `Lower` and `Includes` model `toLowerCase` and `includes`.
  The lemmas relate them to a declarative definition of case-insensitive occurrence
  (`Mentions`). For each of the five icons, a lemma states exactly which texts are shown
  with it.
- `WeatherPanel` (`weather_panel.dfy`) covers the component's state: `weatherData` (a
  reading or `null`) and `city` (the input's text). The URL, `fetch` and `response.json()`
  are represented by a `Response` value. `Extract` copies the five fields of a successful
  body without conversion. It gives `None` in every case where the source throws inside
  its `try`: a failed request, a body that is not JSON, or a body that lacks `current`,
  `current.condition` or `location`. The transitions are modelled twice. The value-level
  `Step`/`Run` carries the lemmas about whole event sequences. The class `Weather` updates
  its fields in place, and each of its methods is tied to `Step` in its postcondition.
  `Options` (`options.dfy`) holds the `Option` datatype that stands for `null`/`undefined`.

## Model

| member | source | states |
|---|---|---|
| `ConditionIcon.WeatherImage` | src/components/Weather.jsx:9-24 | The classifier is total: every input, absent or present, yields one of the five fixed asset paths. |
| `ConditionIcon.Lower` | src/components/Weather.jsx:12 | Lower-casing keeps the length and lower-cases each character in place (ASCII letters only). |
| `ConditionIcon.IncludesIffOccurs` | src/components/Weather.jsx:14-21 | The `includes` scan answers true exactly when the word occurs at some position of the text. |
| `ConditionIcon.KeywordTests` | src/components/Weather.jsx:12-21 | Each of the eight keyword tests on the lower-cased text holds exactly when the keyword occurs in the text, ignoring case. |
| `ConditionIcon.MissingConditionIsClear` | src/components/Weather.jsx:10 | An absent or empty condition gives `/assets/clear.png`. |
| `ConditionIcon.ClearIconExactly` | src/components/Weather.jsx:14-15 | `/assets/clear.png` is chosen if and only if the text is empty or mentions "sun" or "clear", whatever else it mentions. |
| `ConditionIcon.RainIconExactly` | src/components/Weather.jsx:16-17 | `/assets/rain.png` is chosen if and only if the text mentions "rain" or "drizzle" and neither "sun" nor "clear". |
| `ConditionIcon.DrizzleIconExactly` | src/components/Weather.jsx:18-19 | `/assets/drizzle.png` is chosen if and only if the text mentions "cloud" or "overcast" and none of sun, clear, rain, drizzle. |
| `ConditionIcon.SnowIconExactly` | src/components/Weather.jsx:20-21 | `/assets/snow.png` is chosen if and only if the text mentions "snow" or "blizzard" and no keyword of an earlier group. |
| `ConditionIcon.CloudIconExactly` | src/components/Weather.jsx:23 | `/assets/cloud.png` is chosen if and only if the text is non-empty and mentions none of the eight keywords. |
| `ConditionIcon.RainBeatsCloud` | src/components/Weather.jsx:14-19 | Text mentioning both rain and cloud, but not sun or clear, is shown as rain: the rain group is tested first. |
| `ConditionIcon.CloudyWithRainIsRain` | src/components/Weather.jsx:12-17 | The text "Cloudy with rain" gives `/assets/rain.png`. |
| `ConditionIcon.LowerIdempotent` | src/components/Weather.jsx:12 | Lower-casing an already lower-cased text changes nothing. |
| `ConditionIcon.CaseInsensitive` | src/components/Weather.jsx:12 | Two texts that are equal up to letter case get the same icon. |
| `ConditionIcon.LowerCaseSameIcon` | src/components/Weather.jsx:12 | A text and its lower-cased form get the same icon. |
| `WeatherPanel.Extract` | src/components/Weather.jsx:35-41 | A response yields a reading exactly when it is a JSON body with `current`, `current.condition` and `location`. The reading's humidity, wind, temperature, city and condition are then `current.humidity`, `current.wind_kph`, `current.temp_c`, `location.name` and `current.condition.text`, unchanged. |
| `WeatherPanel.ExtractBodyOf` | src/components/Weather.jsx:35-41 | Every reading is recovered field for field from the provider body that reports it. |
| `WeatherPanel.SuccessReplacesReading` | src/components/Weather.jsx:35-41 | A successful query sets the reading to the extracted one whatever was shown before, and leaves the input text alone. |
| `WeatherPanel.FailuresChangeNothing` | src/components/Weather.jsx:42-45 | Any number of failed queries leave the whole state, reading and input text, unchanged. |
| `WeatherPanel.LoadedStaysLoaded` | src/components/Weather.jsx:35-45 | Once a reading is shown, no sequence of keystrokes and queries takes the panel back to showing none. |
| `WeatherPanel.EmptyUntilSuccess` | src/components/Weather.jsx:6-45 | Starting from the initial state, a reading is shown if and only if some query in the sequence has succeeded. |
| `WeatherPanel.ReadingIsLastSuccess` | src/components/Weather.jsx:26-46 | After any sequence of events, the reading shown is that of the last successful query, or the earlier reading if no query succeeded. |
| `WeatherPanel.CityIsLastTyped` | src/components/Weather.jsx:77 | After any sequence of events, the input holds the text of the last keystroke event, or its earlier text if there was none: queries never change it. |
| `WeatherPanel.ShownIcon` | src/components/Weather.jsx:93-98 | The panel shows an icon exactly when it holds a reading, and that icon is one of the five asset paths. |
| `WeatherPanel.Weather.constructor` | src/components/Weather.jsx:48-50 | Mounting starts from no reading and an empty input, then issues exactly one query, for "India". The state afterwards is that query's transition from the initial state. |
| `WeatherPanel.Weather.Search` | src/components/Weather.jsx:26-46 | A query records its location text. On success it replaces the reading with the extracted one. On failure it raises the alert and keeps the reading. It never changes the input text. |
| `WeatherPanel.Weather.SetCity` | src/components/Weather.jsx:77 | The change handler sets the input text and leaves the reading as it was. |
| `WeatherPanel.Weather.SearchClicked` | src/components/Weather.jsx:87 | A click issues a query for the text currently in the input and makes that query's transition. |

## Left out

- Building the provider URL with the API key from the build environment, `fetch`, and `response.json()`. These are network I/O. A query's outcome is the `Response` parameter, and `Search`'s `cityName` only goes into the ghost log `queries`.
- `console.log`, `console.error` and the `alert` dialog. They are diagnostics and UI. Whether the alert is raised is the `alerted` result of `Search`.
- Asynchrony. A query is modelled as completing atomically. Overlapping requests that resolve out of order are not modelled. The model's "last successful query" is the last in completion order.
- The `useEffect` mount hook is modelled as the one query issued by the constructor. Its React lifecycle is not modelled.
- Animations (framer-motion variants, spring parameters) and the JSX/Tailwind rendering. Only the split between showing nothing and showing the panel (`ShownIcon`) is modelled.
- `WeatherPanel.Extract`: a body that has `current`, `current.condition` and `location` but lacks one of the leaf fields would store `undefined` in the source. The model's body types always carry the leaf fields. A JSON body of `null` (which throws) is not distinguished from other failures.
- The numeric fields are JavaScript numbers. They are modelled as `real`, because the component only displays them.
- `ConditionIcon.Lower` lower-cases ASCII letters only. Unicode case mapping in `toLowerCase` is not modelled.
- Unmounting the component is not modelled.
