# ¿Tiende o no? — a verified model of its decision logic

"¿Tiende o no?" is a weather web app that tells its users whether it is a good
moment to hang the laundry out. This project models its decision core in Dafny
and proves properties of that model:

- **The current-conditions verdict** (`components/weather-display.tsx`). A rain
  gate decides whether the laundry can go out. Four strict thresholds follow:
  clouds over 80 %, humidity over 85 %, wind over 6.94 m/s and temperature
  under 10 °C. Each threshold that fires becomes a warning when hanging is
  allowed, or a reason when it is not. The reasons make up the headline.
- **The forecast-slot verdict, its badge and labels, and the grouping of the
  forecast into days** (`components/forecast-display.tsx`). The grouping keeps
  the slots from the current hour on, buckets them by local date key, sorts
  the keys and sorts each day by time.
- **The four route handlers**:
  - the weather proxy with its key validation and upstream status mapping;
  - the key-format endpoint;
  - the city-search proxy with its suggestion formatting;
  - the reverse-geocoding proxy with its fallback name.
- **Two client state machines**:
  - the page (`app/page.tsx`): favourites, expanded section, and the loading
    sequence with the stored last city;
  - the search box (`components/city-search.tsx`).

Layout, one module per file:

| file | module | what it holds |
|---|---|---|
| common.dfy | Common | `Option`, JavaScript `trim`, `join`, number rendering, `padStart`, UTF-16 lengths and units |
| sorting.dfy | Sorting | a stable insertion sort for `Array.prototype.sort`; the UTF-16 code-unit string order of `sort()` |
| observations.dfy | Observations | the observation record and the four threshold checks, in order |
| weather_display.dfy | WeatherDisplay | the current verdict as an imperative method, with its specification functions |
| forecast_display.dfy | ForecastDisplay | the slot verdict, `formatWarnings`, the badge choice, the hour label and icon |
| forecast_grouping.dfy | ForecastGrouping | `groupByDay`: filter loop, bucketing loop over a map, sorted assembly |
| http.dfy | Http | responses, the upstream outcome as an input, the handler's `Exchange` |
| weather_route.dfy | WeatherRoute | `validateApiKey`, `GET /api/weather` |
| set_api_key_route.dfy | SetApiKeyRoute | `POST /api/set-api-key` |
| city_search_route.dfy | CitySearchRoute | `GET /api/city-search` |
| reverse_geocode_route.dfy | ReverseGeocodeRoute | `GET /api/reverse-geocode` |
| home_page.dfy | HomePage | the `Home` class: page state and storage |
| city_search.dfy | CitySearch | the `SearchBox` class: the search box state |

Inputs stand in for the effects:
- Every handler receives the outcome of its one upstream call (`Upstream`).
- A handler returns the URL it would fetch (`sent`) beside its response, so the
  lemmas can say when no call is made.
- `process.env`, `localStorage` and the outcomes of client fetches are
  parameters or fields.
- `encodeURIComponent` is the parameter `encode`.
- Local time is the parameter `local`, from a timestamp to the local calendar
  date.

## Model

| member | source | states |
|---|---|---|
| Observations.FindingsSpec | components/weather-display.tsx:48-83 | a check is listed exactly when its threshold fires; the list follows the order clouds, humidity, wind, temperature, so no check appears twice |
| Observations.FindingsAfterSpec | components/weather-display.tsx:48-83 | after the first k checks, the listed findings are exactly those of rank below k that fire, in strictly increasing rank |
| Observations.ThresholdsAreStrict | components/weather-display.tsx:49-77 | a value exactly at a threshold never fires; a missing `clouds` object never fires the cloud check |
| Observations.FindingsIgnoreTime | components/forecast-display.tsx:17-21 | the checks do not depend on the timestamp |
| WeatherDisplay.ProcessWeatherDecision | components/weather-display.tsx:29-102 | `canHang` is false exactly for Rain, Drizzle or Thunderstorm; with `canHang`, `reasons` is empty and `warnings` lists the advisory texts; without it, `warnings` is empty and `reasons` starts with "Está lloviendo"; the message is the hang message, or the no-hang headline that the `Headline` step composes |
| WeatherDisplay.ApplyCheck | components/weather-display.tsx:49-83 | one threshold step keeps the routing invariant: texts go to `warnings` when hanging is allowed, to `reasons` when it is not, and never to both |
| WeatherDisplay.AdvisoriesSpec | components/weather-display.tsx:48-83 | when hanging is allowed, a warning text is present exactly when its check fires, one per finding and in check order |
| WeatherDisplay.BlockersSpec | components/weather-display.tsx:42-83 | when it rains, the reasons are "Está lloviendo" followed by one reason per finding in check order, and a reason is present exactly when its check fires |
| WeatherDisplay.AdvisoriesAreWarningTexts | components/weather-display.tsx:48-83 | the warnings after k checks are the warning texts of the first k findings |
| WeatherDisplay.BlockersAreReasonTexts | components/weather-display.tsx:42-83 | the reasons after k checks are the rain reason followed by the reason texts of the first k findings |
| WeatherDisplay.BlockersNonEmpty | components/weather-display.tsx:41-42 | the reason list always starts with the rain reason |
| WeatherDisplay.NoHangMessageShape | components/weather-display.tsx:86-93 | the headline starts with "No colgar - " and the first reason; it is exactly that when there is one reason, and longer when there are more |
| WeatherDisplay.ReasonsAppearInMessage | components/weather-display.tsx:87-93 | every reason occurs in the headline |
| WeatherDisplay.JoinContains | components/weather-display.tsx:91 | every joined element occurs in the result of `join` |
| WeatherDisplay.RainHeadline | components/weather-display.tsx:36-43 | when it rains, the headline starts with "No colgar - Está lloviendo" |
| WeatherDisplay.WarningTextInjective | components/weather-display.tsx:51-79 | distinct checks have distinct warning texts |
| WeatherDisplay.ReasonTextInjective | components/weather-display.tsx:53-81 | distinct checks have distinct reason texts |
| WeatherDisplay.ReasonTextNotRain | components/weather-display.tsx:42-81 | no threshold reason equals the rain reason |
| ForecastDisplay.ProcessWeatherDecision | components/forecast-display.tsx:12-63 | `canHang` is false exactly for Rain, Drizzle or Thunderstorm, and the block at 55-57 does not change it; `warnings` is the specified slot list |
| ForecastDisplay.SlotWarningsAreTexts | components/forecast-display.tsx:24-52 | the slot list after k checks is "Lluvia" when it rains, followed by the slot texts of the first k findings |
| ForecastDisplay.SlotWarningsSpec | components/forecast-display.tsx:24-52 | "Lluvia" is present exactly when it rains, and then it comes first; a threshold text is present exactly when its check fires; the length is the rain flag plus the number of findings; nothing is repeated |
| ForecastDisplay.RainThenTextsSpec | components/forecast-display.tsx:24-52 | an optional "Lluvia" followed by the texts of duplicate-free findings is duplicate-free, and "Lluvia" is present only if it was pushed |
| ForecastDisplay.SlotTextsSpec | components/forecast-display.tsx:36-51 | the texts of duplicate-free findings are duplicate-free, never "Lluvia", and name exactly those findings |
| ForecastDisplay.SlotTextInjective | components/forecast-display.tsx:36-51 | distinct checks have distinct slot texts |
| ForecastDisplay.SlotTextNotRain | components/forecast-display.tsx:31-51 | no threshold text equals "Lluvia" |
| ForecastDisplay.SlotVerdictIgnoresTime | components/forecast-display.tsx:17-21 | the slot warnings do not depend on the slot's time |
| ForecastDisplay.FormatWarnings | components/forecast-display.tsx:149-158 | "Óptimo" for no warning, the warning itself for one, and the first warning with " +" and the count of the others for more |
| ForecastDisplay.FormatWarningsCount | components/forecast-display.tsx:153-155 | for several warnings the label is the first warning, " +" and a decimal numeral whose value is the number of other warnings |
| ForecastDisplay.OptimalLabelIffNoWarning | components/forecast-display.tsx:149-150 | the label of a slot is "Óptimo" exactly when the slot has no warning |
| ForecastDisplay.BadgeSpec | components/forecast-display.tsx:200-227 | the red badge shows exactly when it rains, with a label starting "Lluvia"; the green "Óptimo" badge shows exactly when it is dry and no check fires; the yellow badge's label starts with the first finding's text |
| ForecastDisplay.HourLabelRoundTrip | components/forecast-display.tsx:140-146 | the two-digit hour parses back to the hour, and the sun icon shows exactly for hours 7 to 19 |
| ForecastGrouping.GroupByDay | components/forecast-display.tsx:77-111 | the three loops together compute the specified grouping |
| ForecastGrouping.FilterFuture | components/forecast-display.tsx:79-86 | the filter loop keeps, in order, exactly the items with `dt*1000 >= now` |
| ForecastGrouping.BucketByDay | components/forecast-display.tsx:89-98 | the `forEach` loop leaves a map whose keys are exactly the days met, in order of first appearance, and each value is that day's items in their order |
| ForecastGrouping.PushItem | components/forecast-display.tsx:92-97 | one push keeps the bucketing invariant |
| ForecastGrouping.CollectDays | components/forecast-display.tsx:101-108 | the final loop emits, for each sorted key, that day's items sorted by time |
| ForecastGrouping.GroupedByPush | components/forecast-display.tsx:94-97 | creating the day on its first item and then pushing keeps the bucketing invariant |
| ForecastGrouping.SortByDt | components/forecast-display.tsx:106 | sorting a day gives a permutation ordered by `dt` |
| ForecastGrouping.SortByDtStable | components/forecast-display.tsx:106 | slots with the same `dt` keep their input order |
| ForecastGrouping.SortKeys | components/forecast-display.tsx:101 | sorting the keys gives a permutation sorted by `KeyLe`, which on day keys is the UTF-16 code-unit order (`DayKeyOrderIsUnitOrder`) |
| ForecastGrouping.KeptCount | components/forecast-display.tsx:83-86 | the filter keeps every occurrence of a future item and drops every past one |
| ForecastGrouping.OnDayCount | components/forecast-display.tsx:89-98 | a day's bucket holds every occurrence of that day's items and nothing else |
| ForecastGrouping.DayKeysSpec | components/forecast-display.tsx:94-96 | the created days are duplicate-free, and a day is created exactly when it has an item |
| ForecastGrouping.GroupingKeysAscending | components/forecast-display.tsx:101 | the days come out in strictly ascending key order |
| ForecastGrouping.GroupingKeys | components/forecast-display.tsx:101-108 | the buckets' keys are the sorted day keys, none repeated |
| ForecastGrouping.GroupingBucketSpec | components/forecast-display.tsx:89-108 | each bucket is sorted by `dt` and holds exactly the future items of its day |
| ForecastGrouping.GroupingExactlyOnce | components/forecast-display.tsx:89-98 | every future item is in exactly one bucket, the one keyed by its local date |
| ForecastGrouping.GroupingIsPartition | components/forecast-display.tsx:83-108 | the buckets laid end to end are a permutation of the future items |
| ForecastGrouping.GroupingEmpty | components/forecast-display.tsx:161 | there is no day exactly when no item is in the future, the case that shows the "no data" text |
| ForecastGrouping.KeyFields | components/forecast-display.tsx:92 | for a four-digit year, the key's year, month and day fields are 4, 2 and 2 digits, and read back as the year, the 1-based month and the day |
| ForecastGrouping.DayKeyOrder | components/forecast-display.tsx:92 | for four-digit years, the string order of two keys is the calendar order of their dates, and equal keys mean equal dates |
| ForecastGrouping.FieldThenRest | components/forecast-display.tsx:92 | in a key that starts with a fixed-width numeric field and a dash, the field's value decides the order, and on a tie the rest does |
| ForecastGrouping.GroupingChronological | components/forecast-display.tsx:89-108 | when every slot of the list falls in a four-digit year, each bucket holds one local calendar date, and every item of an earlier bucket falls on a strictly earlier date |
| ForecastGrouping.DayKeyInBmp | components/forecast-display.tsx:92 | a day key is made of digits and dashes, so none of its characters needs a surrogate pair |
| ForecastGrouping.DayKeyOrderIsUnitOrder | components/forecast-display.tsx:101 | on day keys, `KeyLe` is exactly the UTF-16 code-unit order of the default `sort()` |
| Sorting.KeyLeIsUnitOrder | components/forecast-display.tsx:101 | on strings without surrogate pairs, comparing code points is the same as comparing the UTF-16 units `sort()` compares |
| Sorting.KeyLeDigits | components/forecast-display.tsx:101 | on numerals of the same width, the string order of `sort()` is numeric order |
| Sorting.KeyLeConcat | components/forecast-display.tsx:101 | after equal-length leading parts, those parts decide the order unless they are equal, and then the rests do |
| Sorting.InsertionSort | components/forecast-display.tsx:101-106 | the sort gives a permutation that is sorted by the given total preorder |
| Sorting.InsertionSortStable | components/forecast-display.tsx:101-106 | the sort is stable: for every element, the elements that compare equal to it come out in their input order |
| Sorting.KeyLeIsTotalPreorder | components/forecast-display.tsx:101 | the default string order of `sort()` is total and transitive |
| Sorting.SortedDistinctKeysAscending | components/forecast-display.tsx:101 | sorted duplicate-free keys are strictly ascending |
| Sorting.PermutationDistinct | components/forecast-display.tsx:101 | sorting duplicate-free keys keeps them duplicate-free |
| WeatherRoute.ValidateApiKey | app/api/weather/route.ts:8-35 | the key is valid exactly when present, at least 20 UTF-16 units long and alphanumeric; each failure has its own message, checked in the order missing, too short, bad characters |
| WeatherRoute.Get | app/api/weather/route.ts:37-101 | a missing city gives 400 before anything else; an invalid key gives 500 with the validation message and no upstream call; otherwise the fixed URL is fetched and the upstream outcome decides the answer |
| WeatherRoute.RelaySpec | app/api/weather/route.ts:65-99 | upstream 401 and 404 keep their status with their own messages; any other failure, throw or unreadable body gives 500 with the generic message; an ok body is returned as 200 |
| WeatherRoute.NoCallNoDependence | app/api/weather/route.ts:41-53 | when no call is made, the answer does not depend on the upstream |
| WeatherRoute.LoggedUrlRedacts | app/api/weather/route.ts:57-58 | the logged URL is the requested one with the key cut to its first three characters and "..." |
| WeatherRoute.Prefix3 | app/api/weather/route.ts:57 | `substring(0, 3)` is the longest prefix of at most three UTF-16 units: the whole string when it is shorter |
| WeatherRoute.LoggedKeyPrefix | app/api/weather/route.ts:49-57 | a key that passed validation is ASCII, so the logged prefix is exactly its first three characters |
| Common.Utf16LengthBmp | app/api/weather/route.ts:18 | JavaScript's `length` equals the number of code points exactly when no code point needs a surrogate pair |
| SetApiKeyRoute.Post | app/api/set-api-key/route.ts:3-29 | the answer is 200 with success exactly for an alphanumeric string key of 20 or more UTF-16 units; an unparseable or null body gives 500 |
| SetApiKeyRoute.PostRejections | app/api/set-api-key/route.ts:7-15 | a missing, empty or non-string key gives 400 "API key is required"; a non-empty string of the wrong shape gives 400 "Invalid API key format" |
| SetApiKeyRoute.AcceptsWhatWeatherAccepts | app/api/set-api-key/route.ts:7-15 | the endpoint accepts exactly the keys the weather route's validation accepts |
| CitySearchRoute.Get | app/api/city-search/route.ts:3-47 | a missing query gives 400 and no call; a missing key gives 500 and no call; otherwise the URL carries the encoded query and the limit, and the upstream outcome decides the answer |
| CitySearchRoute.Limit | app/api/city-search/route.ts:6 | the limit is the parameter when present and non-empty, and "5" otherwise |
| CitySearchRoute.Relay | app/api/city-search/route.ts:26-46 | an ok, readable list gives 200 with its formatted entries; anything else gives 500 with the search-failure message |
| CitySearchRoute.FormatAll | app/api/city-search/route.ts:33-40 | one suggestion per upstream entry, at the same position |
| CitySearchRoute.FormatAllAppend | app/api/city-search/route.ts:33-40 | formatting commutes with concatenation: each entry is formatted on its own, and order is kept |
| CitySearchRoute.Format | app/api/city-search/route.ts:34-38 | name, country and coordinates are copied; a missing or empty state becomes "" |
| CitySearchRoute.DisplayNameFromFields | app/api/city-search/route.ts:39 | the label is the name, then ", state" exactly when the state is non-empty, then ", country" |
| CitySearchRoute.DisplayNameShape | app/api/city-search/route.ts:39 | the label starts with the name and ends with ", " and the country |
| CitySearchRoute.NoCallNoDependence | app/api/city-search/route.ts:8-18 | when no call is made, the answer does not depend on the upstream |
| ReverseGeocodeRoute.Get | app/api/reverse-geocode/route.ts:3-42 | a missing latitude or longitude gives 400 and no call; a missing key gives 500 and no call; otherwise the fixed URL is fetched and the upstream outcome decides the answer |
| ReverseGeocodeRoute.Relay | app/api/reverse-geocode/route.ts:26-41 | an ok, readable answer gives 200 with the city name; anything else gives 500 with the lookup-failure message |
| ReverseGeocodeRoute.CityName | app/api/reverse-geocode/route.ts:31-35 | the first place's name when there is one, "Tu ubicación" for null or an empty list |
| ReverseGeocodeRoute.LaterPlacesIgnored | app/api/reverse-geocode/route.ts:33-35 | places after the first never change the name |
| ReverseGeocodeRoute.SuccessHasName | app/api/reverse-geocode/route.ts:30-37 | a successful lookup always gives a name: the fallback or one of the places' names |
| ReverseGeocodeRoute.NoCallNoDependence | app/api/reverse-geocode/route.ts:8-18 | when no call is made, the answer does not depend on the upstream |
| HomePage.Remove | app/page.tsx:144 | the filter keeps exactly the entries other than the name |
| HomePage.RemoveAppend | app/page.tsx:144 | the filter works piece by piece, so the kept entries stay in order |
| HomePage.RemoveAbsent | app/page.tsx:144 | filtering out an absent name changes nothing |
| HomePage.RemoveCounts | app/page.tsx:144 | the filter drops every occurrence of the name and keeps every other entry as often as before |
| HomePage.ToggledSpec | app/page.tsx:143-150 | toggling a present name removes every occurrence and keeps the others; toggling an absent name appends it at the end |
| HomePage.ToggleTwiceRestores | app/page.tsx:143-150 | toggling an absent name twice restores the list |
| HomePage.ToggleTwiceMovesToEnd | app/page.tsx:143-150 | toggling a present name twice moves it to the end |
| HomePage.ToggledKeepsDistinct | app/page.tsx:143-150 | a duplicate-free list stays duplicate-free |
| HomePage.RemoveDistinct | app/page.tsx:144 | filtering keeps a list duplicate-free |
| HomePage.SectionToggled | app/page.tsx:166-172 | the section closes exactly when it was the open one, and opens otherwise |
| HomePage.SectionToggleTwice | app/page.tsx:166-172 | two toggles of a section restore the state exactly when that section or none was open; with another open, they close all |
| HomePage.FailureText | app/page.tsx:73-91 | the error shown is the body's `error` field when present, the default text otherwise, or the thrown error's message |
| HomePage.Home.ToggleFavorite | app/page.tsx:140-159 | the new favourites are the toggled list, and the stored copy equals them; nothing else changes |
| HomePage.Home.ToggleSection | app/page.tsx:166-172 | only the expanded section changes, to the toggled value |
| HomePage.Home.Load | app/page.tsx:61-94 | `weather` is set only if its fetch succeeded; `forecast` and the stored last city only if both fetches did; the error names the first failure, or is empty; a weather 401 opens the key dialog; loading ends false |
| HomePage.Home.FetchWeather | app/page.tsx:58-95 | a blank name changes nothing; otherwise the loading sequence as in `Load` |
| HomePage.Home.FetchWeatherByCoords | app/page.tsx:97-133 | the city shown becomes the given name, then the loading sequence runs as in `Load`, with no blank check |
| HomePage.Home.Mount | app/page.tsx:40-56 | stored favourites are restored; a stored non-blank last city is shown and loaded, with the full post-state of `Load`; with none stored, or a blank one, weather, forecast, error, dialog and loading flag are unchanged |
| HomePage.Home.SelectFavorite | app/page.tsx:161-164 | choosing a favourite shows it; a blank name loads nothing and leaves the rest unchanged; otherwise the post-state is that of `Load`; the open section is kept |
| HomePage.Home.constructor | app/page.tsx:29-36 | the initial state: empty city, no data, not loading, no error, no favourites, dialog closed, no section open |
| HomePage.ToggleThenReload | app/page.tsx:140-159 | after a toggle, a reloaded page starts with exactly the favourites in memory |
| CitySearch.SearchBox.FetchSuggestions | components/city-search.tsx:47-74 | a request is made exactly when the trimmed query has at least 2 UTF-16 units and no city was just chosen, and otherwise the list is cleared; a failed fetch leaves no suggestions; the spinner is off afterwards |
| CitySearch.SearchBox.HandleInputChange | components/city-search.tsx:76-87 | the query becomes the typed text, the selection flag is cleared, and the list is shown exactly when the text is not blank; the parent is told once |
| CitySearch.SearchBox.HandleSelectCity | components/city-search.tsx:89-95 | the query becomes the chosen name, the list is hidden, the selection flag is set, and the parent is told of the name and the city |
| CitySearch.SearchBox.HandleSubmit | components/city-search.tsx:97-104 | a non-blank query is searched once as typed, and the list is hidden and the flag set; a blank query changes nothing |
| CitySearch.SearchBox.HandleInputFocus | components/city-search.tsx:106-112 | focus shows the list when no city is chosen and the trimmed query has at least 2 UTF-16 units; focus never hides it |
| CitySearch.SearchBox.SyncValue | components/city-search.tsx:41-44 | a new value from the parent replaces the query and nothing else |
| CitySearch.SearchBox.ClickOutside | components/city-search.tsx:38-39 | a click outside hides the list |
| CitySearch.SearchBox.constructor | components/city-search.tsx:30-34 | the query starts as the parent's value; no suggestions, no spinner, list hidden, nothing chosen |
| CitySearch.SelectThenFetch | components/city-search.tsx:89-95 | after a city is chosen, the fetch that follows makes no request and clears the list |
| CitySearch.TypeThenFetch | components/city-search.tsx:76-87 | after typing, whether a request is made depends on the typed text alone |
| Common.TrimEmptyIffBlank | app/page.tsx:59 | `trim()` gives "" exactly for a string made of whitespace |
| Common.NatToStringRoundTrip | components/forecast-display.tsx:182 | rendering a number and parsing it gives it back |
| Common.LeadingZeroValue | components/forecast-display.tsx:69 | a padding zero does not change the parsed value |

## Left out

- Rendering is not modelled: JSX, CSS classes, icons, toasts, and the tab,
  dropdown and dialog widgets. The badge and its label are modelled; the
  period icon is reduced to a `Sun`/`Moon` value.
- The effects of `fetch`, `NextResponse`, URL and query parsing,
  `process.env` and `localStorage` are not modelled. Their outcomes or values
  are parameters or fields. `console` logging is left out, apart from the
  URL the weather route logs.
- `encodeURIComponent` is the parameter `encode`; its behaviour is not
  modelled.
- Locale formatting is not modelled: `getDayName` ("Hoy", "Mañana" and the
  weekday label), `formatTime`'s weekday, and `toLocaleTimeString`.
- Time zones are not modelled. The local calendar date of a timestamp is the
  parameter `local`, and the current time, already floored to the hour, is
  the parameter `nowMs`.
- Numbers are exact reals or unbounded integers. IEEE-754 rounding at 6.94
  and 10 is not modelled, and neither is `Math.round` of the temperature.
- Debounce timing, the click-outside hook, and the ordering of concurrent
  requests are not modelled. Each handler runs to completion, one at a time.
- The geolocation button and the key dialog are not modelled. The dialog's
  `onSave` and `onClose` only close it and may call `fetchWeather`; those
  two handlers are not separate members.
- The forecast and coordinate routes (`/api/forecast`,
  `/api/weather-by-coords`, `/api/forecast-by-coords`) are not part of this
  model. Their answers enter `Load` as outcomes.
- The forecast slot's `hour` is computed but unused. It is not modelled, and
  `SlotVerdictIgnoresTime` states that the verdict does not need it.
- The two sorts are modelled as an insertion sort on values, not in place.
  `Array.prototype.sort` is stable, and so is the model
  (`InsertionSortStable`), so the result is the same.
  `Object.keys` order is modelled as creation order, which holds for these
  non-numeric keys.
- Mutable aliasing between `grouped` and `result` is not modelled.
  `sort()` on `grouped[day]` is an in-place update that the model expresses
  as a new sequence.
- JSON shapes are reduced to what the code reads:
  - A reverse-geocode answer is `null` or a list of names. A value of another
    shape with a truthy `length` is not modelled.
  - A city-search answer that is not a list counts as unreadable.
  - A place or city entry with missing fields is not modelled.
  - HomePage.Outcome: a weather answer with status 401 and a JSON `null` body
    is not modelled. In the page, the dialog opens, then reading
    `data.error` throws a `TypeError`, and its message becomes the error.
- HomePage.Home.Mount: a stored favourites string that does not parse is not
  modelled. The stored value is the list that `toggleFavorite` wrote.
- ForecastGrouping.DayKeyOrder and ForecastGrouping.GroupingChronological:
  stated for dates in years 1000 to 9999 only, and for
  GroupingChronological only the list's own slots must fall in them. For
  other years the year field's width varies, and string order is not
  calendar order.
- Sorting.KeyLe compares code points, while the default `sort()` compares
  UTF-16 code units. The two differ only on strings with a code point above
  U+FFFF. `KeyLeIsUnitOrder` proves they agree on all other strings, and
  `DayKeyInBmp` that every day key is such a string.
- WeatherRoute.Prefix3: when the third UTF-16 unit is the first half of a
  surrogate pair, `substring(0, 3)` keeps that lone half. The model stops
  before the pair, because a Dafny string holds whole code points. The route
  logs only keys that passed validation, and `LoggedKeyPrefix` shows those
  are ASCII, so this case is not reached there.
- WeatherDisplay.Headline: the `reasons.length > 1` branch is taken for lists
  of two or more. The unreachable empty case, where the message would stay
  the hang message, is excluded by the precondition: at that point the rain
  reason is always present.

Behaviour the model follows where the code differs from a natural reading:

- The weather route returns an ok upstream body with the status 200 that
  `NextResponse.json` gives by default, not the upstream's own status.
- A forecast failure keeps the previous `forecast` and the new `weather`.
- `toggleSection(s)` applied twice restores the state only when `s` or no
  section was open.
