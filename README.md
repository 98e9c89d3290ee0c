# Weather dashboard server: a Dafny model of its core

The server is a small proxy in front of the OpenWeather API. This project
models its three pieces of logic, with the network and the disk turned into
inputs and state:

- **The search-history store** (`HistoryService`). One JSON file holds an
  ordered list of `{id, name}` records. A missing file reads as the empty
  list. `addCity` appends a record whose id is the decimal text of the
  count plus one. `removeCity` drops every record with a given id. The
  class `HistoryService.HistoryStore` holds the file as a
  `StoredFile<City>` field: missing, a JSON array, or text `JSON.parse`
  rejects. `read` and `getCities` only read the file; `addCity` and
  `removeCity` read the whole file and write the whole list back.
- **The weather lookup** (`WeatherService`).
  - `fetchLocationData` returns `null` when the geocoder finds nothing;
    otherwise it returns the first match's `lat`/`lon`.
  - `fetchAndDestructureLocationData` turns `null` into "City not found".
  - `getWeatherForCity` projects forecast entry 0 into the current weather
    and entries 1 to 5 (`slice(1, 6)`) into the forecast. Every failure
    becomes "Error retrieving weather data".
  - The projections and the URL builders are functions. The three
    asynchronous steps are methods with early returns.
- **The `/api/weather` router** (`WeatherRoutes`). `GET /history` returns
  the router's history file. `POST /` checks `city` and appends
  `{id: length + 1, city}` to the history before it asks the geocoder.
  It then answers 404, the provider's raw forecast document (200), or 500.
  The class `WeatherRoutes.Router` holds that file as its state.

The network is a value `Network(get: string -> Reply)`. It maps each request
URL to the reply that request gets: a JSON document or a rejection. So the
URLs the code builds decide which replies the model sees. A JSON number is
kept as the text JavaScript prints for it (`Num(repr)`), because the core
only copies numbers and puts them into URLs. The module `UrlQuery` splits a
URL's query (section 3.4 of RFC 3986) into its `name=value` parameters, in
order. It lets the model state what the built URLs carry, including what
happens when a city name contains `&`, since the city is not percent-encoded
as section 2.1 of RFC 3986 would require. When a name occurs twice,
`UrlQuery.Lookup` takes the first occurrence. That is a convention this
model chose, the one `URLSearchParams.get` follows; neither the code nor
RFC 3986 says which occurrence a server uses.

Behaviour of the code that is easy to misread; the model follows the code:
- The service's records are `{id, name}`. The router's records are
  `{id: number, city}`.
- `addCity` resolves to nothing; it does not return the new record.
- The service and the router use two different history files:
  `service/../data/searchHistory.json` and
  `routes/api/../data/searchHistory.json`.
- `POST /` rejects every falsy `city`, the empty string included, not only
  an absent one.
- The service's geocoding URL lies under its `data/2.5/` base. The
  router's lies under `http://api.openweathermap.org/geo/1.0/direct`.
  `WeatherRoutes.GeocodeUrlDiffersFromService` states the difference.

## Model

| member | source | states |
|---|---|---|
| Runtime.DecimalString | server/src/service/historyService.ts:42 | the id text `(n).toString()` of a non-negative integer is non-empty, all decimal digits, and starts with `0` only for 0 |
| Runtime.ParseDecimalString | server/src/service/historyService.ts:42 | reading the decimal text of `n` back gives `n` (round trip) |
| Runtime.DecimalStringInjective | server/src/service/historyService.ts:42 | two counts give the same id text exactly when they are equal |
| Runtime.SmallDecimalStrings | server/src/service/historyService.ts:42 | the counts 1, 2 and 10 print as "1", "2" and "10" |
| HistoryService.HistoryStore.Read | server/src/service/historyService.ts:21-27 | missing file gives `[]`, a JSON file gives its records, an unparsable file throws a SyntaxError |
| HistoryService.HistoryStore.Write | server/src/service/historyService.ts:30-32 | the file afterwards holds exactly the given list |
| HistoryService.HistoryStore.GetCities | server/src/service/historyService.ts:35-37 | the same results as `read`: `[]` for a missing file, the stored records otherwise, an error for an unparsable file |
| HistoryService.HistoryStore.AddCity | server/src/service/historyService.ts:40-45 | the file becomes the old list plus one record at the end, with id = decimal text of old length + 1 and name = the argument; earlier records and their order are unchanged; ids 1..n stay 1..n+1 and unique; an unparsable file is left alone and the call fails |
| HistoryService.HistoryStore.RemoveCity | server/src/service/historyService.ts:48-52 | the file becomes the old list filtered by `id !== argument`; an unparsable file is left alone and the call fails |
| HistoryService.Without | server/src/service/historyService.ts:50 | after the filter no record has the id; a record remains exactly when it was there and has another id; the list never grows |
| HistoryService.WithoutAppend | server/src/service/historyService.ts:50 | filtering a concatenation filters each part, so the remaining records keep their relative order |
| HistoryService.WithoutSingle | server/src/service/historyService.ts:50 | one record is kept exactly when its id differs from the removed id |
| HistoryService.WithoutUnchanged | server/src/service/historyService.ts:50-51 | the filter leaves the list unchanged exactly when no record has the id (removing an absent id is a silent no-op) |
| HistoryService.WithoutIdempotent | server/src/service/historyService.ts:50 | removing the same id twice equals removing it once |
| HistoryService.SequentialIdsAreUnique | server/src/service/historyService.ts:42 | a history with ids "1", "2", ... in order has no repeated id |
| HistoryService.AddTwiceToMissingFile | server/src/service/historyService.ts:22-44 | two `addCity` calls on a missing file give the records `{id "1"}` then `{id "2"}` |
| HistoryService.RemoveThenAdd | server/src/service/historyService.ts:42-50 | from ids "1","2", `removeCity("1")` then `addCity` gives two records with id "2": ids derived from the length are not unique |
| WeatherService.DestructureLocationData | server/src/service/weatherService.ts:47-52 | the result has the same `lat` and `lon` as the input |
| WeatherService.ParseCurrentWeather | server/src/service/weatherService.ts:79-88 | succeeds exactly when the reply has a non-empty `list` whose entry 0 has a `weather` element, and then is the projection of `list[0]`; otherwise TypeError |
| WeatherService.BuildForecastArray | server/src/service/weatherService.ts:91-99 | succeeds exactly when every entry has a `weather` element; then has the input's length and element i is the projection of entry i |
| WeatherService.ForecastIgnoresCurrent | server/src/service/weatherService.ts:91-99 | the result does not depend on the `currentWeather` argument |
| WeatherService.Slice | server/src/service/weatherService.ts:107 | `slice(begin, end)` has length `min(end, n) - begin` (0 when empty) and element i is `s[begin + i]` |
| WeatherService.FullForecast | server/src/service/weatherService.ts:106-107 | with 6 or more entries the forecast is built exactly when entries 1 to 5 each have a `weather` element, whatever the other entries hold; it then has exactly 5 elements, the projections of entries 1 to 5 |
| WeatherService.CurrentIsFirstProjection | server/src/service/weatherService.ts:79-99 | the current weather is the same projection the forecast map applies: when the whole list maps, `parseCurrentWeather` equals the map's first element |
| WeatherService.FetchLocationData | server/src/service/weatherService.ts:37-44 | an empty geocoder array gives `null`; a non-empty one gives the `lat`/`lon` of element 0 unchanged; a rejected fetch or a non-array reply throws |
| WeatherService.FetchAndDestructureLocationData | server/src/service/weatherService.ts:65-69 | succeeds exactly when the geocoder has a match, with the first match's coordinates; "City not found" exactly when the lookup gave `null`; the lookup's own errors pass through |
| WeatherService.FetchWeatherData | server/src/service/weatherService.ts:72-76 | returns the document of the reply to `buildWeatherQuery(coordinates)`, or throws when that fetch rejects |
| WeatherService.GetWeatherForCity | server/src/service/weatherService.ts:102-117 | succeeds exactly when the geocoder has a match and the forecast for its coordinates has a usable `list`; then current = projection of `list[0]`, forecast has length `min(5, n-1)` with element i the projection of `list[i+1]`; every failure is the single error "Error retrieving weather data" |
| WeatherService.GeocodeQueryShape | server/src/service/weatherService.ts:55-57 | the geocoding URL is the endpoint, `?`, and the query `q=<city>&limit=1&appid=<key>` with the city inserted verbatim |
| WeatherService.GeocodeQueryParams | server/src/service/weatherService.ts:55-57 | for a city and key without `&`/`#`, the query splits into exactly `q` = the city, `limit` = 1, `appid` = the key |
| WeatherService.GeocodeQueryInjection | server/src/service/weatherService.ts:55-57 | the URL built from the city "Paris&limit=5", not being percent-encoded, carries exactly `q=Paris`, then `limit=5` ahead of the code's `limit=1`, then the key; a first-occurrence reader sees `q` "Paris" and `limit` 5 |
| WeatherService.WeatherQueryShape | server/src/service/weatherService.ts:60-62 | the forecast URL is the endpoint, `?`, and `lat=<lat>&lon=<lon>&appid=<key>&units=metric` |
| WeatherService.WeatherQueryParams | server/src/service/weatherService.ts:60-62 | the forecast query splits into `lat`, `lon`, `appid` verbatim and `units=metric`, in that order |
| WeatherService.WeatherQueryInjective | server/src/service/weatherService.ts:60-62 | two coordinates give the same forecast URL exactly when they are equal |
| WeatherRoutes.Router.ReadSearchHistory | server/src/routes/api/weatherRoutes.ts:12-18 | missing file gives `[]`, a JSON file gives its records, an unparsable file throws |
| WeatherRoutes.Router.WriteSearchHistory | server/src/routes/api/weatherRoutes.ts:21-23 | the file afterwards holds exactly the given array |
| WeatherRoutes.Router.GetHistory | server/src/routes/api/weatherRoutes.ts:26-33 | 200 with the stored records unchanged (`[]` when the file is missing); 500 when the file cannot be read |
| WeatherRoutes.Router.PostWeather | server/src/routes/api/weatherRoutes.ts:36-69 | falsy city: 400 and the file untouched; unreadable file: 500 and untouched; otherwise the file gains exactly `{id: old length + 1, city}` at the end before the geocoder is asked, then 404 for an empty geocoder array (history still appended), 200 with the raw forecast document for element 0's `lat`/`lon`, 500 for any other failure; the status is one of 200/400/404/500; ids 1..n stay 1..n+1 |
| WeatherRoutes.WeatherUrlMatchesService | server/src/routes/api/weatherRoutes.ts:60 | the router's forecast URL equals the service's `buildWeatherQuery` for the same coordinates and key |
| WeatherRoutes.GeocodeUrlShape | server/src/routes/api/weatherRoutes.ts:51 | the router's geocoding URL is its endpoint, `?`, and `q=<city>&limit=1&appid=<key>` |
| WeatherRoutes.GeocodeUrlParams | server/src/routes/api/weatherRoutes.ts:51 | the router's geocoding URL carries `q` = the city, `limit` = 1 and the key, like the service's |
| WeatherRoutes.GeocodeUrlDiffersFromService | server/src/routes/api/weatherRoutes.ts:51 | for every city and key the router's geocoding URL differs from the service's (http on `/geo/1.0/direct` against https under `data/2.5/`) |

## Left out

- HTTP, `node-fetch`, Express and the process setup (`server/src/server.ts`, `server/src/routes/api/index.ts`) are not part of this model. Outbound calls are the `Network` input, and request parsing is reduced to the `city` field.
- File-system calls and JSON serialisation are left out. The file is a `StoredFile` value, and a failing `writeFileSync` is not modelled, so writes always succeed.
- A history file whose JSON is not an array of records is not modelled. Neither is a `city` field that is a JSON number, boolean or object: the model takes it as absent or as a string.
- The `dotenv` configuration and `process.env`: the API key is a string parameter. An unset key prints as "undefined" in the source, and this model does not single that case out.
- Floating-point values are not computed on. They are carried as the text JavaScript prints for them, and number formatting is not modelled.
- Forecast entries without `main` or `wind`, and reply fields other than those read, are not modelled. Only an empty `weather` array stands for a malformed entry.
- Asynchronous scheduling is not modelled. Each call runs as one sequential step. So the model does not show the lost update in `HistoryService`: `addCity` and `removeCity` await `getCities()` between reading and writing the file, so two concurrent calls can interleave there and one write can undo the other. The router's POST handler reads, appends and writes with no `await` in between, so it has no such hazard within one process.
- `console.error` logging and the unused `cityName` field of `WeatherService` are left out.
- Percent-encoding and percent-decoding are not modelled in `UrlQuery`. The HTTP client's URL parsing encodes spaces, `"`, `<`, `>`, `'` and every non-ASCII character of the city. A server that decodes form data turns `+` into a space and `%xx` into the character it names. So for a city containing `+` or `%`, the parameters `GeocodeQueryParams` and `GeocodeUrlParams` state are what the URL text carries, not what such a server decodes.
