/** The weather lookup of `WeatherService`: resolve a city to coordinates
    with the geocoder, fetch the forecast for them, and project the first
    entry and the next five into `Weather` records. The projections and
    URL builders are functions; the three asynchronous steps are methods
    with early returns over an abstract network. */
module WeatherService {
  import opened Runtime
  import opened Provider
  import opened UrlQuery

  datatype Coordinates = Coordinates(lat: Num, lon: Num)

  datatype Weather = Weather(
    temperature: Num,
    humidity: Num,
    windSpeed: Num,
    description: string,
    icon: string)

  /** What `getWeatherForCity` resolves to. */
  datatype Report = Report(currentWeather: Weather, forecastWeather: seq<Weather>)

  const BaseURL := "https://api.openweathermap.org/data/2.5/"

  function Min(a: int, b: int): int
  {
    if a < b then a else b
  }

  // ---------------------------------------------------------------------
  // Pure steps
  // ---------------------------------------------------------------------

  /** `destructureLocationData`: a copy of the coordinates. */
  function DestructureLocationData(locationData: Coordinates): (r: Coordinates)
    ensures r == locationData
  {
    Coordinates(locationData.lat, locationData.lon)
  }

  /** `buildGeocodeQuery`: the city and the key are inserted as they are,
      without percent-encoding. */
  function BuildGeocodeQuery(city: string, apiKey: string): string
  {
    BaseURL + "geo/1.0/direct?q=" + city + "&limit=1&appid=" + apiKey
  }

  /** `buildWeatherQuery`: the coordinates as JavaScript prints them. */
  function BuildWeatherQuery(coordinates: Coordinates, apiKey: string): string
  {
    BaseURL + "forecast?lat=" + coordinates.lat.repr + "&lon=" + coordinates.lon.repr
      + "&appid=" + apiKey + "&units=metric"
  }

  /** The object literal that `parseCurrentWeather` and the callback of
      `buildForecastArray` both build from one forecast entry. Reading
      `weather[0].description` of an entry whose `weather` array is empty
      throws a TypeError. */
  function ParseEntry(entry: Entry): (r: Result<Weather>)
    ensures r.Success? <==> |entry.weather| > 0
    ensures r.Failure? ==> r.error == TypeError
    ensures r.Success? ==>
      && r.value.temperature == entry.main.temp
      && r.value.humidity == entry.main.humidity
      && r.value.windSpeed == entry.wind.speed
      && r.value.description == entry.weather[0].description
      && r.value.icon == entry.weather[0].icon
  {
    if |entry.weather| == 0 then Failure(TypeError)
    else
      Success(Weather(entry.main.temp, entry.main.humidity, entry.wind.speed,
                      entry.weather[0].description, entry.weather[0].icon))
  }

  /** `parseCurrentWeather`: the projection of `response.list[0]`. A reply
      without a `list` (the geocoder's array, an error object) or with an
      empty one throws a TypeError. */
  function ParseCurrentWeather(response: Doc): (r: Result<Weather>)
    ensures r.Success? <==> response.Forecast? && |response.list| > 0 && |response.list[0].weather| > 0
    ensures r.Failure? ==> r.error == TypeError
    ensures r.Success? ==> Success(r.value) == ParseEntry(response.list[0])
  {
    if response.Forecast? && |response.list| > 0 then ParseEntry(response.list[0])
    else Failure(TypeError)
  }

  /** `buildForecastArray`: `weatherData.map(...)` with the same projection;
      `currentWeather` is passed in and never read. The first entry whose
      `weather` array is empty makes the map throw. */
  function BuildForecastArray(currentWeather: Weather, weatherData: seq<Entry>): (r: Result<seq<Weather>>)
    ensures r.Success? <==> forall i :: 0 <= i < |weatherData| ==> |weatherData[i].weather| > 0
    ensures r.Failure? ==> r.error == TypeError
    ensures r.Success? ==> |r.value| == |weatherData|
    ensures r.Success? ==> forall i :: 0 <= i < |weatherData| ==> ParseEntry(weatherData[i]) == Success(r.value[i])
  {
    if weatherData == [] then Success([])
    else
      match ParseEntry(weatherData[0])
      case Failure(e) => Failure(e)
      case Success(w) =>
        match BuildForecastArray(currentWeather, weatherData[1..])
        case Failure(e) => Failure(e)
        case Success(ws) =>
          assert forall i :: 1 <= i < |weatherData| ==> weatherData[i] == weatherData[1..][i - 1];
          Success([w] + ws)
  }

  /** `Array.prototype.slice(begin, end)` for non-negative bounds: both are
      clamped to the length, and an empty range gives the empty array. */
  function Slice<T>(s: seq<T>, begin: nat, end: nat): (r: seq<T>)
    ensures |r| == if begin < end && begin < |s| then Min(end, |s|) - begin else 0
    ensures forall i :: 0 <= i < |r| ==> r[i] == s[begin + i]
  {
    var hi := Min(end, |s|);
    var lo := Min(begin, hi);
    s[lo..hi]
  }

  // ---------------------------------------------------------------------
  // How the geocoder's reply is read
  // ---------------------------------------------------------------------

  /** The geocoder answered with at least one match. */
  predicate HasMatch(reply: Reply)
  {
    reply.Received? && reply.doc.GeoArray? && |reply.doc.places| > 0
  }

  /** The `lat` and `lon` of the geocoder's first match. */
  function FirstMatch(reply: Reply): Coordinates
    requires HasMatch(reply)
  {
    Coordinates(reply.doc.places[0].lat, reply.doc.places[0].lon)
  }

  /** The forecast reply has a `list` whose first six entries (the current
      one and the five that are projected) each have a `weather` element. */
  predicate UsableForecast(reply: Reply)
  {
    && reply.Received?
    && reply.doc.Forecast?
    && |reply.doc.list| > 0
    && forall i :: 0 <= i < |reply.doc.list| && i < 6 ==> |reply.doc.list[i].weather| > 0
  }

  // ---------------------------------------------------------------------
  // Asynchronous steps
  // ---------------------------------------------------------------------

  /** `fetchLocationData`: `null` when the geocoder finds nothing, else the
      `lat` and `lon` of its first match. A rejected fetch propagates; a
      reply that is not an array makes `data[0]` undefined and its
      destructuring throws. */
  method FetchLocationData(query: string, net: Network, apiKey: string)
    returns (r: Result<Option<Coordinates>>)
    ensures var reply := net.get(BuildGeocodeQuery(query, apiKey));
      && (reply.Unavailable? ==> r == Failure(NetworkFailure))
      && (reply == Received(GeoArray([])) ==> r == Success(None))
      && (HasMatch(reply) ==>
            r == Success(Some(Coordinates(reply.doc.places[0].lat, reply.doc.places[0].lon))))
      && (reply.Received? && !reply.doc.GeoArray? ==> r == Failure(TypeError))
  {
    var geoUrl := BuildGeocodeQuery(query, apiKey);
    var response := net.get(geoUrl);
    if response.Unavailable? {
      return Failure(NetworkFailure);
    }
    var data := response.doc;
    if data.GeoArray? && |data.places| == 0 {
      return Success(None);
    }
    if !data.GeoArray? {
      return Failure(TypeError);
    }
    var place := data.places[0];
    return Success(Some(Coordinates(place.lat, place.lon)));
  }

  /** `fetchAndDestructureLocationData`: fails with "City not found" exactly
      when the lookup gave `null`, passes the lookup's own error through,
      and otherwise returns the first match's coordinates. */
  method FetchAndDestructureLocationData(city: string, net: Network, apiKey: string)
    returns (r: Result<Coordinates>)
    ensures var reply := net.get(BuildGeocodeQuery(city, apiKey));
      && (r.Success? <==> HasMatch(reply))
      && (HasMatch(reply) ==> r.value == FirstMatch(reply))
      && (reply == Received(GeoArray([])) ==> r == Failure(CityNotFound))
      && (reply.Unavailable? ==> r == Failure(NetworkFailure))
      && (reply.Received? && !reply.doc.GeoArray? ==> r == Failure(TypeError))
  {
    var locationData := FetchLocationData(city, net, apiKey);
    if locationData.Failure? {
      return Failure(locationData.error);
    }
    if locationData.value.None? {
      return Failure(CityNotFound);
    }
    return Success(DestructureLocationData(locationData.value.value));
  }

  /** `fetchWeatherData`: the forecast endpoint's document for the URL
      `buildWeatherQuery` makes of the coordinates. */
  method FetchWeatherData(coordinates: Coordinates, net: Network, apiKey: string)
    returns (r: Result<Doc>)
    ensures var reply := net.get(BuildWeatherQuery(coordinates, apiKey));
      && (reply.Unavailable? ==> r == Failure(NetworkFailure))
      && (reply.Received? ==> r == Success(reply.doc))
  {
    var weatherUrl := BuildWeatherQuery(coordinates, apiKey);
    var response := net.get(weatherUrl);
    if response.Unavailable? {
      return Failure(NetworkFailure);
    }
    return Success(response.doc);
  }

  /** `getWeatherForCity`: succeeds exactly when the geocoder has a match
      and the forecast for the match's coordinates is usable. The current
      weather is the projection of entry 0 and the forecast the projections
      of entries 1 to 5 (fewer when the list is shorter). Every failure on
      the way is replaced by the one error "Error retrieving weather data". */
  method GetWeatherForCity(city: string, net: Network, apiKey: string) returns (r: Result<Report>)
    ensures r.Failure? ==> r.error == WeatherLookupFailed
    ensures var geo := net.get(BuildGeocodeQuery(city, apiKey));
      r.Success? <==> HasMatch(geo) && UsableForecast(net.get(BuildWeatherQuery(FirstMatch(geo), apiKey)))
    ensures r.Success? ==>
      var geo := net.get(BuildGeocodeQuery(city, apiKey));
      HasMatch(geo) &&
      var list := net.get(BuildWeatherQuery(FirstMatch(geo), apiKey)).doc.list;
      && |list| > 0
      && Success(r.value.currentWeather) == ParseEntry(list[0])
      && |r.value.forecastWeather| == Min(5, |list| - 1)
      && (forall i :: 0 <= i < |r.value.forecastWeather| ==>
            Success(r.value.forecastWeather[i]) == ParseEntry(list[i + 1]))
  {
    var coordinates := FetchAndDestructureLocationData(city, net, apiKey);
    if coordinates.Failure? {
      return Failure(WeatherLookupFailed);
    }
    var weatherData := FetchWeatherData(coordinates.value, net, apiKey);
    if weatherData.Failure? {
      return Failure(WeatherLookupFailed);
    }
    var currentWeather := ParseCurrentWeather(weatherData.value);
    if currentWeather.Failure? {
      return Failure(WeatherLookupFailed);
    }
    var list := weatherData.value.list;
    var next := Slice(list, 1, 6);
    var forecastWeather := BuildForecastArray(currentWeather.value, next);
    if forecastWeather.Failure? {
      assert exists i :: 0 <= i < |next| && |next[i].weather| == 0;
      return Failure(WeatherLookupFailed);
    }
    assert forall i :: 1 <= i < |list| && i < 6 ==> list[i] == next[i - 1];
    return Success(Report(currentWeather.value, forecastWeather.value));
  }

  // ---------------------------------------------------------------------
  // Properties
  // ---------------------------------------------------------------------

  /** `buildForecastArray` does not depend on the current weather it is given. */
  lemma {:induction false} ForecastIgnoresCurrent(a: Weather, b: Weather, weatherData: seq<Entry>)
    ensures BuildForecastArray(a, weatherData) == BuildForecastArray(b, weatherData)
    decreases |weatherData|
  {
    if weatherData != [] {
      ForecastIgnoresCurrent(a, b, weatherData[1..]);
    }
  }

  /** With six or more entries `slice(1, 6)` reads only entries 1 to 5: the
      forecast is built exactly when those five each have a `weather`
      element, whatever the other entries hold, and is then their five
      projections. */
  lemma FullForecast(current: Weather, list: seq<Entry>)
    requires |list| >= 6
    ensures var r := BuildForecastArray(current, Slice(list, 1, 6));
      && (r.Success? <==> forall i :: 1 <= i < 6 ==> |list[i].weather| > 0)
      && (r.Success? ==>
            |r.value| == 5 && forall i :: 0 <= i < 5 ==> ParseEntry(list[i + 1]) == Success(r.value[i]))
  {
    var next := Slice(list, 1, 6);
    assert forall i :: 0 <= i < 5 ==> next[i] == list[i + 1];
  }

  /** The current weather is the same projection the forecast applies: when
      the whole list can be mapped, `parseCurrentWeather` gives the first
      element of that map. */
  lemma CurrentIsFirstProjection(current: Weather, list: seq<Entry>)
    requires |list| > 0
    ensures var all := BuildForecastArray(current, list);
      all.Success? ==> ParseCurrentWeather(Forecast(list)) == Success(all.value[0])
  {
  }

  /** The geocoding URL is its endpoint followed by the query
      `q=<city>&limit=1&appid=<key>`, with both texts inserted as they are. */
  lemma GeocodeQueryShape(city: string, apiKey: string)
    ensures BuildGeocodeQuery(city, apiKey) == BaseURL + "geo/1.0/direct" + "?"
              + Render([Param("q", city), Param("limit", "1"), Param("appid", apiKey)])
  {
    var ps := [Param("q", city), Param("limit", "1"), Param("appid", apiKey)];
    assert Render(ps[2..]) == "appid=" + apiKey;
    assert Render(ps[1..]) == "limit=1&appid=" + apiKey;
  }

  /** When neither the city nor the key contains `&` or `#`, the geocoding
      query splits into exactly three parameters: the city verbatim,
      `limit=1` and the key. */
  lemma GeocodeQueryParams(city: string, apiKey: string)
    requires QuerySafe(city) && QuerySafe(apiKey)
    ensures QueryParams(BuildGeocodeQuery(city, apiKey))
         == [Param("q", city), Param("limit", "1"), Param("appid", apiKey)]
  {
    var ps := [Param("q", city), Param("limit", "1"), Param("appid", apiKey)];
    var path := BaseURL + "geo/1.0/direct";
    assert QueryParams(path + "?" + Render(ps)) == ps by {
      assert '?' !in path;
      assert forall i :: 0 <= i < |ps| ==> PlainParam(ps[i]);
      QueryOfRendered(path, ps);
    }
    GeocodeQueryShape(city, apiKey);
  }

  /** The parameters the city "Paris&limit=5" turns the geocoding query into. */
  function InjectedParams(apiKey: string): seq<Param>
  {
    [Param("q", "Paris"), Param("limit", "5"), Param("limit", "1"), Param("appid", apiKey)]
  }

  lemma InjectedQueryShape(apiKey: string)
    ensures BuildGeocodeQuery("Paris&limit=5", apiKey)
         == BaseURL + "geo/1.0/direct" + "?" + Render(InjectedParams(apiKey))
  {
    var ps := InjectedParams(apiKey);
    var written := [Param("q", "Paris&limit=5"), Param("limit", "1"), Param("appid", apiKey)];
    GeocodeQueryShape("Paris&limit=5", apiKey);
    var tail := Render(ps[2..]);
    assert Render(written[1..]) == tail by {
      assert written[1..] == ps[2..];
    }
    assert Render(written) == "q=" + "Paris&limit=5" + "&" + tail;
    assert Render(ps[1..]) == "limit=" + "5" + "&" + tail;
    assert Render(ps) == "q=" + "Paris" + "&" + ("limit=" + "5" + "&" + tail);
    assert "q=" + "Paris&limit=5" == "q=" + "Paris" + "&" + "limit=" + "5";
  }

  /** Because the city is not percent-encoded, a city containing `&` adds
      parameters of its own: the city "Paris&limit=5" reaches the geocoder
      as `q=Paris`, then `limit=5` ahead of the code's own `limit=1`, then
      the key. A reader that takes the first occurrence of a name (as
      `URLSearchParams.get` does) sees the city "Paris" with a `limit` of 5. */
  lemma GeocodeQueryInjection(apiKey: string)
    requires QuerySafe(apiKey)
    ensures QueryParams(BuildGeocodeQuery("Paris&limit=5", apiKey)) == InjectedParams(apiKey)
    ensures var ps := QueryParams(BuildGeocodeQuery("Paris&limit=5", apiKey));
      Lookup(ps, "q") == Some("Paris") && Lookup(ps, "limit") == Some("5")
  {
    var ps := InjectedParams(apiKey);
    var path := BaseURL + "geo/1.0/direct";
    InjectedQueryShape(apiKey);
    assert QueryParams(path + "?" + Render(ps)) == ps by {
      assert '?' !in path;
      assert forall i :: 0 <= i < |ps| ==> PlainParam(ps[i]);
      QueryOfRendered(path, ps);
    }
    assert Lookup(ps[1..], "limit") == Some("5");
  }

  /** The forecast URL regrouped as `name=value` parts joined by `&`. */
  lemma WeatherQueryText(coordinates: Coordinates, apiKey: string)
    ensures BuildWeatherQuery(coordinates, apiKey) == BaseURL + "forecast" + "?"
              + ("lat" + "=" + coordinates.lat.repr + "&"
              + ("lon" + "=" + coordinates.lon.repr + "&"
              + ("appid" + "=" + apiKey + "&"
              + ("units" + "=" + "metric"))))
  {
  }

  /** The forecast URL is its endpoint followed by the query
      `lat=<lat>&lon=<lon>&appid=<key>&units=metric`. */
  lemma WeatherQueryShape(coordinates: Coordinates, apiKey: string)
    ensures BuildWeatherQuery(coordinates, apiKey) == BaseURL + "forecast" + "?"
              + Render([Param("lat", coordinates.lat.repr), Param("lon", coordinates.lon.repr),
                        Param("appid", apiKey), Param("units", "metric")])
  {
    var ps := [Param("lat", coordinates.lat.repr), Param("lon", coordinates.lon.repr),
               Param("appid", apiKey), Param("units", "metric")];
    assert Render(ps[3..]) == "units" + "=" + "metric";
    assert Render(ps[2..]) == "appid" + "=" + apiKey + "&" + Render(ps[3..]);
    assert Render(ps[1..]) == "lon" + "=" + coordinates.lon.repr + "&" + Render(ps[2..]);
    assert Render(ps) == "lat" + "=" + coordinates.lat.repr + "&" + Render(ps[1..]);
    WeatherQueryText(coordinates, apiKey);
  }

  /** The forecast URL carries the coordinates and the key verbatim, and
      asks for metric units. */
  lemma WeatherQueryParams(coordinates: Coordinates, apiKey: string)
    requires QuerySafe(coordinates.lat.repr) && QuerySafe(coordinates.lon.repr) && QuerySafe(apiKey)
    ensures QueryParams(BuildWeatherQuery(coordinates, apiKey))
         == [Param("lat", coordinates.lat.repr), Param("lon", coordinates.lon.repr),
             Param("appid", apiKey), Param("units", "metric")]
  {
    var ps := [Param("lat", coordinates.lat.repr), Param("lon", coordinates.lon.repr),
               Param("appid", apiKey), Param("units", "metric")];
    var path := BaseURL + "forecast";
    assert QueryParams(path + "?" + Render(ps)) == ps by {
      assert '?' !in path;
      assert forall i :: 0 <= i < |ps| ==> PlainParam(ps[i]);
      QueryOfRendered(path, ps);
    }
    WeatherQueryShape(coordinates, apiKey);
  }

  /** Different coordinates give different forecast URLs, so the forecast
      that is fetched is the one for the coordinates the geocoder gave. */
  lemma WeatherQueryInjective(a: Coordinates, b: Coordinates, apiKey: string)
    requires QuerySafe(a.lat.repr) && QuerySafe(a.lon.repr)
    requires QuerySafe(b.lat.repr) && QuerySafe(b.lon.repr)
    requires QuerySafe(apiKey)
    ensures BuildWeatherQuery(a, apiKey) == BuildWeatherQuery(b, apiKey) <==> a == b
  {
    if BuildWeatherQuery(a, apiKey) == BuildWeatherQuery(b, apiKey) {
      WeatherQueryParams(a, apiKey);
      WeatherQueryParams(b, apiKey);
      var pa := QueryParams(BuildWeatherQuery(a, apiKey));
      assert pa[0].value == a.lat.repr && pa[1].value == a.lon.repr;
    }
  }
}
