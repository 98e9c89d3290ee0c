/** The `/api/weather` router. It keeps its own search-history file
    (`routes/data/searchHistory.json`, which is not the file of
    `HistoryService`) and calls the provider directly instead of going
    through `WeatherService`. Each request is one sequential step over the
    router's file; the network is an input. */
module WeatherRoutes {
  import opened Runtime
  import opened Provider
  import opened UrlQuery
  import WeatherService

  /** A history record as the router writes it: the id is a number. */
  datatype SearchRecord = SearchRecord(id: int, city: string)

  datatype Body =
    | ErrorBody(error: string)
    | HistoryBody(history: seq<SearchRecord>)
    | ForwardedBody(doc: Doc)

  datatype Response = Response(status: int, body: Body)

  const CityRequired := "City name is required."
  const CityNotFoundMessage := "City not found."
  const RetrieveFailed := "Failed to retrieve weather data."
  const ReadFailed := "Failed to read search history."

  /** The geocoding URL the POST handler requests. */
  function GeocodeUrl(city: string, apiKey: string): string
  {
    "http://api.openweathermap.org/geo/1.0/direct?q=" + city + "&limit=1&appid=" + apiKey
  }

  /** The forecast URL the POST handler requests. */
  function WeatherUrl(lat: Num, lon: Num, apiKey: string): string
  {
    "https://api.openweathermap.org/data/2.5/forecast?lat=" + lat.repr + "&lon=" + lon.repr
      + "&appid=" + apiKey + "&units=metric"
  }

  /** JavaScript truthiness of the `city` field of the request body: an
      absent field and the empty string are falsy. */
  predicate Truthy(city: Option<string>)
  {
    city.Some? && city.value != ""
  }

  /** Ids 1, 2, ... in order, as the router's own appends produce. */
  ghost predicate SequentialIds(history: seq<SearchRecord>)
  {
    forall i :: 0 <= i < |history| ==> history[i].id == i + 1
  }

  class Router {
    /** The router's search-history file. */
    var historyFile: StoredFile<SearchRecord>

    constructor (initial: StoredFile<SearchRecord>)
      ensures historyFile == initial
    {
      historyFile := initial;
    }

    /** `readSearchHistory`: an absent file reads as the empty array; a
        file that is not JSON makes `JSON.parse` throw. */
    method ReadSearchHistory() returns (r: Result<seq<SearchRecord>>)
      ensures historyFile.Missing? ==> r == Success([])
      ensures historyFile.Json? ==> r == Success(historyFile.records)
      ensures historyFile.Malformed? ==> r == Failure(SyntaxError)
    {
      if historyFile.Missing? {
        return Success([]);
      }
      if historyFile.Malformed? {
        return Failure(SyntaxError);
      }
      return Success(historyFile.records);
    }

    /** `writeSearchHistory`: the whole array replaces the file. */
    method WriteSearchHistory(history: seq<SearchRecord>)
      modifies this
      ensures historyFile == Json(history)
    {
      historyFile := Json(history);
    }

    /** `GET /history`: the stored records as they are, or 500 when the
        file cannot be read. */
    method GetHistory() returns (res: Response)
      ensures historyFile.Missing? ==> res == Response(200, HistoryBody([]))
      ensures historyFile.Json? ==> res == Response(200, HistoryBody(historyFile.records))
      ensures historyFile.Malformed? ==> res == Response(500, ErrorBody(ReadFailed))
    {
      var history := ReadSearchHistory();
      if history.Failure? {
        return Response(500, ErrorBody(ReadFailed));
      }
      return Response(200, HistoryBody(history.value));
    }

    /** `POST /`: a falsy city is refused with 400 before the history is
        touched. Otherwise the city is appended to the history BEFORE the
        geocoder is asked, so it stays there whatever follows: 404 when the
        geocoder finds nothing, the provider's forecast document as it is
        (200) for the first match's coordinates, and 500 for every failure. */
    method PostWeather(city: Option<string>, net: Network, apiKey: string) returns (res: Response)
      modifies this
      ensures res.status == 200 || res.status == 400 || res.status == 404 || res.status == 500
      ensures !Truthy(city) ==>
        res == Response(400, ErrorBody(CityRequired)) && historyFile == old(historyFile)
      ensures Truthy(city) && old(historyFile).Malformed? ==>
        res == Response(500, ErrorBody(RetrieveFailed)) && historyFile == old(historyFile)
      ensures Truthy(city) && !old(historyFile).Malformed? ==>
        var before := old(historyFile).Contents();
        historyFile == Json(before + [SearchRecord(|before| + 1, city.value)])
      ensures Truthy(city) && !old(historyFile).Malformed? ==>
        var geo := net.get(GeocodeUrl(city.value, apiKey));
        && (geo.Unavailable? ==> res == Response(500, ErrorBody(RetrieveFailed)))
        && (geo == Received(GeoArray([])) ==> res == Response(404, ErrorBody(CityNotFoundMessage)))
        && (geo.Received? && !geo.doc.GeoArray? ==> res == Response(500, ErrorBody(RetrieveFailed)))
        && (WeatherService.HasMatch(geo) ==>
              var place := geo.doc.places[0];
              var forecast := net.get(WeatherUrl(place.lat, place.lon, apiKey));
              res == if forecast.Received? then Response(200, ForwardedBody(forecast.doc))
                     else Response(500, ErrorBody(RetrieveFailed)))
      ensures res.status == 404 ==>
        && !old(historyFile).Malformed?
        && historyFile.Json?
        && |historyFile.records| == |old(historyFile).Contents()| + 1
      ensures !old(historyFile).Malformed? && SequentialIds(old(historyFile).Contents()) ==>
        !historyFile.Malformed? && SequentialIds(historyFile.Contents())
    {
      if !Truthy(city) {
        return Response(400, ErrorBody(CityRequired));
      }
      var name := city.value;

      var loaded := ReadSearchHistory();
      if loaded.Failure? {
        return Response(500, ErrorBody(RetrieveFailed));
      }
      var history := loaded.value;
      var newCity := SearchRecord(|history| + 1, name);
      history := history + [newCity];
      WriteSearchHistory(history);

      var geoResponse := net.get(GeocodeUrl(name, apiKey));
      if geoResponse.Unavailable? {
        return Response(500, ErrorBody(RetrieveFailed));
      }
      var geoData := geoResponse.doc;
      if geoData.GeoArray? && |geoData.places| == 0 {
        return Response(404, ErrorBody(CityNotFoundMessage));
      }
      if !geoData.GeoArray? {
        // `geoData[0]` is undefined and destructuring it throws
        return Response(500, ErrorBody(RetrieveFailed));
      }
      var place := geoData.places[0];
      var weatherResponse := net.get(WeatherUrl(place.lat, place.lon, apiKey));
      if weatherResponse.Unavailable? {
        return Response(500, ErrorBody(RetrieveFailed));
      }
      return Response(200, ForwardedBody(weatherResponse.doc));
    }
  }

  // -----------------------------------------------------------------------
  // The router's URLs against the weather service's
  // -----------------------------------------------------------------------

  /** The router asks for the same forecast URL the weather service builds. */
  lemma WeatherUrlMatchesService(lat: Num, lon: Num, apiKey: string)
    ensures WeatherUrl(lat, lon, apiKey)
         == WeatherService.BuildWeatherQuery(WeatherService.Coordinates(lat, lon), apiKey)
  {
  }

  /** The router's geocoding URL is its endpoint followed by the query
      `q=<city>&limit=1&appid=<key>`. */
  lemma GeocodeUrlShape(city: string, apiKey: string)
    ensures GeocodeUrl(city, apiKey) == "http://api.openweathermap.org/geo/1.0/direct" + "?"
              + Render([Param("q", city), Param("limit", "1"), Param("appid", apiKey)])
  {
    var ps := [Param("q", city), Param("limit", "1"), Param("appid", apiKey)];
    assert Render(ps[2..]) == "appid=" + apiKey;
    assert Render(ps[1..]) == "limit=1&appid=" + apiKey;
  }

  /** The router's geocoding URL carries the same query as the weather
      service's: the city verbatim, `limit=1` and the key. */
  lemma GeocodeUrlParams(city: string, apiKey: string)
    requires QuerySafe(city) && QuerySafe(apiKey)
    ensures QueryParams(GeocodeUrl(city, apiKey))
         == [Param("q", city), Param("limit", "1"), Param("appid", apiKey)]
  {
    var ps := [Param("q", city), Param("limit", "1"), Param("appid", apiKey)];
    var path := "http://api.openweathermap.org/geo/1.0/direct";
    assert QueryParams(path + "?" + Render(ps)) == ps by {
      assert '?' !in path;
      assert forall i :: 0 <= i < |ps| ==> PlainParam(ps[i]);
      QueryOfRendered(path, ps);
    }
    GeocodeUrlShape(city, apiKey);
  }

  /** ...but not to the same endpoint: the weather service puts the
      geocoding path under its `data/2.5/` base over https, the router
      uses `http://api.openweathermap.org/geo/1.0/direct`. */
  lemma GeocodeUrlDiffersFromService(city: string, apiKey: string)
    ensures GeocodeUrl(city, apiKey) != WeatherService.BuildGeocodeQuery(city, apiKey)
  {
  }
}
