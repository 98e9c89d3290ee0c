/** The OpenWeather endpoints as the core sees them. HTTP is not modelled:
    the network is a function from a request URL to the reply that request
    gets, so every outbound call is an input of the model and the URL the
    core builds decides which reply it sees. */
module Provider {
  import opened Runtime

  /** One match of the geocoding endpoint (`geo/1.0/direct`). */
  datatype Place = Place(name: string, lat: Num, lon: Num, country: string)

  /** One entry of the forecast endpoint's `list` (a 3-hour step). */
  datatype MainBlock = MainBlock(temp: Num, humidity: Num)
  datatype WindBlock = WindBlock(speed: Num)
  datatype Condition = Condition(description: string, icon: string)
  datatype Entry = Entry(main: MainBlock, wind: WindBlock, weather: seq<Condition>)

  /** The JSON document of a reply: the geocoder's array of matches, a
      forecast object with its `list`, or any other object (the provider's
      `{ cod, message }` error documents). */
  datatype Doc = GeoArray(places: seq<Place>) | Forecast(list: seq<Entry>) | OtherObject

  /** What `await fetch(url)` followed by `await response.json()` yields:
      a document, or a rejection (no connection, a body that is not JSON). */
  datatype Reply = Unavailable | Received(doc: Doc)

  /** The replies every URL would get. */
  datatype Network = Network(get: string -> Reply)
}
