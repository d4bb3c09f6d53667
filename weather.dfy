/**
 * The WeatherXM client: normalising a weather record in which every field
 * takes the first truthy source or a fixed default, mapping station records,
 * and the fallbacks used when a request fails (simulated readings and stations
 * for current weather, forecasts and stations; an empty list for history).
 *
 * The HTTP reply is an input: `None` for a failed request, otherwise the
 * reply body. The clock reading and the `Math.random` draws are inputs too.
 */
module WeatherXM {
  import opened Wrappers
  import Js

  /** The location name: a value taken from the record, or the `Location <lat>, <lon>` label of simulated data. */
  datatype LocationName = Given(name: Js.Value) | CoordinatesLabel(latitude: real, longitude: real)

  datatype Location = Location(latitude: Js.Value, longitude: Js.Value, name: LocationName)

  /** A weather reading; `timestamp` is the value handed to the `Date` constructor. */
  datatype WeatherData = WeatherData(
    temperature: Js.Value,
    humidity: Js.Value,
    pressure: Js.Value,
    windSpeed: Js.Value,
    windDirection: Js.Value,
    precipitation: Js.Value,
    uvIndex: Js.Value,
    visibility: Js.Value,
    timestamp: Js.Value,
    location: Location)

  /** `data.<key>` on a record already known not to be nullish. */
  function Field(data: Js.Value, key: string): Js.Value {
    Js.OptMember(data, key)
  }

  /** `data.<outer>?.<inner>`. */
  function Nested(data: Js.Value, outer: string, inner: string): Js.Value {
    Js.OptMember(Js.OptMember(data, outer), inner)
  }

  /**
   * `formatWeatherData`: each field is the first truthy of its sources, else
   * its default; a nullish record throws (`None`) at the first property read.
   */
  function FormatWeatherData(data: Js.Value, now: real): (r: Option<WeatherData>)
    ensures r.None? <==> Js.Nullish(data)
    ensures r.Some? ==>
      && r.value.temperature == Js.FirstTruthy([Field(data, "temperature"), Field(data, "temp")], Js.Num(20.0))
      && r.value.humidity == Js.FirstTruthy([Field(data, "humidity")], Js.Num(50.0))
      && r.value.pressure == Js.FirstTruthy([Field(data, "pressure")], Js.Num(1013.0))
      && r.value.windSpeed == Js.FirstTruthy([Field(data, "windSpeed"), Nested(data, "wind", "speed")], Js.Num(5.0))
      && r.value.windDirection == Js.FirstTruthy([Field(data, "windDirection"), Nested(data, "wind", "direction")], Js.Num(180.0))
      && r.value.precipitation == Js.FirstTruthy([Field(data, "precipitation"), Field(data, "rain")], Js.Num(0.0))
      && r.value.uvIndex == Js.FirstTruthy([Field(data, "uvIndex"), Field(data, "uv")], Js.Num(5.0))
      && r.value.visibility == Js.FirstTruthy([Field(data, "visibility")], Js.Num(10.0))
      && r.value.timestamp == Js.FirstTruthy([Field(data, "timestamp")], Js.Num(now))
      && r.value.location.latitude == Js.FirstTruthy([Nested(data, "location", "lat"), Field(data, "lat")], Js.Num(0.0))
      && r.value.location.longitude == Js.FirstTruthy([Nested(data, "location", "lon"), Field(data, "lon")], Js.Num(0.0))
      && r.value.location.name == Given(Js.FirstTruthy([Nested(data, "location", "name")], Js.Str("Unknown Location")))
  {
    if Js.Nullish(data) then None
    else
      Js.OrChain(Field(data, "temperature"), Field(data, "temp"), Js.Num(20.0));
      Js.OrChain(Field(data, "windSpeed"), Nested(data, "wind", "speed"), Js.Num(5.0));
      Js.OrChain(Field(data, "windDirection"), Nested(data, "wind", "direction"), Js.Num(180.0));
      Js.OrChain(Field(data, "precipitation"), Field(data, "rain"), Js.Num(0.0));
      Js.OrChain(Field(data, "uvIndex"), Field(data, "uv"), Js.Num(5.0));
      Js.OrChain(Nested(data, "location", "lat"), Field(data, "lat"), Js.Num(0.0));
      Js.OrChain(Nested(data, "location", "lon"), Field(data, "lon"), Js.Num(0.0));
      assert [Field(data, "humidity")][1..] == [];
      Some(WeatherData(
        Js.Or(Js.Or(Field(data, "temperature"), Field(data, "temp")), Js.Num(20.0)),
        Js.Or(Field(data, "humidity"), Js.Num(50.0)),
        Js.Or(Field(data, "pressure"), Js.Num(1013.0)),
        Js.Or(Js.Or(Field(data, "windSpeed"), Nested(data, "wind", "speed")), Js.Num(5.0)),
        Js.Or(Js.Or(Field(data, "windDirection"), Nested(data, "wind", "direction")), Js.Num(180.0)),
        Js.Or(Js.Or(Field(data, "precipitation"), Field(data, "rain")), Js.Num(0.0)),
        Js.Or(Js.Or(Field(data, "uvIndex"), Field(data, "uv")), Js.Num(5.0)),
        Js.Or(Field(data, "visibility"), Js.Num(10.0)),
        Js.Or(Field(data, "timestamp"), Js.Num(now)),
        Location(
          Js.Or(Js.Or(Nested(data, "location", "lat"), Field(data, "lat")), Js.Num(0.0)),
          Js.Or(Js.Or(Nested(data, "location", "lon"), Field(data, "lon")), Js.Num(0.0)),
          Given(Js.Or(Nested(data, "location", "name"), Js.Str("Unknown Location"))))))
  }

  /** A reported humidity of 0 is falsy and so reads as the default 50. */
  lemma ZeroHumidityBecomesDefault(props: map<string, Js.Value>, now: real)
    requires "humidity" in props && props["humidity"] == Js.Num(0.0)
    ensures FormatWeatherData(Js.Obj(props), now).Some?
    ensures FormatWeatherData(Js.Obj(props), now).value.humidity == Js.Num(50.0)
  {
  }

  /**
   * Every field but precipitation and the coordinates has a truthy default, so
   * it is always truthy; those three may come out as 0.
   */
  lemma FormattedFieldsTruthy(data: Js.Value, now: real)
    requires !Js.Nullish(data)
    ensures var w := FormatWeatherData(data, now).value;
      Js.Truthy(w.temperature) && Js.Truthy(w.humidity) && Js.Truthy(w.pressure) &&
      Js.Truthy(w.windSpeed) && Js.Truthy(w.windDirection) && Js.Truthy(w.uvIndex) &&
      Js.Truthy(w.visibility) && Js.Truthy(w.location.name.name)
  {
  }

  /** A source that is absent or a number. */
  predicate NumOrMissing(v: Js.Value) {
    v.Num? || v.Undefined?
  }

  /** When every source present is a number, every numeric field comes out a number. */
  lemma NumericSourcesGiveNumbers(data: Js.Value, now: real)
    requires !Js.Nullish(data)
    requires NumOrMissing(Field(data, "temperature")) && NumOrMissing(Field(data, "temp"))
    requires NumOrMissing(Field(data, "humidity")) && NumOrMissing(Field(data, "pressure"))
    requires NumOrMissing(Field(data, "windSpeed")) && NumOrMissing(Nested(data, "wind", "speed"))
    requires NumOrMissing(Field(data, "windDirection")) && NumOrMissing(Nested(data, "wind", "direction"))
    requires NumOrMissing(Field(data, "precipitation")) && NumOrMissing(Field(data, "rain"))
    requires NumOrMissing(Field(data, "uvIndex")) && NumOrMissing(Field(data, "uv"))
    requires NumOrMissing(Field(data, "visibility"))
    ensures var w := FormatWeatherData(data, now).value;
      w.temperature.Num? && w.humidity.Num? && w.pressure.Num? && w.windSpeed.Num? &&
      w.windDirection.Num? && w.precipitation.Num? && w.uvIndex.Num? && w.visibility.Num?
  {
  }

  // ------------------------------------------------------------- stations

  datatype WeatherStation = WeatherStation(
    id: Js.Value,
    name: Js.Value,
    latitude: Js.Value,
    longitude: Js.Value,
    elevation: Js.Value,
    isActive: bool,
    lastUpdate: Js.Value)

  /**
   * The station mapping of `getNearbyStations`: a nullish station, or one
   * without coordinates, throws; a station is active exactly when its status
   * is the string `active`.
   */
  function StationFromJson(station: Js.Value): (r: Option<WeatherStation>)
    ensures r.None? <==> Js.Nullish(station) || Js.Nullish(Field(station, "coordinates"))
    ensures r.Some? ==> (r.value.isActive <==> Field(station, "status") == Js.Str("active"))
    ensures r.Some? ==> r.value.latitude == Nested(station, "coordinates", "lat") &&
                        r.value.longitude == Nested(station, "coordinates", "lon")
    ensures r.Some? ==> r.value.id == Field(station, "id") && r.value.name == Field(station, "name")
    ensures r.Some? ==> r.value.elevation == Field(station, "elevation") &&
                        r.value.lastUpdate == Field(station, "lastUpdate")
  {
    match Js.Member(station, "coordinates")
    case None => None
    case Some(coordinates) =>
      match Js.Member(coordinates, "lat")
      case None => None
      case Some(lat) =>
        Some(WeatherStation(
          Field(station, "id"),
          Field(station, "name"),
          lat,
          Field(coordinates, "lon"),
          Field(station, "elevation"),
          Field(station, "status") == Js.Str("active"),
          Field(station, "lastUpdate")))
  }

  /** The draws one simulated station takes, in the order the source makes them. */
  datatype StationDraw = StationDraw(latitude: Js.Random, longitude: Js.Random, elevation: Js.Random,
                                     active: Js.Random, age: Js.Random)

  function MockStation(i: nat, latitude: real, longitude: real, now: real, d: StationDraw): (s: WeatherStation)
    ensures s.id == Js.Str("station_" + Js.NatToString(i + 1))
    ensures s.latitude.Num? && latitude - 0.05 <= s.latitude.n < latitude + 0.05
    ensures s.longitude.Num? && longitude - 0.05 <= s.longitude.n < longitude + 0.05
    ensures s.elevation.Num? && 0.0 <= s.elevation.n < 1000.0
    ensures s.lastUpdate.Num? && now - 3600000.0 < s.lastUpdate.n <= now
  {
    WeatherStation(
      Js.Str("station_" + Js.NatToString(i + 1)),
      Js.Str("Weather Station " + Js.NatToString(i + 1)),
      Js.Num(latitude + (d.latitude - 0.5) * 0.1),
      Js.Num(longitude + (d.longitude - 0.5) * 0.1),
      Js.Num(d.elevation * 1000.0),
      d.active > 0.2,
      Js.Num(now - d.age * 3600000.0))
  }

  /** `getMockStations`: five simulated stations around the point, numbered from 1. */
  function MockStations(latitude: real, longitude: real, now: real, draws: nat -> StationDraw): (r: seq<WeatherStation>)
    ensures |r| == 5
    ensures forall i :: 0 <= i < 5 ==> r[i] == MockStation(i, latitude, longitude, now, draws(i))
  {
    seq(5, i requires 0 <= i => MockStation(i, latitude, longitude, now, draws(i)))
  }

  /** The simulated stations carry five different ids. */
  lemma MockStationIdsDistinct(latitude: real, longitude: real, now: real, draws: nat -> StationDraw)
    ensures forall i, j :: 0 <= i < j < 5 ==>
              MockStations(latitude, longitude, now, draws)[i].id != MockStations(latitude, longitude, now, draws)[j].id
  {
    var r := MockStations(latitude, longitude, now, draws);
    forall i, j | 0 <= i < j < 5 ensures r[i].id != r[j].id {
      var p := "station_";
      var a := Js.NatToString(i + 1);
      var b := Js.NatToString(j + 1);
      if p + a == p + b {
        assert a == (p + a)[|p|..];
        assert b == (p + b)[|p|..];
        Js.NatToStringRoundTrip(i + 1);
        Js.NatToStringRoundTrip(j + 1);
      }
    }
  }

  /**
   * `getNearbyStations`: the mapped station list, in reply order; a failed
   * request, a body that is not a list, or a station that cannot be mapped
   * gives the simulated stations instead.
   */
  function GetNearbyStations(reply: Option<Js.Value>, latitude: real, longitude: real, now: real,
                             draws: nat -> StationDraw): (r: seq<WeatherStation>)
    ensures reply.Some? && reply.value.Arr? && Js.MapItems(reply.value.items, StationFromJson).Some? ==>
              |r| == |reply.value.items| &&
              forall i :: 0 <= i < |r| ==> StationFromJson(reply.value.items[i]) == Some(r[i])
    ensures !(reply.Some? && reply.value.Arr? && Js.MapItems(reply.value.items, StationFromJson).Some?) ==>
              r == MockStations(latitude, longitude, now, draws)
  {
    match reply
    case Some(Arr(items)) =>
      (match Js.MapItems(items, StationFromJson)
       case Some(stations) => stations
       case None => MockStations(latitude, longitude, now, draws))
    case _ => MockStations(latitude, longitude, now, draws)
  }

  /** A station list that maps cleanly comes back whole; one bad station discards the reply. */
  lemma OneBadStationFallsBack(items: seq<Js.Value>, k: nat, latitude: real, longitude: real, now: real,
                               draws: nat -> StationDraw)
    requires k < |items| && Js.Nullish(items[k])
    ensures GetNearbyStations(Some(Js.Arr(items)), latitude, longitude, now, draws) == MockStations(latitude, longitude, now, draws)
  {
    assert StationFromJson(items[k]).None?;
  }

  // ---------------------------------------------------------- weather data

  /** The eight draws one simulated reading takes, in field order. */
  datatype WeatherDraw = WeatherDraw(temperature: Js.Random, humidity: Js.Random, pressure: Js.Random,
                                     windSpeed: Js.Random, windDirection: Js.Random, precipitation: Js.Random,
                                     uvIndex: Js.Random, visibility: Js.Random)

  predicate InRange(v: Js.Value, lo: real, hi: real) {
    v.Num? && lo <= v.n < hi
  }

  /** `getMockWeatherData`: each reading uniform in its range, at the given point and date. */
  function MockWeatherData(latitude: real, longitude: real, date: real, d: WeatherDraw): (w: WeatherData)
    ensures InRange(w.temperature, 20.0, 35.0) && InRange(w.humidity, 40.0, 80.0)
    ensures InRange(w.pressure, 1000.0, 1050.0) && InRange(w.windSpeed, 0.0, 20.0)
    ensures InRange(w.windDirection, 0.0, 360.0) && InRange(w.precipitation, 0.0, 10.0)
    ensures InRange(w.uvIndex, 0.0, 11.0) && InRange(w.visibility, 5.0, 20.0)
    ensures w.timestamp == Js.Num(date)
    ensures w.location == Location(Js.Num(latitude), Js.Num(longitude), CoordinatesLabel(latitude, longitude))
  {
    WeatherData(
      Js.Num(20.0 + d.temperature * 15.0),
      Js.Num(40.0 + d.humidity * 40.0),
      Js.Num(1000.0 + d.pressure * 50.0),
      Js.Num(d.windSpeed * 20.0),
      Js.Num(d.windDirection * 360.0),
      Js.Num(d.precipitation * 10.0),
      Js.Num(d.uvIndex * 11.0),
      Js.Num(5.0 + d.visibility * 15.0),
      Js.Num(date),
      Location(Js.Num(latitude), Js.Num(longitude), CoordinatesLabel(latitude, longitude)))
  }

  /** `getCurrentWeather`: the formatted reply, or a simulated reading for now when the request or formatting fails. */
  function GetCurrentWeather(reply: Option<Js.Value>, latitude: real, longitude: real, now: real, draw: WeatherDraw): (w: WeatherData)
    ensures reply.Some? && !Js.Nullish(reply.value) ==> Some(w) == FormatWeatherData(reply.value, now)
    ensures reply.None? || Js.Nullish(reply.value) ==> w == MockWeatherData(latitude, longitude, now, draw)
  {
    match reply
    case None => MockWeatherData(latitude, longitude, now, draw)
    case Some(data) =>
      match FormatWeatherData(data, now)
      case Some(w) => w
      case None => MockWeatherData(latitude, longitude, now, draw)
  }

  const DayMs: real := 86400000.0
  const DefaultForecastDays: int := 7

  /** `Array.from({ length: days }, ...)`: a negative length gives an empty list. */
  function ForecastLength(days: int): nat {
    if days < 0 then 0 else days
  }

  /** The forecast fallback: one simulated reading per day, starting now. */
  function ForecastFallback(latitude: real, longitude: real, days: int, now: real, draws: nat -> WeatherDraw): (r: seq<WeatherData>)
    ensures |r| == ForecastLength(days)
    ensures forall i :: 0 <= i < |r| ==> r[i] == MockWeatherData(latitude, longitude, now + i as real * DayMs, draws(i))
  {
    seq(ForecastLength(days), i requires 0 <= i => MockWeatherData(latitude, longitude, now + i as real * DayMs, draws(i)))
  }

  /** Consecutive fallback readings are exactly one day apart, and the first is now. */
  lemma ForecastFallbackDaily(latitude: real, longitude: real, days: int, now: real, draws: nat -> WeatherDraw)
    ensures var r := ForecastFallback(latitude, longitude, days, now, draws);
      (|r| > 0 ==> r[0].timestamp == Js.Num(now)) &&
      forall i :: 0 <= i < |r| - 1 ==> r[i + 1].timestamp.n == r[i].timestamp.n + DayMs
  {
  }

  /**
   * `response.data.map(formatWeatherData)`: a list of the same length, item by
   * item; it throws (`None`) when the request failed, the body is not a list
   * or one of its items is nullish.
   */
  function FormatAll(reply: Option<Js.Value>, now: real): (r: Option<seq<WeatherData>>)
    ensures r.Some? ==> reply.Some? && reply.value.Arr?
    ensures reply.Some? && reply.value.Arr? ==>
              (r.Some? <==> forall i :: 0 <= i < |reply.value.items| ==> !Js.Nullish(reply.value.items[i]))
    ensures r.Some? ==> |r.value| == |reply.value.items|
    ensures r.Some? ==> forall i :: 0 <= i < |r.value| ==> FormatWeatherData(reply.value.items[i], now) == Some(r.value[i])
  {
    match reply
    case Some(Arr(items)) =>
      var f := (item: Js.Value) => FormatWeatherData(item, now);
      assert forall i :: 0 <= i < |items| ==> (f(items[i]).None? <==> Js.Nullish(items[i]));
      Js.MapItems(items, f)
    case _ => None
  }

  /**
   * Called without `days`, a failed forecast is a week of simulated readings,
   * the first now and the last six days later.
   */
  lemma DefaultForecastIsAWeek(reply: Option<Js.Value>, latitude: real, longitude: real, now: real,
                               draws: nat -> WeatherDraw)
    requires FormatAll(reply, now).None?
    ensures var r := GetWeatherForecast(reply, latitude, longitude, DefaultForecastDays, now, draws);
      |r| == 7 && r[0].timestamp == Js.Num(now) && r[6].timestamp == Js.Num(now + 6.0 * DayMs)
  {
    ForecastFallbackDaily(latitude, longitude, DefaultForecastDays, now, draws);
  }

  /**
   * `getWeatherForecast`: the formatted reply list; on any failure (the
   * request, a body that is not a list, a nullish item) the daily simulated readings.
   */
  function GetWeatherForecast(reply: Option<Js.Value>, latitude: real, longitude: real, days: int, now: real,
                              draws: nat -> WeatherDraw): (r: seq<WeatherData>)
    ensures FormatAll(reply, now).Some? ==> r == FormatAll(reply, now).value
    ensures FormatAll(reply, now).None? ==> r == ForecastFallback(latitude, longitude, days, now, draws)
    ensures FormatAll(reply, now).None? ==> |r| == ForecastLength(days)
  {
    match FormatAll(reply, now)
    case Some(list) => list
    case None => ForecastFallback(latitude, longitude, days, now, draws)
  }

  /** `getHistoricalWeather`: the formatted reply list, or no readings at all on any failure. */
  function GetHistoricalWeather(reply: Option<Js.Value>, now: real): (r: seq<WeatherData>)
    ensures FormatAll(reply, now).Some? ==> r == FormatAll(reply, now).value
    ensures FormatAll(reply, now).None? ==> r == []
  {
    match FormatAll(reply, now)
    case Some(list) => list
    case None => []
  }

  /** A failed request for history gives an empty list, whatever else is asked. */
  lemma FailedHistoryIsEmpty(now: real)
    ensures GetHistoricalWeather(None, now) == []
  {
  }
}
