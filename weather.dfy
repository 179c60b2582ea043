/**
 * scripts/apis/weather.js: the OpenWeatherMap fetch fallback, the simulator
 * and the projection of a response onto the fields the globe shows.
 */
module Weather {
  import opened Prelude
  import FallbackData

  datatype MainBlock = MainBlock(temp: JsNumber, humidity: JsNumber, pressure: JsNumber, feelsLike: JsNumber)

  datatype WindBlock = WindBlock(speed: JsNumber, deg: JsNumber)

  /**
   * What `fetchWeatherData` can hand back: a JSON object whose `main`,
   * `wind` and `weather` members may be absent (each `weather` entry's
   * `description` may be absent too), a fake reading, or JSON `null`.
   */
  datatype WeatherPayload =
    | WeatherJson(main: Option<MainBlock>, wind: Option<WindBlock>, weather: Option<seq<Option<string>>>)
    | FakeReading(reading: FallbackData.Reading)
    | JsonNull

  /** `if (weatherData)`: every object is truthy, `null` is not. */
  predicate Truthy(p: WeatherPayload)
  {
    !p.JsonNull?
  }

  /** The request's outcome: any failure, or the parsed body. */
  datatype WeatherFetch = WeatherFailed | WeatherOk(body: WeatherPayload)

  /** fetchWeatherData. It never throws: a failure yields a fake temperature reading. */
  function FetchWeatherData(lat: real, lon: real, outcome: WeatherFetch, d: Draw): (r: WeatherPayload)
    ensures outcome.WeatherFailed? ==> r == FakeReading(FallbackData.GenerateRealisticFakeData(lat, lon, Temperature, d))
    ensures outcome.WeatherOk? ==> r == outcome.body
  {
    match outcome
    case WeatherFailed => FakeReading(FallbackData.GenerateRealisticFakeData(lat, lon, Temperature, d))
    case WeatherOk(body) => body
  }

  /** The processed record; `lastUpdate` is the current time. */
  datatype WeatherSummary = WeatherSummary(
    temperature: JsNumber, humidity: JsNumber, pressure: JsNumber,
    windSpeed: JsNumber, windDirection: JsNumber, description: Option<string>, lastUpdate: string)

  /**
   * processWeatherData. It throws (None) unless the payload has `main`,
   * `wind` and a non-empty `weather` list; otherwise every field is copied
   * unchanged.
   */
  function ProcessWeatherData(p: WeatherPayload, now: string): (r: Option<WeatherSummary>)
    ensures r.Some? <==> p.WeatherJson? && p.main.Some? && p.wind.Some? && p.weather.Some? && |p.weather.value| > 0
    ensures r.Some? ==>
      r.value.temperature == p.main.value.temp && r.value.humidity == p.main.value.humidity &&
      r.value.pressure == p.main.value.pressure && r.value.windSpeed == p.wind.value.speed &&
      r.value.windDirection == p.wind.value.deg && r.value.description == p.weather.value[0] &&
      r.value.lastUpdate == now
  {
    match p
    case WeatherJson(main, wind, weather) =>
      if main.None? || wind.None? || weather.None? || |weather.value| == 0 then None
      else Some(WeatherSummary(main.value.temp, main.value.humidity, main.value.pressure,
        wind.value.speed, wind.value.deg, weather.value[0], now))
    case _ => None
  }

  /**
   * The fallback of a failed fetch is truthy, yet it has no `main` member,
   * so processing it throws.
   */
  lemma FailedFetchCannotBeProcessed(lat: real, lon: real, d: Draw, now: string)
    ensures Truthy(FetchWeatherData(lat, lon, WeatherFailed, d))
    ensures ProcessWeatherData(FetchWeatherData(lat, lon, WeatherFailed, d), now) == None
  {
  }

  /** The simulator's base temperature, by latitude band. */
  function BaseTemperature(lat: real): (t: real)
    ensures lat > 60.0 || lat < -60.0 ==> t == -10.0
    ensures -60.0 <= lat <= 60.0 && (lat > 30.0 || lat < -30.0) ==> t == 15.0
    ensures -30.0 <= lat <= 30.0 ==> t == 28.0
  {
    if lat > 60.0 || lat < -60.0 then -10.0
    else if lat > 30.0 || lat < -30.0 then 15.0
    else 28.0
  }

  /**
   * The Math.random() draws of one call, in call order. The first humidity
   * draw is always taken; a polar point or |lon| < 30 takes a second one.
   */
  datatype WeatherDraws = WeatherDraws(
    temp: Draw, humidity: Draw, humidityRedraw: Draw, pressure: Draw, feelsLike: Draw, windSpeed: Draw, windDeg: Draw)

  /** The unrounded humidity. */
  function SimulatedHumidity(lat: real, lon: real, ds: WeatherDraws): real
  {
    if lat > 60.0 || lat < -60.0 then 30.0 + ds.humidityRedraw * 20.0
    else if Abs(lon) < 30.0 then 60.0 + ds.humidityRedraw * 25.0
    else 50.0 + ds.humidity * 30.0
  }

  /** generateSimulatedWeatherData, as the payload it is fed to processWeatherData as. */
  function GenerateSimulatedWeatherData(lat: real, lon: real, ds: WeatherDraws): (p: WeatherPayload)
    ensures p.WeatherJson? && p.main.Some? && p.wind.Some? && p.weather == Some([Some("clear sky")])
    ensures p.main.value.temp == Num(RoundTo1(BaseTemperature(lat) + (ds.temp - 0.5) * 10.0))
    ensures p.main.value.humidity == Num(Round(SimulatedHumidity(lat, lon, ds)) as real)
    ensures p.main.value.pressure == Num(1013.0 + ds.pressure * 20.0)
    ensures p.main.value.feelsLike == Num(p.main.value.temp.v + (ds.feelsLike - 0.5) * 3.0)
    ensures p.wind.value == WindBlock(Num(ds.windSpeed * 10.0), Num(ds.windDeg * 360.0))
  {
    var temperature := RoundTo1(BaseTemperature(lat) + (ds.temp - 0.5) * 10.0);
    WeatherJson(
      Some(MainBlock(Num(temperature), Num(Round(SimulatedHumidity(lat, lon, ds)) as real),
        Num(1013.0 + ds.pressure * 20.0), Num(temperature + (ds.feelsLike - 0.5) * 3.0))),
      Some(WindBlock(Num(ds.windSpeed * 10.0), Num(ds.windDeg * 360.0))),
      Some([Some("clear sky")]))
  }

  /**
   * The simulated temperature lies within five degrees of its base (plus
   * the rounding), and the humidity in its band: [30, 50] near the poles,
   * else [60, 85] when |lon| < 30, else [50, 80].
   */
  lemma SimulatedWeatherRanges(lat: real, lon: real, ds: WeatherDraws)
    ensures var t := GenerateSimulatedWeatherData(lat, lon, ds).main.value.temp.v;
      BaseTemperature(lat) - 5.05 < t < BaseTemperature(lat) + 5.05
    ensures var h := GenerateSimulatedWeatherData(lat, lon, ds).main.value.humidity.v;
      if lat > 60.0 || lat < -60.0 then 30.0 <= h <= 50.0
      else if Abs(lon) < 30.0 then 60.0 <= h <= 85.0
      else 50.0 <= h <= 80.0
  {
    var h := SimulatedHumidity(lat, lon, ds);
    var n := Round(h);
    if lat > 60.0 || lat < -60.0 {
      assert 30.0 <= h < 50.0;
    } else if Abs(lon) < 30.0 {
      assert 60.0 <= h < 85.0;
    } else {
      assert 50.0 <= h < 80.0;
    }
  }

  /** Processing a simulated payload gives back its own values and 'clear sky'. */
  lemma ProcessSimulatedWeather(lat: real, lon: real, ds: WeatherDraws, now: string)
    ensures var p := GenerateSimulatedWeatherData(lat, lon, ds);
      ProcessWeatherData(p, now) == Some(WeatherSummary(p.main.value.temp, p.main.value.humidity,
        p.main.value.pressure, p.wind.value.speed, p.wind.value.deg, Some("clear sky"), now))
  {
  }
}
