/**
 * scripts/ui/data-display.js: what a point's label shows (fake reading,
 * then real reading, then a synthesized value), its quality badge, and the
 * global climate panel.
 */
module DataDisplay {
  import opened Prelude
  import FallbackData
  import AirQuality
  import Weather
  import NasaTempo
  import DataPoints
  import opened Scene

  /** The object getRealDataForPoint builds; its `hasRealData` flag is always true. */
  datatype RealData = RealData(airQuality: Option<AirQuality.AirQualitySummary>, weather: Option<Weather.WeatherSummary>)

  /** getRealDataForPoint: present iff the point has real air quality or real weather. */
  function GetRealDataForPoint(u: PointData): (r: Option<RealData>)
    ensures r.Some? <==> u.realAirQuality.Some? || u.realWeather.Some?
    ensures r.Some? ==> r.value.airQuality == u.realAirQuality && r.value.weather == u.realWeather
  {
    if u.realAirQuality.Some? || u.realWeather.Some? then Some(RealData(u.realAirQuality, u.realWeather)) else None
  }

  /** An optional air-quality field as a shown reading. */
  function AirField(m: Metric, field: Option<real>): Shown
  {
    if field.Some? then RealVal(m, Num(field.value)) else Unavailable
  }

  /**
   * getRealDisplayValue. 'co2' shows the carbon-monoxide field `co`, 'ozone'
   * the `o3` field; the weather metrics show the weather summary's field.
   * A missing source object or a null field gives 'Dados não disponíveis'.
   */
  function GetRealDisplayValue(m: Metric, rd: RealData): (r: Shown)
    ensures r.RealVal? || r == Unavailable
    ensures m == CO2 ==> (r.RealVal? <==> rd.airQuality.Some? && rd.airQuality.value.co.Some?)
    ensures m == CO2 && r.RealVal? ==> r == RealVal(CO2, Num(rd.airQuality.value.co.value))
    ensures m == Ozone ==> (r.RealVal? <==> rd.airQuality.Some? && rd.airQuality.value.o3.Some?)
    ensures m == Ozone && r.RealVal? ==> r == RealVal(Ozone, Num(rd.airQuality.value.o3.value))
    ensures m in {Temperature, Humidity, Pressure} ==> (r.RealVal? <==> rd.weather.Some?)
    ensures m == Temperature && r.RealVal? ==> r.reading == rd.weather.value.temperature
    ensures m == Humidity && r.RealVal? ==> r.reading == rd.weather.value.humidity
    ensures m == Pressure && r.RealVal? ==> r.reading == rd.weather.value.pressure
    ensures m == OtherMetric ==> r == Unavailable
  {
    match m
    case CO2 => if rd.airQuality.Some? then AirField(CO2, rd.airQuality.value.co) else Unavailable
    case Ozone => if rd.airQuality.Some? then AirField(Ozone, rd.airQuality.value.o3) else Unavailable
    case Temperature => if rd.weather.Some? then RealVal(Temperature, rd.weather.value.temperature) else Unavailable
    case Humidity => if rd.weather.Some? then RealVal(Humidity, rd.weather.value.humidity) else Unavailable
    case Pressure => if rd.weather.Some? then RealVal(Pressure, rd.weather.value.pressure) else Unavailable
    case OtherMetric => Unavailable
  }

  /** The spread `Math.random() * k` each synthesized metric adds to its base. */
  function SynthSpan(m: Metric): int
  {
    match m
    case CO2 => 20
    case Temperature => 20
    case Ozone => 50
    case Humidity => 30
    case Pressure => 50
    case OtherMetric => 0
  }

  /** The regional base a synthesized metric starts from. */
  function SynthBase(m: Metric, b: DataPoints.BaseData): int
  {
    match m
    case CO2 => b.co2Base
    case Temperature => b.tempBase
    case Ozone => b.ozoneBase
    case Humidity => b.humidityBase
    case Pressure => b.pressureBase
    case OtherMetric => 0
  }

  /** The synthesized fallback of getDisplayValue: `floor(r * span + base)`, or 'N/A'. */
  function Synthesize(m: Metric, lat: JsNumber, d: Draw): (r: Shown)
    ensures m == OtherMetric <==> r == NotApplicable
    ensures m != OtherMetric ==> (r.SynthVal? && r.metric == m &&
      SynthBase(m, DataPoints.GetBaseDataForLocation(lat)) <= r.whole < SynthBase(m, DataPoints.GetBaseDataForLocation(lat)) + SynthSpan(m))
  {
    if m == OtherMetric then NotApplicable
    else
      var b := DataPoints.GetBaseDataForLocation(lat);
      SynthVal(m, Floor(d * SynthSpan(m) as real + SynthBase(m, b) as real))
  }

  /** The point's fake reading for `m`, if it was seeded with one. */
  function FakeReading(u: PointData, m: Metric): Option<FallbackData.Reading>
  {
    if u.fakeData.Some? then u.fakeData.value.Get(m) else None
  }

  /**
   * getDisplayValue: a seeded fake reading first, then real data, then a
   * synthesized value drawn with `d`.
   */
  function GetDisplayValue(u: PointData, m: Metric, d: Draw): (r: Shown)
    ensures FakeReading(u, m).Some? ==> r == FakeVal(FakeReading(u, m).value.value, FakeReading(u, m).value.unit)
    ensures FakeReading(u, m).None? && GetRealDataForPoint(u).Some? ==> r == GetRealDisplayValue(m, GetRealDataForPoint(u).value)
    ensures FakeReading(u, m).None? && GetRealDataForPoint(u).None? ==> r == Synthesize(m, u.lat, d)
  {
    var fake := FakeReading(u, m);
    if fake.Some? then FakeVal(fake.value.value, fake.value.unit)
    else
      var rd := GetRealDataForPoint(u);
      if rd.Some? then GetRealDisplayValue(m, rd.value)
      else Synthesize(m, u.lat, d)
  }

  /** Whatever real data a point holds, a seeded fake reading is what is shown. */
  lemma FakeReadingWins(u: PointData, m: Metric, d: Draw,
      aq: Option<AirQuality.AirQualitySummary>, w: Option<Weather.WeatherSummary>)
    requires FakeReading(u, m).Some?
    ensures GetDisplayValue(u.(realAirQuality := aq, realWeather := w), m, d) == GetDisplayValue(u, m, d)
  {
  }

  /**
   * The fake and real branches draw nothing: with a fake reading or real
   * data, every draw shows the same value.
   */
  lemma DisplayDeterministicUnlessSynthesized(u: PointData, m: Metric, d1: Draw, d2: Draw)
    requires FakeReading(u, m).Some? || GetRealDataForPoint(u).Some?
    ensures GetDisplayValue(u, m, d1) == GetDisplayValue(u, m, d2)
  {
  }

  /** 'N/A' is shown exactly for an unknown metric on a point without real data. */
  lemma NotApplicableExactly(u: PointData, m: Metric, d: Draw)
    ensures GetDisplayValue(u, m, d) == NotApplicable <==> m == OtherMetric && GetRealDataForPoint(u).None?
  {
    if m == OtherMetric && u.fakeData.Some? {
      assert u.fakeData.value.Get(OtherMetric) == None;
    }
  }

  /** The CO2 heuristic's badges; its cut-offs are those of getAirQualityIndex. */
  function HeuristicBadge(tier: nat): Quality
  {
    if tier == 0 then Quality("Excellent", 0x4CAF50)
    else if tier == 1 then Quality("Good", 0x8BC34A)
    else if tier == 2 then Quality("Moderate", 0xFF9800)
    else if tier == 3 then Quality("Bad", 0xF44336)
    else Quality("Very Bad", 0x9C27B0)
  }

  /** The badge of a synthesized CO2 value (data-display.js:101-111). */
  function Co2Heuristic(co2: int): (q: Quality)
    ensures q == HeuristicBadge(DataPoints.AqiTier(co2))
  {
    if co2 < 400 then Quality("Excellent", 0x4CAF50)
    else if co2 < 420 then Quality("Good", 0x8BC34A)
    else if co2 < 450 then Quality("Moderate", 0xFF9800)
    else if co2 < 500 then Quality("Bad", 0xF44336)
    else Quality("Very Bad", 0x9C27B0)
  }

  /**
   * getAirQualityStatus: the fake CO2 reading's badge first, then the PM2.5
   * bands when real air quality has a pm25, then the CO2 heuristic on a
   * value synthesized with `d`.
   */
  function GetAirQualityStatus(u: PointData, d: Draw): (q: Quality)
    ensures u.fakeData.Some? ==> q == u.fakeData.value.co2.quality
    ensures u.fakeData.None? && u.realAirQuality.Some? && u.realAirQuality.value.pm25.Some? ==>
      q == AirQuality.RealAirQualityStatus(u.realAirQuality.value.pm25.value)
    ensures u.fakeData.None? && !(u.realAirQuality.Some? && u.realAirQuality.value.pm25.Some?) ==>
      q == Co2Heuristic(Floor(d * 20.0 + DataPoints.GetBaseDataForLocation(u.lat).co2Base as real))
  {
    if u.fakeData.Some? then u.fakeData.value.co2.quality
    else
      var rd := GetRealDataForPoint(u);
      if rd.Some? && rd.value.airQuality.Some? && rd.value.airQuality.value.pm25.Some?
      then AirQuality.RealAirQualityStatus(rd.value.airQuality.value.pm25.value)
      else Co2Heuristic(Floor(d * 20.0 + DataPoints.GetBaseDataForLocation(u.lat).co2Base as real))
  }

  /** Real weather alone never decides the badge: only a pm25 reading does. */
  lemma WeatherDoesNotDecideBadge(u: PointData, d: Draw, w: Option<Weather.WeatherSummary>)
    ensures GetAirQualityStatus(u.(realWeather := w), d) == GetAirQualityStatus(u, d)
  {
  }

  /** calculateAverage: 0 for an empty list, else the mean. */
  function CalculateAverage(values: seq<real>): (r: real)
    ensures values == [] ==> r == 0.0
    ensures values != [] ==> r * |values| as real == Sum(values)
  {
    if values == [] then 0.0 else Mean(values)
  }

  /** A non-empty average lies between the smallest and the largest value. */
  lemma AverageWithinValues(values: seq<real>)
    requires values != []
    ensures MinOf(values) <= CalculateAverage(values) <= MaxOf(values)
  {
    MeanWithinBounds(values);
  }

  /**
   * The `climateData` record. The temperature minimum and maximum start at
   * +/-Infinity (None). The other lists stay empty: they are read from
   * `realWeather.main`, `.wind` and `.clouds`, which the processed weather
   * summary does not have.
   */
  datatype ClimateData = ClimateData(
    temperatures: seq<real>, minTemp: Option<real>, maxTemp: Option<real>,
    humidity: seq<real>, pressure: seq<real>, wind: seq<real>, clouds: seq<real>, feelsLike: seq<real>)

  /** The temperature a TEMPO ozone reading stands for: `20 + value / 10`. */
  function OzoneTemperature(u: PointData): seq<real>
  {
    if u.tempoData.Some? && u.tempoData.value.TempoSimulated? && u.tempoData.value.pollutant.kind == "ozone"
    then [20.0 + u.tempoData.value.pollutant.value / 10.0] else []
  }

  /** The temperatures collected from the named nodes, in traversal order. */
  function ClimateTemperatures(nodes: seq<Node>): seq<real>
  {
    if nodes == [] then []
    else
      var last := nodes[|nodes| - 1];
      ClimateTemperatures(nodes[..|nodes| - 1]) + (if Named(last.user) then OzoneTemperature(last.user) else [])
  }

  /** One more node of the traversal adds its ozone temperature, if it is named. */
  lemma ClimateTemperaturesStep(nodes: seq<Node>, i: int)
    requires 0 <= i < |nodes|
    ensures ClimateTemperatures(nodes[..i + 1]) ==
      ClimateTemperatures(nodes[..i]) + (if Named(nodes[i].user) then OzoneTemperature(nodes[i].user) else [])
  {
    assert nodes[..i + 1][..i] == nodes[..i];
  }

  /** The running minimum and maximum follow one more value. */
  lemma MinMaxExtend(s: seq<real>, t: real)
    requires s != []
    ensures MinOf(s + [t]) == Min(MinOf(s), t) && MaxOf(s + [t]) == Max(MaxOf(s), t)
  {
    assert (s + [t])[..|s|] == s;
  }

  /**
   * The traversal of updateGlobalClimateData; None when there is no globe.
   * The running minimum and maximum are those of the collected list.
   */
  method CollectClimateData(g: Globe?) returns (c: Option<ClimateData>)
    ensures g == null <==> c.None?
    ensures c.Some? ==> c.value.temperatures == ClimateTemperatures(g.nodes)
    ensures c.Some? ==> (c.value.temperatures == [] <==> c.value.minTemp.None? && c.value.maxTemp.None?)
    ensures c.Some? && c.value.temperatures != [] ==>
      c.value.minTemp == Some(MinOf(c.value.temperatures)) && c.value.maxTemp == Some(MaxOf(c.value.temperatures))
    ensures c.Some? ==> (c.value.humidity == [] && c.value.pressure == [] && c.value.wind == [] &&
      c.value.clouds == [] && c.value.feelsLike == [])
  {
    if g == null {
      return None;
    }
    var nodes := g.nodes;
    var temps: seq<real> := [];
    var lo: Option<real> := None;
    var hi: Option<real> := None;
    var i := 0;
    while i < |nodes|
      invariant 0 <= i <= |nodes|
      invariant temps == ClimateTemperatures(nodes[..i])
      invariant temps == [] <==> lo.None? && hi.None?
      invariant temps != [] ==> lo == Some(MinOf(temps)) && hi == Some(MaxOf(temps))
    {
      var u := nodes[i].user;
      ClimateTemperaturesStep(nodes, i);
      var add := if Named(u) then OzoneTemperature(u) else [];
      if add != [] {
        var t := add[0];
        assert add == [t];
        if temps != [] {
          MinMaxExtend(temps, t);
        }
        lo := if lo.None? then Some(t) else Some(Min(lo.value, t));
        hi := if hi.None? then Some(t) else Some(Max(hi.value, t));
        temps := temps + [t];
      }
      i := i + 1;
    }
    assert nodes[..i] == nodes;
    c := Some(ClimateData(temps, lo, hi, [], [], [], [], []));
  }

  /** Real weather never reaches the climate panel: the collection ignores it. */
  lemma {:induction false} ClimateIgnoresRealWeather(nodes: seq<Node>, nodes': seq<Node>)
    requires |nodes| == |nodes'|
    requires forall i :: 0 <= i < |nodes| ==>
      nodes'[i].user == nodes[i].user.(realWeather := nodes'[i].user.realWeather)
    ensures ClimateTemperatures(nodes') == ClimateTemperatures(nodes)
  {
    if nodes != [] {
      ClimateIgnoresRealWeather(nodes[..|nodes| - 1], nodes'[..|nodes'| - 1]);
    }
  }

  /**
   * The climate panel. A field is None when its element is left as it
   * was, which happens exactly when nothing was collected for it.
   */
  datatype ClimatePanel = ClimatePanel(
    temperature: Option<(real, real)>, humidity: Option<int>, pressure: Option<real>,
    wind: Option<int>, clouds: Option<int>, feelsLike: Option<real>)

  /** A panel field is the average of its values, or untouched when there are none. */
  function AverageField(values: seq<real>): (r: Option<real>)
    ensures r.Some? <==> values != []
    ensures r.Some? ==> MinOf(values) <= r.value <= MaxOf(values)
  {
    if values == [] then None
    else
      AverageWithinValues(values);
      Some(CalculateAverage(values))
  }

  /**
   * updateClimateDisplay: wind is shown in km/h (`m/s * 3.6`), humidity and
   * clouds rounded; each rounded figure stays within half a unit of its
   * values' range.
   */
  function UpdateClimateDisplay(c: ClimateData): (p: ClimatePanel)
    requires c.temperatures != [] ==> c.minTemp.Some? && c.maxTemp.Some?
    ensures p.temperature.Some? <==> c.temperatures != []
    ensures p.temperature.Some? ==> p.temperature.value == (c.minTemp.value, c.maxTemp.value)
    ensures p.humidity.Some? <==> c.humidity != []
    ensures p.humidity.Some? ==> p.humidity.value == Round(AverageField(c.humidity).value)
    ensures p.humidity.Some? ==> MinOf(c.humidity) - 0.5 < p.humidity.value as real <= MaxOf(c.humidity) + 0.5
    ensures p.pressure == AverageField(c.pressure)
    ensures p.wind.Some? <==> c.wind != []
    ensures p.wind.Some? ==> p.wind.value == Round(AverageField(c.wind).value * 3.6)
    ensures p.wind.Some? ==> MinOf(c.wind) * 3.6 - 0.5 < p.wind.value as real <= MaxOf(c.wind) * 3.6 + 0.5
    ensures p.clouds.Some? <==> c.clouds != []
    ensures p.clouds.Some? ==> p.clouds.value == Round(AverageField(c.clouds).value)
    ensures p.clouds.Some? ==> MinOf(c.clouds) - 0.5 < p.clouds.value as real <= MaxOf(c.clouds) + 0.5
    ensures p.feelsLike == AverageField(c.feelsLike)
  {
    ClimatePanel(
      if c.temperatures != [] then Some((c.minTemp.value, c.maxTemp.value)) else None,
      if c.humidity != [] then Some(Round(AverageField(c.humidity).value)) else None,
      AverageField(c.pressure),
      if c.wind != [] then Some(Round(AverageField(c.wind).value * 3.6)) else None,
      if c.clouds != [] then Some(Round(AverageField(c.clouds).value)) else None,
      AverageField(c.feelsLike))
  }
}
