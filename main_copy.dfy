/**
 * scripts/main.js, the single-file copy of the module scripts, where its
 * logic departs from them: the third quality tier, the label fallback, the
 * CO2 index in English, the value resolver that always synthesizes instead
 * of reporting missing data, the climate panel that invents values for
 * empty fields, and the fire counter's error branch. Each copy is related
 * to the module version by a lemma.
 */
module MainCopy {
  import opened Prelude
  import opened Scene
  import FallbackData
  import DataDisplay
  import FloatingInterfaces
  import DisplayToggle
  import DataPoints

  /** getQualityStatus of main.js: the module's tiers, the third labelled 'Bad'. */
  function QualityStatusMain(v: real, m: Metric): (q: Quality)
    ensures q.color == FallbackData.QualityStatus(v, m).color
    ensures q.status == "Bad" <==> FallbackData.QualityStatus(v, m).status == "Ruim"
    ensures FallbackData.QualityStatus(v, m).status != "Ruim" ==> q == FallbackData.QualityStatus(v, m)
  {
    FallbackData.Classify(v, FallbackData.RangesFor(m), "Bad")
  }

  /** getAirQualityIndex of main.js: the module's CO2 cut-offs with English labels. */
  function AirQualityIndexMain(co2: int): (s: string)
    ensures s == ["Excellent", "Good", "Moderate", "Bad", "Very Bad"][DataPoints.AqiTier(co2)]
  {
    if co2 < 400 then "Excellent"
    else if co2 < 420 then "Good"
    else if co2 < 450 then "Moderate"
    else if co2 < 500 then "Bad"
    else "Very Bad"
  }

  /**
   * The two copies of the index never give the same label, yet each label
   * of one names exactly one label of the other: both tell the same tier.
   */
  lemma AirQualityIndexMainVersusModule(a: int, b: int)
    ensures AirQualityIndexMain(a) != DataPoints.GetAirQualityIndex(a)
    ensures AirQualityIndexMain(a) == AirQualityIndexMain(b) <==>
      DataPoints.GetAirQualityIndex(a) == DataPoints.GetAirQualityIndex(b)
    ensures AirQualityIndexMain(a) == AirQualityIndexMain(b) <==> DataPoints.AqiTier(a) == DataPoints.AqiTier(b)
  {
  }

  /** getDataTypeLabel of main.js: every label has an icon, and the fallback is '📊 Dados'. */
  function DataTypeLabelMain(m: Metric): (s: string)
    ensures s == "📊 Dados" <==> m == OtherMetric
  {
    match m
    case CO2 => "🌫️ CO₂"
    case Temperature => "🌡️ Temperature"
    case Ozone => "🛡️ Ozone"
    case Humidity => "💧 Humidity"
    case Pressure => "📈 Pressure"
    case OtherMetric => "📊 Dados"
  }

  /** The icon main.js puts before the name of a known metric. */
  function LabelIcon(m: Metric): string
  {
    match m
    case CO2 => "🌫️"
    case Temperature => "🌡️"
    case Ozone => "🛡️"
    case Humidity => "💧"
    case Pressure => "📈"
    case OtherMetric => "📊"
  }

  /**
   * The two label tables agree on CO₂ only; for the other known metrics the
   * main.js label is the module label behind an icon and a space.
   */
  lemma LabelsDiffer(m: Metric)
    ensures DataTypeLabelMain(m) == FloatingInterfaces.GetDataTypeLabel(m) <==> m == CO2
    ensures m !in {CO2, OtherMetric} ==> DataTypeLabelMain(m) == LabelIcon(m) + " " + FloatingInterfaces.GetDataTypeLabel(m)
  {
    match m
    case CO2 =>
    case Temperature =>
      assert DataTypeLabelMain(m) == LabelIcon(m) + " " + "Temperature";
    case Ozone =>
      assert DataTypeLabelMain(m) == LabelIcon(m) + " " + "Ozone";
    case Humidity =>
      assert DataTypeLabelMain(m) == LabelIcon(m) + " " + "Humidity";
    case Pressure =>
      assert DataTypeLabelMain(m) == LabelIcon(m) + " " + "Pressure";
    case OtherMetric =>
      assert DataTypeLabelMain(m)[0] != FloatingInterfaces.GetDataTypeLabel(m)[0];
  }

  /**
   * getRealDisplayValue of main.js: a reading when the module copy shows
   * one; where the module copy says 'Dados não disponíveis' a value is
   * synthesized from the regional base, a CO₂ one for an unknown metric.
   */
  function RealDisplayValueMain(m: Metric, rd: DataDisplay.RealData, lat: JsNumber, d: Draw): (r: Shown)
    ensures r.RealVal? || r.SynthVal?
    ensures DataDisplay.GetRealDisplayValue(m, rd).RealVal? ==> r == DataDisplay.GetRealDisplayValue(m, rd)
    ensures DataDisplay.GetRealDisplayValue(m, rd) == Unavailable ==>
      r == DataDisplay.Synthesize(if m == OtherMetric then CO2 else m, lat, d)
  {
    match m
    case CO2 =>
      if rd.airQuality.Some? && rd.airQuality.value.co.Some? then RealVal(CO2, Num(rd.airQuality.value.co.value))
      else DataDisplay.Synthesize(CO2, lat, d)
    case Ozone =>
      if rd.airQuality.Some? && rd.airQuality.value.o3.Some? then RealVal(Ozone, Num(rd.airQuality.value.o3.value))
      else DataDisplay.Synthesize(Ozone, lat, d)
    case Temperature =>
      if rd.weather.Some? then RealVal(Temperature, rd.weather.value.temperature) else DataDisplay.Synthesize(Temperature, lat, d)
    case Humidity =>
      if rd.weather.Some? then RealVal(Humidity, rd.weather.value.humidity) else DataDisplay.Synthesize(Humidity, lat, d)
    case Pressure =>
      if rd.weather.Some? then RealVal(Pressure, rd.weather.value.pressure) else DataDisplay.Synthesize(Pressure, lat, d)
    case OtherMetric => DataDisplay.Synthesize(CO2, lat, d)
  }

  /** getDisplayValue of main.js: fake reading, real data, else a synthesized value, CO₂ for an unknown metric. */
  function DisplayValueMain(u: PointData, m: Metric, d: Draw): (r: Shown)
    ensures r.FakeVal? || r.RealVal? || r.SynthVal?
    ensures r.FakeVal? <==> DataDisplay.FakeReading(u, m).Some?
    ensures r.SynthVal? ==> r.metric == (if m == OtherMetric then CO2 else m)
  {
    var fake := DataDisplay.FakeReading(u, m);
    if fake.Some? then FakeVal(fake.value.value, fake.value.unit)
    else
      var rd := DataDisplay.GetRealDataForPoint(u);
      if rd.Some? then RealDisplayValueMain(m, rd.value, u.lat, d)
      else DataDisplay.Synthesize(if m == OtherMetric then CO2 else m, u.lat, d)
  }

  /**
   * The main.js copy never shows 'Dados não disponíveis' or 'N/A': it
   * shows what the module copy shows whenever that is a reading, and a
   * synthesized value otherwise; an unknown metric synthesizes CO₂.
   */
  lemma DisplayValueMainVersusModule(u: PointData, m: Metric, d: Draw)
    ensures DisplayValueMain(u, m, d) != Unavailable && DisplayValueMain(u, m, d) != NotApplicable
    ensures DataDisplay.GetDisplayValue(u, m, d) !in {Unavailable, NotApplicable} ==>
      DisplayValueMain(u, m, d) == DataDisplay.GetDisplayValue(u, m, d)
    ensures DataDisplay.GetDisplayValue(u, m, d) in {Unavailable, NotApplicable} ==>
      DisplayValueMain(u, m, d) == DataDisplay.Synthesize(if m == OtherMetric then CO2 else m, u.lat, d)
  {
    if m == OtherMetric && u.fakeData.Some? {
      assert u.fakeData.value.Get(OtherMetric) == None;
    }
  }

  /** A seeded fake reading still wins over real data in main.js. */
  lemma FakeReadingWinsInMain(u: PointData, m: Metric, d: Draw)
    requires DataDisplay.FakeReading(u, m).Some?
    ensures DisplayValueMain(u, m, d) == DataDisplay.GetDisplayValue(u, m, d)
    ensures DisplayValueMain(u, m, d).FakeVal?
  {
  }

  /** The seven draws updateClimateDisplay of main.js uses for fields with nothing collected. */
  datatype ClimateDraws = ClimateDraws(minTemp: Draw, maxTemp: Draw, humidity: Draw, pressure: Draw,
    wind: Draw, clouds: Draw, feelsLike: Draw)

  /**
   * updateClimateDisplay of main.js: a field with values shows what the
   * module copy shows; an empty one gets a random stand-in.
   */
  function ClimateDisplayMain(c: DataDisplay.ClimateData, ds: ClimateDraws): (p: DataDisplay.ClimatePanel)
    requires c.temperatures != [] ==> c.minTemp.Some? && c.maxTemp.Some?
    ensures p.temperature.Some? && p.humidity.Some? && p.pressure.Some?
    ensures p.wind.Some? && p.clouds.Some? && p.feelsLike.Some?
  {
    var collected := DataDisplay.UpdateClimateDisplay(c);
    DataDisplay.ClimatePanel(
      if c.temperatures != [] then collected.temperature else Some((ds.minTemp * 20.0 + 5.0, ds.maxTemp * 15.0 + 25.0)),
      if c.humidity != [] then collected.humidity else Some(Floor(ds.humidity * 30.0 + 50.0)),
      if c.pressure != [] then collected.pressure else Some(ds.pressure * 50.0 + 1000.0),
      if c.wind != [] then collected.wind else Some(Floor(ds.wind * 20.0 + 5.0)),
      if c.clouds != [] then collected.clouds else Some(Floor(ds.clouds * 60.0 + 20.0)),
      if c.feelsLike != [] then collected.feelsLike else Some(ds.feelsLike * 20.0 + 15.0))
  }

  /**
   * Every field is written, so the panel no longer depends on what it
   * showed before; where the module copy writes a field, main.js writes
   * the same value.
   */
  lemma ClimateDisplayMainVersusModule(c: DataDisplay.ClimateData, ds: ClimateDraws, before: DataDisplay.ClimatePanel)
    requires c.temperatures != [] ==> c.minTemp.Some? && c.maxTemp.Some?
    ensures var p := ClimateDisplayMain(c, ds);
      p.temperature.Some? && p.humidity.Some? && p.pressure.Some? && p.wind.Some? && p.clouds.Some? && p.feelsLike.Some? &&
      DisplayToggle.Overwrite(before, p) == p
    ensures var p, q := ClimateDisplayMain(c, ds), DataDisplay.UpdateClimateDisplay(c);
      (q.temperature.Some? ==> p.temperature == q.temperature) && (q.humidity.Some? ==> p.humidity == q.humidity) &&
      (q.pressure.Some? ==> p.pressure == q.pressure) && (q.wind.Some? ==> p.wind == q.wind) &&
      (q.clouds.Some? ==> p.clouds == q.clouds) && (q.feelsLike.Some? ==> p.feelsLike == q.feelsLike)
  {
    DisplayToggle.OverwriteIdempotent(before, ClimateDisplayMain(c, ds));
  }

  /** The stand-ins' ranges, humidity for instance always in [50, 79]. */
  lemma ClimateStandInRanges(c: DataDisplay.ClimateData, ds: ClimateDraws)
    requires c.temperatures != [] ==> c.minTemp.Some? && c.maxTemp.Some?
    ensures var p := ClimateDisplayMain(c, ds);
      (c.temperatures == [] ==> 5.0 <= p.temperature.value.0 < 25.0 && 25.0 <= p.temperature.value.1 < 40.0) &&
      (c.humidity == [] ==> 50 <= p.humidity.value <= 79) &&
      (c.pressure == [] ==> 1000.0 <= p.pressure.value < 1050.0) &&
      (c.wind == [] ==> 5 <= p.wind.value <= 24) &&
      (c.clouds == [] ==> 20 <= p.clouds.value <= 79) &&
      (c.feelsLike == [] ==> 15.0 <= p.feelsLike.value < 35.0)
  {
  }

  /**
   * The fire counter of integrateFireData in main.js: the number of records
   * fetched, or, when the fetch rejects (`fetched` is None), a random
   * stand-in `floor(r * 15) + 8`.
   */
  function FireCountMain(fetched: Option<nat>, r: Draw): (n: int)
    ensures fetched.Some? ==> n == fetched.value
    ensures fetched.None? ==> 8 <= n <= 22
  {
    if fetched.Some? then fetched.value else Floor(r * 15.0) + 8
  }

  /** The stand-in reaches neither 23 nor anything below 8, whatever the draw. */
  lemma FireStandInNeverTwentyThree(r: Draw)
    ensures FireCountMain(None, r) != 23 && FireCountMain(None, r) >= 8
  {
  }
}
