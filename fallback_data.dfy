/**
 * The fake-data generator of scripts/utils/fallback-data.js: per-metric
 * quality tables, the location-based random reading and the list of seeded
 * fallback stations. The seeding loop itself is in FallbackSeeding.
 */
module FallbackData {
  import opened Prelude

  /** A closed interval `[lo, hi]` of a quality table. */
  datatype Band = Band(lo: real, hi: real)

  predicate InBand(v: real, b: Band)
  {
    b.lo <= v <= b.hi
  }

  datatype QualityRanges = QualityRanges(good: Band, moderate: Band, poor: Band)

  /** `qualityRanges[dataType] || qualityRanges.temperature`. */
  function RangesFor(m: Metric): QualityRanges
  {
    match m
    case Humidity => QualityRanges(Band(40.0, 60.0), Band(30.0, 70.0), Band(20.0, 80.0))
    case Pressure => QualityRanges(Band(1000.0, 1020.0), Band(990.0, 1030.0), Band(980.0, 1040.0))
    case CO2 => QualityRanges(Band(0.0, 400.0), Band(400.0, 600.0), Band(600.0, 1000.0))
    case Ozone => QualityRanges(Band(0.0, 50.0), Band(50.0, 100.0), Band(100.0, 200.0))
    case _ => QualityRanges(Band(15.0, 25.0), Band(10.0, 30.0), Band(5.0, 35.0))
  }

  const GoodQuality := Quality("Boa", 0x4CAF50)
  const ModerateQuality := Quality("Moderada", 0xFF9800)
  const PoorColor := 0xF44336

  /**
   * The tier test shared by both copies of getQualityStatus: the good band,
   * then the moderate band, else the third tier, labelled `third`.
   */
  function Classify(v: real, ranges: QualityRanges, third: string): (q: Quality)
    ensures q == GoodQuality <==> InBand(v, ranges.good)
    ensures q == ModerateQuality <==> !InBand(v, ranges.good) && InBand(v, ranges.moderate)
    ensures q == Quality(third, PoorColor) <==> !InBand(v, ranges.good) && !InBand(v, ranges.moderate)
  {
    if InBand(v, ranges.good) then GoodQuality
    else if InBand(v, ranges.moderate) then ModerateQuality
    else Quality(third, PoorColor)
  }

  /** getQualityStatus of the module file; its third tier is 'Ruim'. */
  function QualityStatus(v: real, m: Metric): (q: Quality)
    ensures q == GoodQuality <==> InBand(v, RangesFor(m).good)
    ensures q == ModerateQuality <==> !InBand(v, RangesFor(m).good) && InBand(v, RangesFor(m).moderate)
    ensures q == Quality("Ruim", PoorColor) <==> !InBand(v, RangesFor(m).good) && !InBand(v, RangesFor(m).moderate)
  {
    Classify(v, RangesFor(m), "Ruim")
  }

  /** The `poor` band of a table never influences the tier. */
  lemma ClassifyIgnoresPoor(v: real, ranges: QualityRanges, other: Band, third: string)
    ensures Classify(v, ranges, third) == Classify(v, ranges.(poor := other), third)
  {
  }

  /** An unknown metric is judged by the temperature table. */
  lemma UnknownMetricUsesTemperatureTable(v: real)
    ensures QualityStatus(v, OtherMetric) == QualityStatus(v, Temperature)
  {
  }

  /**
   * The CO2 table written out: 400 is good (the good band is checked first),
   * (400, 600] is moderate, and anything above 600 or below 0 is 'Ruim'.
   */
  lemma Co2Tiers(v: real)
    ensures QualityStatus(v, CO2).status ==
      if v < 0.0 then "Ruim"
      else if v <= 400.0 then "Boa"
      else if v <= 600.0 then "Moderada"
      else "Ruim"
  {
  }

  /**
   * The temperature table written out: the good band [15, 25] sits inside
   * the moderate band [10, 30], so moderate means [10, 15) or (25, 30].
   */
  lemma TemperatureTiers(v: real)
    ensures QualityStatus(v, Temperature).status ==
      if 15.0 <= v <= 25.0 then "Boa"
      else if 10.0 <= v <= 30.0 then "Moderada"
      else "Ruim"
  {
  }

  /** One generated reading (the timestamp is not modelled). */
  datatype Reading = Reading(value: real, unit: string, quality: Quality, source: string)

  function UnitOf(m: Metric): string
  {
    match m
    case Humidity => "%"
    case Pressure => "hPa"
    case CO2 => "ppm"
    case Ozone => "ppb"
    case _ => "°C"
  }

  /** `data.base` of the metric's entry (the temperature entry for an unknown metric). */
  function FakeBase(lat: real, m: Metric, d: Draw): real
  {
    match m
    case Humidity => 50.0 + d * 40.0
    case Pressure => 1013.0 + (d - 0.5) * 50.0
    case CO2 => 400.0 + d * 100.0
    case Ozone => 20.0 + d * 40.0
    case _ => 30.0 - Abs(lat) * 0.4
  }

  /** `data.variation || 0`: only the temperature entry has a variation. */
  function FakeVariation(m: Metric, d: Draw): real
  {
    if m == Temperature || m == OtherMetric then (d - 0.5) * 10.0 else 0.0
  }

  /** The unrounded value `data.base + (data.variation || 0)`. */
  function FakeValue(lat: real, m: Metric, d: Draw): real
  {
    FakeBase(lat, m, d) + FakeVariation(m, d)
  }

  /** The range each metric's unrounded value can take. */
  lemma FakeValueRanges(lat: real, m: Metric, d: Draw)
    ensures m == Temperature || m == OtherMetric ==>
      25.0 - 0.4 * Abs(lat) <= FakeValue(lat, m, d) < 35.0 - 0.4 * Abs(lat)
    ensures m == Humidity ==> 50.0 <= FakeValue(lat, m, d) < 90.0
    ensures m == Pressure ==> 988.0 <= FakeValue(lat, m, d) < 1038.0
    ensures m == CO2 ==> 400.0 <= FakeValue(lat, m, d) < 500.0
    ensures m == Ozone ==> 20.0 <= FakeValue(lat, m, d) < 60.0
  {
  }

  /** Only temperature depends on the latitude; no metric depends on the longitude. */
  lemma OnlyTemperatureDependsOnLatitude(lat1: real, lat2: real, m: Metric, d: Draw)
    requires m != Temperature && m != OtherMetric
    ensures FakeValue(lat1, m, d) == FakeValue(lat2, m, d)
  {
  }

  /**
   * generateRealisticFakeData. The JS draws one Math.random() for every
   * metric entry of its table; `d` is the draw of the entry that is used.
   */
  function GenerateRealisticFakeData(lat: real, lon: real, m: Metric, d: Draw): (r: Reading)
    ensures r.source == "Simulado" && r.unit == UnitOf(m)
    ensures r.quality == QualityStatus(FakeValue(lat, m, d), m)
    ensures r.value == RoundTo1(FakeValue(lat, m, d))
  {
    var value := FakeValue(lat, m, d);
    Reading(RoundTo1(value), UnitOf(m), QualityStatus(value, m), "Simulado")
  }

  /**
   * A generated CO2 reading lies in [400, 500): it is 'Boa' exactly when the
   * draw is 0 and it is never 'Ruim'.
   */
  lemma FakeCo2Tier(lat: real, lon: real, d: Draw)
    ensures GenerateRealisticFakeData(lat, lon, CO2, d).quality.status == "Boa" <==> d == 0.0
    ensures GenerateRealisticFakeData(lat, lon, CO2, d).quality.status != "Ruim"
  {
    FakeValueRanges(lat, CO2, d);
    Co2Tiers(FakeValue(lat, CO2, d));
  }

  /**
   * The tier is computed from the unrounded value: a draw of 0.0004 gives
   * CO2 400.04, stored as 400 (which alone would be 'Boa') but tiered 'Moderada'.
   */
  lemma TierUsesUnroundedValue()
    ensures GenerateRealisticFakeData(0.0, 0.0, CO2, 0.0004).value == 400.0
    ensures GenerateRealisticFakeData(0.0, 0.0, CO2, 0.0004).quality == ModerateQuality
    ensures QualityStatus(400.0, CO2) == GoodQuality
  {
    assert FakeValue(0.0, CO2, 0.0004) == 400.04;
    assert Round(4000.4) == 4000;
  }

  /** The `fakeData` object of a seeded point: one reading per metric. */
  datatype FakeData = FakeData(temperature: Reading, humidity: Reading, pressure: Reading, co2: Reading, ozone: Reading)
  {
    /** `fakeData[dataType]`, undefined for an unknown metric. */
    function Get(m: Metric): Option<Reading>
    {
      match m
      case Temperature => Some(temperature)
      case Humidity => Some(humidity)
      case Pressure => Some(pressure)
      case CO2 => Some(co2)
      case Ozone => Some(ozone)
      case OtherMetric => None
    }
  }

  /** The draw each of the five generateRealisticFakeData calls uses. */
  datatype FakeDraws = FakeDraws(temperature: Draw, humidity: Draw, pressure: Draw, co2: Draw, ozone: Draw)
  {
    function For(m: Metric): Draw
    {
      match m
      case Temperature => temperature
      case Humidity => humidity
      case Pressure => pressure
      case CO2 => co2
      case _ => ozone
    }
  }

  /** The five readings a fallback station is seeded with (fallback-data.js:113-119). */
  function GenerateFakeDataSet(lat: real, lon: real, ds: FakeDraws): (f: FakeData)
    ensures forall m :: m != OtherMetric ==>
      f.Get(m) == Some(GenerateRealisticFakeData(lat, lon, m, ds.For(m)))
    ensures f.Get(OtherMetric) == None
  {
    FakeData(
      GenerateRealisticFakeData(lat, lon, Temperature, ds.temperature),
      GenerateRealisticFakeData(lat, lon, Humidity, ds.humidity),
      GenerateRealisticFakeData(lat, lon, Pressure, ds.pressure),
      GenerateRealisticFakeData(lat, lon, CO2, ds.co2),
      GenerateRealisticFakeData(lat, lon, Ozone, ds.ozone))
  }

  /** An entry of the `fakeDataPoints` list. */
  datatype SeedPoint = SeedPoint(name: string, lat: real, lon: real, region: string)

  /** The 25 fallback stations, as listed (coordinates included, unchecked). */
  function FallbackSeeds(): (s: seq<SeedPoint>)
    ensures |s| == 25
    ensures s[14].name == "Estação - Santiago" && s[14].lat < -90.0
  {
    [ SeedPoint("Estação - Londres", 51.5074, -0.1278, "Europa"),
      SeedPoint("Estação - Paris", 48.8566, 2.3522, "Europa"),
      SeedPoint("Estação - Berlim", 52.5200, 13.4050, "Europa"),
      SeedPoint("Estação - Madrid", 40.4168, -3.7038, "Europa"),
      SeedPoint("Estação - Roma", 41.9028, 12.4964, "Europa"),
      SeedPoint("Estação - Tóquio", 35.6762, 139.6503, "Ásia"),
      SeedPoint("Estação - Pequim", 39.9042, 116.4074, "Ásia"),
      SeedPoint("Estação - Mumbai", 19.0760, 72.8777, "Ásia"),
      SeedPoint("Estação - Sydney", -33.8688, 151.2093, "Oceania"),
      SeedPoint("Estação - Seul", 37.5665, 126.9780, "Ásia"),
      SeedPoint("Estação - São Paulo", -23.5505, -130.6333, "América do Sul"),
      SeedPoint("Estação - Buenos Aires", -23.6118, -118.3960, "América do Sul"),
      SeedPoint("Estação - Lima", -2.0464, -110.0428, "América do Sul"),
      SeedPoint("Estação - Bogotá", 4.7110, -74.0721, "América do Sul"),
      SeedPoint("Estação - Santiago", -93.4489, -70.6693, "América do Sul"),
      SeedPoint("Estação - Cairo", 30.0444, 31.2357, "África"),
      SeedPoint("Estação - Lagos", 6.5244, 3.3792, "África"),
      SeedPoint("Estação - Joanesburgo", -26.2041, 28.0473, "África"),
      SeedPoint("Estação - Casablanca", 33.5731, -7.5898, "África"),
      SeedPoint("Estação - Nairobi", -1.2921, 36.8219, "África"),
      SeedPoint("Estação - Vancouver", 49.2827, -123.1207, "América do Norte"),
      SeedPoint("Estação - Toronto", 43.6532, -79.3832, "América do Norte"),
      SeedPoint("Estação - Miami", 25.7617, -80.1918, "América do Norte"),
      SeedPoint("Estação - Seattle", 47.6062, -122.3321, "América do Norte"),
      SeedPoint("Estação - Denver", 39.7392, -104.9903, "América do Norte") ]
  }
}
