/**
 * The pure part of scripts/globe/data-points.js: the regional base values,
 * the CO2 air-quality index, the per-type station reports and the fixed
 * list of NASA points. Registering the points on the globe is in
 * DataPointsSetup.
 */
module DataPoints {
  import opened Prelude

  /** The latitude bands of getBaseDataForLocation, in the order they are checked. */
  datatype Region = Arctic | Antarctic | NorthTemperate | SouthTemperate | Tropical | Others

  /**
   * The band a latitude falls into. A NaN (or undefined) latitude fails
   * every comparison and lands in Others.
   */
  function RegionOf(lat: JsNumber): (r: Region)
    ensures r == Arctic <==> lat.Num? && lat.v > 60.0
    ensures r == Antarctic <==> lat.Num? && lat.v < -60.0
    ensures r == NorthTemperate <==> lat.Num? && 0.0 < lat.v < 30.0
    ensures r == SouthTemperate <==> lat.Num? && -30.0 < lat.v < 0.0
    ensures r == Tropical <==> lat == Num(0.0)
    ensures r == Others <==> lat.NaN? || 30.0 <= Abs(lat.v) <= 60.0
  {
    match lat
    case NaN => Others
    case Num(v) =>
      if v > 60.0 then Arctic
      else if v < -60.0 then Antarctic
      else if v > 0.0 && v < 30.0 then NorthTemperate
      else if v < 0.0 && v > -30.0 then SouthTemperate
      else if Abs(v) < 30.0 then Tropical
      else Others
  }

  /** The "Tropical" branch is reachable at the equator only. */
  lemma TropicalOnlyAtEquator(v: real)
    ensures RegionOf(Num(v)) == Tropical <==> v == 0.0
  {
  }

  /** Every latitude with 30 <= |lat| <= 60 gets the "Outros" values. */
  lemma MidLatitudesAreOthers(v: real)
    requires 30.0 <= Abs(v) <= 60.0
    ensures GetBaseDataForLocation(Num(v)) == BaseDataOf(Others)
  {
  }

  datatype BaseData = BaseData(co2Base: int, tempBase: int, humidityBase: int, pressureBase: int,
    ozoneBase: int, uvBase: int, radiationBase: real)

  function BaseDataOf(r: Region): BaseData
  {
    match r
    case Arctic => BaseData(400, -20, 60, 1013, 250, 2, 0.1)
    case Antarctic => BaseData(380, -30, 40, 1000, 200, 1, 0.05)
    case NorthTemperate => BaseData(420, 15, 70, 1013, 300, 5, 0.3)
    case SouthTemperate => BaseData(410, 20, 75, 1015, 320, 6, 0.4)
    case Tropical => BaseData(400, 25, 80, 1010, 280, 8, 0.5)
    case Others => BaseData(415, 10, 65, 1012, 290, 4, 0.2)
  }

  /**
   * getBaseDataForLocation; the longitude is never consulted. Only the polar
   * bands have a temperature base below zero, the tropical values appear at
   * the equator alone, and the 'Outros' values cover the mid latitudes and a
   * NaN latitude.
   */
  function GetBaseDataForLocation(lat: JsNumber): (b: BaseData)
    ensures b.tempBase < 0 <==> lat.Num? && Abs(lat.v) > 60.0
    ensures b.tempBase == 25 <==> lat == Num(0.0)
    ensures b.co2Base == 415 <==> lat.NaN? || 30.0 <= Abs(lat.v) <= 60.0
  {
    BaseDataOf(RegionOf(lat))
  }

  /** getAirQualityIndex. */
  function GetAirQualityIndex(co2: int): (s: string)
    ensures s == AqiLabel(AqiTier(co2))
  {
    if co2 < 400 then "Excelente"
    else if co2 < 420 then "Bom"
    else if co2 < 450 then "Moderado"
    else if co2 < 500 then "Ruim"
    else "Muito Ruim"
  }

  /** The tier of a CO2 value against the strict cut-offs 400, 420, 450 and 500. */
  function AqiTier(co2: int): (t: nat)
    ensures t <= 4
    ensures t == 0 <==> co2 < 400
    ensures t == 1 <==> 400 <= co2 < 420
    ensures t == 2 <==> 420 <= co2 < 450
    ensures t == 3 <==> 450 <= co2 < 500
    ensures t == 4 <==> 500 <= co2
  {
    if co2 < 400 then 0 else if co2 < 420 then 1 else if co2 < 450 then 2 else if co2 < 500 then 3 else 4
  }

  function AqiLabel(t: nat): string
  {
    if t == 0 then "Excelente" else if t == 1 then "Bom" else if t == 2 then "Moderado" else if t == 3 then "Ruim" else "Muito Ruim"
  }

  /** A higher CO2 value never gives a better index. */
  lemma AqiMonotone(a: int, b: int)
    requires a <= b
    ensures AqiTier(a) <= AqiTier(b)
  {
  }

  /** The five labels are distinct, so the label tells the tier. */
  lemma AqiLabelsDistinct(a: int, b: int)
    ensures GetAirQualityIndex(a) == GetAirQualityIndex(b) <==> AqiTier(a) == AqiTier(b)
  {
  }

  /** The numbers a station report shows (the time stamp is left out). */
  datatype StationReport =
    | SpaceStation(altitude: int, velocity: int, orbit: int)
    | Monitoring(co2: int, temp: int, humidity: int, pressure: int, aqi: string)
    | Observatory(ozone: int, uvIndex: int, radiation: real, pressure: int)
    | Satellite(orbit: int, dataRate: int, coverage: int, operational: bool)

  /** A point's `data` text: a fixed string or a generated report. */
  datatype PointText = Text(s: string) | Report(r: StationReport)

  /** The Math.random() draws of one report, in call order. */
  datatype StationDraws = StationDraws(d1: Draw, d2: Draw, d3: Draw, d4: Draw)

  function GenerateStationDataValues(ds: StationDraws): (r: StationReport)
    ensures r.SpaceStation?
    ensures 400 <= r.altitude <= 449 && 27000 <= r.velocity <= 27999 && 90 <= r.orbit <= 99
  {
    SpaceStation(Floor(ds.d1 * 50.0 + 400.0), Floor(ds.d2 * 1000.0 + 27000.0), Floor(ds.d3 * 10.0 + 90.0))
  }

  /** generateMonitoringData: the AQI label is computed from the same CO2 value that is shown. */
  function GenerateMonitoringData(b: BaseData, ds: StationDraws): (r: StationReport)
    ensures r.Monitoring?
    ensures b.co2Base <= r.co2 <= b.co2Base + 19
    ensures b.tempBase <= r.temp <= b.tempBase + 19
    ensures b.humidityBase <= r.humidity <= b.humidityBase + 29
    ensures b.pressureBase <= r.pressure <= b.pressureBase + 49
    ensures r.aqi == GetAirQualityIndex(r.co2)
  {
    var co2 := Floor(ds.d1 * 20.0 + b.co2Base as real);
    Monitoring(co2, Floor(ds.d2 * 20.0 + b.tempBase as real), Floor(ds.d3 * 30.0 + b.humidityBase as real),
      Floor(ds.d4 * 50.0 + b.pressureBase as real), GetAirQualityIndex(co2))
  }

  function GenerateObservatoryData(b: BaseData, ds: StationDraws): (r: StationReport)
    ensures r.Observatory?
    ensures b.ozoneBase <= r.ozone <= b.ozoneBase + 49 && b.uvBase <= r.uvIndex <= b.uvBase + 9
    ensures b.radiationBase <= r.radiation < b.radiationBase + 0.5
    ensures b.pressureBase <= r.pressure <= b.pressureBase + 19
  {
    Observatory(Floor(ds.d1 * 50.0 + b.ozoneBase as real), Floor(ds.d2 * 10.0 + b.uvBase as real),
      ds.d3 * 0.5 + b.radiationBase, Floor(ds.d4 * 20.0 + b.pressureBase as real))
  }

  /** generateSatelliteData: 'Operacional' when the last draw exceeds 0.1. */
  function GenerateSatelliteData(ds: StationDraws): (r: StationReport)
    ensures r.Satellite?
    ensures 700 <= r.orbit <= 799 && 500 <= r.dataRate <= 1499 && 80 <= r.coverage <= 99
    ensures r.operational <==> ds.d4 > 0.1
  {
    Satellite(Floor(ds.d1 * 100.0 + 700.0), Floor(ds.d2 * 1000.0 + 500.0), Floor(ds.d3 * 20.0 + 80.0), ds.d4 > 0.1)
  }

  /**
   * generateStationData: dispatch on `type`; any other type returns the
   * point's `data` unchanged (possibly undefined).
   */
  function GenerateStationData(kind: Option<string>, lat: JsNumber, data: Option<PointText>, ds: StationDraws): (r: Option<PointText>)
    ensures kind == Some("station") ==> r == Some(Report(GenerateStationDataValues(ds)))
    ensures kind == Some("monitoring") ==> r == Some(Report(GenerateMonitoringData(GetBaseDataForLocation(lat), ds)))
    ensures kind == Some("observatory") ==> r == Some(Report(GenerateObservatoryData(GetBaseDataForLocation(lat), ds)))
    ensures kind == Some("satellite") ==> r == Some(Report(GenerateSatelliteData(ds)))
    ensures kind !in {Some("station"), Some("monitoring"), Some("observatory"), Some("satellite")} ==> r == data
  {
    var b := GetBaseDataForLocation(lat);
    if kind == Some("station") then Some(Report(GenerateStationDataValues(ds)))
    else if kind == Some("monitoring") then Some(Report(GenerateMonitoringData(b, ds)))
    else if kind == Some("observatory") then Some(Report(GenerateObservatoryData(b, ds)))
    else if kind == Some("satellite") then Some(Report(GenerateSatelliteData(ds)))
    else data
  }

  /** A monitoring station at an Arctic latitude reports CO2 in [400, 419], so its index is 'Bom'. */
  lemma ArcticMonitoringIsBom(v: real, data: Option<PointText>, ds: StationDraws)
    requires v > 60.0
    ensures var r := GenerateStationData(Some("monitoring"), Num(v), data, ds);
      r.Some? && r.value.Report? && r.value.r.aqi == "Bom"
  {
  }

  /** An entry of the `dataPoints` list. */
  datatype FixedPoint = FixedPoint(name: string, lat: real, lon: real, data: string, color: int, kind: string)

  /** The fourteen NASA points of createDataPoints. */
  function DataPointsTable(): (s: seq<FixedPoint>)
    ensures |s| == 14
  {
    [ FixedPoint("Estação Espacial Internacional", 51.6, -0.1, "Altitude: 408km | Velocidade: 27,600 km/h", 0xff6b6b, "station"),
      FixedPoint("Observatório de Ozônio - Antártica", -75.0, 166.0, "Buraco na camada de ozônio monitorado", 0x4ecdc4, "observatory"),
      FixedPoint("Estação de Monitoramento CO₂ - Mauna Loa", 19.5, -155.6, "Concentração CO₂: 421 ppm (2024)", 0xffa726, "monitoring"),
      FixedPoint("Satélite Aura (NASA)", 0.0, 0.0, "Monitoramento atmosférico global", 0x9c27b0, "satellite"),
      FixedPoint("Estação de Monitoramento - Ártico", 78.2, 15.6, "Temperatura: -15°C | CO₂: 420 ppm", 0x2196f3, "monitoring"),
      FixedPoint("Estação de Monitoramento - Amazônia", -3.1, -60.0, "Floresta tropical | CO₂: 380 ppm", 0x4caf50, "monitoring"),
      FixedPoint("Estação de Monitoramento - Sibéria", 64.0, 129.7, "Permafrost | Temperatura: -25°C", 0x607d8b, "monitoring"),
      FixedPoint("Estação de Monitoramento - Austrália", -25.3, 133.3, "Deserto | CO₂: 410 ppm", 0xff9800, "monitoring"),
      FixedPoint("Estação de Monitoramento - África", -1.3, 36.8, "Savana | CO₂: 390 ppm", 0x8bc34a, "monitoring"),
      FixedPoint("Estação de Monitoramento - Europa", 52.5, 13.4, "Temperado | CO₂: 420 ppm", 0x2196f3, "monitoring"),
      FixedPoint("Estação de Monitoramento - Ásia", 35.7, 139.7, "Industrial | CO₂: 450 ppm", 0xf44336, "monitoring"),
      FixedPoint("Estação de Monitoramento - América do Norte", 40.7, -74.0, "Continental | CO₂: 415 ppm", 0x9c27b0, "monitoring"),
      FixedPoint("Estação de Monitoramento - Oceano Pacífico", 0.0, -150.0, "Oceano | CO₂: 380 ppm", 0x00bcd4, "monitoring"),
      FixedPoint("Estação de Monitoramento - Oceano Atlântico", 0.0, -30.0, "Oceano | CO₂: 385 ppm", 0x009688, "monitoring") ]
  }

  /** The fourteen names are pairwise distinct. */
  lemma DataPointNamesDistinct()
    ensures forall i, j :: 0 <= i < j < |DataPointsTable()| ==> DataPointsTable()[i].name != DataPointsTable()[j].name
  {
  }
}
