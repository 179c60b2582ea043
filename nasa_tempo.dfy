/**
 * The pure part of scripts/apis/nasa-tempo.js: TEMPO quality tiers, the
 * simulated reading, the stand-in NetCDF extraction, the fetch fallback,
 * quality-to-colour and the panel averages. The traversals over the globe
 * are in TempoIntegration.
 */
module NasaTempo {
  import opened Prelude

  datatype Pollutant = OzoneGas | NO2 | HCHO | Aerosols | OtherPollutant

  /** The pollutant named by a `pollutant` / `type` string. */
  function PollutantOf(name: string): (p: Pollutant)
    ensures p == OtherPollutant <==> name !in {"ozone", "no2", "hcho", "aerosols"}
  {
    if name == "ozone" then OzoneGas
    else if name == "no2" then NO2
    else if name == "hcho" then HCHO
    else if name == "aerosols" then Aerosols
    else OtherPollutant
  }

  /**
   * A TEMPO quality label: the four tiers of getTEMPOQuality, its 'unknown',
   * and the 'high' / 'medium' of extractPollutantData.
   */
  datatype Grade = Excellent | Good | Moderate | Poor | Unknown | High | Medium

  /** Position of a tier from best to worst. */
  function TierRank(g: Grade): nat
  {
    match g
    case Excellent => 0
    case Good => 1
    case Moderate => 2
    case _ => 3
  }

  /** The three strict cut-offs of a known pollutant. */
  datatype Cuts = Cuts(excellent: real, good: real, moderate: real)

  function CutsOf(p: Pollutant): Cuts
    requires p != OtherPollutant
  {
    match p
    case OzoneGas => Cuts(50.0, 70.0, 100.0)
    case NO2 => Cuts(20.0, 40.0, 60.0)
    case HCHO => Cuts(5.0, 10.0, 15.0)
    case Aerosols => Cuts(0.2, 0.4, 0.6)
  }

  /** getTEMPOQuality: strict `<` against each cut-off in turn; 'unknown' for any other pollutant. */
  function TEMPOQuality(value: real, p: Pollutant): (g: Grade)
    ensures p == OtherPollutant <==> g == Unknown
    ensures p != OtherPollutant ==>
      (g == Excellent <==> value < CutsOf(p).excellent) &&
      (g == Good <==> CutsOf(p).excellent <= value < CutsOf(p).good) &&
      (g == Moderate <==> CutsOf(p).good <= value < CutsOf(p).moderate) &&
      (g == Poor <==> CutsOf(p).moderate <= value)
  {
    match p
    case OzoneGas => if value < 50.0 then Excellent else if value < 70.0 then Good else if value < 100.0 then Moderate else Poor
    case NO2 => if value < 20.0 then Excellent else if value < 40.0 then Good else if value < 60.0 then Moderate else Poor
    case HCHO => if value < 5.0 then Excellent else if value < 10.0 then Good else if value < 15.0 then Moderate else Poor
    case Aerosols => if value < 0.2 then Excellent else if value < 0.4 then Good else if value < 0.6 then Moderate else Poor
    case OtherPollutant => Unknown
  }

  /** For a fixed pollutant a larger value never gives a better tier. */
  lemma TEMPOQualityMonotone(v: real, w: real, p: Pollutant)
    requires v <= w
    ensures TierRank(TEMPOQuality(v, p)) <= TierRank(TEMPOQuality(w, p))
  {
  }

  /** A value equal to a cut-off already belongs to the worse tier. */
  lemma CutOffsAreStrict(p: Pollutant)
    requires p != OtherPollutant
    ensures TEMPOQuality(CutsOf(p).excellent, p) == Good
    ensures TEMPOQuality(CutsOf(p).good, p) == Moderate
    ensures TEMPOQuality(CutsOf(p).moderate, p) == Poor
  {
  }

  /** The location factor: the first matching region of 1.2, 1.5 and 0.8, else 1. */
  function TempoLocationFactor(lat: real, lon: real): (f: real)
    ensures 40.0 < lat < 50.0 && -130.0 < lon < -60.0 ==> f == 1.2
    ensures !(40.0 < lat < 50.0 && -130.0 < lon < -60.0) && 25.0 < lat < 35.0 && -100.0 < lon < -80.0 ==> f == 1.5
    ensures (!(40.0 < lat < 50.0 && -130.0 < lon < -60.0) && !(25.0 < lat < 35.0 && -100.0 < lon < -80.0) &&
      45.0 < lat < 55.0 && -80.0 < lon < -60.0) ==> f == 0.8
    ensures f in {1.2, 1.5, 0.8, 1.0}
  {
    if 40.0 < lat < 50.0 && -130.0 < lon < -60.0 then 1.2
    else if 25.0 < lat < 35.0 && -100.0 < lon < -80.0 then 1.5
    else if 45.0 < lat < 55.0 && -80.0 < lon < -60.0 then 0.8
    else 1.0
  }

  /** Where the first and third regions overlap (lat 45-50, lon -80 to -60) the first one wins. */
  lemma OverlapGetsFirstFactor(lat: real, lon: real)
    requires 45.0 < lat < 50.0 && -80.0 < lon < -60.0
    ensures TempoLocationFactor(lat, lon) == 1.2
  {
  }

  /** The simulator's `baseValue` for one draw; 0 for an unknown pollutant. */
  function SimulatedBase(p: Pollutant, d: Draw): real
  {
    match p
    case OzoneGas => 40.0 + d * 30.0
    case NO2 => 10.0 + d * 20.0
    case HCHO => 2.0 + d * 8.0
    case Aerosols => 0.1 + d * 0.4
    case OtherPollutant => 0.0
  }

  function SimulatedUnit(p: Pollutant): string
  {
    match p
    case OzoneGas => "ppb"
    case NO2 => "ppb"
    case HCHO => "ppb"
    case Aerosols => "AOD"
    case OtherPollutant => ""
  }

  function SimulatedDescription(p: Pollutant): string
  {
    match p
    case OzoneGas => "Ozônio Troposférico"
    case NO2 => "Dióxido de Nitrogênio"
    case HCHO => "Formaldeído"
    case Aerosols => "Aerosóis"
    case OtherPollutant => ""
  }

  /** The `pollutant` member of a simulated result; `kind` is its `type` string. */
  datatype PollutantReading = PollutantReading(kind: string, value: real, unit: string, description: string, quality: Grade)

  /** One `pollutants.*` entry of a processed NetCDF response. */
  datatype Extracted = Extracted(value: real, unit: string, quality: Grade)

  /**
   * What fetchTEMPOData returns: a processed response, whose four readings
   * sit under `pollutants`, or a simulated one, with a single `pollutant`.
   */
  datatype TempoData =
    | TempoMeasured(ozone: Extracted, no2: Extracted, hcho: Extracted, aerosols: Extracted)
    | TempoSimulated(pollutant: PollutantReading)
  {
    function Source(): string
    {
      if TempoMeasured? then "NASA TEMPO" else "NASA TEMPO (Simulated)"
    }
  }

  /**
   * generateSimulatedTEMPOData. The value is rounded to two decimals; the
   * quality is taken from the unrounded base times factor.
   */
  function GenerateSimulatedTEMPOData(lat: real, lon: real, kind: string, d: Draw): (r: TempoData)
    ensures r.TempoSimulated? && r.Source() == "NASA TEMPO (Simulated)"
    ensures r.pollutant.kind == kind
    ensures r.pollutant.value == RoundTo2(SimulatedBase(PollutantOf(kind), d) * TempoLocationFactor(lat, lon))
    ensures r.pollutant.quality == TEMPOQuality(SimulatedBase(PollutantOf(kind), d) * TempoLocationFactor(lat, lon), PollutantOf(kind))
    ensures r.pollutant.unit == SimulatedUnit(PollutantOf(kind)) && r.pollutant.description == SimulatedDescription(PollutantOf(kind))
  {
    var p := PollutantOf(kind);
    var v := SimulatedBase(p, d) * TempoLocationFactor(lat, lon);
    TempoSimulated(PollutantReading(kind, RoundTo2(v), SimulatedUnit(p), SimulatedDescription(p), TEMPOQuality(v, p)))
  }

  /**
   * Quality is judged before rounding: ozone at 49.999 is shown as 50, yet
   * graded 'excellent', while 50 itself is 'good'.
   */
  lemma SimulatedQualityUsesUnroundedValue()
    ensures GenerateSimulatedTEMPOData(0.0, 0.0, "ozone", 0.3333).pollutant.value == 50.0
    ensures GenerateSimulatedTEMPOData(0.0, 0.0, "ozone", 0.3333).pollutant.quality == Excellent
    ensures TEMPOQuality(50.0, OzoneGas) == Good
  {
    assert SimulatedBase(OzoneGas, 0.3333) * TempoLocationFactor(0.0, 0.0) == 49.999;
    assert Round(4999.9) == 5000;
  }

  /** An unknown pollutant is simulated as 0 with no unit, and graded 'unknown'. */
  lemma UnknownPollutantSimulation(lat: real, lon: real, kind: string, d: Draw)
    requires PollutantOf(kind) == OtherPollutant
    ensures var r := GenerateSimulatedTEMPOData(lat, lon, kind, d).pollutant;
      r.value == 0.0 && r.unit == "" && r.quality == Unknown
  {
    assert Round(0.0) == 0;
  }

  /** extractPollutantData: a stand-in value below 50, 'high' above 30. */
  function ExtractPollutantData(kind: string, d: Draw): (r: Extracted)
    ensures r.unit == (if kind == "aerosols" then "AOD" else "ppb")
    ensures r.value == RoundTo2(d * 50.0) && -0.005 < r.value < 50.005
    ensures r.quality == High <==> d * 50.0 > 30.0
    ensures r.quality == High || r.quality == Medium
  {
    Extracted(RoundTo2(d * 50.0), if kind == "aerosols" then "AOD" else "ppb", if d * 50.0 > 30.0 then High else Medium)
  }

  /**
   * How the TEMPO request went: an HTTP error, a body that could not be read
   * (the error processTEMPOData rethrows), or a body, with the draws of the
   * four extractions.
   */
  datatype TempoFetch =
    | TempoHttpFailed
    | TempoBodyFailed
    | TempoBody(dOzone: Draw, dNo2: Draw, dHcho: Draw, dAerosols: Draw)

  /** fetchTEMPOData. It never throws: every failure falls back to simulated data (drawn with `d`). */
  function FetchTEMPOData(lat: real, lon: real, kind: string, outcome: TempoFetch, d: Draw): (r: TempoData)
    ensures r.TempoSimulated? <==> !outcome.TempoBody?
    ensures !outcome.TempoBody? ==> r == GenerateSimulatedTEMPOData(lat, lon, kind, d)
    ensures outcome.TempoBody? ==> r == TempoMeasured(
      ExtractPollutantData("ozone", outcome.dOzone), ExtractPollutantData("no2", outcome.dNo2),
      ExtractPollutantData("hcho", outcome.dHcho), ExtractPollutantData("aerosols", outcome.dAerosols))
  {
    match outcome
    case TempoBody(dO, dN, dH, dA) =>
      TempoMeasured(ExtractPollutantData("ozone", dO), ExtractPollutantData("no2", dN),
        ExtractPollutantData("hcho", dH), ExtractPollutantData("aerosols", dA))
    case _ => GenerateSimulatedTEMPOData(lat, lon, kind, d)
  }

  const DefaultTempoColor := 0x4CAF50

  /** The marker colour of a TEMPO quality; any other label keeps the default green. */
  function TempoColor(g: Grade): (c: int)
    ensures g == Good ==> c == 0x8BC34A
    ensures g == Moderate ==> c == 0xFFC107
    ensures g == Poor ==> c == 0xFF5722
    ensures g !in {Good, Moderate, Poor} ==> c == DefaultTempoColor
  {
    match g
    case Good => 0x8BC34A
    case Moderate => 0xFFC107
    case Poor => 0xFF5722
    case _ => DefaultTempoColor
  }

  /** The colours of the four tiers are distinct, so the colour tells the tier. */
  lemma TempoColorSeparatesTiers(g: Grade, h: Grade)
    requires g in {Excellent, Good, Moderate, Poor} && h in {Excellent, Good, Moderate, Poor}
    ensures TempoColor(g) == TempoColor(h) <==> g == h
  {
  }

  /** A panel rate: the mean of the collected values, or the fixed default text. */
  datatype Rate = MeanRate(mean: real, unit: string) | DefaultRate(text: string)

  /** The unit a panel rate is shown with. */
  function RateUnit(key: string): string
  {
    if key == "aerosol" then "AOD" else "ppb"
  }

  /** The fixed text shown when nothing was collected for `key`. */
  function RateDefault(key: string): string
  {
    if key == "ozone" then "45 ppb"
    else if key == "no2" then "18 ppb"
    else if key == "hcho" then "2.5 ppb"
    else "0.3 AOD"
  }

  /** One rate of updatePollutantRates. */
  function PanelRate(key: string, values: seq<real>): (r: Rate)
    ensures values == [] <==> r == DefaultRate(RateDefault(key))
    ensures values != [] ==> r == MeanRate(Mean(values), RateUnit(key))
  {
    if values == [] then DefaultRate(RateDefault(key)) else MeanRate(Mean(values), RateUnit(key))
  }

  /** A shown mean lies between the smallest and the largest collected value. */
  lemma PanelRateWithinValues(key: string, values: seq<real>)
    requires values != []
    ensures MinOf(values) <= PanelRate(key, values).mean <= MaxOf(values)
  {
    MeanWithinBounds(values);
  }
}
