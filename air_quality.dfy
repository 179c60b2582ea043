/**
 * scripts/apis/air-quality.js: the OpenAQ fetch fallback, the simulator,
 * the "latest measurement per parameter" reduction and the PM2.5 bands.
 */
module AirQuality {
  import opened Prelude
  import FallbackData

  /**
   * A measurement's `date` object. `utc` is the raw string ("" when it is
   * missing: falsy in `||` and an Invalid Date, like undefined) and `time`
   * is what `new Date(utc)` parses it to (NaN for an Invalid Date).
   */
  datatype UtcDate = UtcDate(utc: string, time: JsNumber)

  /**
   * One element of an OpenAQ `results` list. A missing `parameter` is None,
   * a missing `date` object is None.
   */
  datatype Measurement = Measurement(parameter: Option<string>, value: JsNumber, unit: string, date: Option<UtcDate>)

  /** A fake reading placed in the list: it has no `parameter` and no `date`. */
  function ReadingAsMeasurement(r: FallbackData.Reading): (m: Measurement)
    ensures m.parameter == None && m.date == None
    ensures m.value == Num(r.value) && m.unit == r.unit
  {
    Measurement(None, Num(r.value), r.unit, None)
  }

  /** What the request produced: any failure, or a JSON body whose `results` may be absent. */
  datatype AirFetch = AirFailed | AirOk(results: Option<seq<Measurement>>)

  /**
   * fetchAirQualityData. It never throws: a failure yields the one-element
   * list holding a fake CO2 reading (drawn with `d`).
   */
  function FetchAirQualityData(lat: real, lon: real, outcome: AirFetch, d: Draw): (r: seq<Measurement>)
    ensures outcome.AirFailed? ==>
      r == [ReadingAsMeasurement(FallbackData.GenerateRealisticFakeData(lat, lon, CO2, d))]
    ensures outcome.AirOk? && outcome.results.Some? ==> r == outcome.results.value
    ensures outcome.AirOk? && outcome.results.None? ==> r == []
  {
    match outcome
    case AirFailed => [ReadingAsMeasurement(FallbackData.GenerateRealisticFakeData(lat, lon, CO2, d))]
    case AirOk(results) => if results.Some? then results.value else []
  }

  /** The simulator's location factor: 0.7 near the poles, overridden by 1.3 when |lon| < 30. */
  function LocationFactor(lat: real, lon: real): (f: real)
    ensures Abs(lon) < 30.0 ==> f == 1.3
    ensures Abs(lon) >= 30.0 && (lat > 60.0 || lat < -60.0) ==> f == 0.7
    ensures Abs(lon) >= 30.0 && -60.0 <= lat <= 60.0 ==> f == 1.0
  {
    var polar := if lat > 60.0 || lat < -60.0 then 0.7 else 1.0;
    if Abs(lon) < 30.0 then 1.3 else polar
  }

  const SimUnit := "µg/m³"

  /**
   * generateSimulatedAirQualityData, with the two draws for pm25 and o3 and
   * the ISO timestamp `now` (parsed to `nowTime`).
   */
  function GenerateSimulatedAirQualityData(lat: real, lon: real, dPm: Draw, dO3: Draw, now: string, nowTime: real): (r: seq<Measurement>)
    ensures |r| == 3
    ensures r[0].parameter == Some("pm25") && r[1].parameter == Some("pm10") && r[2].parameter == Some("o3")
    ensures r[0].value == Num(RoundTo1((15.0 + dPm * 20.0) * LocationFactor(lat, lon)))
    ensures r[1].value == Num(RoundTo1((15.0 + dPm * 20.0) * 1.5 * LocationFactor(lat, lon)))
    ensures r[2].value == Num(RoundTo1((40.0 + dO3 * 30.0) * LocationFactor(lat, lon)))
    ensures forall i :: 0 <= i < 3 ==> r[i].unit == SimUnit && r[i].date == Some(UtcDate(now, Num(nowTime)))
  {
    var date := Some(UtcDate(now, Num(nowTime)));
    [ Measurement(Some("pm25"), Num(RoundTo1((15.0 + dPm * 20.0) * LocationFactor(lat, lon))), SimUnit, date),
      Measurement(Some("pm10"), Num(RoundTo1((15.0 + dPm * 20.0) * 1.5 * LocationFactor(lat, lon))), SimUnit, date),
      Measurement(Some("o3"), Num(RoundTo1((40.0 + dO3 * 30.0) * LocationFactor(lat, lon))), SimUnit, date) ]
  }

  /** The simulated pm25 stays within the factor-scaled range [15, 35). */
  lemma SimulatedPm25Range(lat: real, lon: real, dPm: Draw, dO3: Draw, now: string, nowTime: real)
    ensures var f := LocationFactor(lat, lon);
      var v := GenerateSimulatedAirQualityData(lat, lon, dPm, dO3, now, nowTime)[0].value.v;
      15.0 * f - 0.05 < v < 35.0 * f + 0.05
  {
    var f := LocationFactor(lat, lon);
    assert 15.0 * f <= (15.0 + dPm * 20.0) * f < 35.0 * f;
  }

  /** An entry `parameters[param]` of the reduction. */
  datatype Stored = Stored(value: JsNumber, unit: string, date: Option<UtcDate>)

  function StoredOf(m: Measurement): Stored
  {
    Stored(m.value, m.unit, m.date)
  }

  /** `new Date(a) > new Date(b)`: false as soon as either side is NaN. */
  predicate Later(a: JsNumber, b: JsNumber)
  {
    a.Num? && b.Num? && a.v > b.v
  }

  /**
   * The names a plain object `{}` inherits from Object.prototype: before
   * anything is stored under them, `parameters[name]` is already truthy.
   */
  predicate Inherited(p: Option<string>)
  {
    p.Some? && p.value in {"constructor", "toString", "toLocaleString", "valueOf", "hasOwnProperty",
      "isPrototypeOf", "propertyIsEnumerable", "__proto__", "__defineGetter__", "__defineSetter__",
      "__lookupGetter__", "__lookupSetter__"}
  }

  /**
   * One forEach step. A measurement is stored when its parameter is new, or
   * when its date is strictly later than the stored one. Comparing with a
   * missing `date` object throws (None); so does a new parameter named like
   * an inherited property, whose inherited value has no `date`.
   */
  function Step(t: map<Option<string>, Stored>, m: Measurement): (r: Option<map<Option<string>, Stored>>)
    ensures r.None? <==>
      if m.parameter in t then m.date.None? || t[m.parameter].date.None? else Inherited(m.parameter)
    ensures r.Some? ==> r.value.Keys == t.Keys + {m.parameter}
    ensures r.Some? ==> m.parameter in t || r.value[m.parameter] == StoredOf(m)
    ensures r.Some? ==> forall k :: k in t && k != m.parameter ==> r.value[k] == t[k]
  {
    if m.parameter !in t then
      if Inherited(m.parameter) then None else Some(t[m.parameter := StoredOf(m)])
    else if m.date.None? || t[m.parameter].date.None? then None
    else if Later(m.date.value.time, t[m.parameter].date.value.time) then Some(t[m.parameter := StoredOf(m)])
    else Some(t)
  }

  /** The `parameters` dictionary after the forEach over `s`; None when a step threw. */
  function Latest(s: seq<Measurement>): Option<map<Option<string>, Stored>>
  {
    if s == [] then Some(map[])
    else match Latest(s[..|s| - 1])
      case None => None
      case Some(t) => Step(t, s[|s| - 1])
  }

  /** The processed record; a null field is None. */
  datatype AirQualitySummary = AirQualitySummary(
    pm25: Option<real>, pm10: Option<real>, no2: Option<real>,
    o3: Option<real>, so2: Option<real>, co: Option<real>, lastUpdate: string)

  /** `parameters[name]?.value || null`: 0 and NaN are falsy and read as null. */
  function FieldOf(t: map<Option<string>, Stored>, name: string): (r: Option<real>)
    ensures r.Some? <==> Some(name) in t && t[Some(name)].value.Num? && t[Some(name)].value.v != 0.0
    ensures r.Some? ==> t[Some(name)].value == Num(r.value)
  {
    if Some(name) in t && t[Some(name)].value.Num? && t[Some(name)].value.v != 0.0
    then Some(t[Some(name)].value.v) else None
  }

  /** `latestData?.date?.utc || now`, where latestData is the first entry. */
  function LastUpdate(s: seq<Measurement>, now: string): (r: string)
    ensures s != [] && s[0].date.Some? && s[0].date.value.utc != "" ==> r == s[0].date.value.utc
    ensures s == [] || s[0].date.None? || s[0].date.value.utc == "" ==> r == now
  {
    if s != [] && s[0].date.Some? && s[0].date.value.utc != "" then s[0].date.value.utc else now
  }

  /** The result of processAirQualityData, None when it throws. */
  function Summarize(s: seq<Measurement>, now: string): Option<AirQualitySummary>
  {
    match Latest(s)
    case None => None
    case Some(t) => Some(AirQualitySummary(
      FieldOf(t, "pm25"), FieldOf(t, "pm10"), FieldOf(t, "no2"),
      FieldOf(t, "o3"), FieldOf(t, "so2"), FieldOf(t, "co"), LastUpdate(s, now)))
  }

  /** Once a step has thrown, nothing later can recover. */
  lemma {:induction false} LatestStaysFailed(s: seq<Measurement>, k: nat)
    requires k <= |s| && Latest(s[..k]) == None
    ensures Latest(s) == None
  {
    if k < |s| {
      assert s[..|s| - 1][..k] == s[..k];
      LatestStaysFailed(s[..|s| - 1], k);
    } else {
      assert s[..k] == s;
    }
  }

  /** processAirQualityData: the forEach over the list, updating `parameters` in place. */
  method ProcessAirQualityData(data: seq<Measurement>, now: string) returns (r: Option<AirQualitySummary>)
    ensures r == Summarize(data, now)
  {
    var parameters: map<Option<string>, Stored> := map[];
    var i := 0;
    while i < |data|
      invariant 0 <= i <= |data|
      invariant Latest(data[..i]) == Some(parameters)
    {
      var m := data[i];
      assert data[..i + 1][..i] == data[..i];
      if m.parameter !in parameters {
        if Inherited(m.parameter) {
          LatestStaysFailed(data, i + 1);
          return None;
        }
        parameters := parameters[m.parameter := StoredOf(m)];
      } else if m.date.None? || parameters[m.parameter].date.None? {
        LatestStaysFailed(data, i + 1);
        return None;
      } else if Later(m.date.value.time, parameters[m.parameter].date.value.time) {
        parameters := parameters[m.parameter := StoredOf(m)];
      }
      i := i + 1;
    }
    assert data[..i] == data;
    r := Some(AirQualitySummary(
      FieldOf(parameters, "pm25"), FieldOf(parameters, "pm10"), FieldOf(parameters, "no2"),
      FieldOf(parameters, "o3"), FieldOf(parameters, "so2"), FieldOf(parameters, "co"), LastUpdate(data, now)));
  }

  /**
   * Every entry carries a date object with a parseable time, under a
   * parameter name that is not inherited.
   */
  predicate WellDated(s: seq<Measurement>)
  {
    forall i :: 0 <= i < |s| ==> s[i].date.Some? && s[i].date.value.time.Num? && !Inherited(s[i].parameter)
  }

  /** The parsed time of a well-dated entry. */
  function TimeOf(m: Measurement): real
  {
    if m.date.Some? && m.date.value.time.Num? then m.date.value.time.v else 0.0
  }

  /**
   * Entry `i` is the first of the entries with parameter `k` whose date is
   * the latest among them.
   */
  predicate IsFirstLatest(s: seq<Measurement>, k: Option<string>, i: int)
  {
    0 <= i < |s| && s[i].parameter == k &&
    (forall j :: 0 <= j < |s| && s[j].parameter == k ==> TimeOf(s[j]) <= TimeOf(s[i])) &&
    (forall j :: 0 <= j < i && s[j].parameter == k ==> TimeOf(s[j]) < TimeOf(s[i]))
  }

  /** The parameter `k` occurs in `s`. */
  predicate Occurs(s: seq<Measurement>, k: Option<string>)
  {
    exists i :: 0 <= i < |s| && s[i].parameter == k
  }

  /** A parameter occurs in a list with one more entry exactly when it occurs before or is the new one's. */
  lemma OccursSnoc(p: seq<Measurement>, m: Measurement, k: Option<string>)
    ensures Occurs(p + [m], k) <==> Occurs(p, k) || m.parameter == k
  {
    var s := p + [m];
    if Occurs(p, k) {
      var i :| 0 <= i < |p| && p[i].parameter == k;
      assert s[i] == p[i];
    }
    if Occurs(s, k) && m.parameter != k {
      var i :| 0 <= i < |s| && s[i].parameter == k;
      assert p[i] == s[i];
    }
    assert s[|p|] == m;
  }

  /** A step over a dated entry with an own name does not throw, and every stored entry stays dated. */
  lemma StepKeepsDates(t: map<Option<string>, Stored>, m: Measurement)
    requires forall k :: k in t ==> t[k].date.Some?
    requires m.date.Some? && !Inherited(m.parameter)
    ensures Step(t, m).Some?
    ensures forall k :: k in Step(t, m).value ==> Step(t, m).value[k].date.Some?
  {
  }

  /** On a well-dated list the reduction does not throw and its keys are the parameters that occur. */
  lemma {:induction false} LatestKeys(s: seq<Measurement>)
    requires WellDated(s)
    ensures Latest(s).Some?
    ensures forall k :: k in Latest(s).value <==> Occurs(s, k)
    ensures forall k :: k in Latest(s).value ==> Latest(s).value[k].date.Some?
  {
    if s != [] {
      var p := s[..|s| - 1];
      var m := s[|s| - 1];
      assert WellDated(p) by {
        forall i | 0 <= i < |p| ensures p[i].date.Some? && p[i].date.value.time.Num? && !Inherited(p[i].parameter) {
          assert p[i] == s[i];
        }
      }
      LatestKeys(p);
      var t := Latest(p).value;
      assert s == p + [m];
      assert m.date.Some?;
      assert Latest(s) == Step(t, m);
      StepKeepsDates(t, m);
      forall k
        ensures k in Latest(s).value <==> Occurs(s, k)
      {
        OccursSnoc(p, m, k);
      }
    }
  }

  /** A winner of the prefix stays the winner when the new entry is not strictly later. */
  lemma WinnerStays(p: seq<Measurement>, m: Measurement, k: Option<string>, i: int)
    requires IsFirstLatest(p, k, i)
    requires m.parameter != k || TimeOf(m) <= TimeOf(p[i])
    ensures IsFirstLatest(p + [m], k, i)
  {
    var s := p + [m];
    assert s[i] == p[i];
    forall j | 0 <= j < |p| ensures s[j] == p[j] { }
  }

  /** The new entry wins when it is strictly later than every earlier entry with its parameter. */
  lemma NewWinner(p: seq<Measurement>, m: Measurement)
    requires forall j :: 0 <= j < |p| && p[j].parameter == m.parameter ==> TimeOf(p[j]) < TimeOf(m)
    ensures IsFirstLatest(p + [m], m.parameter, |p|)
  {
    var s := p + [m];
    forall j | 0 <= j < |p| ensures s[j] == p[j] { }
  }

  /** The inductive step of LatestKeepsFirstLatest, for one key. */
  lemma LatestStepWinner(p: seq<Measurement>, m: Measurement, t: map<Option<string>, Stored>, k: Option<string>)
    requires forall k' :: k' in t <==> Occurs(p, k')
    requires k in t ==> exists i :: IsFirstLatest(p, k, i) && t[k] == StoredOf(p[i])
    requires Step(t, m).Some? && k in Step(t, m).value
    requires WellDated(p + [m])
    ensures exists i :: IsFirstLatest(p + [m], k, i) && Step(t, m).value[k] == StoredOf((p + [m])[i])
  {
    var s := p + [m];
    var n := |p|;
    assert s[n] == m;
    if k !in t {
      assert k == m.parameter;
      assert !Occurs(p, k);
      NewWinner(p, m);
      assert IsFirstLatest(s, k, n);
    } else {
      var i :| IsFirstLatest(p, k, i) && t[k] == StoredOf(p[i]);
      assert s[i] == p[i];
      assert m.date.Some? && m.date.value.time.Num?;
      assert p[i].date.Some? && p[i].date.value.time.Num?;
      if k == m.parameter && TimeOf(m) > TimeOf(p[i]) {
        assert Step(t, m).value[k] == StoredOf(m);
        NewWinner(p, m);
        assert IsFirstLatest(s, k, n);
      } else {
        WinnerStays(p, m, k, i);
      }
    }
  }

  /**
   * On a well-dated list each key holds the entry with the latest date, the
   * earliest such entry when several share that date.
   */
  lemma {:induction false} LatestKeepsFirstLatest(s: seq<Measurement>)
    requires WellDated(s)
    ensures Latest(s).Some?
    ensures forall k :: k in Latest(s).value ==>
      exists i :: IsFirstLatest(s, k, i) && Latest(s).value[k] == StoredOf(s[i])
  {
    LatestKeys(s);
    if s != [] {
      var p := s[..|s| - 1];
      var m := s[|s| - 1];
      assert s == p + [m];
      assert WellDated(p) by {
        forall i | 0 <= i < |p| ensures p[i].date.Some? && p[i].date.value.time.Num? && !Inherited(p[i].parameter) {
          assert p[i] == s[i];
        }
      }
      LatestKeepsFirstLatest(p);
      LatestKeys(p);
      var t := Latest(p).value;
      assert Latest(s) == Step(t, m);
      StepKeepsDates(t, m);
      forall k | k in Latest(s).value
        ensures exists i :: IsFirstLatest(s, k, i) && Latest(s).value[k] == StoredOf(s[i])
      {
        LatestStepWinner(p, m, t, k);
      }
    }
  }

  /**
   * A list that names none of the six reported parameters, such as the
   * one-element fallback list, yields six null fields.
   */
  lemma {:induction false} NoReportedParameterAllNull(s: seq<Measurement>, now: string)
    requires Summarize(s, now).Some?
    requires forall i :: 0 <= i < |s| ==> s[i].parameter !in {Some("pm25"), Some("pm10"), Some("no2"), Some("o3"), Some("so2"), Some("co")}
    ensures var a := Summarize(s, now).value;
      a.pm25 == None && a.pm10 == None && a.no2 == None && a.o3 == None && a.so2 == None && a.co == None
  {
    LatestKeysOccur(s);
  }

  /** Every key of the reduction is a parameter that occurs in the list. */
  lemma {:induction false} LatestKeysOccur(s: seq<Measurement>)
    requires Latest(s).Some?
    ensures forall k :: k in Latest(s).value ==> exists i :: 0 <= i < |s| && s[i].parameter == k
  {
    if s != [] {
      var p := s[..|s| - 1];
      LatestKeysOccur(p);
      forall k | k in Latest(s).value
        ensures exists i :: 0 <= i < |s| && s[i].parameter == k
      {
        if k != s[|s| - 1].parameter {
          var i :| 0 <= i < |p| && p[i].parameter == k;
          assert s[i] == p[i];
        }
      }
    }
  }

  /**
   * When every request fails, the processed fallback list is all null and
   * carries the current time, because the fake reading has no date.
   */
  lemma FailedFetchSummary(lat: real, lon: real, d: Draw, now: string)
    ensures Summarize(FetchAirQualityData(lat, lon, AirFailed, d), now) ==
      Some(AirQualitySummary(None, None, None, None, None, None, now))
  {
    var s := FetchAirQualityData(lat, lon, AirFailed, d);
    assert s[..0] == [];
    assert Latest(s) == Some(map[None := StoredOf(s[0])]);
  }

  /** The first entry, not the latest one, supplies `lastUpdate`. */
  lemma LastUpdateIsFirstEntry()
    ensures var s := [ Measurement(Some("pm25"), Num(5.0), "", Some(UtcDate("a", Num(1.0)))),
                       Measurement(Some("pm25"), Num(7.0), "", Some(UtcDate("b", Num(2.0)))) ];
      Summarize(s, "now") == Some(AirQualitySummary(Some(7.0), None, None, None, None, None, "a"))
  {
    var s := [ Measurement(Some("pm25"), Num(5.0), "", Some(UtcDate("a", Num(1.0)))),
               Measurement(Some("pm25"), Num(7.0), "", Some(UtcDate("b", Num(2.0)))) ];
    assert s[..1][..0] == [];
    assert s[..1] == [s[0]];
    assert Latest(s[..1]) == Some(map[Some("pm25") := StoredOf(s[0])]);
  }

  /** The five PM2.5 categories in order of severity. */
  datatype PmBand = Good | Moderate | SensitiveUnhealthy | Unhealthy | VeryUnhealthy

  function Severity(b: PmBand): nat
  {
    match b
    case Good => 0
    case Moderate => 1
    case SensitiveUnhealthy => 2
    case Unhealthy => 3
    case VeryUnhealthy => 4
  }

  /** The category a pm25 value falls into; every upper bound is inclusive. */
  function BandOf(pm25: real): (b: PmBand)
    ensures b == Good <==> pm25 <= 12.0
    ensures b == Moderate <==> 12.0 < pm25 <= 35.0
    ensures b == SensitiveUnhealthy <==> 35.0 < pm25 <= 55.0
    ensures b == Unhealthy <==> 55.0 < pm25 <= 150.0
    ensures b == VeryUnhealthy <==> 150.0 < pm25
  {
    if pm25 <= 12.0 then Good
    else if pm25 <= 35.0 then Moderate
    else if pm25 <= 55.0 then SensitiveUnhealthy
    else if pm25 <= 150.0 then Unhealthy
    else VeryUnhealthy
  }

  /** A higher concentration never gives a less severe category. */
  lemma BandMonotone(p: real, q: real)
    requires p <= q
    ensures Severity(BandOf(p)) <= Severity(BandOf(q))
  {
  }

  /** getRealAirQualityStatus. */
  function RealAirQualityStatus(pm25: real): (q: Quality)
    ensures q == BadgeOf(BandOf(pm25))
  {
    if pm25 <= 12.0 then Quality("Good", 0x4CAF50)
    else if pm25 <= 35.0 then Quality("Moderate", 0x8BC34A)
    else if pm25 <= 55.0 then Quality("Unhealthy for sensitive groups", 0xFF9800)
    else if pm25 <= 150.0 then Quality("Unhealthy", 0xF44336)
    else Quality("Very Unhealthy", 0x9C27B0)
  }

  /** The badge of each category. */
  function BadgeOf(b: PmBand): Quality
  {
    match b
    case Good => Quality("Good", 0x4CAF50)
    case Moderate => Quality("Moderate", 0x8BC34A)
    case SensitiveUnhealthy => Quality("Unhealthy for sensitive groups", 0xFF9800)
    case Unhealthy => Quality("Unhealthy", 0xF44336)
    case VeryUnhealthy => Quality("Very Unhealthy", 0x9C27B0)
  }

  /** getAirQualityColor, written out separately from the badges. */
  function AirQualityColor(pm25: real): (c: int)
    ensures c == BadgeOf(BandOf(pm25)).color
  {
    if pm25 <= 12.0 then 0x4CAF50
    else if pm25 <= 35.0 then 0x8BC34A
    else if pm25 <= 55.0 then 0xFF9800
    else if pm25 <= 150.0 then 0xF44336
    else 0x9C27B0
  }

  /** For every pm25 the colour function agrees with the status badge. */
  lemma ColorAgreesWithStatus(pm25: real)
    ensures AirQualityColor(pm25) == RealAirQualityStatus(pm25).color
  {
  }

  /** Distinct categories have distinct colours, so the colour determines the category. */
  lemma ColorDeterminesBand(p: real, q: real)
    ensures AirQualityColor(p) == AirQualityColor(q) <==> BandOf(p) == BandOf(q)
  {
  }
}
