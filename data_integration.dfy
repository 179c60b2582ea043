/**
 * scripts/utils/data-integration.js: the pass that attaches real air-quality
 * and weather data to every named point, recolours the points from it, and
 * then starts the fire and TEMPO integrations; and the pass that
 * regenerates every point's simulated data.
 */
module DataIntegration {
  import opened Prelude
  import opened Scene
  import AirQuality
  import Weather
  import DataPoints
  import DataDisplay
  import FloatingInterfaces
  import NasaTempo
  import TempoIntegration
  import FireData

  /** What the two requests of one point give back, and the draws their fallbacks use. */
  datatype PointFetches = PointFetches(air: AirQuality.AirFetch, airDraw: Draw, weather: Weather.WeatherFetch, weatherDraw: Draw)

  /** Every named node has numeric coordinates, which both requests are built from. */
  predicate CoordinatesKnown(nodes: seq<Node>)
  {
    forall i :: 0 <= i < |nodes| && Named(nodes[i].user) ==> nodes[i].user.lat.Num? && nodes[i].user.lon.Num?
  }

  /**
   * The body of the loop for one point. A non-empty air list is processed,
   * and when that throws the catch skips the rest of the point, weather
   * included. A truthy weather payload is processed next; when that throws
   * the air summary already stored stays.
   */
  function Enriched(n: Node, f: PointFetches, now: string): (r: Node)
    requires Named(n.user) ==> n.user.lat.Num? && n.user.lon.Num?
    ensures r.position == n.position && r.color == n.color
    ensures r.user == n.user.(realAirQuality := r.user.realAirQuality, realWeather := r.user.realWeather)
  {
    if !Named(n.user) then n
    else
      var u := n.user;
      var air := AirQuality.FetchAirQualityData(u.lat.v, u.lon.v, f.air, f.airDraw);
      var s := AirQuality.Summarize(air, now);
      if |air| > 0 && s.None? then n
      else
        var u1 := if |air| > 0 then u.(realAirQuality := s) else u;
        var w := Weather.FetchWeatherData(u.lat.v, u.lon.v, f.weather, f.weatherDraw);
        var p := Weather.ProcessWeatherData(w, now);
        if Weather.Truthy(w) && p.Some? then n.(user := u1.(realWeather := p)) else n.(user := u1)
  }

  /**
   * What one point ends up with, stated against the two requests: an
   * unnamed node is untouched; a throwing air summary leaves the point as it
   * was; otherwise the air summary is stored when the list is non-empty and
   * the weather summary when the payload is truthy and well formed.
   */
  lemma EnrichedFields(n: Node, f: PointFetches, now: string)
    requires Named(n.user) ==> n.user.lat.Num? && n.user.lon.Num?
    ensures !Named(n.user) ==> Enriched(n, f, now) == n
    ensures Named(n.user) ==>
      var air := AirQuality.FetchAirQualityData(n.user.lat.v, n.user.lon.v, f.air, f.airDraw);
      var w := Weather.FetchWeatherData(n.user.lat.v, n.user.lon.v, f.weather, f.weatherDraw);
      var r := Enriched(n, f, now);
      (|air| > 0 && AirQuality.Summarize(air, now).None? ==> r == n) &&
      (!(|air| > 0 && AirQuality.Summarize(air, now).None?) ==>
        r.user.realAirQuality == (if |air| > 0 then AirQuality.Summarize(air, now) else n.user.realAirQuality) &&
        r.user.realWeather == (if Weather.Truthy(w) && Weather.ProcessWeatherData(w, now).Some?
          then Weather.ProcessWeatherData(w, now) else n.user.realWeather))
  {
  }

  /**
   * When both requests fail, the point is given the all-null air summary
   * stamped with the current time, and its weather stays as it was: the
   * weather fallback is truthy but has no `main` member.
   */
  lemma BothRequestsFail(n: Node, da: Draw, dw: Draw, now: string)
    requires Named(n.user) && n.user.lat.Num? && n.user.lon.Num?
    ensures Enriched(n, PointFetches(AirQuality.AirFailed, da, Weather.WeatherFailed, dw), now) ==
      n.(user := n.user.(realAirQuality := Some(AirQuality.AirQualitySummary(None, None, None, None, None, None, now))))
  {
    AirQuality.FailedFetchSummary(n.user.lat.v, n.user.lon.v, da, now);
    Weather.FailedFetchCannotBeProcessed(n.user.lat.v, n.user.lon.v, dw, now);
  }

  /**
   * The fetch loop of integrateRealDataWithPoints: node i is enriched with
   * `fetches(i)`; its position and colour do not change. The 200 ms pause
   * between points is not modelled.
   */
  method FetchRealDataForPoints(g: Globe, fetches: nat -> PointFetches, now: string)
    requires CoordinatesKnown(g.nodes)
    modifies g
    ensures |g.nodes| == |old(g.nodes)|
    ensures forall i :: 0 <= i < |g.nodes| ==> g.nodes[i] == Enriched(old(g.nodes)[i], fetches(i), now)
  {
    var start := g.nodes;
    var i := 0;
    while i < |g.nodes|
      invariant 0 <= i <= |g.nodes| == |start|
      invariant forall j :: 0 <= j < i ==> g.nodes[j] == Enriched(start[j], fetches(j), now)
      invariant forall j :: i <= j < |g.nodes| ==> g.nodes[j] == start[j]
    {
      var n := g.nodes[i];
      if Named(n.user) {
        var f := fetches(i);
        var u := n.user;
        var air := AirQuality.FetchAirQualityData(u.lat.v, u.lon.v, f.air, f.airDraw);
        var thrown := false;
        if |air| > 0 {
          var s := AirQuality.ProcessAirQualityData(air, now);
          if s.None? {
            thrown := true;
          } else {
            u := u.(realAirQuality := s);
          }
        }
        if !thrown {
          var w := Weather.FetchWeatherData(u.lat.v, u.lon.v, f.weather, f.weatherDraw);
          if Weather.Truthy(w) {
            var p := Weather.ProcessWeatherData(w, now);
            if p.Some? {
              u := u.(realWeather := p);
            }
          }
          g.nodes := g.nodes[i := n.(user := u)];
        }
      }
      i := i + 1;
    }
  }

  /**
   * updatePointColorWithRealData on node `n`: a real air summary with a
   * non-null pm25 sets the colour of its category.
   */
  function PointColorWithRealData(n: Node, rd: DataDisplay.RealData): (r: Node)
    ensures r == n.(color := r.color)
    ensures rd.airQuality.Some? && rd.airQuality.value.pm25.Some? ==>
      r.color == AirQuality.RealAirQualityStatus(rd.airQuality.value.pm25.value).color
    ensures !(rd.airQuality.Some? && rd.airQuality.value.pm25.Some?) ==> r == n
  {
    if rd.airQuality.Some? && rd.airQuality.value.pm25.Some?
    then n.(color := AirQuality.AirQualityColor(rd.airQuality.value.pm25.value))
    else n
  }

  /**
   * Node `n` after updateDataPointsWithRealData's traversal. The call to
   * updateFloatingInterfaceWithRealData does nothing and is left out.
   */
  function WithRealData(n: Node): Node
  {
    var rd := DataDisplay.GetRealDataForPoint(n.user);
    if Named(n.user) && rd.Some? then PointColorWithRealData(n, rd.value) else n
  }

  /**
   * The traversal recolours exactly the named nodes whose real air summary
   * has a pm25 value, with the colour of the badge that value earns, and
   * changes nothing else; running it twice is running it once.
   */
  lemma WithRealDataColour(n: Node)
    ensures WithRealData(n).user == n.user && WithRealData(n).position == n.position
    ensures Named(n.user) && n.user.realAirQuality.Some? && n.user.realAirQuality.value.pm25.Some? ==>
      WithRealData(n).color == AirQuality.RealAirQualityStatus(n.user.realAirQuality.value.pm25.value).color
    ensures !(Named(n.user) && n.user.realAirQuality.Some? && n.user.realAirQuality.value.pm25.Some?) ==>
      WithRealData(n) == n
    ensures WithRealData(WithRealData(n)) == WithRealData(n)
  {
    if Named(n.user) && n.user.realAirQuality.Some? && n.user.realAirQuality.value.pm25.Some? {
      AirQuality.ColorAgreesWithStatus(n.user.realAirQuality.value.pm25.value);
    }
  }

  /** updateDataPointsWithRealData: every node is recoloured from its real data. */
  method UpdateDataPointsWithRealData(g: Globe?)
    modifies g
    ensures g != null ==> (|g.nodes| == |old(g.nodes)| &&
      forall i :: 0 <= i < |g.nodes| ==> g.nodes[i] == WithRealData(old(g.nodes)[i]))
  {
    if g == null {
      return;
    }
    var start := g.nodes;
    var i := 0;
    while i < |g.nodes|
      invariant 0 <= i <= |g.nodes| == |start|
      invariant forall j :: 0 <= j < i ==> g.nodes[j] == WithRealData(start[j])
      invariant forall j :: i <= j < |g.nodes| ==> g.nodes[j] == start[j]
    {
      var n := g.nodes[i];
      if Named(n.user) {
        var rd := DataDisplay.GetRealDataForPoint(n.user);
        if rd.Some? {
          g.nodes := g.nodes[i := PointColorWithRealData(n, rd.value)];
        }
      }
      i := i + 1;
    }
  }

  /**
   * A point whose requests both failed keeps its colour, and its label
   * still reports CO2 and ozone as unavailable unless it carries a seeded
   * fake reading, since the fallback summary is all null.
   */
  lemma FailedRequestsKeepColour(n: Node, da: Draw, dw: Draw, now: string, d: Draw)
    requires Named(n.user) && n.user.lat.Num? && n.user.lon.Num?
    ensures var r := WithRealData(Enriched(n, PointFetches(AirQuality.AirFailed, da, Weather.WeatherFailed, dw), now));
      r.color == n.color &&
      (DataDisplay.FakeReading(r.user, CO2).None? ==> DataDisplay.GetDisplayValue(r.user, CO2, d) == Unavailable) &&
      (DataDisplay.FakeReading(r.user, Ozone).None? ==> DataDisplay.GetDisplayValue(r.user, Ozone, d) == Unavailable)
  {
    BothRequestsFail(n, da, dw, now);
  }

  /**
   * integrateRealDataWithPoints. Without a globe nothing happens (the
   * one-second retry is not modelled) and no fire count is shown.
   * Otherwise the fetch loop runs, then the recolouring traversal, then
   * the TEMPO integration over the existing nodes, and the fire markers
   * are appended after them; `shown` is the fire count the panel reports.
   */
  method IntegrateRealDataWithPoints(g: Globe?, fetches: nat -> PointFetches, now: string,
      fireOutcome: FireData.FireFetch, parse: string -> JsNumber, fireDraw: Draw,
      fireDraws: nat -> FireData.FireDraws, fireProj: (JsNumber, JsNumber) -> Vec3,
      tempoOutcomes: nat -> NasaTempo.TempoFetch, tempoDraws: nat -> Draw,
      m: Metric, labelDraws: nat -> FloatingInterfaces.LabelDraws) returns (shown: nat)
    requires g != null ==> CoordinatesKnown(g.nodes)
    modifies g
    ensures g == null ==> shown == 0
    ensures g != null ==> (|g.nodes| == |old(g.nodes)| + shown &&
      forall i :: 0 <= i < |old(g.nodes)| ==>
        g.nodes[i] == FloatingInterfaces.Redrawn(TempoIntegration.Recolored(TempoIntegration.WithTempoData(
          WithRealData(Enriched(old(g.nodes)[i], fetches(i), now)), tempoOutcomes(i), tempoDraws(i))), m, labelDraws(i)))
    ensures g != null && fireOutcome.FireFailed? ==> shown == FireData.SimulatedFireCount(fireDraw) && 5 <= shown <= 24
    ensures g != null && fireOutcome.FireCsv? ==> shown == |FireData.ParsedFires(fireOutcome.text, parse)|
    ensures g != null ==> forall i :: 0 <= i < shown ==>
      g.nodes[|old(g.nodes)| + i] == FireData.FireNode(
        if fireOutcome.FireCsv? then FireData.ParsedFires(fireOutcome.text, parse)[i] else FireData.SimulatedFire(fireDraws(i)),
        fireProj)
  {
    if g == null {
      return 0;
    }
    FetchRealDataForPoints(g, fetches, now);
    UpdateDataPointsWithRealData(g);
    TempoIntegration.IntegrateTEMPODataWithPoints(g, tempoOutcomes, tempoDraws, m, labelDraws);
    var before := g.nodes;
    shown := FireData.IntegrateFireData(g, fireOutcome, parse, fireDraw, fireDraws, fireProj);
    assert forall i :: 0 <= i < |before| ==> g.nodes[i] == g.nodes[..|before|][i];
  }

  /** Node `n` after updateDataPointsWithSimulatedData, drawn with `ds`. */
  function Simulated(n: Node, ds: DataPoints.StationDraws): (r: Node)
    ensures r.position == n.position && r.color == n.color && r.user == n.user.(data := r.user.data)
  {
    if Named(n.user)
    then n.(user := n.user.(data := DataPoints.GenerateStationData(n.user.kind, n.user.lat, n.user.data, ds)))
    else n
  }

  /**
   * The regenerated data depends on the type alone: a named point of a
   * known type gets a fresh report, one of any other type keeps its data,
   * and regenerating with the same draws changes nothing further.
   */
  lemma SimulatedData(n: Node, ds: DataPoints.StationDraws)
    ensures Named(n.user) && n.user.kind in {Some("station"), Some("monitoring"), Some("observatory"), Some("satellite")} ==>
      Simulated(n, ds).user.data.Some? && Simulated(n, ds).user.data.value.Report?
    ensures !Named(n.user) || n.user.kind !in {Some("station"), Some("monitoring"), Some("observatory"), Some("satellite")} ==>
      Simulated(n, ds) == n
    ensures Simulated(Simulated(n, ds), ds) == Simulated(n, ds)
  {
  }

  /** updateDataPointsWithSimulatedData: node i is regenerated with `draws(i)`. */
  method UpdateDataPointsWithSimulatedData(g: Globe?, draws: nat -> DataPoints.StationDraws)
    modifies g
    ensures g != null ==> (|g.nodes| == |old(g.nodes)| &&
      forall i :: 0 <= i < |g.nodes| ==> g.nodes[i] == Simulated(old(g.nodes)[i], draws(i)))
  {
    if g == null {
      return;
    }
    var start := g.nodes;
    var i := 0;
    while i < |g.nodes|
      invariant 0 <= i <= |g.nodes| == |start|
      invariant forall j :: 0 <= j < i ==> g.nodes[j] == Simulated(start[j], draws(j))
      invariant forall j :: i <= j < |g.nodes| ==> g.nodes[j] == start[j]
    {
      var n := g.nodes[i];
      if Named(n.user) {
        var d := DataPoints.GenerateStationData(n.user.kind, n.user.lat, n.user.data, draws(i));
        g.nodes := g.nodes[i := n.(user := n.user.(data := d))];
      }
      i := i + 1;
    }
  }
}
