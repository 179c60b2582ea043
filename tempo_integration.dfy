/**
 * The parts of scripts/apis/nasa-tempo.js that walk the globe: the five
 * TEMPO markers, the coverage loop that attaches TEMPO data, the recolouring
 * by TEMPO quality, and the left panel (point count and pollutant rates).
 */
module TempoIntegration {
  import opened Prelude
  import opened Scene
  import NasaTempo
  import DataPoints
  import FloatingInterfaces

  /** One of the fixed TEMPO markers. */
  datatype TempoSite = TempoSite(name: string, lat: real, lon: real, data: string, color: int)

  /** The five markers of addTEMPOPointsToGlobe, in order. */
  function TempoSites(): (s: seq<TempoSite>)
    ensures |s| == 5
    ensures forall i :: 0 <= i < |s| ==> s[i].name != "" && Contains(s[i].name, "TEMPO")
  {
    var s := [
      TempoSite("TEMPO - Los Angeles", 34.0522, -118.2437, "Ozônio: 45 ppb | NO₂: 15 ppb", 0xff6b6b),
      TempoSite("TEMPO - New York", 40.7128, -74.0060, "Ozônio: 38 ppb | NO₂: 22 ppb", 0x4ecdc4),
      TempoSite("TEMPO - Chicago", 41.8781, -87.6298, "Ozônio: 42 ppb | NO₂: 18 ppb", 0xffa726),
      TempoSite("TEMPO - Houston", 29.7604, -95.3698, "Ozônio: 52 ppb | NO₂: 25 ppb", 0xe91e63),
      TempoSite("TEMPO - Phoenix", 33.4484, -112.0740, "Ozônio: 48 ppb | NO₂: 12 ppb", 0x9c27b0)];
    assert forall i :: 0 <= i < |s| ==> s[i].name[..5] == "TEMPO";
    s
  }

  /** The `userData` of a TEMPO marker (the record itself). */
  function TempoPointData(s: TempoSite): (u: PointData)
    ensures u.name == Some(s.name) && u.kind == Some("tempo") && u.lat == Num(s.lat) && u.lon == Num(s.lon)
  {
    Blank.(name := Some(s.name), kind := Some("tempo"), lat := Num(s.lat), lon := Num(s.lon),
      data := Some(DataPoints.Text(s.data)))
  }

  /** The marker node of a site, projected by `proj`, with its interface attached. */
  function TempoNode(s: TempoSite, proj: (real, real) -> Vec3, m: Metric, ds: FloatingInterfaces.LabelDraws): Node
  {
    var u := TempoPointData(s);
    Node(u.(iface := Some(FloatingInterfaces.InterfaceAt(u, proj(s.lat, s.lon), m, ds))), proj(s.lat, s.lon), s.color)
  }

  /**
   * addTEMPOPointsToGlobe: without a globe nothing happens; otherwise the
   * five markers are appended in order, each followed at once by its
   * interface. `proj` is the latitude/longitude projection.
   */
  method AddTEMPOPointsToGlobe(g: Globe?, proj: (real, real) -> Vec3, m: Metric, draws: nat -> FloatingInterfaces.LabelDraws)
    modifies g
    ensures g != null ==> (|g.nodes| == |old(g.nodes)| + 5 && g.nodes[..|old(g.nodes)|] == old(g.nodes) &&
      forall k :: 0 <= k < 5 ==> g.nodes[|old(g.nodes)| + k] == TempoNode(TempoSites()[k], proj, m, draws(k)))
  {
    if g == null {
      return;
    }
    var start := g.nodes;
    var sites := TempoSites();
    var k := 0;
    while k < 5
      invariant 0 <= k <= 5
      invariant |g.nodes| == |start| + k && g.nodes[..|start|] == start
      invariant forall j :: 0 <= j < k ==> g.nodes[|start| + j] == TempoNode(sites[j], proj, m, draws(j))
    {
      var u := TempoPointData(sites[k]);
      var pos := proj(sites[k].lat, sites[k].lon);
      FloatingInterfaces.InterfaceForAddedNode(g.nodes, u, pos, sites[k].color, m, draws(k));
      g.nodes := g.nodes + [Node(u, pos, sites[k].color)];
      var f := FloatingInterfaces.CreateFloatingInterface(u, g.nodes, m, draws(k));
      g.nodes := g.nodes[|g.nodes| - 1 := FloatingInterfaces.WithIface(g.nodes[|g.nodes| - 1], f)];
      k := k + 1;
    }
  }

  /** The strict coverage box of integrateTEMPODataWithPoints; NaN coordinates are outside. */
  predicate InTempoCoverage(lat: JsNumber, lon: JsNumber)
  {
    lat.Num? && lon.Num? && 10.0 < lat.v < 70.0 && -180.0 < lon.v < -50.0
  }

  /** All five TEMPO markers lie inside the coverage box. */
  lemma TempoSitesCovered(k: int)
    requires 0 <= k < 5
    ensures InTempoCoverage(TempoPointData(TempoSites()[k]).lat, TempoPointData(TempoSites()[k]).lon)
  {
  }

  /**
   * Node `n` after the fetch loop: a named node inside coverage gets the
   * ozone result of fetchTEMPOData, which is never falsy; others keep theirs.
   */
  function WithTempoData(n: Node, outcome: NasaTempo.TempoFetch, d: Draw): (r: Node)
    ensures r.position == n.position && r.user == n.user.(tempoData := r.user.tempoData)
  {
    if Named(n.user) && InTempoCoverage(n.user.lat, n.user.lon)
    then n.(user := n.user.(tempoData := Some(NasaTempo.FetchTEMPOData(n.user.lat.v, n.user.lon.v, "ozone", outcome, d))))
    else n
  }

  /** Node `n` after updateDataPointsWithTEMPOData's traversal: only a simulated reading recolours it. */
  function Recolored(n: Node): Node
  {
    if n.user.tempoData.Some? && n.user.tempoData.value.TempoSimulated?
    then n.(color := NasaTempo.TempoColor(n.user.tempoData.value.pollutant.quality))
    else n
  }

  /**
   * updateDataPointsWithTEMPOData: recolour every node holding a simulated
   * TEMPO reading, then redraw the interfaces.
   */
  method UpdateDataPointsWithTEMPOData(g: Globe?, m: Metric, draws: nat -> FloatingInterfaces.LabelDraws)
    modifies g
    ensures g != null ==> (|g.nodes| == |old(g.nodes)| &&
      forall i :: 0 <= i < |g.nodes| ==> g.nodes[i] == FloatingInterfaces.Redrawn(Recolored(old(g.nodes)[i]), m, draws(i)))
  {
    if g == null {
      return;
    }
    var start := g.nodes;
    var i := 0;
    while i < |g.nodes|
      invariant 0 <= i <= |g.nodes| == |start|
      invariant forall j :: 0 <= j < i ==> g.nodes[j] == Recolored(start[j])
      invariant forall j :: i <= j < |g.nodes| ==> g.nodes[j] == start[j]
    {
      g.nodes := g.nodes[i := Recolored(g.nodes[i])];
      i := i + 1;
    }
    FloatingInterfaces.UpdateFloatingInterfaces(g, m, draws);
  }

  /**
   * integrateTEMPODataWithPoints: without a globe nothing happens (the
   * retry timer is not modelled); otherwise every named node inside
   * coverage gets an ozone reading, fetched with `outcomes(i)` and drawn
   * with `d(i)`, and then updateDataPointsWithTEMPOData runs.
   */
  method IntegrateTEMPODataWithPoints(g: Globe?, outcomes: nat -> NasaTempo.TempoFetch, d: nat -> Draw,
      m: Metric, draws: nat -> FloatingInterfaces.LabelDraws)
    modifies g
    ensures g != null ==> (|g.nodes| == |old(g.nodes)| &&
      forall i :: 0 <= i < |g.nodes| ==>
        g.nodes[i] == FloatingInterfaces.Redrawn(Recolored(WithTempoData(old(g.nodes)[i], outcomes(i), d(i))), m, draws(i)))
  {
    if g == null {
      return;
    }
    var start := g.nodes;
    var i := 0;
    while i < |g.nodes|
      invariant 0 <= i <= |g.nodes| == |start|
      invariant forall j :: 0 <= j < i ==> g.nodes[j] == WithTempoData(start[j], outcomes(j), d(j))
      invariant forall j :: i <= j < |g.nodes| ==> g.nodes[j] == start[j]
    {
      var u := g.nodes[i].user;
      if Named(u) && InTempoCoverage(u.lat, u.lon) {
        var t := NasaTempo.FetchTEMPOData(u.lat.v, u.lon.v, "ozone", outcomes(i), d(i));
        g.nodes := g.nodes[i := g.nodes[i].(user := u.(tempoData := Some(t)))];
      }
      i := i + 1;
    }
    UpdateDataPointsWithTEMPOData(g, m, draws);
  }

  /**
   * After the coverage loop, a covered node whose fetch failed is coloured
   * by the tier of its simulated ozone reading; one that got a processed
   * response keeps its colour; a node outside coverage is unchanged.
   */
  lemma TempoColourAfterIntegration(n: Node, outcome: NasaTempo.TempoFetch, d: Draw)
    ensures Named(n.user) && InTempoCoverage(n.user.lat, n.user.lon) && !outcome.TempoBody? ==>
      Recolored(WithTempoData(n, outcome, d)).color ==
        NasaTempo.TempoColor(NasaTempo.GenerateSimulatedTEMPOData(n.user.lat.v, n.user.lon.v, "ozone", d).pollutant.quality)
    ensures Named(n.user) && InTempoCoverage(n.user.lat, n.user.lon) && outcome.TempoBody? ==>
      Recolored(WithTempoData(n, outcome, d)) == WithTempoData(n, outcome, d) &&
      Recolored(WithTempoData(n, outcome, d)).color == n.color
    ensures !(Named(n.user) && InTempoCoverage(n.user.lat, n.user.lon)) ==> WithTempoData(n, outcome, d) == n
  {
  }

  /** `child.userData.name` is truthy and the point is a TEMPO point. */
  predicate CountsAsTempo(n: Node)
  {
    Named(n.user) && FloatingInterfaces.IsTempoPoint(n.user)
  }

  /** The number of nodes the `tempo-points-count` label reports. */
  function TempoPointCount(nodes: seq<Node>): (c: nat)
    ensures c <= |nodes|
  {
    if nodes == [] then 0
    else TempoPointCount(nodes[..|nodes| - 1]) + (if CountsAsTempo(nodes[|nodes| - 1]) then 1 else 0)
  }

  /** The count over a concatenation is the sum of the counts. */
  lemma {:induction false} TempoPointCountConcat(a: seq<Node>, b: seq<Node>)
    ensures TempoPointCount(a + b) == TempoPointCount(a) + TempoPointCount(b)
  {
    if b != [] {
      assert (a + b)[..|a + b| - 1] == a + b[..|b| - 1];
      TempoPointCountConcat(a, b[..|b| - 1]);
    } else {
      assert a + b == a;
    }
  }

  /** Every node counts iff the count equals the length. */
  lemma {:induction false} TempoPointCountAll(nodes: seq<Node>)
    ensures TempoPointCount(nodes) == |nodes| <==> forall i :: 0 <= i < |nodes| ==> CountsAsTempo(nodes[i])
  {
    if nodes != [] {
      var p := nodes[..|nodes| - 1];
      TempoPointCountAll(p);
      assert forall i :: 0 <= i < |p| ==> p[i] == nodes[i];
    }
  }

  /** addTEMPOPointsToGlobe raises the reported count by exactly five. */
  lemma AddingTempoSitesAddsFive(before: seq<Node>, after: seq<Node>, proj: (real, real) -> Vec3, m: Metric,
      draws: nat -> FloatingInterfaces.LabelDraws)
    requires |after| == |before| + 5 && after[..|before|] == before
    requires forall k :: 0 <= k < 5 ==> after[|before| + k] == TempoNode(TempoSites()[k], proj, m, draws(k))
    ensures TempoPointCount(after) == TempoPointCount(before) + 5
  {
    var added := after[|before|..];
    assert after == before + added;
    forall i | 0 <= i < |added| ensures CountsAsTempo(added[i]) {
      assert added[i] == TempoNode(TempoSites()[i], proj, m, draws(i));
    }
    TempoPointCountAll(added);
    TempoPointCountConcat(before, added);
  }

  /** The four value lists updatePollutantRates collects, keyed ozone, no2, hcho and aerosol. */
  datatype Buckets = Buckets(ozone: seq<real>, no2: seq<real>, hcho: seq<real>, aerosol: seq<real>)

  const EmptyBuckets := Buckets([], [], [], [])

  /**
   * `tempoData[key].push(v)`: None where the key names no list, the
   * TypeError that aborts the collection.
   */
  function Push(b: Buckets, key: string, v: real): (r: Option<Buckets>)
    ensures r.None? <==> key !in {"ozone", "no2", "hcho", "aerosol"}
  {
    if key == "ozone" then Some(b.(ozone := b.ozone + [v]))
    else if key == "no2" then Some(b.(no2 := b.no2 + [v]))
    else if key == "hcho" then Some(b.(hcho := b.hcho + [v]))
    else if key == "aerosol" then Some(b.(aerosol := b.aerosol + [v]))
    else None
  }

  /** The node carries a simulated reading with a non-empty `type`, so its value is pushed. */
  predicate Collects(n: Node)
  {
    n.user.tempoData.Some? && n.user.tempoData.value.TempoSimulated? && n.user.tempoData.value.pollutant.kind != ""
  }

  /** One traversal step: push the node's value under `keyOf` of its type. */
  function CollectStep(b: Buckets, n: Node, keyOf: string -> string): Option<Buckets>
  {
    if Collects(n) then Push(b, keyOf(n.user.tempoData.value.pollutant.kind), n.user.tempoData.value.pollutant.value)
    else Some(b)
  }

  /** The collection over `nodes` in traversal order, with the list chosen by `keyOf`. */
  function Collected(nodes: seq<Node>, keyOf: string -> string): Option<Buckets>
  {
    if nodes == [] then Some(EmptyBuckets)
    else match Collected(nodes[..|nodes| - 1], keyOf)
      case None => None
      case Some(b) => CollectStep(b, nodes[|nodes| - 1], keyOf)
  }

  /** A collected node whose list is missing. */
  predicate Unlisted(n: Node, keyOf: string -> string)
  {
    Collects(n) && keyOf(n.user.tempoData.value.pollutant.kind) !in {"ozone", "no2", "hcho", "aerosol"}
  }

  /** The collection aborts iff some collected node has a type with no list. */
  lemma {:induction false} CollectedFailsIff(nodes: seq<Node>, keyOf: string -> string)
    ensures Collected(nodes, keyOf).None? <==> exists i :: 0 <= i < |nodes| && Unlisted(nodes[i], keyOf)
  {
    if nodes != [] {
      var p := nodes[..|nodes| - 1];
      CollectedFailsIff(p, keyOf);
      assert forall i :: 0 <= i < |p| ==> p[i] == nodes[i];
      if exists i :: 0 <= i < |nodes| && Unlisted(nodes[i], keyOf) {
        var i :| 0 <= i < |nodes| && Unlisted(nodes[i], keyOf);
        if i < |p| {
          assert Unlisted(p[i], keyOf);
        }
      }
    }
  }

  /** Once the collection over a prefix has aborted, it stays aborted. */
  lemma {:induction false} CollectedStaysFailed(nodes: seq<Node>, k: nat, keyOf: string -> string)
    requires k <= |nodes| && Collected(nodes[..k], keyOf).None?
    ensures Collected(nodes, keyOf).None?
  {
    CollectedFailsIff(nodes[..k], keyOf);
    var i :| 0 <= i < k && Unlisted(nodes[..k][i], keyOf);
    assert nodes[..k][i] == nodes[i];
    CollectedFailsIff(nodes, keyOf);
  }

  /** Where no node carries a simulated reading, every list stays empty. */
  lemma {:induction false} CollectedNothing(nodes: seq<Node>, keyOf: string -> string)
    requires forall i :: 0 <= i < |nodes| ==> !Collects(nodes[i])
    ensures Collected(nodes, keyOf) == Some(EmptyBuckets)
  {
    if nodes != [] {
      var p := nodes[..|nodes| - 1];
      assert forall i :: 0 <= i < |p| ==> p[i] == nodes[i];
      CollectedNothing(p, keyOf);
    }
  }

  /** The list a `type` goes to as written: the type itself. */
  function AsWrittenKey(kind: string): string
  {
    kind
  }

  /** The list a `type` is evidently meant to go to: simulated 'aerosols' readings go to 'aerosol'. */
  function IntendedKey(kind: string): (key: string)
    ensures kind in {"ozone", "no2", "hcho", "aerosols"} ==> key in {"ozone", "no2", "hcho", "aerosol"}
    ensures kind != "aerosols" ==> key == kind
  {
    if kind == "aerosols" then "aerosol" else kind
  }

  /**
   * As written, one simulated aerosols reading, the type
   * generateSimulatedTEMPOData gives it, aborts the whole collection.
   */
  lemma AerosolsReadingAbortsAsWritten(n: Node, lat: real, lon: real, d: Draw)
    requires n.user.tempoData == Some(NasaTempo.GenerateSimulatedTEMPOData(lat, lon, "aerosols", d))
    ensures Collected([n], AsWrittenKey).None?
    ensures Collected([n], IntendedKey) == Some(EmptyBuckets.(aerosol := [n.user.tempoData.value.pollutant.value]))
  {
    assert [n][..0] == [];
    var v := n.user.tempoData.value.pollutant.value;
    assert CollectStep(EmptyBuckets, n, IntendedKey) == Push(EmptyBuckets, "aerosol", v);
    assert [] + [v] == [v];
  }

  /**
   * With the intended key the collection never aborts on a simulated
   * reading of any of the four pollutants the simulator knows.
   */
  lemma IntendedCollectionSucceeds(nodes: seq<Node>)
    requires forall i :: 0 <= i < |nodes| && Collects(nodes[i]) ==>
      nodes[i].user.tempoData.value.pollutant.kind in {"ozone", "no2", "hcho", "aerosols"}
    ensures Collected(nodes, IntendedKey).Some?
  {
    CollectedFailsIff(nodes, IntendedKey);
  }

  /** The four rates shown in the panel. */
  datatype PanelRates = PanelRates(ozone: NasaTempo.Rate, no2: NasaTempo.Rate, hcho: NasaTempo.Rate, aerosol: NasaTempo.Rate)

  function RatesOf(b: Buckets): PanelRates
  {
    PanelRates(NasaTempo.PanelRate("ozone", b.ozone), NasaTempo.PanelRate("no2", b.no2),
      NasaTempo.PanelRate("hcho", b.hcho), NasaTempo.PanelRate("aerosol", b.aerosol))
  }

  /**
   * The rates the panel shows for `nodes`, collected as written (each
   * value pushed under its own `type`): None when the collection aborts,
   * otherwise one rate per list, a default where a list is empty.
   */
  function RatesShown(nodes: seq<Node>): (r: Option<PanelRates>)
    ensures r.None? <==> Collected(nodes, AsWrittenKey).None?
    ensures r.None? <==> exists i :: 0 <= i < |nodes| && Unlisted(nodes[i], AsWrittenKey)
    ensures r.Some? ==> Collected(nodes, AsWrittenKey).Some? && r.value == RatesOf(Collected(nodes, AsWrittenKey).value)
  {
    CollectedFailsIff(nodes, AsWrittenKey);
    var c := Collected(nodes, AsWrittenKey);
    if c.None? then None else Some(RatesOf(c.value))
  }

  /**
   * Where no simulated reading has the type 'aerosols', the collection as
   * written and the corrected one agree, so the panel shows the corrected
   * rates.
   */
  lemma {:induction false} AsWrittenAgreesWithIntended(nodes: seq<Node>)
    requires forall i :: 0 <= i < |nodes| && Collects(nodes[i]) ==> nodes[i].user.tempoData.value.pollutant.kind != "aerosols"
    ensures Collected(nodes, AsWrittenKey) == Collected(nodes, IntendedKey)
    ensures RatesShown(nodes) == (if Collected(nodes, IntendedKey).None? then None else Some(RatesOf(Collected(nodes, IntendedKey).value)))
  {
    if nodes != [] {
      var p := nodes[..|nodes| - 1];
      assert forall i :: 0 <= i < |p| ==> p[i] == nodes[i];
      AsWrittenAgreesWithIntended(p);
    }
  }

  /**
   * updateTEMPODataInPanel: the number of TEMPO points, and the four rates
   * (None when the collection aborted). It changes nothing.
   */
  method UpdateTEMPODataInPanel(g: Globe?) returns (count: nat, rates: Option<PanelRates>)
    ensures count == (if g == null then 0 else TempoPointCount(g.nodes))
    ensures rates == RatesShown(if g == null then [] else g.nodes)
  {
    count := 0;
    var nodes := if g == null then [] else g.nodes;
    var i := 0;
    while i < |nodes|
      invariant 0 <= i <= |nodes| && count == TempoPointCount(nodes[..i])
    {
      assert nodes[..i + 1][..i] == nodes[..i];
      if CountsAsTempo(nodes[i]) {
        count := count + 1;
      }
      i := i + 1;
    }
    assert nodes[..|nodes|] == nodes;
    rates := UpdatePollutantRates(nodes);
  }

  /** updatePollutantRates: the collection loop, then one rate per list. */
  method UpdatePollutantRates(nodes: seq<Node>) returns (rates: Option<PanelRates>)
    ensures rates == RatesShown(nodes)
  {
    var ozone, no2, hcho, aerosol := [], [], [], [];
    var i := 0;
    while i < |nodes|
      invariant 0 <= i <= |nodes| && Collected(nodes[..i], AsWrittenKey) == Some(Buckets(ozone, no2, hcho, aerosol))
    {
      assert nodes[..i + 1][..i] == nodes[..i];
      var n := nodes[i];
      if Collects(n) {
        var key := n.user.tempoData.value.pollutant.kind;
        var v := n.user.tempoData.value.pollutant.value;
        if key == "ozone" {
          ozone := ozone + [v];
        } else if key == "no2" {
          no2 := no2 + [v];
        } else if key == "hcho" {
          hcho := hcho + [v];
        } else if key == "aerosol" {
          aerosol := aerosol + [v];
        } else {
          CollectedStaysFailed(nodes, i + 1, AsWrittenKey);
          return None;
        }
      }
      i := i + 1;
    }
    assert nodes[..|nodes|] == nodes;
    rates := Some(RatesOf(Buckets(ozone, no2, hcho, aerosol)));
  }
}
