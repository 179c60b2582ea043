/**
 * createDataPoints in scripts/globe/data-points.js: the fourteen NASA
 * points with their connector lines, their interfaces, the TEMPO markers,
 * the fallback stations and the first panel update, in that order.
 */
module DataPointsSetup {
  import opened Prelude
  import opened Scene
  import opened DataPoints
  import FallbackData
  import FallbackSeeding
  import FloatingInterfaces
  import TempoIntegration
  import DataIntegration

  /** The `userData` of a NASA point: its name, text, coordinates and type. */
  function FixedPointData(p: FixedPoint): (u: PointData)
    ensures u.name == Some(p.name) && u.data == Some(Text(p.data)) && u.lat == Num(p.lat) && u.lon == Num(p.lon)
    ensures u.kind == Some(p.kind) && u.iface.None? && u.tempoData.None?
  {
    Blank.(name := Some(p.name), data := Some(Text(p.data)), lat := Num(p.lat), lon := Num(p.lon), kind := Some(p.kind))
  }

  /** The sphere of a NASA point, at its projected position, in its colour. */
  function PointNode(p: FixedPoint, proj: (real, real) -> Vec3): Node
  {
    Node(FixedPointData(p), proj(p.lat, p.lon), p.color)
  }

  /** The connector line of a NASA point: same colour, no name, placed at the origin. */
  function LineNode(p: FixedPoint): Node
  {
    Node(Blank, Origin, p.color)
  }

  /** Node i of the forEach over `table`: the point of entry i/2, or its line. */
  function Placed(table: seq<FixedPoint>, proj: (real, real) -> Vec3, i: nat): Node
    requires i < 2 * |table|
  {
    if i % 2 == 0 then PointNode(table[i / 2], proj) else LineNode(table[i / 2])
  }

  /** The nodes the forEach over `table` adds, two per entry, in order. */
  function PlacedNodes(table: seq<FixedPoint>, proj: (real, real) -> Vec3): (s: seq<Node>)
    ensures |s| == 2 * |table| && forall i :: 0 <= i < 2 * |table| ==> s[i] == Placed(table, proj, i)
  {
    seq(2 * |table|, i requires 0 <= i < 2 * |table| => Placed(table, proj, i))
  }

  /** The forEach of createDataPoints over any table: each point is appended, then its line. */
  method PlaceTable(g: Globe, table: seq<FixedPoint>, proj: (real, real) -> Vec3)
    modifies g
    ensures g.nodes == old(g.nodes) + PlacedNodes(table, proj)
  {
    var start := g.nodes;
    ghost var added: seq<Node> := [];
    var k := 0;
    while k < |table|
      invariant 0 <= k <= |table| && |added| == 2 * k
      invariant g.nodes == start + added
      invariant forall j :: 0 <= j < 2 * k ==> added[j] == Placed(table, proj, j)
    {
      var p := table[k];
      g.nodes := g.nodes + [Node(FixedPointData(p), proj(p.lat, p.lon), p.color)];
      g.nodes := g.nodes + [Node(Blank, Origin, p.color)];
      added := added + [Placed(table, proj, 2 * k), Placed(table, proj, 2 * k + 1)];
      k := k + 1;
    }
    assert added == PlacedNodes(table, proj);
  }

  /** The forEach of createDataPoints over the fourteen NASA points. */
  method PlaceDataPoints(g: Globe, proj: (real, real) -> Vec3)
    modifies g
    ensures g.nodes == old(g.nodes) + PlacedNodes(DataPointsTable(), proj)
  {
    PlaceTable(g, DataPointsTable(), proj);
  }

  /**
   * The globe's nodes after createDataPoints ran on `start` with the point
   * table `table`, the TEMPO sites `sites` and the seeds `seeds`: the placed
   * nodes carry their interfaces, and the TEMPO markers and the fallback
   * stations follow.
   */
  predicate SetUp(nodes: seq<Node>, start: seq<Node>, table: seq<FixedPoint>, sites: seq<TempoIntegration.TempoSite>,
      seeds: seq<FallbackData.SeedPoint>, proj: (real, real) -> Vec3, m: Metric,
      ifaceDraws: nat -> FloatingInterfaces.LabelDraws, tempoDraws: nat -> FloatingInterfaces.LabelDraws,
      fakeDraws: nat -> FallbackData.FakeDraws, seedDraws: nat -> FloatingInterfaces.LabelDraws)
  {
    |nodes| == MarkerStart(start, table) + |sites| + |seeds| &&
    AttachedPrefix(nodes, start + PlacedNodes(table, proj), m, ifaceDraws) &&
    TempoMarkersAt(nodes, MarkerStart(start, table), sites, proj, m, tempoDraws) &&
    SeedsAt(nodes, MarkerStart(start, table) + |sites|, seeds, proj, m, fakeDraws, seedDraws)
  }

  /** Where the markers begin: after the nodes already there and the placed table. */
  function MarkerStart(start: seq<Node>, table: seq<FixedPoint>): (at: nat)
    ensures |start| <= at
  {
    |start| + 2 * |table|
  }

  /** The first |placed| nodes are `placed` after createFloatingInterfaces. */
  predicate AttachedPrefix(nodes: seq<Node>, placed: seq<Node>, m: Metric, ifaceDraws: nat -> FloatingInterfaces.LabelDraws)
  {
    |placed| <= |nodes| &&
    forall i :: 0 <= i < |placed| ==> AttachedAt(nodes, placed, i, m, ifaceDraws)
  }

  /** Node i is node i of `placed` after createFloatingInterfaces. */
  predicate AttachedAt(nodes: seq<Node>, placed: seq<Node>, i: int, m: Metric, ifaceDraws: nat -> FloatingInterfaces.LabelDraws)
    requires 0 <= i < |placed| <= |nodes|
  {
    nodes[i] == FloatingInterfaces.Attached(placed, i, m, ifaceDraws(i))
  }

  /** The stations of `seeds` sit at `at` onwards, in order. */
  predicate SeedsAt(nodes: seq<Node>, at: nat, seeds: seq<FallbackData.SeedPoint>, proj: (real, real) -> Vec3, m: Metric,
      fakeDraws: nat -> FallbackData.FakeDraws, seedDraws: nat -> FloatingInterfaces.LabelDraws)
  {
    at + |seeds| <= |nodes| &&
    forall k :: 0 <= k < |seeds| ==> SeedAt(nodes, at, seeds, k, proj, m, fakeDraws, seedDraws)
  }

  /** The station of seed k sits at `at + k`. */
  predicate SeedAt(nodes: seq<Node>, at: nat, seeds: seq<FallbackData.SeedPoint>, k: int, proj: (real, real) -> Vec3, m: Metric,
      fakeDraws: nat -> FallbackData.FakeDraws, seedDraws: nat -> FloatingInterfaces.LabelDraws)
    requires 0 <= k < |seeds| && at + |seeds| <= |nodes|
  {
    nodes[at + k] == FallbackSeeding.SeedNode(seeds[k], proj, fakeDraws(k), m, seedDraws(k))
  }

  /** The markers of `sites` sit at `at` onwards, in order. */
  predicate TempoMarkersAt(nodes: seq<Node>, at: nat, sites: seq<TempoIntegration.TempoSite>, proj: (real, real) -> Vec3, m: Metric,
      tempoDraws: nat -> FloatingInterfaces.LabelDraws)
  {
    at + |sites| <= |nodes| &&
    forall k :: 0 <= k < |sites| ==> TempoAt(nodes, at, sites, k, proj, m, tempoDraws)
  }

  /** The marker of site k sits at `at + k`. */
  predicate TempoAt(nodes: seq<Node>, at: nat, sites: seq<TempoIntegration.TempoSite>, k: int, proj: (real, real) -> Vec3, m: Metric,
      tempoDraws: nat -> FloatingInterfaces.LabelDraws)
    requires 0 <= k < |sites| && at + |sites| <= |nodes|
  {
    nodes[at + k] == TempoIntegration.TempoNode(sites[k], proj, m, tempoDraws(k))
  }

  /** Markers in a prefix stay where they are when nodes are appended. */
  lemma {:induction false} TempoMarkersKept(nodes: seq<Node>, marked: seq<Node>, at: nat, sites: seq<TempoIntegration.TempoSite>,
      proj: (real, real) -> Vec3, m: Metric, tempoDraws: nat -> FloatingInterfaces.LabelDraws)
    requires TempoMarkersAt(marked, at, sites, proj, m, tempoDraws)
    requires |marked| <= |nodes| && nodes[..|marked|] == marked
    ensures TempoMarkersAt(nodes, at, sites, proj, m, tempoDraws)
  {
    forall k | 0 <= k < |sites|
      ensures TempoAt(nodes, at, sites, k, proj, m, tempoDraws)
    {
      assert TempoAt(marked, at, sites, k, proj, m, tempoDraws);
      assert nodes[..|marked|][at + k] == marked[at + k];
    }
  }

  /** The forEach and createFloatingInterfaces: 28 nodes appended, named ones labelled. */
  method AttachDataPoints(g: Globe, proj: (real, real) -> Vec3, m: Metric, ifaceDraws: nat -> FloatingInterfaces.LabelDraws)
    modifies g
    ensures |g.nodes| == |old(g.nodes)| + 2 * |DataPointsTable()|
    ensures AttachedPrefix(g.nodes, old(g.nodes) + PlacedNodes(DataPointsTable(), proj), m, ifaceDraws)
  {
    PlaceDataPoints(g, proj);
    FloatingInterfaces.CreateFloatingInterfaces(g, m, ifaceDraws);
  }

  /** addTEMPOPointsToGlobe, then createFallbackDataSystem: 30 markers appended. */
  method AddMarkers(g: Globe, proj: (real, real) -> Vec3, m: Metric, tempoDraws: nat -> FloatingInterfaces.LabelDraws,
      fakeDraws: nat -> FallbackData.FakeDraws, seedDraws: nat -> FloatingInterfaces.LabelDraws)
    modifies g
    ensures |g.nodes| == |old(g.nodes)| + 30 && g.nodes[..|old(g.nodes)|] == old(g.nodes)
    ensures TempoMarkersAt(g.nodes, |old(g.nodes)|, TempoIntegration.TempoSites(), proj, m, tempoDraws)
    ensures SeedsAt(g.nodes, |old(g.nodes)| + 5, FallbackData.FallbackSeeds(), proj, m, fakeDraws, seedDraws)
  {
    ghost var start := g.nodes;
    TempoIntegration.AddTEMPOPointsToGlobe(g, proj, m, tempoDraws);
    ghost var marked := g.nodes;
    assert TempoMarkersAt(marked, |start|, TempoIntegration.TempoSites(), proj, m, tempoDraws);
    FallbackSeeding.CreateFallbackDataSystem(g, proj, m, fakeDraws, seedDraws);
    TempoMarkersKept(g.nodes, marked, |start|, TempoIntegration.TempoSites(), proj, m, tempoDraws);
    assert g.nodes[..|start|] == g.nodes[..|marked|][..|start|];
  }

  /**
   * createDataPoints up to the panel update: the points and lines, their
   * interfaces, the TEMPO markers and the fallback stations.
   */
  method PopulateGlobe(g: Globe, proj: (real, real) -> Vec3, m: Metric,
      ifaceDraws: nat -> FloatingInterfaces.LabelDraws, tempoDraws: nat -> FloatingInterfaces.LabelDraws,
      fakeDraws: nat -> FallbackData.FakeDraws, seedDraws: nat -> FloatingInterfaces.LabelDraws)
    modifies g
    ensures SetUp(g.nodes, old(g.nodes), DataPointsTable(), TempoIntegration.TempoSites(), FallbackData.FallbackSeeds(),
      proj, m, ifaceDraws, tempoDraws, fakeDraws, seedDraws)
  {
    ghost var start := g.nodes;
    AttachDataPoints(g, proj, m, ifaceDraws);
    ghost var attached := g.nodes;
    AddMarkers(g, proj, m, tempoDraws, fakeDraws, seedDraws);
    SetUpByStages(g.nodes, attached, start, DataPointsTable(), TempoIntegration.TempoSites(), FallbackData.FallbackSeeds(),
      proj, m, ifaceDraws, tempoDraws, fakeDraws, seedDraws);
  }

  /**
   * createDataPoints. The aura, the star field and the timer that starts
   * integrateRealDataWithPoints two seconds later are not part of this
   * model. `count` and `rates` are what the panel shows afterwards.
   */
  method CreateDataPoints(g: Globe, proj: (real, real) -> Vec3, m: Metric,
      ifaceDraws: nat -> FloatingInterfaces.LabelDraws, tempoDraws: nat -> FloatingInterfaces.LabelDraws,
      fakeDraws: nat -> FallbackData.FakeDraws, seedDraws: nat -> FloatingInterfaces.LabelDraws)
    returns (count: nat, rates: Option<TempoIntegration.PanelRates>)
    modifies g
    ensures SetUp(g.nodes, old(g.nodes), DataPointsTable(), TempoIntegration.TempoSites(), FallbackData.FallbackSeeds(),
      proj, m, ifaceDraws, tempoDraws, fakeDraws, seedDraws)
    ensures count == TempoIntegration.TempoPointCount(g.nodes)
    ensures rates == TempoIntegration.RatesShown(g.nodes)
  {
    PopulateGlobe(g, proj, m, ifaceDraws, tempoDraws, fakeDraws, seedDraws);
    count, rates := TempoIntegration.UpdateTEMPODataInPanel(g);
  }

  /** The stages of createDataPoints compose into SetUp. */
  lemma {:induction false} SetUpByStages(nodes: seq<Node>, attached: seq<Node>, start: seq<Node>, table: seq<FixedPoint>,
      sites: seq<TempoIntegration.TempoSite>, seeds: seq<FallbackData.SeedPoint>,
      proj: (real, real) -> Vec3, m: Metric,
      ifaceDraws: nat -> FloatingInterfaces.LabelDraws, tempoDraws: nat -> FloatingInterfaces.LabelDraws,
      fakeDraws: nat -> FallbackData.FakeDraws, seedDraws: nat -> FloatingInterfaces.LabelDraws)
    requires |attached| == MarkerStart(start, table) && AttachedPrefix(attached, start + PlacedNodes(table, proj), m, ifaceDraws)
    requires |nodes| == MarkerStart(start, table) + |sites| + |seeds| && nodes[..|attached|] == attached
    requires TempoMarkersAt(nodes, MarkerStart(start, table), sites, proj, m, tempoDraws)
    requires SeedsAt(nodes, MarkerStart(start, table) + |sites|, seeds, proj, m, fakeDraws, seedDraws)
    ensures SetUp(nodes, start, table, sites, seeds, proj, m, ifaceDraws, tempoDraws, fakeDraws, seedDraws)
  {
    PrefixKept(nodes, attached, start + PlacedNodes(table, proj), m, ifaceDraws);
  }

  /** A labelled prefix stays labelled when nodes are appended after it. */
  lemma {:induction false} PrefixKept(nodes: seq<Node>, attached: seq<Node>, placed: seq<Node>, m: Metric,
      ifaceDraws: nat -> FloatingInterfaces.LabelDraws)
    requires AttachedPrefix(attached, placed, m, ifaceDraws) && |attached| == |placed|
    requires |attached| <= |nodes| && nodes[..|attached|] == attached
    ensures AttachedPrefix(nodes, placed, m, ifaceDraws)
  {
    forall i | 0 <= i < |attached|
      ensures AttachedAt(nodes, placed, i, m, ifaceDraws)
    {
      assert AttachedAt(attached, placed, i, m, ifaceDraws);
      assert nodes[..|attached|][i] == attached[i];
    }
  }

  /** What SetUpProperties needs of node i, stated against `start`. */
  predicate NodeFacts(nodes: seq<Node>, start: seq<Node>, i: int)
  {
    0 <= i < |nodes| &&
    (Named(nodes[i].user) ==> nodes[i].user.iface.Some?) &&
    (i < |start| ==> (nodes[i].user.name == start[i].user.name &&
      nodes[i].user.lat == start[i].user.lat && nodes[i].user.lon == start[i].user.lon &&
      nodes[i].user.tempoData == start[i].user.tempoData)) &&
    (|start| <= i ==> nodes[i].user.tempoData.None?) &&
    (|start| <= i && Named(nodes[i].user) ==> nodes[i].user.lat.Num? && nodes[i].user.lon.Num?)
  }

  /** The facts hold on the nodes createFloatingInterfaces went over. */
  lemma {:induction false} PlacedFacts(nodes: seq<Node>, start: seq<Node>, table: seq<FixedPoint>, proj: (real, real) -> Vec3, m: Metric,
      ifaceDraws: nat -> FloatingInterfaces.LabelDraws, i: int)
    requires AttachedPrefix(nodes, start + PlacedNodes(table, proj), m, ifaceDraws)
    requires 0 <= i < |start| + 2 * |table|
    ensures NodeFacts(nodes, start, i)
  {
    var placed := start + PlacedNodes(table, proj);
    assert AttachedAt(nodes, placed, i, m, ifaceDraws);
    FloatingInterfaces.AttachedHasInterface(placed, i, m, ifaceDraws(i));
    if i < |start| {
      assert placed[i] == start[i];
    } else {
      assert placed[i] == Placed(table, proj, i - |start|);
    }
  }

  /** The facts hold on the TEMPO markers. */
  lemma {:induction false} TempoFacts(nodes: seq<Node>, start: seq<Node>, at: nat, sites: seq<TempoIntegration.TempoSite>,
      proj: (real, real) -> Vec3, m: Metric, tempoDraws: nat -> FloatingInterfaces.LabelDraws, i: int)
    requires TempoMarkersAt(nodes, at, sites, proj, m, tempoDraws)
    requires |start| <= at <= i < at + |sites|
    ensures NodeFacts(nodes, start, i)
  {
    var k := i - at;
    assert TempoAt(nodes, at, sites, k, proj, m, tempoDraws);
    TempoMarkerShape(sites[k], proj, m, tempoDraws(k));
  }

  /** The facts hold on the fallback stations. */
  lemma {:induction false} SeedFacts(nodes: seq<Node>, start: seq<Node>, at: nat, seeds: seq<FallbackData.SeedPoint>,
      proj: (real, real) -> Vec3, m: Metric,
      fakeDraws: nat -> FallbackData.FakeDraws, seedDraws: nat -> FloatingInterfaces.LabelDraws, i: int)
    requires SeedsAt(nodes, at, seeds, proj, m, fakeDraws, seedDraws)
    requires |start| <= at <= i < at + |seeds|
    ensures NodeFacts(nodes, start, i)
  {
    var k := i - at;
    assert SeedAt(nodes, at, seeds, k, proj, m, fakeDraws, seedDraws);
    SeedMarkerShape(seeds[k], proj, fakeDraws(k), m, seedDraws(k));
  }

  /** The facts hold on every node createFloatingInterfaces went over. */
  lemma {:induction false} PlacedRangeFacts(nodes: seq<Node>, start: seq<Node>, table: seq<FixedPoint>, proj: (real, real) -> Vec3, m: Metric,
      ifaceDraws: nat -> FloatingInterfaces.LabelDraws)
    requires AttachedPrefix(nodes, start + PlacedNodes(table, proj), m, ifaceDraws)
    ensures forall i :: 0 <= i < |start| + 2 * |table| ==> NodeFacts(nodes, start, i)
  {
    forall i | 0 <= i < |start| + 2 * |table|
      ensures NodeFacts(nodes, start, i)
    {
      PlacedFacts(nodes, start, table, proj, m, ifaceDraws, i);
    }
  }

  /** The facts hold on every TEMPO marker. */
  lemma {:induction false} TempoRangeFacts(nodes: seq<Node>, start: seq<Node>, at: nat, sites: seq<TempoIntegration.TempoSite>,
      proj: (real, real) -> Vec3, m: Metric, tempoDraws: nat -> FloatingInterfaces.LabelDraws)
    requires TempoMarkersAt(nodes, at, sites, proj, m, tempoDraws) && |start| <= at
    ensures forall i :: at <= i < at + |sites| ==> NodeFacts(nodes, start, i)
  {
    forall i | at <= i < at + |sites|
      ensures NodeFacts(nodes, start, i)
    {
      TempoFacts(nodes, start, at, sites, proj, m, tempoDraws, i);
    }
  }

  /** The facts hold on every fallback station. */
  lemma {:induction false} SeedRangeFacts(nodes: seq<Node>, start: seq<Node>, at: nat, seeds: seq<FallbackData.SeedPoint>,
      proj: (real, real) -> Vec3, m: Metric,
      fakeDraws: nat -> FallbackData.FakeDraws, seedDraws: nat -> FloatingInterfaces.LabelDraws)
    requires SeedsAt(nodes, at, seeds, proj, m, fakeDraws, seedDraws) && |start| <= at
    ensures forall i :: at <= i < at + |seeds| ==> NodeFacts(nodes, start, i)
  {
    forall i | at <= i < at + |seeds|
      ensures NodeFacts(nodes, start, i)
    {
      SeedFacts(nodes, start, at, seeds, proj, m, fakeDraws, seedDraws, i);
    }
  }

  /** Every node after createDataPoints has the facts NodeFacts lists. */
  lemma {:induction false} AllNodeFacts(nodes: seq<Node>, start: seq<Node>, table: seq<FixedPoint>, sites: seq<TempoIntegration.TempoSite>,
      seeds: seq<FallbackData.SeedPoint>, proj: (real, real) -> Vec3, m: Metric,
      ifaceDraws: nat -> FloatingInterfaces.LabelDraws, tempoDraws: nat -> FloatingInterfaces.LabelDraws,
      fakeDraws: nat -> FallbackData.FakeDraws, seedDraws: nat -> FloatingInterfaces.LabelDraws)
    requires |nodes| == MarkerStart(start, table) + |sites| + |seeds|
    requires AttachedPrefix(nodes, start + PlacedNodes(table, proj), m, ifaceDraws)
    requires TempoMarkersAt(nodes, MarkerStart(start, table), sites, proj, m, tempoDraws)
    requires SeedsAt(nodes, MarkerStart(start, table) + |sites|, seeds, proj, m, fakeDraws, seedDraws)
    ensures forall i :: 0 <= i < |nodes| ==> NodeFacts(nodes, start, i)
  {
    PlacedRangeFacts(nodes, start, table, proj, m, ifaceDraws);
    MarkerRangeFacts(nodes, start, MarkerStart(start, table), sites, seeds, proj, m, tempoDraws, fakeDraws, seedDraws);
  }

  /** The facts hold on every marker, TEMPO or fallback, from `at` to the end. */
  lemma {:induction false} MarkerRangeFacts(nodes: seq<Node>, start: seq<Node>, at: nat, sites: seq<TempoIntegration.TempoSite>,
      seeds: seq<FallbackData.SeedPoint>, proj: (real, real) -> Vec3, m: Metric, tempoDraws: nat -> FloatingInterfaces.LabelDraws,
      fakeDraws: nat -> FallbackData.FakeDraws, seedDraws: nat -> FloatingInterfaces.LabelDraws)
    requires |start| <= at && |nodes| == at + |sites| + |seeds|
    requires TempoMarkersAt(nodes, at, sites, proj, m, tempoDraws)
    requires SeedsAt(nodes, at + |sites|, seeds, proj, m, fakeDraws, seedDraws)
    ensures forall i :: at <= i < |nodes| ==> NodeFacts(nodes, start, i)
  {
    TempoRangeFacts(nodes, start, at, sites, proj, m, tempoDraws);
    SeedRangeFacts(nodes, start, at + |sites|, seeds, proj, m, fakeDraws, seedDraws);
  }

  /** The facts of every node give the three properties of SetUpProperties. */
  lemma {:induction false} FactsGiveProperties(nodes: seq<Node>, start: seq<Node>)
    requires forall i :: 0 <= i < |nodes| ==> NodeFacts(nodes, start, i)
    ensures forall i :: 0 <= i < |nodes| && Named(nodes[i].user) ==> nodes[i].user.iface.Some?
    ensures DataIntegration.CoordinatesKnown(start) ==> DataIntegration.CoordinatesKnown(nodes)
    ensures (forall i :: 0 <= i < |start| ==> start[i].user.tempoData.None?) ==>
      TempoIntegration.RatesShown(nodes) == Some(TempoIntegration.RatesOf(TempoIntegration.EmptyBuckets))
  {
    forall i | 0 <= i < |nodes| && Named(nodes[i].user)
      ensures nodes[i].user.iface.Some?
    {
      assert NodeFacts(nodes, start, i);
    }
    if DataIntegration.CoordinatesKnown(start) {
      forall i | 0 <= i < |nodes| && Named(nodes[i].user)
        ensures nodes[i].user.lat.Num? && nodes[i].user.lon.Num?
      {
        assert NodeFacts(nodes, start, i);
        if i < |start| {
          assert Named(start[i].user) ==> start[i].user.lat.Num? && start[i].user.lon.Num?;
        }
      }
    }
    if forall i :: 0 <= i < |start| ==> start[i].user.tempoData.None? {
      forall i | 0 <= i < |nodes|
        ensures !TempoIntegration.Collects(nodes[i])
      {
        assert NodeFacts(nodes, start, i);
      }
      TempoIntegration.CollectedNothing(nodes, TempoIntegration.AsWrittenKey);
    }
  }

  /**
   * After createDataPoints every named node carries an interface and has
   * numeric coordinates (if the nodes before it had), and where no node
   * held TEMPO data before, the panel rates are the four defaults.
   */
  lemma {:induction false} SetUpProperties(nodes: seq<Node>, start: seq<Node>, table: seq<FixedPoint>, sites: seq<TempoIntegration.TempoSite>,
      seeds: seq<FallbackData.SeedPoint>, proj: (real, real) -> Vec3, m: Metric,
      ifaceDraws: nat -> FloatingInterfaces.LabelDraws, tempoDraws: nat -> FloatingInterfaces.LabelDraws,
      fakeDraws: nat -> FallbackData.FakeDraws, seedDraws: nat -> FloatingInterfaces.LabelDraws)
    requires SetUp(nodes, start, table, sites, seeds, proj, m, ifaceDraws, tempoDraws, fakeDraws, seedDraws)
    ensures forall i :: 0 <= i < |nodes| && Named(nodes[i].user) ==> nodes[i].user.iface.Some?
    ensures DataIntegration.CoordinatesKnown(start) ==> DataIntegration.CoordinatesKnown(nodes)
    ensures (forall i :: 0 <= i < |start| ==> start[i].user.tempoData.None?) ==>
      TempoIntegration.RatesShown(nodes) == Some(TempoIntegration.RatesOf(TempoIntegration.EmptyBuckets))
  {
    AllNodeFacts(nodes, start, table, sites, seeds, proj, m, ifaceDraws, tempoDraws, fakeDraws, seedDraws);
    FactsGiveProperties(nodes, start);
  }

  /** The facts SetUpProperties needs of one marker, TEMPO or fallback. */
  predicate MarkerShape(n: Node)
  {
    n.user.iface.Some? && n.user.tempoData.None? && n.user.lat.Num? && n.user.lon.Num?
  }

  /** A TEMPO marker carries an interface, no TEMPO data and numeric coordinates. */
  lemma TempoMarkerShape(s: TempoIntegration.TempoSite, proj: (real, real) -> Vec3, m: Metric, ds: FloatingInterfaces.LabelDraws)
    ensures MarkerShape(TempoIntegration.TempoNode(s, proj, m, ds))
  {
  }

  /** So does a fallback station. */
  lemma SeedMarkerShape(s: FallbackData.SeedPoint, proj: (real, real) -> Vec3, fds: FallbackData.FakeDraws, m: Metric,
      ds: FloatingInterfaces.LabelDraws)
    ensures MarkerShape(FallbackSeeding.SeedNode(s, proj, fds, m, ds))
  {
  }
}
