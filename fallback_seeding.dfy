/**
 * The seeding loop of scripts/utils/fallback-data.js (createFallbackDataSystem):
 * one station marker per seed, carrying five fake readings, coloured by its
 * CO2 tier, with its interface attached at once.
 */
module FallbackSeeding {
  import opened Prelude
  import opened Scene
  import opened FallbackData
  import DataDisplay
  import FloatingInterfaces

  /** The `userData` of a fallback station: the seed's fields, its readings and type 'station'. */
  function SeedPointData(s: SeedPoint, fd: FakeData): (u: PointData)
    ensures u.name == Some(s.name) && u.lat == Num(s.lat) && u.lon == Num(s.lon) && u.region == Some(s.region)
    ensures u.kind == Some("station") && u.fakeData == Some(fd)
  {
    Blank.(name := Some(s.name), lat := Num(s.lat), lon := Num(s.lon), region := Some(s.region),
      fakeData := Some(fd), kind := Some("station"))
  }

  /** The marker node of a seed, projected by `proj`, coloured by its CO2 badge, with its interface. */
  function SeedNode(s: SeedPoint, proj: (real, real) -> Vec3, fds: FakeDraws, m: Metric, ds: FloatingInterfaces.LabelDraws): Node
  {
    var fd := GenerateFakeDataSet(s.lat, s.lon, fds);
    var u := SeedPointData(s, fd);
    Node(u.(iface := Some(FloatingInterfaces.InterfaceAt(u, proj(s.lat, s.lon), m, ds))), proj(s.lat, s.lon), fd.co2.quality.color)
  }

  /**
   * One pass of the seeding loop: the station's node is added, then its
   * interface is created from the globe as it now stands.
   */
  method AddSeed(g: Globe, s: SeedPoint, proj: (real, real) -> Vec3, fds: FakeDraws, m: Metric,
      ds: FloatingInterfaces.LabelDraws)
    modifies g
    ensures g.nodes == old(g.nodes) + [SeedNode(s, proj, fds, m, ds)]
  {
    var fd := GenerateFakeDataSet(s.lat, s.lon, fds);
    var u := SeedPointData(s, fd);
    var pos := proj(s.lat, s.lon);
    FloatingInterfaces.InterfaceForAddedNode(g.nodes, u, pos, fd.co2.quality.color, m, ds);
    g.nodes := g.nodes + [Node(u, pos, fd.co2.quality.color)];
    var f := FloatingInterfaces.CreateFloatingInterface(u, g.nodes, m, ds);
    g.nodes := g.nodes[|g.nodes| - 1 := FloatingInterfaces.WithIface(g.nodes[|g.nodes| - 1], f)];
  }

  /** The seeding loop over any seed list: seed k is appended as its station node, in order. */
  method AddSeeds(g: Globe, seeds: seq<SeedPoint>, proj: (real, real) -> Vec3, m: Metric,
      fakeDraws: nat -> FakeDraws, labelDraws: nat -> FloatingInterfaces.LabelDraws)
    modifies g
    ensures |g.nodes| == |old(g.nodes)| + |seeds| && g.nodes[..|old(g.nodes)|] == old(g.nodes)
    ensures forall k :: 0 <= k < |seeds| ==>
      g.nodes[|old(g.nodes)| + k] == SeedNode(seeds[k], proj, fakeDraws(k), m, labelDraws(k))
  {
    var start := g.nodes;
    ghost var added: seq<Node> := [];
    var k := 0;
    while k < |seeds|
      invariant 0 <= k <= |seeds| && |added| == k
      invariant g.nodes == start + added
      invariant forall j :: 0 <= j < k ==> added[j] == SeedNode(seeds[j], proj, fakeDraws(j), m, labelDraws(j))
    {
      AddSeed(g, seeds[k], proj, fakeDraws(k), m, labelDraws(k));
      added := added + [SeedNode(seeds[k], proj, fakeDraws(k), m, labelDraws(k))];
      k := k + 1;
    }
    assert g.nodes[..|start|] == start;
  }

  /**
   * createFallbackDataSystem: the 25 seeds are appended in order, seed k
   * drawn with `fakeDraws(k)` and labelled with `labelDraws(k)`. The globe
   * must exist (the JS adds to it unguarded).
   */
  method CreateFallbackDataSystem(g: Globe, proj: (real, real) -> Vec3, m: Metric,
      fakeDraws: nat -> FakeDraws, labelDraws: nat -> FloatingInterfaces.LabelDraws)
    modifies g
    ensures |g.nodes| == |old(g.nodes)| + 25 && g.nodes[..|old(g.nodes)|] == old(g.nodes)
    ensures forall k :: 0 <= k < 25 ==>
      g.nodes[|old(g.nodes)| + k] == SeedNode(FallbackSeeds()[k], proj, fakeDraws(k), m, labelDraws(k))
  {
    AddSeeds(g, FallbackSeeds(), proj, m, fakeDraws, labelDraws);
  }

  /**
   * A seeded station: type 'station', a reading for each of the five
   * metrics, a marker that is 'Boa' green or 'Moderada' orange (never the
   * 'Ruim' red), and an interface 0.3 above it.
   */
  lemma SeededStation(s: SeedPoint, proj: (real, real) -> Vec3, fds: FakeDraws, m: Metric, ds: FloatingInterfaces.LabelDraws)
    ensures var n := SeedNode(s, proj, fds, m, ds);
      n.user.kind == Some("station") && n.user.fakeData.Some? &&
      (forall k :: k != OtherMetric ==> n.user.fakeData.value.Get(k).Some?) &&
      n.color in {GoodQuality.color, ModerateQuality.color} &&
      n.user.iface.Some? && n.user.iface.value.position == Raise(n.position, 0.3)
  {
    FakeCo2Tier(s.lat, s.lon, fds.co2);
    var v := FakeValue(s.lat, CO2, fds.co2);
    FakeValueRanges(s.lat, CO2, fds.co2);
    Co2Tiers(v);
  }

  /**
   * Everything a seeded station shows comes from its readings: every known
   * metric shows the fake value, and the badge is the CO2 reading's quality,
   * whatever real data is attached later.
   */
  lemma SeededStationDisplay(s: SeedPoint, proj: (real, real) -> Vec3, fds: FakeDraws, m: Metric,
      ds: FloatingInterfaces.LabelDraws, k: Metric, d: Draw)
    requires k != OtherMetric
    ensures var u := SeedNode(s, proj, fds, m, ds).user;
      var r := GenerateRealisticFakeData(s.lat, s.lon, k, fds.For(k));
      DataDisplay.GetDisplayValue(u, k, d) == FakeVal(r.value, r.unit) &&
      DataDisplay.GetAirQualityStatus(u, d) == GenerateRealisticFakeData(s.lat, s.lon, CO2, fds.co2).quality
  {
  }
}
