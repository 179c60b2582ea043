/**
 * The children of the globe mesh (`earthMesh`), each with its `userData`
 * record, position and material colour. The globe is the one object the
 * loading and enrichment code updates in place.
 */
module Scene {
  import opened Prelude
  import FallbackData
  import AirQuality
  import Weather
  import NasaTempo
  import DataPoints

  /** The value line of a floating label. */
  datatype Shown =
    | FakeVal(amount: real, unit: string)       // `${value} ${unit}` of a fake reading
    | RealVal(metric: Metric, reading: JsNumber)  // a real reading of `metric`
    | SynthVal(metric: Metric, whole: int)      // a value synthesized from the regional base
    | Unavailable                               // 'Dados não disponíveis'
    | NotApplicable                             // 'N/A'

  /** What a floating label's canvas shows: title, value, quality badge and the point's name. */
  datatype Label = Label(title: string, value: Shown, quality: Quality, caption: Option<string>)

  /** A floating interface (sprite): position, scale, TEMPO flag and its drawn label. */
  datatype Iface = Iface(position: Vec3, scale: Vec3, isTempo: bool, drawn: Label)

  /** The sprite scale every label starts from and is reset to. */
  const BaseScale := Vec3(0.4, 0.16, 1.0)

  /**
   * A node's `userData`. Absent members are None (NaN for coordinates);
   * `brightness` and `confidence` belong to fire points.
   */
  datatype PointData = PointData(
    name: Option<string>,
    kind: Option<string>,
    lat: JsNumber,
    lon: JsNumber,
    data: Option<DataPoints.PointText>,
    region: Option<string>,
    fakeData: Option<FallbackData.FakeData>,
    realAirQuality: Option<AirQuality.AirQualitySummary>,
    realWeather: Option<Weather.WeatherSummary>,
    tempoData: Option<NasaTempo.TempoData>,
    brightness: JsNumber,
    confidence: JsNumber,
    iface: Option<Iface>)

  /** The empty `userData` of a connector line (its `parentPoint` link is left out). */
  const Blank := PointData(None, None, NaN, NaN, None, None, None, None, None, None, NaN, NaN, None)

  /** `child.userData.name` is truthy. */
  predicate Named(u: PointData)
  {
    u.name.Some? && u.name.value != ""
  }

  datatype Node = Node(user: PointData, position: Vec3, color: int)

  /** The globe mesh and its children, in traversal order. */
  class Globe {
    var nodes: seq<Node>

    constructor()
      ensures nodes == []
    {
      nodes := [];
    }
  }

  /**
   * The position copied from the last node, in traversal order, whose
   * `name` equals `name`; the origin when none does.
   */
  function LastPositionNamed(nodes: seq<Node>, name: Option<string>): (p: Vec3)
    ensures forall i {:trigger IsLastNamed(nodes, name, i)} :: IsLastNamed(nodes, name, i) ==> p == nodes[i].position
  {
    if nodes == [] then Origin
    else if nodes[|nodes| - 1].user.name == name then nodes[|nodes| - 1].position
    else
      assert forall i :: IsLastNamed(nodes, name, i) ==> IsLastNamed(nodes[..|nodes| - 1], name, i);
      LastPositionNamed(nodes[..|nodes| - 1], name)
  }

  /** Node `i` carries `name` and no later node does. */
  predicate IsLastNamed(nodes: seq<Node>, name: Option<string>, i: int)
  {
    0 <= i < |nodes| && nodes[i].user.name == name &&
    forall j :: i < j < |nodes| ==> nodes[j].user.name != name
  }

  /** The lookup finds the last matching node, or the origin when there is none. */
  lemma {:induction false} LastPositionNamedIsLastMatch(nodes: seq<Node>, name: Option<string>)
    ensures (forall i :: 0 <= i < |nodes| ==> nodes[i].user.name != name) ==>
      LastPositionNamed(nodes, name) == Origin
    ensures forall i :: IsLastNamed(nodes, name, i) ==> LastPositionNamed(nodes, name) == nodes[i].position
  {
    if nodes != [] {
      var n := |nodes| - 1;
      var p := nodes[..n];
      LastPositionNamedIsLastMatch(p, name);
      if forall i :: 0 <= i < |nodes| ==> nodes[i].user.name != name {
        assert nodes[n].user.name != name;
        forall i | 0 <= i < n ensures p[i].user.name != name {
          assert p[i] == nodes[i];
        }
      }
    }
  }

  /** The lookup reads only names and positions. */
  lemma {:induction false} LastPositionNamedReadsNamesAndPositions(a: seq<Node>, b: seq<Node>, name: Option<string>)
    requires |a| == |b|
    requires forall i :: 0 <= i < |a| ==> a[i].user.name == b[i].user.name && a[i].position == b[i].position
    ensures LastPositionNamed(a, name) == LastPositionNamed(b, name)
  {
    if a != [] {
      LastPositionNamedReadsNamesAndPositions(a[..|a| - 1], b[..|b| - 1], name);
    }
  }

  /** Appending a node with the looked-up name makes it the match. */
  lemma LastPositionNamedAppend(nodes: seq<Node>, n: Node)
    ensures LastPositionNamed(nodes + [n], n.user.name) == n.position
  {
  }
}
