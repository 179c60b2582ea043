/**
 * scripts/ui/floating-interfaces.js: the floating label of each named node,
 * its title, its placement above the node, and the redraw and resize
 * traversals.
 */
module FloatingInterfaces {
  import opened Prelude
  import opened Scene
  import DataDisplay

  /** `type === 'tempo' || name.includes('TEMPO')`. */
  predicate IsTempoPoint(u: PointData)
  {
    u.kind == Some("tempo") || (u.name.Some? && Contains(u.name.value, "TEMPO"))
  }

  /** getDataTypeLabel: five fixed labels, 'Data' for anything else. */
  function GetDataTypeLabel(m: Metric): (s: string)
    ensures s == "Data" <==> m == OtherMetric
  {
    match m
    case CO2 => "🌫️ CO₂"
    case Temperature => "Temperature"
    case Ozone => "Ozone"
    case Humidity => "Humidity"
    case Pressure => "Pressure"
    case OtherMetric => "Data"
  }

  /** Distinct metrics get distinct labels. */
  lemma DataTypeLabelInjective(m: Metric, n: Metric)
    ensures GetDataTypeLabel(m) == GetDataTypeLabel(n) <==> m == n
  {
  }

  const TempoTitle := "🛰️ TEMPO NASA"

  /** The draws one label consumes: one for its value, one for its badge. */
  datatype LabelDraws = LabelDraws(value: Draw, quality: Draw)

  /** The canvas of a label: title, display value, badge and the point's name. */
  function BuildLabel(u: PointData, m: Metric, ds: LabelDraws): (l: Label)
    ensures l.title == (if IsTempoPoint(u) then TempoTitle else GetDataTypeLabel(m))
    ensures l.value == DataDisplay.GetDisplayValue(u, m, ds.value)
    ensures l.quality == DataDisplay.GetAirQualityStatus(u, ds.quality)
    ensures l.caption == u.name
  {
    Label(if IsTempoPoint(u) then TempoTitle else GetDataTypeLabel(m),
      DataDisplay.GetDisplayValue(u, m, ds.value), DataDisplay.GetAirQualityStatus(u, ds.quality), u.name)
  }

  /**
   * createFloatingInterface: a label at base scale, placed 0.3 above the
   * last node in `nodes` that has the point's name (above the origin when
   * none has).
   */
  function CreateFloatingInterface(u: PointData, nodes: seq<Node>, m: Metric, ds: LabelDraws): (f: Iface)
    ensures f.position == Raise(LastPositionNamed(nodes, u.name), 0.3)
    ensures f.scale == BaseScale && f.isTempo == IsTempoPoint(u) && f.drawn == BuildLabel(u, m, ds)
  {
    Iface(Raise(LastPositionNamed(nodes, u.name), 0.3), BaseScale, IsTempoPoint(u), BuildLabel(u, m, ds))
  }

  /** A label created for the last node with its name sits 0.3 above that node. */
  lemma InterfaceAboveOwnNode(nodes: seq<Node>, i: int, m: Metric, ds: LabelDraws)
    requires 0 <= i < |nodes| && IsLastNamed(nodes, nodes[i].user.name, i)
    ensures CreateFloatingInterface(nodes[i].user, nodes, m, ds).position == Raise(nodes[i].position, 0.3)
  {
    LastPositionNamedIsLastMatch(nodes, nodes[i].user.name);
  }

  /** The interface of a point whose node sits at `pos`: base scale, 0.3 above it. */
  function InterfaceAt(u: PointData, pos: Vec3, m: Metric, ds: LabelDraws): Iface
  {
    Iface(Raise(pos, 0.3), BaseScale, IsTempoPoint(u), BuildLabel(u, m, ds))
  }

  /** The interface created right after a node is added sits above that node. */
  lemma InterfaceForAddedNode(nodes: seq<Node>, u: PointData, pos: Vec3, c: int, m: Metric, ds: LabelDraws)
    ensures CreateFloatingInterface(u, nodes + [Node(u, pos, c)], m, ds) == InterfaceAt(u, pos, m, ds)
  {
    LastPositionNamedAppend(nodes, Node(u, pos, c));
  }

  /** `n` with the floating interface `f` attached. */
  function WithIface(n: Node, f: Iface): Node
  {
    n.(user := n.user.(iface := Some(f)))
  }

  /** Node `i` after createFloatingInterfaces: named nodes get a fresh interface. */
  function Attached(nodes: seq<Node>, i: int, m: Metric, ds: LabelDraws): Node
    requires 0 <= i < |nodes|
  {
    if Named(nodes[i].user) then WithIface(nodes[i], CreateFloatingInterface(nodes[i].user, nodes, m, ds)) else nodes[i]
  }

  /**
   * createFloatingInterfaces: every named node gets an interface; nothing
   * else changes. `draws(i)` are the draws of node i's label.
   */
  method CreateFloatingInterfaces(g: Globe?, m: Metric, draws: nat -> LabelDraws)
    modifies g
    ensures g != null ==> (|g.nodes| == |old(g.nodes)| &&
      forall i :: 0 <= i < |g.nodes| ==> g.nodes[i] == Attached(old(g.nodes), i, m, draws(i)))
  {
    if g == null {
      return;
    }
    var start := g.nodes;
    var i := 0;
    while i < |g.nodes|
      invariant 0 <= i <= |g.nodes| == |start|
      invariant forall j :: 0 <= j < |g.nodes| ==> g.nodes[j].user.name == start[j].user.name && g.nodes[j].position == start[j].position
      invariant forall j :: 0 <= j < i ==> g.nodes[j] == Attached(start, j, m, draws(j))
      invariant forall j :: i <= j < |g.nodes| ==> g.nodes[j] == start[j]
    {
      var u := g.nodes[i].user;
      if Named(u) {
        LastPositionNamedReadsNamesAndPositions(g.nodes, start, u.name);
        var f := CreateFloatingInterface(u, g.nodes, m, draws(i));
        g.nodes := g.nodes[i := WithIface(g.nodes[i], f)];
      }
      i := i + 1;
    }
  }

  /** After createFloatingInterfaces a node has an interface iff it is named or already had one. */
  lemma AttachedHasInterface(nodes: seq<Node>, i: int, m: Metric, ds: LabelDraws)
    requires 0 <= i < |nodes|
    ensures Attached(nodes, i, m, ds).user.iface.Some? <==> Named(nodes[i].user) || nodes[i].user.iface.Some?
    ensures Attached(nodes, i, m, ds).user == nodes[i].user.(iface := Attached(nodes, i, m, ds).user.iface)
    ensures Attached(nodes, i, m, ds).position == nodes[i].position && Attached(nodes, i, m, ds).color == nodes[i].color
  {
  }

  /** Node `n` after updateFloatingInterfaces: its label is redrawn and its scale reset. */
  function Redrawn(n: Node, m: Metric, ds: LabelDraws): Node
  {
    if n.user.iface.Some?
    then n.(user := n.user.(iface := Some(n.user.iface.value.(drawn := BuildLabel(n.user, m, ds), scale := BaseScale))))
    else n
  }

  /**
   * updateFloatingInterfaces: every interface is redrawn from its node's
   * current data and its scale is reset to (0.4, 0.16, 1).
   */
  method UpdateFloatingInterfaces(g: Globe?, m: Metric, draws: nat -> LabelDraws)
    modifies g
    ensures g != null ==> (|g.nodes| == |old(g.nodes)| &&
      forall i :: 0 <= i < |g.nodes| ==> g.nodes[i] == Redrawn(old(g.nodes)[i], m, draws(i)))
  {
    if g == null {
      return;
    }
    var start := g.nodes;
    var i := 0;
    while i < |g.nodes|
      invariant 0 <= i <= |g.nodes| == |start|
      invariant forall j :: 0 <= j < i ==> g.nodes[j] == Redrawn(start[j], m, draws(j))
      invariant forall j :: i <= j < |g.nodes| ==> g.nodes[j] == start[j]
    {
      g.nodes := g.nodes[i := Redrawn(g.nodes[i], m, draws(i))];
      i := i + 1;
    }
  }

  /** A redraw keeps the interface's position and TEMPO flag and touches nothing else. */
  lemma RedrawKeepsPlacement(n: Node, m: Metric, ds: LabelDraws)
    requires n.user.iface.Some?
    ensures var r := Redrawn(n, m, ds);
      r.user.iface.Some? && r.user.iface.value.position == n.user.iface.value.position &&
      r.user.iface.value.isTempo == n.user.iface.value.isTempo && r.user.iface.value.scale == BaseScale &&
      r.position == n.position && r.color == n.color &&
      r.user == n.user.(iface := r.user.iface)
  {
  }

  /** The scale updateInterfaceSizes applies for factor `f`. */
  function ScaleFor(f: real): (s: Vec3)
    ensures s.x == 0.4 * f && s.y == 0.4 * s.x && s.z == 1.0
  {
    Vec3(0.4 * f, 0.4 * f * 0.4, 1.0)
  }

  /** The default factor 1 gives back the base scale. */
  lemma DefaultFactorIsBaseScale()
    ensures ScaleFor(1.0) == BaseScale
  {
  }

  /** Node `n` after updateInterfaceSizes(f). */
  function Resized(n: Node, f: real): Node
  {
    if n.user.iface.Some? then n.(user := n.user.(iface := Some(n.user.iface.value.(scale := ScaleFor(f))))) else n
  }

  /**
   * updateInterfaceSizes(scaleFactor = 1): every interface gets scale
   * (0.4 f, 0.16 f, 1); nodes without one are untouched. The copy in
   * scripts/globe/animation.js:85-100 is identical.
   */
  method UpdateInterfaceSizes(g: Globe?, f: real := 1.0)
    modifies g
    ensures g != null ==> (|g.nodes| == |old(g.nodes)| &&
      forall i :: 0 <= i < |g.nodes| ==> g.nodes[i] == Resized(old(g.nodes)[i], f))
  {
    if g == null {
      return;
    }
    var start := g.nodes;
    var i := 0;
    while i < |g.nodes|
      invariant 0 <= i <= |g.nodes| == |start|
      invariant forall j :: 0 <= j < i ==> g.nodes[j] == Resized(start[j], f)
      invariant forall j :: i <= j < |g.nodes| ==> g.nodes[j] == start[j]
    {
      g.nodes := g.nodes[i := Resized(g.nodes[i], f)];
      i := i + 1;
    }
  }

  /** Resizing changes only the scale of existing interfaces, and two resizes keep the last factor. */
  lemma ResizeProperties(n: Node, f: real, h: real)
    ensures Resized(n, f).user.iface.Some? <==> n.user.iface.Some?
    ensures n.user.iface.Some? ==> Resized(n, f).user.iface.value == n.user.iface.value.(scale := ScaleFor(f))
    ensures n.user.iface.None? ==> Resized(n, f) == n
    ensures Resized(Resized(n, f), h) == Resized(n, h)
  {
  }
}
