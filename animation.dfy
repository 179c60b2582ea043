/**
 * scripts/globe/animation.js: the per-frame work of the animation loop.
 * While the page is loaded, each frame rescales the interfaces for the
 * camera distance, moves every interface back above its point and turns
 * the star field and the two atmosphere shells a little. Rendering, the
 * orbit controls and `lookAt` are not modelled.
 */
module Animation {
  import opened Prelude
  import opened Scene
  import FloatingInterfaces

  /**
   * The zoom factor `max(0.1, min(1, distance / base))`; `base` is the
   * initial camera distance, 3 for the camera placed at (0, 0, 3).
   */
  function ZoomScaleFactor(distance: real, base: real): (f: real)
    requires base > 0.0
    ensures 0.1 <= f <= 1.0
  {
    Max(0.1, Min(1.0, distance / base))
  }

  /** Dividing by a positive number keeps the order. */
  lemma DivideKeepsOrder(a: real, b: real, base: real)
    requires base > 0.0 && a <= b
    ensures a / base <= b / base
  {
    var p, q := a / base, b / base;
    assert p * base == a && q * base == b;
    assert (q - p) * base == b - a;
  }

  /** From the base distance outwards the factor is 1 (interfaces at full size). */
  lemma ZoomFullSize(d: real, base: real)
    requires base > 0.0 && d >= base
    ensures ZoomScaleFactor(d, base) == 1.0
  {
    DivideKeepsOrder(base, d, base);
  }

  /** Within a tenth of the base distance the factor is its floor 0.1. */
  lemma ZoomSmallest(d: real, base: real)
    requires base > 0.0 && d <= 0.1 * base
    ensures ZoomScaleFactor(d, base) == 0.1
  {
    DivideKeepsOrder(d, 0.1 * base, base);
  }

  /** In between, the factor is the ratio of the distances. */
  lemma ZoomProportional(d: real, base: real)
    requires base > 0.0 && 0.1 * base <= d <= base
    ensures ZoomScaleFactor(d, base) == d / base
  {
    DivideKeepsOrder(d, base, base);
    DivideKeepsOrder(0.1 * base, d, base);
  }

  /** Zooming out never shrinks the interfaces. */
  lemma ZoomMonotone(d: real, e: real, base: real)
    requires base > 0.0 && d <= e
    ensures ZoomScaleFactor(d, base) <= ZoomScaleFactor(e, base)
  {
    DivideKeepsOrder(d, e, base);
  }

  /**
   * With the base distance 3, distance 5 gives 1 and distance 1 gives 1/3,
   * not the 0.6 and 0.1 the inline comment announces.
   */
  lemma ZoomAtCommentedDistances()
    ensures ZoomScaleFactor(3.0, 3.0) == 1.0
    ensures ZoomScaleFactor(5.0, 3.0) == 1.0 && ZoomScaleFactor(5.0, 3.0) != 0.6
    ensures ZoomScaleFactor(1.0, 3.0) == 1.0 / 3.0 && ZoomScaleFactor(1.0, 3.0) != 0.1
  {
    ZoomFullSize(5.0, 3.0);
    ZoomProportional(1.0, 3.0);
  }

  /**
   * Node i after the frame's interface pass: an interface is put 0.3 above
   * the last node bearing its point's name (above the origin when none).
   */
  function Repositioned(nodes: seq<Node>, i: int): (r: Node)
    requires 0 <= i < |nodes|
    ensures r.position == nodes[i].position && r.color == nodes[i].color
    ensures r.user == nodes[i].user.(iface := r.user.iface)
    ensures r.user.iface.Some? <==> nodes[i].user.iface.Some?
  {
    var n := nodes[i];
    if n.user.iface.Some?
    then n.(user := n.user.(iface := Some(n.user.iface.value.(position := Raise(LastPositionNamed(nodes, n.user.name), 0.3)))))
    else n
  }

  /** The whole globe after the interface pass. */
  function RepositionAll(nodes: seq<Node>): (r: seq<Node>)
    ensures |r| == |nodes| && forall i :: 0 <= i < |nodes| ==> r[i] == Repositioned(nodes, i)
  {
    seq(|nodes|, i requires 0 <= i < |nodes| => Repositioned(nodes, i))
  }

  /** An interface whose point is the last node with its name sits 0.3 above that point. */
  lemma InterfaceFollowsItsPoint(nodes: seq<Node>, i: int)
    requires 0 <= i < |nodes| && nodes[i].user.iface.Some? && IsLastNamed(nodes, nodes[i].user.name, i)
    ensures Repositioned(nodes, i).user.iface.value.position == Raise(nodes[i].position, 0.3)
  {
    LastPositionNamedIsLastMatch(nodes, nodes[i].user.name);
  }

  /** The pass moves only interfaces, so a second pass changes nothing. */
  lemma RepositionIdempotent(nodes: seq<Node>)
    ensures RepositionAll(RepositionAll(nodes)) == RepositionAll(nodes)
  {
    var once := RepositionAll(nodes);
    forall i | 0 <= i < |nodes|
      ensures Repositioned(once, i) == once[i]
    {
      LastPositionNamedReadsNamesAndPositions(once, nodes, nodes[i].user.name);
    }
  }

  /**
   * Node i repositioned against globe nodes that still have the original
   * names and positions is node i repositioned against the original nodes.
   */
  lemma RepositionedAgainst(cur: seq<Node>, start: seq<Node>, i: int)
    requires |cur| == |start| && 0 <= i < |cur| && cur[i] == start[i]
    requires forall j :: 0 <= j < |cur| ==> cur[j].user.name == start[j].user.name && cur[j].position == start[j].position
    ensures Repositioned(cur, i) == Repositioned(start, i)
  {
    LastPositionNamedReadsNamesAndPositions(cur, start, cur[i].user.name);
  }

  /** The interface pass of animateDataPoints, node by node. */
  method RepositionInterfaces(g: Globe?)
    modifies g
    ensures g != null ==> g.nodes == RepositionAll(old(g.nodes))
  {
    if g == null {
      return;
    }
    var start := g.nodes;
    var i := 0;
    while i < |g.nodes|
      invariant 0 <= i <= |g.nodes| == |start|
      invariant forall j :: 0 <= j < |g.nodes| ==> g.nodes[j].user.name == start[j].user.name && g.nodes[j].position == start[j].position
      invariant forall j :: 0 <= j < i ==> g.nodes[j] == Repositioned(start, j)
      invariant forall j :: i <= j < |g.nodes| ==> g.nodes[j] == start[j]
    {
      var n := g.nodes[i];
      RepositionedAgainst(g.nodes, start, i);
      if n.user.iface.Some? {
        var p := Raise(LastPositionNamed(g.nodes, n.user.name), 0.3);
        assert n.(user := n.user.(iface := Some(n.user.iface.value.(position := p)))) == Repositioned(start, i);
        g.nodes := g.nodes[i := n.(user := n.user.(iface := Some(n.user.iface.value.(position := p))))];
      }
      i := i + 1;
    }
    assert g.nodes == RepositionAll(start);
  }

  /** Every node after updateInterfaceSizes(f). */
  function ResizeAll(nodes: seq<Node>, f: real): (r: seq<Node>)
    ensures |r| == |nodes| && forall i :: 0 <= i < |nodes| ==> r[i] == FloatingInterfaces.Resized(nodes[i], f)
  {
    seq(|nodes|, i requires 0 <= i < |nodes| => FloatingInterfaces.Resized(nodes[i], f))
  }

  /**
   * After a frame's two passes an interface has the scale for the zoom
   * factor and sits 0.3 above the last point with its name.
   */
  lemma FrameInterface(nodes: seq<Node>, f: real, i: int)
    requires 0 <= i < |nodes| && nodes[i].user.iface.Some?
    ensures var r := RepositionAll(ResizeAll(nodes, f))[i];
      r.user.iface.Some? && r.user.name == nodes[i].user.name && r.position == nodes[i].position &&
      r.user.iface.value.scale == FloatingInterfaces.ScaleFor(f) &&
      r.user.iface.value.position == Raise(LastPositionNamed(nodes, nodes[i].user.name), 0.3)
  {
    var resized := ResizeAll(nodes, f);
    forall j | 0 <= j < |nodes|
      ensures resized[j].user.name == nodes[j].user.name && resized[j].position == nodes[j].position
    {
      FloatingInterfaces.ResizeProperties(nodes[j], f, f);
    }
    LastPositionNamedReadsNamesAndPositions(resized, nodes, nodes[i].user.name);
    FloatingInterfaces.ResizeProperties(nodes[i], f, f);
  }

  /** The rotation `r` after one frame's increment of (dx, dy) about x and y. */
  function Turned(r: Option<Vec3>, dx: real, dy: real): (t: Option<Vec3>)
    ensures t.Some? <==> r.Some?
    ensures r.Some? ==> t.value == Vec3(r.value.x + dx, r.value.y + dy, r.value.z)
  {
    if r.Some? then Some(Vec3(r.value.x + dx, r.value.y + dy, r.value.z)) else None
  }

  const StarTurnX := 0.00002
  const StarTurnY := 0.00005
  const AtmosphereTurnY := 0.001
  const GlowTurnY := -0.0005

  /** The page state the animation loop reads and writes. */
  class Animator {
    var isLoading: bool
    /** `baseCameraDistance`, the camera distance when the camera was created. */
    var baseCameraDistance: real
    /** `camera.position.length()`, as the orbit controls left it. */
    var cameraDistance: real
    /** The rotations of the scene objects named starField, atmosphere and atmosphereGlow, when present. */
    var starField: Option<Vec3>
    var atmosphere: Option<Vec3>
    var atmosphereGlow: Option<Vec3>

    predicate Valid()
      reads this
    {
      baseCameraDistance > 0.0
    }

    /** The page while loading, with the camera at distance `d`. */
    constructor(d: real, starField: Option<Vec3>, atmosphere: Option<Vec3>, atmosphereGlow: Option<Vec3>)
      requires d > 0.0
      ensures Valid() && isLoading && baseCameraDistance == d && cameraDistance == d
      ensures this.starField == starField && this.atmosphere == atmosphere && this.atmosphereGlow == atmosphereGlow
    {
      isLoading := true;
      baseCameraDistance := d;
      cameraDistance := d;
      this.starField := starField;
      this.atmosphere := atmosphere;
      this.atmosphereGlow := atmosphereGlow;
    }

    /** updateZoomLevel: every interface is scaled for the current distance. */
    method UpdateZoomLevel(g: Globe?)
      requires Valid()
      modifies g
      ensures g != null ==> (|g.nodes| == |old(g.nodes)| &&
        forall i :: 0 <= i < |g.nodes| ==>
          g.nodes[i] == FloatingInterfaces.Resized(old(g.nodes)[i], ZoomScaleFactor(cameraDistance, baseCameraDistance)))
    {
      var f := ZoomScaleFactor(cameraDistance, baseCameraDistance);
      FloatingInterfaces.UpdateInterfaceSizes(g, f);
    }

    /**
     * animateDataPoints: each interface is moved above its point, then the
     * three scene objects, where present, are turned.
     */
    method AnimateDataPoints(g: Globe?)
      modifies g, this
      ensures g != null ==> g.nodes == RepositionAll(old(g.nodes))
      ensures starField == Turned(old(starField), StarTurnX, StarTurnY)
      ensures atmosphere == Turned(old(atmosphere), 0.0, AtmosphereTurnY)
      ensures atmosphereGlow == Turned(old(atmosphereGlow), 0.0, GlowTurnY)
      ensures isLoading == old(isLoading) && baseCameraDistance == old(baseCameraDistance) &&
        cameraDistance == old(cameraDistance)
    {
      RepositionInterfaces(g);
      starField := Turned(starField, StarTurnX, StarTurnY);
      atmosphere := Turned(atmosphere, 0.0, AtmosphereTurnY);
      atmosphereGlow := Turned(atmosphereGlow, 0.0, GlowTurnY);
    }

    /**
     * One call of animate: while loading nothing changes; afterwards the
     * interfaces are rescaled, then repositioned, and the objects turn.
     */
    method Animate(g: Globe?)
      requires Valid()
      modifies g, this
      ensures isLoading == old(isLoading) && baseCameraDistance == old(baseCameraDistance) &&
        cameraDistance == old(cameraDistance)
      ensures Valid()
      ensures old(isLoading) ==> (starField == old(starField) && atmosphere == old(atmosphere) &&
        atmosphereGlow == old(atmosphereGlow) && (g != null ==> g.nodes == old(g.nodes)))
      ensures !old(isLoading) && g != null ==>
        g.nodes == RepositionAll(ResizeAll(old(g.nodes), ZoomScaleFactor(cameraDistance, baseCameraDistance)))
      ensures !old(isLoading) ==> (starField == Turned(old(starField), StarTurnX, StarTurnY) &&
        atmosphere == Turned(old(atmosphere), 0.0, AtmosphereTurnY) &&
        atmosphereGlow == Turned(old(atmosphereGlow), 0.0, GlowTurnY))
    {
      if !isLoading {
        ghost var before := if g == null then [] else g.nodes;
        UpdateZoomLevel(g);
        if g != null {
          assert g.nodes == ResizeAll(before, ZoomScaleFactor(cameraDistance, baseCameraDistance));
        }
        AnimateDataPoints(g);
      }
    }
  }

  /** A rotation after k frames of increments (dx, dy). */
  function TurnedFor(r: Vec3, dx: real, dy: real, k: nat): Vec3
  {
    if k == 0 then r else
      var p := TurnedFor(r, dx, dy, k - 1);
      Vec3(p.x + dx, p.y + dy, p.z)
  }

  /** After k frames the rotation has grown by k increments: the star field by (0.00002 k, 0.00005 k). */
  lemma {:induction false} TurnedForClosedForm(r: Vec3, dx: real, dy: real, k: nat)
    ensures TurnedFor(r, dx, dy, k) == Vec3(r.x + (k as real) * dx, r.y + (k as real) * dy, r.z)
  {
    if k > 0 {
      TurnedForClosedForm(r, dx, dy, k - 1);
    }
  }
}
