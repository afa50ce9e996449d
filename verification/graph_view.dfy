/** The `KnowledgeGraph3D` component: the authored graph, the view state (zoom, rotation,
    play/pause, rotation speed, selected node) and the handlers that change it. */
module KnowledgeGraph {
  import opened Common
  import opened Projection
  import opened GraphFrame

  // ---------------------------------------------------------------------------------------
  // The authored graph

  function SampleNodes(): seq<Node> {
    [Node("data-viz-basics", "数据可视化基础", "foundation", 1,
          ["chart-types", "data-processing"], 85.0, Vec3(0.0, 0.0, 0.0)),
     Node("chart-types", "图表类型", "core", 2,
          ["interactive-charts", "d3-basics"], 70.0, Vec3(100.0, 50.0, -50.0)),
     Node("data-processing", "数据处理", "core", 2,
          ["data-cleaning", "data-analysis"], 60.0, Vec3(-100.0, 50.0, 50.0)),
     Node("interactive-charts", "交互式图表", "advanced", 3,
          ["animation", "user-interaction"], 45.0, Vec3(150.0, 100.0, 0.0)),
     Node("d3-basics", "D3.js基础", "technical", 3,
          ["svg-manipulation", "data-binding"], 30.0, Vec3(50.0, 100.0, -100.0)),
     Node("ai-insights", "AI洞察分析", "ai", 4,
          ["pattern-recognition", "predictive-analytics"], 20.0, Vec3(0.0, 150.0, 75.0))]
  }

  function SampleEdges(): seq<Edge> {
    [Edge("data-viz-basics", "chart-types", 0.9, Prerequisite),
     Edge("data-viz-basics", "data-processing", 0.8, Prerequisite),
     Edge("chart-types", "interactive-charts", 0.7, Prerequisite),
     Edge("chart-types", "d3-basics", 0.6, Related),
     Edge("data-processing", "ai-insights", 0.5, Advanced)]
  }

  /** Every authored node lies well inside the camera sphere, so the perspective divide
      never meets a zero or negative depth, whatever the rotation. */
  lemma SampleNodesInside()
    ensures AllInside(SampleNodes())
  {
    var ns := SampleNodes();
    forall k | 0 <= k < |ns| ensures InsideCamera(ns[k].position) {
      assert Norm2(ns[k].position) <= 32500.0;
    }
  }

  /** Every authored edge names two existing nodes: none of them is skipped. */
  lemma SampleEdgesResolve()
    ensures Resolved(SampleNodes(), SampleEdges()) == SampleEdges()
  {
    var ns, es := SampleNodes(), SampleEdges();
    forall k | 0 <= k < |es| ensures Resolves(ns, es[k]) {
      if k == 0 {
        assert ns[0].id == es[k].from && ns[1].id == es[k].to;
      } else if k == 1 {
        assert ns[0].id == es[k].from && ns[2].id == es[k].to;
      } else if k == 2 {
        assert ns[1].id == es[k].from && ns[3].id == es[k].to;
      } else if k == 3 {
        assert ns[1].id == es[k].from && ns[4].id == es[k].to;
      } else {
        assert ns[2].id == es[k].from && ns[5].id == es[k].to;
      }
    }
    ResolvedAll(ns, es);
  }

  // ---------------------------------------------------------------------------------------
  // Zoom and rotation rules

  const MinZoom: real := 0.5
  const MaxZoom: real := 2.0
  const ZoomStep: real := 0.1

  /** The zoom-in button: `Math.min(2, zoom + 0.1)`. */
  function ZoomedIn(zoom: real): (r: real)
    ensures r <= MaxZoom
    ensures zoom <= MaxZoom ==> zoom <= r
    ensures MinZoom <= zoom ==> MinZoom <= r
  {
    Min(MaxZoom, zoom + ZoomStep)
  }

  /** The zoom-out button: `Math.max(0.5, zoom - 0.1)`. */
  function ZoomedOut(zoom: real): (r: real)
    ensures MinZoom <= r
    ensures MinZoom <= zoom ==> r <= zoom
    ensures zoom <= MaxZoom ==> r <= MaxZoom
  {
    Max(MinZoom, zoom - ZoomStep)
  }

  function ZoomInTimes(zoom: real, n: nat): real {
    if n == 0 then zoom else ZoomedIn(ZoomInTimes(zoom, n - 1))
  }

  function ZoomOutTimes(zoom: real, n: nat): real {
    if n == 0 then zoom else ZoomedOut(ZoomOutTimes(zoom, n - 1))
  }

  /** Pressing zoom-in n times from an in-range zoom climbs in steps of 0.1 and saturates at 2. */
  lemma {:induction false} ZoomInSaturates(zoom: real, n: nat)
    requires zoom <= MaxZoom
    ensures ZoomInTimes(zoom, n) == Min(MaxZoom, zoom + (n as real) * ZoomStep)
  {
    if n > 0 {
      ZoomInSaturates(zoom, n - 1);
    }
  }

  /** Pressing zoom-out n times from an in-range zoom descends in steps of 0.1 and stops at 0.5. */
  lemma {:induction false} ZoomOutSaturates(zoom: real, n: nat)
    requires MinZoom <= zoom
    ensures ZoomOutTimes(zoom, n) == Max(MinZoom, zoom - (n as real) * ZoomStep)
  {
    if n > 0 {
      ZoomOutSaturates(zoom, n - 1);
    }
  }

  /** The per-frame rotation update while playing. */
  function Turned(rot: Rotation, speed: real): (r: Rotation)
    ensures r.x - rot.x == 2.0 * (r.y - rot.y)
  {
    Rotation(rot.x + speed * 0.01, rot.y + speed * 0.005)
  }

  /** The rotation after n rendered frames: while playing, n times the per-frame increment
      is added; while paused no number of frames turns the graph at all. */
  function Spin(rot: Rotation, speed: real, playing: bool, n: nat): (r: Rotation)
    ensures playing ==> r == Rotation(rot.x + (n as real) * speed * 0.01, rot.y + (n as real) * speed * 0.005)
    ensures !playing ==> r == rot
  {
    if n == 0 || !playing then rot else Turned(Spin(rot, speed, playing, n - 1), speed)
  }

  // ---------------------------------------------------------------------------------------
  // Click hit-test

  function HitRadius(level: int): real {
    25.0 + (level as real) * 5.0
  }

  /** `Math.sqrt(dx² + dy²) < 25 + level * 5`, without the square root: a square root is never
      negative, so it is below r exactly when r is positive and dx² + dy² < r². */
  predicate Hit(n: Node, p: Point, clickX: real, clickY: real)
    ensures clickX == p.x && clickY == p.y ==> (Hit(n, p, clickX, clickY) <==> n.level > -5)
    ensures n.level <= -5 ==> !Hit(n, p, clickX, clickY)
  {
    var dx, dy := clickX - p.x, clickY - p.y;
    var r := HitRadius(n.level);
    0.0 < r && dx * dx + dy * dy < r * r
  }

  /** The index of the LAST node hit by the click (`pos[k]` is where node k is drawn). */
  function LastHit(nodes: seq<Node>, pos: seq<Point>, clickX: real, clickY: real): (r: Option<nat>)
    requires |pos| == |nodes|
    ensures r.Some? ==> r.value < |nodes| && Hit(nodes[r.value], pos[r.value], clickX, clickY)
    ensures r.Some? ==> forall j :: r.value < j < |nodes| ==> !Hit(nodes[j], pos[j], clickX, clickY)
    ensures r.None? <==> forall j :: 0 <= j < |nodes| ==> !Hit(nodes[j], pos[j], clickX, clickY)
  {
    if nodes == [] then None
    else if Hit(nodes[|nodes| - 1], pos[|pos| - 1], clickX, clickY) then Some(|nodes| - 1)
    else LastHit(nodes[..|nodes| - 1], pos[..|pos| - 1], clickX, clickY)
  }

  /** The selection after a click: the last hit node, or the previous selection if none is hit. */
  function Clicked(nodes: seq<Node>, pos: seq<Point>, clickX: real, clickY: real, previous: Option<Node>): (r: Option<Node>)
    requires |pos| == |nodes|
    ensures r == previous || r in (set k | 0 <= k < |nodes| :: Some(nodes[k]))
  {
    match LastHit(nodes, pos, clickX, clickY)
    case None => previous
    case Some(k) => Some(nodes[k])
  }

  lemma ClickedSnoc(nodes: seq<Node>, pos: seq<Point>, clickX: real, clickY: real, previous: Option<Node>, j: nat)
    requires |pos| == |nodes| && j < |nodes|
    ensures Clicked(nodes[..j + 1], pos[..j + 1], clickX, clickY, previous) ==
            if Hit(nodes[j], pos[j], clickX, clickY) then Some(nodes[j])
            else Clicked(nodes[..j], pos[..j], clickX, clickY, previous)
  {
    assert nodes[..j + 1][..j] == nodes[..j];
    assert pos[..j + 1][..j] == pos[..j];
  }

  /** Last match wins, not nearest: two overlapping nodes both hit, the click is 1 away from
      the first and 19 away from the second, and the second is selected. */
  lemma SelectionIsNotNearest()
    ensures var a := Node("a", "A", "core", 1, [], 0.0, Vec3(0.0, 0.0, 0.0));
            var b := Node("b", "B", "core", 1, [], 0.0, Vec3(0.0, 0.0, 0.0));
            var pos := [Point(0.0, 0.0), Point(20.0, 0.0)];
            && Hit(a, pos[0], 1.0, 0.0) && Hit(b, pos[1], 1.0, 0.0)
            && Clicked([a, b], pos, 1.0, 0.0, None) == Some(b)
  {
  }

  // ---------------------------------------------------------------------------------------
  // The component state

  class KnowledgeGraphView {
    const nodes: seq<Node>
    const edges: seq<Edge>
    /** The host's `Math.cos` / `Math.sin`. */
    const trig: Trig
    var isPlaying: bool
    var rotationSpeed: real
    var zoom: real
    var rotation: Rotation
    var selectedNode: Option<Node>

    ghost predicate Valid()
      reads this
    {
      && trig.Valid()
      && AllInside(nodes)
      && MinZoom <= zoom <= MaxZoom
      && 0.0 <= rotationSpeed <= 2.0
    }

    /** The canvas as `render` and `handleNodeClick` see it: centred on half the canvas size. */
    function ViewFor(width: real, height: real): View
      reads this
    {
      View(width / 2.0, height / 2.0, zoom, rotation, trig)
    }

    /** Initial state: the authored graph, playing at speed 0.5, zoom 1, no rotation, nothing selected. */
    constructor (trig: Trig)
      requires trig.Valid()
      ensures Valid()
      ensures nodes == SampleNodes() && edges == SampleEdges() && this.trig == trig
      ensures isPlaying && rotationSpeed == 0.5 && zoom == 1.0
      ensures rotation == Rotation(0.0, 0.0) && selectedNode == None
    {
      nodes := SampleNodes();
      edges := SampleEdges();
      this.trig := trig;
      isPlaying := true;
      rotationSpeed := 0.5;
      zoom := 1.0;
      rotation := Rotation(0.0, 0.0);
      selectedNode := None;
      SampleNodesInside();
    }

    /** One call of `render`: the frame is drawn with the rotation that was current when the
        frame started, and the rotation advances for the next frame while playing. */
    method RenderFrame(width: real, height: real) returns (frame: seq<DrawCmd>)
      requires Valid()
      modifies this`rotation
      ensures Valid()
      ensures frame == Frame(nodes, edges, old(ViewFor(width, height)))
      ensures rotation == if isPlaying then Turned(old(rotation), rotationSpeed) else old(rotation)
    {
      var view := ViewFor(width, height);
      if isPlaying {
        rotation := Rotation(rotation.x + rotationSpeed * 0.01, rotation.y + rotationSpeed * 0.005);
      }
      frame := DrawFrame(nodes, edges, view);
    }

    /** `handleNodeClick`: every node under the pointer overwrites the selection in turn. */
    method Click(clickX: real, clickY: real, width: real, height: real)
      requires Valid()
      modifies this`selectedNode
      ensures Valid()
      ensures selectedNode == Clicked(nodes, Projected(nodes, ViewFor(width, height)), clickX, clickY, old(selectedNode))
    {
      var view := ViewFor(width, height);
      ghost var pos := Projected(nodes, view);
      ghost var previous := selectedNode;
      var j := 0;
      while j < |nodes|
        invariant 0 <= j <= |nodes|
        invariant selectedNode == Clicked(nodes[..j], pos[..j], clickX, clickY, previous)
      {
        var node := nodes[j];
        var pos2D := Project(node.position, view);
        assert pos2D == pos[j];
        if Hit(node, pos2D, clickX, clickY) {
          selectedNode := Some(node);
        }
        ClickedSnoc(nodes, pos, clickX, clickY, previous, j);
        j := j + 1;
      }
      assert nodes[..|nodes|] == nodes;
      assert pos[..|pos|] == pos;
    }

    method ZoomIn()
      requires Valid()
      modifies this`zoom
      ensures Valid()
      ensures zoom == ZoomedIn(old(zoom))
    {
      zoom := Min(2.0, zoom + 0.1);
    }

    method ZoomOut()
      requires Valid()
      modifies this`zoom
      ensures Valid()
      ensures zoom == ZoomedOut(old(zoom))
    {
      zoom := Max(0.5, zoom - 0.1);
    }

    /** The reset button puts the rotation back to (0, 0); play state, zoom and speed stay. */
    method Reset()
      requires Valid()
      modifies this`rotation
      ensures Valid()
      ensures rotation == Rotation(0.0, 0.0)
    {
      rotation := Rotation(0.0, 0.0);
    }

    method TogglePlay()
      requires Valid()
      modifies this`isPlaying
      ensures Valid()
      ensures isPlaying == !old(isPlaying)
    {
      isPlaying := !isPlaying;
    }

    /** The speed slider ranges over [0, 2]. */
    method SetRotationSpeed(speed: real)
      requires Valid()
      requires 0.0 <= speed <= 2.0
      modifies this`rotationSpeed
      ensures Valid()
      ensures rotationSpeed == speed
    {
      rotationSpeed := speed;
    }
  }

  /** After a reset, the next frame is drawn with the plain perspective divide: every node
      at (x, y, z) lands at `centre + (x, y) * (300 / (300 + z)) * zoom`. */
  lemma FrameAfterReset(g: KnowledgeGraphView, width: real, height: real, k: nat)
    requires g.Valid() && g.rotation == Rotation(0.0, 0.0) && k < |g.nodes|
    ensures var v := g.nodes[k].position;
            var s := (CameraDistance / (CameraDistance + v.z)) * g.zoom;
            Projected(g.nodes, g.ViewFor(width, height))[k] == Point(width / 2.0 + v.x * s, height / 2.0 + v.y * s)
  {
    var view := g.ViewFor(width, height);
    assert view.rotation == Rotation(0.0, 0.0) && view.zoom == g.zoom;
    assert view.centerX == width / 2.0 && view.centerY == height / 2.0;
  }
}
