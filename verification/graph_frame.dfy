/** One frame of the knowledge-graph canvas as a list of abstract draw commands:
    clear, then every edge, then every node (circle, mastery ring, label). */
module GraphFrame {
  import opened Common
  import opened Projection

  datatype EdgeKind = Prerequisite | Related | Advanced

  /** A knowledge point. `category` is a free string: the palette lookup has a fallback. */
  datatype Node = Node(id: string, caption: string, category: string, level: int,
                       connections: seq<string>, mastery: real, position: Vec3)

  datatype Edge = Edge(from: string, to: string, strength: real, kind: EdgeKind)

  datatype DrawCmd =
    | Clear
    | SetAlpha(alpha: real)
    | Line(from: Point, to: Point, color: string, width: real)
    | Disc(center: Point, radius: real, color: string)
      /** An arc from angle 0 sweeping `sweep` full turns (`sweep * 2 * PI` radians). */
    | Ring(center: Point, radius: real, sweep: real, color: string, width: real)
    | Caption(text: string, at: Point, color: string)
  {
    predicate IsEdgeCmd() { SetAlpha? || Line? }
    predicate IsNodeCmd() { Disc? || Ring? || Caption? }
  }

  const White: string := "#ffffff"
  const FallbackColor: string := "#6b7280"
  const EdgeAlpha: real := 0.6

  const CategoryPalette: map<string, string> :=
    map["foundation" := "#3b82f6", "core" := "#10b981", "advanced" := "#f59e0b",
        "technical" := "#8b5cf6", "ai" := "#ef4444"]

  /** `colors[node.category] || "#6b7280"`. */
  function CategoryColor(category: string): (r: string)
    ensures r == FallbackColor <==> category !in CategoryPalette
    ensures category in CategoryPalette ==> r in CategoryPalette.Values
    ensures category == "foundation" ==> r == "#3b82f6"
    ensures category == "core" ==> r == "#10b981"
    ensures category == "advanced" ==> r == "#f59e0b"
    ensures category == "technical" ==> r == "#8b5cf6"
    ensures category == "ai" ==> r == "#ef4444"
  {
    if category in CategoryPalette then CategoryPalette[category] else FallbackColor
  }

  /** Stroke colour by relation type: blue, green, otherwise amber, which are the colours of
      the foundation, core and advanced categories. */
  function EdgeColor(kind: EdgeKind): (r: string)
    ensures r == CategoryPalette["foundation"] <==> kind == Prerequisite
    ensures r == CategoryPalette["core"] <==> kind == Related
    ensures r == CategoryPalette["advanced"] <==> kind == Advanced
  {
    match kind
    case Prerequisite => "#3b82f6"
    case Related => "#10b981"
    case Advanced => "#f59e0b"
  }

  /** `nodes.find((n) => n.id === id)`, as an index: the FIRST node carrying the id. */
  function FindIndex(nodes: seq<Node>, id: string): (r: Option<nat>)
    ensures r.Some? ==> r.value < |nodes| && nodes[r.value].id == id
    ensures r.Some? ==> forall j :: 0 <= j < r.value ==> nodes[j].id != id
    ensures r.None? <==> forall j :: 0 <= j < |nodes| ==> nodes[j].id != id
  {
    if nodes == [] then None
    else if nodes[0].id == id then Some(0)
    else match FindIndex(nodes[1..], id)
      case None => None
      case Some(k) => Some(k + 1)
  }

  predicate AllInside(nodes: seq<Node>) {
    forall k :: 0 <= k < |nodes| ==> InsideCamera(nodes[k].position)
  }

  /** Both endpoints of the edge name a node. */
  predicate Resolves(nodes: seq<Node>, e: Edge) {
    FindIndex(nodes, e.from).Some? && FindIndex(nodes, e.to).Some?
  }

  /** `20 + level * 5`: at least the base radius 20 exactly for levels from 0 up, and
      positive for every level above -4. */
  function DiscRadius(level: int): (r: real)
    ensures r >= 20.0 <==> level >= 0
    ensures r > 0.0 <==> level > -4
  {
    20.0 + (level as real) * 5.0
  }

  /** Every node projected to the canvas, in node order (`project3DTo2D` is pure, so
      projecting once per node gives the same points as projecting inside each loop). */
  function Projected(nodes: seq<Node>, view: View): (pos: seq<Point>)
    requires view.trig.Valid() && AllInside(nodes)
    ensures |pos| == |nodes|
    ensures forall k :: 0 <= k < |nodes| ==> pos[k] == Project(nodes[k].position, view)
  {
    seq(|nodes|, k requires 0 <= k < |nodes| => Project(nodes[k].position, view))
  }

  /** The commands for one edge: a line at 60% opacity between the projected endpoints,
      width `strength * 3`, with the opacity restored to 1 afterwards; nothing at all when an
      endpoint is missing. */
  function EdgeDraw(nodes: seq<Node>, pos: seq<Point>, e: Edge): (r: seq<DrawCmd>)
    requires |pos| == |nodes|
    ensures Resolves(nodes, e) ==> |r| == 3
    ensures !Resolves(nodes, e) ==> r == []
    ensures |r| == 3 ==> r[0] == SetAlpha(EdgeAlpha) && r[1].Line? && r[2] == SetAlpha(1.0)
    ensures |r| == 3 ==> r[1].color == EdgeColor(e.kind) && r[1].width == e.strength * 3.0
    ensures Resolves(nodes, e) ==>
              r[1].from == pos[FindIndex(nodes, e.from).value] && r[1].to == pos[FindIndex(nodes, e.to).value]
  {
    if Resolves(nodes, e) then
      [SetAlpha(EdgeAlpha),
       Line(pos[FindIndex(nodes, e.from).value], pos[FindIndex(nodes, e.to).value],
            EdgeColor(e.kind), e.strength * 3.0),
       SetAlpha(1.0)]
    else []
  }

  /** The commands for one node drawn at `p`: the filled circle, the white mastery ring just
      outside it, and the label below it. */
  function NodeDraw(n: Node, p: Point): (r: seq<DrawCmd>)
    ensures |r| == 3 && r[0].Disc? && r[1].Ring? && r[2].Caption?
    ensures r[0].center == p && r[0].radius == DiscRadius(n.level)
    ensures r[0].color == CategoryColor(n.category)
    ensures r[1].center == r[0].center && r[1].radius == r[0].radius + 5.0
    ensures r[1].color == White && r[1].sweep == n.mastery / 100.0 && r[1].width == 3.0
    ensures r[2].at == Point(p.x, p.y + r[0].radius + 15.0) && r[2].text == n.caption
    ensures r[2].color == White
  {
    [Disc(p, 20.0 + (n.level as real) * 5.0, CategoryColor(n.category)),
     Ring(p, 25.0 + (n.level as real) * 5.0, n.mastery / 100.0, White, 3.0),
     Caption(n.caption, Point(p.x, p.y + 35.0 + (n.level as real) * 5.0), White)]
  }

  /** `edges.forEach(...)`: the edge commands in edge order. */
  function EdgeLayer(nodes: seq<Node>, pos: seq<Point>, edges: seq<Edge>): (r: seq<DrawCmd>)
    requires |pos| == |nodes|
    ensures |r| <= 3 * |edges|
    ensures r != [] ==> r[|r| - 1] == SetAlpha(1.0)
  {
    if edges == [] then []
    else EdgeLayer(nodes, pos, edges[..|edges| - 1]) + EdgeDraw(nodes, pos, edges[|edges| - 1])
  }

  /** `nodes.forEach(...)`: the node commands in node order (`pos[k]` is where node k lands). */
  function NodeLayer(nodes: seq<Node>, pos: seq<Point>): (r: seq<DrawCmd>)
    requires |pos| == |nodes|
    ensures |r| == 3 * |nodes|
    ensures forall j :: 0 <= j < |r| ==> r[j].IsNodeCmd()
  {
    if nodes == [] then []
    else NodeLayer(nodes[..|nodes| - 1], pos[..|pos| - 1]) + NodeDraw(nodes[|nodes| - 1], pos[|pos| - 1])
  }

  /** One call of `render`, as far as the canvas is concerned. */
  function Frame(nodes: seq<Node>, edges: seq<Edge>, view: View): (r: seq<DrawCmd>)
    requires view.trig.Valid() && AllInside(nodes)
    ensures 1 + 3 * |nodes| <= |r| <= 1 + 3 * |edges| + 3 * |nodes|
    ensures r[0] == Clear
    ensures forall j :: 1 <= j < |r| ==> r[j].IsEdgeCmd() || r[j].IsNodeCmd()
  {
    var pos := Projected(nodes, view);
    EdgeLayerShape(nodes, pos, edges);
    [Clear] + EdgeLayer(nodes, pos, edges) + NodeLayer(nodes, pos)
  }

  lemma EdgeLayerSnoc(nodes: seq<Node>, pos: seq<Point>, edges: seq<Edge>, i: nat)
    requires |pos| == |nodes| && i < |edges|
    ensures EdgeLayer(nodes, pos, edges[..i + 1]) == EdgeLayer(nodes, pos, edges[..i]) + EdgeDraw(nodes, pos, edges[i])
  {
    assert edges[..i + 1][..i] == edges[..i];
  }

  lemma NodeLayerSnoc(nodes: seq<Node>, pos: seq<Point>, j: nat)
    requires |pos| == |nodes| && j < |nodes|
    ensures NodeLayer(nodes[..j + 1], pos[..j + 1]) == NodeLayer(nodes[..j], pos[..j]) + NodeDraw(nodes[j], pos[j])
  {
    assert nodes[..j + 1][..j] == nodes[..j];
    assert pos[..j + 1][..j] == pos[..j];
  }

  /** One pass of the `edges.forEach` loop: look both endpoints up and, when both exist, draw
      the line between their projections at 60% opacity. */
  method DrawEdge(nodes: seq<Node>, edge: Edge, view: View) returns (cmds: seq<DrawCmd>)
    requires view.trig.Valid() && AllInside(nodes)
    ensures cmds == EdgeDraw(nodes, Projected(nodes, view), edge)
  {
    var fromNode := FindIndex(nodes, edge.from);
    var toNode := FindIndex(nodes, edge.to);
    if fromNode.Some? && toNode.Some? {
      var from2D := Project(nodes[fromNode.value].position, view);
      var to2D := Project(nodes[toNode.value].position, view);
      cmds := [SetAlpha(EdgeAlpha), Line(from2D, to2D, EdgeColor(edge.kind), edge.strength * 3.0), SetAlpha(1.0)];
    } else {
      cmds := [];
    }
  }

  /** The `edges.forEach` loop of `render`. */
  method DrawEdges(nodes: seq<Node>, edges: seq<Edge>, view: View) returns (cmds: seq<DrawCmd>)
    requires view.trig.Valid() && AllInside(nodes)
    ensures cmds == EdgeLayer(nodes, Projected(nodes, view), edges)
  {
    ghost var pos := Projected(nodes, view);
    cmds := [];
    var i := 0;
    while i < |edges|
      invariant 0 <= i <= |edges|
      invariant cmds == EdgeLayer(nodes, pos, edges[..i])
    {
      var drawn := DrawEdge(nodes, edges[i], view);
      cmds := cmds + drawn;
      EdgeLayerSnoc(nodes, pos, edges, i);
      i := i + 1;
    }
    assert edges[..|edges|] == edges;
  }

  /** The `nodes.forEach` loop of `render`. */
  method DrawNodes(nodes: seq<Node>, view: View) returns (cmds: seq<DrawCmd>)
    requires view.trig.Valid() && AllInside(nodes)
    ensures cmds == NodeLayer(nodes, Projected(nodes, view))
  {
    ghost var pos := Projected(nodes, view);
    cmds := [];
    var j := 0;
    while j < |nodes|
      invariant 0 <= j <= |nodes|
      invariant cmds == NodeLayer(nodes[..j], pos[..j])
    {
      var drawn := DrawNode(nodes[j], view);
      cmds := cmds + drawn;
      NodeLayerSnoc(nodes, pos, j);
      j := j + 1;
    }
    assert nodes[..|nodes|] == nodes;
    assert pos[..|pos|] == pos;
  }

  /** One pass of the `nodes.forEach` loop: circle, mastery ring and label at the projection. */
  method DrawNode(node: Node, view: View) returns (cmds: seq<DrawCmd>)
    requires view.trig.Valid() && InsideCamera(node.position)
    ensures cmds == NodeDraw(node, Project(node.position, view))
  {
    var pos2D := Project(node.position, view);
    cmds := [Disc(pos2D, 20.0 + (node.level as real) * 5.0, CategoryColor(node.category))];
    cmds := cmds + [Ring(pos2D, 25.0 + (node.level as real) * 5.0, node.mastery / 100.0, White, 3.0)];
    cmds := cmds + [Caption(node.caption, Point(pos2D.x, pos2D.y + 35.0 + (node.level as real) * 5.0), White)];
  }

  /** The drawing part of `render`: clear the canvas, draw the edges, then the nodes. */
  method DrawFrame(nodes: seq<Node>, edges: seq<Edge>, view: View) returns (frame: seq<DrawCmd>)
    requires view.trig.Valid() && AllInside(nodes)
    ensures frame == Frame(nodes, edges, view)
  {
    var edgeCmds := DrawEdges(nodes, edges, view);
    var nodeCmds := DrawNodes(nodes, view);
    frame := [Clear] + edgeCmds + nodeCmds;
  }

  // ---------------------------------------------------------------------------------------
  // Properties of a frame

  /** Node k of the list owns commands 3k, 3k+1, 3k+2 of the node layer. */
  lemma {:induction false} NodeLayerAt(nodes: seq<Node>, pos: seq<Point>, k: nat)
    requires |pos| == |nodes| && k < |nodes|
    ensures |NodeLayer(nodes, pos)| == 3 * |nodes|
    ensures NodeLayer(nodes, pos)[3 * k..3 * k + 3] == NodeDraw(nodes[k], pos[k])
  {
    var init, pinit := nodes[..|nodes| - 1], pos[..|pos| - 1];
    if k < |init| {
      NodeLayerAt(init, pinit, k);
    } else if init != [] {
      NodeLayerAt(init, pinit, 0);
    }
    assert init == [] ==> NodeLayer(init, pinit) == [];
  }

  /** The edges whose endpoints both exist, in edge order. */
  function Resolved(nodes: seq<Node>, edges: seq<Edge>): (r: seq<Edge>)
    ensures |r| <= |edges|
    ensures forall k :: 0 <= k < |r| ==> Resolves(nodes, r[k]) && r[k] in edges
    ensures forall e :: e in edges && Resolves(nodes, e) ==> e in r
  {
    if edges == [] then []
    else
      var init := Resolved(nodes, edges[..|edges| - 1]);
      if Resolves(nodes, edges[|edges| - 1]) then init + [edges[|edges| - 1]] else init
  }

  /** Resolving keeps the edge order: the resolvable edges of `a + b` are those of `a` followed
      by those of `b`. */
  lemma {:induction false} ResolvedConcat(nodes: seq<Node>, a: seq<Edge>, b: seq<Edge>)
    ensures Resolved(nodes, a + b) == Resolved(nodes, a) + Resolved(nodes, b)
  {
    if b == [] {
      assert a + b == a;
    } else {
      var init, last := b[..|b| - 1], b[|b| - 1];
      var tail := if Resolves(nodes, last) then [last] else [];
      ResolvedConcat(nodes, a, init);
      assert (a + b)[..|a + b| - 1] == a + init;
      assert (a + b)[|a + b| - 1] == last;
      assert Resolved(nodes, a + b) == Resolved(nodes, a + init) + tail;
      assert Resolved(nodes, b) == Resolved(nodes, init) + tail;
      var fa, fi := Resolved(nodes, a), Resolved(nodes, init);
      assert (fa + fi) + tail == fa + (fi + tail);
    }
  }

  /** A single edge is kept exactly when it qualifies. */
  lemma ResolvedSingle(nodes: seq<Node>, e: Edge)
    ensures Resolved(nodes, [e]) == if Resolves(nodes, e) then [e] else []
  {
    assert [e][..0] == [];
  }

  /** When every edge resolves, none is dropped. */
  lemma {:induction false} ResolvedAll(nodes: seq<Node>, edges: seq<Edge>)
    requires forall k :: 0 <= k < |edges| ==> Resolves(nodes, edges[k])
    ensures Resolved(nodes, edges) == edges
  {
    if edges != [] {
      var init, last := edges[..|edges| - 1], edges[|edges| - 1];
      ResolvedAll(nodes, init);
      assert Resolves(nodes, last);
      assert Resolved(nodes, edges) == Resolved(nodes, init) + [last];
      assert init + [last] == edges;
    }
  }

  /** Edges with a missing endpoint are skipped silently: the edge layer is that of the
      resolvable edges alone. */
  lemma {:induction false} EdgeLayerSkipsUnresolved(nodes: seq<Node>, pos: seq<Point>, edges: seq<Edge>)
    requires |pos| == |nodes|
    ensures EdgeLayer(nodes, pos, edges) == EdgeLayer(nodes, pos, Resolved(nodes, edges))
  {
    if edges != [] {
      var init := edges[..|edges| - 1];
      var last := edges[|edges| - 1];
      EdgeLayerSkipsUnresolved(nodes, pos, init);
      var r := Resolved(nodes, init);
      if Resolves(nodes, last) {
        assert (r + [last])[..|r + [last]| - 1] == r;
      }
    }
  }

  /** Resolvable edges draw three commands each. */
  lemma {:induction false} ResolvedLayerLength(nodes: seq<Node>, pos: seq<Point>, rs: seq<Edge>)
    requires |pos| == |nodes|
    requires forall j :: 0 <= j < |rs| ==> Resolves(nodes, rs[j])
    ensures |EdgeLayer(nodes, pos, rs)| == 3 * |rs|
  {
    if rs != [] {
      ResolvedLayerLength(nodes, pos, rs[..|rs| - 1]);
    }
  }

  lemma {:induction false} ResolvedLayerAt(nodes: seq<Node>, pos: seq<Point>, rs: seq<Edge>, k: nat)
    requires |pos| == |nodes|
    requires forall j :: 0 <= j < |rs| ==> Resolves(nodes, rs[j])
    requires k < |rs|
    ensures 3 * k + 3 <= |EdgeLayer(nodes, pos, rs)|
    ensures forall m :: 0 <= m < 3 ==>
              EdgeLayer(nodes, pos, rs)[3 * k + m] == EdgeDraw(nodes, pos, rs[k])[m]
  {
    var init := rs[..|rs| - 1];
    var a := EdgeLayer(nodes, pos, init);
    var b := EdgeDraw(nodes, pos, rs[|rs| - 1]);
    ResolvedLayerLength(nodes, pos, init);
    assert EdgeLayer(nodes, pos, rs) == a + b;
    if k < |init| {
      ResolvedLayerAt(nodes, pos, init, k);
      assert init[k] == rs[k];
    } else {
      assert k == |init| && |b| == 3;
    }
  }

  /** Resolvable edge k owns commands 3k, 3k+1, 3k+2 of the edge layer: its line, coloured by
      the relation type and `strength * 3` wide, between two opacity changes. */
  lemma EdgeLayerAt(nodes: seq<Node>, pos: seq<Point>, edges: seq<Edge>, k: nat)
    requires |pos| == |nodes|
    requires k < |Resolved(nodes, edges)|
    ensures |EdgeLayer(nodes, pos, edges)| == 3 * |Resolved(nodes, edges)|
    ensures var e := Resolved(nodes, edges)[k];
            var layer := EdgeLayer(nodes, pos, edges);
            && layer[3 * k] == SetAlpha(EdgeAlpha)
            && layer[3 * k + 1].Line?
            && layer[3 * k + 1].color == EdgeColor(e.kind)
            && layer[3 * k + 1].width == e.strength * 3.0
            && layer[3 * k + 1].from == pos[FindIndex(nodes, e.from).value]
            && layer[3 * k + 1].to == pos[FindIndex(nodes, e.to).value]
            && layer[3 * k + 2] == SetAlpha(1.0)
  {
    var rs := Resolved(nodes, edges);
    EdgeLayerSkipsUnresolved(nodes, pos, edges);
    ResolvedLayerLength(nodes, pos, rs);
    ResolvedLayerAt(nodes, pos, rs, k);
    var d := EdgeDraw(nodes, pos, rs[k]);
    var layer := EdgeLayer(nodes, pos, rs);
    assert layer[3 * k] == d[0] && layer[3 * k + 1] == d[1] && layer[3 * k + 2] == d[2];
  }

  /** The shape of an edge layer: only opacity changes and lines; every line directly follows
      the switch to 60% opacity; a non-empty layer ends by restoring full opacity. */
  ghost predicate EdgeShaped(layer: seq<DrawCmd>) {
    && (forall j :: 0 <= j < |layer| ==> layer[j].IsEdgeCmd())
    && (forall j :: 0 <= j < |layer| && layer[j].Line? ==> 0 < j && layer[j - 1] == SetAlpha(EdgeAlpha))
    && (layer != [] ==> layer[|layer| - 1] == SetAlpha(1.0))
  }

  lemma ConcatShaped(a: seq<DrawCmd>, b: seq<DrawCmd>)
    requires EdgeShaped(a) && EdgeShaped(b)
    ensures EdgeShaped(a + b)
  {
    var c := a + b;
    forall j | 0 <= j < |c| && c[j].Line?
      ensures 0 < j && c[j - 1] == SetAlpha(EdgeAlpha)
    {
      if j < |a| {
        assert c[j] == a[j] && c[j - 1] == a[j - 1];
      } else {
        assert c[j] == b[j - |a|];
        assert c[j - 1] == b[j - |a| - 1];
      }
    }
    if b == [] {
      assert c == a;
    } else {
      assert c[|c| - 1] == b[|b| - 1];
    }
  }

  /** Every edge layer has that shape. */
  lemma {:induction false} EdgeLayerShape(nodes: seq<Node>, pos: seq<Point>, edges: seq<Edge>)
    requires |pos| == |nodes|
    ensures EdgeShaped(EdgeLayer(nodes, pos, edges))
  {
    if edges != [] {
      var d := EdgeDraw(nodes, pos, edges[|edges| - 1]);
      EdgeLayerShape(nodes, pos, edges[..|edges| - 1]);
      assert EdgeShaped(d);
      ConcatShaped(EdgeLayer(nodes, pos, edges[..|edges| - 1]), d);
    }
  }

  /** Every command of the node layer draws a node. */
  lemma {:induction false} NodeLayerShape(nodes: seq<Node>, pos: seq<Point>)
    requires |pos| == |nodes|
    ensures forall j :: 0 <= j < |NodeLayer(nodes, pos)| ==> NodeLayer(nodes, pos)[j].IsNodeCmd()
  {
    if nodes != [] {
      NodeLayerShape(nodes[..|nodes| - 1], pos[..|pos| - 1]);
    }
  }

  /** A clear, then edge commands only, then node commands only: no edge command follows a
      node command. */
  lemma LayersInOrder(edgeCmds: seq<DrawCmd>, nodeCmds: seq<DrawCmd>)
    requires forall j :: 0 <= j < |edgeCmds| ==> edgeCmds[j].IsEdgeCmd()
    requires forall j :: 0 <= j < |nodeCmds| ==> nodeCmds[j].IsNodeCmd()
    ensures var frame := [Clear] + edgeCmds + nodeCmds;
            forall i, j :: 0 <= i < j < |frame| && frame[i].IsNodeCmd() ==> !frame[j].IsEdgeCmd()
  {
    var frame := [Clear] + edgeCmds + nodeCmds;
    forall i | 1 <= i <= |edgeCmds|
      ensures frame[i].IsEdgeCmd()
    {
      assert frame[i] == edgeCmds[i - 1];
    }
    forall i | |edgeCmds| < i < |frame|
      ensures frame[i].IsNodeCmd()
    {
      assert frame[i] == nodeCmds[i - 1 - |edgeCmds|];
    }
  }

  /** Edges are painted behind nodes: the frame starts with a clear, and no edge command
      follows any node command. */
  lemma EdgesBeforeNodes(nodes: seq<Node>, edges: seq<Edge>, view: View)
    requires view.trig.Valid() && AllInside(nodes)
    ensures Frame(nodes, edges, view)[0] == Clear
    ensures forall i, j :: 0 <= i < j < |Frame(nodes, edges, view)| && Frame(nodes, edges, view)[i].IsNodeCmd()
              ==> !Frame(nodes, edges, view)[j].IsEdgeCmd()
  {
    var pos := Projected(nodes, view);
    EdgeLayerShape(nodes, pos, edges);
    NodeLayerShape(nodes, pos);
    LayersInOrder(EdgeLayer(nodes, pos, edges), NodeLayer(nodes, pos));
  }

  // ---------------------------------------------------------------------------------------
  // Opacity

  /** The canvas `globalAlpha` in effect after the commands (1 initially). */
  function AlphaAfter(cmds: seq<DrawCmd>): (r: real)
    ensures r == 1.0 || SetAlpha(r) in cmds
    ensures (forall j :: 0 <= j < |cmds| ==> !cmds[j].SetAlpha?) ==> r == 1.0
  {
    if cmds == [] then 1.0
    else if cmds[|cmds| - 1].SetAlpha? then cmds[|cmds| - 1].alpha
    else AlphaAfter(cmds[..|cmds| - 1])
  }

  lemma {:induction false} AlphaUnchangedBy(a: seq<DrawCmd>, b: seq<DrawCmd>)
    requires forall j :: 0 <= j < |b| ==> !b[j].SetAlpha?
    ensures AlphaAfter(a + b) == AlphaAfter(a)
  {
    if b != [] {
      assert (a + b)[..|a + b| - 1] == a + b[..|b| - 1];
      AlphaUnchangedBy(a, b[..|b| - 1]);
    } else {
      assert a + b == a;
    }
  }

  /** Inside an edge layer, every line is preceded directly by the switch to 60% opacity. */
  lemma EdgeLinesDimmed(head: seq<DrawCmd>, layer: seq<DrawCmd>, k: nat)
    requires EdgeShaped(layer)
    requires k < |layer| && layer[k].Line?
    ensures AlphaAfter(head + layer[..k]) == EdgeAlpha
  {
    var pre := head + layer[..k];
    assert pre[|pre| - 1] == layer[k - 1];
  }

  /** After a whole edge layer the opacity is back at 1. */
  lemma EdgeLayerRestoresAlpha(layer: seq<DrawCmd>)
    requires EdgeShaped(layer)
    ensures AlphaAfter([Clear] + layer) == 1.0
  {
    var head := [Clear] + layer;
    if layer != [] {
      assert head[|head| - 1] == layer[|layer| - 1];
    } else {
      assert head[..|head| - 1] == [];
    }
  }

  /** In a clear followed by an edge layer and a node layer, command k is drawn at 0.6 when it
      is a line and at 1 when it is a node element. */
  lemma LayeredOpacity(layer: seq<DrawCmd>, nodeLayer: seq<DrawCmd>, k: nat)
    requires EdgeShaped(layer)
    requires forall j :: 0 <= j < |nodeLayer| ==> nodeLayer[j].IsNodeCmd()
    requires k < 1 + |layer| + |nodeLayer|
    ensures var frame := [Clear] + layer + nodeLayer;
            && (frame[k].Line? ==> AlphaAfter(frame[..k]) == EdgeAlpha)
            && (frame[k].IsNodeCmd() ==> AlphaAfter(frame[..k]) == 1.0)
  {
    var head := [Clear] + layer;
    var frame := head + nodeLayer;
    if k == 0 {
      assert frame[k] == Clear;
    } else if k <= |layer| {
      assert frame[k] == layer[k - 1];
      assert frame[..k] == [Clear] + layer[..k - 1];
      if layer[k - 1].Line? {
        EdgeLinesDimmed([Clear], layer, k - 1);
      }
    } else {
      EdgeLayerRestoresAlpha(layer);
      var part := nodeLayer[..k - 1 - |layer|];
      assert frame[k] == nodeLayer[k - 1 - |layer|];
      assert frame[..k] == head + part;
      forall j | 0 <= j < |part| ensures !part[j].SetAlpha? {
        assert part[j] == nodeLayer[j];
      }
      AlphaUnchangedBy(head, part);
    }
  }

  /** Every edge line is stroked at 60% opacity and every node element at full opacity. */
  lemma FrameOpacity(nodes: seq<Node>, edges: seq<Edge>, view: View)
    requires view.trig.Valid() && AllInside(nodes)
    ensures var frame := Frame(nodes, edges, view);
            forall k :: 0 <= k < |frame| ==>
              && (frame[k].Line? ==> AlphaAfter(frame[..k]) == EdgeAlpha)
              && (frame[k].IsNodeCmd() ==> AlphaAfter(frame[..k]) == 1.0)
  {
    var pos := Projected(nodes, view);
    var layer := EdgeLayer(nodes, pos, edges);
    var nodeLayer := NodeLayer(nodes, pos);
    var frame := Frame(nodes, edges, view);
    EdgeLayerShape(nodes, pos, edges);
    assert frame == [Clear] + layer + nodeLayer;
    forall k | 0 <= k < |frame|
      ensures frame[k].Line? ==> AlphaAfter(frame[..k]) == EdgeAlpha
      ensures frame[k].IsNodeCmd() ==> AlphaAfter(frame[..k]) == 1.0
    {
      LayeredOpacity(layer, nodeLayer, k);
    }
  }
}
