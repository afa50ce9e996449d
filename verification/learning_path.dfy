/** The learning-path generator: a mock personalised path, its completion percentage and the
    status ladder each node of the path is drawn with. */
module LearningPath {
  import opened Common

  datatype Node = Node(id: string, title: string, description: string, difficulty: string,
                       estimatedTime: int, prerequisites: seq<string>, skills: seq<string>,
                       completed: bool, progress: int)

  datatype Path = Path(id: string, title: string, description: string, totalNodes: int,
                       completedNodes: int, estimatedDuration: int, nodes: seq<Node>)

  /** The only mock path: six nodes announced, two completed, three actually listed. */
  const MockPath: Path :=
    Path("data-viz-fundamentals", "数据可视化基础", "掌握数据可视化的核心概念和基本技能", 6, 2, 120,
         [Node("data-types", "数据类型识别", "学习识别不同类型的数据：数值型、分类型、时间序列",
               "beginner", 20, [], ["数据分析", "统计基础"], true, 100),
          Node("chart-selection", "图表类型选择", "根据数据特征选择最适合的图表类型",
               "beginner", 30, ["data-types"], ["可视化设计", "数据分析"], true, 100),
          Node("color-theory", "色彩理论应用", "掌握数据可视化中的色彩搭配和编码原则",
               "intermediate", 25, ["chart-selection"], ["设计理论", "视觉编码"], false, 60)])

  const InitialSkills: seq<string> := ["数据分析", "基础编程"]

  /** `Math.round(completedNodes / totalNodes * 100)`, from the stored counters, where
      `Math.round(x)` is the integer nearest to x with halves rounded up. With no nodes
      announced the division gives no number and nothing meaningful is shown. */
  function Percentage(path: Path): (r: Option<int>)
    ensures r.None? <==> path.totalNodes == 0
    ensures path.totalNodes > 0 ==>
              var t := path.totalNodes;
              2 * t * r.value <= 200 * path.completedNodes + t < 2 * t * r.value + 2 * t
    ensures path.totalNodes > 0 && 0 <= path.completedNodes <= path.totalNodes ==>
              0 <= r.value <= 100
  {
    var t := path.totalNodes;
    var c := path.completedNodes;
    if t == 0 then None
    else if t > 0 then
      var r := RoundHalfUp(100 * c, t);
      if 0 <= c <= t then RoundBounds(100 * c, t, r); Some(r) else Some(r)
    else Some(RoundHalfUp(-100 * c, -t))
  }

  /** Number of nodes marked completed. */
  function CompletedCount(nodes: seq<Node>): (n: nat)
    ensures n <= |nodes|
  {
    CountWhere(nodes, (node: Node) => node.completed)
  }

  /** The mock path shows 33%: the stored counters say 2 of 6, although two of its three
      listed nodes are completed. */
  lemma MockPercentage()
    ensures Percentage(MockPath) == Some(33)
    ensures |MockPath.nodes| == 3 && CompletedCount(MockPath.nodes) == 2
    ensures Percentage(MockPath.(totalNodes := |MockPath.nodes|)) == Some(67)
  {
    var nodes := MockPath.nodes;
    var done := (node: Node) => node.completed;
    assert nodes[..2][..1][..0] == [];
    assert CountWhere(nodes[..2][..1], done) == 1;
    assert CountWhere(nodes[..2], done) == 2;
  }

  /** How a node is drawn: completed first, then started, then not started. */
  datatype NodeState = Done | Started | NotStarted

  function StateOf(node: Node): (s: NodeState)
    ensures s == Done <==> node.completed
    ensures s == Started <==> !node.completed && node.progress > 0
    ensures s == NotStarted <==> !node.completed && node.progress <= 0
  {
    if node.completed then Done else if node.progress > 0 then Started else NotStarted
  }

  /** The card colours. */
  function CardClass(node: Node): (c: string)
    ensures c == "bg-green-50 border-green-200" <==> node.completed
    ensures c == "bg-blue-50 border-blue-200" <==> !node.completed && node.progress > 0
    ensures c == "bg-gray-50 border-gray-200" <==> !node.completed && node.progress <= 0
  {
    match StateOf(node)
    case Done => "bg-green-50 border-green-200"
    case Started => "bg-blue-50 border-blue-200"
    case NotStarted => "bg-gray-50 border-gray-200"
  }

  /** The round badge colour. */
  function CircleClass(node: Node): (c: string)
    ensures c == "bg-green-500" <==> node.completed
    ensures c == "bg-blue-500" <==> !node.completed && node.progress > 0
    ensures c == "bg-gray-400" <==> !node.completed && node.progress <= 0
  {
    match StateOf(node)
    case Done => "bg-green-500"
    case Started => "bg-blue-500"
    case NotStarted => "bg-gray-400"
  }

  /** The button label. */
  function ButtonLabel(node: Node): (l: string)
    ensures l == "已完成" <==> node.completed
    ensures l == "继续学习" <==> !node.completed && node.progress > 0
    ensures l == "开始学习" <==> !node.completed && node.progress <= 0
  {
    match StateOf(node)
    case Done => "已完成"
    case Started => "继续学习"
    case NotStarted => "开始学习"
  }

  /** The card, the badge and the label always tell the same story. */
  lemma LaddersAgree(node: Node)
    ensures StateOf(node) == Done <==> ButtonLabel(node) == "已完成"
    ensures ButtonLabel(node) == "已完成" <==> CircleClass(node) == "bg-green-500"
    ensures ButtonLabel(node) == "继续学习" <==> CardClass(node) == "bg-blue-50 border-blue-200"
    ensures ButtonLabel(node) == "开始学习" <==> CircleClass(node) == "bg-gray-400"
  {
  }

  /** The small progress bar: only strictly between 0 and 100, whatever the completed flag. */
  function ShowsProgressBar(node: Node): (b: bool)
    ensures b <==> 0 < node.progress < 100
  {
    node.progress > 0 && node.progress < 100
  }

  /** A node not marked completed at 100% reads "continue" and shows no bar; a completed node
      below 100% still shows its bar. */
  lemma FlagAndProgressIndependent(node: Node)
    ensures !node.completed && node.progress >= 100 ==>
              ButtonLabel(node) == "继续学习" && !ShowsProgressBar(node)
    ensures node.completed && 0 < node.progress < 100 ==>
              ButtonLabel(node) == "已完成" && ShowsProgressBar(node)
  {
  }

  /** Which nodes get a connector line below them. */
  function Connectors(count: nat): (r: seq<bool>)
    ensures |r| == count
    ensures forall i :: 0 <= i < count ==> (r[i] <==> i < count - 1)
  {
    seq(count, i => i < count - 1)
  }

  /** Every node but the last has a connector: count - 1 lines for a non-empty path. */
  lemma {:induction false} ConnectorCount(count: nat)
    ensures CountWhere(Connectors(count), (b: bool) => b) == if count == 0 then 0 else count - 1
  {
    if count > 0 {
      var c := Connectors(count);
      assert !c[count - 1];
      assert c[..count - 1] == seq(count - 1, i => true);
      AllTrueCount(count - 1);
    }
  }

  lemma {:induction false} AllTrueCount(n: nat)
    ensures CountWhere(seq(n, i => true), (b: bool) => b) == n
  {
    if n > 0 {
      assert seq(n, i => true)[..n - 1] == seq(n - 1, i => true);
      AllTrueCount(n - 1);
    }
  }

  class LearningPathGenerator {
    var selectedPath: Option<Path>
    var isGenerating: bool
    var userSkills: seq<string>

    constructor ()
      ensures selectedPath == None && !isGenerating && userSkills == InitialSkills
    {
      selectedPath := None;
      isGenerating := false;
      userSkills := InitialSkills;
    }

    /** The generate button is disabled while a path is being generated. */
    function ButtonEnabled(): (r: bool)
      reads this
      ensures r <==> !isGenerating
    {
      !isGenerating
    }

    /** `generatePersonalizedPath`, with its two-second wait taken as a step: busy during the
        wait, then the first mock path is selected and the generator is idle again. */
    method Generate() returns (ghost busyDuringWait: bool)
      modifies this`selectedPath, this`isGenerating
      ensures busyDuringWait
      ensures selectedPath == Some(MockPath) && !isGenerating
    {
      isGenerating := true;
      busyDuringWait := isGenerating;
      selectedPath := Some(MockPath);
      isGenerating := false;
    }

    /** The big percentage, present once a path is selected. */
    function ShownPercentage(): (r: Option<int>)
      reads this
      ensures selectedPath == Some(MockPath) ==> r == Some(33)
      ensures selectedPath.None? ==> r.None?
    {
      MockPercentage();
      if selectedPath.None? then None else Percentage(selectedPath.value)
    }
  }
}
