/** The chain-of-thought reasoning engine: four reasoning steps built from the query and
    driven to completion one by one, followed by a result text that quotes the query. */
module ReasoningEngine {
  import opened JsText

  datatype StepStatus = Pending | Processing | Completed

  datatype Step = Step(id: string, title: string, content: string, confidence: int,
                       status: StepStatus)

  /** The four steps `handleReasoning` builds; only the first one mentions the query. */
  function BuiltSteps(query: string): (r: seq<Step>)
    ensures |r| == 4
    ensures forall j :: 0 <= j < 4 ==> r[j].status == Pending
  {
    var first := "分析用户查询：\"" + query + "\"，识别关键信息和意图";
    [Step("1", "问题分析", first, 95, Pending),
     Step("2", "知识检索", "从知识图谱中检索相关概念和关系", 88, Pending),
     Step("3", "逻辑推理", "基于检索到的知识进行逻辑推理和关联分析", 92, Pending),
     Step("4", "方案生成", "生成可行的解决方案和建议", 89, Pending)]
  }

  /** The first step quotes the query. */
  lemma FirstStepQuotesQuery(query: string)
    ensures Includes(BuiltSteps(query)[0].content, query)
  {
    var first := BuiltSteps(query)[0].content;
    assert first[8..8 + |query|] == query;
    IncludesAt(first, query, 8);
  }

  /** `prev.map((step, index) => index === i ? { ...step, status } : step)`. */
  function SetStatus(prev: seq<Step>, i: nat, status: StepStatus): (r: seq<Step>)
    ensures |r| == |prev|
    ensures forall j :: 0 <= j < |r| && j != i ==> r[j] == prev[j]
    ensures i < |r| ==> r[i] == prev[i].(status := status)
  {
    seq(|prev|, j requires 0 <= j < |prev| => if j == i then prev[j].(status := status) else prev[j])
  }

  /** In the first iteration the list in state is still empty, so both updates do nothing. */
  lemma UpdatesOnEmptyListVanish(status: StepStatus)
    ensures SetStatus([], 0, status) == []
  {
  }

  /** The built steps with the first m completed. */
  function CompletedUpTo(steps: seq<Step>, m: nat): (r: seq<Step>)
    ensures |r| == |steps|
  {
    seq(|steps|, j requires 0 <= j < |steps| =>
      if j < m then steps[j].(status := Completed) else steps[j])
  }

  /** The list shown while step i is processing. */
  function ProcessingAt(steps: seq<Step>, i: nat): (r: seq<Step>)
    requires i < |steps|
    ensures |r| == |steps|
  {
    CompletedUpTo(steps, i)[i := steps[i].(status := Processing)]
  }

  /** A step list as published, with the iteration it was published in. */
  datatype Snapshot = Snapshot(iteration: nat, steps: seq<Step>)

  /** The lists `handleReasoning` can publish in iteration i: the empty list (first iteration
      only), step i processing (later iterations), or a completed prefix. */
  ghost predicate Publishable(steps: seq<Step>, snap: Snapshot) {
    var i := snap.iteration;
    || (i == 0 && snap.steps == [])
    || (1 <= i < |steps| && snap.steps == ProcessingAt(steps, i))
    || (i < |steps| && snap.steps == CompletedUpTo(steps, i + 1))
  }

  /** Every list iteration i of the loop publishes, in order. In the first iteration the two
      updates act on the emptied list, and then the built list is published with step 0
      completed; later iterations show step i processing, then completed. */
  function IterationSnapshots(steps: seq<Step>, i: nat): (r: seq<Snapshot>)
    requires i < |steps|
    ensures forall k :: 0 <= k < |r| ==> r[k].iteration == i && Publishable(steps, r[k])
    ensures r != [] && r[|r| - 1].steps == CompletedUpTo(steps, i + 1)
    ensures i > 0 ==> |r[0].steps| == |steps| && r[0].steps[i].status == Processing
  {
    if i == 0 then [Snapshot(0, []), Snapshot(0, []), Snapshot(0, CompletedUpTo(steps, 1))]
    else [Snapshot(i, ProcessingAt(steps, i)), Snapshot(i, CompletedUpTo(steps, i + 1))]
  }

  /** Every list the first m iterations publish, in order. */
  function RunLog(steps: seq<Step>, m: nat): (r: seq<Snapshot>)
    requires m <= |steps|
    ensures |r| == if m == 0 then 0 else 2 * m + 1
    ensures forall k :: 0 <= k < |r| ==> r[k].iteration < m && Publishable(steps, r[k])
  {
    if m == 0 then [] else RunLog(steps, m - 1) + IterationSnapshots(steps, m - 1)
  }

  /** The first m iterations publish their lists in iteration order. */
  lemma {:induction false} RunLogInOrder(steps: seq<Step>, m: nat)
    requires m <= |steps|
    ensures forall k, k' :: 0 <= k < k' < |RunLog(steps, m)| ==> RunLog(steps, m)[k].iteration <= RunLog(steps, m)[k'].iteration
  {
    if m > 0 {
      RunLogInOrder(steps, m - 1);
      var a: seq<Snapshot> := RunLog(steps, m - 1);
      var b: seq<Snapshot> := IterationSnapshots(steps, m - 1);
      assert RunLog(steps, m) == a + b;
      forall k, k' | 0 <= k < k' < |a + b|
        ensures (a + b)[k].iteration <= (a + b)[k'].iteration
      {
        if k' < |a| {
        } else if k < |a| {
          assert (a + b)[k] == a[k] && (a + b)[k'] == b[k' - |a|];
        } else {
          assert (a + b)[k] == b[k - |a|] && (a + b)[k'] == b[k' - |a|];
        }
      }
    }
  }

  /** Whatever is published keeps the built titles, contents and confidences, never shows the
      first step as processing, and shows at most one step processing. */
  lemma PublishedShape(steps: seq<Step>, snap: Snapshot)
    requires forall j :: 0 <= j < |steps| ==> steps[j].status == Pending
    requires Publishable(steps, snap)
    ensures snap.steps == [] || |snap.steps| == |steps|
    ensures forall j :: 0 <= j < |snap.steps| ==> snap.steps[j].(status := Pending) == steps[j].(status := Pending)
    ensures snap.steps != [] && |steps| > 0 ==> snap.steps[0].status != Processing
    ensures forall j, j' :: 0 <= j < j' < |snap.steps| ==>
              !(snap.steps[j].status == Processing && snap.steps[j'].status == Processing)
  {
    var s := snap.steps;
    var i := snap.iteration;
    forall j | 0 <= j < |s| && j != i
      ensures s[j] == CompletedUpTo(steps, i)[j] || s[j] == CompletedUpTo(steps, i + 1)[j]
    {
    }
  }

  /** `finalResult`: the fixed analysis text, quoting the query. */
  const ResultHead: string := "基于Chain-of-Thought推理，针对\""
  const ResultTail: string :=
    "\"的分析结果：\n\n1. 核心问题识别：数据可视化需求分析\n2. 推荐解决方案：\n"
    + "   - 使用柱状图展示分类数据对比\n   - 采用折线图显示时间序列趋势\n   - 结合散点图分析数据相关性\n"
    + "3. 实施建议：\n   - 数据预处理：清洗异常值，标准化格式\n"
    + "   - 图表配置：选择合适的颜色编码和交互方式\n   - 性能优化：大数据集采用分页或采样策略"

  function ResultText(query: string): (r: string)
    ensures |ResultHead| <= |r| && r[..|ResultHead|] == ResultHead
  {
    ResultHead + query + ResultTail
  }

  /** The result text quotes the query. */
  lemma ResultQuotesQuery(query: string)
    ensures Includes(ResultText(query), query)
  {
    var r := ResultText(query);
    assert r[|ResultHead|..|ResultHead| + |query|] == query;
    IncludesAt(r, query, |ResultHead|);
  }

  class ReasoningEngine {
    var query: string
    var isProcessing: bool
    var reasoningSteps: seq<Step>
    var finalResult: string

    constructor ()
      ensures query == [] && !isProcessing && reasoningSteps == [] && finalResult == []
    {
      query := [];
      isProcessing := false;
      reasoningSteps := [];
      finalResult := [];
    }

    method EditQuery(text: string)
      modifies this`query
      ensures query == text
    {
      query := text;
    }

    /** The start button: enabled while idle with a non-blank query. */
    function ButtonEnabled(): (r: bool)
      reads this
      ensures r <==> !isProcessing && !IsBlank(query)
    {
      !isProcessing && !IsBlank(query)
    }

    /** Iteration i of the loop in `handleReasoning`. */
    method Iterate(i: nat, steps: seq<Step>) returns (ghost published: seq<Snapshot>)
      requires i < |steps|
      requires i == 0 ==> reasoningSteps == []
      requires i > 0 ==> reasoningSteps == CompletedUpTo(steps, i)
      modifies this`reasoningSteps
      ensures reasoningSteps == CompletedUpTo(steps, i + 1)
      ensures published == IterationSnapshots(steps, i)
    {
      reasoningSteps := SetStatus(reasoningSteps, i, Processing);
      published := [Snapshot(i, reasoningSteps)];
      reasoningSteps := SetStatus(reasoningSteps, i, Completed);
      published := published + [Snapshot(i, reasoningSteps)];
      if i == 0 {
        reasoningSteps := SetStatus(steps, 0, Completed);
        published := published + [Snapshot(i, reasoningSteps)];
      }
      assert reasoningSteps == CompletedUpTo(steps, i + 1);
      assert i > 0 ==> published[0].steps == ProcessingAt(steps, i);
      assert i == 0 ==> published[0].steps == [] && published[1].steps == [];
    }

    /** The loop of `handleReasoning`, starting from the emptied list. */
    method RunSteps(steps: seq<Step>) returns (ghost published: seq<Snapshot>)
      requires reasoningSteps == []
      modifies this`reasoningSteps
      ensures reasoningSteps == CompletedUpTo(steps, |steps|)
      ensures published == RunLog(steps, |steps|)
      ensures forall k :: 0 <= k < |published| ==> Publishable(steps, published[k])
      ensures forall k, k' :: 0 <= k < k' < |published| ==> published[k].iteration <= published[k'].iteration
    {
      published := [];
      var i := 0;
      while i < |steps|
        invariant 0 <= i <= |steps|
        invariant i == 0 ==> reasoningSteps == []
        invariant i > 0 ==> reasoningSteps == CompletedUpTo(steps, i)
        invariant published == RunLog(steps, i)
      {
        var more := Iterate(i, steps);
        assert RunLog(steps, i + 1) == RunLog(steps, i) + more;
        published := published + more;
        i := i + 1;
      }
      if |steps| == 0 {
        assert reasoningSteps == CompletedUpTo(steps, 0);
      }
      RunLogInOrder(steps, |steps|);
    }

    /** `handleReasoning` past its guard: mark processing, clear the list and the result, run
        the steps, publish the result and stop processing. */
    method Run() returns (ghost published: seq<Snapshot>)
      modifies this`isProcessing, this`reasoningSteps, this`finalResult
      ensures query == old(query)
      ensures reasoningSteps == CompletedUpTo(BuiltSteps(query), 4)
      ensures finalResult == ResultText(query)
      ensures !isProcessing
      ensures published == RunLog(BuiltSteps(query), 4)
      ensures forall k :: 0 <= k < |published| ==> Publishable(BuiltSteps(query), published[k])
      ensures forall k, k' :: 0 <= k < k' < |published| ==> published[k].iteration <= published[k'].iteration
    {
      isProcessing := true;
      reasoningSteps := [];
      finalResult := [];
      var steps := BuiltSteps(query);
      published := RunSteps(steps);
      assert reasoningSteps == CompletedUpTo(steps, 4);
      finalResult := ResultText(query);
      isProcessing := false;
    }

    /** `handleReasoning`, with its delays taken as sequential steps. `published` lists every
        step list set during the run (after the initial clearing), in order. A blank query
        changes nothing. */
    method Reason() returns (ghost published: seq<Snapshot>)
      modifies this`isProcessing, this`reasoningSteps, this`finalResult
      ensures if IsBlank(query) then
                && isProcessing == old(isProcessing) && reasoningSteps == old(reasoningSteps)
                && finalResult == old(finalResult) && published == []
              else
                && reasoningSteps == CompletedUpTo(BuiltSteps(query), 4)
                && finalResult == ResultText(query)
                && !isProcessing
                && published == RunLog(BuiltSteps(query), 4)
                && (forall k :: 0 <= k < |published| ==> Publishable(BuiltSteps(query), published[k]))
                && (forall k, k' :: 0 <= k < k' < |published| ==> published[k].iteration <= published[k'].iteration)
    {
      if IsBlank(query) {
        return [];
      }
      published := Run();
    }
  }

  /** After a run every step is completed and keeps what was built for it. */
  lemma RunCompletesEveryStep(query: string)
    ensures forall j :: 0 <= j < 4 ==>
              CompletedUpTo(BuiltSteps(query), 4)[j] == BuiltSteps(query)[j].(status := Completed)
  {
  }
}
