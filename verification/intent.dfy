/** Intent recognition: a keyword classifier whose first matching rule wins, and the
    panel state around it (input, busy flag, suggestions, last recognised intent). */
module Intent {
  import opened Common
  import opened JsText

  datatype IntentType = Visualization | Analysis | Learning | Export

  datatype Parameters =
    | ChartParams(chartType: string, timeAxis: Option<bool>)
    | TopicParams(topic: string)
    | QueryParams(query: string)

  datatype Intent = Intent(kind: IntentType, confidence: real, suggestion: string,
                           action: string, parameters: Parameters)

  predicate IncludesAny(input: string, words: seq<string>) {
    exists k :: 0 <= k < |words| && Includes(input, words[k])
  }

  const TrendWords: seq<string> := ["趋势", "变化", "时间"]
  const ProportionWords: seq<string> := ["比例", "占比", "饼图"]
  const LearningWords: seq<string> := ["学习", "教程", "如何"]

  /** The keyword chain of `recognizeIntent`: trend, then proportion, then learning, else analysis.
      Each rule's intent is given in full under the condition that it is the first to match. */
  function Classify(input: string): (r: Intent)
    ensures r.kind != Export
    ensures r.kind == Visualization <==>
              IncludesAny(input, TrendWords) || IncludesAny(input, ProportionWords)
    ensures r.kind == Learning <==>
              !IncludesAny(input, TrendWords) && !IncludesAny(input, ProportionWords)
              && IncludesAny(input, LearningWords)
    ensures r.kind == Analysis <==>
              !IncludesAny(input, TrendWords) && !IncludesAny(input, ProportionWords)
              && !IncludesAny(input, LearningWords)
    ensures IncludesAny(input, TrendWords) ==>
              && r.confidence == 0.92 && r.action == "create_line_chart"
              && r.parameters == ChartParams("line", Some(true))
    ensures !IncludesAny(input, TrendWords) && IncludesAny(input, ProportionWords) ==>
              && r.confidence == 0.88 && r.action == "create_pie_chart"
              && r.parameters == ChartParams("pie", None)
    ensures r.kind == Learning ==>
              && r.confidence == 0.85 && r.action == "generate_learning_path"
              && r.parameters == TopicParams(input)
    ensures r.kind == Analysis ==>
              && r.confidence == 0.75 && r.action == "analyze_data"
              && r.parameters == QueryParams(input)
  {
    if IncludesAny(input, TrendWords) then
      Intent(Visualization, 0.92, "建议使用折线图展示数据趋势", "create_line_chart",
             ChartParams("line", Some(true)))
    else if IncludesAny(input, ProportionWords) then
      Intent(Visualization, 0.88, "建议使用饼图展示数据比例", "create_pie_chart",
             ChartParams("pie", None))
    else if IncludesAny(input, LearningWords) then
      Intent(Learning, 0.85, "为您推荐相关学习路径", "generate_learning_path", TopicParams(input))
    else
      Intent(Analysis, 0.75, "建议进行数据分析", "analyze_data", QueryParams(input))
  }

  /** Every confidence the classifier reports is one of four fixed values, all in (0, 1). */
  lemma ConfidenceValues(input: string)
    ensures Classify(input).confidence in {0.92, 0.88, 0.85, 0.75}
    ensures 0.0 < Classify(input).confidence < 1.0
  {
  }

  /** The first rule wins: text with any trend word is a line chart even if it also asks to
      learn or mentions a proportion. */
  lemma TrendBeatsLaterRules(input: string, k: nat)
    requires k < |TrendWords| && Includes(input, TrendWords[k])
    ensures Classify(input).kind == Visualization
    ensures Classify(input).action == "create_line_chart"
    ensures Classify(input).confidence == 0.92
    ensures Classify(input).parameters == ChartParams("line", Some(true))
  {
  }

  /** Without a trend word, any proportion word gives a pie chart, even when a learning word
      is present too. */
  lemma ProportionBeatsLearning(input: string, k: nat)
    requires !IncludesAny(input, TrendWords)
    requires k < |ProportionWords| && Includes(input, ProportionWords[k])
    ensures Classify(input).kind == Visualization
    ensures Classify(input).action == "create_pie_chart"
    ensures Classify(input).confidence == 0.88
    ensures Classify(input).parameters == ChartParams("pie", None)
  {
  }

  datatype Prompt = Prompt(text: string, kind: IntentType)

  /** The quick prompts, each with the type the panel advertises for it. */
  const CommonPrompts: seq<Prompt> := [
    Prompt("显示销售趋势", Visualization),
    Prompt("分析用户行为", Analysis),
    Prompt("创建饼图", Visualization),
    Prompt("学习数据可视化", Learning)]

  lemma NoKeyword(input: string, words: seq<string>)
    requires forall k :: 0 <= k < |words| ==> words[k] != []
    requires forall i, k :: 0 <= i < |input| && 0 <= k < |words| ==> input[i] != words[k][0]
    ensures !IncludesAny(input, words)
  {
    forall k | 0 <= k < |words| ensures !Includes(input, words[k]) {
      FirstCharAbsent(input, words[k]);
    }
  }

  lemma SalesTrendPrompt()
    ensures Classify("显示销售趋势").kind == Visualization
  {
    var p := "显示销售趋势";
    assert p[4..6] == TrendWords[0];
    IncludesAt(p, TrendWords[0], 4);
  }

  lemma UserBehaviourPrompt()
    ensures Classify("分析用户行为").kind == Analysis
  {
    var p := "分析用户行为";
    NoKeyword(p, TrendWords);
    NoKeyword(p, ProportionWords);
    NoKeyword(p, LearningWords);
  }

  lemma PieChartPrompt()
    ensures Classify("创建饼图").kind == Visualization
  {
    var p := "创建饼图";
    assert p[2..4] == ProportionWords[2];
    IncludesAt(p, ProportionWords[2], 2);
  }

  lemma LearnPrompt()
    ensures Classify("学习数据可视化").kind == Learning
  {
    var p := "学习数据可视化";
    NoKeyword(p, TrendWords);
    NoKeyword(p, ProportionWords);
    assert p[0..2] == LearningWords[0];
    IncludesAt(p, LearningWords[0], 0);
  }

  /** Each quick prompt is classified as the type it is advertised with. */
  lemma PromptsClassifiedAsAdvertised()
    ensures forall k :: 0 <= k < |CommonPrompts| ==>
              Classify(CommonPrompts[k].text).kind == CommonPrompts[k].kind
  {
    forall k | 0 <= k < |CommonPrompts|
      ensures Classify(CommonPrompts[k].text).kind == CommonPrompts[k].kind
    {
      PromptClassified(k);
    }
  }

  lemma PromptClassified(k: nat)
    requires k < |CommonPrompts|
    ensures Classify(CommonPrompts[k].text).kind == CommonPrompts[k].kind
  {
    if k == 0 {
      SalesTrendPrompt();
    } else if k == 1 {
      UserBehaviourPrompt();
    } else if k == 2 {
      PieChartPrompt();
    } else {
      LearnPrompt();
    }
  }

  class IntentPanel {
    var userInput: string
    var recognizedIntent: Option<Intent>
    var isProcessing: bool
    var showSuggestions: bool

    constructor ()
      ensures userInput == [] && recognizedIntent == None && !isProcessing && !showSuggestions
    {
      userInput := [];
      recognizedIntent := None;
      isProcessing := false;
      showSuggestions := false;
    }

    method Type(text: string)
      modifies this`userInput
      ensures userInput == text
    {
      userInput := text;
    }

    /** `recognizeIntent` up to its `await`: busy, suggestions hidden. */
    method BeginRecognition()
      modifies this`isProcessing, this`showSuggestions
      ensures isProcessing && !showSuggestions
    {
      isProcessing := true;
      showSuggestions := false;
    }

    /** `recognizeIntent(input)` after its `await`: the intent is stored, then the busy flag drops. */
    method CompleteRecognition(input: string)
      modifies this`recognizedIntent, this`isProcessing
      ensures recognizedIntent == Some(Classify(input))
      ensures !isProcessing
    {
      recognizedIntent := Some(Classify(input));
      isProcessing := false;
    }

    /** The submit button is usable only with some input and while idle. */
    function SubmitEnabled(): (r: bool)
      reads this
      ensures r <==> userInput != [] && !isProcessing
    {
      !isProcessing && userInput != []
    }

    /** Enter in the input box (and the button's own handler): recognition starts whenever the
        input is non-empty, untrimmed and whether or not a recognition is already running. */
    method Submit() returns (started: bool)
      modifies this`isProcessing, this`showSuggestions
      ensures started <==> userInput != []
      ensures started ==> isProcessing && !showSuggestions
      ensures !started ==> isProcessing == old(isProcessing) && showSuggestions == old(showSuggestions)
    {
      started := userInput != [];
      if started {
        BeginRecognition();
      }
    }

    /** `handlePromptClick`: the prompt text becomes the input and is classified. */
    method PromptClick(prompt: Prompt)
      modifies this
      ensures userInput == prompt.text
      ensures recognizedIntent == Some(Classify(prompt.text))
      ensures !isProcessing && !showSuggestions
    {
      userInput := prompt.text;
      showSuggestions := false;
      BeginRecognition();
      CompleteRecognition(prompt.text);
    }

    method ToggleSuggestions()
      modifies this`showSuggestions
      ensures showSuggestions == !old(showSuggestions)
    {
      showSuggestions := !showSuggestions;
    }
  }
}
