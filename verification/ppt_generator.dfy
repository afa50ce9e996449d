/** The presentation generator: five generation steps driven one after another from
    pending through processing to completed, each with its own 0..100 progress, an overall
    progress published after every inner step, and the fixed sample slides at the end. */
module PptGenerator {
  import opened Common
  import opened JsText

  datatype StepStatus = Pending | Processing | Completed | Error

  datatype Step = Step(id: string, name: string, status: StepStatus, progress: int)

  datatype SlideKind = TitleSlide | ContentSlide | ChartSlide | SummarySlide
  datatype SlideData = SlideData(trend: string, value: string)
  datatype Slide = Slide(id: string, kind: SlideKind, title: string, content: string,
                         chartType: Option<string>, data: Option<SlideData>)

  const InitialSteps: seq<Step> := [
    Step("analyze", "内容分析", Pending, 0),
    Step("structure", "结构规划", Pending, 0),
    Step("generate", "幻灯片生成", Pending, 0),
    Step("optimize", "AI优化", Pending, 0),
    Step("finalize", "完成生成", Pending, 0)]

  const SampleSlides: seq<Slide> := [
    Slide("1", TitleSlide, "数据分析报告", "基于YYC³ EasyVizAI智能分析生成", None, None),
    Slide("2", ContentSlide, "核心发现",
          "• 用户活跃度提升15%\n• 数据处理效率优化23%\n• AI推荐准确率达到92%", None, None),
    Slide("3", ChartSlide, "趋势分析", "过去30天数据变化趋势", Some("line"),
          Some(SlideData("up", "15%"))),
    Slide("4", SummarySlide, "总结与建议", "基于数据分析结果，建议继续优化用户体验和AI算法性能",
          None, None)]

  /** The overall progress published at inner tick t of step i, `(i * 100 + 10t) / n`. */
  function Overall(i: nat, t: nat, n: nat): (r: real)
    requires n > 0
    ensures r >= 0.0
  {
    ((i * 100 + t * 10) as real) / (n as real)
  }

  /** Every overall progress value published by one run with n steps, in order: each step
      publishes 11 values, for its own progress 0, 10, ..., 100. */
  function Schedule(n: nat): (r: seq<real>)
    requires n > 0
    ensures |r| == 11 * n
  {
    seq(11 * n, k requires 0 <= k < 11 * n => Overall(k / 11, k % 11, n))
  }

  lemma ScheduleAt(n: nat, i: nat, t: nat)
    requires n > 0 && i < n && t < 11
    ensures i * 11 + t < 11 * n
    ensures Schedule(n)[i * 11 + t] == Overall(i, t, n)
  {
    var k := i * 11 + t;
    assert k / 11 == i && k % 11 == t;
  }

  lemma DivideMonotone(a: int, b: int, n: nat)
    requires a <= b && n > 0
    ensures (a as real) / (n as real) <= (b as real) / (n as real)
  {
  }

  /** The numerator of the value published at position k grows with k. */
  lemma NumeratorNondecreasing(k: nat, k': nat)
    requires k <= k'
    ensures (k / 11) * 100 + (k % 11) * 10 <= (k' / 11) * 100 + (k' % 11) * 10
  {
    var i, t, i', t' := k / 11, k % 11, k' / 11, k' % 11;
    assert k == i * 11 + t && k' == i' * 11 + t';
    if i < i' {
      assert i * 100 + 100 <= i' * 100;
    } else {
      assert i == i';
    }
  }

  /** The published overall progress never decreases. */
  lemma ScheduleNondecreasing(n: nat, k: nat, k': nat)
    requires n > 0 && k <= k' < 11 * n
    ensures Schedule(n)[k] <= Schedule(n)[k']
  {
    NumeratorNondecreasing(k, k');
    DivideMonotone((k / 11) * 100 + (k % 11) * 10, (k' / 11) * 100 + (k' % 11) * 10, n);
  }

  /** The last published value is exactly 100. */
  lemma ScheduleEndsAtHundred(n: nat)
    requires n > 0
    ensures Schedule(n)[11 * n - 1] == 100.0
  {
    ScheduleAt(n, n - 1, 10);
    assert (n - 1) * 100 + 10 * 10 == n * 100;
    AllStepsDone(n);
  }

  /** Once all n steps are done the overall progress is 100. */
  lemma AllStepsDone(n: nat)
    requires n > 0
    ensures Overall(n, 0, n) == 100.0
  {
    var x := n as real;
    assert (n * 100 + 0 * 10) as real == 100.0 * x;
    assert 100.0 * x / x == 100.0;
  }

  /** The step list of a run that started from `before`, once its first m steps are done. */
  function CompletedUpTo(before: seq<Step>, m: nat): (r: seq<Step>)
    ensures |r| == |before|
  {
    seq(|before|, j requires 0 <= j < |before| =>
      if j < m then before[j].(status := Completed, progress := 100) else before[j])
  }

  /** A snapshot of the step list published while step i runs, compared with the list the run
      started from: earlier steps are completed, step i is processing or completed with the
      same id and name, later steps are as they were. */
  ghost predicate RunningAt(before: seq<Step>, snap: seq<Step>, i: nat) {
    && i < |before| == |snap|
    && snap == CompletedUpTo(before, i)[i := snap[i]]
    && snap[i].id == before[i].id && snap[i].name == before[i].name
    && (snap[i].status == Processing || snap[i].status == Completed)
    && 0 <= snap[i].progress <= 100
  }

  /** The step list with the first i steps completed and step i shown as `status` at
      `progress`. */
  function Running(before: seq<Step>, i: nat, status: StepStatus, progress: int): (r: seq<Step>)
    requires i < |before|
    ensures |r| == |before|
  {
    CompletedUpTo(before, i)[i := before[i].(status := status, progress := progress)]
  }

  /** Every step list one pass of the outer loop publishes, in order: step i switched to
      processing with its old progress, then at progress 0, 10, ..., 100, then completed. */
  function StepSnapshots(before: seq<Step>, i: nat): (r: seq<(nat, seq<Step>)>)
    requires i < |before| && 0 <= before[i].progress <= 100
    ensures |r| == 13
    ensures forall k :: 0 <= k < 13 ==> r[k].0 == i && RunningAt(before, r[k].1, i)
    ensures |r[0].1| == |before| && r[0].1[i].status == Processing
    ensures r[12].1 == CompletedUpTo(before, i + 1)
  {
    var r := [(i, Running(before, i, Processing, before[i].progress))]
      + seq(11, t requires 0 <= t < 11 => (i, Running(before, i, Processing, 10 * t)))
      + [(i, CompletedUpTo(before, i + 1))];
    assert CompletedUpTo(before, i + 1) == Running(before, i, Completed, 100);
    r
  }

  /** The step lists published by the first m passes of the outer loop, in order. */
  function RunSnapshots(before: seq<Step>, m: nat): (r: seq<(nat, seq<Step>)>)
    requires m <= |before|
    requires forall j :: 0 <= j < |before| ==> 0 <= before[j].progress <= 100
    ensures |r| == 13 * m
  {
    if m == 0 then [] else RunSnapshots(before, m - 1) + StepSnapshots(before, m - 1)
  }

  /** Every published list shows the step then running, and the running step never goes back. */
  lemma {:induction false} RunSnapshotsRunning(before: seq<Step>, m: nat)
    requires m <= |before|
    requires forall j :: 0 <= j < |before| ==> 0 <= before[j].progress <= 100
    ensures forall k :: 0 <= k < |RunSnapshots(before, m)| ==>
              RunSnapshots(before, m)[k].0 < m && RunningAt(before, RunSnapshots(before, m)[k].1, RunSnapshots(before, m)[k].0)
    ensures forall k, k' :: 0 <= k < k' < |RunSnapshots(before, m)| ==>
              RunSnapshots(before, m)[k].0 <= RunSnapshots(before, m)[k'].0
  {
    if m > 0 {
      RunSnapshotsRunning(before, m - 1);
      var a: seq<(nat, seq<Step>)> := RunSnapshots(before, m - 1);
      var b: seq<(nat, seq<Step>)> := StepSnapshots(before, m - 1);
      var r: seq<(nat, seq<Step>)> := a + b;
      assert RunSnapshots(before, m) == r;
      forall k | 0 <= k < |r|
        ensures r[k].0 < m && RunningAt(before, r[k].1, r[k].0)
      {
        if k < |a| { assert r[k] == a[k]; } else { assert r[k] == b[k - |a|]; }
      }
      forall k, k' | 0 <= k < k' < |r|
        ensures r[k].0 <= r[k'].0
      {
        if k' < |a| {
          assert r[k] == a[k] && r[k'] == a[k'];
        } else if k < |a| {
          assert r[k] == a[k] && r[k'] == b[k' - |a|];
        } else {
          assert r[k] == b[k - |a|] && r[k'] == b[k' - |a|];
        }
      }
    }
  }

  ghost predicate NoError(steps: seq<Step>) {
    forall j :: 0 <= j < |steps| ==> steps[j].status != Error
  }

  /** No snapshot of a run shows the error status unless the run started with one. */
  lemma RunNeverErrs(before: seq<Step>, snap: seq<Step>, i: nat)
    requires NoError(before) && RunningAt(before, snap, i)
    ensures NoError(snap)
  {
    forall j | 0 <= j < |snap| ensures snap[j].status != Error {
      if j != i {
        assert snap[j] == CompletedUpTo(before, i)[j];
      }
    }
  }

  /** After a complete run every step is completed at 100, with its id and name kept. */
  lemma RunFinishes(before: seq<Step>)
    ensures forall j :: 0 <= j < |before| ==>
              && CompletedUpTo(before, |before|)[j].status == Completed
              && CompletedUpTo(before, |before|)[j].progress == 100
              && CompletedUpTo(before, |before|)[j].id == before[j].id
              && CompletedUpTo(before, |before|)[j].name == before[j].name
  {
  }

  /** A step list between runs: the five steps in their fixed order, none of them running. */
  ghost predicate AtRest(steps: seq<Step>) {
    && |steps| == |InitialSteps|
    && forall j :: 0 <= j < |steps| ==>
         && steps[j].id == InitialSteps[j].id && steps[j].name == InitialSteps[j].name
         && (steps[j].status == Pending || steps[j].status == Completed)
         && 0 <= steps[j].progress <= 100
  }

  /** A complete run leaves the step list at rest again. */
  lemma RunEndsAtRest(before: seq<Step>)
    requires AtRest(before)
    ensures AtRest(CompletedUpTo(before, |before|))
  {
  }

  /** What one complete run from the step list `before` does: `after` is the final step list,
      `published` the overall progress values it published in order, `snapshots` the step lists
      it published, each with the index of the step then running. */
  ghost predicate CompleteRun(before: seq<Step>, after: seq<Step>, published: seq<real>,
                              snapshots: seq<(nat, seq<Step>)>)
  {
    && |before| > 0
    && after == CompletedUpTo(before, |before|)
    && published == Schedule(|before|)
    && (forall j :: 0 <= j < |before| ==> 0 <= before[j].progress <= 100)
    && snapshots == RunSnapshots(before, |before|)
    && (forall k :: 0 <= k < |snapshots| ==> RunningAt(before, snapshots[k].1, snapshots[k].0))
    && (forall k, k' :: 0 <= k < k' < |snapshots| ==> snapshots[k].0 <= snapshots[k'].0)
  }

  /** The guard of `handleGenerate` and of the button: both text fields are non-blank. */
  predicate CanGenerate(analysisText: string, title: string) {
    !IsBlank(analysisText) && !IsBlank(title)
  }

  class PptGenerator {
    var isGenerating: bool
    var generationProgress: real
    var slides: seq<Slide>
    var analysisText: string
    var presentationTitle: string
    /** The step objects; `handleGenerate` changes them in place. */
    const steps: array<Step>

    ghost predicate Valid()
      reads this, steps
    {
      AtRest(steps[..])
    }

    constructor ()
      ensures Valid() && fresh(steps)
      ensures steps[..] == InitialSteps
      ensures !isGenerating && generationProgress == 0.0 && slides == []
      ensures analysisText == [] && presentationTitle == []
    {
      isGenerating := false;
      generationProgress := 0.0;
      slides := [];
      analysisText := [];
      presentationTitle := [];
      steps := new Step[|InitialSteps|](j requires 0 <= j < |InitialSteps| => InitialSteps[j]);
    }

    method EditInputs(text: string, title: string)
      modifies this`analysisText, this`presentationTitle
      ensures analysisText == text && presentationTitle == title
    {
      analysisText := text;
      presentationTitle := title;
    }

    /** The generate button is enabled while idle with both fields filled in. */
    function ButtonEnabled(): (r: bool)
      reads this
      ensures r <==> !isGenerating && !IsBlank(analysisText) && !IsBlank(presentationTitle)
    {
      !isGenerating && CanGenerate(analysisText, presentationTitle)
    }

    /** One pass of the outer loop of `handleGenerate`: step i goes to processing, its progress
        runs 0, 10, ..., 100 with the overall progress published each time, then it completes. */
    method RunStep(i: nat, ghost before: seq<Step>)
        returns (ghost published: seq<real>, ghost snapshots: seq<(nat, seq<Step>)>)
      requires i < steps.Length == |before| && 0 <= before[i].progress <= 100
      requires steps[..] == CompletedUpTo(before, i)
      modifies steps, this`generationProgress
      ensures steps[..] == CompletedUpTo(before, i + 1)
      ensures published == Schedule(steps.Length)[i * 11..i * 11 + 11]
      ensures snapshots == StepSnapshots(before, i)
      ensures generationProgress == Overall(i, 10, steps.Length)
    {
      var n := steps.Length;
      ghost var entry := steps[..];
      ghost var expected := StepSnapshots(before, i);
      steps[i] := steps[i].(status := Processing);
      assert steps[..] == Running(before, i, Processing, before[i].progress);
      published, snapshots := [], [(i, steps[..])];
      var progress := 0;
      ghost var t := 0;
      while progress <= 100
        invariant 0 <= t <= 11 && progress == 10 * t
        invariant steps[..] == entry[i := steps[i]]
        invariant steps[i] == before[i].(status := Processing, progress := steps[i].progress)
        invariant t > 0 ==> steps[i].progress == progress - 10
        invariant published == Schedule(n)[i * 11..i * 11 + t]
        invariant snapshots == expected[..t + 1]
        invariant t > 0 ==> generationProgress == Overall(i, t - 1, n)
      {
        steps[i] := steps[i].(progress := progress);
        assert steps[..] == Running(before, i, Processing, 10 * t);
        generationProgress := ((i * 100 + progress) as real) / (n as real);
        ScheduleAt(n, i, t);
        assert Schedule(n)[i * 11..i * 11 + t + 1] == Schedule(n)[i * 11..i * 11 + t] + [generationProgress];
        published := published + [generationProgress];
        assert expected[t + 1] == (i, steps[..]);
        assert expected[..t + 2] == expected[..t + 1] + [expected[t + 1]];
        snapshots := snapshots + [(i, steps[..])];
        progress := progress + 10;
        t := t + 1;
      }
      steps[i] := steps[i].(status := Completed);
      assert steps[..] == CompletedUpTo(before, i + 1);
      assert expected == expected[..12] + [expected[12]];
      snapshots := snapshots + [(i, steps[..])];
    }

    /** The loop of `handleGenerate`: every step is run in order. */
    method RunAllSteps() returns (ghost progressLog: seq<real>, ghost stepLog: seq<(nat, seq<Step>)>)
      requires Valid()
      modifies this`generationProgress, steps
      ensures CompleteRun(old(steps[..]), steps[..], progressLog, stepLog)
      ensures generationProgress == 100.0
    {
      ghost var before := steps[..];
      var n := steps.Length;
      progressLog, stepLog := [], [];
      assert steps[..] == CompletedUpTo(before, 0);
      var i := 0;
      while i < n
        invariant 0 <= i <= n
        invariant steps[..] == CompletedUpTo(before, i)
        invariant progressLog == Schedule(n)[..i * 11]
        invariant stepLog == RunSnapshots(before, i)
        invariant i > 0 ==> generationProgress == Overall(i, 0, n)
      {
        var published, snapshots := RunStep(i, before);
        assert Schedule(n)[..i * 11] + Schedule(n)[i * 11..i * 11 + 11] == Schedule(n)[..(i + 1) * 11];
        progressLog := progressLog + published;
        stepLog := stepLog + snapshots;
        assert i * 100 + 10 * 10 == (i + 1) * 100 + 0 * 10;
        i := i + 1;
      }
      assert Schedule(n)[..n * 11] == Schedule(n);
      AllStepsDone(n);
      RunSnapshotsRunning(before, n);
    }

    /** `handleGenerate` past its guard: start, run every step, finish. `progressLog` lists
        every value passed to `setGenerationProgress` and `stepLog` every published step list,
        paired with the index of the step running at that moment. */
    method Run() returns (ghost progressLog: seq<real>, ghost stepLog: seq<(nat, seq<Step>)>)
      requires Valid()
      modifies this`isGenerating, this`generationProgress, this`slides, steps
      ensures Valid()
      ensures generationProgress == 100.0 && slides == SampleSlides && !isGenerating
      ensures |progressLog| > 0 && progressLog[0] == 0.0
      ensures CompleteRun(old(steps[..]), steps[..], progressLog[1..], stepLog)
    {
      ghost var before := steps[..];
      Start();
      assert steps[..] == before;
      progressLog, stepLog := RunAllSteps();
      progressLog := [0.0] + progressLog;
      Finish();
      RunEndsAtRest(before);
    }

    /** `handleGenerate`, with its delays taken as sequential steps; with a blank field it does
        nothing. */
    method Generate() returns (ghost progressLog: seq<real>, ghost stepLog: seq<(nat, seq<Step>)>)
      requires Valid()
      modifies this`isGenerating, this`generationProgress, this`slides, steps
      ensures Valid()
      ensures if !CanGenerate(analysisText, presentationTitle) then
                && steps[..] == old(steps[..]) && isGenerating == old(isGenerating)
                && generationProgress == old(generationProgress) && slides == old(slides)
                && progressLog == [] && stepLog == []
              else
                && generationProgress == 100.0
                && slides == SampleSlides
                && !isGenerating
                && |progressLog| > 0 && progressLog[0] == 0.0
                && CompleteRun(old(steps[..]), steps[..], progressLog[1..], stepLog)
    {
      if !CanGenerate(analysisText, presentationTitle) {
        return [], [];
      }
      progressLog, stepLog := Run();
    }

    /** The start of a run: busy, overall progress 0, no slides. */
    method Start()
      modifies this`isGenerating, this`generationProgress, this`slides
      ensures isGenerating && generationProgress == 0.0 && slides == []
    {
      isGenerating := true;
      generationProgress := 0.0;
      slides := [];
    }

    /** The end of a run: the sample slides are shown, whatever the input, and the busy flag drops. */
    method Finish()
      modifies this`isGenerating, this`slides
      ensures !isGenerating && slides == SampleSlides
    {
      slides := SampleSlides;
      isGenerating := false;
    }
  }
}
