/** The multimodal report generator: five report sections (text, chart, image, audio, video)
    generated one after another, each going pending -> generating (50) -> completed (100),
    with the overall progress published at every half step. */
module ReportGenerator {
  import opened JsText

  datatype SectionKind = Text | Chart | Image | Audio | Video
  datatype SectionStatus = Pending | Generating | Completed

  datatype Section = Section(id: string, kind: SectionKind, title: string, content: string,
                             status: SectionStatus, progress: int)

  /** The sections a run starts from, all pending with no content. */
  const NewSections: seq<Section> := [
    Section("1", Text, "执行摘要", "", Pending, 0),
    Section("2", Chart, "数据分析", "", Pending, 0),
    Section("3", Image, "可视化图表", "", Pending, 0),
    Section("4", Audio, "语音解说", "", Pending, 0),
    Section("5", Video, "演示视频", "", Pending, 0)]

  /** A section while it is being generated. */
  function Working(s: Section): Section {
    s.(status := Generating, progress := 50)
  }

  /** A finished section: its content names the section's own title. */
  function Done(s: Section): Section {
    s.(status := Completed, progress := 100, content := s.title + "内容已生成完成")
  }

  /** The first `setSections` update of iteration i: only section i changes, to generating. */
  function MarkGenerating(sections: seq<Section>, i: nat): (r: seq<Section>)
    ensures |r| == |sections|
    ensures forall j :: 0 <= j < |r| && j != i ==> r[j] == sections[j]
    ensures i < |r| ==> r[i] == Working(sections[i])
  {
    seq(|sections|, j requires 0 <= j < |sections| =>
      if j == i then Working(sections[j]) else sections[j])
  }

  /** The second update of iteration i: only section i changes, to completed. */
  function MarkCompleted(sections: seq<Section>, i: nat): (r: seq<Section>)
    ensures |r| == |sections|
    ensures forall j :: 0 <= j < |r| && j != i ==> r[j] == sections[j]
    ensures i < |r| ==> r[i] == Done(sections[i])
  {
    seq(|sections|, j requires 0 <= j < |sections| =>
      if j == i then Done(sections[j]) else sections[j])
  }

  /** The section list once the first m sections of `init` are finished. */
  function FinishedUpTo(init: seq<Section>, m: nat): (r: seq<Section>)
    ensures |r| == |init|
  {
    seq(|init|, j requires 0 <= j < |init| => if j < m then Done(init[j]) else init[j])
  }

  /** The two updates of iteration i take "i sections done" to "i + 1 sections done",
      passing through "section i generating". */
  lemma IterationSteps(init: seq<Section>, i: nat)
    requires i < |init|
    ensures MarkGenerating(FinishedUpTo(init, i), i) == FinishedUpTo(init, i)[i := Working(init[i])]
    ensures MarkCompleted(FinishedUpTo(init, i)[i := Working(init[i])], i) == FinishedUpTo(init, i + 1)
  {
    var a := MarkGenerating(FinishedUpTo(init, i), i);
    assert a == FinishedUpTo(init, i)[i := Working(init[i])];
    var b := MarkCompleted(a, i);
    assert forall j :: 0 <= j < |b| ==> b[j] == FinishedUpTo(init, i + 1)[j];
  }

  /** A section list as published, with the index of the section current at that moment. */
  datatype Snapshot = Snapshot(current: nat, sections: seq<Section>)

  /** A section list published while section i is the current one. */
  ghost predicate InPhase(init: seq<Section>, snap: seq<Section>, i: nat) {
    && i <= |init|
    && (snap == FinishedUpTo(init, i)
        || (i < |init| && snap == FinishedUpTo(init, i)[i := Working(init[i])]))
  }

  /** In every published list at most one section is generating; those before the current one
      are completed and those after it are still pending. */
  lemma PhaseShape(init: seq<Section>, snap: seq<Section>, i: nat)
    requires forall j :: 0 <= j < |init| ==> init[j].status == Pending
    requires InPhase(init, snap, i)
    ensures |snap| == |init|
    ensures forall j :: 0 <= j < |snap| && snap[j].status == Generating ==> j == i
    ensures forall j :: 0 <= j < |snap| && j < i ==> snap[j].status == Completed
    ensures forall j :: 0 <= j < |snap| && j > i ==> snap[j] == init[j] && snap[j].status == Pending
  {
    forall j | 0 <= j < |snap| && j != i
      ensures snap[j] == FinishedUpTo(init, i)[j]
    {
    }
  }

  /** The two lists iteration i sets: section i generating, then the first i + 1 finished. */
  function PhaseSnapshots(init: seq<Section>, i: nat): (r: seq<Snapshot>)
    requires i < |init|
    ensures |r| == 2 && r[0].current == i && r[1].current == i + 1
    ensures r[0].sections == MarkGenerating(FinishedUpTo(init, i), i)
    ensures r[1].sections == MarkCompleted(r[0].sections, i)
  {
    IterationSteps(init, i);
    [Snapshot(i, FinishedUpTo(init, i)[i := Working(init[i])]), Snapshot(i + 1, FinishedUpTo(init, i + 1))]
  }

  /** Every section list set during the first m iterations of a run from `init`, in order: the
      initial list, then the two lists of each iteration. */
  function SectionLog(init: seq<Section>, m: nat): (r: seq<Snapshot>)
    requires m <= |init|
    ensures |r| == 2 * m + 1
    ensures r[0] == Snapshot(0, init)
    ensures m > 0 ==> r[|r| - 1] == Snapshot(m, FinishedUpTo(init, m))
  {
    if m == 0 then [Snapshot(0, init)] else SectionLog(init, m - 1) + PhaseSnapshots(init, m - 1)
  }

  /** One more iteration appends its two lists to the log. */
  lemma SectionLogStep(init: seq<Section>, i: nat)
    requires i < |init|
    ensures SectionLog(init, i + 1) == SectionLog(init, i) + PhaseSnapshots(init, i)
  {
  }

  /** Both lists of iteration i belong to the phase they are tagged with. */
  lemma PhaseSnapshotsInPhase(init: seq<Section>, i: nat)
    requires i < |init|
    ensures forall k :: 0 <= k < 2 ==>
              && PhaseSnapshots(init, i)[k].current <= i + 1
              && InPhase(init, PhaseSnapshots(init, i)[k].sections, PhaseSnapshots(init, i)[k].current)
  {
    var b := PhaseSnapshots(init, i);
    assert b[0] == Snapshot(i, FinishedUpTo(init, i)[i := Working(init[i])]);
    assert b[1] == Snapshot(i + 1, FinishedUpTo(init, i + 1));
  }

  /** Every list of the log belongs to the phase it is tagged with, and no tag passes m... */
  lemma {:induction false} SectionLogInPhase(init: seq<Section>, m: nat)
    requires m <= |init|
    ensures forall k :: 0 <= k < |SectionLog(init, m)| ==>
              && SectionLog(init, m)[k].current <= m
              && InPhase(init, SectionLog(init, m)[k].sections, SectionLog(init, m)[k].current)
  {
    if m == 0 {
      assert FinishedUpTo(init, 0) == init;
    } else {
      SectionLogInPhase(init, m - 1);
      PhaseSnapshotsInPhase(init, m - 1);
      InPhaseConcat(init, SectionLog(init, m - 1), PhaseSnapshots(init, m - 1), m);
    }
  }

  lemma InPhaseConcat(init: seq<Section>, a: seq<Snapshot>, b: seq<Snapshot>, m: nat)
    requires forall k :: 0 <= k < |a| ==> a[k].current <= m && InPhase(init, a[k].sections, a[k].current)
    requires forall k :: 0 <= k < |b| ==> b[k].current <= m && InPhase(init, b[k].sections, b[k].current)
    ensures forall k :: 0 <= k < |a + b| ==>
              (a + b)[k].current <= m && InPhase(init, (a + b)[k].sections, (a + b)[k].current)
  {
    forall k | 0 <= k < |a + b|
      ensures (a + b)[k].current <= m && InPhase(init, (a + b)[k].sections, (a + b)[k].current)
    {
      if k < |a| {
        assert (a + b)[k] == a[k];
      } else {
        assert (a + b)[k] == b[k - |a|];
      }
    }
  }

  /** ...and the tags never go back: the sections are worked on one at a time, in order. */
  lemma {:induction false} SectionLogInOrder(init: seq<Section>, m: nat)
    requires m <= |init|
    ensures forall k, k' :: 0 <= k < k' < |SectionLog(init, m)| ==>
              SectionLog(init, m)[k].current <= SectionLog(init, m)[k'].current
  {
    if m > 0 {
      SectionLogInOrder(init, m - 1);
      SectionLogInPhase(init, m - 1);
      var a: seq<Snapshot> := SectionLog(init, m - 1);
      var b: seq<Snapshot> := PhaseSnapshots(init, m - 1);
      assert SectionLog(init, m) == a + b;
      forall k, k' | 0 <= k < k' < |a + b|
        ensures (a + b)[k].current <= (a + b)[k'].current
      {
        if k' < |a| {
          assert (a + b)[k] == a[k] && (a + b)[k'] == a[k'];
        } else if k < |a| {
          assert (a + b)[k] == a[k] && (a + b)[k'] == b[k' - |a|];
        } else {
          assert (a + b)[k] == b[k - |a|] && (a + b)[k'] == b[k' - |a|];
        }
      }
    }
  }

  /** `sections.length > 0 && sections.every(s => s.status === "completed")`. */
  predicate PreviewReady(sections: seq<Section>)
    ensures PreviewReady(sections) ==> sections != []
    ensures PreviewReady(sections) ==>
              forall j :: 0 <= j < |sections| ==> sections[j].status != Pending && sections[j].status != Generating
  {
    |sections| > 0 && forall j :: 0 <= j < |sections| ==> sections[j].status == Completed
  }

  /** The preview is ready after a full run, and at no earlier published moment. */
  lemma PreviewOnlyAtTheEnd(init: seq<Section>, snap: seq<Section>, i: nat)
    requires |init| > 0 && forall j :: 0 <= j < |init| ==> init[j].status == Pending
    requires InPhase(init, snap, i)
    ensures PreviewReady(snap) <==> i == |init| && snap == FinishedUpTo(init, |init|)
  {
    PhaseShape(init, snap, i);
    if i < |init| {
      assert FinishedUpTo(init, i)[i] == init[i];
      assert snap[i].status != Completed;
    } else {
      assert forall j :: 0 <= j < |snap| ==> snap[j] == Done(init[j]);
    }
  }

  /** The overall progress when `k` half-sections of `n` are done: `k * 50 / n`. */
  function Milestone(k: nat, n: nat): (r: real)
    requires n > 0
    ensures r >= 0.0
  {
    ((k * 50) as real) / (n as real)
  }

  /** The overall progress values of one run over n sections, in order (the initial 0 and
      then two per section). */
  function Milestones(n: nat): (r: seq<real>)
    requires n > 0
    ensures |r| == 2 * n + 1
  {
    seq(2 * n + 1, k requires 0 <= k < 2 * n + 1 => Milestone(k, n))
  }

  /** Iteration i extends the published prefix by its two milestones. */
  lemma MilestonesStep(n: nat, i: nat)
    requires n > 0 && i < n
    ensures Milestones(n)[..2 * i + 3] == Milestones(n)[..2 * i + 1] + [Milestone(2 * i + 1, n), Milestone(2 * i + 2, n)]
  {
  }

  /** `((i + 0.5) / n) * 100` is the milestone 2i + 1. */
  lemma HalfwayMilestone(i: nat, n: nat)
    requires n > 0
    ensures ((i as real + 0.5) / (n as real)) * 100.0 == Milestone(2 * i + 1, n)
  {
    var x := n as real;
    assert (i as real + 0.5) * 100.0 == ((2 * i + 1) * 50) as real;
    assert ((i as real + 0.5) / x) * 100.0 == ((i as real + 0.5) * 100.0) / x;
  }

  /** `((i + 1) / n) * 100` is the milestone 2i + 2. */
  lemma FullMilestone(i: nat, n: nat)
    requires n > 0
    ensures (((i + 1) as real) / (n as real)) * 100.0 == Milestone(2 * i + 2, n)
  {
    var x := n as real;
    assert ((i + 1) as real) * 100.0 == ((2 * i + 2) * 50) as real;
    assert (((i + 1) as real) / x) * 100.0 == (((i + 1) as real) * 100.0) / x;
  }

  /** The overall progress strictly increases over a run... */
  lemma MilestonesIncrease(n: nat, k: nat, k': nat)
    requires n > 0 && k < k' <= 2 * n
    ensures Milestones(n)[k] < Milestones(n)[k']
  {
    StrictDivide((k * 50) as real, (k' * 50) as real, n as real);
  }

  lemma StrictDivide(a: real, b: real, x: real)
    requires a < b && x > 0.0
    ensures a / x < b / x
  {
    assert b / x - a / x == (b - a) / x;
  }

  /** ...and ends at exactly 100. */
  lemma MilestonesEnd(n: nat)
    requires n > 0
    ensures Milestones(n)[2 * n] == 100.0
  {
    assert Milestones(n)[2 * n] == Milestone(2 * n, n);
    assert (2 * n * 50) as real == 100.0 * (n as real);
    HundredTimes(n as real);
  }

  lemma HundredTimes(x: real)
    requires x > 0.0
    ensures 100.0 * x / x == 100.0
  {
  }

  /** `getStatusColor`: the badge variant for a status. */
  function StatusVariant(status: SectionStatus): (v: string)
    ensures v == "secondary" <==> status == Pending
  {
    match status
    case Pending => "secondary"
    case Generating => "default"
    case Completed => "default"
  }

  class ReportGenerator {
    var reportTitle: string
    var reportDescription: string
    var isGenerating: bool
    var generationProgress: real
    var sections: seq<Section>

    constructor ()
      ensures reportTitle == [] && reportDescription == []
      ensures !isGenerating && generationProgress == 0.0 && sections == []
    {
      reportTitle := [];
      reportDescription := [];
      isGenerating := false;
      generationProgress := 0.0;
      sections := [];
    }

    method EditTitle(title: string)
      modifies this`reportTitle
      ensures reportTitle == title
    {
      reportTitle := title;
    }

    /** The generate button: enabled with a non-blank title while idle; the description
        plays no part. */
    function ButtonEnabled(): (r: bool)
      reads this
      ensures r <==> !IsBlank(reportTitle) && !isGenerating
    {
      !IsBlank(reportTitle) && !isGenerating
    }

    /** One iteration of the loop of `handleGenerateReport`: section i is marked generating
        with the overall progress at its midpoint, then completed with the progress at its end.
        `published` and `snapshots` are the values and lists set, in order. */
    method RunSection(i: nat) returns (ghost published: seq<real>, ghost snapshots: seq<Snapshot>)
      requires i < |NewSections| && sections == FinishedUpTo(NewSections, i)
      modifies this`generationProgress, this`sections
      ensures sections == FinishedUpTo(NewSections, i + 1)
      ensures generationProgress == Milestone(2 * i + 2, |NewSections|)
      ensures published == [Milestone(2 * i + 1, |NewSections|), Milestone(2 * i + 2, |NewSections|)]
      ensures snapshots == [Snapshot(i, FinishedUpTo(NewSections, i)[i := Working(NewSections[i])]),
                            Snapshot(i + 1, FinishedUpTo(NewSections, i + 1))]
      ensures snapshots == PhaseSnapshots(NewSections, i)
    {
      var n := |NewSections|;
      IterationSteps(NewSections, i);
      sections := MarkGenerating(sections, i);
      snapshots := [Snapshot(i, sections)];
      generationProgress := ((i as real + 0.5) / (n as real)) * 100.0;
      HalfwayMilestone(i, n);
      published := [generationProgress];
      sections := MarkCompleted(sections, i);
      snapshots := snapshots + [Snapshot(i + 1, sections)];
      generationProgress := (((i + 1) as real) / (n as real)) * 100.0;
      FullMilestone(i, n);
      published := published + [generationProgress];
    }

    /** The loop of `handleGenerateReport` over the freshly set sections. */
    method RunSections() returns (ghost progressLog: seq<real>, ghost sectionLog: seq<Snapshot>)
      requires sections == NewSections && generationProgress == 0.0
      modifies this`generationProgress, this`sections
      ensures sections == FinishedUpTo(NewSections, |NewSections|)
      ensures generationProgress == 100.0
      ensures progressLog == Milestones(|NewSections|)
      ensures sectionLog == SectionLog(NewSections, |NewSections|)
      ensures forall k :: 0 <= k < |sectionLog| ==> InPhase(NewSections, sectionLog[k].sections, sectionLog[k].current)
      ensures forall k, k' :: 0 <= k < k' < |sectionLog| ==> sectionLog[k].current <= sectionLog[k'].current
    {
      var n := |NewSections|;
      progressLog := [generationProgress];
      assert progressLog == Milestones(n)[..1];
      assert sections == FinishedUpTo(NewSections, 0);
      sectionLog := [Snapshot(0, sections)];
      var i := 0;
      while i < n
        invariant 0 <= i <= n
        invariant sections == FinishedUpTo(NewSections, i)
        invariant progressLog == Milestones(n)[..2 * i + 1]
        invariant generationProgress == Milestone(2 * i, n)
        invariant sectionLog == SectionLog(NewSections, i)
      {
        var published, snapshots := RunSection(i);
        MilestonesStep(n, i);
        progressLog := progressLog + published;
        SectionLogStep(NewSections, i);
        sectionLog := sectionLog + snapshots;
        i := i + 1;
      }
      assert Milestones(n)[..2 * n + 1] == Milestones(n);
      MilestonesEnd(n);
      SectionLogInPhase(NewSections, n);
      SectionLogInOrder(NewSections, n);
    }

    /** `handleGenerateReport`, with its delays taken as sequential steps. `progressLog` lists
        every value passed to `setGenerationProgress`, `sectionLog` every section list set,
        each with the index of the section current at that moment. */
    method GenerateReport() returns (ghost progressLog: seq<real>, ghost sectionLog: seq<Snapshot>)
      modifies this`isGenerating, this`generationProgress, this`sections
      ensures IsBlank(reportTitle) ==>
                && isGenerating == old(isGenerating) && generationProgress == old(generationProgress)
                && sections == old(sections) && progressLog == [] && sectionLog == []
      ensures !IsBlank(reportTitle) ==>
                && sections == FinishedUpTo(NewSections, |NewSections|)
                && !isGenerating
                && generationProgress == 100.0
                && progressLog == Milestones(|NewSections|)
                && sectionLog == SectionLog(NewSections, |NewSections|)
    {
      if IsBlank(reportTitle) {
        return [], [];
      }
      progressLog, sectionLog := Produce();
    }

    /** `handleGenerateReport` past its guard: mark generating, set the new sections, run them
        and stop generating. */
    method Produce() returns (ghost progressLog: seq<real>, ghost sectionLog: seq<Snapshot>)
      modifies this`isGenerating, this`generationProgress, this`sections
      ensures sections == FinishedUpTo(NewSections, |NewSections|)
      ensures !isGenerating
      ensures generationProgress == 100.0
      ensures progressLog == Milestones(|NewSections|)
      ensures sectionLog == SectionLog(NewSections, |NewSections|)
      ensures forall k :: 0 <= k < |sectionLog| ==> InPhase(NewSections, sectionLog[k].sections, sectionLog[k].current)
      ensures forall k, k' :: 0 <= k < k' < |sectionLog| ==> sectionLog[k].current <= sectionLog[k'].current
    {
      isGenerating := true;
      generationProgress := 0.0;
      sections := NewSections;
      progressLog, sectionLog := RunSections();
      isGenerating := false;
    }
  }
}
