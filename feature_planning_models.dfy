// Data models of the feature-planning pipeline: research findings and the
// research report, scope items and the feature scope, the planned Epics and
// Stories of a Jira plan, and the workflow state with its phase tracking.

module FeaturePlanningModels {
  import opened Common

  // -----------------------------------------------------------------------
  // Research
  // -----------------------------------------------------------------------

  datatype Finding = Finding(
    content: string,
    source: string,
    sourceUrl: string,
    confidence: string,
    relevance: string,
    category: string)

  /** A finding with the dataclass defaults. */
  function NewFinding(content: string): Finding
  {
    Finding(content, "unknown", "", "medium", "supporting", "general")
  }

  /** The confidence summary a report starts with, and every recount starts
      from: `high`, `medium`, `low`, all zero. */
  const ConfidenceSeed: seq<(string, nat)> := [("high", 0), ("medium", 0), ("low", 0)]

  /** `counts[f.confidence] = counts.get(f.confidence, 0) + 1` over the
      findings, starting from the seed. */
  function ConfidenceCounts(fs: seq<Finding>): seq<(string, nat)>
  {
    if fs == [] then ConfidenceSeed
    else Bump(ConfidenceCounts(fs[..|fs| - 1]), fs[|fs| - 1].confidence)
  }

  function Confidences(fs: seq<Finding>): (r: seq<string>)
    ensures |r| == |fs| && forall i :: 0 <= i < |fs| ==> r[i] == fs[i].confidence
  {
    seq(|fs|, i requires 0 <= i < |fs| => fs[i].confidence)
  }

  /** Bumping keeps every existing entry's key where it was. */
  lemma {:induction false} BumpKeepsKeys(counts: seq<(string, nat)>, x: string)
    ensures |Bump(counts, x)| >= |counts|
    ensures forall i :: 0 <= i < |counts| ==> Bump(counts, x)[i].0 == counts[i].0
  {
    if counts != [] && counts[0].0 != x {
      BumpKeepsKeys(counts[1..], x);
    }
  }

  /** The confidence summary starts with the keys `high`, `medium`, `low`,
      lists each confidence once, counts each exactly as often as it
      occurs, and its counts add up to the number of findings. */
  lemma {:induction false} ConfidenceCountsSpec(fs: seq<Finding>)
    ensures |ConfidenceCounts(fs)| >= 3
    ensures ConfidenceCounts(fs)[0].0 == "high" && ConfidenceCounts(fs)[1].0 == "medium"
      && ConfidenceCounts(fs)[2].0 == "low"
    ensures NoDup(KeysOf(ConfidenceCounts(fs)))
    ensures SumCounts(ConfidenceCounts(fs)) == |fs|
    ensures forall y :: CountOf(ConfidenceCounts(fs), y) == Occurrences(Confidences(fs), y)
  {
    if fs == [] {
      assert KeysOf(ConfidenceSeed) == ["high", "medium", "low"];
      forall y ensures CountOf(ConfidenceSeed, y) == 0 {
        ZeroCounts(ConfidenceSeed, y);
      }
    } else {
      var init := fs[..|fs| - 1];
      var x := fs[|fs| - 1].confidence;
      ConfidenceCountsSpec(init);
      BumpKeepsKeys(ConfidenceCounts(init), x);
      BumpCounts(ConfidenceCounts(init), x);
      BumpKeys(ConfidenceCounts(init), x);
      assert Confidences(fs) == Confidences(init) + [x];
      assert Confidences(fs)[..|fs| - 1] == Confidences(init);
    }
  }

  lemma {:induction false} ZeroCounts(counts: seq<(string, nat)>, y: string)
    requires forall i :: 0 <= i < |counts| ==> counts[i].1 == 0
    ensures CountOf(counts, y) == 0
  {
    if counts != [] {
      ZeroCounts(counts[1..], y);
    }
  }

  class ResearchReport {
    var domainOverview: string
    var standardsAndSpecs: seq<Finding>
    var existingImplementations: seq<Finding>
    var internalKnowledge: seq<Finding>
    var openQuestions: seq<string>
    var confidenceSummary: seq<(string, nat)>

    /** An empty report with the zeroed confidence summary. */
    constructor ()
      ensures domainOverview == "" && standardsAndSpecs == [] && existingImplementations == []
      ensures internalKnowledge == [] && openQuestions == [] && confidenceSummary == ConfidenceSeed
    {
      domainOverview := "";
      standardsAndSpecs := [];
      existingImplementations := [];
      internalKnowledge := [];
      openQuestions := [];
      confidenceSummary := ConfidenceSeed;
    }

    /** `all_findings`: the specifications, then the implementations, then
        the internal knowledge, each block in its own order. */
    function AllFindings(): (r: seq<Finding>)
      reads this
      ensures |r| == |standardsAndSpecs| + |existingImplementations| + |internalKnowledge|
      ensures r[..|standardsAndSpecs|] == standardsAndSpecs
      ensures r[|standardsAndSpecs|..|standardsAndSpecs| + |existingImplementations|] == existingImplementations
      ensures r[|standardsAndSpecs| + |existingImplementations|..] == internalKnowledge
    {
      standardsAndSpecs + existingImplementations + internalKnowledge
    }

    /** `recompute_confidence_summary`: the summary becomes the recount of
        all findings; nothing else changes. */
    method RecomputeConfidenceSummary()
      modifies this
      ensures confidenceSummary == ConfidenceCounts(old(AllFindings()))
      ensures domainOverview == old(domainOverview) && openQuestions == old(openQuestions)
      ensures standardsAndSpecs == old(standardsAndSpecs)
      ensures existingImplementations == old(existingImplementations)
      ensures internalKnowledge == old(internalKnowledge)
    {
      var all := AllFindings();
      var counts := ConfidenceSeed;
      for i := 0 to |all|
        invariant counts == ConfidenceCounts(all[..i])
      {
        assert all[..i + 1][..i] == all[..i];
        counts := Bump(counts, all[i].confidence);
      }
      assert all[..|all|] == all;
      confidenceSummary := counts;
    }

    /** `to_dict`: recounts first, so the serialised summary always matches
        the findings. */
    method ToDict() returns (d: ReportRecord)
      modifies this
      ensures confidenceSummary == ConfidenceCounts(old(AllFindings()))
      ensures d == ReportRecord(domainOverview, standardsAndSpecs, existingImplementations,
        internalKnowledge, openQuestions, confidenceSummary)
      ensures domainOverview == old(domainOverview) && openQuestions == old(openQuestions)
      ensures standardsAndSpecs == old(standardsAndSpecs)
      ensures existingImplementations == old(existingImplementations)
      ensures internalKnowledge == old(internalKnowledge)
    {
      RecomputeConfidenceSummary();
      d := ReportRecord(domainOverview, standardsAndSpecs, existingImplementations,
        internalKnowledge, openQuestions, confidenceSummary);
    }
  }

  /** The serialised research report. */
  datatype ReportRecord = ReportRecord(
    domainOverview: string,
    standardsAndSpecs: seq<Finding>,
    existingImplementations: seq<Finding>,
    internalKnowledge: seq<Finding>,
    openQuestions: seq<string>,
    confidenceSummary: seq<(string, nat)>)

  // -----------------------------------------------------------------------
  // Scoping
  // -----------------------------------------------------------------------

  datatype ScopeItem = ScopeItem(
    title: string,
    description: string,
    category: string,
    complexity: string,
    confidence: string,
    dependencies: seq<string>,
    rationale: string,
    acceptanceCriteria: seq<string>)

  datatype Question = Question(question: string, context: string, options: seq<string>, blocking: bool)

  /** The scope's confidence report: `{'total_items': 0}` when there are
      no items, else the totals and the three tallies. */
  datatype ConfidenceReport =
    | NoItems
    | Report(
        totalItems: nat,
        byConfidence: seq<(string, nat)>,
        byComplexity: seq<(string, nat)>,
        byCategory: seq<(string, nat)>,
        blockingQuestions: nat,
        totalQuestions: nat)

  function ItemConfidences(items: seq<ScopeItem>): (r: seq<string>)
    ensures |r| == |items| && forall i :: 0 <= i < |items| ==> r[i] == items[i].confidence
  {
    seq(|items|, i requires 0 <= i < |items| => items[i].confidence)
  }

  function ItemComplexities(items: seq<ScopeItem>): (r: seq<string>)
    ensures |r| == |items| && forall i :: 0 <= i < |items| ==> r[i] == items[i].complexity
  {
    seq(|items|, i requires 0 <= i < |items| => items[i].complexity)
  }

  function ItemCategories(items: seq<ScopeItem>): (r: seq<string>)
    ensures |r| == |items| && forall i :: 0 <= i < |items| ==> r[i] == items[i].category
  {
    seq(|items|, i requires 0 <= i < |items| => items[i].category)
  }

  /** `sum(1 for q in questions if q.blocking)` */
  function BlockingCount(qs: seq<Question>): (n: nat)
    ensures n <= |qs|
    ensures n == 0 <==> forall i :: 0 <= i < |qs| ==> !qs[i].blocking
  {
    if qs == [] then 0
    else
      BlockingCount(qs[..|qs| - 1]) + (if qs[|qs| - 1].blocking then 1 else 0)
  }

  function ReportOf(items: seq<ScopeItem>, questions: seq<Question>): ConfidenceReport
  {
    if |items| == 0 then NoItems
    else
      Report(|items|, Tally(ItemConfidences(items)), Tally(ItemComplexities(items)),
        Tally(ItemCategories(items)), BlockingCount(questions), |questions|)
  }

  /** With no items the report is the bare zero total; otherwise each of
      the three tallies adds up to the number of items and counts every
      value as often as it occurs, and the blocking questions are among
      the questions. */
  lemma ReportOfSpec(items: seq<ScopeItem>, questions: seq<Question>)
    ensures ReportOf(items, questions).NoItems? <==> items == []
    ensures items != [] ==>
      var r := ReportOf(items, questions);
      r.totalItems == |items|
      && SumCounts(r.byConfidence) == |items|
      && SumCounts(r.byComplexity) == |items|
      && SumCounts(r.byCategory) == |items|
      && r.blockingQuestions <= r.totalQuestions == |questions|
      && (forall y :: CountOf(r.byConfidence, y) == Occurrences(ItemConfidences(items), y))
      && (forall y :: CountOf(r.byComplexity, y) == Occurrences(ItemComplexities(items), y))
      && (forall y :: CountOf(r.byCategory, y) == Occurrences(ItemCategories(items), y))
  {
    TallySpec(ItemConfidences(items));
    TallySpec(ItemComplexities(items));
    TallySpec(ItemCategories(items));
  }

  class FeatureScope {
    var featureName: string
    var summary: string
    var firmwareItems: seq<ScopeItem>
    var driverItems: seq<ScopeItem>
    var toolItems: seq<ScopeItem>
    var testItems: seq<ScopeItem>
    var integrationItems: seq<ScopeItem>
    var documentationItems: seq<ScopeItem>
    var openQuestions: seq<Question>
    var assumptions: seq<string>
    var confidenceReport: Option<ConfidenceReport>

    /** An empty scope; the report is the empty dict until computed. */
    constructor ()
      ensures featureName == "" && summary == ""
      ensures firmwareItems == [] && driverItems == [] && toolItems == []
      ensures testItems == [] && integrationItems == [] && documentationItems == []
      ensures openQuestions == [] && assumptions == [] && confidenceReport == None
    {
      featureName := "";
      summary := "";
      firmwareItems := [];
      driverItems := [];
      toolItems := [];
      testItems := [];
      integrationItems := [];
      documentationItems := [];
      openQuestions := [];
      assumptions := [];
      confidenceReport := None;
    }

    /** `all_items`: the six categories in the fixed order firmware,
        driver, tool, test, integration, documentation. */
    function AllItems(): (r: seq<ScopeItem>)
      reads this
      ensures |r| == |firmwareItems| + |driverItems| + |toolItems| + |testItems|
        + |integrationItems| + |documentationItems|
    {
      firmwareItems + driverItems + toolItems + testItems + integrationItems + documentationItems
    }

    /** The category lists, in the order `all_items` joins them. */
    function Categories(): (r: seq<seq<ScopeItem>>)
      reads this
      ensures |r| == 6
    {
      [firmwareItems, driverItems, toolItems, testItems, integrationItems, documentationItems]
    }

    /** `recompute_confidence_report`: one pass over all items filling the
        three tallies; nothing but the report changes. */
    method RecomputeConfidenceReport()
      modifies this
      ensures confidenceReport == Some(ReportOf(old(AllItems()), old(openQuestions)))
      ensures Categories() == old(Categories()) && openQuestions == old(openQuestions)
      ensures featureName == old(featureName) && summary == old(summary)
      ensures assumptions == old(assumptions)
    {
      var items := AllItems();
      if |items| == 0 {
        confidenceReport := Some(NoItems);
        return;
      }
      var byConfidence, byComplexity, byCategory := TallyItems(items);
      confidenceReport := Some(Report(|items|, byConfidence, byComplexity, byCategory,
        BlockingCount(openQuestions), |openQuestions|));
    }

    /** `to_dict`: recomputes the report first, so the serialised report
        always matches the items. */
    method ToDict() returns (d: ScopeRecord)
      modifies this
      ensures d.confidenceReport == ReportOf(old(AllItems()), old(openQuestions))
      ensures d == ScopeRecord(featureName, summary, Categories(), openQuestions, assumptions,
        ReportOf(old(AllItems()), old(openQuestions)))
      ensures confidenceReport == Some(d.confidenceReport)
      ensures Categories() == old(Categories()) && openQuestions == old(openQuestions)
      ensures featureName == old(featureName) && summary == old(summary)
      ensures assumptions == old(assumptions)
    {
      RecomputeConfidenceReport();
      d := ScopeRecord(featureName, summary, Categories(), openQuestions, assumptions,
        confidenceReport.value);
    }
  }

  /** The serialised scope: the six category lists in `all_items` order. */
  datatype ScopeRecord = ScopeRecord(
    featureName: string,
    summary: string,
    categories: seq<seq<ScopeItem>>,
    openQuestions: seq<Question>,
    assumptions: seq<string>,
    confidenceReport: ConfidenceReport)

  /** The loop of `recompute_confidence_report`: the three tallies filled
      in one pass over the items. */
  method TallyItems(items: seq<ScopeItem>)
    returns (byConfidence: seq<(string, nat)>, byComplexity: seq<(string, nat)>, byCategory: seq<(string, nat)>)
    ensures byConfidence == Tally(ItemConfidences(items))
    ensures byComplexity == Tally(ItemComplexities(items))
    ensures byCategory == Tally(ItemCategories(items))
  {
    byConfidence, byComplexity, byCategory := [], [], [];
    for i := 0 to |items|
      invariant byConfidence == Tally(ItemConfidences(items[..i]))
      invariant byComplexity == Tally(ItemComplexities(items[..i]))
      invariant byCategory == Tally(ItemCategories(items[..i]))
    {
      ProjectionsStep(items, i);
      byConfidence := Bump(byConfidence, items[i].confidence);
      byComplexity := Bump(byComplexity, items[i].complexity);
      byCategory := Bump(byCategory, items[i].category);
    }
    assert items[..|items|] == items;
  }

  /** One more item extends each projection by that item's value. */
  lemma ProjectionsStep(items: seq<ScopeItem>, i: nat)
    requires i < |items|
    ensures ItemConfidences(items[..i + 1]) == ItemConfidences(items[..i]) + [items[i].confidence]
    ensures ItemComplexities(items[..i + 1]) == ItemComplexities(items[..i]) + [items[i].complexity]
    ensures ItemCategories(items[..i + 1]) == ItemCategories(items[..i]) + [items[i].category]
  {
  }

  // -----------------------------------------------------------------------
  // Jira plan
  // -----------------------------------------------------------------------

  datatype PlannedStory = PlannedStory(
    summary: string,
    description: string,
    components: seq<string>,
    labels: seq<string>,
    assignee: Option<string>,
    complexity: string,
    confidence: string,
    acceptanceCriteria: seq<string>,
    dependencies: seq<string>,
    key: Option<string>,
    parentEpicSummary: Option<string>)

  datatype PlannedEpic = PlannedEpic(
    summary: string,
    description: string,
    components: seq<string>,
    labels: seq<string>,
    stories: seq<PlannedStory>,
    key: Option<string>)

  /** `sum(len(e.stories) for e in epics)` */
  function StoryTotal(epics: seq<PlannedEpic>): nat
  {
    if epics == [] then 0 else StoryTotal(epics[..|epics| - 1]) + |epics[|epics| - 1].stories|
  }

  /** Every story of the plan, Epic by Epic. */
  function AllStories(epics: seq<PlannedEpic>): seq<PlannedStory>
  {
    if epics == [] then [] else AllStories(epics[..|epics| - 1]) + epics[|epics| - 1].stories
  }

  /** The story total counts exactly the stories of the plan, and is
      additive over a split of the Epics. */
  lemma {:induction false} StoryTotalSpec(epics: seq<PlannedEpic>, k: nat)
    requires k <= |epics|
    ensures StoryTotal(epics) == |AllStories(epics)|
    ensures StoryTotal(epics) == StoryTotal(epics[..k]) + StoryTotal(epics[k..])
  {
    if epics != [] {
      var init := epics[..|epics| - 1];
      if k == |epics| {
        StoryTotalSpec(init, k - 1);
        assert epics[k..] == [];
        assert epics[..k] == epics;
      } else {
        StoryTotalSpec(init, k);
        assert init[..k] == epics[..k];
        assert epics[k..][..|epics[k..]| - 1] == init[k..];
      }
    }
  }

  class JiraPlan {
    var projectKey: string
    var featureName: string
    var epics: seq<PlannedEpic>
    var summaryMarkdown: string
    var confidenceReport: Option<PlanReport>

    constructor (projectKey: string, featureName: string)
      ensures this.projectKey == projectKey && this.featureName == featureName
      ensures epics == [] && summaryMarkdown == "" && confidenceReport == None
    {
      this.projectKey := projectKey;
      this.featureName := featureName;
      epics := [];
      summaryMarkdown := "";
      confidenceReport := None;
    }

    function TotalEpics(): nat
      reads this
    {
      |epics|
    }

    function TotalStories(): (n: nat)
      reads this
      ensures n == |AllStories(epics)|
    {
      StoryTotalSpec(epics, 0);
      StoryTotal(epics)
    }

    /** `total_tickets`: every Epic and every Story is one ticket. */
    function TotalTickets(): (n: nat)
      reads this
      ensures n == |epics| + |AllStories(epics)|
      ensures n >= |epics|
    {
      TotalEpics() + TotalStories()
    }
  }

  /** The plan's confidence report, filled by the plan builder. */
  datatype PlanReport = PlanReport(
    totalEpics: nat,
    totalStories: nat,
    byConfidence: seq<(string, nat)>,
    byComplexity: seq<(string, nat)>,
    storiesWithDependencies: nat)

  // -----------------------------------------------------------------------
  // Workflow state
  // -----------------------------------------------------------------------

  /** The completed phases after marking `phase`: appended when new. */
  function PhasesAfter(completed: seq<string>, phase: string): (r: seq<string>)
    ensures phase in r
    ensures forall p :: p in r <==> p in completed || p == phase
  {
    if phase in completed then completed else completed + [phase]
  }

  /** Marking a phase twice is marking it once, and a duplicate-free phase
      list stays duplicate-free. */
  lemma PhasesAfterSpec(completed: seq<string>, phase: string)
    ensures PhasesAfter(PhasesAfter(completed, phase), phase) == PhasesAfter(completed, phase)
    ensures NoDup(completed) ==> NoDup(PhasesAfter(completed, phase))
  {
    if NoDup(completed) && phase !in completed {
      var r := completed + [phase];
      forall i, j | 0 <= i < j < |r| ensures r[i] != r[j] {
        if j == |completed| {
          assert r[i] == completed[i];
        }
      }
    }
  }

  class FeaturePlanningState {
    var featureRequest: string
    var projectKey: string
    var currentPhase: string
    var completedPhases: seq<string>
    var errors: seq<string>

    constructor (featureRequest: string, projectKey: string)
      ensures this.featureRequest == featureRequest && this.projectKey == projectKey
      ensures currentPhase == "init" && completedPhases == [] && errors == []
    {
      this.featureRequest := featureRequest;
      this.projectKey := projectKey;
      currentPhase := "init";
      completedPhases := [];
      errors := [];
    }

    /** `mark_phase_complete`: the phase joins the completed phases once,
        and stops being current if it was. */
    method MarkPhaseComplete(phase: string)
      modifies this
      ensures completedPhases == PhasesAfter(old(completedPhases), phase)
      ensures currentPhase == (if old(currentPhase) == phase then "" else old(currentPhase))
      ensures featureRequest == old(featureRequest) && projectKey == old(projectKey)
      ensures errors == old(errors)
    {
      if phase !in completedPhases {
        completedPhases := completedPhases + [phase];
      }
      if currentPhase == phase {
        currentPhase := "";
      }
    }
  }
}
