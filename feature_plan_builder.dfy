// The deterministic plan builder: a feature scope becomes a Jira plan with
// one Epic per non-empty category and one Story per scope item, components
// matched by category keywords, and a confidence report over the stories.

module FeaturePlanBuilder {
  import opened Common
  import opened FeaturePlanningModels

  // -----------------------------------------------------------------------
  // Categories and their tables
  // -----------------------------------------------------------------------

  datatype Category = Firmware | Driver | Tool | Test | Integration | Documentation

  /** The order in which the scope's categories are visited. */
  const CategoryOrder: seq<Category> := [Firmware, Driver, Tool, Test, Integration, Documentation]

  /** `CATEGORY_EPIC_MAP` */
  function EpicTitle(c: Category): string
  {
    match c
    case Firmware => "Firmware"
    case Driver => "Driver"
    case Tool => "Tools & Diagnostics"
    case Test => "Testing"
    case Integration => "Integration"
    case Documentation => "Documentation"
  }

  /** `CATEGORY_COMPONENT_KEYWORDS` */
  function Keywords(c: Category): (r: seq<string>)
    ensures r != [] && forall i :: 0 <= i < |r| ==> r[i] != []
  {
    match c
    case Firmware => ["firmware", "fw", "embedded"]
    case Driver => ["driver", "kernel", "hfi", "module"]
    case Tool => ["tool", "cli", "util", "diag"]
    case Test => ["qa", "test", "validation", "quality"]
    case Integration => ["integration", "system"]
    case Documentation => ["doc", "documentation", "docs", "technical writing"]
  }

  /** `CATEGORY_PREFIX` */
  function Prefix(c: Category): string
  {
    match c
    case Firmware => "[FW]"
    case Driver => "[DRV]"
    case Tool => "[TOOL]"
    case Test => "[TEST]"
    case Integration => "[INT]"
    case Documentation => "[DOC]"
  }

  // -----------------------------------------------------------------------
  // Input: the scope as a dict
  // -----------------------------------------------------------------------

  /** A scope item as a dict: any field may be absent. */
  datatype ItemDict = ItemDict(
    title: Option<string>,
    description: Option<string>,
    rationale: Option<string>,
    confidence: Option<string>,
    complexity: Option<string>,
    dependencies: Option<seq<string>>,
    acceptanceCriteria: Option<seq<string>>)

  /** The scope dict's six item lists; an absent list is empty. */
  datatype ScopeDict = ScopeDict(
    firmwareItems: seq<ItemDict>,
    driverItems: seq<ItemDict>,
    toolItems: seq<ItemDict>,
    testItems: seq<ItemDict>,
    integrationItems: seq<ItemDict>,
    documentationItems: seq<ItemDict>)

  /** `category_items`, in its insertion order. */
  function CategoryItems(scope: ScopeDict): (r: seq<(Category, seq<ItemDict>)>)
    ensures |r| == 6 && forall i :: 0 <= i < 6 ==> r[i].0 == CategoryOrder[i]
  {
    [(Firmware, scope.firmwareItems), (Driver, scope.driverItems), (Tool, scope.toolItems),
     (Test, scope.testItems), (Integration, scope.integrationItems),
     (Documentation, scope.documentationItems)]
  }

  function OrElse(o: Option<string>, d: string): string
  {
    if o.Some? then o.value else d
  }

  function ListOrEmpty(o: Option<seq<string>>): seq<string>
  {
    if o.Some? then o.value else []
  }

  // -----------------------------------------------------------------------
  // Component matching
  // -----------------------------------------------------------------------

  /** A Jira component record; only its name is read. */
  datatype Component = Component(name: Option<string>)

  /** `comp.get('name', '')` */
  function NameOf(comp: Component): string
  {
    OrElse(comp.name, "")
  }

  /** `any(kw in hay for kw in keywords)` */
  predicate AnyKeyword(hay: string, keywords: seq<string>)
  {
    exists i :: 0 <= i < |keywords| && Contains(hay, keywords[i])
  }

  predicate Matches(c: Category, comp: Component)
  {
    AnyKeyword(Lower(NameOf(comp)), Keywords(c))
  }

  /** `_match_component`: the name of the first component whose lowercased
      name contains one of the category's keywords. */
  function MatchComponent(c: Category, comps: seq<Component>): Option<string>
  {
    match FirstWhere(comps, MatchesFor(c))
    case None => None
    case Some(i) => Some(NameOf(comps[i]))
  }

  /** `Matches` for one category, as a test on components. */
  function MatchesFor(c: Category): Component -> bool
  {
    comp => Matches(c, comp)
  }

  lemma {:induction false} ContainsNonEmpty(hay: string, needle: string)
    requires needle != [] && Contains(hay, needle)
    ensures hay != []
  {
  }

  /** No match exactly when no component matches; otherwise the match is
      the first matching component, and its name is never empty. */
  lemma {:induction false} MatchComponentSpec(c: Category, comps: seq<Component>)
    ensures MatchComponent(c, comps).None? <==> forall i :: 0 <= i < |comps| ==> !Matches(c, comps[i])
    ensures MatchComponent(c, comps).Some? ==>
      exists i :: 0 <= i < |comps| && Matches(c, comps[i])
        && MatchComponent(c, comps).value == NameOf(comps[i])
        && forall j :: 0 <= j < i ==> !Matches(c, comps[j])
    ensures MatchComponent(c, comps).Some? ==> MatchComponent(c, comps).value != []
  {
    FirstWhereSpec(comps, MatchesFor(c));
    match FirstWhere(comps, MatchesFor(c))
    case None =>
    case Some(i) =>
      assert Matches(c, comps[i]);
      var k :| 0 <= k < |Keywords(c)| && Contains(Lower(NameOf(comps[i])), Keywords(c)[k]);
      ContainsNonEmpty(Lower(NameOf(comps[i])), Keywords(c)[k]);
  }

  /** `[component] if component else []` */
  function ComponentList(m: Option<string>): (r: seq<string>)
    ensures |r| <= 1
  {
    if m.Some? && m.value != [] then [m.value] else []
  }

  // -----------------------------------------------------------------------
  // Stories
  // -----------------------------------------------------------------------

  /** The lines of a Story description: overview, optional rationale,
      dependencies and acceptance criteria, then confidence and
      complexity in upper case. */
  function DescriptionLines(description: string, rationale: string, dependencies: seq<string>,
    criteria: seq<string>, confidence: string, complexity: string): seq<string>
  {
    HeadLines(description, rationale)
    + (if dependencies != [] then DependencyHead() + Bullets(BlockedBy(), dependencies) else [])
    + (if criteria != [] then CriteriaHead() + Bullets(Checkbox(), criteria) else [])
    + RatingLines(confidence, complexity)
  }

  /** The overview, and the rationale when there is one. */
  function HeadLines(description: string, rationale: string): seq<string>
  {
    OverviewHead()
    + (if description != [] then [description] else [])
    + (if rationale != [] then RationaleSection(rationale) else [])
  }

  function OverviewHead(): seq<string> { ["## Overview", ""] }
  function RationaleSection(rationale: string): seq<string> { ["", "## Rationale", "", rationale] }
  function DependencyHead(): seq<string> { ["", "## Dependencies"] }
  function CriteriaHead(): seq<string> { ["", "## Acceptance Criteria"] }
  function BlockedBy(): string { "- BLOCKED_BY: " }
  function Checkbox(): string { "- [ ] " }

  function RatingLines(confidence: string, complexity: string): seq<string>
  {
    ["", "## Confidence: " + Upper(confidence), "## Complexity: " + Upper(complexity)]
  }

  function Bullets(marker: string, xs: seq<string>): (r: seq<string>)
    ensures |r| == |xs| && forall i :: 0 <= i < |xs| ==> r[i] == marker + xs[i]
  {
    seq(|xs|, i requires 0 <= i < |xs| => marker + xs[i])
  }

  /** The description's line loop: one BLOCKED_BY line per dependency and
      one checkbox line per criterion, appended in order. */
  method BuildDescriptionLines(description: string, rationale: string, dependencies: seq<string>,
    criteria: seq<string>, confidence: string, complexity: string) returns (lines: seq<string>)
    ensures lines == DescriptionLines(description, rationale, dependencies, criteria, confidence, complexity)
  {
    lines := BuildHeadLines(description, rationale);
    lines := AppendLists(lines, dependencies, criteria);
    lines := lines + RatingLines(confidence, complexity);
  }

  method BuildHeadLines(description: string, rationale: string) returns (lines: seq<string>)
    ensures lines == HeadLines(description, rationale)
  {
    lines := OverviewHead();
    if description != [] {
      lines := lines + [description];
    }
    if rationale != [] {
      lines := lines + RationaleSection(rationale);
    }
  }

  /** The dependency and acceptance-criteria sections, each only when it
      has entries. */
  method AppendLists(head: seq<string>, dependencies: seq<string>, criteria: seq<string>)
    returns (lines: seq<string>)
    ensures lines == head
      + (if dependencies != [] then DependencyHead() + Bullets(BlockedBy(), dependencies) else [])
      + (if criteria != [] then CriteriaHead() + Bullets(Checkbox(), criteria) else [])
  {
    lines := head;
    if dependencies != [] {
      lines := AppendSection(lines, DependencyHead(), BlockedBy(), dependencies);
    }
    if criteria != [] {
      lines := AppendSection(lines, CriteriaHead(), Checkbox(), criteria);
    }
  }

  /** A section heading followed by one bulleted line per entry, appended
      one line at a time. */
  method AppendSection(lines: seq<string>, head: seq<string>, marker: string, xs: seq<string>)
    returns (r: seq<string>)
    ensures r == lines + (head + Bullets(marker, xs))
  {
    r := lines + head;
    for i := 0 to |xs|
      invariant r == lines + head + Bullets(marker, xs[..i])
    {
      assert Bullets(marker, xs[..i + 1]) == Bullets(marker, xs[..i]) + [marker + xs[i]];
      r := r + [marker + xs[i]];
    }
    assert xs[..|xs|] == xs;
  }

  /** `_scope_item_to_story` */
  function StoryOf(item: ItemDict, c: Category, epicSummary: string, comps: seq<Component>): PlannedStory
  {
    var title := OrElse(item.title, "Untitled");
    var confidence := OrElse(item.confidence, "medium");
    var complexity := OrElse(item.complexity, "M");
    var dependencies := ListOrEmpty(item.dependencies);
    var criteria := ListOrEmpty(item.acceptanceCriteria);
    PlannedStory(
      Strip(Prefix(c) + " " + title),
      Join(DescriptionLines(OrElse(item.description, ""), OrElse(item.rationale, ""),
        dependencies, criteria, confidence, complexity), "\n"),
      ComponentList(MatchComponent(c, comps)),
      ["feature-planning", "confidence-" + Lower(confidence), "complexity-" + Lower(complexity)],
      None, complexity, confidence, criteria, dependencies, None, Some(epicSummary))
  }

  /** A Story carries exactly the three planning labels, the prefixed
      title, its item's confidence, complexity, criteria and dependencies
      (with the defaults when absent), at most one component, which is the
      category's matched component, and a reference to its Epic. */
  lemma StoryOfSpec(item: ItemDict, c: Category, epicSummary: string, comps: seq<Component>)
    ensures var s := StoryOf(item, c, epicSummary, comps);
      && s.labels == ["feature-planning", "confidence-" + Lower(s.confidence), "complexity-" + Lower(s.complexity)]
      && s.summary == Strip(Prefix(c) + " " + OrElse(item.title, "Untitled"))
      && s.confidence == (if item.confidence.Some? then item.confidence.value else "medium")
      && s.complexity == (if item.complexity.Some? then item.complexity.value else "M")
      && s.dependencies == ListOrEmpty(item.dependencies)
      && s.acceptanceCriteria == ListOrEmpty(item.acceptanceCriteria)
      && (s.components == [] <==> MatchComponent(c, comps).None?)
      && (s.components != [] ==> s.components == [MatchComponent(c, comps).value])
      && s.parentEpicSummary == Some(epicSummary)
      && s.key.None? && s.assignee.None?
  {
    MatchComponentSpec(c, comps);
  }

  method StoryFromItem(item: ItemDict, c: Category, epicSummary: string, comps: seq<Component>)
    returns (s: PlannedStory)
    ensures s == StoryOf(item, c, epicSummary, comps)
  {
    var title := OrElse(item.title, "Untitled");
    var confidence := OrElse(item.confidence, "medium");
    var complexity := OrElse(item.complexity, "M");
    var dependencies := ListOrEmpty(item.dependencies);
    var criteria := ListOrEmpty(item.acceptanceCriteria);
    var lines := BuildDescriptionLines(OrElse(item.description, ""), OrElse(item.rationale, ""),
      dependencies, criteria, confidence, complexity);
    s := PlannedStory(
      Strip(Prefix(c) + " " + title),
      Join(lines, "\n"),
      ComponentList(MatchComponent(c, comps)),
      ["feature-planning", "confidence-" + Lower(confidence), "complexity-" + Lower(complexity)],
      None, complexity, confidence, criteria, dependencies, None, Some(epicSummary));
  }

  // -----------------------------------------------------------------------
  // Epics
  // -----------------------------------------------------------------------

  /** One line per item in the Epic description, `?` for what is absent. */
  function EpicItemLine(item: ItemDict): string
  {
    "- [" + OrElse(item.complexity, "?") + "] " + OrElse(item.title, "?")
      + " (Confidence: " + OrElse(item.confidence, "?") + ")"
  }

  /** `_build_epic_description` */
  function EpicDescription(featureName: string, title: string, items: seq<ItemDict>): string
  {
    Join(["## " + title + " for " + featureName, "",
      "This Epic tracks all " + Lower(title) + " work for the \"" + featureName + "\" feature.", "",
      "### Stories (" + NatToString(|items|) + "):"]
      + seq(|items|, i requires 0 <= i < |items| => EpicItemLine(items[i])), "\n")
  }

  /** `[{feature_name[:50]}] {epic_title}` */
  function EpicSummary(featureName: string, c: Category): string
  {
    "[" + Take(featureName, 50) + "] " + EpicTitle(c)
  }

  /** The Stories of an Epic, one per item, in item order. */
  function StoriesOf(items: seq<ItemDict>, c: Category, epicSummary: string, comps: seq<Component>): seq<PlannedStory>
  {
    MapLast((item: ItemDict) => StoryOf(item, c, epicSummary, comps), items)
  }

  lemma StoriesOfSpec(items: seq<ItemDict>, c: Category, epicSummary: string, comps: seq<Component>)
    ensures |StoriesOf(items, c, epicSummary, comps)| == |items|
    ensures forall j :: 0 <= j < |items| ==>
      StoriesOf(items, c, epicSummary, comps)[j] == StoryOf(items[j], c, epicSummary, comps)
  {
    MapLastSpec((item: ItemDict) => StoryOf(item, c, epicSummary, comps), items);
  }

  /** The Stories of the first `j + 1` items extend those of the first `j`
      by the Story of item `j`. */
  lemma StoriesOfStep(items: seq<ItemDict>, j: nat, c: Category, epicSummary: string, comps: seq<Component>)
    requires j < |items|
    ensures StoriesOf(items[..j + 1], c, epicSummary, comps)
      == StoriesOf(items[..j], c, epicSummary, comps) + [StoryOf(items[j], c, epicSummary, comps)]
  {
    assert items[..j + 1][..j] == items[..j];
  }

  function EpicOf(featureName: string, c: Category, items: seq<ItemDict>, comps: seq<Component>): PlannedEpic
  {
    var summary := EpicSummary(featureName, c);
    PlannedEpic(summary, EpicDescription(featureName, EpicTitle(c), items),
      ComponentList(MatchComponent(c, comps)), ["feature-planning"],
      StoriesOf(items, c, summary, comps), None)
  }

  /** An Epic has one Story per item, in item order, each pointing back at
      the Epic's summary; the summary is the bracketed feature name cut to
      50 characters followed by the category's title. */
  lemma EpicOfSpec(featureName: string, c: Category, items: seq<ItemDict>, comps: seq<Component>)
    ensures var e := EpicOf(featureName, c, items, comps);
      && |e.stories| == |items|
      && (forall j :: 0 <= j < |items| ==>
            e.stories[j] == StoryOf(items[j], c, e.summary, comps)
            && e.stories[j].parentEpicSummary == Some(e.summary))
      && e.summary == "[" + featureName[..Min(|featureName|, 50)] + "] " + EpicTitle(c)
      && e.labels == ["feature-planning"]
  {
    var e := EpicOf(featureName, c, items, comps);
    StoriesOfSpec(items, c, e.summary, comps);
  }

  /** The Epic of one category: its stories appended one per item. */
  method BuildEpic(featureName: string, c: Category, items: seq<ItemDict>, comps: seq<Component>)
    returns (epic: PlannedEpic)
    ensures epic == EpicOf(featureName, c, items, comps)
  {
    var summary := EpicSummary(featureName, c);
    var stories := BuildStories(items, c, summary, comps);
    epic := PlannedEpic(summary, EpicDescription(featureName, EpicTitle(c), items),
      ComponentList(MatchComponent(c, comps)), ["feature-planning"], stories, None);
  }

  /** The Story loop of `_build_epic`. */
  method BuildStories(items: seq<ItemDict>, c: Category, summary: string, comps: seq<Component>)
    returns (stories: seq<PlannedStory>)
    ensures stories == StoriesOf(items, c, summary, comps)
  {
    stories := [];
    for j := 0 to |items|
      invariant stories == StoriesOf(items[..j], c, summary, comps)
    {
      StoriesOfStep(items, j, c, summary, comps);
      var s := StoryFromItem(items[j], c, summary, comps);
      stories := stories + [s];
    }
    assert items[..|items|] == items;
  }

  // -----------------------------------------------------------------------
  // The plan
  // -----------------------------------------------------------------------

  /** The Epics for the categories visited so far: empty categories are
      skipped. */
  function PlanEpics(featureName: string, cats: seq<(Category, seq<ItemDict>)>, comps: seq<Component>): seq<PlannedEpic>
  {
    KeptMap(cats, HasItems, EpicFor(featureName, comps))
  }

  predicate HasItems(cat: (Category, seq<ItemDict>))
  {
    cat.1 != []
  }

  function EpicFor(featureName: string, comps: seq<Component>): ((Category, seq<ItemDict>)) -> PlannedEpic
  {
    (cat: (Category, seq<ItemDict>)) => EpicOf(featureName, cat.0, cat.1, comps)
  }

  /** The categories that have items, in order. */
  function NonEmpty(cats: seq<(Category, seq<ItemDict>)>): seq<(Category, seq<ItemDict>)>
  {
    KeepIf(cats, HasItems)
  }

  /** One Epic per category with items, in category order, and no other:
      the k-th Epic is the Epic of the k-th non-empty category. */
  lemma PlanEpicsSpec(featureName: string, cats: seq<(Category, seq<ItemDict>)>, comps: seq<Component>)
    ensures |PlanEpics(featureName, cats, comps)| == |NonEmpty(cats)|
    ensures forall k :: 0 <= k < |NonEmpty(cats)| ==>
      PlanEpics(featureName, cats, comps)[k] == EpicOf(featureName, NonEmpty(cats)[k].0, NonEmpty(cats)[k].1, comps)
    ensures forall x :: x in NonEmpty(cats) <==> x in cats && x.1 != []
  {
    KeptMapSpec(cats, HasItems, EpicFor(featureName, comps));
    KeepIfSpec(cats, HasItems);
  }

  /** Where a component lookup comes from: a raised exception, a result
      whose data is not a dict, or a dict with or without `components`. */
  datatype ComponentsFetch = Raised | NotDict | DictData(components: Option<seq<Component>>)

  function FetchedComponents(f: ComponentsFetch): (r: seq<Component>)
    ensures r != [] ==> f.DictData? && f.components.Some?
  {
    if f.DictData? && f.components.Some? then f.components.value else []
  }

  class FeaturePlanBuilderAgent {
    var jiraComponents: Option<seq<Component>>
    /** How often the components were fetched. */
    ghost var fetches: nat

    constructor ()
      ensures jiraComponents == None && fetches == 0
    {
      jiraComponents := None;
      fetches := 0;
    }

    /** The components a lookup returns from the given cache. */
    static function CachedOr(cache: Option<seq<Component>>, f: ComponentsFetch): seq<Component>
    {
      if cache.Some? then cache.value else FetchedComponents(f)
    }

    /** `_get_jira_components`: the first call fetches and caches (an empty
        list on any failure); later calls return the cache untouched. */
    method GetJiraComponents(f: ComponentsFetch) returns (comps: seq<Component>)
      modifies this
      ensures comps == CachedOr(old(jiraComponents), f)
      ensures jiraComponents == Some(comps)
      ensures old(jiraComponents).Some? ==> fetches == old(fetches)
      ensures old(jiraComponents).None? ==> fetches == old(fetches) + 1
    {
      if jiraComponents.Some? {
        return jiraComponents.value;
      }
      fetches := fetches + 1;
      comps := FetchedComponents(f);
      jiraComponents := Some(comps);
    }

    /** `build_plan`: one Epic per non-empty category in category order,
        then the confidence report over the stories. */
    method BuildPlan(featureName: string, projectKey: string, scope: ScopeDict, f: ComponentsFetch)
      returns (plan: JiraPlan)
      modifies this
      ensures fresh(plan)
      ensures plan.projectKey == projectKey && plan.featureName == featureName
      ensures plan.epics == PlanEpics(featureName, CategoryItems(scope), CachedOr(old(jiraComponents), f))
      ensures plan.confidenceReport == Some(PlanReportOf(plan.epics))
      ensures jiraComponents == Some(CachedOr(old(jiraComponents), f))
    {
      plan := new JiraPlan(projectKey, featureName);
      var comps := GetJiraComponents(f);
      var cats := CategoryItems(scope);
      var epics := BuildEpics(featureName, cats, comps);
      plan.epics := epics;
      var report := BuildConfidenceReport(epics);
      plan.confidenceReport := Some(report);
    }
  }

  /** The category loop of `build_plan`. */
  method BuildEpics(featureName: string, cats: seq<(Category, seq<ItemDict>)>, comps: seq<Component>)
    returns (epics: seq<PlannedEpic>)
    ensures epics == PlanEpics(featureName, cats, comps)
  {
    epics := [];
    for i := 0 to |cats|
      invariant epics == PlanEpics(featureName, cats[..i], comps)
    {
      assert cats[..i + 1][..i] == cats[..i];
      assert HasItems(cats[i]) <==> cats[i].1 != [];
      if cats[i].1 != [] {
        var epic := BuildEpic(featureName, cats[i].0, cats[i].1, comps);
        epics := epics + [epic];
      }
    }
    assert cats[..|cats|] == cats;
  }

  // -----------------------------------------------------------------------
  // Confidence report
  // -----------------------------------------------------------------------

  function LowerConfidences(stories: seq<PlannedStory>): (r: seq<string>)
    ensures |r| == |stories| && forall i :: 0 <= i < |stories| ==> r[i] == Lower(stories[i].confidence)
  {
    seq(|stories|, i requires 0 <= i < |stories| => Lower(stories[i].confidence))
  }

  function UpperComplexities(stories: seq<PlannedStory>): (r: seq<string>)
    ensures |r| == |stories| && forall i :: 0 <= i < |stories| ==> r[i] == Upper(stories[i].complexity)
  {
    seq(|stories|, i requires 0 <= i < |stories| => Upper(stories[i].complexity))
  }

  function WithDependencies(stories: seq<PlannedStory>): (n: nat)
    ensures n <= |stories|
  {
    if stories == [] then 0
    else WithDependencies(stories[..|stories| - 1]) + (if stories[|stories| - 1].dependencies != [] then 1 else 0)
  }

  /** `_build_confidence_report` over the stories of all Epics. */
  function PlanReportOf(epics: seq<PlannedEpic>): PlanReport
  {
    var stories := AllStories(epics);
    PlanReport(|epics|, |stories|, Tally(LowerConfidences(stories)), Tally(UpperComplexities(stories)),
      WithDependencies(stories))
  }

  /** Each tally adds up to the number of stories, which is the plan's
      story total, and the stories with dependencies are among them. */
  lemma PlanReportSpec(epics: seq<PlannedEpic>)
    ensures var r := PlanReportOf(epics);
      && r.totalEpics == |epics|
      && r.totalStories == StoryTotal(epics)
      && SumCounts(r.byConfidence) == r.totalStories
      && SumCounts(r.byComplexity) == r.totalStories
      && r.storiesWithDependencies <= r.totalStories
  {
    StoryTotalSpec(epics, 0);
    TallySpec(LowerConfidences(AllStories(epics)));
    TallySpec(UpperComplexities(AllStories(epics)));
  }

  /** The report's counters after the stories seen so far. */
  datatype Counters = Counters(total: nat, byConfidence: seq<(string, nat)>,
    byComplexity: seq<(string, nat)>, withDeps: nat)

  function CountersOf(stories: seq<PlannedStory>): Counters
  {
    Counters(|stories|, Tally(LowerConfidences(stories)), Tally(UpperComplexities(stories)),
      WithDependencies(stories))
  }

  /** One more story bumps each counter. */
  function Step(k: Counters, s: PlannedStory): Counters
  {
    Counters(k.total + 1, Bump(k.byConfidence, Lower(s.confidence)), Bump(k.byComplexity, Upper(s.complexity)),
      k.withDeps + (if s.dependencies != [] then 1 else 0))
  }

  lemma CountersStep(stories: seq<PlannedStory>, s: PlannedStory)
    ensures CountersOf(stories + [s]) == Step(CountersOf(stories), s)
  {
    var t := stories + [s];
    assert t[..|t| - 1] == stories;
    assert LowerConfidences(t)[..|stories|] == LowerConfidences(stories);
    assert UpperComplexities(t)[..|stories|] == UpperComplexities(stories);
  }

  lemma AllStoriesStep(epics: seq<PlannedEpic>, e: nat)
    requires e < |epics|
    ensures AllStories(epics[..e + 1]) == AllStories(epics[..e]) + epics[e].stories
  {
    assert epics[..e + 1][..e] == epics[..e];
  }

  lemma AppendStep<T>(a: seq<T>, b: seq<T>, j: nat)
    requires j < |b|
    ensures a + b[..j + 1] == (a + b[..j]) + [b[j]]
  {
    assert b[..j + 1] == b[..j] + [b[j]];
  }

  /** The inner loop: the stories of one Epic, counted in order. */
  method CountStories(k: Counters, seen: seq<PlannedStory>, stories: seq<PlannedStory>) returns (r: Counters)
    requires k == CountersOf(seen)
    ensures r == CountersOf(seen + stories)
  {
    r := k;
    assert seen + stories[..0] == seen;
    for j := 0 to |stories|
      invariant r == CountersOf(seen + stories[..j])
    {
      CountersStep(seen + stories[..j], stories[j]);
      AppendStep(seen, stories, j);
      r := Step(r, stories[j]);
    }
    assert stories[..|stories|] == stories;
  }

  /** `_build_confidence_report`: the nested loop over Epics and Stories. */
  method BuildConfidenceReport(epics: seq<PlannedEpic>) returns (report: PlanReport)
    ensures report == PlanReportOf(epics)
  {
    var k := Counters(0, [], [], 0);
    assert k == CountersOf([]);
    for e := 0 to |epics|
      invariant k == CountersOf(AllStories(epics[..e]))
    {
      AllStoriesStep(epics, e);
      k := CountStories(k, AllStories(epics[..e]), epics[e].stories);
    }
    assert epics[..|epics|] == epics;
    report := PlanReport(|epics|, k.total, k.byConfidence, k.byComplexity, k.withDeps);
  }
}
