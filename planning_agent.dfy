/** The deterministic release planner: roadmap releases that Jira does not
    have yet become planned releases, each with one tracking Epic and one
    Story per roadmap feature; components and assignees are matched by
    keywords against the Jira components and the org chart's areas. */
module PlanningAgent {
  import opened Common

  datatype PlannedTicket = PlannedTicket(
    key: Option<string>,
    summary: string,
    description: string,
    issueType: string,
    parentKey: Option<string>,
    components: seq<string>,
    fixVersions: seq<string>,
    assignee: Option<string>,
    labels: seq<string>,
    priority: string)

  datatype PlannedRelease = PlannedRelease(
    name: string,
    description: string,
    startDate: Option<string>,
    releaseDate: Option<string>,
    tickets: seq<PlannedTicket>)

  datatype ReleasePlan = ReleasePlan(projectKey: string, releases: seq<PlannedRelease>, summary: string)

  /** One entry of the roadmap timeline: its `context` text (`''` when
      absent) and its `date`. */
  datatype TimelineItem = TimelineItem(context: string, date: Option<string>)

  /** A person of an org-chart area: `name` (may be missing) and `is_lead`. */
  datatype Person = Person(name: Option<string>, isLead: bool)

  /** The roadmap, the Jira state and the org chart as `create_plan` reads
      them. A missing `version` or `text` is `''`; `components` are the
      keys of the name-indexed component dict, in first-seen order;
      `byArea` is the org chart's `by_area` dict in insertion order. */
  datatype PlanInputs = PlanInputs(
    versions: seq<string>,
    features: seq<string>,
    timeline: seq<TimelineItem>,
    existing: set<string>,
    components: seq<string>,
    byArea: seq<(string, seq<Person>)>)

  // -----------------------------------------------------------------------
  // _match_component
  // -----------------------------------------------------------------------

  /** The keyword groups, in the order the source's dict lists them. */
  const KeywordGroups: seq<(string, seq<string>)> := [
    ("driver", ["driver", "kernel", "module"]),
    ("firmware", ["firmware", "fw", "embedded"]),
    ("tools", ["tool", "utility", "cli"]),
    ("documentation", ["doc", "documentation", "guide"]),
    ("testing", ["test", "qa", "validation"])]

  /** The first component whose lowercased name occurs in the text. */
  function FirstNamedIn(textLower: string, components: seq<string>): (r: Option<string>)
    ensures r.Some? ==> r.value in components && Contains(textLower, Lower(r.value))
    ensures r.None? <==> forall c :: c in components ==> !Contains(textLower, Lower(c))
    ensures forall i :: 0 <= i < |components| && Contains(textLower, Lower(components[i]))
              && (forall j :: 0 <= j < i ==> !Contains(textLower, Lower(components[j])))
              ==> r == Some(components[i])
  {
    if components == [] then None
    else if Contains(textLower, Lower(components[0])) then Some(components[0])
    else FirstNamedIn(textLower, components[1..])
  }

  /** The first component whose lowercased name contains the group name. */
  function FirstContaining(group: string, components: seq<string>): (r: Option<string>)
    ensures r.Some? ==> r.value in components && Contains(Lower(r.value), group)
    ensures r.None? <==> forall c :: c in components ==> !Contains(Lower(c), group)
  {
    if components == [] then None
    else if Contains(Lower(components[0]), group) then Some(components[0])
    else FirstContaining(group, components[1..])
  }

  predicate AnyIn(textLower: string, keywords: seq<string>)
  {
    exists k :: 0 <= k < |keywords| && Contains(textLower, keywords[k])
  }

  /** The keyword groups in order: a group whose keyword occurs in the text
      and for which some component contains the group name decides. */
  function ByKeywordGroup(textLower: string, groups: seq<(string, seq<string>)>, components: seq<string>): (r: Option<string>)
    ensures r.Some? ==> r.value in components
  {
    if groups == [] then None
    else if AnyIn(textLower, groups[0].1) && FirstContaining(groups[0].0, components).Some? then
      FirstContaining(groups[0].0, components)
    else ByKeywordGroup(textLower, groups[1..], components)
  }

  /** `_match_component`: a component named in the text wins, the first in
      list order; otherwise the keyword groups are tried in order. A named
      component is matched directly whatever the keywords say, and nothing
      is matched when no component is named and no group finds one. */
  function MatchComponent(text: string, components: seq<string>): (r: Option<string>)
    ensures r.Some? ==> r.value in components
    ensures (exists c :: c in components && Contains(Lower(text), Lower(c))) ==>
      r.Some? && Contains(Lower(text), Lower(r.value))
    ensures forall i :: 0 <= i < |components| && Contains(Lower(text), Lower(components[i]))
              && (forall j :: 0 <= j < i ==> !Contains(Lower(text), Lower(components[j])))
              ==> r == Some(components[i])
    ensures r.None? <==>
      (forall c :: c in components ==> !Contains(Lower(text), Lower(c)))
      && ByKeywordGroup(Lower(text), KeywordGroups, components).None?
  {
    var t := Lower(text);
    match FirstNamedIn(t, components)
    case Some(c) => Some(c)
    case None => ByKeywordGroup(t, KeywordGroups, components)
  }

  /** A keyword group only matches when a component carries its name. */
  lemma {:induction false} ByKeywordGroupSound(textLower: string, groups: seq<(string, seq<string>)>, components: seq<string>)
    requires ByKeywordGroup(textLower, groups, components).Some?
    ensures exists g :: (0 <= g < |groups| && AnyIn(textLower, groups[g].1)
      && Contains(Lower(ByKeywordGroup(textLower, groups, components).value), groups[g].0))
  {
    if AnyIn(textLower, groups[0].1) && FirstContaining(groups[0].0, components).Some? {
      assert 0 < |groups|;
    } else {
      ByKeywordGroupSound(textLower, groups[1..], components);
      var g :| 0 <= g < |groups[1..]| && AnyIn(textLower, groups[1..][g].1)
        && Contains(Lower(ByKeywordGroup(textLower, groups[1..], components).value), groups[1..][g].0);
      assert groups[1..][g] == groups[g + 1];
    }
  }

  // -----------------------------------------------------------------------
  // _match_assignee
  // -----------------------------------------------------------------------

  /** The area and the component name one another, case-insensitively. */
  predicate Related(component: string, area: string)
  {
    Contains(Lower(area), Lower(component)) || Contains(Lower(component), Lower(area))
  }

  /** Index of the first lead among the people, if any. */
  function FirstLead(people: seq<Person>): (r: Option<nat>)
    ensures r.Some? ==> (r.value < |people| && people[r.value].isLead
      && forall j :: 0 <= j < r.value ==> !people[j].isLead)
    ensures r.None? ==> forall j :: 0 <= j < |people| ==> !people[j].isLead
  {
    if people == [] then None
    else if people[0].isLead then Some(0)
    else match FirstLead(people[1..])
      case None => None
      case Some(i) => Some(i + 1)
  }

  /** `_match_assignee`: no component gives no one; otherwise the first
      related area that has people decides: its first lead, else its first
      person. A related area without people is passed over. */
  function MatchAssignee(component: Option<string>, byArea: seq<(string, seq<Person>)>): (r: Option<string>)
    decreases |byArea|
  {
    if component.None? || component.value == [] || byArea == [] then None
    else if Related(component.value, byArea[0].0) && byArea[0].1 != [] then AreaPick(byArea[0].1)
    else MatchAssignee(component, byArea[1..])
  }

  /** The person an area with people supplies: its first lead, else its
      first person. */
  function AreaPick(people: seq<Person>): Option<string>
    requires people != []
  {
    match FirstLead(people)
    case Some(i) => people[i].name
    case None => people[0].name
  }

  /** The assignee is the name of someone in the first related area that
      has people: its first lead when it has one, else its first person. */
  lemma {:induction false} MatchAssigneeSpec(component: string, byArea: seq<(string, seq<Person>)>)
    requires component != []
    ensures MatchAssignee(Some(component), byArea).Some? ==>
      exists a :: 0 <= a < |byArea| && Related(component, byArea[a].0) && byArea[a].1 != []
        && (forall b :: 0 <= b < a ==> !Related(component, byArea[b].0) || byArea[b].1 == [])
        && MatchAssignee(Some(component), byArea) == AreaPick(byArea[a].1)
  {
    if byArea != [] && !(Related(component, byArea[0].0) && byArea[0].1 != []) {
      MatchAssigneeSpec(component, byArea[1..]);
      if MatchAssignee(Some(component), byArea).Some? {
        var tail := byArea[1..];
        var a :| 0 <= a < |tail| && Related(component, tail[a].0) && tail[a].1 != []
          && (forall b :: 0 <= b < a ==> !Related(component, tail[b].0) || tail[b].1 == [])
          && MatchAssignee(Some(component), tail) == AreaPick(tail[a].1);
        assert tail[a] == byArea[a + 1];
        forall b | 0 <= b < a + 1 ensures !Related(component, byArea[b].0) || byArea[b].1 == [] {
          if b > 0 {
            assert tail[b - 1] == byArea[b];
          }
        }
      }
    }
  }

  /** No related area with people gives no assignee. */
  lemma {:induction false} MatchAssigneeNone(component: string, byArea: seq<(string, seq<Person>)>)
    requires component != []
    ensures (forall a :: 0 <= a < |byArea| ==> !Related(component, byArea[a].0) || byArea[a].1 == [])
      ==> MatchAssignee(Some(component), byArea).None?
  {
    if byArea != [] && forall a :: 0 <= a < |byArea| ==> !Related(component, byArea[a].0) || byArea[a].1 == [] {
      forall a | 0 <= a < |byArea[1..]| ensures !Related(component, byArea[1..][a].0) || byArea[1..][a].1 == [] {
        assert byArea[1..][a] == byArea[a + 1];
      }
      MatchAssigneeNone(component, byArea[1..]);
    }
  }

  // -----------------------------------------------------------------------
  // create_plan
  // -----------------------------------------------------------------------

  /** The date of the first timeline item whose context mentions the
      version. */
  function ReleaseDate(version: string, timeline: seq<TimelineItem>): (r: Option<string>)
  {
    if timeline == [] then None
    else if Contains(timeline[0].context, version) then timeline[0].date
    else ReleaseDate(version, timeline[1..])
  }

  lemma {:induction false} ReleaseDateSpec(version: string, timeline: seq<TimelineItem>)
    ensures (forall t :: 0 <= t < |timeline| ==> !Contains(timeline[t].context, version))
      ==> ReleaseDate(version, timeline) == None
    ensures forall t :: 0 <= t < |timeline| ==>
      (Contains(timeline[t].context, version) && (forall u :: 0 <= u < t ==> !Contains(timeline[u].context, version))
       ==> ReleaseDate(version, timeline) == timeline[t].date)
  {
    if timeline != [] {
      ReleaseDateSpec(version, timeline[1..]);
      forall t | 0 <= t < |timeline| && Contains(timeline[t].context, version)
        && (forall u :: 0 <= u < t ==> !Contains(timeline[u].context, version))
        ensures ReleaseDate(version, timeline) == timeline[t].date
      {
        if t > 0 {
          assert timeline[1..][t - 1] == timeline[t];
          forall u | 0 <= u < t - 1 ensures !Contains(timeline[1..][u].context, version) {
            assert timeline[1..][u] == timeline[u + 1];
          }
        }
      }
      if forall t :: 0 <= t < |timeline| ==> !Contains(timeline[t].context, version) {
        forall t | 0 <= t < |timeline[1..]| ensures !Contains(timeline[1..][t].context, version) {
          assert timeline[1..][t] == timeline[t + 1];
        }
      }
    }
  }

  /** The tracking Epic of a release. */
  function EpicFor(version: string): PlannedTicket
  {
    PlannedTicket(None, "Release " + version + " Implementation",
      "Epic for tracking all work in release " + version, "Epic", None, [],
      [version], None, ["release-tracking"], "Medium")
  }

  /** The Story of one non-empty feature text. */
  function StoryFor(text: string, version: string, inputs: PlanInputs): PlannedTicket
  {
    var component := MatchComponent(text, inputs.components);
    PlannedTicket(None, Take(text, 100), text, "Story", None,
      if component.Some? && component.value != [] then [component.value] else [],
      [version], MatchAssignee(component, inputs.byArea), [], "Medium")
  }

  /** The Stories of a release: one per non-empty feature, in order. */
  function StoriesFor(features: seq<string>, version: string, inputs: PlanInputs): seq<PlannedTicket>
  {
    if features == [] then []
    else
      var init := StoriesFor(features[..|features| - 1], version, inputs);
      var text := features[|features| - 1];
      if text == [] then init else init + [StoryFor(text, version, inputs)]
  }

  function ReleaseFor(version: string, inputs: PlanInputs): PlannedRelease
  {
    PlannedRelease(version, "Release " + version, None, ReleaseDate(version, inputs.timeline),
      [EpicFor(version)] + StoriesFor(inputs.features, version, inputs))
  }

  /** A roadmap version is planned unless it is empty or already a Jira
      release. */
  predicate Planned(version: string, existing: set<string>)
  {
    version != [] && version !in existing
  }

  /** The planned releases of the first versions, in roadmap order. */
  function ReleasesFor(versions: seq<string>, inputs: PlanInputs): seq<PlannedRelease>
  {
    if versions == [] then []
    else
      var init := ReleasesFor(versions[..|versions| - 1], inputs);
      var v := versions[|versions| - 1];
      if Planned(v, inputs.existing) then init + [ReleaseFor(v, inputs)] else init
  }

  function NonEmpty(features: seq<string>): seq<string>
  {
    if features == [] then []
    else
      var init := NonEmpty(features[..|features| - 1]);
      if features[|features| - 1] == [] then init else init + [features[|features| - 1]]
  }

  /** `create_plan`: for each roadmap version that is planned, a release
      with its date from the timeline, its tracking Epic and one Story per
      non-empty feature; then the summary. */
  method CreatePlan(projectKey: string, inputs: PlanInputs) returns (plan: ReleasePlan)
    ensures plan.projectKey == projectKey
    ensures plan.releases == ReleasesFor(inputs.versions, inputs)
    ensures plan.summary == SummaryText(CountsOf(plan.releases))
  {
    var releases: seq<PlannedRelease> := [];
    for i := 0 to |inputs.versions|
      invariant releases == ReleasesFor(inputs.versions[..i], inputs)
    {
      var version := inputs.versions[i];
      assert inputs.versions[..i + 1][..i] == inputs.versions[..i];
      if version == [] || version in inputs.existing {
        continue;
      }
      var date := FindReleaseDate(version, inputs.timeline);
      var tickets := ReleaseTickets(version, inputs);
      releases := releases + [PlannedRelease(version, "Release " + version, None, date, tickets)];
    }
    assert inputs.versions[..|inputs.versions|] == inputs.versions;
    plan := ReleasePlan(projectKey, releases, SummaryText(CountsOf(releases)));
  }

  /** The timeline loop of `create_plan`, stopping at the first match. */
  method FindReleaseDate(version: string, timeline: seq<TimelineItem>) returns (date: Option<string>)
    ensures date == ReleaseDate(version, timeline)
  {
    date := None;
    var t := 0;
    while t < |timeline|
      invariant t <= |timeline|
      invariant ReleaseDate(version, timeline) == ReleaseDate(version, timeline[t..])
    {
      assert timeline[t..][1..] == timeline[t + 1..];
      if Contains(timeline[t].context, version) {
        return timeline[t].date;
      }
      t := t + 1;
    }
  }

  /** The feature loop of `create_plan`: the Epic, then the Stories. */
  method ReleaseTickets(version: string, inputs: PlanInputs) returns (tickets: seq<PlannedTicket>)
    ensures tickets == [EpicFor(version)] + StoriesFor(inputs.features, version, inputs)
  {
    tickets := [EpicFor(version)];
    for f := 0 to |inputs.features|
      invariant tickets == [EpicFor(version)] + StoriesFor(inputs.features[..f], version, inputs)
    {
      assert inputs.features[..f + 1][..f] == inputs.features[..f];
      var text := inputs.features[f];
      if text == [] {
        continue;
      }
      tickets := tickets + [StoryFor(text, version, inputs)];
    }
    assert inputs.features[..|inputs.features|] == inputs.features;
  }

  /** No planned release is named after an empty version or an existing
      Jira release, and every other roadmap version (repeats included)
      gives exactly one release, in roadmap order. */
  lemma {:induction false} ReleasesForSpec(versions: seq<string>, inputs: PlanInputs)
    ensures forall r :: r in ReleasesFor(versions, inputs) ==> Planned(r.name, inputs.existing)
    ensures |ReleasesFor(versions, inputs)| == |Kept(versions, inputs.existing)|
    ensures forall k :: 0 <= k < |ReleasesFor(versions, inputs)| ==>
      ReleasesFor(versions, inputs)[k] == ReleaseFor(Kept(versions, inputs.existing)[k], inputs)
  {
    if versions != [] {
      ReleasesForSpec(versions[..|versions| - 1], inputs);
    }
  }

  /** The planned versions, in order, repeats kept. */
  function Kept(versions: seq<string>, existing: set<string>): seq<string>
  {
    if versions == [] then []
    else
      var init := Kept(versions[..|versions| - 1], existing);
      if Planned(versions[|versions| - 1], existing) then init + [versions[|versions| - 1]] else init
  }

  /** The Stories are one per non-empty feature, in order: summary the
      first 100 characters, description the full text, fix version the
      release, component and assignee as matched. */
  lemma {:induction false} StoriesForSpec(features: seq<string>, version: string, inputs: PlanInputs)
    ensures |StoriesFor(features, version, inputs)| == |NonEmpty(features)|
    ensures forall k :: 0 <= k < |NonEmpty(features)| ==>
      var s := StoriesFor(features, version, inputs)[k];
      var text := NonEmpty(features)[k];
      s.issueType == "Story" && s.summary == Take(text, 100) && s.description == text
      && s.fixVersions == [version] && s.parentKey == None
      && s.assignee == MatchAssignee(MatchComponent(text, inputs.components), inputs.byArea)
      && var c := MatchComponent(text, inputs.components);
         s.components == (if c.Some? && c.value != [] then [c.value] else [])
  {
    if features != [] {
      StoriesForSpec(features[..|features| - 1], version, inputs);
    }
  }

  /** Every ticket of a release carries its version as the only fix
      version, and exactly the first one is the tracking Epic. */
  lemma ReleaseTicketsSpec(version: string, inputs: PlanInputs)
    ensures var ts := ReleaseFor(version, inputs).tickets;
      |ts| == 1 + |NonEmpty(inputs.features)|
      && ts[0].issueType == "Epic"
      && ts[0].summary == "Release " + version + " Implementation"
      && ts[0].description == "Epic for tracking all work in release " + version
      && ts[0].labels == ["release-tracking"] && ts[0].components == [] && ts[0].assignee == None
      && forall k :: 0 <= k < |ts| ==>
           ts[k].fixVersions == [version] && (k > 0 ==> ts[k].issueType == "Story")
  {
    StoriesForSpec(inputs.features, version, inputs);
    var ts := ReleaseFor(version, inputs).tickets;
    forall k | 0 < k < |ts| ensures ts[k].fixVersions == [version] && ts[k].issueType == "Story" {
      assert ts[k] == StoriesFor(inputs.features, version, inputs)[k - 1];
    }
  }

  // -----------------------------------------------------------------------
  // _generate_summary and ReleasePlan.to_dict
  // -----------------------------------------------------------------------

  datatype PlanCounts = PlanCounts(releases: nat, tickets: nat, epics: nat, stories: nat)

  function TicketsOf(releases: seq<PlannedRelease>): seq<PlannedTicket>
  {
    if releases == [] then [] else TicketsOf(releases[..|releases| - 1]) + releases[|releases| - 1].tickets
  }

  function CountType(tickets: seq<PlannedTicket>, issueType: string): (n: nat)
    ensures n <= |tickets|
  {
    if tickets == [] then 0
    else CountType(tickets[..|tickets| - 1], issueType) + (if tickets[|tickets| - 1].issueType == issueType then 1 else 0)
  }

  /** `sum(len(r.tickets) for r in releases)` */
  function TotalTickets(releases: seq<PlannedRelease>): nat
  {
    if releases == [] then 0 else TotalTickets(releases[..|releases| - 1]) + |releases[|releases| - 1].tickets|
  }

  function CountsOf(releases: seq<PlannedRelease>): PlanCounts
  {
    var all := TicketsOf(releases);
    PlanCounts(|releases|, TotalTickets(releases), CountType(all, "Epic"), CountType(all, "Story"))
  }

  /** Epics and Stories are disjoint, so together they never exceed the
      total; and the total is the number of tickets of all releases. */
  lemma {:induction false} CountsBounded(releases: seq<PlannedRelease>)
    ensures TotalTickets(releases) == |TicketsOf(releases)|
    ensures CountsOf(releases).epics + CountsOf(releases).stories <= CountsOf(releases).tickets
  {
    if releases != [] {
      CountsBounded(releases[..|releases| - 1]);
    }
    TypesDisjoint(TicketsOf(releases));
  }

  lemma {:induction false} TypesDisjoint(tickets: seq<PlannedTicket>)
    ensures CountType(tickets, "Epic") + CountType(tickets, "Story") <= |tickets|
  {
    if tickets != [] {
      TypesDisjoint(tickets[..|tickets| - 1]);
    }
  }

  /** Each planned release contributes exactly one Epic, and every other
      ticket of a plan is a Story: the total is Epics plus Stories, with
      one Epic per release. */
  lemma {:induction false} PlanCountsExact(versions: seq<string>, inputs: PlanInputs)
    ensures var c := CountsOf(ReleasesFor(versions, inputs));
      c.releases == |Kept(versions, inputs.existing)|
      && c.epics == c.releases && c.tickets == c.epics + c.stories
  {
    ReleasesForSpec(versions, inputs);
    CountsBounded(ReleasesFor(versions, inputs));
    if versions != [] {
      var init := versions[..|versions| - 1];
      PlanCountsExact(init, inputs);
      var v := versions[|versions| - 1];
      if Planned(v, inputs.existing) {
        var rs := ReleasesFor(init, inputs);
        CountsBounded(rs);
        AppendRelease(rs, ReleaseFor(v, inputs));
        ReleaseTypeCounts(v, inputs);
        ReleaseTicketsSpec(v, inputs);
      }
    }
  }

  /** One more release adds its tickets to the flat list. */
  lemma AppendRelease(rs: seq<PlannedRelease>, r: PlannedRelease)
    ensures TicketsOf(rs + [r]) == TicketsOf(rs) + r.tickets
    ensures forall t :: CountType(TicketsOf(rs + [r]), t) == CountType(TicketsOf(rs), t) + CountType(r.tickets, t)
  {
    assert (rs + [r])[..|rs|] == rs;
    forall t ensures CountType(TicketsOf(rs + [r]), t) == CountType(TicketsOf(rs), t) + CountType(r.tickets, t) {
      CountTypeAppend(TicketsOf(rs), r.tickets, t);
    }
  }

  lemma {:induction false} CountTypeAppend(a: seq<PlannedTicket>, b: seq<PlannedTicket>, t: string)
    ensures CountType(a + b, t) == CountType(a, t) + CountType(b, t)
    decreases |b|
  {
    if b != [] {
      CountTypeAppend(a, b[..|b| - 1], t);
      assert (a + b)[..|a + b| - 1] == a + b[..|b| - 1];
    } else {
      assert a + b == a;
    }
  }

  lemma ReleaseTypeCounts(version: string, inputs: PlanInputs)
    ensures CountType(ReleaseFor(version, inputs).tickets, "Epic") == 1
    ensures CountType(ReleaseFor(version, inputs).tickets, "Story") == |NonEmpty(inputs.features)|
  {
    var stories := StoriesFor(inputs.features, version, inputs);
    StoriesForSpec(inputs.features, version, inputs);
    StoryTypes(stories);
    CountTypeAppend([EpicFor(version)], stories, "Epic");
    CountTypeAppend([EpicFor(version)], stories, "Story");
    assert [EpicFor(version)][..0] == [];
  }

  lemma {:induction false} StoryTypes(stories: seq<PlannedTicket>)
    requires forall k :: 0 <= k < |stories| ==> stories[k].issueType == "Story"
    ensures CountType(stories, "Epic") == 0 && CountType(stories, "Story") == |stories|
  {
    if stories != [] {
      StoryTypes(stories[..|stories| - 1]);
    }
  }

  /** The text `_generate_summary` returns. */
  function SummaryText(c: PlanCounts): string
  {
    "Release Plan Summary:\n- " + (NatToString(c.releases) + (" releases to create\n- "
      + (NatToString(c.tickets) + (" total tickets\n- " + (NatToString(c.epics) + (" Epics\n- "
      + (NatToString(c.stories) + " Stories")))))))
  }

  /** The summary text reports the counts faithfully: two plans with the
      same summary have the same counts. */
  lemma SummaryTextInjective(c: PlanCounts, d: PlanCounts)
    requires SummaryText(c) == SummaryText(d)
    ensures c == d
  {
    var head := "Release Plan Summary:\n- ";
    var tc := SummaryText(c)[|head|..];
    var td := SummaryText(d)[|head|..];
    var s3, s2, s1 := " Epics\n- ", " total tickets\n- ", " releases to create\n- ";
    var c3, d3 := NatToString(c.stories) + " Stories", NatToString(d.stories) + " Stories";
    var c2, d2 := NatToString(c.epics) + (s3 + c3), NatToString(d.epics) + (s3 + d3);
    var c1, d1 := NatToString(c.tickets) + (s2 + c2), NatToString(d.tickets) + (s2 + d2);
    assert tc == NatToString(c.releases) + (s1 + c1);
    assert td == NatToString(d.releases) + (s1 + d1);
    NumberThenCancel(c.releases, d.releases, s1, c1, d1);
    NumberThenCancel(c.tickets, d.tickets, s2, c2, d2);
    NumberThenCancel(c.epics, d.epics, s3, c3, d3);
    DecimalPrefixCancel(c.stories, d.stories, " Stories", " Stories");
  }

  function TicketJson(t: PlannedTicket): Json
  {
    JObj(map[
      "key" := OptStr(t.key), "summary" := JStr(t.summary), "description" := JStr(t.description),
      "issue_type" := JStr(t.issueType), "parent_key" := OptStr(t.parentKey),
      "components" := StrList(t.components), "fix_versions" := StrList(t.fixVersions),
      "assignee" := OptStr(t.assignee), "labels" := StrList(t.labels), "priority" := JStr(t.priority)])
  }

  function OptStr(s: Option<string>): Json
  {
    if s.Some? then JStr(s.value) else JNull
  }

  function StrList(xs: seq<string>): (r: Json)
    ensures r.JList? && |r.items| == |xs|
  {
    JList(seq(|xs|, k requires 0 <= k < |xs| => JStr(xs[k])))
  }

  function ReleaseJson(r: PlannedRelease): Json
  {
    JObj(map[
      "name" := JStr(r.name), "description" := JStr(r.description),
      "start_date" := OptStr(r.startDate), "release_date" := OptStr(r.releaseDate),
      "tickets" := JList(seq(|r.tickets|, k requires 0 <= k < |r.tickets| => TicketJson(r.tickets[k])))])
  }

  /** `ReleasePlan.to_dict`: the releases with their tickets, the summary,
      and the two totals. */
  function PlanJson(p: ReleasePlan): (r: map<string, Json>)
    ensures "total_releases" in r && r["total_releases"] == JInt(|p.releases|)
    ensures "total_tickets" in r && r["total_tickets"] == JInt(|TicketsOf(p.releases)|)
    ensures "releases" in r && r["releases"].JList? && |r["releases"].items| == |p.releases|
  {
    CountsBounded(p.releases);
    map[
      "project_key" := JStr(p.projectKey),
      "releases" := JList(seq(|p.releases|, k requires 0 <= k < |p.releases| => ReleaseJson(p.releases[k]))),
      "summary" := JStr(p.summary),
      "total_releases" := JInt(|p.releases|),
      "total_tickets" := JInt(TotalTickets(p.releases))]
  }
}
