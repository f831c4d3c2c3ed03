/** The Jira analyst agent: the input its `run` accepts, the direct
    (LLM-free) project analysis with its error and summary accounting, and
    the per-release ticket grouping by type and by status. */
module JiraAnalyst {
  import opened Common
  import opened AgentBase

  // ---------------------------------------------------------------------
  // run
  // ---------------------------------------------------------------------

  /** What `run` may be handed: a project key, a parameter dict, or
      anything else. */
  datatype Input = KeyText(key: string) | Params(fields: map<string, Json>) | OtherInput

  const InvalidInput: string := "Invalid input: expected project key or dict"
  const NoProjectKey: string := "No project key provided"

  /** The project key and analysis scope `run` works with, or the error its
      response carries. `stored` is the key the agent was built with
      (`JNull` for none). */
  function ParseInput(input: Input, stored: Json): (r: Result<(Json, Json)>)
    ensures input.OtherInput? ==> r == Err(InvalidInput)
    ensures input.KeyText? ==> r == (if input.key == [] then Err(NoProjectKey) else Ok((JStr(input.key), JStr("full"))))
    ensures input.Params? ==> (r.Ok? <==> Truthy(Get(input.fields, "project_key", stored)))
    ensures input.Params? && r.Ok? ==>
              r.value.0 == Get(input.fields, "project_key", stored) && r.value.1 == Get(input.fields, "scope", JStr("full"))
    ensures input.Params? && r.Err? ==> r.msg == NoProjectKey
  {
    match input
    case KeyText(k) =>
      if k == [] then Err(NoProjectKey) else Ok((JStr(k), JStr("full")))
    case Params(fields) =>
      var key := Get(fields, "project_key", stored);
      if !Truthy(key) then Err(NoProjectKey) else Ok((key, Get(fields, "scope", JStr("full"))))
    case OtherInput => Err(InvalidInput)
  }

  /** A dict without a key falls back to the agent's own key, and a bare
      key behaves as a dict naming only that key. */
  lemma ParseInputDefaults(k: string, stored: Json)
    requires k != []
    ensures ParseInput(Params(map[]), stored) == (if Truthy(stored) then Ok((stored, JStr("full"))) else Err(NoProjectKey))
    ensures ParseInput(KeyText(k), stored) == ParseInput(Params(map["project_key" := JStr(k)]), stored)
  {
  }

  /** The instructions that follow the first line of the request. */
  const RequestSteps: string :=
    "\n\nPlease:\n1. Get project information\n2. List all releases/versions\n3. Get the component structure\n"
    + "4. Identify issue types and workflows\n5. Provide a summary of the current state\n\n"
    + "Focus on information relevant for release planning."

  /** The request `run` hands to the tool loop (`show` renders a value as
      an f-string does): a first line naming the project and the scope,
      then the fixed instructions. */
  function Request(key: Json, scope: Json, show: Json -> string): (r: string)
    ensures "Analyze the Jira project \"" <= r
    ensures 1 + |RequestSteps| <= |r| && r[|r| - 1 - |RequestSteps|..] == "." + RequestSteps
    ensures Contains(r, show(key)) && Contains(r, show(scope))
  {
    var post := "." + RequestSteps;
    var r := "Analyze the Jira project \"" + show(key) + "\" with scope: " + show(scope) + post;
    FilledTemplate("Analyze the Jira project \"", show(key), "\" with scope: ", show(scope), post);
    r
  }

  /** A three-part template filled with two values starts and ends with
      its fixed parts, and both values occur in it. */
  lemma FilledTemplate(pre: string, x: string, mid: string, y: string, post: string)
    ensures pre <= pre + x + mid + y + post
    ensures (pre + x + mid + y + post)[|pre + x + mid + y|..] == post
    ensures Contains(pre + x + mid + y + post, x) && Contains(pre + x + mid + y + post, y)
  {
    var r := pre + x + mid + y + post;
    assert r[|pre|..|pre| + |x|] == x;
    ContainsAt(r, x, |pre|);
    assert r[|pre + x + mid|..|pre + x + mid| + |y|] == y;
    ContainsAt(r, y, |pre + x + mid|);
  }

  /** `run`: a rejected input yields an error response without any LLM
      call; otherwise the request goes through the agent's tool loop. */
  method Run(agent: Agent, input: Input, stored: Json,
             chat: seq<LlmBase.Message> -> Step,
             call: (ToolBase.ToolDefinition, Json) -> ToolBase.CallOutcome,
             show: Json -> string)
    returns (r: AgentResponse)
    ensures ParseInput(input, stored).Err? ==> r == ErrorResponse(ParseInput(input, stored).msg, [], 0)
    ensures ParseInput(input, stored).Ok? && r.success ==> 1 <= r.iterations <= Max(agent.config.maxIterations, 0)
  {
    var parsed := ParseInput(input, stored);
    if parsed.Err? {
      return ErrorResponse(parsed.msg, [], 0);
    }
    ghost var calls;
    r, calls := agent.RunWithTools(Request(parsed.value.0, parsed.value.1, show), None, chat, call, show);
  }

  // ---------------------------------------------------------------------
  // analyze_project
  // ---------------------------------------------------------------------

  /** What the five Jira tool calls returned. A release is a dict. */
  datatype Fetched = Fetched(
    info: Result<Json>,
    releases: Result<seq<map<string, Json>>>,
    components: Result<seq<Json>>,
    workflows: Result<seq<Json>>,
    issueTypes: Result<seq<Json>>)

  datatype Summary = Summary(
    totalReleases: nat,
    unreleasedCount: nat,
    componentCount: nat,
    issueTypeCount: nat,
    hasErrors: bool)

  datatype Analysis = Analysis(
    projectKey: string,
    projectInfo: Json,
    releases: seq<map<string, Json>>,
    components: seq<Json>,
    workflows: seq<Json>,
    issueTypes: seq<Json>,
    errors: seq<string>,
    summary: Summary)

  predicate Released(r: map<string, Json>) { Truthy(Get(r, "released", JNull)) }

  /** The releases without a truthy `released` flag, in order. */
  function Unreleased(rs: seq<map<string, Json>>): (u: seq<map<string, Json>>)
    ensures |u| <= |rs|
  {
    if rs == [] then []
    else Unreleased(rs[..|rs| - 1]) + (if Released(rs[|rs| - 1]) then [] else [rs[|rs| - 1]])
  }

  /** The unreleased list holds exactly the releases not flagged as
      released. */
  lemma {:induction false} UnreleasedSpec(rs: seq<map<string, Json>>)
    ensures forall r :: r in Unreleased(rs) <==> r in rs && !Released(r)
  {
    if rs != [] {
      var init := rs[..|rs| - 1];
      UnreleasedSpec(init);
      assert rs == init + [rs[|rs| - 1]];
    }
  }

  /** The error line of one sub-call, labelled, when it failed. */
  function ErrorLine<T>(prefix: string, r: Result<T>): seq<string>
  {
    if r.Err? then [prefix + r.msg] else []
  }

  /** The errors `analyze_project` collects, in call order. */
  function ErrorLines(f: Fetched): seq<string>
  {
    ErrorLine("Project info: ", f.info) + ErrorLine("Releases: ", f.releases) + ErrorLine("Components: ", f.components)
    + ErrorLine("Workflows: ", f.workflows) + ErrorLine("Issue types: ", f.issueTypes)
  }

  function Failures(f: Fetched): nat
  {
    (if f.info.Err? then 1 else 0) + (if f.releases.Err? then 1 else 0) + (if f.components.Err? then 1 else 0)
    + (if f.workflows.Err? then 1 else 0) + (if f.issueTypes.Err? then 1 else 0)
  }

  /** One error per failed sub-call, and errors exist iff a call failed. */
  lemma ErrorLinesCount(f: Fetched)
    ensures |ErrorLines(f)| == Failures(f)
    ensures ErrorLines(f) != [] <==> Failures(f) > 0
  {
  }

  /** `analyze_project`: every field keeps its default unless its call
      succeeded, every failed call adds its labelled error, and the summary
      counts what was gathered. */
  method AnalyzeProject(key: string, f: Fetched) returns (a: Analysis)
    ensures a.projectKey == key
    ensures a.projectInfo == (if f.info.Ok? then f.info.value else JNull)
    ensures a.releases == (if f.releases.Ok? then f.releases.value else [])
    ensures a.components == (if f.components.Ok? then f.components.value else [])
    ensures a.workflows == (if f.workflows.Ok? then f.workflows.value else [])
    ensures a.issueTypes == (if f.issueTypes.Ok? then f.issueTypes.value else [])
    ensures a.errors == ErrorLines(f)
    ensures a.summary == Summary(|a.releases|, |Unreleased(a.releases)|, |a.components|, |a.issueTypes|, a.errors != [])
  {
    var info := JNull;
    var releases: seq<map<string, Json>> := [];
    var components: seq<Json> := [];
    var workflows: seq<Json> := [];
    var issueTypes: seq<Json> := [];
    var errors: seq<string> := [];

    if f.info.Ok? { info := f.info.value; } else { errors := errors + ["Project info: " + f.info.msg]; }
    assert errors == ErrorLine("Project info: ", f.info);
    if f.releases.Ok? { releases := f.releases.value; } else { errors := errors + ["Releases: " + f.releases.msg]; }
    assert errors == ErrorLine("Project info: ", f.info) + ErrorLine("Releases: ", f.releases);
    if f.components.Ok? { components := f.components.value; } else { errors := errors + ["Components: " + f.components.msg]; }
    assert errors == ErrorLine("Project info: ", f.info) + ErrorLine("Releases: ", f.releases) + ErrorLine("Components: ", f.components);
    if f.workflows.Ok? { workflows := f.workflows.value; } else { errors := errors + ["Workflows: " + f.workflows.msg]; }
    assert errors == ErrorLine("Project info: ", f.info) + ErrorLine("Releases: ", f.releases) + ErrorLine("Components: ", f.components)
                     + ErrorLine("Workflows: ", f.workflows);
    if f.issueTypes.Ok? { issueTypes := f.issueTypes.value; } else { errors := errors + ["Issue types: " + f.issueTypes.msg]; }

    var summary := Summary(|releases|, |Unreleased(releases)|, |components|, |issueTypes|, |errors| > 0);
    a := Analysis(key, info, releases, components, workflows, issueTypes, errors, summary);
  }

  // ---------------------------------------------------------------------
  // get_release_structure
  // ---------------------------------------------------------------------

  /** A release as `get_releases` lists it; `releaseDate` is `JNull` when
      the release has none. */
  datatype Release = Release(name: string, id: Json, releaseDate: Json)

  /** A ticket: its key and its other fields. */
  datatype Ticket = Ticket(key: Json, fields: map<string, Json>)

  function TypeOf(t: Ticket): Json { Get(t.fields, "type", JStr("Unknown")) }
  function StatusOf(t: Ticket): Json { Get(t.fields, "status", JStr("Unknown")) }

  /** Ticket keys grouped by a tag, each group in ticket order. */
  function Buckets(ts: seq<Ticket>, tag: Ticket -> Json): map<Json, seq<Json>>
  {
    if ts == [] then map[]
    else
      var b := Buckets(ts[..|ts| - 1], tag);
      var t := ts[|ts| - 1];
      Filed(b, tag(t), t.key)
  }

  /** The positions of the tickets carrying tag `k`, in order. */
  function Picks(ts: seq<Ticket>, tag: Ticket -> Json, k: Json): seq<nat>
  {
    if ts == [] then []
    else Picks(ts[..|ts| - 1], tag, k) + (if tag(ts[|ts| - 1]) == k then [|ts| - 1] else [])
  }

  /** The keys of the tickets at the given positions. */
  function KeysAt(ts: seq<Ticket>, ps: seq<nat>): seq<Json>
    requires forall j :: 0 <= j < |ps| ==> ps[j] < |ts|
  {
    seq(|ps|, j requires 0 <= j < |ps| => ts[ps[j]].key)
  }

  /** Each ticket position is picked for its own tag and no other, once,
      in increasing order. */
  lemma {:induction false} PicksSpec(ts: seq<Ticket>, tag: Ticket -> Json, k: Json)
    ensures forall j :: 0 <= j < |Picks(ts, tag, k)| ==> Picks(ts, tag, k)[j] < |ts|
    ensures forall i: nat :: i in Picks(ts, tag, k) <==> i < |ts| && tag(ts[i]) == k
    ensures forall j1, j2 :: 0 <= j1 < j2 < |Picks(ts, tag, k)| ==> Picks(ts, tag, k)[j1] < Picks(ts, tag, k)[j2]
  {
    if ts != [] {
      var init := ts[..|ts| - 1];
      PicksSpec(init, tag, k);
      assert forall i :: 0 <= i < |init| ==> init[i] == ts[i];
    }
  }

  lemma KeysAtAppend(ts: seq<Ticket>, ps: seq<nat>, n: nat)
    requires forall j :: 0 <= j < |ps| ==> ps[j] < |ts|
    requires n < |ts|
    ensures KeysAt(ts, ps + [n]) == KeysAt(ts, ps) + [ts[n].key]
  {
  }

  lemma KeysAtInit(ts: seq<Ticket>, ps: seq<nat>)
    requires ts != []
    requires forall j :: 0 <= j < |ps| ==> ps[j] < |ts| - 1
    ensures KeysAt(ts, ps) == KeysAt(ts[..|ts| - 1], ps)
  {
  }

  /** The groups are exactly the tags that occur, and the group of a tag
      lists the keys of the tickets carrying it, in ticket order. */
  lemma {:induction false} BucketsSpec(ts: seq<Ticket>, tag: Ticket -> Json, k: Json)
    ensures k in Buckets(ts, tag) <==> Picks(ts, tag, k) != []
    ensures forall j :: 0 <= j < |Picks(ts, tag, k)| ==> Picks(ts, tag, k)[j] < |ts|
    ensures k in Buckets(ts, tag) ==> Buckets(ts, tag)[k] == KeysAt(ts, Picks(ts, tag, k))
  {
    PicksSpec(ts, tag, k);
    if ts != [] {
      var init := ts[..|ts| - 1];
      var last := ts[|ts| - 1];
      BucketsSpec(init, tag, k);
      var p := Picks(init, tag, k);
      var b := Buckets(init, tag);
      if k in b {
        KeysAtInit(ts, p);
      }
      if tag(last) == k {
        KeysAtAppend(ts, p, |ts| - 1);
        assert Picks(ts, tag, k) == p + [|ts| - 1];
        assert (k in b ==> KeysAt(ts, p) == b[k]) && (k !in b ==> p == []);
      } else {
        assert Picks(ts, tag, k) == p;
      }
    }
  }

  /** `by_type`/`by_status` as the ticket loop builds them. */
  method GroupTickets(ts: seq<Ticket>) returns (byType: map<Json, seq<Json>>, byStatus: map<Json, seq<Json>>)
    ensures byType == Buckets(ts, TypeOf) && byStatus == Buckets(ts, StatusOf)
  {
    byType, byStatus := map[], map[];
    var i := 0;
    while i < |ts|
      invariant 0 <= i <= |ts|
      invariant byType == Buckets(ts[..i], TypeOf) && byStatus == Buckets(ts[..i], StatusOf)
    {
      var t := ts[i];
      BucketsStep(ts, i, TypeOf);
      BucketsStep(ts, i, StatusOf);
      byType := File(byType, Get(t.fields, "type", JStr("Unknown")), t.key);
      byStatus := File(byStatus, Get(t.fields, "status", JStr("Unknown")), t.key);
      i := i + 1;
    }
    assert ts[..|ts|] == ts;
  }

  /** The groups after one more ticket. */
  function Filed(b: map<Json, seq<Json>>, k: Json, key: Json): map<Json, seq<Json>>
  {
    b[k := (if k in b then b[k] else []) + [key]]
  }

  lemma BucketsStep(ts: seq<Ticket>, i: nat, tag: Ticket -> Json)
    requires i < |ts|
    ensures Buckets(ts[..i + 1], tag) == Filed(Buckets(ts[..i], tag), tag(ts[i]), ts[i].key)
  {
    assert ts[..i + 1][..i] == ts[..i];
  }

  /** One step of the ticket loop: the group of `k` is created when new,
      then the key appended to it. */
  method File(b: map<Json, seq<Json>>, k: Json, key: Json) returns (b': map<Json, seq<Json>>)
    ensures b' == Filed(b, k, key)
  {
    b' := b;
    if k !in b' {
      b' := b'[k := []];
    }
    b' := b'[k := b'[k] + [key]];
  }

  datatype ReleaseData = ReleaseData(
    name: string,
    id: Json,
    releaseDate: Json,
    tickets: seq<Ticket>,
    ticketCount: nat,
    byType: map<Json, seq<Json>>,
    byStatus: map<Json, seq<Json>>)

  /** The entry of one release: when its tickets were fetched, the tickets,
      their number and their groupings; otherwise the empty defaults. */
  function ReleaseDataOf(r: Release, fetched: Result<seq<Ticket>>): ReleaseData
  {
    if fetched.Ok? then
      ReleaseData(r.name, r.id, r.releaseDate, fetched.value, |fetched.value|,
                  Buckets(fetched.value, TypeOf), Buckets(fetched.value, StatusOf))
    else ReleaseData(r.name, r.id, r.releaseDate, [], 0, map[], map[])
  }

  /** Every release entry counts its tickets and files each ticket under
      its own type and its own status (`Unknown` when missing) and nowhere
      else. */
  lemma ReleaseDataSpec(r: Release, fetched: Result<seq<Ticket>>, i: nat, k: Json)
    requires fetched.Ok? && i < |fetched.value|
    ensures ReleaseDataOf(r, fetched).ticketCount == |ReleaseDataOf(r, fetched).tickets|
    ensures TypeOf(fetched.value[i]) in ReleaseDataOf(r, fetched).byType
    ensures StatusOf(fetched.value[i]) in ReleaseDataOf(r, fetched).byStatus
    ensures i in Picks(fetched.value, TypeOf, k) <==> k == TypeOf(fetched.value[i])
    ensures i in Picks(fetched.value, StatusOf, k) <==> k == StatusOf(fetched.value[i])
  {
    var ts := fetched.value;
    PicksSpec(ts, TypeOf, k);
    PicksSpec(ts, StatusOf, k);
    PicksSpec(ts, TypeOf, TypeOf(ts[i]));
    PicksSpec(ts, StatusOf, StatusOf(ts[i]));
    BucketsSpec(ts, TypeOf, TypeOf(ts[i]));
    BucketsSpec(ts, StatusOf, StatusOf(ts[i]));
  }

  datatype Structure = StructureFailed(error: string) | Structure(projectKey: string, releases: seq<ReleaseData>)

  /** `get_release_structure`: a failed release listing yields only the
      error; otherwise one entry per release, in order. `fetch` stands for
      `get_release_tickets` on a release name. */
  method GetReleaseStructure(key: string, releases: Result<seq<Release>>, fetch: string -> Result<seq<Ticket>>)
    returns (s: Structure)
    ensures releases.Err? <==> s.StructureFailed?
    ensures releases.Err? ==> s.error == releases.msg
    ensures releases.Ok? ==> s.projectKey == key && |s.releases| == |releases.value|
    ensures releases.Ok? ==> forall i :: 0 <= i < |releases.value| ==>
              s.releases[i] == ReleaseDataOf(releases.value[i], fetch(releases.value[i].name))
  {
    if releases.Err? {
      return StructureFailed(releases.msg);
    }
    var rs := releases.value;
    var out: seq<ReleaseData> := [];
    var i := 0;
    while i < |rs|
      invariant 0 <= i <= |rs|
      invariant |out| == i
      invariant forall j :: 0 <= j < i ==> out[j] == ReleaseDataOf(rs[j], fetch(rs[j].name))
    {
      var rel := rs[i];
      var fetched := fetch(rel.name);
      var data := ReleaseData(rel.name, rel.id, rel.releaseDate, [], 0, map[], map[]);
      if fetched.Ok? {
        var byType, byStatus := GroupTickets(fetched.value);
        data := ReleaseData(rel.name, rel.id, rel.releaseDate, fetched.value, |fetched.value|, byType, byStatus);
      }
      out := out + [data];
      i := i + 1;
    }
    s := Structure(key, out);
  }
}
