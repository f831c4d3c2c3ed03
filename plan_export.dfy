/** The feature-plan export of `tools/plan_export_tools.py`: a plan of
    epics and stories becomes rows in the Jira CSV column vocabulary, and
    those rows are written in a flat or an indented layout. */
module PlanExport {
  import opened Common

  /** A CSV row: column name to cell text. */
  type Row = map<string, string>

  /** The base columns, in the order the Jira dump writes them. */
  const BaseFields: seq<string> :=
    ["key", "project", "issue_type", "status", "priority", "summary", "assignee", "reporter",
     "created", "updated", "resolved", "fix_version", "affects_version", "component", "customer"]

  // -----------------------------------------------------------------------
  // The plan
  // -----------------------------------------------------------------------

  /** A story of the plan. Text fields that are missing (or, for key and
      assignee, null) read as empty text; list fields that are missing or
      null read as empty lists. */
  datatype Story = Story(key: string, summary: string, assignee: string, complexity: string,
                         confidence: string, labels: seq<string>, acceptanceCriteria: seq<string>,
                         dependencies: seq<string>, components: seq<string>, description: string)

  datatype Epic = Epic(key: string, summary: string, components: seq<string>, labels: seq<string>,
                       description: string, stories: seq<Story>)

  datatype Plan = Plan(projectKey: string, epics: seq<Epic>)

  /** A row of `plan_json_to_rows`. The columns it always leaves empty
      (status, priority, reporter, dates, versions, customer) are not
      stored; `description` is present only on request. */
  datatype PlanRow = PlanRow(issueType: string, key: string, project: string, summary: string,
                             assignee: string, component: string, depth: string, complexity: string,
                             confidence: string, labels: string, acceptanceCriteria: string,
                             dependencies: string, parentEpic: string, description: Option<string>)

  /** List fields are joined with "; ". */
  function JoinList(items: seq<string>): string { Join(items, "; ") }

  function EpicRow(projectKey: string, e: Epic, withDescription: bool): PlanRow
  {
    PlanRow("Epic", e.key, projectKey, e.summary, "", JoinList(e.components), "0", "", "",
            JoinList(e.labels), "", "", "", if withDescription then Some(e.description) else None)
  }

  function StoryRow(projectKey: string, e: Epic, s: Story, withDescription: bool): PlanRow
  {
    PlanRow("Story", s.key, projectKey, s.summary, s.assignee, JoinList(s.components), "1",
            s.complexity, s.confidence, JoinList(s.labels), JoinList(s.acceptanceCriteria),
            JoinList(s.dependencies), e.summary, if withDescription then Some(s.description) else None)
  }

  /** The rows of the first stories of epic `e`. */
  function StoryRows(projectKey: string, e: Epic, stories: seq<Story>, withDescription: bool): (r: seq<PlanRow>)
    ensures |r| == |stories|
  {
    if stories == [] then []
    else StoryRows(projectKey, e, stories[..|stories| - 1], withDescription)
         + [StoryRow(projectKey, e, stories[|stories| - 1], withDescription)]
  }

  /** `plan_json_to_rows`: each epic's row, then its stories' rows. */
  function PlanRows(projectKey: string, epics: seq<Epic>, withDescription: bool): seq<PlanRow>
  {
    if epics == [] then []
    else
      var e := epics[|epics| - 1];
      PlanRows(projectKey, epics[..|epics| - 1], withDescription)
      + [EpicRow(projectKey, e, withDescription)] + StoryRows(projectKey, e, e.stories, withDescription)
  }

  /** Rows of the first epics: one per epic and one per story. */
  function RowCount(epics: seq<Epic>): nat
  {
    if epics == [] then 0 else RowCount(epics[..|epics| - 1]) + 1 + |epics[|epics| - 1].stories|
  }

  function StoryCount(epics: seq<Epic>): nat
  {
    if epics == [] then 0 else StoryCount(epics[..|epics| - 1]) + |epics[|epics| - 1].stories|
  }

  /** The loop of `plan_json_to_rows`. */
  method PlanJsonToRows(plan: Plan, withDescription: bool) returns (rows: seq<PlanRow>)
    ensures rows == PlanRows(plan.projectKey, plan.epics, withDescription)
  {
    rows := [];
    var epics := plan.epics;
    for i := 0 to |epics|
      invariant rows == PlanRows(plan.projectKey, epics[..i], withDescription)
    {
      assert epics[..i + 1][..i] == epics[..i];
      var e := epics[i];
      rows := rows + [EpicRow(plan.projectKey, e, withDescription)];
      rows := AppendStoryRows(rows, plan.projectKey, e, withDescription);
    }
    assert epics[..|epics|] == epics;
  }

  /** The inner loop of `plan_json_to_rows`: one row per story of `e`. */
  method AppendStoryRows(before: seq<PlanRow>, projectKey: string, e: Epic, withDescription: bool)
    returns (rows: seq<PlanRow>)
    ensures rows == before + StoryRows(projectKey, e, e.stories, withDescription)
  {
    rows := before;
    for k := 0 to |e.stories|
      invariant rows == before + StoryRows(projectKey, e, e.stories[..k], withDescription)
    {
      assert e.stories[..k + 1][..k] == e.stories[..k];
      rows := rows + [StoryRow(projectKey, e, e.stories[k], withDescription)];
    }
    assert e.stories[..|e.stories|] == e.stories;
  }

  /** The row count is the number of epics plus the number of stories. */
  lemma {:induction false} PlanRowsLength(projectKey: string, epics: seq<Epic>, withDescription: bool)
    ensures |PlanRows(projectKey, epics, withDescription)| == RowCount(epics)
    ensures RowCount(epics) == |epics| + StoryCount(epics)
  {
    if epics != [] {
      PlanRowsLength(projectKey, epics[..|epics| - 1], withDescription);
    }
  }

  /** Rows are built epic by epic: the rows of the first epics are a prefix. */
  lemma {:induction false} PlanRowsPrefix(projectKey: string, epics: seq<Epic>, withDescription: bool, i: nat)
    requires i <= |epics|
    ensures RowCount(epics[..i]) <= |PlanRows(projectKey, epics, withDescription)|
    ensures PlanRows(projectKey, epics, withDescription)[..RowCount(epics[..i])] == PlanRows(projectKey, epics[..i], withDescription)
  {
    if i == |epics| {
      assert epics[..i] == epics;
      PlanRowsLength(projectKey, epics, withDescription);
    } else {
      var init := epics[..|epics| - 1];
      PlanRowsPrefix(projectKey, init, withDescription, i);
      assert init[..i] == epics[..i];
      PlanRowsLength(projectKey, init, withDescription);
    }
  }

  /** Epic i's row sits at the count of the rows before it, and its k-th
      story's row follows at offset 1 + k. */
  lemma PlanRowsLayout(projectKey: string, epics: seq<Epic>, withDescription: bool, i: nat, k: nat)
    requires i < |epics|
    ensures RowCount(epics[..i]) < |PlanRows(projectKey, epics, withDescription)|
    ensures PlanRows(projectKey, epics, withDescription)[RowCount(epics[..i])] == EpicRow(projectKey, epics[i], withDescription)
    ensures k < |epics[i].stories| ==>
      RowCount(epics[..i]) + 1 + k < |PlanRows(projectKey, epics, withDescription)|
      && PlanRows(projectKey, epics, withDescription)[RowCount(epics[..i]) + 1 + k]
         == StoryRow(projectKey, epics[i], epics[i].stories[k], withDescription)
  {
    PlanRowsEpicAt(projectKey, epics, withDescription, i);
    if k < |epics[i].stories| {
      PlanRowsStoryAt(projectKey, epics, withDescription, i, k);
    }
  }

  lemma PlanRowsEpicAt(projectKey: string, epics: seq<Epic>, withDescription: bool, i: nat)
    requires i < |epics|
    ensures RowCount(epics[..i]) < |PlanRows(projectKey, epics, withDescription)|
    ensures PlanRows(projectKey, epics, withDescription)[RowCount(epics[..i])] == EpicRow(projectKey, epics[i], withDescription)
  {
    var e := epics[i];
    PlanRowsPrefix(projectKey, epics, withDescription, i + 1);
    PlanRowsSnoc(projectKey, epics, withDescription, i);
    PrefixAt(PlanRows(projectKey, epics, withDescription), RowCount(epics[..i + 1]),
             PlanRows(projectKey, epics[..i], withDescription), EpicRow(projectKey, e, withDescription),
             StoryRows(projectKey, e, e.stories, withDescription), 0);
  }

  lemma PlanRowsStoryAt(projectKey: string, epics: seq<Epic>, withDescription: bool, i: nat, k: nat)
    requires i < |epics| && k < |epics[i].stories|
    ensures RowCount(epics[..i]) + 1 + k < |PlanRows(projectKey, epics, withDescription)|
    ensures PlanRows(projectKey, epics, withDescription)[RowCount(epics[..i]) + 1 + k]
            == StoryRow(projectKey, epics[i], epics[i].stories[k], withDescription)
  {
    var e := epics[i];
    var rows := PlanRows(projectKey, epics, withDescription);
    var before := PlanRows(projectKey, epics[..i], withDescription);
    var tail := StoryRows(projectKey, e, e.stories, withDescription);
    PlanRowsPrefix(projectKey, epics, withDescription, i + 1);
    PlanRowsSnoc(projectKey, epics, withDescription, i);
    PrefixAt(rows, RowCount(epics[..i + 1]), before, EpicRow(projectKey, e, withDescription), tail, k);
    StoryRowsAt(projectKey, e, e.stories, withDescription, k);
    assert rows[|before| + 1 + k] == tail[k];
  }

  /** The rows of the first i + 1 epics: those of the first i, then epic
      i's row and its stories' rows. */
  lemma PlanRowsSnoc(projectKey: string, epics: seq<Epic>, withDescription: bool, i: nat)
    requires i < |epics|
    ensures |PlanRows(projectKey, epics[..i], withDescription)| == RowCount(epics[..i])
    ensures PlanRows(projectKey, epics[..i + 1], withDescription)
            == PlanRows(projectKey, epics[..i], withDescription) + [EpicRow(projectKey, epics[i], withDescription)]
               + StoryRows(projectKey, epics[i], epics[i].stories, withDescription)
  {
    assert epics[..i + 1][..i] == epics[..i];
    assert epics[..i + 1][i] == epics[i];
    PlanRowsLength(projectKey, epics[..i], withDescription);
  }

  /** A sequence that starts with `p + [x] + tail` holds `x` right after `p`
      and then the elements of `tail`. */
  lemma PrefixAt<T>(rows: seq<T>, n: nat, p: seq<T>, x: T, tail: seq<T>, k: nat)
    requires n <= |rows| && rows[..n] == p + [x] + tail
    ensures |p| < |rows| && rows[|p|] == x
    ensures k < |tail| ==> |p| + 1 + k < |rows| && rows[|p| + 1 + k] == tail[k]
  {
    assert rows[|p|] == rows[..n][|p|];
    if k < |tail| {
      assert rows[|p| + 1 + k] == rows[..n][|p| + 1 + k];
    }
  }

  lemma {:induction false} StoryRowsAt(projectKey: string, e: Epic, stories: seq<Story>, withDescription: bool, k: nat)
    requires k < |stories|
    ensures StoryRows(projectKey, e, stories, withDescription)[k] == StoryRow(projectKey, e, stories[k], withDescription)
  {
    if k < |stories| - 1 {
      StoryRowsAt(projectKey, e, stories[..|stories| - 1], withDescription, k);
    }
  }

  /** Rows of the given issue type. */
  function CountType(rows: seq<PlanRow>, t: string): nat
  {
    if rows == [] then 0 else CountType(rows[..|rows| - 1], t) + (if rows[|rows| - 1].issueType == t then 1 else 0)
  }

  lemma CountTypeAppend(a: seq<PlanRow>, b: seq<PlanRow>, t: string)
    ensures CountType(a + b, t) == CountType(a, t) + CountType(b, t)
    decreases |b|
  {
    if b != [] {
      CountTypeAppend(a, b[..|b| - 1], t);
      assert (a + b)[..|a + b| - 1] == a + b[..|b| - 1];
    } else {
      assert a + b == a;
    }
  }

  lemma {:induction false} StoryRowsTypes(projectKey: string, e: Epic, stories: seq<Story>, withDescription: bool)
    ensures CountType(StoryRows(projectKey, e, stories, withDescription), "Story") == |stories|
    ensures CountType(StoryRows(projectKey, e, stories, withDescription), "Epic") == 0
  {
    if stories != [] {
      StoryRowsTypes(projectKey, e, stories[..|stories| - 1], withDescription);
    }
  }

  /** There are as many Epic rows as epics and as many Story rows as
      stories: the counts the export reports. */
  lemma {:induction false} PlanRowsTypes(projectKey: string, epics: seq<Epic>, withDescription: bool)
    ensures CountType(PlanRows(projectKey, epics, withDescription), "Epic") == |epics|
    ensures CountType(PlanRows(projectKey, epics, withDescription), "Story") == StoryCount(epics)
  {
    if epics != [] {
      var e := epics[|epics| - 1];
      var prev := PlanRows(projectKey, epics[..|epics| - 1], withDescription);
      var stories := StoryRows(projectKey, e, e.stories, withDescription);
      PlanRowsTypes(projectKey, epics[..|epics| - 1], withDescription);
      StoryRowsTypes(projectKey, e, e.stories, withDescription);
      CountTypeAppend(prev, [EpicRow(projectKey, e, withDescription)], "Epic");
      CountTypeAppend(prev, [EpicRow(projectKey, e, withDescription)], "Story");
      CountTypeAppend(prev + [EpicRow(projectKey, e, withDescription)], stories, "Epic");
      CountTypeAppend(prev + [EpicRow(projectKey, e, withDescription)], stories, "Story");
    }
  }

  /** The row as the dictionary the writers receive. */
  function Fields(r: PlanRow): Row
  {
    var base := map["key" := r.key, "project" := r.project, "issue_type" := r.issueType, "status" := "",
                    "priority" := "", "summary" := r.summary, "assignee" := r.assignee, "reporter" := "",
                    "created" := "", "updated" := "", "resolved" := "", "fix_version" := "",
                    "affects_version" := "", "component" := r.component, "customer" := "",
                    "depth" := r.depth, "complexity" := r.complexity, "confidence" := r.confidence,
                    "labels" := r.labels, "acceptance_criteria" := r.acceptanceCriteria,
                    "dependencies" := r.dependencies, "parent_epic" := r.parentEpic];
    if r.description.Some? then base["description" := r.description.value] else base
  }

  // -----------------------------------------------------------------------
  // _resolve_output_path
  // -----------------------------------------------------------------------

  /** An explicit output path wins; otherwise the input path with its
      extension replaced by `.csv` (format "csv") or `.xlsx`. */
  function ResolveOutputPath(inputPath: string, outputPath: string, fmt: string): string
  {
    if outputPath != "" then outputPath
    else
      var base := SplitExt(inputPath).0;
      if fmt == "csv" then base + ".csv" else base + ".xlsx"
  }

  lemma ResolveOutputPathSpec(inputPath: string, outputPath: string, fmt: string)
    ensures outputPath != "" ==> ResolveOutputPath(inputPath, outputPath, fmt) == outputPath
    ensures outputPath == "" && fmt == "csv" ==> EndsWith(ResolveOutputPath(inputPath, outputPath, fmt), ".csv")
    ensures outputPath == "" && fmt != "csv" ==> EndsWith(ResolveOutputPath(inputPath, outputPath, fmt), ".xlsx")
    ensures outputPath == "" ==> StartsWith(ResolveOutputPath(inputPath, outputPath, fmt), SplitExt(inputPath).0)
  {
    var base := SplitExt(inputPath).0;
    assert (base + ".csv")[..|base|] == base;
    assert (base + ".xlsx")[..|base|] == base;
    assert (base + ".csv")[|base + ".csv"| - 4..] == ".csv";
    assert (base + ".xlsx")[|base + ".xlsx"| - 5..] == ".xlsx";
  }

  /** `plan.json` gives `plan.csv` and `plan.xlsx`. */
  lemma ResolveReplacesExtension(name: string, ext: string)
    requires name != [] && '.' !in name && '/' !in name && '.' !in ext && '/' !in ext
    ensures ResolveOutputPath(name + "." + ext, "", "csv") == name + ".csv"
    ensures ResolveOutputPath(name + "." + ext, "", "excel") == name + ".xlsx"
  {
    SplitExtOf(name, ext);
  }

  // -----------------------------------------------------------------------
  // write_plan_csv
  // -----------------------------------------------------------------------

  /** What the CSV writer writes: the header row and the data rows. */
  datatype CsvTable = CsvTable(header: seq<string>, body: seq<seq<string>>)

  /** `r.get(c, '')` */
  function GetOr(r: Row, c: string): string { if c in r then r[c] else "" }

  /** The column names of the rows outside the base columns. */
  function ExtraKeys(rows: seq<Row>): set<string>
  {
    if rows == [] then {} else ExtraKeys(rows[..|rows| - 1]) + (rows[|rows| - 1].Keys - SetOf(BaseFields))
  }

  lemma {:induction false} ExtraKeysSpec(rows: seq<Row>, k: string)
    ensures k in ExtraKeys(rows) <==> k !in BaseFields && exists i :: 0 <= i < |rows| && k in rows[i]
  {
    if rows != [] {
      var init := rows[..|rows| - 1];
      ExtraKeysSpec(init, k);
      if exists i :: 0 <= i < |rows| && k in rows[i] {
        var i :| 0 <= i < |rows| && k in rows[i];
        if i < |init| {
          assert k in init[i];
        }
      }
      if exists i :: 0 <= i < |init| && k in init[i] {
        var i :| 0 <= i < |init| && k in init[i];
        assert k in rows[i];
      }
    }
  }

  /** The flat layout's columns: the base columns, then every other column
      name in ascending order. */
  ghost function FlatColumns(rows: seq<Row>): seq<string>
  {
    BaseFields + SortedOf(ExtraKeys(rows))
  }

  /** `r.setdefault(c, '')` for each column in turn. */
  function Pad(r: Row, cols: seq<string>): Row
  {
    if cols == [] then r
    else
      var p := Pad(r, cols[..|cols| - 1]);
      var c := cols[|cols| - 1];
      if c in p then p else p[c := ""]
  }

  /** Padding keeps every existing cell and adds exactly the missing
      columns, empty. */
  lemma {:induction false} PadSpec(r: Row, cols: seq<string>)
    ensures Pad(r, cols).Keys == r.Keys + SetOf(cols)
    ensures forall c :: c in r ==> Pad(r, cols)[c] == r[c]
    ensures forall c :: c in Pad(r, cols) && c !in r ==> Pad(r, cols)[c] == ""
  {
    if cols != [] {
      PadSpec(r, cols[..|cols| - 1]);
      assert SetOf(cols) == SetOf(cols[..|cols| - 1]) + {cols[|cols| - 1]};
    }
  }

  function PadAll(rows: seq<Row>, cols: seq<string>): (r: seq<Row>)
    ensures |r| == |rows|
  {
    seq(|rows|, i requires 0 <= i < |rows| => Pad(rows[i], cols))
  }

  /** `csv.DictWriter.writerow` for a row whose keys are all columns: the
      row's value under each column, '' where it has none. */
  function Cells(cols: seq<string>, r: Row): (c: seq<string>)
    ensures |c| == |cols|
  {
    seq(|cols|, j requires 0 <= j < |cols| => GetOr(r, cols[j]))
  }

  function Body(rows: seq<Row>, cols: seq<string>): (b: seq<seq<string>>)
    ensures |b| == |rows|
  {
    seq(|rows|, i requires 0 <= i < |rows| => Cells(cols, rows[i]))
  }

  /** `r.get('depth')` is truthy. */
  predicate HasDepth(r: Row) { "depth" in r && r["depth"] != "" }

  predicate AnyDepth(rows: seq<Row>)
  {
    exists i :: 0 <= i < |rows| && HasDepth(rows[i])
  }

  /** `int(r.get('depth', 0))`; None where that raises. */
  function ParsedDepth(r: Row): Option<int>
  {
    ParseInt(if "depth" in r then Some(r["depth"]) else None)
  }

  /** A row's depth, 0 when it cannot be read. */
  function DepthOf(r: Row): int
  {
    var p := ParsedDepth(r);
    if p.Some? then p.value else 0
  }

  /** The largest depth of the rows, at least 0. */
  function MaxDepth(rows: seq<Row>): nat
  {
    if rows == [] then 0
    else
      var m := MaxDepth(rows[..|rows| - 1]);
      var d := DepthOf(rows[|rows| - 1]);
      if d > m then d else m
  }

  /** Every row's depth is at most the maximum, which some row reaches
      unless it is 0. */
  lemma {:induction false} MaxDepthSpec(rows: seq<Row>)
    ensures forall i :: 0 <= i < |rows| ==> DepthOf(rows[i]) <= MaxDepth(rows)
    ensures MaxDepth(rows) == 0 || exists i :: 0 <= i < |rows| && DepthOf(rows[i]) == MaxDepth(rows)
  {
    if rows != [] {
      var init := rows[..|rows| - 1];
      MaxDepthSpec(init);
      assert forall i :: 0 <= i < |init| ==> init[i] == rows[i];
    }
  }

  /** The name of the column for depth d: `Depth {d}`. */
  function DepthColumn(d: int): string
  {
    "Depth " + IntToString(d)
  }

  /** Python's `str(d)` for an integer. */
  function IntToString(d: int): string
  {
    if d >= 0 then NatToString(d) else "-" + NatToString(-d)
  }

  /** Parsing the decimal text of an integer gives the integer back. */
  lemma IntToStringRoundTrip(d: int)
    ensures ParseInt(Some(IntToString(d))) == Some(d)
  {
    if d >= 0 {
      ParseIntRoundTrip(d);
    } else {
      ParseIntRoundTrip(-d);
    }
  }

  function DepthColumns(n: nat): (r: seq<string>)
    ensures |r| == n && forall i :: 0 <= i < n ==> r[i] == DepthColumn(i)
  {
    seq(n, i requires 0 <= i < n => DepthColumn(i))
  }

  /** `s` without the occurrences of `x`, in order. */
  function Without(s: seq<string>, x: string): (r: seq<string>)
    ensures SetOf(r) == SetOf(s) - {x}
  {
    if s == [] then []
    else
      var init := Without(s[..|s| - 1], x);
      assert SetOf(s) == SetOf(s[..|s| - 1]) + {s[|s| - 1]};
      if s[|s| - 1] == x then init
      else
        assert SetOf(init + [s[|s| - 1]]) == SetOf(init) + {s[|s| - 1]};
        init + [s[|s| - 1]]
  }

  /** Removing an absent name changes nothing. */
  lemma {:induction false} WithoutAbsent(s: seq<string>, x: string)
    requires x !in s
    ensures Without(s, x) == s
  {
    if s != [] {
      WithoutAbsent(s[..|s| - 1], x);
      assert s[..|s| - 1] + [s[|s| - 1]] == s;
    }
  }

  lemma {:induction false} WithoutFirst(s: seq<string>, x: string)
    requires s != [] && s[0] == x
    ensures Without(s, x) == Without(s[1..], x)
  {
    if |s| > 1 {
      WithoutFirst(s[..|s| - 1], x);
      assert s[..|s| - 1][1..] == s[1..][..|s[1..]| - 1];
    } else {
      assert s[1..] == [];
    }
  }

  /** The base columns other than `key` (`key` is the first base column). */
  function ContentFields(): (r: seq<string>)
    ensures SetOf(r) == SetOf(BaseFields) - {"key"}
  {
    assert BaseFields == ["key"] + BaseFields[1..];
    ContentFieldsFilter();
    BaseFields[1..]
  }

  lemma ContentFieldsFilter()
    ensures Without(BaseFields, "key") == BaseFields[1..]
  {
    WithoutAbsent(BaseFields[1..], "key");
    WithoutFirst(BaseFields, "key");
  }

  /** A row's entry in its depth column: its key, else its summary. */
  function Label(r: Row): string
  {
    if GetOr(r, "key") != "" then r["key"] else GetOr(r, "summary")
  }

  /** The indented row: every depth column empty, then the label in the
      row's own depth column, then the content fields and the extras, in
      that order of assignment. */
  function NewRow(r: Row, depthCols: seq<string>, extras: seq<string>): Row
  {
    Blank(depthCols)[DepthColumn(DepthOf(r)) := Label(r)] + Copied(r, ContentFields()) + Copied(r, extras)
  }

  /** Every column of `cols`, empty. */
  function Blank(cols: seq<string>): (m: Row)
    ensures m.Keys == SetOf(cols) && forall c :: c in m ==> m[c] == ""
  {
    map c | c in cols :: ""
  }

  /** The row's value under each column of `cols`, '' where it has none. */
  function Copied(r: Row, cols: seq<string>): (m: Row)
    ensures m.Keys == SetOf(cols) && forall c :: c in m ==> m[c] == GetOr(r, c)
  {
    map c | c in cols :: GetOr(r, c)
  }

  /** `csv.DictWriter.writerow`: a row with a key outside the columns
      raises ValueError. */
  function WriteRow(cols: seq<string>, r: Row): Result<seq<string>>
  {
    if r.Keys <= SetOf(cols) then Ok(Cells(cols, r))
    else Err("dict contains fields not in fieldnames")
  }

  /** `csv.DictWriter.writerows`: the rows in order, stopping at the first
      that cannot be written. */
  function WriteRows(cols: seq<string>, rows: seq<Row>): Result<seq<seq<string>>>
  {
    if rows == [] then Ok([])
    else
      match WriteRows(cols, rows[..|rows| - 1])
      case Err(e) => Err(e)
      case Ok(prev) =>
        match WriteRow(cols, rows[|rows| - 1])
        case Err(e) => Err(e)
        case Ok(cells) => Ok(prev + [cells])
  }

  /** The indented layout's columns: `Depth 0` .. `Depth max`, the base
      columns other than `key`, the extras other than `depth`. */
  function IndentedColumns(rows: seq<Row>, extras: seq<string>): seq<string>
  {
    LayoutColumns(MaxDepth(rows) + 1, extras)
  }

  function IndentedRows(rows: seq<Row>, extras: seq<string>): (r: seq<Row>)
    ensures |r| == |rows|
  {
    NewRows(rows, DepthColumns(MaxDepth(rows) + 1), Without(extras, "depth"))
  }

  function IndentedTable(rows: seq<Row>, extras: seq<string>): Result<CsvTable>
  {
    LaidOutTable(rows, MaxDepth(rows) + 1, extras)
  }

  /** The columns of an indented layout with `n` depth columns. */
  function LayoutColumns(n: nat, extras: seq<string>): seq<string>
  {
    DepthColumns(n) + ContentFields() + Without(extras, "depth")
  }

  /** The rows rebuilt for `n` depth columns, written under those columns. */
  function LaidOutTable(rows: seq<Row>, n: nat, extras: seq<string>): Result<CsvTable>
  {
    var cols := LayoutColumns(n, extras);
    TableOf(cols, WriteRows(cols, NewRows(rows, DepthColumns(n), Without(extras, "depth"))))
  }

  function NewRows(rows: seq<Row>, depthCols: seq<string>, extras: seq<string>): (r: seq<Row>)
    ensures |r| == |rows|
  {
    seq(|rows|, i requires 0 <= i < |rows| => NewRow(rows[i], depthCols, extras))
  }

  /** Whether `write_plan_csv` takes the indented branch. */
  predicate UsesIndented(rows: seq<Row>, tableFormat: string)
  {
    tableFormat == "indented" && AnyDepth(rows)
  }

  /** `write_plan_csv`: no rows give the base header alone; the indented
      format (when some row has a depth) writes the depth-column layout and
      leaves the rows alone; otherwise every row is padded in place to the
      flat columns and written. */
  method WritePlanCsv(rows: array<Row>, tableFormat: string) returns (r: Result<CsvTable>)
    modifies rows
    ensures rows.Length == 0 ==> r == Ok(CsvTable(BaseFields, []))
    ensures rows.Length > 0 && UsesIndented(old(rows[..]), tableFormat) ==>
      rows[..] == old(rows[..]) && r == IndentedTable(old(rows[..]), SortedOf(ExtraKeys(old(rows[..]))))
    ensures rows.Length > 0 && !UsesIndented(old(rows[..]), tableFormat) ==>
      rows[..] == PadAll(old(rows[..]), FlatColumns(old(rows[..])))
      && r == Ok(CsvTable(FlatColumns(old(rows[..])), Body(rows[..], FlatColumns(old(rows[..])))))
  {
    if rows.Length == 0 {
      return Ok(CsvTable(BaseFields, []));
    }
    var allKeys := SetOf(BaseFields);
    for i := 0 to rows.Length
      invariant allKeys == SetOf(BaseFields) + ExtraKeys(rows[..i])
    {
      assert rows[..i + 1][..i] == rows[..i];
      allKeys := allKeys + rows[i].Keys;
    }
    assert rows[..rows.Length] == rows[..];
    var extra := SortNames(allKeys - SetOf(BaseFields));
    assert allKeys - SetOf(BaseFields) == ExtraKeys(rows[..]) by {
      ExtraKeysDisjoint(rows[..]);
    }
    var anyDepth := AnyDepthOf(rows);
    if tableFormat == "indented" && anyDepth {
      r := WriteIndented(rows[..], extra);
      return;
    }
    var fieldnames := BaseFields + extra;
    PadRows(rows, fieldnames);
    r := Ok(CsvTable(fieldnames, Body(rows[..], fieldnames)));
  }

  lemma {:induction false} ExtraKeysDisjoint(rows: seq<Row>)
    ensures ExtraKeys(rows) !! SetOf(BaseFields)
  {
    if rows != [] {
      ExtraKeysDisjoint(rows[..|rows| - 1]);
    }
  }

  /** `any(r.get('depth') for r in rows)` */
  method AnyDepthOf(rows: array<Row>) returns (b: bool)
    ensures b == AnyDepth(rows[..])
  {
    b := false;
    for i := 0 to rows.Length
      invariant b == AnyDepth(rows[..i])
    {
      assert forall j :: 0 <= j < i ==> rows[..i + 1][j] == rows[..i][j];
      assert rows[..i + 1][i] == rows[i];
      if HasDepth(rows[i]) {
        b := true;
      }
    }
    assert rows[..rows.Length] == rows[..];
  }

  /** The flat branch's padding loop: `setdefault` on every row, in place. */
  method PadRows(rows: array<Row>, cols: seq<string>)
    modifies rows
    ensures rows[..] == PadAll(old(rows[..]), cols)
  {
    for i := 0 to rows.Length
      invariant forall j :: 0 <= j < i ==> rows[j] == Pad(old(rows[j]), cols)
      invariant forall j :: i <= j < rows.Length ==> rows[j] == old(rows[j])
    {
      var m := rows[i];
      for c := 0 to |cols|
        invariant m == Pad(old(rows[i]), cols[..c])
      {
        assert cols[..c + 1][..c] == cols[..c];
        if cols[c] !in m {
          m := m[cols[c] := ""];
        }
      }
      assert cols[..|cols|] == cols;
      rows[i] := m;
    }
  }

  /** The indented branch: the depth scan, the row rebuild, the write. */
  method WriteIndented(rows: seq<Row>, extras: seq<string>) returns (r: Result<CsvTable>)
    ensures r == IndentedTable(rows, extras)
  {
    var maxDepth := ScanMaxDepth(rows);
    var depthCols := DepthColumns(maxDepth + 1);
    var indentedExtras := Without(extras, "depth");
    var fieldnames := depthCols + ContentFields() + indentedExtras;
    var indented := RebuildRows(rows, depthCols, indentedExtras);
    assert fieldnames == IndentedColumns(rows, extras);
    r := TableOf(fieldnames, WriteRows(fieldnames, indented));
  }

  function TableOf(cols: seq<string>, body: Result<seq<seq<string>>>): Result<CsvTable>
  {
    match body
    case Err(e) => Err(e)
    case Ok(b) => Ok(CsvTable(cols, b))
  }

  /** The depth scan: rows whose depth cannot be read are passed over. */
  method ScanMaxDepth(rows: seq<Row>) returns (maxDepth: nat)
    ensures maxDepth == MaxDepth(rows)
  {
    maxDepth := 0;
    for i := 0 to |rows|
      invariant maxDepth == MaxDepth(rows[..i])
    {
      assert rows[..i + 1][..i] == rows[..i];
      var p := ParsedDepth(rows[i]);
      if p.Some? && p.value > maxDepth {
        maxDepth := p.value;
      }
    }
    assert rows[..|rows|] == rows;
  }

  method RebuildRows(rows: seq<Row>, depthCols: seq<string>, extras: seq<string>) returns (indented: seq<Row>)
    ensures indented == NewRows(rows, depthCols, extras)
  {
    indented := EachRow(rows, RowIn(depthCols, extras));
    assert forall j :: 0 <= j < |rows| ==> indented[j] == NewRows(rows, depthCols, extras)[j];
  }

  function RowIn(depthCols: seq<string>, extras: seq<string>): Row -> Row
  {
    r => NewRow(r, depthCols, extras)
  }

  /** The loop that rebuilds the rows one at a time, in order. */
  method EachRow(rows: seq<Row>, f: Row -> Row) returns (out: seq<Row>)
    ensures |out| == |rows|
    ensures forall j :: 0 <= j < |rows| ==> out[j] == f(rows[j])
  {
    out := [];
    for i := 0 to |rows|
      invariant |out| == i
      invariant forall j :: 0 <= j < i ==> out[j] == f(rows[j])
    {
      out := out + [f(rows[i])];
    }
  }

  // -----------------------------------------------------------------------
  // What the layouts promise
  // -----------------------------------------------------------------------

  /** The flat columns are distinct and cover every column of every row;
      each written cell is the row's own value under that column, '' where
      the row had none. */
  lemma FlatLayout(rows: seq<Row>, i: nat, j: nat)
    requires i < |rows|
    ensures NoDup(FlatColumns(rows))
    ensures forall k :: k in rows[i] ==> k in FlatColumns(rows)
    ensures j < |FlatColumns(rows)| ==>
      Body(PadAll(rows, FlatColumns(rows)), FlatColumns(rows))[i][j] == GetOr(rows[i], FlatColumns(rows)[j])
  {
    var cols := FlatColumns(rows);
    var extra := SortedOf(ExtraKeys(rows));
    SortedOfSpec(ExtraKeys(rows));
    ExtraKeysDisjoint(rows);
    BaseFieldsDistinct();
    forall a, b | 0 <= a < b < |cols| ensures cols[a] != cols[b] {
      if b >= |BaseFields| {
        assert cols[b] == extra[b - |BaseFields|] && cols[b] in ExtraKeys(rows);
        if a < |BaseFields| {
          assert cols[a] in SetOf(BaseFields);
        } else {
          assert cols[a] == extra[a - |BaseFields|];
        }
      }
    }
    forall k | k in rows[i] ensures k in cols {
      if k !in BaseFields {
        ExtraKeysSpec(rows, k);
        assert k in SetOf(extra);
      }
    }
    PadSpec(rows[i], cols);
    if j < |cols| {
      assert Body(PadAll(rows, cols), cols)[i][j] == GetOr(Pad(rows[i], cols), cols[j]);
      assert cols[j] in SetOf(cols);
    }
  }

  lemma BaseFieldsDistinct()
    ensures NoDup(BaseFields)
  {
  }

  /** Depth column names of different depths differ. */
  lemma DepthColumnInjective(a: int, b: int)
    requires DepthColumn(a) == DepthColumn(b)
    ensures a == b
  {
    assert IntToString(a) == DepthColumn(a)[6..];
    assert IntToString(b) == DepthColumn(b)[6..];
    IntToStringRoundTrip(a);
    IntToStringRoundTrip(b);
  }

  /** A depth column name never names a base column. */
  lemma DepthColumnNotBase(d: int)
    ensures DepthColumn(d) !in SetOf(BaseFields)
  {
    assert DepthColumn(d)[0] == 'D';
    forall f | f in BaseFields ensures f == [] || f[0] != 'D' {
    }
  }

  /** A negative depth's column is none of the depth columns. */
  lemma NegativeDepthColumn(d: int, n: nat)
    requires d < 0
    ensures DepthColumn(d) !in DepthColumns(n)
  {
    forall i | 0 <= i < n ensures DepthColumn(i) != DepthColumn(d) {
      if DepthColumn(i) == DepthColumn(d) {
        DepthColumnInjective(i, d);
      }
    }
  }

  /** `writerows` succeeds exactly when every row's keys are columns, and
      then writes each row's cells in column order. */
  lemma {:induction false} WriteRowsSpec(cols: seq<string>, rows: seq<Row>)
    ensures WriteRows(cols, rows) ==
      if forall i :: 0 <= i < |rows| ==> rows[i].Keys <= SetOf(cols)
      then Ok(Body(rows, cols))
      else Err("dict contains fields not in fieldnames")
  {
    if rows != [] {
      var init := rows[..|rows| - 1];
      WriteRowsSpec(cols, init);
      assert forall i :: 0 <= i < |init| ==> init[i] == rows[i];
      if forall i :: 0 <= i < |rows| ==> rows[i].Keys <= SetOf(cols) {
        assert Body(init, cols) + [Cells(cols, rows[|rows| - 1])] == Body(rows, cols);
      }
    }
  }

  /** The keys of an indented row: the depth columns, the row's own depth
      column, the content fields and the extras. */
  lemma NewRowKeys(r: Row, depthCols: seq<string>, extras: seq<string>)
    ensures NewRow(r, depthCols, extras).Keys
      == SetOf(depthCols) + {DepthColumn(DepthOf(r))} + SetOf(ContentFields()) + SetOf(extras)
  {
  }

  /** The cells of an indented row: a depth column not shadowed by an
      extra holds the label at the row's own depth and '' elsewhere; a
      content or extra column holds the row's own value. */
  lemma NewRowCells(r: Row, n: nat, ex: seq<string>, c: string)
    ensures c in DepthColumns(n) && c !in ex ==>
      GetOr(NewRow(r, DepthColumns(n), ex), c) == (if c == DepthColumn(DepthOf(r)) then Label(r) else "")
    ensures c in ContentFields() || c in ex ==> GetOr(NewRow(r, DepthColumns(n), ex), c) == GetOr(r, c)
  {
    if c in DepthColumns(n) && c !in ex {
      var d :| 0 <= d < n && DepthColumns(n)[d] == c;
      DepthColumnNotBase(d);
      DepthCell(r, DepthColumns(n), ex, c);
    }
    if c in ContentFields() || c in ex {
      CopiedCell(r, DepthColumns(n), ex, c);
    }
  }

  /** A depth column that is neither a content nor an extra column keeps
      its blank or label value. */
  lemma DepthCell(r: Row, depthCols: seq<string>, ex: seq<string>, c: string)
    requires c in depthCols && c !in ex && c !in SetOf(BaseFields)
    ensures GetOr(NewRow(r, depthCols, ex), c) == (if c == DepthColumn(DepthOf(r)) then Label(r) else "")
  {
    var blank := Blank(depthCols)[DepthColumn(DepthOf(r)) := Label(r)];
    var content := Copied(r, ContentFields());
    var extra := Copied(r, ex);
    assert c !in SetOf(ContentFields()) && c !in SetOf(ex) && c in SetOf(depthCols);
    assert c !in content && c !in extra && c in blank;
  }

  /** A content or extra column holds the row's own value. */
  lemma CopiedCell(r: Row, depthCols: seq<string>, ex: seq<string>, c: string)
    requires c in ContentFields() || c in ex
    ensures GetOr(NewRow(r, depthCols, ex), c) == GetOr(r, c)
  {
    var content := Copied(r, ContentFields());
    var extra := Copied(r, ex);
    if c in ex {
      assert c in SetOf(ex) && c in extra;
    } else {
      assert c in SetOf(ContentFields()) && c in content && c !in extra;
    }
  }

  lemma IndentedOk(rows: seq<Row>, extras: seq<string>)
    requires forall k :: 0 <= k < |rows| ==> DepthOf(rows[k]) >= 0
    ensures IndentedTable(rows, extras) ==
      Ok(CsvTable(IndentedColumns(rows, extras), Body(IndentedRows(rows, extras), IndentedColumns(rows, extras))))
  {
    MaxDepthSpec(rows);
    LaidOutOk(rows, MaxDepth(rows) + 1, extras);
  }

  /** With every depth below `n` and not negative, every rebuilt row fits
      the columns, and the write succeeds. */
  lemma LaidOutOk(rows: seq<Row>, n: nat, extras: seq<string>)
    requires forall k :: 0 <= k < |rows| ==> 0 <= DepthOf(rows[k]) < n
    ensures LaidOutTable(rows, n, extras) ==
      Ok(CsvTable(LayoutColumns(n, extras), Body(NewRows(rows, DepthColumns(n), Without(extras, "depth")), LayoutColumns(n, extras))))
  {
    var depthCols := DepthColumns(n);
    var ex := Without(extras, "depth");
    var cols := LayoutColumns(n, extras);
    var ir := NewRows(rows, depthCols, ex);
    assert SetOf(cols) == SetOf(depthCols) + SetOf(ContentFields()) + SetOf(ex);
    forall k | 0 <= k < |rows| ensures ir[k].Keys <= SetOf(cols) {
      NewRowsAt(rows, depthCols, ex, k);
      NewRowKeys(rows[k], depthCols, ex);
      assert DepthColumn(DepthOf(rows[k])) == depthCols[DepthOf(rows[k])];
    }
    WriteRowsSpec(cols, ir);
  }

  /** With no negative depth the indented layout is written. In row i the
      depth cells are empty but for the row's own depth, which holds its
      label (unless an extra column has that name); every other cell is the
      row's own value. */
  lemma IndentedLayout(rows: seq<Row>, extras: seq<string>, i: nat, j: nat)
    requires forall k :: 0 <= k < |rows| ==> DepthOf(rows[k]) >= 0
    requires i < |rows|
    ensures IndentedTable(rows, extras).Ok?
    ensures IndentedTable(rows, extras).value.header == IndentedColumns(rows, extras)
    ensures |IndentedTable(rows, extras).value.body| == |rows|
    ensures |IndentedTable(rows, extras).value.body[i]| == |IndentedColumns(rows, extras)|
    ensures j <= MaxDepth(rows) && DepthColumn(j) !in extras ==>
      IndentedTable(rows, extras).value.body[i][j] == (if j == DepthOf(rows[i]) then Label(rows[i]) else "")
    ensures MaxDepth(rows) < j < |IndentedColumns(rows, extras)| ==>
      IndentedTable(rows, extras).value.body[i][j] == GetOr(rows[i], IndentedColumns(rows, extras)[j])
  {
    MaxDepthSpec(rows);
    LaidOutLayout(rows, MaxDepth(rows) + 1, extras, i, j);
  }

  /** `IndentedLayout` for any depth count `n` above every row's depth. */
  lemma LaidOutLayout(rows: seq<Row>, n: nat, extras: seq<string>, i: nat, j: nat)
    requires forall k :: 0 <= k < |rows| ==> 0 <= DepthOf(rows[k]) < n
    requires i < |rows|
    ensures LaidOutTable(rows, n, extras).Ok?
    ensures LaidOutTable(rows, n, extras).value.header == LayoutColumns(n, extras)
    ensures |LaidOutTable(rows, n, extras).value.body| == |rows|
    ensures |LaidOutTable(rows, n, extras).value.body[i]| == |LayoutColumns(n, extras)|
    ensures j < n && DepthColumn(j) !in extras ==>
      LaidOutTable(rows, n, extras).value.body[i][j] == (if j == DepthOf(rows[i]) then Label(rows[i]) else "")
    ensures n <= j < |LayoutColumns(n, extras)| ==>
      LaidOutTable(rows, n, extras).value.body[i][j] == GetOr(rows[i], LayoutColumns(n, extras)[j])
  {
    var cols := LayoutColumns(n, extras);
    var ir := NewRows(rows, DepthColumns(n), Without(extras, "depth"));
    LaidOutOk(rows, n, extras);
    assert LaidOutTable(rows, n, extras).value.body == Body(ir, cols);
    BodyCell(ir, cols, i, 0);
    if j < |cols| {
      NewRowsAt(rows, DepthColumns(n), Without(extras, "depth"), i);
      LaidOutCell(ir, cols, rows[i], n, extras, i, j);
    }
  }

  lemma NewRowsAt(rows: seq<Row>, dc: seq<string>, ex: seq<string>, i: nat)
    requires i < |rows|
    ensures NewRows(rows, dc, ex)[i] == NewRow(rows[i], dc, ex)
  {
  }

  /** The cell under column j of a row rebuilt for `n` depth columns. */
  lemma LaidOutCell(ir: seq<Row>, cols: seq<string>, r: Row, n: nat, extras: seq<string>, i: nat, j: nat)
    requires cols == DepthColumns(n) + ContentFields() + Without(extras, "depth")
    requires i < |ir| && j < |cols| && ir[i] == NewRow(r, DepthColumns(n), Without(extras, "depth"))
    ensures j < n && DepthColumn(j) !in extras ==>
      Body(ir, cols)[i][j] == (if j == DepthOf(r) then Label(r) else "")
    ensures n <= j ==> Body(ir, cols)[i][j] == GetOr(r, cols[j])
  {
    var ex := Without(extras, "depth");
    BodyCell(ir, cols, i, j);
    NewRowCells(r, n, ex, cols[j]);
    if j < n {
      assert cols[j] == DepthColumns(n)[j] == DepthColumn(j);
      if DepthColumn(j) !in extras {
        assert cols[j] !in SetOf(ex);
        if DepthColumn(j) == DepthColumn(DepthOf(r)) {
          DepthColumnInjective(j, DepthOf(r));
        }
      }
    } else {
      assert cols[j] == (ContentFields() + ex)[j - n];
      assert cols[j] in ContentFields() || cols[j] in ex;
    }
  }

  lemma BodyCell(rows: seq<Row>, cols: seq<string>, i: nat, j: nat)
    requires i < |rows| && j < |cols|
    ensures |Body(rows, cols)[i]| == |cols|
    ensures Body(rows, cols)[i][j] == GetOr(rows[i], cols[j])
  {
  }

  /** A row whose depth is negative has a column outside the layout, and
      the indented write fails. */
  lemma NegativeDepthErr(rows: seq<Row>, extras: seq<string>, i: nat)
    requires i < |rows| && DepthOf(rows[i]) < 0
    requires DepthColumn(DepthOf(rows[i])) !in extras
    ensures IndentedTable(rows, extras) == Err("dict contains fields not in fieldnames")
  {
    LaidOutErr(rows, MaxDepth(rows) + 1, extras, i);
  }

  /** `NegativeDepthErr` for any depth count `n`. */
  lemma LaidOutErr(rows: seq<Row>, n: nat, extras: seq<string>, i: nat)
    requires i < |rows| && DepthOf(rows[i]) < 0
    requires DepthColumn(DepthOf(rows[i])) !in extras
    ensures LaidOutTable(rows, n, extras) == Err("dict contains fields not in fieldnames")
  {
    var cols := LayoutColumns(n, extras);
    var ir := NewRows(rows, DepthColumns(n), Without(extras, "depth"));
    var c := DepthColumn(DepthOf(rows[i]));
    NewRowsAt(rows, DepthColumns(n), Without(extras, "depth"), i);
    NewRowKeys(rows[i], DepthColumns(n), Without(extras, "depth"));
    NegativeDepthColumn(DepthOf(rows[i]), n);
    DepthColumnNotBase(DepthOf(rows[i]));
    assert c in ir[i].Keys;
    assert c !in SetOf(cols);
    WriteRowsSpec(cols, ir);
  }
}
