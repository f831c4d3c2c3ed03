/** The roadmap extractors behind the vision tools: turning the text of a
    presentation, or the header and rows of a spreadsheet, into release,
    timeline and feature entries.  Reading the files is left to the
    caller; the two regular expressions of the text parser are oracles
    (`versionsIn`, `datesIn`: the `findall` result for one text). */
module VisionTools {
  import opened Common

  /** One roadmap entry: `key` is its 'version' (a release), 'date' (a
      timeline entry) or 'text' (a feature); `extra` its other keys. */
  datatype Entry = Entry(key: string, extra: seq<(string, string)>)

  datatype Roadmap = Roadmap(releases: seq<Entry>, timeline: seq<Entry>, features: seq<Entry>)

  function Keys(es: seq<Entry>): (r: seq<string>)
    ensures |r| == |es| && forall j :: 0 <= j < |es| ==> r[j] == es[j].key
  {
    seq(|es|, j requires 0 <= j < |es| => es[j].key)
  }

  // ---------------------------------------------------------------------
  // `_parse_roadmap_text`
  // ---------------------------------------------------------------------

  /** The version loop for one text: a version not yet recorded is added
      with the first 100 characters of the text as context. */
  function AddVersions(releases: seq<Entry>, vs: seq<string>, text: string): seq<Entry>
  {
    if vs == [] then releases
    else
      var prev := AddVersions(releases, vs[..|vs| - 1], text);
      var v := vs[|vs| - 1];
      if v in Keys(prev) then prev else prev + [Entry(v, [("context", Take(text, 100))])]
  }

  function DateEntries(ds: seq<string>, text: string): (r: seq<Entry>)
    ensures |r| == |ds|
    ensures forall j :: 0 <= j < |ds| ==> r[j] == Entry(ds[j], [("context", Take(text, 100))])
  {
    seq(|ds|, j requires 0 <= j < |ds| => Entry(ds[j], [("context", Take(text, 100))]))
  }

  /** A text is a feature candidate when it is longer than ten characters
      and neither pattern matches in it. */
  predicate IsFeatureText(text: string, vs: seq<string>, ds: seq<string>)
  {
    |text| > 10 && vs == [] && ds == []
  }

  /** Releases, timeline and (unlimited) features of the first texts. */
  function TextScan(texts: seq<string>, versionsIn: string -> seq<string>, datesIn: string -> seq<string>): Roadmap
  {
    if texts == [] then Roadmap([], [], [])
    else
      var prev := TextScan(texts[..|texts| - 1], versionsIn, datesIn);
      var t := texts[|texts| - 1];
      Roadmap(
        AddVersions(prev.releases, versionsIn(t), t),
        prev.timeline + DateEntries(datesIn(t), t),
        prev.features + (if IsFeatureText(t, versionsIn(t), datesIn(t)) then [Entry(Take(t, 200), [])] else []))
  }

  /** The result: the scan with at most 20 features kept. */
  function TextRoadmap(texts: seq<string>, versionsIn: string -> seq<string>, datesIn: string -> seq<string>): Roadmap
  {
    var scan := TextScan(texts, versionsIn, datesIn);
    scan.(features := scan.features[..Min(20, |scan.features|)])
  }

  method AddVersionsLoop(releases: seq<Entry>, vs: seq<string>, text: string) returns (r: seq<Entry>)
    ensures r == AddVersions(releases, vs, text)
  {
    r := releases;
    for j := 0 to |vs|
      invariant r == AddVersions(releases, vs[..j], text)
    {
      assert vs[..j + 1][..j] == vs[..j];
      var known := Keys(r);
      if vs[j] !in known {
        r := r + [Entry(vs[j], [("context", Take(text, 100))])];
      }
    }
    assert vs[..|vs|] == vs;
  }

  method ParseRoadmapText(texts: seq<string>, versionsIn: string -> seq<string>, datesIn: string -> seq<string>)
    returns (r: Roadmap)
    ensures r == TextRoadmap(texts, versionsIn, datesIn)
  {
    var releases: seq<Entry> := [];
    var timeline: seq<Entry> := [];
    var features: seq<Entry> := [];
    for i := 0 to |texts|
      invariant Roadmap(releases, timeline, features) == TextScan(texts[..i], versionsIn, datesIn)
    {
      var text := texts[i];
      assert texts[..i + 1][..i] == texts[..i];
      var versions := versionsIn(text);
      releases := AddVersionsLoop(releases, versions, text);
      var dates := datesIn(text);
      for j := 0 to |dates|
        invariant timeline == TextScan(texts[..i], versionsIn, datesIn).timeline + DateEntries(dates[..j], text)
      {
        timeline := timeline + [Entry(dates[j], [("context", Take(text, 100))])];
      }
      assert dates[..|dates|] == dates;
      if |text| > 10 && versions == [] && dates == [] {
        features := features + [Entry(Take(text, 200), [])];
      }
    }
    assert texts[..|texts|] == texts;
    r := Roadmap(releases, timeline, features[..Min(20, |features|)]);
  }

  /** The version loop adds each version once: the keys stay without
      repeats, every version of the text is recorded afterwards, and each
      new entry carries this text's context. */
  lemma {:induction false} AddVersionsSpec(releases: seq<Entry>, vs: seq<string>, text: string)
    ensures releases <= AddVersions(releases, vs, text)
    ensures NoDup(Keys(releases)) ==> NoDup(Keys(AddVersions(releases, vs, text)))
    ensures forall v :: v in vs ==> v in Keys(AddVersions(releases, vs, text))
    ensures forall j :: |releases| <= j < |AddVersions(releases, vs, text)| ==>
      AddVersions(releases, vs, text)[j].key in vs
      && AddVersions(releases, vs, text)[j].key !in Keys(releases)
      && AddVersions(releases, vs, text)[j].extra == [("context", Take(text, 100))]
  {
    if vs != [] {
      var init := vs[..|vs| - 1];
      var v := vs[|vs| - 1];
      var prev := AddVersions(releases, init, text);
      AddVersionsSpec(releases, init, text);
      var r := AddVersions(releases, vs, text);
      assert vs == init + [v];
      assert forall x :: x in init ==> x in vs;
      assert forall x :: x in Keys(releases) ==> x in Keys(prev) by {
        assert forall j :: 0 <= j < |releases| ==> Keys(releases)[j] == Keys(prev)[j];
      }
      if v in Keys(prev) {
        assert r == prev;
      } else {
        assert r == prev + [Entry(v, [("context", Take(text, 100))])];
        assert Keys(r) == Keys(prev) + [v];
      }
    }
  }

  /** The text parser's promises about releases: every version found is
      recorded once, and its entry carries the context of the first text in
      which it was found. */
  predicate FirstContexts(releases: seq<Entry>, texts: seq<string>, versionsIn: string -> seq<string>)
  {
    forall j :: 0 <= j < |releases| ==>
      exists i :: 0 <= i < |texts| && FirstText(releases[j].key, texts, versionsIn, i)
        && releases[j].extra == [("context", Take(texts[i], 100))]
  }

  /** `texts[i]` is the first text in which `v` was found. */
  predicate FirstText(v: string, texts: seq<string>, versionsIn: string -> seq<string>, i: nat)
  {
    i < |texts| && v in versionsIn(texts[i]) && forall i' :: 0 <= i' < i ==> v !in versionsIn(texts[i'])
  }

  lemma {:induction false} TextReleasesSpec(texts: seq<string>, versionsIn: string -> seq<string>, datesIn: string -> seq<string>)
    ensures NoDup(Keys(TextScan(texts, versionsIn, datesIn).releases))
    ensures forall i, v :: 0 <= i < |texts| && v in versionsIn(texts[i]) ==>
      v in Keys(TextScan(texts, versionsIn, datesIn).releases)
  {
    if texts != [] {
      var n := |texts| - 1;
      var init := texts[..n];
      var t := texts[n];
      var prev := TextScan(init, versionsIn, datesIn).releases;
      var r := TextScan(texts, versionsIn, datesIn).releases;
      TextReleasesSpec(init, versionsIn, datesIn);
      AddVersionsSpec(prev, versionsIn(t), t);
      forall i, v | 0 <= i < |texts| && v in versionsIn(texts[i]) ensures v in Keys(r) {
        if i < n {
          assert init[i] == texts[i];
          assert v in Keys(prev);
          var j :| 0 <= j < |prev| && Keys(prev)[j] == v;
          assert Keys(r)[j] == v;
        }
      }
    }
  }

  /** Each recorded version carries the context of the first text in which
      it was found. */
  lemma {:induction false} TextReleasesFirstContext(texts: seq<string>, versionsIn: string -> seq<string>, datesIn: string -> seq<string>)
    ensures FirstContexts(TextScan(texts, versionsIn, datesIn).releases, texts, versionsIn)
  {
    if texts != [] {
      var n := |texts| - 1;
      var init := texts[..n];
      var t := texts[n];
      var prev := TextScan(init, versionsIn, datesIn).releases;
      var r := TextScan(texts, versionsIn, datesIn).releases;
      TextReleasesFirstContext(init, versionsIn, datesIn);
      TextReleasesSpec(init, versionsIn, datesIn);
      AddVersionsSpec(prev, versionsIn(t), t);
      forall j | 0 <= j < |r|
        ensures exists i :: (0 <= i < |texts| && FirstText(r[j].key, texts, versionsIn, i)
          && r[j].extra == [("context", Take(texts[i], 100))])
      {
        if j < |prev| {
          assert r[j] == prev[j];
          var i :| 0 <= i < n && FirstText(prev[j].key, init, versionsIn, i)
            && prev[j].extra == [("context", Take(init[i], 100))];
          assert forall i' :: 0 <= i' <= i ==> init[i'] == texts[i'];
          assert FirstText(r[j].key, texts, versionsIn, i);
        } else {
          var v := r[j].key;
          assert v !in Keys(prev);
          forall i' | 0 <= i' < n ensures v !in versionsIn(texts[i']) {
            assert init[i'] == texts[i'];
          }
          assert FirstText(v, texts, versionsIn, n);
        }
      }
    }
  }

  function DateCount(texts: seq<string>, datesIn: string -> seq<string>): nat
  {
    if texts == [] then 0 else DateCount(texts[..|texts| - 1], datesIn) + |datesIn(texts[|texts| - 1])|
  }

  /** Timeline entries are not deduplicated: one per date match; features
      are texts longer than ten characters without a version or date, cut
      to 200 characters, and at most 20 are kept. */
  lemma {:induction false} TextTimelineAndFeatures(texts: seq<string>, versionsIn: string -> seq<string>, datesIn: string -> seq<string>)
    ensures |TextScan(texts, versionsIn, datesIn).timeline| == DateCount(texts, datesIn)
    ensures forall f :: f in TextScan(texts, versionsIn, datesIn).features ==>
      exists t :: t in texts && IsFeatureText(t, versionsIn(t), datesIn(t)) && f == Entry(Take(t, 200), [])
    ensures |TextRoadmap(texts, versionsIn, datesIn).features| <= 20
  {
    if texts != [] {
      var init := texts[..|texts| - 1];
      TextTimelineAndFeatures(init, versionsIn, datesIn);
      assert forall t :: t in init ==> t in texts;
    }
  }

  // ---------------------------------------------------------------------
  // `_parse_roadmap_excel`
  // ---------------------------------------------------------------------

  /** Some keyword of `kws` occurs in `lower`. */
  predicate Mentions(lower: string, kws: seq<string>)
  {
    exists k :: 0 <= k < |kws| && Contains(lower, kws[k])
  }

  /** The last header whose lower-cased text contains a keyword. */
  function LastColumn(headers: seq<string>, kws: seq<string>): (r: Option<string>)
    ensures r.Some? ==> r.value in headers && Mentions(Lower(r.value), kws)
    ensures r.None? <==> forall i :: 0 <= i < |headers| ==> !Mentions(Lower(headers[i]), kws)
  {
    if headers == [] then None
    else if Mentions(Lower(headers[|headers| - 1]), kws) then Some(headers[|headers| - 1])
    else
      var r := LastColumn(headers[..|headers| - 1], kws);
      assert forall i :: 0 <= i < |headers| - 1 ==> headers[..|headers| - 1][i] == headers[i];
      r
  }

  /** The chosen column is the last matching header: no later header
      matches. */
  lemma {:induction false} LastColumnIsLast(headers: seq<string>, kws: seq<string>)
    ensures LastColumn(headers, kws).Some? ==>
      exists i :: 0 <= i < |headers| && headers[i] == LastColumn(headers, kws).value
        && forall i' :: i < i' < |headers| ==> !Mentions(Lower(headers[i']), kws)
  {
    if headers != [] {
      var n := |headers| - 1;
      if Mentions(Lower(headers[n]), kws) {
        assert headers[n] == LastColumn(headers, kws).value;
      } else {
        var init := headers[..n];
        LastColumnIsLast(init, kws);
        assert LastColumn(headers, kws) == LastColumn(init, kws);
        if LastColumn(init, kws).Some? {
          var i :| 0 <= i < |init| && init[i] == LastColumn(init, kws).value
            && forall i' :: i < i' < |init| ==> !Mentions(Lower(init[i']), kws);
          assert headers[i] == init[i];
          forall i' | i < i' < |headers|
            ensures !Mentions(Lower(headers[i']), kws)
          {
            if i' < n {
              assert headers[i'] == init[i'];
            }
          }
        }
      }
    }
  }

  const ReleaseWords: seq<string> := ["release", "version", "milestone", "target"]
  const DateWords: seq<string> := ["date", "due", "target", "eta", "quarter", "q1", "q2", "q3", "q4"]
  const FeatureWords: seq<string> := ["feature", "item", "description", "name", "title", "task", "story"]

  /** One header may fill several roles: a 'Target' column is both the
      release and the date column when no later header claims either. */
  lemma TargetFillsTwoRoles()
    ensures LastColumn(["Target"], ReleaseWords) == Some("Target")
    ensures LastColumn(["Target"], DateWords) == Some("Target")
  {
    var lower := Lower("Target");
    assert lower == "target";
    assert Contains(lower, ReleaseWords[3]);
    assert Contains(lower, DateWords[2]);
  }

  /** One sheet as the extractor hands it on: its name, header texts and
      kept rows (cells keyed by header). */
  datatype Sheet = Sheet(name: string, headers: seq<string>, rows: seq<map<string, Json>>)

  /** The roles the column scan settles on: (release, date, feature). */
  datatype Columns = Columns(release: Option<string>, date: Option<string>, feature: Option<string>)

  /** The column loop: every header is checked against every role in turn,
      and a matching header overwrites what the role had. */
  method FindColumns(headers: seq<string>, releaseKws: seq<string>, dateKws: seq<string>, featureKws: seq<string>)
    returns (c: Columns)
    ensures c == Columns(LastColumn(headers, releaseKws), LastColumn(headers, dateKws), LastColumn(headers, featureKws))
  {
    c := Columns(None, None, None);
    for i := 0 to |headers|
      invariant c == Columns(LastColumn(headers[..i], releaseKws), LastColumn(headers[..i], dateKws),
        LastColumn(headers[..i], featureKws))
    {
      var h := Lower(headers[i]);
      assert headers[..i + 1][..i] == headers[..i];
      if Mentions(h, releaseKws) {
        c := c.(release := Some(headers[i]));
      }
      if Mentions(h, dateKws) {
        c := c.(date := Some(headers[i]));
      }
      if Mentions(h, featureKws) {
        c := c.(feature := Some(headers[i]));
      }
    }
    assert headers[..|headers|] == headers;
  }

  /** `col and row.get(col)`: a cell is used only under a chosen column and
      only when it is truthy. */
  predicate Emits(col: Option<string>, row: map<string, Json>)
  {
    col.Some? && col.value != [] && col.value in row && Truthy(row[col.value])
  }

  function CellEntry(col: Option<string>, row: map<string, Json>, sheet: string): Entry
    requires Emits(col, row)
  {
    Entry(Text(row[col.value]), [("sheet", sheet)])
  }

  /** The entries one role produces from a sheet's rows. */
  function RoleEntries(col: Option<string>, rows: seq<map<string, Json>>, sheet: string): seq<Entry>
  {
    if rows == [] then []
    else
      var row := rows[|rows| - 1];
      RoleEntries(col, rows[..|rows| - 1], sheet) + (if Emits(col, row) then [CellEntry(col, row, sheet)] else [])
  }

  /** Only truthy cells emit entries, each tagged with the sheet's name,
      and every truthy cell of the column emits one. */
  lemma {:induction false} RoleEntriesSpec(col: Option<string>, rows: seq<map<string, Json>>, sheet: string)
    ensures |RoleEntries(col, rows, sheet)| <= |rows|
    ensures forall e :: e in RoleEntries(col, rows, sheet) ==>
      (e.extra == [("sheet", sheet)] && exists row :: row in rows && Emits(col, row) && e.key == Text(row[col.value]))
    ensures forall row :: row in rows && Emits(col, row) ==> CellEntry(col, row, sheet) in RoleEntries(col, rows, sheet)
  {
    if rows != [] {
      var init := rows[..|rows| - 1];
      RoleEntriesSpec(col, init, sheet);
      assert forall row :: row in init ==> row in rows;
      assert rows == init + [rows[|rows| - 1]];
    }
  }

  function SheetRoadmap(sheet: Sheet, releaseKws: seq<string>, dateKws: seq<string>, featureKws: seq<string>): Roadmap
  {
    var hs := sheet.headers;
    Roadmap(
      RoleEntries(LastColumn(hs, releaseKws), sheet.rows, sheet.name),
      RoleEntries(LastColumn(hs, dateKws), sheet.rows, sheet.name),
      RoleEntries(LastColumn(hs, featureKws), sheet.rows, sheet.name))
  }

  function Concat(a: Roadmap, b: Roadmap): Roadmap
  {
    Roadmap(a.releases + b.releases, a.timeline + b.timeline, a.features + b.features)
  }

  function ExcelRoadmap(sheets: seq<Sheet>, releaseKws: seq<string>, dateKws: seq<string>, featureKws: seq<string>): Roadmap
  {
    if sheets == [] then Roadmap([], [], [])
    else Concat(ExcelRoadmap(sheets[..|sheets| - 1], releaseKws, dateKws, featureKws),
      SheetRoadmap(sheets[|sheets| - 1], releaseKws, dateKws, featureKws))
  }

  /** `_parse_roadmap_excel` with the source's three keyword lists. */
  method ParseRoadmapExcel(sheets: seq<Sheet>) returns (r: Roadmap)
    ensures r == ExcelRoadmap(sheets, ReleaseWords, DateWords, FeatureWords)
  {
    r := ParseSheets(sheets, ReleaseWords, DateWords, FeatureWords);
  }

  method ParseSheets(sheets: seq<Sheet>, releaseKws: seq<string>, dateKws: seq<string>, featureKws: seq<string>)
    returns (r: Roadmap)
    ensures r == ExcelRoadmap(sheets, releaseKws, dateKws, featureKws)
  {
    r := Roadmap([], [], []);
    for s := 0 to |sheets|
      invariant r == ExcelRoadmap(sheets[..s], releaseKws, dateKws, featureKws)
    {
      assert sheets[..s + 1][..s] == sheets[..s];
      var cols := FindColumns(sheets[s].headers, releaseKws, dateKws, featureKws);
      var add := SheetRows(sheets[s], cols);
      r := Concat(r, add);
    }
    assert sheets[..|sheets|] == sheets;
  }

  /** The row loop of one sheet. */
  method SheetRows(sheet: Sheet, cols: Columns) returns (r: Roadmap)
    ensures r == Roadmap(RoleEntries(cols.release, sheet.rows, sheet.name),
      RoleEntries(cols.date, sheet.rows, sheet.name), RoleEntries(cols.feature, sheet.rows, sheet.name))
  {
    var rows := sheet.rows;
    r := Roadmap([], [], []);
    for i := 0 to |rows|
      invariant r == Roadmap(RoleEntries(cols.release, rows[..i], sheet.name),
        RoleEntries(cols.date, rows[..i], sheet.name), RoleEntries(cols.feature, rows[..i], sheet.name))
    {
      var row := rows[i];
      assert rows[..i + 1][..i] == rows[..i];
      if Emits(cols.release, row) {
        r := r.(releases := r.releases + [CellEntry(cols.release, row, sheet.name)]);
      }
      if Emits(cols.date, row) {
        r := r.(timeline := r.timeline + [CellEntry(cols.date, row, sheet.name)]);
      }
      if Emits(cols.feature, row) {
        r := r.(features := r.features + [CellEntry(cols.feature, row, sheet.name)]);
      }
    }
    assert rows[..|rows|] == rows;
  }

  // ---------------------------------------------------------------------
  // Row shaping in `extract_roadmap_from_excel`
  // ---------------------------------------------------------------------

  /** A header cell's text: `str(value)` when truthy, '' otherwise. */
  function HeaderText(cell: Json): string
  {
    if Truthy(cell) then Text(cell) else ""
  }

  /** The key of the cell in column `i`: its header, or `col_i` when the
      header is blank or missing. */
  function CellKey(headers: seq<string>, i: nat): (k: string)
    ensures i < |headers| && headers[i] != [] ==> k == headers[i]
    ensures !(i < |headers| && headers[i] != []) ==> k == "col_" + NatToString(i)
  {
    if i < |headers| && headers[i] != [] then headers[i] else "col_" + NatToString(i)
  }

  /** The row dict: cells assigned in order, a later cell with the same
      key overwriting an earlier one. */
  function RowDict(headers: seq<string>, values: seq<Json>): map<string, Json>
  {
    if values == [] then map[]
    else RowDict(headers, values[..|values| - 1])[CellKey(headers, |values| - 1) := values[|values| - 1]]
  }

  /** The row's keys are exactly the cell keys, and a cell whose key no
      later cell repeats keeps its value. */
  lemma {:induction false} RowDictKeys(headers: seq<string>, values: seq<Json>)
    ensures RowDict(headers, values).Keys == set i | 0 <= i < |values| :: CellKey(headers, i)
  {
    if values != [] {
      var n := |values| - 1;
      RowDictKeys(headers, values[..n]);
      assert (set i | 0 <= i < |values| :: CellKey(headers, i))
        == (set i | 0 <= i < n :: CellKey(headers, i)) + {CellKey(headers, n)};
    }
  }

  lemma {:induction false} RowDictValues(headers: seq<string>, values: seq<Json>)
    ensures forall i :: 0 <= i < |values| && LastWithKey(headers, |values|, i) ==>
      CellKey(headers, i) in RowDict(headers, values) && RowDict(headers, values)[CellKey(headers, i)] == values[i]
  {
    if values != [] {
      var n := |values| - 1;
      RowDictValues(headers, values[..n]);
      forall i | 0 <= i < |values| && LastWithKey(headers, |values|, i)
        ensures CellKey(headers, i) in RowDict(headers, values) && RowDict(headers, values)[CellKey(headers, i)] == values[i]
      {
        if i < n {
          assert LastWithKey(headers, n, i);
          assert values[..n][i] == values[i];
        }
      }
    }
  }

  /** No cell after column `i` (of `n`) has the same key. */
  predicate LastWithKey(headers: seq<string>, n: nat, i: nat)
  {
    forall j :: i < j < n ==> CellKey(headers, j) != CellKey(headers, i)
  }

  /** `any(v is not None for v in row_data.values())` */
  predicate HasValue(row: map<string, Json>)
  {
    exists k :: k in row && row[k] != JNull
  }

  method ShapeRow(headers: seq<string>, values: seq<Json>) returns (row: map<string, Json>)
    ensures row == RowDict(headers, values)
  {
    row := map[];
    for i := 0 to |values|
      invariant row == RowDict(headers, values[..i])
    {
      assert values[..i + 1][..i] == values[..i];
      var key := if i < |headers| && headers[i] != [] then headers[i] else "col_" + NatToString(i);
      row := row[key := values[i]];
    }
    assert values[..|values|] == values;
  }

  /** The kept rows of a sheet: the shaped rows with some non-None cell. */
  function KeptRows(headers: seq<string>, rows: seq<seq<Json>>): seq<map<string, Json>>
  {
    if rows == [] then []
    else
      var row := RowDict(headers, rows[|rows| - 1]);
      KeptRows(headers, rows[..|rows| - 1]) + (if HasValue(row) then [row] else [])
  }

  /** All-None rows are skipped and every other row is kept. */
  lemma {:induction false} KeptRowsSpec(headers: seq<string>, rows: seq<seq<Json>>)
    ensures forall r :: r in KeptRows(headers, rows) ==> HasValue(r)
    ensures forall vs :: vs in rows && HasValue(RowDict(headers, vs)) ==> RowDict(headers, vs) in KeptRows(headers, rows)
  {
    if rows != [] {
      KeptRowsSpec(headers, rows[..|rows| - 1]);
      assert rows == rows[..|rows| - 1] + [rows[|rows| - 1]];
    }
  }

  method ShapeRows(headers: seq<string>, rows: seq<seq<Json>>) returns (kept: seq<map<string, Json>>)
    ensures kept == KeptRows(headers, rows)
  {
    kept := [];
    for i := 0 to |rows|
      invariant kept == KeptRows(headers, rows[..i])
    {
      assert rows[..i + 1][..i] == rows[..i];
      var row := ShapeRow(headers, rows[i]);
      if HasValue(row) {
        kept := kept + [row];
      }
    }
    assert rows[..|rows|] == rows;
  }

  /** A worksheet as the workbook reader yields it: the first row's cells
      and the value rows below it. */
  datatype Worksheet = Worksheet(name: string, headerCells: seq<Json>, rows: seq<seq<Json>>)

  /** `sheet_name and ws_name != sheet_name`: the sheet is skipped. */
  predicate Skipped(ws: Worksheet, sheetName: Option<string>)
  {
    sheetName.Some? && sheetName.value != [] && ws.name != sheetName.value
  }

  function HeaderTexts(cells: seq<Json>): (r: seq<string>)
    ensures |r| == |cells| && forall i :: 0 <= i < |cells| ==> r[i] == HeaderText(cells[i])
  {
    seq(|cells|, i requires 0 <= i < |cells| => HeaderText(cells[i]))
  }

  function ReadSheets(book: seq<Worksheet>, sheetName: Option<string>): seq<Sheet>
  {
    if book == [] then []
    else
      var ws := book[|book| - 1];
      ReadSheets(book[..|book| - 1], sheetName)
        + (if Skipped(ws, sheetName) then []
           else [Sheet(ws.name, HeaderTexts(ws.headerCells), KeptRows(HeaderTexts(ws.headerCells), ws.rows))])
  }

  /** With a sheet name only that sheet is read; without one every sheet is. */
  lemma {:induction false} ReadSheetsSelects(book: seq<Worksheet>, sheetName: Option<string>)
    ensures forall s :: s in ReadSheets(book, sheetName) && sheetName.Some? && sheetName.value != [] ==>
      s.name == sheetName.value
    ensures (sheetName.None? || sheetName.value == []) ==> |ReadSheets(book, sheetName)| == |book|
  {
    if book != [] {
      ReadSheetsSelects(book[..|book| - 1], sheetName);
    }
  }

  /** The workbook loop of `extract_roadmap_from_excel`. */
  method ReadWorkbook(book: seq<Worksheet>, sheetName: Option<string>) returns (sheets: seq<Sheet>)
    ensures sheets == ReadSheets(book, sheetName)
  {
    sheets := [];
    for w := 0 to |book|
      invariant sheets == ReadSheets(book[..w], sheetName)
    {
      assert book[..w + 1][..w] == book[..w];
      var ws := book[w];
      if sheetName.Some? && sheetName.value != [] && ws.name != sheetName.value {
        continue;
      }
      var headers := HeaderTexts(ws.headerCells);
      var rows := ShapeRows(headers, ws.rows);
      sheets := sheets + [Sheet(ws.name, headers, rows)];
    }
    assert book[..|book|] == book;
  }

  /** The extractor's success value: sheets, their count and the roadmap. */
  datatype ExcelData = ExcelData(sheets: seq<Sheet>, sheetCount: nat, roadmap: Roadmap)

  method ExtractRoadmapFromExcel(book: seq<Worksheet>, sheetName: Option<string>) returns (r: ExcelData)
    ensures r.sheets == ReadSheets(book, sheetName) && r.sheetCount == |r.sheets|
    ensures r.roadmap == ExcelRoadmap(r.sheets, ReleaseWords, DateWords, FeatureWords)
  {
    var sheets := ReadWorkbook(book, sheetName);
    var roadmap := ParseRoadmapExcel(sheets);
    r := ExcelData(sheets, |sheets|, roadmap);
  }

  // -----------------------------------------------------------------------
  // extract_roadmap_from_ppt
  // -----------------------------------------------------------------------

  /** A presentation shape as the extractor reads it: whether it has a text
      frame and that frame's text, whether it is a title placeholder, and
      `str(shape_type)` when the shape has that attribute. */
  datatype Shape = Shape(hasTextFrame: bool, text: string, isTitle: bool, shapeType: Option<string>)

  /** `{'type': ..., 'has_text': ...}` */
  datatype ShapeInfo = ShapeInfo(shapeType: string, hasText: bool)

  /** One slide's record: its 1-based number, title, texts and shapes. */
  datatype SlideData = SlideData(number: nat, title: string, textContent: seq<string>, shapes: seq<ShapeInfo>)

  /** The stripped text a shape contributes; empty when it has no text
      frame. */
  function ShapeText(sh: Shape): string
  {
    if sh.hasTextFrame then Strip(sh.text) else ""
  }

  /** The record the shape loop builds for the first shapes of a slide. */
  function SlideFrom(number: nat, shapes: seq<Shape>): SlideData
  {
    if shapes == [] then SlideData(number, "", [], [])
    else
      var prev := SlideFrom(number, shapes[..|shapes| - 1]);
      var sh := shapes[|shapes| - 1];
      var text := ShapeText(sh);
      var withText := if text == [] then prev
                      else prev.(textContent := prev.textContent + [text], title := if sh.isTitle then text else prev.title);
      if sh.shapeType.Some? then withText.(shapes := withText.shapes + [ShapeInfo(sh.shapeType.value, sh.hasTextFrame)])
      else withText
  }

  /** The shape loop of one slide. */
  method ReadSlide(number: nat, shapes: seq<Shape>) returns (d: SlideData)
    ensures d == SlideFrom(number, shapes)
  {
    d := SlideData(number, "", [], []);
    for j := 0 to |shapes|
      invariant d == SlideFrom(number, shapes[..j])
    {
      assert shapes[..j + 1][..j] == shapes[..j];
      var sh := shapes[j];
      if sh.hasTextFrame {
        var text := Strip(sh.text);
        if text != [] {
          d := d.(textContent := d.textContent + [text]);
          if sh.isTitle {
            d := d.(title := text);
          }
        }
      }
      if sh.shapeType.Some? {
        d := d.(shapes := d.shapes + [ShapeInfo(sh.shapeType.value, sh.hasTextFrame)]);
      }
    }
    assert shapes[..|shapes|] == shapes;
  }

  /** A slide's texts are exactly the non-empty stripped texts of its text
      shapes, in shape order; its title is the text of the last title
      placeholder with text, or empty when there is none. */
  lemma {:induction false} SlideFromSpec(number: nat, shapes: seq<Shape>)
    ensures SlideFrom(number, shapes).number == number
    ensures SlideFrom(number, shapes).textContent == NonEmptyTexts(shapes)
    ensures SlideFrom(number, shapes).title == LastTitle(shapes)
    ensures |SlideFrom(number, shapes).shapes| <= |shapes|
  {
    if shapes != [] {
      SlideFromSpec(number, shapes[..|shapes| - 1]);
    }
  }

  /** The non-empty stripped texts, in shape order. */
  function NonEmptyTexts(shapes: seq<Shape>): (r: seq<string>)
    ensures forall t :: t in r ==> t != [] && exists j :: 0 <= j < |shapes| && ShapeText(shapes[j]) == t
    ensures forall j :: 0 <= j < |shapes| && ShapeText(shapes[j]) != [] ==> ShapeText(shapes[j]) in r
  {
    if shapes == [] then []
    else
      var init := shapes[..|shapes| - 1];
      var t := ShapeText(shapes[|shapes| - 1]);
      var r := NonEmptyTexts(init) + (if t == [] then [] else [t]);
      assert forall j :: 0 <= j < |init| ==> init[j] == shapes[j];
      r
  }

  /** A title placeholder whose stripped text is not empty. */
  predicate TitleWithText(sh: Shape)
  {
    sh.isTitle && ShapeText(sh) != []
  }

  /** The text of the last title placeholder with text, or empty. */
  function LastTitle(shapes: seq<Shape>): string
  {
    if shapes == [] then []
    else if TitleWithText(shapes[|shapes| - 1]) then ShapeText(shapes[|shapes| - 1])
    else LastTitle(shapes[..|shapes| - 1])
  }

  /** No title placeholder with text at index `j` or later. */
  predicate NoTitleFrom(shapes: seq<Shape>, j: nat)
  {
    forall k :: j <= k < |shapes| ==> !TitleWithText(shapes[k])
  }

  /** Dropping the last shape keeps "no title with text from `j` on"
      when the last shape is not one. */
  lemma NoTitleInit(shapes: seq<Shape>, j: nat)
    requires shapes != [] && !TitleWithText(shapes[|shapes| - 1])
    ensures NoTitleFrom(shapes, j) <==> NoTitleFrom(shapes[..|shapes| - 1], j)
  {
    var init := shapes[..|shapes| - 1];
    assert forall k :: 0 <= k < |init| ==> init[k] == shapes[k];
  }

  /** The title is empty exactly when no title placeholder has text, and
      otherwise it is the text of the last one that does. */
  lemma {:induction false} LastTitleSpec(shapes: seq<Shape>)
    ensures LastTitle(shapes) == [] <==> NoTitleFrom(shapes, 0)
    ensures LastTitle(shapes) != [] ==>
      exists j :: 0 <= j < |shapes| && TitleWithText(shapes[j]) && ShapeText(shapes[j]) == LastTitle(shapes)
                  && NoTitleFrom(shapes, j + 1)
  {
    if shapes != [] {
      var n := |shapes| - 1;
      if TitleWithText(shapes[n]) {
        assert NoTitleFrom(shapes, n + 1);
      } else {
        var init := shapes[..n];
        LastTitleSpec(init);
        NoTitleInit(shapes, 0);
        if LastTitle(init) != [] {
          var j :| 0 <= j < |init| && TitleWithText(init[j]) && ShapeText(init[j]) == LastTitle(init)
                   && NoTitleFrom(init, j + 1);
          NoTitleInit(shapes, j + 1);
          assert init[j] == shapes[j];
        }
      }
    }
  }

  /** `if slide_numbers and i not in slide_numbers: continue` */
  predicate Selected(i: nat, slideNumbers: seq<int>)
  {
    slideNumbers == [] || i in slideNumbers
  }

  /** The records of the selected slides among the first ones. */
  function ReadSlides(slides: seq<seq<Shape>>, slideNumbers: seq<int>): seq<SlideData>
  {
    if slides == [] then []
    else
      var prev := ReadSlides(slides[..|slides| - 1], slideNumbers);
      if Selected(|slides|, slideNumbers) then prev + [SlideFrom(|slides|, slides[|slides| - 1])] else prev
  }

  /** `all_text`: every slide's texts, slide after slide. */
  function AllText(read: seq<SlideData>): seq<string>
  {
    if read == [] then [] else AllText(read[..|read| - 1]) + read[|read| - 1].textContent
  }

  /** Every record is that of a selected slide, built from that slide's
      shapes, and the records come in increasing slide order. */
  lemma {:induction false} ReadSlidesSound(slides: seq<seq<Shape>>, slideNumbers: seq<int>)
    ensures forall k :: 0 <= k < |ReadSlides(slides, slideNumbers)| ==>
      RecordOf(ReadSlides(slides, slideNumbers)[k], slides, slideNumbers)
    ensures forall k :: 0 <= k < |ReadSlides(slides, slideNumbers)| - 1 ==>
      ReadSlides(slides, slideNumbers)[k].number < ReadSlides(slides, slideNumbers)[k + 1].number
  {
    if slides != [] {
      var n := |slides| - 1;
      var init := slides[..n];
      ReadSlidesSound(init, slideNumbers);
      var prev := ReadSlides(init, slideNumbers);
      var r := ReadSlides(slides, slideNumbers);
      forall k | 0 <= k < |prev| ensures RecordOf(prev[k], slides, slideNumbers) && prev[k].number <= n {
        RecordGrows(prev[k], slides, slideNumbers);
      }
      if Selected(n + 1, slideNumbers) {
        var d := SlideFrom(n + 1, slides[n]);
        SlideFromSpec(n + 1, slides[n]);
        assert r == prev + [d];
        assert RecordOf(d, slides, slideNumbers);
      } else {
        assert r == prev;
      }
    }
  }

  /** A record of the first slides is a record of all of them. */
  lemma RecordGrows(d: SlideData, slides: seq<seq<Shape>>, slideNumbers: seq<int>)
    requires slides != [] && RecordOf(d, slides[..|slides| - 1], slideNumbers)
    ensures RecordOf(d, slides, slideNumbers) && d.number < |slides|
  {
    assert slides[..|slides| - 1][d.number - 1] == slides[d.number - 1];
  }

  /** The record of slide `d.number`, a selected slide of `slides`. */
  predicate RecordOf(d: SlideData, slides: seq<seq<Shape>>, slideNumbers: seq<int>)
  {
    1 <= d.number <= |slides| && Selected(d.number, slideNumbers) && d == SlideFrom(d.number, slides[d.number - 1])
  }

  /** Every selected slide has its record. */
  lemma {:induction false} ReadSlidesComplete(slides: seq<seq<Shape>>, slideNumbers: seq<int>, i: nat)
    requires 1 <= i <= |slides| && Selected(i, slideNumbers)
    ensures exists k :: 0 <= k < |ReadSlides(slides, slideNumbers)| && ReadSlides(slides, slideNumbers)[k].number == i
  {
    var init := slides[..|slides| - 1];
    var prev := ReadSlides(init, slideNumbers);
    var r := ReadSlides(slides, slideNumbers);
    if i == |slides| {
      SlideFromSpec(i, slides[i - 1]);
      assert r[|r| - 1].number == i;
    } else {
      ReadSlidesComplete(init, slideNumbers, i);
      var k :| 0 <= k < |prev| && prev[k].number == i;
      assert r[k] == prev[k];
    }
  }

  /** Without a selection every slide is read. */
  lemma {:induction false} ReadSlidesAll(slides: seq<seq<Shape>>)
    ensures |ReadSlides(slides, [])| == |slides|
  {
    if slides != [] {
      ReadSlidesAll(slides[..|slides| - 1]);
    }
  }

  /** The extractor's success value. */
  datatype PptData = PptData(slides: seq<SlideData>, slideCount: nat, totalSlides: nat, roadmap: Roadmap, rawText: seq<string>)

  /** `extract_roadmap_from_ppt` once the presentation is open: `slides` is
      each slide's shapes, and `slideNumbers` the optional selection (an
      absent one is empty). */
  method ExtractRoadmapFromPpt(slides: seq<seq<Shape>>, slideNumbers: seq<int>,
                               versionsIn: string -> seq<string>, datesIn: string -> seq<string>)
    returns (r: PptData)
    ensures r.slides == ReadSlides(slides, slideNumbers) && r.slideCount == |r.slides| && r.totalSlides == |slides|
    ensures r.rawText == AllText(r.slides)
    ensures r.roadmap == TextRoadmap(r.rawText, versionsIn, datesIn)
  {
    var slidesData: seq<SlideData> := [];
    var allText: seq<string> := [];
    for i := 0 to |slides|
      invariant slidesData == ReadSlides(slides[..i], slideNumbers)
      invariant allText == AllText(slidesData)
    {
      assert slides[..i + 1][..i] == slides[..i];
      if slideNumbers != [] && i + 1 !in slideNumbers {
        continue;
      }
      var d := ReadSlide(i + 1, slides[i]);
      slidesData := slidesData + [d];
      allText := allText + d.textContent;
      assert slidesData[..|slidesData| - 1] == ReadSlides(slides[..i], slideNumbers);
    }
    assert slides[..|slides|] == slides;
    var roadmap := ParseRoadmapText(allText, versionsIn, datesIn);
    r := PptData(slidesData, |slidesData|, |slides|, roadmap, allText);
  }
}
