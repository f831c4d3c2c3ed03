/** The workbook transforms of the Excel utility: reading a sheet into
    header-keyed rows, the merge-sheet and add-sheet concatenations, the
    column auto-fit, the dashboard's value counts, the CSV conversion and
    the pairwise diff. A worksheet is its grid of cells; the formatting a
    cell carries is an opaque value. Loading a file is a parameter: its
    grid, or the error the loader raised. */
module ExcelUtils {
  import opened Common

  /** A non-empty cell's value as the code observes it: the text `str()`
      gives and whether Python counts it as true (a zero or `False` has a
      text but is false; text is true iff it is non-empty). */
  datatype Scalar = Scalar(text: string, truthy: bool)

  /** A cell's value: None when the cell is empty. */
  type Value = Option<Scalar>

  /** A text value, as the CSV reader and `row.get(col, '')` produce. */
  function TextValue(t: string): Value
  {
    Some(Scalar(t, t != []))
  }

  /** A cell: its value and its formatting (font, fill, hyperlink, ...). */
  datatype Cell<F> = Cell(value: Value, format: F)

  type Grid<F> = seq<seq<Cell<F>>>

  /** A data row: column name to value. */
  type Row = map<string, Value>

  /** What `_read_sheet_data` returns: headers, data rows and the parallel
      per-cell formats. */
  datatype SheetData<F> = SheetData(headers: seq<string>, rows: seq<Row>, formats: seq<map<string, F>>)

  /** An output cell: its value and the source cell's formatting, if any. */
  datatype OutCell<F> = OutCell(value: Value, format: Option<F>)

  // -----------------------------------------------------------------------
  // _read_sheet_data
  // -----------------------------------------------------------------------

  /** A header cell's name: its text, or `Column_i` (from 1) when empty. */
  function HeaderOf(v: Value, i: nat): string
  {
    if v.Some? then v.value.text else "Column_" + NatToString(i)
  }

  function HeadersOf<F>(row: seq<Cell<F>>): (h: seq<string>)
    ensures |h| == |row|
  {
    if row == [] then [] else HeadersOf(row[..|row| - 1]) + [HeaderOf(row[|row| - 1].value, |row|)]
  }

  /** The i-th header names the i-th header cell. */
  lemma {:induction false} HeadersOfSpec<F>(row: seq<Cell<F>>, i: nat)
    requires i < |row|
    ensures row[i].value.Some? ==> HeadersOf(row)[i] == row[i].value.value.text
    ensures row[i].value.None? ==> HeadersOf(row)[i] == "Column_" + NatToString(i + 1)
  {
    if i < |row| - 1 {
      HeadersOfSpec(row[..|row| - 1], i);
    }
  }

  predicate AllEmpty<F>(row: seq<Cell<F>>)
  {
    forall i :: 0 <= i < |row| ==> row[i].value.None?
  }

  /** The first k cells' values under their headers; where a header
      repeats, the later cell's value stays. */
  function RowUpTo<F>(headers: seq<string>, row: seq<Cell<F>>, k: nat): (r: Row)
    requires k <= |row| && k <= |headers|
    ensures forall h :: h in r <==> h in headers[..k]
  {
    if k == 0 then map[] else RowUpTo(headers, row, k - 1)[headers[k - 1] := row[k - 1].value]
  }

  function FormatsUpTo<F>(headers: seq<string>, row: seq<Cell<F>>, k: nat): (r: map<string, F>)
    requires k <= |row| && k <= |headers|
    ensures forall h :: h in r <==> h in headers[..k]
  {
    if k == 0 then map[] else FormatsUpTo(headers, row, k - 1)[headers[k - 1] := row[k - 1].format]
  }

  /** A cell under a header that occurs once carries that cell's value. */
  lemma {:induction false} RowUpToValue<F>(headers: seq<string>, row: seq<Cell<F>>, k: nat, j: nat)
    requires k <= |row| && k <= |headers| && j < k && NoDup(headers)
    ensures RowUpTo(headers, row, k)[headers[j]] == row[j].value
  {
    var prev := RowUpTo(headers, row, k - 1);
    assert RowUpTo(headers, row, k) == prev[headers[k - 1] := row[k - 1].value];
    if j < k - 1 {
      RowUpToValue(headers, row, k - 1, j);
      assert headers[j] != headers[k - 1];
    }
  }

  /** The data rows after the header, all-empty rows skipped, each cut to
      the header's width. */
  function DataOf<F>(headers: seq<string>, rows: Grid<F>): (r: (seq<Row>, seq<map<string, F>>))
    ensures |r.0| == |r.1| <= |rows|
  {
    if rows == [] then ([], [])
    else
      var prev := DataOf(headers, rows[..|rows| - 1]);
      var row := rows[|rows| - 1];
      var w := Min(|row|, |headers|);
      if AllEmpty(row) then prev
      else (prev.0 + [RowUpTo(headers, row, w)], prev.1 + [FormatsUpTo(headers, row, w)])
  }

  function SheetDataOf<F>(grid: Grid<F>): SheetData<F>
  {
    if grid == [] then SheetData([], [], [])
    else
      var headers := HeadersOf(grid[0]);
      var d := DataOf(headers, grid[1..]);
      SheetData(headers, d.0, d.1)
  }

  /** `_read_sheet_data`: the first row names the columns, later rows
      become dictionaries keyed by those names with their formats beside. */
  method ReadSheetData<F>(grid: Grid<F>) returns (d: SheetData<F>)
    ensures d == SheetDataOf(grid)
  {
    if grid == [] {
      return SheetData([], [], []);
    }
    var headers := HeadersOf(grid[0]);
    var rows: seq<Row> := [];
    var formats: seq<map<string, F>> := [];
    for r := 1 to |grid|
      invariant rows == DataOf(headers, grid[1..r]).0
      invariant formats == DataOf(headers, grid[1..r]).1
    {
      assert grid[1..r + 1] == grid[1..r] + [grid[r]];
      DataOfSnoc(headers, grid[1..r], grid[r]);
      var row := grid[r];
      if AllEmpty(row) {
        continue;
      }
      var rowDict, fmtDict := ReadRow(headers, row);
      rows := rows + [rowDict];
      formats := formats + [fmtDict];
    }
    assert grid[1..|grid|] == grid[1..];
    d := SheetData(headers, rows, formats);
  }

  /** One data row: each cell under its header, up to the header's width. */
  method ReadRow<F>(headers: seq<string>, row: seq<Cell<F>>) returns (rowDict: Row, fmtDict: map<string, F>)
    ensures rowDict == RowUpTo(headers, row, Min(|row|, |headers|))
    ensures fmtDict == FormatsUpTo(headers, row, Min(|row|, |headers|))
  {
    rowDict := map[];
    fmtDict := map[];
    for c := 0 to |row|
      invariant rowDict == RowUpTo(headers, row, Min(c, |headers|))
      invariant fmtDict == FormatsUpTo(headers, row, Min(c, |headers|))
    {
      if c < |headers| {
        rowDict := rowDict[headers[c] := row[c].value];
        fmtDict := fmtDict[headers[c] := row[c].format];
      }
    }
  }

  /** One more data row: kept, cut to the header's width, unless all
      empty. */
  lemma DataOfSnoc<F>(headers: seq<string>, rows: Grid<F>, row: seq<Cell<F>>)
    ensures DataOf(headers, rows + [row]) ==
      (var prev := DataOf(headers, rows);
       if AllEmpty(row) then prev
       else (prev.0 + [RowUpTo(headers, row, Min(|row|, |headers|))], prev.1 + [FormatsUpTo(headers, row, Min(|row|, |headers|))]))
  {
    var rs := rows + [row];
    assert rs[..|rs| - 1] == rows && rs[|rs| - 1] == row;
  }

  /** Rows and formats stay parallel, key for key, and a row holds only
      header columns: cells beyond the header row are dropped. */
  lemma {:induction false} DataOfParallel<F>(headers: seq<string>, rows: Grid<F>, i: nat)
    requires i < |DataOf(headers, rows).0|
    ensures DataOf(headers, rows).0[i].Keys == DataOf(headers, rows).1[i].Keys
    ensures forall h :: h in DataOf(headers, rows).0[i] ==> h in headers
  {
    var prev := DataOf(headers, rows[..|rows| - 1]);
    if i < |prev.0| {
      DataOfParallel(headers, rows[..|rows| - 1], i);
    } else {
      var row := rows[|rows| - 1];
      var w := Min(|row|, |headers|);
      assert forall h :: h in headers[..w] ==> h in headers;
    }
  }

  /** Every data row that is not all empty is kept. */
  lemma {:induction false} DataOfKeepsRows<F>(headers: seq<string>, rows: Grid<F>)
    requires forall i :: 0 <= i < |rows| ==> !AllEmpty(rows[i])
    ensures |DataOf(headers, rows).0| == |rows|
  {
    if rows != [] {
      DataOfKeepsRows(headers, rows[..|rows| - 1]);
    }
  }

  // -----------------------------------------------------------------------
  // concat_merge_sheet
  // -----------------------------------------------------------------------

  /** Every file's headers, one file after another. */
  function AllHeaders<F>(datas: seq<SheetData<F>>): seq<string>
  {
    if datas == [] then [] else AllHeaders(datas[..|datas| - 1]) + datas[|datas| - 1].headers
  }

  /** The merged sheet's columns: the union of the headers, first seen
      first. */
  function UnionColumns<F>(datas: seq<SheetData<F>>): seq<string>
  {
    Distinct(AllHeaders(datas))
  }

  /** An output row: the row's value under each column, empty where the
      row lacks the column, with the source cell's format. */
  function OutRow<F>(columns: seq<string>, row: Row, fmt: map<string, F>): (r: seq<OutCell<F>>)
    ensures |r| == |columns|
    ensures forall j :: 0 <= j < |columns| ==> r[j].value == (if columns[j] in row then row[columns[j]] else None)
  {
    seq(|columns|, j requires 0 <= j < |columns| =>
      OutCell(if columns[j] in row then row[columns[j]] else None,
              if columns[j] in fmt then Some(fmt[columns[j]]) else None))
  }

  function FormatAt<F>(formats: seq<map<string, F>>, i: nat): map<string, F>
  {
    if i < |formats| then formats[i] else map[]
  }

  /** The first k rows of one file, laid out on `columns`. */
  function SheetRows<F>(columns: seq<string>, d: SheetData<F>, k: nat): (r: seq<seq<OutCell<F>>>)
    requires k <= |d.rows|
    ensures |r| == k
  {
    if k == 0 then [] else SheetRows(columns, d, k - 1) + [OutRow(columns, d.rows[k - 1], FormatAt(d.formats, k - 1))]
  }

  function MergedRows<F>(columns: seq<string>, datas: seq<SheetData<F>>): seq<seq<OutCell<F>>>
  {
    if datas == [] then []
    else
      var d := datas[|datas| - 1];
      MergedRows(columns, datas[..|datas| - 1]) + SheetRows(columns, d, |d.rows|)
  }

  function TotalRows<F>(datas: seq<SheetData<F>>): nat
  {
    if datas == [] then 0 else TotalRows(datas[..|datas| - 1]) + |datas[|datas| - 1].rows|
  }

  /** The merged sheet has one row per data row of every file, each as
      wide as the column union. */
  lemma {:induction false} MergedRowsShape<F>(columns: seq<string>, datas: seq<SheetData<F>>)
    ensures |MergedRows(columns, datas)| == TotalRows(datas)
    ensures forall i :: 0 <= i < |MergedRows(columns, datas)| ==> |MergedRows(columns, datas)[i]| == |columns|
  {
    if datas != [] {
      var d := datas[|datas| - 1];
      MergedRowsShape(columns, datas[..|datas| - 1]);
      SheetRowsWidth(columns, d, |d.rows|);
    }
  }

  lemma {:induction false} SheetRowsWidth<F>(columns: seq<string>, d: SheetData<F>, k: nat)
    requires k <= |d.rows|
    ensures forall i :: 0 <= i < k ==> |SheetRows(columns, d, k)[i]| == |columns|
  {
    if k > 0 {
      SheetRowsWidth(columns, d, k - 1);
    }
  }

  /** The columns are distinct, every file's every header is one of them,
      and the first file's columns come first, in its order. */
  lemma UnionColumnsSpec<F>(datas: seq<SheetData<F>>)
    ensures NoDup(UnionColumns(datas))
    ensures forall i, h :: 0 <= i < |datas| && h in datas[i].headers ==> h in UnionColumns(datas)
    ensures datas != [] && NoDup(datas[0].headers) ==>
      |datas[0].headers| <= |UnionColumns(datas)| && UnionColumns(datas)[..|datas[0].headers|] == datas[0].headers
  {
    DistinctSpec(AllHeaders(datas));
    forall i, h | 0 <= i < |datas| && h in datas[i].headers ensures h in AllHeaders(datas) {
      AllHeadersHas(datas, i, h);
    }
    if datas != [] && NoDup(datas[0].headers) {
      var h0 := datas[0].headers;
      AllHeadersFirst(datas);
      DistinctPrefix(h0, AllHeaders(datas)[|h0|..]);
      assert AllHeaders(datas) == h0 + AllHeaders(datas)[|h0|..];
      DistinctOfNoDup(h0);
    }
  }

  lemma {:induction false} AllHeadersHas<F>(datas: seq<SheetData<F>>, i: nat, h: string)
    requires i < |datas| && h in datas[i].headers
    ensures h in AllHeaders(datas)
  {
    if i < |datas| - 1 {
      AllHeadersHas(datas[..|datas| - 1], i, h);
    }
  }

  lemma {:induction false} AllHeadersFirst<F>(datas: seq<SheetData<F>>)
    requires datas != []
    ensures |datas[0].headers| <= |AllHeaders(datas)|
    ensures AllHeaders(datas)[..|datas[0].headers|] == datas[0].headers
  {
    if |datas| > 1 {
      AllHeadersFirst(datas[..|datas| - 1]);
    } else {
      assert AllHeaders(datas) == AllHeaders(datas[..0]) + datas[0].headers;
    }
  }

  /** Every file's grid as `_read_sheet_data` reads it. */
  function SheetsOf<F>(grids: seq<Grid<F>>): (r: seq<SheetData<F>>)
    ensures |r| == |grids|
  {
    if grids == [] then [] else SheetsOf(grids[..|grids| - 1]) + [SheetDataOf(grids[|grids| - 1])]
  }

  /** The first load failure, if any. */
  function FirstFailure<T>(loads: seq<Result<T>>): (r: Option<string>)
    ensures r.None? <==> forall i :: 0 <= i < |loads| ==> loads[i].Ok?
  {
    if loads == [] then None
    else if loads[0].Err? then Some(loads[0].msg)
    else FirstFailure(loads[1..])
  }

  function Loaded<T>(loads: seq<Result<T>>): (r: seq<T>)
    requires forall i :: 0 <= i < |loads| ==> loads[i].Ok?
    ensures |r| == |loads| && forall i :: 0 <= i < |loads| ==> r[i] == loads[i].value
  {
    seq(|loads|, i requires 0 <= i < |loads| => loads[i].value)
  }

  datatype Merged<F> = Merged(columns: seq<string>, rows: seq<seq<OutCell<F>>>, totalRows: nat)

  /** `concat_merge_sheet`: read every file (failing at the first one that
      cannot be loaded), union the headers, then write every row of every
      file on the union's columns. */
  method ConcatMergeSheet<F>(loads: seq<Result<Grid<F>>>) returns (r: Result<Merged<F>>)
    ensures FirstFailure(loads).Some? ==> r == Err(FirstFailure(loads).value)
    ensures FirstFailure(loads).None? ==>
      var datas := SheetsOf(Loaded(loads));
      r == Ok(Merged(UnionColumns(datas), MergedRows(UnionColumns(datas), datas), TotalRows(datas)))
  {
    var datas: seq<SheetData<F>> := [];
    var ordered: seq<string> := [];
    var seen: set<string> := {};
    for i := 0 to |loads|
      invariant forall j :: 0 <= j < i ==> loads[j].Ok?
      invariant datas == SheetsOf(Loaded(loads[..i]))
      invariant ordered == UnionColumns(datas)
      invariant seen == set h | h in ordered
    {
      if loads[i].Err? {
        FirstFailureAt(loads, i);
        return Err(loads[i].msg);
      }
      LoadStep(loads, i);
      var d := ReadSheetData(loads[i].value);
      AllHeadersStep(datas, d);
      ordered, seen := AddColumns(AllHeaders(datas), ordered, seen, d.headers);
      datas := datas + [d];
    }
    assert loads[..|loads|] == loads;
    var rows, total := WriteMergedRows(ordered, datas);
    r := Ok(Merged(ordered, rows, total));
  }

  /** Reading one more file adds its sheet data at the end. */
  lemma LoadStep<F>(loads: seq<Result<Grid<F>>>, i: nat)
    requires i < |loads| && forall j :: 0 <= j <= i ==> loads[j].Ok?
    ensures SheetsOf(Loaded(loads[..i + 1])) == SheetsOf(Loaded(loads[..i])) + [SheetDataOf(loads[i].value)]
  {
    var next := Loaded(loads[..i + 1]);
    assert next == Loaded(loads[..i]) + [loads[i].value];
    assert next[..|next| - 1] == Loaded(loads[..i]);
  }

  lemma AllHeadersStep<F>(datas: seq<SheetData<F>>, d: SheetData<F>)
    ensures AllHeaders(datas + [d]) == AllHeaders(datas) + d.headers
  {
    assert (datas + [d])[..|datas|] == datas;
  }

  /** The inner loop of phase 1: append each header not yet seen. */
  method AddColumns(before: seq<string>, ordered0: seq<string>, seen0: set<string>, headers: seq<string>)
    returns (ordered: seq<string>, seen: set<string>)
    requires ordered0 == Distinct(before) && seen0 == set h | h in ordered0
    ensures ordered == Distinct(before + headers) && seen == set h | h in ordered
  {
    ordered, seen := ordered0, seen0;
    assert before + headers[..0] == before;
    for k := 0 to |headers|
      invariant ordered == Distinct(before + headers[..k])
      invariant seen == set h | h in ordered
    {
      var h := headers[k];
      assert before + headers[..k + 1] == (before + headers[..k]) + [h];
      if h !in seen {
        ordered := ordered + [h];
        seen := seen + {h};
      }
    }
    assert headers[..|headers|] == headers;
  }

  /** Phase 2 of `concat_merge_sheet`: every row of every file on the
      union's columns, counted. */
  method WriteMergedRows<F>(ordered: seq<string>, datas: seq<SheetData<F>>)
    returns (rows: seq<seq<OutCell<F>>>, total: nat)
    ensures rows == MergedRows(ordered, datas) && total == TotalRows(datas)
  {
    rows := [];
    total := 0;
    for i := 0 to |datas|
      invariant rows == MergedRows(ordered, datas[..i]) && total == TotalRows(datas[..i])
    {
      assert datas[..i + 1][..i] == datas[..i];
      var d := datas[i];
      for k := 0 to |d.rows|
        invariant rows == MergedRows(ordered, datas[..i]) + SheetRows(ordered, d, k)
        invariant total == TotalRows(datas[..i]) + k
      {
        rows := rows + [OutRow(ordered, d.rows[k], FormatAt(d.formats, k))];
        total := total + 1;
      }
    }
    assert datas[..|datas|] == datas;
  }

  lemma {:induction false} FirstFailureAt<T>(loads: seq<Result<T>>, i: nat)
    requires i < |loads| && loads[i].Err? && forall j :: 0 <= j < i ==> loads[j].Ok?
    ensures FirstFailure(loads) == Some(loads[i].msg)
  {
    if i > 0 {
      FirstFailureAt(loads[1..], i - 1);
    }
  }

  // -----------------------------------------------------------------------
  // concat_add_sheet: sheet names
  // -----------------------------------------------------------------------

  /** The sheet name a file asks for: its name without directory or
      extension, cut to Excel's 31 characters. */
  function SheetBase(path: string): (r: string)
    ensures |r| <= 31
  {
    Take(SplitExt(Basename(path)).0, 31)
  }

  /** The name for the n-th clash of `name`. */
  function Suffixed(name: string, n: nat): string
  {
    Take(name, 28) + "_" + NatToString(n)
  }

  /** Different suffixes give different names. */
  lemma SuffixedInjective(name: string, a: nat, b: nat)
    requires Suffixed(name, a) == Suffixed(name, b)
    ensures a == b
  {
    var p := Take(name, 28) + "_";
    assert Suffixed(name, a)[|p|..] == NatToString(a);
    assert Suffixed(name, b)[|p|..] == NatToString(b);
    DigitsOfNat(a);
    DigitsOfNat(b);
  }

  /** The clash names tried before suffix n. */
  function Tried(name: string, n: nat): set<string>
  {
    set k | 2 <= k < n :: Suffixed(name, k)
  }

  lemma TriedStep(name: string, n: nat)
    requires n >= 2
    ensures Tried(name, n + 1) == Tried(name, n) + {Suffixed(name, n)}
    ensures Suffixed(name, n) !in Tried(name, n)
  {
    if Suffixed(name, n) in Tried(name, n) {
      var k :| 2 <= k < n && Suffixed(name, k) == Suffixed(name, n);
      SuffixedInjective(name, k, n);
    }
  }

  /** The smallest suffix from n on whose name is free. */
  function FreeSuffix(used: set<string>, name: string, n: nat): (k: nat)
    requires n >= 2
    ensures k >= n && Suffixed(name, k) !in used
    ensures forall j :: n <= j < k ==> Suffixed(name, j) in used
    decreases used - Tried(name, n)
  {
    if Suffixed(name, n) !in used then n
    else
      TriedStep(name, n);
      FreeSuffix(used, name, n + 1)
  }

  /** The name a file gets: its base, or on a clash the first free
      `base[:28]_n` from n = 2. */
  function UniqueName(used: set<string>, base: string): string
  {
    if base in used then Suffixed(base, FreeSuffix(used, base, 2)) else base
  }

  /** The name the next file gets after the sheets `prev`. */
  function NextName(prev: seq<string>, path: string): string
  {
    UniqueName(SetOf(prev), SheetBase(path))
  }

  function SheetNames(paths: seq<string>): (r: seq<string>)
    ensures |r| == |paths|
  {
    if paths == [] then [] else SheetNames(paths[..|paths| - 1]) + [NextName(SheetNames(paths[..|paths| - 1]), paths[|paths| - 1])]
  }

  /** A base nobody used is kept; a used one becomes `base[:28]_n` for the
      smallest n >= 2 still free. */
  lemma UniqueNameSpec(used: set<string>, base: string)
    ensures base !in used ==> UniqueName(used, base) == base
    ensures base in used ==> (exists k :: k >= 2 && UniqueName(used, base) == Suffixed(base, k) && Suffixed(base, k) !in used && (forall j :: 2 <= j < k ==> Suffixed(base, j) in used))
    ensures UniqueName(used, base) !in used
  {
    if base in used {
      var k := FreeSuffix(used, base, 2);
      assert UniqueName(used, base) == Suffixed(base, k);
    }
  }

  /** The naming loop of `concat_add_sheet`. */
  method NameSheets(paths: seq<string>) returns (names: seq<string>)
    ensures names == SheetNames(paths)
  {
    names := [];
    var used: set<string> := {};
    for i := 0 to |paths|
      invariant names == SheetNames(paths[..i])
      invariant used == SetOf(names)
    {
      var sheetName := Name(used, SheetBase(paths[i]));
      SheetNamesStep(paths, i);
      SetOfSnoc(names, sheetName);
      used := used + {sheetName};
      names := names + [sheetName];
    }
    assert paths[..|paths|] == paths;
  }

  lemma SheetNamesStep(paths: seq<string>, i: nat)
    requires i < |paths|
    ensures SheetNames(paths[..i + 1]) == SheetNames(paths[..i]) + [NextName(SheetNames(paths[..i]), paths[i])]
  {
    assert paths[..i + 1][..i] == paths[..i];
  }

  /** One file's sheet name: its base, or the first free suffixed name. */
  method Name(used: set<string>, base: string) returns (sheetName: string)
    ensures sheetName == UniqueName(used, base)
  {
    sheetName := base;
    if sheetName in used {
      var suffix := 2;
      while Suffixed(sheetName, suffix) in used
        invariant suffix >= 2
        invariant FreeSuffix(used, sheetName, 2) == FreeSuffix(used, sheetName, suffix)
        decreases used - Tried(sheetName, suffix)
      {
        TriedStep(sheetName, suffix);
        suffix := suffix + 1;
      }
      sheetName := Suffixed(sheetName, suffix);
    }
  }

  /** All sheet names differ. */
  lemma {:induction false} SheetNamesDistinct(paths: seq<string>)
    ensures NoDup(SheetNames(paths))
  {
    if paths != [] {
      var prev := SheetNames(paths[..|paths| - 1]);
      SheetNamesDistinct(paths[..|paths| - 1]);
      UniqueNameSpec(SetOf(prev), SheetBase(paths[|paths| - 1]));
    }
  }

  /** A name is the file's base when no earlier sheet took it; otherwise
      `base[:28]_n` for the smallest n >= 2 still free. */
  lemma SheetNameForm(paths: seq<string>, i: nat)
    requires i < |paths|
    ensures SheetNames(paths)[i] == NextName(SheetNames(paths)[..i], paths[i])
  {
    SheetNamesPrefix(paths, i + 1);
    SheetNamesPrefix(paths, i);
    var s := SheetNames(paths[..i + 1]);
    assert paths[..i + 1][..i] == paths[..i];
    assert s == SheetNames(paths[..i]) + [NextName(SheetNames(paths[..i]), paths[i])];
    assert SheetNames(paths)[i] == SheetNames(paths)[..i + 1][i];
  }

  /** Naming is done file by file: later files do not rename earlier ones. */
  lemma {:induction false} SheetNamesPrefix(paths: seq<string>, k: nat)
    requires k <= |paths|
    ensures SheetNames(paths)[..k] == SheetNames(paths[..k])
  {
    if k == |paths| {
      assert paths[..k] == paths;
    } else {
      var init := paths[..|paths| - 1];
      SheetNamesPrefix(init, k);
      assert init[..k] == paths[..k];
      assert SheetNames(paths)[..k] == SheetNames(init)[..k];
    }
  }

  /** An added sheet: its name, its header row and its data rows. */
  datatype AddedSheet<F> = AddedSheet(title: string, headers: seq<string>, rows: seq<seq<OutCell<F>>>)

  /** `concat_add_sheet`: each file as its own sheet, named as above, with
      its own headers and rows. */
  function ConcatAddSheet<F>(paths: seq<string>, loads: seq<Result<Grid<F>>>): Result<seq<AddedSheet<F>>>
    requires |paths| == |loads|
  {
    match FirstFailure(loads)
    case Some(e) => Err(e)
    case None =>
      var datas := SheetsOf(Loaded(loads));
      var names := SheetNames(paths);
      Ok(seq(|paths|, i requires 0 <= i < |paths| =>
        AddedSheet(names[i], datas[i].headers, SheetRows(datas[i].headers, datas[i], |datas[i].rows|))))
  }

  /** One sheet per file, all distinctly named, each with all its rows. */
  lemma ConcatAddSheetSpec<F>(paths: seq<string>, loads: seq<Result<Grid<F>>>)
    requires |paths| == |loads|
    ensures ConcatAddSheet(paths, loads).Ok? <==> FirstFailure(loads).None?
    ensures ConcatAddSheet(paths, loads).Ok? ==> |ConcatAddSheet(paths, loads).value| == |paths|
    ensures ConcatAddSheet(paths, loads).Ok? ==> NoDup(SheetTitles(ConcatAddSheet(paths, loads).value))
    ensures ConcatAddSheet(paths, loads).Ok? ==>
      forall i :: 0 <= i < |paths| ==> |ConcatAddSheet(paths, loads).value[i].rows| == |SheetDataOf(loads[i].value).rows|
  {
    if FirstFailure(loads).None? {
      var sheets := ConcatAddSheet(paths, loads).value;
      SheetNamesDistinct(paths);
      assert SheetTitles(sheets) == SheetNames(paths);
      forall i | 0 <= i < |paths| ensures |sheets[i].rows| == |SheetDataOf(loads[i].value).rows| {
        SheetsOfAt(Loaded(loads), i);
      }
    }
  }

  function SheetTitles<F>(sheets: seq<AddedSheet<F>>): (r: seq<string>)
    ensures |r| == |sheets| && forall i :: 0 <= i < |sheets| ==> r[i] == sheets[i].title
  {
    seq(|sheets|, i requires 0 <= i < |sheets| => sheets[i].title)
  }

  lemma {:induction false} SheetsOfAt<F>(grids: seq<Grid<F>>, i: nat)
    requires i < |grids|
    ensures SheetsOf(grids)[i] == SheetDataOf(grids[i])
  {
    if i < |grids| - 1 {
      SheetsOfAt(grids[..|grids| - 1], i);
    }
  }

  // -----------------------------------------------------------------------
  // _auto_fit_columns
  // -----------------------------------------------------------------------

  /** `ws.cell(row, column).value` for 0-based positions. */
  function ValueAt<F>(grid: Grid<F>, r: nat, c: nat): Value
  {
    if r < |grid| && c < |grid[r]| then grid[r][c].value else None
  }

  function TextLength(v: Value): nat { if v.Some? then |v.value.text| else 0 }

  /** The longest text in column c over the first k rows. */
  function ColumnMax<F>(grid: Grid<F>, c: nat, k: nat): nat
  {
    if k == 0 then 0 else Max(ColumnMax(grid, c, k - 1), TextLength(ValueAt(grid, k - 1, c)))
  }

  /** Two more than the longest text, at least 10 and at most 50. */
  function FitWidth(maxLen: nat): (w: nat)
    ensures 10 <= w <= 50
    ensures maxLen + 2 <= 50 ==> w >= maxLen + 2
  {
    Min(Max(maxLen + 2, 10), 50)
  }

  /** How many rows are sampled: the header and up to 100 more. */
  function SampleRows(maxRow: nat): nat { Min(maxRow, 101) }

  /** `_auto_fit_columns` over a sheet of `maxColumn` columns. */
  method AutoFitColumns<F>(grid: Grid<F>, maxColumn: nat) returns (widths: seq<nat>)
    ensures |widths| == maxColumn
    ensures forall c :: 0 <= c < maxColumn ==> widths[c] == FitWidth(ColumnMax(grid, c, SampleRows(|grid|)))
  {
    widths := [];
    for c := 0 to maxColumn
      invariant |widths| == c
      invariant forall j :: 0 <= j < c ==> widths[j] == FitWidth(ColumnMax(grid, j, SampleRows(|grid|)))
    {
      var maxLen := 0;
      for r := 0 to SampleRows(|grid|)
        invariant maxLen == ColumnMax(grid, c, r)
      {
        var v := ValueAt(grid, r, c);
        if v.Some? {
          maxLen := Max(maxLen, |v.value.text|);
        }
      }
      widths := widths + [FitWidth(maxLen)];
    }
  }

  /** The sampled maximum bounds every sampled text and is reached by one
      (or is 0). */
  lemma {:induction false} ColumnMaxSpec<F>(grid: Grid<F>, c: nat, k: nat)
    ensures forall r :: 0 <= r < k ==> TextLength(ValueAt(grid, r, c)) <= ColumnMax(grid, c, k)
    ensures ColumnMax(grid, c, k) == 0 || exists r :: 0 <= r < k && TextLength(ValueAt(grid, r, c)) == ColumnMax(grid, c, k)
  {
    if k > 0 {
      ColumnMaxSpec(grid, c, k - 1);
    }
  }

  /** Rows after the 101st never change a width. */
  lemma {:induction false} ColumnMaxIgnoresLater<F>(grid: Grid<F>, more: Grid<F>, c: nat, k: nat)
    requires k <= |grid|
    ensures ColumnMax(grid + more, c, k) == ColumnMax(grid, c, k)
  {
    if k > 0 {
      ColumnMaxIgnoresLater(grid, more, c, k - 1);
      assert (grid + more)[k - 1] == grid[k - 1];
    }
  }

  // -----------------------------------------------------------------------
  // _create_dashboard_sheet
  // -----------------------------------------------------------------------

  /** The summarised categories: display title and header to match. */
  const Categories: seq<(string, string)> :=
    [("Phase", "phase"), ("Customer", "customer"), ("Product", "product"), ("Module", "module"), ("Priority", "priority")]

  /** The name a header is looked up by. */
  function HeaderKey(h: string): string { Lower(Strip(h)) }

  /** Each key to the position of its last occurrence. */
  function LastIndex<T(==)>(keys: seq<T>): map<T, nat>
  {
    if keys == [] then map[] else LastIndex(keys[..|keys| - 1])[keys[|keys| - 1] := |keys| - 1]
  }

  /** A key is mapped exactly when it occurs. */
  lemma {:induction false} LastIndexDomain<T>(keys: seq<T>, k: T)
    ensures k in LastIndex(keys) <==> k in keys
  {
    if keys != [] {
      var init := keys[..|keys| - 1];
      LastIndexDomain(init, k);
      assert keys == init + [keys[|keys| - 1]];
    }
  }

  /** A key maps to its last occurrence. */
  lemma {:induction false} LastIndexLast<T>(keys: seq<T>, k: T)
    requires k in LastIndex(keys)
    ensures LastIndex(keys)[k] < |keys| && keys[LastIndex(keys)[k]] == k
    ensures forall j :: LastIndex(keys)[k] < j < |keys| ==> keys[j] != k
  {
    var init := keys[..|keys| - 1];
    if keys[|keys| - 1] != k {
      LastIndexLast(init, k);
    }
  }

  /** Every header's looked-up name, in order. */
  function HeaderKeys(headers: seq<string>): (r: seq<string>)
    ensures |r| == |headers| && forall j :: 0 <= j < |headers| ==> r[j] == HeaderKey(headers[j])
  {
    seq(|headers|, j requires 0 <= j < |headers| => HeaderKey(headers[j]))
  }

  /** The header lookup: looked-up name to column (counted from 0 here);
      a later header with the same name replaces an earlier one. */
  function HeaderLookup(headers: seq<string>): map<string, nat>
  {
    LastIndex(HeaderKeys(headers))
  }

  /** A category is found exactly when some header carries its name, and
      then at the last such header. */
  lemma HeaderLookupSpec(headers: seq<string>, k: string)
    ensures k in HeaderLookup(headers) <==> k in HeaderKeys(headers)
    ensures k in HeaderLookup(headers) ==> HeaderLookup(headers)[k] < |headers|
    ensures k in HeaderLookup(headers) ==> HeaderKey(headers[HeaderLookup(headers)[k]]) == k
    ensures k in HeaderLookup(headers) ==>
      forall j :: HeaderLookup(headers)[k] < j < |headers| ==> HeaderKey(headers[j]) != k
  {
    LastIndexDomain(HeaderKeys(headers), k);
    if k in HeaderLookup(headers) {
      LastIndexLast(HeaderKeys(headers), k);
    }
  }

  /** How a value is counted: its stripped text, `(blank)` when empty,
      false (a zero included) or blank. */
  function Label(v: Value): (l: string)
    ensures l != []
    ensures l == "(blank)" || (v.Some? && v.value.truthy && l == Strip(v.value.text))
    ensures v.None? || !v.value.truthy ==> l == "(blank)"
  {
    if v.None? || !v.value.truthy then "(blank)"
    else if Strip(v.value.text) == [] then "(blank)"
    else Strip(v.value.text)
  }

  /** Count descending, then value ascending. */
  predicate Before(a: (string, nat), b: (string, nat))
  {
    a.1 > b.1 || (a.1 == b.1 && StrLessEq(a.0, b.0))
  }

  predicate SortedCounts(s: seq<(string, nat)>)
  {
    forall i :: 0 <= i < |s| - 1 ==> Before(s[i], s[i + 1])
  }

  function Insert(x: (string, nat), s: seq<(string, nat)>): seq<(string, nat)>
  {
    if s == [] || Before(x, s[0]) then [x] + s else [s[0]] + Insert(x, s[1..])
  }

  /** `sorted(counts.items(), key=lambda x: (-x[1], x[0]))` */
  function SortCounts(s: seq<(string, nat)>): seq<(string, nat)>
  {
    if s == [] then [] else Insert(s[0], SortCounts(s[1..]))
  }

  lemma {:induction false} InsertSpec(x: (string, nat), s: seq<(string, nat)>)
    requires SortedCounts(s)
    ensures SortedCounts(Insert(x, s))
    ensures multiset(Insert(x, s)) == multiset(s) + multiset{x}
    ensures Insert(x, s) != [] && (Insert(x, s)[0] == x || (s != [] && Insert(x, s)[0] == s[0]))
  {
    if s != [] && !Before(x, s[0]) {
      StrLessEqTotal(x.0, s[0].0);
      InsertSpec(x, s[1..]);
      assert s == [s[0]] + s[1..];
    }
  }

  /** The table is sorted and holds exactly the counted entries. */
  lemma {:induction false} SortCountsSpec(s: seq<(string, nat)>)
    ensures SortedCounts(SortCounts(s))
    ensures multiset(SortCounts(s)) == multiset(s)
  {
    if s != [] {
      SortCountsSpec(s[1..]);
      InsertSpec(s[0], SortCounts(s[1..]));
      assert s == [s[0]] + s[1..];
    }
  }

  /** One dashboard table: its title, its sorted counts and its total. */
  datatype Table = Table(title: string, counts: seq<(string, nat)>, total: nat)

  /** The labels of column `col` over the data rows. */
  function ColumnLabels<F>(dataRows: Grid<F>, col: nat): seq<string>
  {
    if dataRows == [] then []
    else ColumnLabels(dataRows[..|dataRows| - 1], col) + [Label(ValueAt(dataRows, |dataRows| - 1, col))]
  }

  function TablesOf<F>(headers: seq<string>, dataRows: Grid<F>, cats: seq<(string, string)>): seq<Table>
  {
    if cats == [] then []
    else
      var prev := TablesOf(headers, dataRows, cats[..|cats| - 1]);
      var (title, key) := cats[|cats| - 1];
      var lookup := HeaderLookup(headers);
      if key !in lookup then prev
      else
        var counts := Tally(ColumnLabels(dataRows, lookup[key]));
        prev + [Table(title, SortCounts(counts), SumCounts(counts))]
  }

  /** The tables of `_create_dashboard_sheet` for the data rows under
      `headers`: one per category whose column exists, in category order;
      no sheet when there is none. */
  method CreateDashboard<F>(headers: seq<string>, dataRows: Grid<F>) returns (tables: Option<seq<Table>>)
    ensures TablesOf(headers, dataRows, Categories) == [] ==> tables == None
    ensures TablesOf(headers, dataRows, Categories) != [] ==> tables == Some(TablesOf(headers, dataRows, Categories))
  {
    var lookup := HeaderLookup(headers);
    var data: seq<Table> := [];
    for i := 0 to |Categories|
      invariant data == TablesOf(headers, dataRows, Categories[..i])
    {
      assert Categories[..i + 1][..i] == Categories[..i];
      var (title, key) := Categories[i];
      if key !in lookup {
        continue;
      }
      var counts := CountColumn(dataRows, lookup[key]);
      data := data + [Table(title, SortCounts(counts), SumCounts(counts))];
    }
    assert Categories[..|Categories|] == Categories;
    if data == [] {
      return None;
    }
    tables := Some(data);
  }

  /** The counting loop over one column's data cells. */
  method CountColumn<F>(dataRows: Grid<F>, col: nat) returns (counts: seq<(string, nat)>)
    ensures counts == Tally(ColumnLabels(dataRows, col))
  {
    counts := [];
    for r := 0 to |dataRows|
      invariant counts == Tally(ColumnLabels(dataRows[..r], col))
    {
      ColumnLabelsPrefix(dataRows, r, col);
      counts := Bump(counts, Label(ValueAt(dataRows, r, col)));
    }
    assert dataRows[..|dataRows|] == dataRows;
  }

  lemma ColumnLabelsPrefix<F>(dataRows: Grid<F>, r: nat, col: nat)
    requires r < |dataRows|
    ensures ColumnLabels(dataRows[..r + 1], col) == ColumnLabels(dataRows[..r], col) + [Label(ValueAt(dataRows, r, col))]
  {
    assert dataRows[..r + 1][..r] == dataRows[..r];
    assert ValueAt(dataRows[..r + 1], r, col) == ValueAt(dataRows, r, col);
  }

  /** Every table belongs to a category whose column exists and carries
      its title; its total is the number of data rows, its rows are sorted
      by count then value, it is a reordering of the column's tally, and
      an entry is in it exactly when its value is one of the column's
      labels and its count is the number of rows with that label. */
  lemma DashboardTable<F>(headers: seq<string>, dataRows: Grid<F>, cats: seq<(string, string)>, t: Table)
    requires t in TablesOf(headers, dataRows, cats)
    ensures t.total == |dataRows|
    ensures SortedCounts(t.counts)
    ensures exists c :: (c in cats && c.1 in HeaderLookup(headers) && t.title == c.0
                         && TableOfColumn(t, ColumnLabels(dataRows, HeaderLookup(headers)[c.1])))
  {
    var prev := TablesOf(headers, dataRows, cats[..|cats| - 1]);
    if t in prev {
      DashboardTable(headers, dataRows, cats[..|cats| - 1], t);
      var c :| c in cats[..|cats| - 1] && c.1 in HeaderLookup(headers) && t.title == c.0
        && TableOfColumn(t, ColumnLabels(dataRows, HeaderLookup(headers)[c.1]));
      assert c in cats;
    } else {
      var c := cats[|cats| - 1];
      var labels := ColumnLabels(dataRows, HeaderLookup(headers)[c.1]);
      ColumnLabelsLength(dataRows, HeaderLookup(headers)[c.1]);
      TallySpec(labels);
      TallyEntries(labels);
      SortCountsSpec(Tally(labels));
      forall e: (string, nat) ensures e in t.counts <==> e in Tally(labels) {
        assert e in t.counts <==> e in multiset(t.counts);
      }
    }
  }

  /** A table's counts are a reordering of the labels' tally: one entry
      per label, with the number of times it occurs. */
  ghost predicate TableOfColumn(t: Table, labels: seq<string>)
  {
    && multiset(t.counts) == multiset(Tally(labels))
    && forall e: (string, nat) :: e in t.counts <==> e.0 in labels && e.1 == Occurrences(labels, e.0)
  }

  lemma {:induction false} ColumnLabelsLength<F>(dataRows: Grid<F>, col: nat)
    ensures |ColumnLabels(dataRows, col)| == |dataRows|
  {
    if dataRows != [] {
      ColumnLabelsLength(dataRows[..|dataRows| - 1], col);
    }
  }

  // -----------------------------------------------------------------------
  // convert_from_csv
  // -----------------------------------------------------------------------

  /** `s.rstrip('/')` */
  function RStripSlash(s: string): (r: string)
    ensures |r| <= |s|
    ensures r == s[..|r|] && (r == [] || r[|r| - 1] != '/')
  {
    if s == [] || s[|s| - 1] != '/' then s else RStripSlash(s[..|s| - 1])
  }

  predicate IsKeyHeader(h: string) { Lower(Strip(h)) == "key" }

  /** A written cell: its value and the hyperlink it carries, if any. */
  datatype LinkedCell = LinkedCell(value: Value, link: Option<string>)

  datatype Converted = Converted(path: string, title: string, headers: seq<string>, rows: seq<seq<LinkedCell>>)

  /** `value = row_data.get(col, '')` and the link the cell gets: only a
      non-empty value in a `key` column, when a base URL is set. */
  function CsvCell(url: string, header: string, row: map<string, Value>): LinkedCell
  {
    var value := if header in row then row[header] else TextValue("");
    var link := if url != [] && IsKeyHeader(header) && value.Some? && value.value.text != []
                then Some(url + "/browse/" + value.value.text) else None;
    LinkedCell(value, link)
  }

  function ConvertedPath(inputFile: string, outputFile: string): (p: string)
    ensures EndsWith(p, ".xlsx")
  {
    var out := if outputFile == [] then SplitExt(inputFile).0 + ".xlsx" else outputFile;
    if EndsWith(out, ".xlsx") then out else out + ".xlsx"
  }

  /** `convert_from_csv`: `exists` says whether the file exists and `read`
      is what the CSV reader gave (header names and rows, or its error). */
  function ConvertFromCsv(inputFile: string, fileExists: bool, read: Result<(seq<string>, seq<map<string, Value>>)>,
                          outputFile: string, baseUrl: string): Result<Converted>
  {
    if !fileExists then Err("File not found: " + inputFile)
    else if read.Err? then Err("Failed to read CSV file \"" + inputFile + "\": " + read.msg)
    else
      var (headers, rows) := read.value;
      if headers == [] then Err("CSV file \"" + inputFile + "\" has no header row")
      else
        var url := if baseUrl != [] then RStripSlash(baseUrl) else [];
        Ok(Converted(ConvertedPath(inputFile, outputFile), Take(SplitExt(Basename(inputFile)).0, 31), headers,
          seq(|rows|, i requires 0 <= i < |rows| =>
            seq(|headers|, j requires 0 <= j < |headers| => CsvCell(url, headers[j], rows[i])))))
  }

  /** A cell is linked exactly when a base URL is given, its column is a
      `key` column and its value is non-empty; the link is the base without
      trailing slashes, `/browse/`, and the value. */
  lemma ConvertLinks(inputFile: string, read: Result<(seq<string>, seq<map<string, Value>>)>,
                     outputFile: string, baseUrl: string, i: nat, j: nat)
    requires read.Ok? && read.value.0 != [] && i < |read.value.1| && j < |read.value.0|
    ensures ConvertFromCsv(inputFile, true, read, outputFile, baseUrl).Ok?
    ensures var c := ConvertFromCsv(inputFile, true, read, outputFile, baseUrl).value.rows[i][j];
      var h := read.value.0[j];
      var row := read.value.1[i];
      (c.link.Some? <==> RStripSlash(baseUrl) != [] && IsKeyHeader(h) && h in row && row[h].Some? && row[h].value.text != [])
      && (c.link.Some? ==> c.link.value == RStripSlash(baseUrl) + "/browse/" + row[h].value.text)
  {
  }

  // -----------------------------------------------------------------------
  // diff_files
  // -----------------------------------------------------------------------

  /** The key column: `key`, `Key` or `KEY` if present, else the first
      column, else none. */
  function KeyColumn(union: seq<string>): (k: Option<string>)
    ensures k.Some? ==> k.value in union
    ensures k.None? <==> union == []
  {
    if "key" in union then Some("key")
    else if "Key" in union then Some("Key")
    else if "KEY" in union then Some("KEY")
    else if union != [] then Some(union[0])
    else None
  }

  /** `str(row.get(key_col, '')) if key_col else ''` as written: an empty
      key cell reads as the text "None", which is not empty. */
  function RowKeyAsWritten(row: Row, keyCol: Option<string>): string
  {
    if keyCol.None? || keyCol.value == [] || keyCol.value !in row then ""
    else match row[keyCol.value]
      case None => "None"
      case Some(v) => v.text
  }

  /** A row whose key cell is empty gets the key "None" as written, so it
      is indexed, and blank-key rows of two files pair up with each other. */
  lemma BlankKeyIndexedAsWritten()
    ensures var row: Row := map["Key" := None, "Summary" := TextValue("fix")];
      RowKeyAsWritten(row, Some("Key")) == "None" && RowKeyAsWritten(row, Some("Key")) != ""
  {
  }

  /** A row's key: the text of its key cell (a zero reads "0"), empty (so
      the row is not indexed) when there is no key column, the column's
      name is empty, or the key cell is empty. */
  function RowKey(row: Row, keyCol: Option<string>): (k: string)
    ensures k != "" ==> keyCol.Some? && keyCol.value in row && row[keyCol.value].Some?
                        && row[keyCol.value].value.text == k
    ensures keyCol.Some? && keyCol.value != [] && keyCol.value in row && row[keyCol.value].Some? ==>
              k == row[keyCol.value].value.text
    ensures keyCol.None? || keyCol.value == [] || keyCol.value !in row || row[keyCol.value].None? ==> k == ""
  {
    if keyCol.None? || keyCol.value == [] || keyCol.value !in row then ""
    else match row[keyCol.value]
      case None => ""
      case Some(v) => v.text
  }

  /** The two differ only on a row whose key cell is empty. */
  lemma RowKeyCorrects(row: Row, keyCol: Option<string>)
    ensures RowKey(row, keyCol) != RowKeyAsWritten(row, keyCol) <==>
      keyCol.Some? && keyCol.value != [] && keyCol.value in row && row[keyCol.value].None?
  {
  }

  /** `str(row.get(h, '') or '')`: every false value, zero included,
      compares as the empty text. */
  function CompareText(row: Row, h: string): (t: string)
    ensures t != "" <==> h in row && row[h].Some? && row[h].value.truthy && row[h].value.text != ""
    ensures t != "" ==> t == row[h].value.text
  {
    if h in row && row[h].Some? && row[h].value.truthy then row[h].value.text else ""
  }

  /** `row.get(h, '')` for each union column. */
  function RowValues(union: seq<string>, row: Row): seq<Value>
  {
    seq(|union|, j requires 0 <= j < |union| => if union[j] in row then row[union[j]] else TextValue(""))
  }

  /** The non-empty keys of the rows, in row order. */
  function RowKeys(rows: seq<Row>, keyCol: Option<string>): seq<string>
  {
    if rows == [] then []
    else
      var k := RowKey(rows[|rows| - 1], keyCol);
      RowKeys(rows[..|rows| - 1], keyCol) + (if k != [] then [k] else [])
  }

  /** `index[k] = row`: the last row with each key. */
  function Index(rows: seq<Row>, keyCol: Option<string>): map<string, Row>
  {
    if rows == [] then map[]
    else
      var k := RowKey(rows[|rows| - 1], keyCol);
      if k != [] then Index(rows[..|rows| - 1], keyCol)[k := rows[|rows| - 1]] else Index(rows[..|rows| - 1], keyCol)
  }

  /** The index's keys, in the order a dict keeps them: first insertion. */
  function KeyOrder(rows: seq<Row>, keyCol: Option<string>): seq<string>
  {
    Distinct(RowKeys(rows, keyCol))
  }

  lemma {:induction false} IndexKeys(rows: seq<Row>, keyCol: Option<string>)
    ensures forall k :: k in Index(rows, keyCol) <==> k in RowKeys(rows, keyCol)
  {
    if rows != [] {
      IndexKeys(rows[..|rows| - 1], keyCol);
    }
  }

  /** Every indexed row carries its key in the key column. */
  lemma {:induction false} IndexKeyCell(rows: seq<Row>, keyCol: Option<string>, k: string)
    requires k in Index(rows, keyCol)
    ensures keyCol.Some? && keyCol.value in Index(rows, keyCol)[k]
    ensures Index(rows, keyCol)[k][keyCol.value].Some? && Index(rows, keyCol)[k][keyCol.value].value.text == k
  {
    assert rows != [];
    var init := rows[..|rows| - 1];
    var last := rows[|rows| - 1];
    var lk := RowKey(last, keyCol);
    if lk != "" && lk == k {
      assert Index(rows, keyCol)[k] == last;
    } else {
      assert Index(rows, keyCol)[k] == Index(init, keyCol)[k];
      IndexKeyCell(init, keyCol, k);
    }
  }

  lemma KeyOrderSpec(rows: seq<Row>, keyCol: Option<string>)
    ensures NoDup(KeyOrder(rows, keyCol))
    ensures forall k :: k in KeyOrder(rows, keyCol) <==> k in Index(rows, keyCol)
  {
    DistinctSpec(RowKeys(rows, keyCol));
    IndexKeys(rows, keyCol);
  }

  /** The differing columns as `h: "a" → "b"`. */
  function Changes(union: seq<string>, a: Row, b: Row): seq<string>
  {
    if union == [] then []
    else
      var h := union[|union| - 1];
      var va := CompareText(a, h);
      var vb := CompareText(b, h);
      Changes(union[..|union| - 1], a, b) + ChangeLine(h, va, vb)
  }

  /** The report line for one column: empty when both sides read the same. */
  function ChangeLine(h: string, va: string, vb: string): (r: seq<string>)
    ensures r == [] <==> va == vb
  {
    if va != vb then [h + ": \"" + va + "\" → \"" + vb + "\""] else []
  }

  /** No change is listed exactly when every union column reads the same. */
  lemma {:induction false} ChangesEmpty(union: seq<string>, a: Row, b: Row)
    ensures Changes(union, a, b) == [] <==> forall j :: 0 <= j < |union| ==> CompareText(a, union[j]) == CompareText(b, union[j])
  {
    if union != [] {
      var init := union[..|union| - 1];
      var h := union[|union| - 1];
      ChangesEmpty(init, a, b);
      assert Changes(union, a, b) == Changes(init, a, b) + ChangeLine(h, CompareText(a, h), CompareText(b, h));
      assert forall j :: 0 <= j < |init| ==> init[j] == union[j];
    }
  }

  datatype DiffStatus = Changed | Removed | Added

  datatype DiffEntry = DiffEntry(status: DiffStatus, source: string, details: string, values: seq<Value>)

  datatype Tallies = Tallies(added: nat, removed: nat, changed: nat, same: nat)

  datatype PairSummary = PairSummary(comparison: string, rowsA: nat, rowsB: nat, counts: Tallies)

  /** The verdicts on the first k keys of A. */
  function FromA(order: seq<string>, ia: map<string, Row>, ib: map<string, Row>, union: seq<string>,
                 pairName: string, nameB: string): (r: (seq<DiffEntry>, Tallies))
    requires forall k :: k in order ==> k in ia
    ensures r.1.added == 0
    ensures r.1.removed + r.1.changed + r.1.same == |order|
    ensures r.1.changed + r.1.same == |InB(order, ib)|
  {
    if order == [] then ([], Tallies(0, 0, 0, 0))
    else
      var prev := FromA(order[..|order| - 1], ia, ib, union, pairName, nameB);
      var k := order[|order| - 1];
      var c := prev.1;
      if k in ib then
        var changes := Changes(union, ia[k], ib[k]);
        if changes != [] then
          (prev.0 + [DiffEntry(Changed, pairName, Join(changes, "; "), RowValues(union, ib[k]))], c.(changed := c.changed + 1))
        else (prev.0, c.(same := c.same + 1))
      else (prev.0 + [DiffEntry(Removed, pairName, "Not in " + nameB, RowValues(union, ia[k]))], c.(removed := c.removed + 1))
  }

  /** The keys of `order` that are in `m`. */
  function InB(order: seq<string>, m: map<string, Row>): seq<string>
  {
    if order == [] then [] else InB(order[..|order| - 1], m) + (if order[|order| - 1] in m then [order[|order| - 1]] else [])
  }

  /** The ADDED entries: keys of B not in A. */
  function FromB(order: seq<string>, ia: map<string, Row>, ib: map<string, Row>, union: seq<string>,
                 pairName: string, nameA: string): (r: seq<DiffEntry>)
    requires forall k :: k in order ==> k in ib
    ensures |r| + |InB(order, ia)| == |order|
  {
    if order == [] then []
    else
      var prev := FromB(order[..|order| - 1], ia, ib, union, pairName, nameA);
      var k := order[|order| - 1];
      if k !in ia then prev + [DiffEntry(Added, pairName, "Not in " + nameA, RowValues(union, ib[k]))] else prev
  }

  /** The comparison of one pair of files. */
  function DiffPair(nameA: string, rowsA: seq<Row>, nameB: string, rowsB: seq<Row>,
                    union: seq<string>, keyCol: Option<string>): (seq<DiffEntry>, PairSummary)
  {
    var ia := Index(rowsA, keyCol);
    var ib := Index(rowsB, keyCol);
    KeyOrderSpec(rowsA, keyCol);
    KeyOrderSpec(rowsB, keyCol);
    var pairName := nameA + " → " + nameB;
    var a := FromA(KeyOrder(rowsA, keyCol), ia, ib, union, pairName, nameB);
    var added := FromB(KeyOrder(rowsB, keyCol), ia, ib, union, pairName, nameA);
    (a.0 + added, PairSummary(pairName, |rowsA|, |rowsB|, a.1.(added := |added|)))
  }

  /** The elements of a list without repeats are as many as the list. */
  lemma {:induction false} NoDupCard(s: seq<string>)
    requires NoDup(s)
    ensures |set x | x in s| == |s|
  {
    if s != [] {
      var init := s[..|s| - 1];
      NoDupCard(init);
      assert (set x | x in s) == (set x | x in init) + {s[|s| - 1]};
    }
  }

  lemma {:induction false} InBSpec(order: seq<string>, m: map<string, Row>)
    ensures forall x :: x in InB(order, m) <==> x in order && x in m
    ensures NoDup(order) ==> NoDup(InB(order, m))
  {
    if order != [] {
      InBSpec(order[..|order| - 1], m);
    }
  }

  /** Removed, changed and same cover A's keys; added, changed and same
      cover B's: each key is counted once. */
  lemma DiffPairCounts(nameA: string, rowsA: seq<Row>, nameB: string, rowsB: seq<Row>,
                       union: seq<string>, keyCol: Option<string>)
    ensures var c := DiffPair(nameA, rowsA, nameB, rowsB, union, keyCol).1.counts;
      c.removed + c.changed + c.same == |KeyOrder(rowsA, keyCol)|
      && c.added + c.changed + c.same == |KeyOrder(rowsB, keyCol)|
  {
    var ia := Index(rowsA, keyCol);
    var ib := Index(rowsB, keyCol);
    var oa := KeyOrder(rowsA, keyCol);
    var ob := KeyOrder(rowsB, keyCol);
    KeyOrderSpec(rowsA, keyCol);
    KeyOrderSpec(rowsB, keyCol);
    InBSpec(oa, ib);
    InBSpec(ob, ia);
    NoDupCard(InB(oa, ib));
    NoDupCard(InB(ob, ia));
    assert (set x | x in InB(oa, ib)) == (set x | x in InB(ob, ia));
  }

  /** A key present on both sides is CHANGED exactly when some union
      column reads differently; otherwise it counts as same. */
  lemma ChangedIff(union: seq<string>, a: Row, b: Row)
    ensures Changes(union, a, b) != [] <==> exists j :: 0 <= j < |union| && CompareText(a, union[j]) != CompareText(b, union[j])
  {
    ChangesEmpty(union, a, b);
  }

  datatype DiffReport = DiffReport(output: string, keyColumn: Option<string>, entries: seq<DiffEntry>, summaries: seq<PairSummary>)

  function DiffOutput(outputFile: string): (p: string)
    ensures EndsWith(p, ".xlsx")
  {
    var out := if outputFile == [] then "diff_output.xlsx" else outputFile;
    if EndsWith(out, ".xlsx") then out else out + ".xlsx"
  }

  /** The comparisons of the first k consecutive pairs. */
  function Pairs(names: seq<string>, datas: seq<SheetData<()>>, union: seq<string>, keyCol: Option<string>, k: nat)
    : (r: (seq<DiffEntry>, seq<PairSummary>))
    requires |names| == |datas| && k < |datas|
    ensures |r.1| == k
  {
    if k == 0 then ([], [])
    else
      var prev := Pairs(names, datas, union, keyCol, k - 1);
      var p := DiffPair(names[k - 1], datas[k - 1].rows, names[k], datas[k].rows, union, keyCol);
      (prev.0 + p.0, prev.1 + [p.1])
  }

  /** Every consecutive pair compared: none for fewer than two files. */
  function AllPairs(names: seq<string>, datas: seq<SheetData<()>>, union: seq<string>, keyCol: Option<string>)
    : (r: (seq<DiffEntry>, seq<PairSummary>))
    requires |names| == |datas|
    ensures |r.1| == if |datas| > 1 then |datas| - 1 else 0
  {
    if datas == [] then ([], []) else Pairs(names, datas, union, keyCol, |datas| - 1)
  }

  /** `diff_files` over the files' names and loaded grids: each
      consecutive pair compared on the key column, n files giving n - 1
      comparisons. */
  method DiffFiles(paths: seq<string>, loads: seq<Result<Grid<()>>>, outputFile: string) returns (r: Result<DiffReport>)
    requires |paths| == |loads|
    ensures FirstFailure(loads).Some? ==> r == Err(FirstFailure(loads).value)
    ensures FirstFailure(loads).None? ==>
      var datas := SheetsOf(Loaded(loads));
      var union := UnionColumns(datas);
      var names := seq(|paths|, i requires 0 <= i < |paths| => Basename(paths[i]));
      var pairs := AllPairs(names, datas, union, KeyColumn(union));
      r == Ok(DiffReport(DiffOutput(outputFile), KeyColumn(union), pairs.0, pairs.1))
    ensures r.Ok? ==> |r.value.summaries| == if |paths| > 1 then |paths| - 1 else 0
  {
    var out := DiffOutput(outputFile);
    var loaded := LoadSheets(loads);
    if loaded.Err? {
      return Err(loaded.msg);
    }
    var datas := loaded.value;
    var names := seq(|paths|, i requires 0 <= i < |paths| => Basename(paths[i]));
    var union := UnionColumns(datas);
    var keyCol := KeyColumn(union);
    var entries, summaries := ComparePairs(names, datas, union, keyCol);
    r := Ok(DiffReport(out, keyCol, entries, summaries));
  }

  /** Every file read in turn, failing at the first that cannot be loaded. */
  method LoadSheets<F>(loads: seq<Result<Grid<F>>>) returns (r: Result<seq<SheetData<F>>>)
    ensures FirstFailure(loads).Some? ==> r == Err(FirstFailure(loads).value)
    ensures FirstFailure(loads).None? ==> r == Ok(SheetsOf(Loaded(loads)))
  {
    var datas: seq<SheetData<F>> := [];
    for i := 0 to |loads|
      invariant forall j :: 0 <= j < i ==> loads[j].Ok?
      invariant datas == SheetsOf(Loaded(loads[..i]))
    {
      if loads[i].Err? {
        FirstFailureAt(loads, i);
        return Err(loads[i].msg);
      }
      LoadStep(loads, i);
      var d := ReadSheetData(loads[i].value);
      datas := datas + [d];
    }
    assert loads[..|loads|] == loads;
    r := Ok(datas);
  }

  /** The loop over consecutive pairs of files. */
  method ComparePairs(names: seq<string>, datas: seq<SheetData<()>>, union: seq<string>, keyCol: Option<string>)
    returns (entries: seq<DiffEntry>, summaries: seq<PairSummary>)
    requires |names| == |datas|
    ensures entries == AllPairs(names, datas, union, keyCol).0
    ensures summaries == AllPairs(names, datas, union, keyCol).1
  {
    entries := [];
    summaries := [];
    if datas == [] {
      return;
    }
    var i := 0;
    while i + 1 < |datas|
      invariant i < |datas|
      invariant entries == Pairs(names, datas, union, keyCol, i).0
      invariant summaries == Pairs(names, datas, union, keyCol, i).1
    {
      var p := DiffPair(names[i], datas[i].rows, names[i + 1], datas[i + 1].rows, union, keyCol);
      entries := entries + p.0;
      summaries := summaries + [p.1];
      i := i + 1;
    }
  }
}
