/** The workbook-map command of pm_agent.py (`build-excel-map`) and its CSV
    repair helper.

    Related-issue records of several root tickets are merged into one ordered,
    key-deduplicated overview; every depth-1 ticket of the overview then gets
    its own sheet with its descendant tree. Traversal, the temporary-file
    writer and the spreadsheet library are oracles passed in as functions. */
module PmAgent {
  import opened Common

  /** One record of the related-issue traversal: the issue key, its depth from
      the root, and how it was reached. An issue without a key has key "". */
  datatype RelatedItem = RelatedItem(key: string, depth: int, via: string, relation: string, fromKey: string)

  /** A sheet of the assembled workbook: its (truncated) title and the number
      of data rows copied into it. */
  datatype Sheet = Sheet(title: string, dataRows: nat)

  /** Excel's sheet-title limit. */
  const MaxSheetTitle: nat := 31

  // -----------------------------------------------------------------------
  // Merge of the per-root related records
  // -----------------------------------------------------------------------

  /** The records of all roots, root after root, each root's records in the
      order the traversal oracle returned them. */
  function Concat(roots: seq<string>, related: string -> Option<seq<RelatedItem>>): seq<RelatedItem>
    requires forall i :: 0 <= i < |roots| ==> related(roots[i]).Some?
  {
    if roots == [] then []
    else Concat(roots[..|roots| - 1], related) + related(roots[|roots| - 1]).value
  }

  function KeySet(s: seq<RelatedItem>): set<string>
  {
    set i | 0 <= i < |s| :: s[i].key
  }

  lemma KeySetCons(x: RelatedItem, s: seq<RelatedItem>)
    ensures KeySet([x] + s) == {x.key} + KeySet(s)
  {
    forall k | k in KeySet([x] + s) ensures k in {x.key} + KeySet(s) {
      var j :| 0 <= j < |[x] + s| && ([x] + s)[j].key == k;
      if j > 0 { assert s[j - 1].key == k; }
    }
    forall k | k in KeySet(s) ensures k in KeySet([x] + s) {
      var j :| 0 <= j < |s| && s[j].key == k;
      assert ([x] + s)[j + 1].key == k;
    }
    var w := [x] + s;
    assert w[0] == x;
    assert w[0].key in KeySet(w);
  }

  lemma KeySetSnoc(s: seq<RelatedItem>, x: RelatedItem)
    ensures KeySet(s + [x]) == KeySet(s) + {x.key}
  {
    forall k | k in KeySet(s + [x]) ensures k in KeySet(s) + {x.key} {
      var j :| 0 <= j < |s + [x]| && (s + [x])[j].key == k;
      if j < |s| { assert s[j].key == k; }
    }
    forall k | k in KeySet(s) ensures k in KeySet(s + [x]) {
      var j :| 0 <= j < |s| && s[j].key == k;
      assert (s + [x])[j].key == k;
    }
    assert (s + [x])[|s|].key == x.key;
  }

  /** First-seen-wins deduplication by non-empty key, skipping keys in `seen`. */
  function DedupFrom(items: seq<RelatedItem>, seen: set<string>): seq<RelatedItem>
  {
    if items == [] then []
    else
      var k := items[0].key;
      if k != "" && k !in seen then [items[0]] + DedupFrom(items[1..], seen + {k})
      else DedupFrom(items[1..], seen)
  }

  /** Index of the first record carrying key `k`. */
  function FirstIndexOfKey(items: seq<RelatedItem>, k: string): (i: nat)
    requires k in KeySet(items)
    ensures i < |items| && items[i].key == k
    ensures forall j :: 0 <= j < i ==> items[j].key != k
  {
    if items[0].key == k then 0
    else
      assert k in KeySet(items[1..]) by {
        var j :| 0 <= j < |items| && items[j].key == k;
        assert items[1..][j - 1].key == k;
      }
      1 + FirstIndexOfKey(items[1..], k)
  }

  predicate KeysDistinct(s: seq<RelatedItem>)
  {
    forall i, j :: 0 <= i < j < |s| ==> s[i].key != s[j].key
  }

  /** Appending one record to the input appends it to the output exactly when
      its key is non-empty and not yet taken. */
  lemma {:induction false} DedupSnoc(items: seq<RelatedItem>, x: RelatedItem, seen: set<string>)
    ensures DedupFrom(items + [x], seen)
         == DedupFrom(items, seen)
            + (if x.key != "" && x.key !in seen + KeySet(DedupFrom(items, seen)) then [x] else [])
  {
    if items == [] {
      assert items + [x] == [x];
    } else {
      assert (items + [x])[1..] == items[1..] + [x];
      var k := items[0].key;
      if k != "" && k !in seen {
        DedupSnoc(items[1..], x, seen + {k});
        KeySetCons(items[0], DedupFrom(items[1..], seen + {k}));
      } else {
        DedupSnoc(items[1..], x, seen);
      }
    }
  }

  /** Every kept key is non-empty and new, each is kept once, and the kept
      keys are exactly the non-empty keys of the input that were not already
      seen. */
  lemma {:induction false} DedupKeys(items: seq<RelatedItem>, seen: set<string>)
    ensures var r := DedupFrom(items, seen);
      && KeysDistinct(r)
      && (forall i :: 0 <= i < |r| ==> r[i].key != "" && r[i].key !in seen)
      && KeySet(r) == KeySet(items) - seen - {""}
  {
    if items != [] {
      var k := items[0].key;
      KeySetCons(items[0], items[1..]);
      assert items == [items[0]] + items[1..];
      if k != "" && k !in seen {
        DedupKeys(items[1..], seen + {k});
        var rt := DedupFrom(items[1..], seen + {k});
        KeySetCons(items[0], rt);
        forall j | 0 <= j < |rt| ensures rt[j].key in KeySet(rt) { }
      } else {
        DedupKeys(items[1..], seen);
      }
    }
  }

  /** Each kept record is the first record of the input with its key, and the
      kept records keep the input's order. */
  lemma {:induction false} DedupFirstWins(items: seq<RelatedItem>, seen: set<string>)
    ensures var r := DedupFrom(items, seen);
      && (forall i :: 0 <= i < |r| ==> r[i].key in KeySet(items))
      && (forall i :: 0 <= i < |r| ==> r[i] == items[FirstIndexOfKey(items, r[i].key)])
      && (forall i, j :: 0 <= i < j < |r| ==>
            FirstIndexOfKey(items, r[i].key) < FirstIndexOfKey(items, r[j].key))
  {
    if items != [] {
      var k := items[0].key;
      var tail := items[1..];
      if k != "" && k !in seen {
        DedupFirstWins(tail, seen + {k});
        DedupKeys(tail, seen + {k});
        var rt := DedupFrom(tail, seen + {k});
        var r := [items[0]] + rt;
        assert items[0].key in KeySet(items);
        forall i | 0 < i < |r|
          ensures r[i].key in KeySet(items)
          ensures FirstIndexOfKey(items, r[i].key) == 1 + FirstIndexOfKey(tail, r[i].key)
        {
          assert r[i] == rt[i - 1];
          assert rt[i - 1].key != k;
          FirstIndexShift(items, r[i].key);
        }
      } else {
        DedupFirstWins(tail, seen);
        DedupKeys(tail, seen);
        var r := DedupFrom(tail, seen);
        forall i | 0 <= i < |r|
          ensures r[i].key in KeySet(items)
          ensures FirstIndexOfKey(items, r[i].key) == 1 + FirstIndexOfKey(tail, r[i].key)
        {
          // the head's key was blank or already seen, so it was not kept
          assert r[i].key != k;
          FirstIndexShift(items, r[i].key);
        }
      }
    }
  }

  lemma FirstIndexShift(items: seq<RelatedItem>, k: string)
    requires items != [] && items[0].key != k && k in KeySet(items[1..])
    ensures k in KeySet(items)
    ensures FirstIndexOfKey(items, k) == 1 + FirstIndexOfKey(items[1..], k)
  {
    var j :| 0 <= j < |items[1..]| && items[1..][j].key == k;
    assert items[j + 1].key == k;
  }

  /** The merge loop of the command: roots in order, records in order, keys kept
      once with the first record winning. A traversal call that raises aborts
      the merge (the command then fails). */
  method MergeRelated(roots: seq<string>, related: string -> Option<seq<RelatedItem>>)
    returns (ok: bool, merged: seq<RelatedItem>)
    ensures ok <==> forall i :: 0 <= i < |roots| ==> related(roots[i]).Some?
    ensures ok ==> merged == DedupFrom(Concat(roots, related), {})
  {
    merged := [];
    var seenKeys: set<string> := {};
    var i := 0;
    while i < |roots|
      invariant 0 <= i <= |roots|
      invariant forall j :: 0 <= j < i ==> related(roots[j]).Some?
      invariant merged == DedupFrom(Concat(roots[..i], related), {})
      invariant seenKeys == KeySet(merged)
    {
      var fetched := related(roots[i]);
      if fetched.None? {
        return false, merged;
      }
      var relatedData := fetched.value;
      ghost var before := Concat(roots[..i], related);
      var j := 0;
      assert before + relatedData[..0] == before;
      while j < |relatedData|
        invariant 0 <= j <= |relatedData|
        invariant merged == DedupFrom(before + relatedData[..j], {})
        invariant seenKeys == KeySet(merged)
      {
        var item := relatedData[j];
        DedupSnoc(before + relatedData[..j], item, {});
        assert before + relatedData[..j + 1] == (before + relatedData[..j]) + [item];
        if item.key != "" && item.key !in seenKeys {
          seenKeys := seenKeys + {item.key};
          KeySetSnoc(merged, item);
          merged := merged + [item];
        }
        j := j + 1;
      }
      assert roots[..i + 1][..i] == roots[..i];
      assert relatedData[..j] == relatedData;
      i := i + 1;
    }
    assert roots[..i] == roots;
    return true, merged;
  }

  /** Keys of the merged records at depth 1, in merged order. */
  function FirstLevelKeys(merged: seq<RelatedItem>): (r: seq<string>)
    ensures |r| <= |merged|
    ensures forall k :: k in r <==> exists i :: 0 <= i < |merged| && merged[i].depth == 1 && merged[i].key == k
  {
    if merged == [] then []
    else (if merged[0].depth == 1 then [merged[0].key] else []) + FirstLevelKeys(merged[1..])
  }

  /** With distinct merged keys the first-level keys are distinct too. */
  lemma {:induction false} FirstLevelKeysDistinct(merged: seq<RelatedItem>)
    requires KeysDistinct(merged)
    ensures NoDup(FirstLevelKeys(merged))
  {
    if merged != [] {
      FirstLevelKeysDistinct(merged[1..]);
      forall i | 0 <= i < |merged[1..]| ensures merged[1..][i].key != merged[0].key {
        assert merged[1..][i] == merged[i + 1];
      }
      var rest := FirstLevelKeys(merged[1..]);
      var r := FirstLevelKeys(merged);
      if merged[0].depth == 1 {
        assert merged[0].key !in rest;
        forall i, j | 0 <= i < j < |r| ensures r[i] != r[j] {
          if i > 0 {
            assert r[i] == rest[i - 1] && r[j] == rest[j - 1];
          } else {
            assert r[j] == rest[j - 1];
          }
        }
      }
    }
  }

  // -----------------------------------------------------------------------
  // Sheet plan
  // -----------------------------------------------------------------------

  /** `sheet_name[:31]`: the title the copied sheet is created with. */
  function SheetTitle(name: string): (t: string)
    ensures |t| <= MaxSheetTitle && |t| <= |name|
    ensures t == name[..|t|]
    ensures |name| <= MaxSheetTitle ==> t == name
  {
    Take(name, MaxSheetTitle)
  }

  /** `max(0, row_count - 1)`: a copied sheet reports its rows minus the header. */
  function DataRows(rowCount: nat): (n: nat)
    ensures rowCount == 0 ==> n == 0
    ensures rowCount > 0 ==> n + 1 == rowCount
  {
    if rowCount == 0 then 0 else rowCount - 1
  }

  /** The first-level keys whose child fetch did not raise, in order. */
  function SucceededKeys(keys: seq<string>, children: string -> Option<seq<RelatedItem>>): (r: seq<string>)
    ensures |r| <= |keys|
    ensures forall k :: k in r <==> k in keys && children(k).Some?
  {
    KeepIfSpec(keys, Fetched(children));
    KeepIf(keys, Fetched(children))
  }

  function Fetched(children: string -> Option<seq<RelatedItem>>): string -> bool
  {
    k => children(k).Some?
  }

  function SumDataRows(sheets: seq<Sheet>): nat
  {
    if sheets == [] then 0 else SumDataRows(sheets[..|sheets| - 1]) + sheets[|sheets| - 1].dataRows
  }

  /** The workbook the command assembles: sheet `Tickets` with the overview's
      data rows, then one sheet per first-level key whose child fetch
      succeeded, in order, each titled by its key and holding its children's
      data rows. */
  predicate PlannedSheets(overview: seq<RelatedItem>, firstLevel: seq<string>,
                          children: string -> Option<seq<RelatedItem>>,
                          written: seq<RelatedItem> -> nat, sheets: seq<Sheet>)
  {
    && |sheets| == 1 + |SucceededKeys(firstLevel, children)|
    && sheets[0] == Sheet("Tickets", DataRows(written(overview)))
    && forall i :: 0 <= i < |SucceededKeys(firstLevel, children)| ==>
         var k := SucceededKeys(firstLevel, children)[i];
         sheets[i + 1] == Sheet(SheetTitle(k), DataRows(written(children(k).value)))
  }

  /** Steps 3 and 4 of the command: fetch the children of each first-level key
      (a key whose fetch raises is skipped, the others continue), then copy the
      overview as sheet `Tickets` followed by one sheet per surviving key.
      `written(records)` is the number of rows (header included) the
      temporary-file writer produced for those records. */
  method AssembleWorkbook(overview: seq<RelatedItem>, firstLevel: seq<string>,
                          children: string -> Option<seq<RelatedItem>>,
                          written: seq<RelatedItem> -> nat)
    returns (sheets: seq<Sheet>, totalRows: nat, sheetCount: nat)
    ensures PlannedSheets(overview, firstLevel, children, written, sheets)
    ensures sheetCount == |sheets| && totalRows == SumDataRows(sheets)
  {
    // Step 3: children of every first-level ticket, failures skipped.
    var childrenTemps: seq<(string, seq<RelatedItem>)> := [];
    var idx := 0;
    while idx < |firstLevel|
      invariant 0 <= idx <= |firstLevel|
      invariant |childrenTemps| == |SucceededKeys(firstLevel[..idx], children)|
      invariant forall t :: 0 <= t < |childrenTemps| ==>
                  childrenTemps[t].0 == SucceededKeys(firstLevel[..idx], children)[t]
                  && children(childrenTemps[t].0) == Some(childrenTemps[t].1)
    {
      var ticketKey := firstLevel[idx];
      SucceededKeysSnoc(firstLevel[..idx], ticketKey, children);
      assert firstLevel[..idx + 1] == firstLevel[..idx] + [ticketKey];
      var fetched := children(ticketKey);
      if fetched.Some? {
        childrenTemps := childrenTemps + [(ticketKey, fetched.value)];
      }
      idx := idx + 1;
    }
    assert firstLevel[..idx] == firstLevel;

    // Step 4: Tickets first, then one sheet per successful child fetch.
    totalRows, sheetCount := 0, 0;
    var mapRows := DataRows(written(overview));
    sheets := [Sheet(SheetTitle("Tickets"), mapRows)];
    totalRows, sheetCount := totalRows + mapRows, sheetCount + 1;
    assert SumDataRows(sheets) == mapRows by {
      assert sheets[..|sheets| - 1] == [];
    }
    var n := 0;
    while n < |childrenTemps|
      invariant 0 <= n <= |childrenTemps|
      invariant |sheets| == 1 + n == sheetCount
      invariant sheets[0] == Sheet("Tickets", mapRows)
      invariant forall t :: 0 <= t < n ==>
                  sheets[t + 1] == Sheet(SheetTitle(childrenTemps[t].0), DataRows(written(childrenTemps[t].1)))
      invariant totalRows == SumDataRows(sheets)
    {
      var childRows := DataRows(written(childrenTemps[n].1));
      sheets := sheets + [Sheet(SheetTitle(childrenTemps[n].0), childRows)];
      assert sheets[..|sheets| - 1] == sheets[..n + 1];
      totalRows, sheetCount := totalRows + childRows, sheetCount + 1;
      n := n + 1;
    }
  }

  lemma SucceededKeysSnoc(keys: seq<string>, k: string, children: string -> Option<seq<RelatedItem>>)
    ensures SucceededKeys(keys + [k], children)
         == SucceededKeys(keys, children) + (if children(k).Some? then [k] else [])
  {
    assert (keys + [k])[..|keys|] == keys;
  }

  // -----------------------------------------------------------------------
  // Output file name
  // -----------------------------------------------------------------------

  /** `--output` if given, else `KEY.xlsx` for one key, else the keys joined
      by `_` plus `.xlsx`; `.xlsx` is appended when missing. */
  function OutputFileName(output: string, keys: seq<string>): string
  {
    var base :=
      if output != "" then output
      else if |keys| == 1 then keys[0] + ".xlsx"
      else Join(keys, "_") + ".xlsx";
    if EndsWith(base, ".xlsx") then base else base + ".xlsx"
  }

  /** The output name always ends in `.xlsx`, an explicit name already ending
      in `.xlsx` is kept verbatim, any other explicit name gains exactly the
      suffix, and naming is idempotent. */
  lemma OutputFileNameSpec(output: string, keys: seq<string>)
    ensures EndsWith(OutputFileName(output, keys), ".xlsx")
    ensures output != "" && EndsWith(output, ".xlsx") ==> OutputFileName(output, keys) == output
    ensures output != "" && !EndsWith(output, ".xlsx") ==> OutputFileName(output, keys) == output + ".xlsx"
    ensures output == "" && |keys| == 1 ==> OutputFileName(output, keys) == keys[0] + ".xlsx"
    ensures output == "" && |keys| != 1 ==> OutputFileName(output, keys) == Join(keys, "_") + ".xlsx"
    ensures OutputFileName(OutputFileName(output, keys), keys) == OutputFileName(output, keys)
  {
    var base :=
      if output != "" then output
      else if |keys| == 1 then keys[0] + ".xlsx"
      else Join(keys, "_") + ".xlsx";
    var b2 := base + ".xlsx";
    assert b2[|b2| - 5..] == ".xlsx";
    if output == "" && |keys| == 1 {
      var o := keys[0] + ".xlsx";
      assert o[|o| - 5..] == ".xlsx";
    } else if output == "" {
      var o := Join(keys, "_") + ".xlsx";
      assert o[|o| - 5..] == ".xlsx";
    }
  }

  // -----------------------------------------------------------------------
  // The command
  // -----------------------------------------------------------------------

  /** `cmd_build_excel_map`: uppercase the keys, choose the output name, merge
      the related records of every root, select the first-level keys and
      assemble the sheets. `openpyxl` is whether the spreadsheet library
      imported, `connected` whether the Jira connection succeeded and
      `projectOk` whether the optional project validation passed (true when
      no project was given). Returns the exit status (1 when the library is
      missing or anything in the guarded block raised) and, on success, the
      workbook plan. */
  method CmdBuildExcelMap(ticketKeys: seq<string>, output: string, openpyxl: bool, connected: bool, projectOk: bool,
                          related: string -> Option<seq<RelatedItem>>,
                          children: string -> Option<seq<RelatedItem>>,
                          written: seq<RelatedItem> -> nat)
    returns (exitCode: int, outputFile: string, merged: seq<RelatedItem>, sheets: seq<Sheet>)
    ensures outputFile == OutputFileName(output, UpperAll(ticketKeys))
    ensures exitCode == 0 || exitCode == 1
    ensures exitCode == 0 <==>
              openpyxl && connected && projectOk && forall k :: k in UpperAll(ticketKeys) ==> related(k).Some?
    ensures exitCode == 1 ==> sheets == []
    ensures exitCode == 0 ==>
      && merged == DedupFrom(Concat(UpperAll(ticketKeys), related), {})
      && PlannedSheets(merged, FirstLevelKeys(merged), children, written, sheets)
  {
    var keys := UpperAll(ticketKeys);
    outputFile := OutputFileName(output, keys);
    merged, sheets := [], [];
    if !openpyxl || !connected || !projectOk {
      return 1, outputFile, merged, sheets;
    }
    var ok;
    ok, merged := MergeRelated(keys, related);
    if !ok {
      return 1, outputFile, merged, [];
    }
    var depth1Keys := FirstLevelKeys(merged);
    var totalRows, sheetCount;
    sheets, totalRows, sheetCount := AssembleWorkbook(merged, depth1Keys, children, written);
    exitCode := 0;
  }

  /** `[k.upper() for k in keys]` */
  function UpperAll(keys: seq<string>): (r: seq<string>)
    ensures |r| == |keys|
    ensures forall i :: 0 <= i < |keys| ==> r[i] == Upper(keys[i])
  {
    if keys == [] then [] else [Upper(keys[0])] + UpperAll(keys[1..])
  }

  // -----------------------------------------------------------------------
  // CSV repair
  // -----------------------------------------------------------------------

  /** `h.strip().lower() == 'summary'` */
  predicate IsSummaryHeader(h: string)
  {
    Lower(Strip(h)) == "summary"
  }

  /** Index of the first header cell whose stripped lowercase text is `summary`. */
  function SummaryIndex(header: seq<string>): (r: Option<nat>)
    ensures r.Some? ==> r.value < |header|
  {
    FirstWhere(header, IsSummaryHeader)
  }

  /** The index found is the first summary header; none is found only
      when there is none. */
  lemma SummaryIndexSpec(header: seq<string>)
    ensures SummaryIndex(header).Some? ==> IsSummaryHeader(header[SummaryIndex(header).value])
    ensures SummaryIndex(header).Some? ==> forall i :: 0 <= i < SummaryIndex(header).value ==> !IsSummaryHeader(header[i])
    ensures SummaryIndex(header).None? ==> forall i :: 0 <= i < |header| ==> !IsSummaryHeader(header[i])
  {
    FirstWhereSpec(header, IsSummaryHeader);
  }

  /** `max(range(n), key=lambda i: len(row[i]))`: the first index among the
      first `n` cells holding a longest cell. */
  function LongestCellIndex(row: seq<string>, n: nat): (r: nat)
    requires 0 < n <= |row|
    ensures r < n
    ensures forall i :: 0 <= i < n ==> |row[i]| <= |row[r]|
    ensures forall i :: 0 <= i < r ==> |row[i]| < |row[r]|
  {
    if n == 1 then 0
    else
      var best := LongestCellIndex(row, n - 1);
      if |row[n - 1]| > |row[best]| then n - 1 else best
  }

  /** The column that absorbs the extra cells of an over-long row. */
  function FoldColumn(header: seq<string>, row: seq<string>): (c: nat)
    requires 0 < |header| < |row|
    ensures c < |header|
  {
    match SummaryIndex(header)
    case Some(i) => i
    case None => LongestCellIndex(row, |header|)
  }

  /** The CSV cell separator. */
  const Comma: string := ","

  /** The repaired form of one data row. */
  function RepairRow(header: seq<string>, row: seq<string>): (r: seq<string>)
    requires |header| > 0
    ensures |r| == |header|
  {
    if |row| > |header| then Folded(row, FoldColumn(header, row), |row| - |header|)
    else if |row| < |header| then row + Blanks(|header| - |row|)
    else row
  }

  /** `n` empty cells. */
  function Blanks(n: nat): (r: seq<string>)
    ensures |r| == n && forall i :: 0 <= i < n ==> r[i] == ""
  {
    seq(n, _ => "")
  }

  /** An over-long row keeps its text: joining the repaired cells with ','
      gives the same line as joining the original cells, and only the fold
      column changes. A short row is the original followed by empty cells. */
  lemma RepairRowPreservesText(header: seq<string>, row: seq<string>)
    requires |header| > 0
    ensures |row| > |header| ==> Join(RepairRow(header, row), Comma) == Join(row, Comma)
    ensures |row| > |header| ==>
      var c := FoldColumn(header, row);
      RepairRow(header, row)[..c] == row[..c]
      && RepairRow(header, row)[c + 1..] == row[c + 1 + |row| - |header|..]
    ensures |row| <= |header| ==> RepairRow(header, row)[..|row|] == row
    ensures |row| <= |header| ==> forall i :: |row| <= i < |header| ==> RepairRow(header, row)[i] == ""
  {
    if |row| > |header| {
      RepairLongRow(header, row);
      RepairLongRowCells(header, row);
    } else {
      RepairShortRow(header, row);
    }
  }

  lemma RepairLongRow(header: seq<string>, row: seq<string>)
    requires 0 < |header| < |row|
    ensures Join(RepairRow(header, row), Comma) == Join(row, Comma)
  {
    RepairIsFolded(header, row);
    var folded := Folded(row, FoldColumn(header, row), |row| - |header|);
    assert RepairRow(header, row) == folded;
    FoldKeepsText(row, FoldColumn(header, row), |row| - |header|);
    assert Join(folded, Comma) == Join(row, Comma);
  }

  lemma RepairLongRowCells(header: seq<string>, row: seq<string>)
    requires 0 < |header| < |row|
    ensures RepairRow(header, row)[..FoldColumn(header, row)] == row[..FoldColumn(header, row)]
    ensures RepairRow(header, row)[FoldColumn(header, row) + 1..] == row[FoldColumn(header, row) + 1 + |row| - |header|..]
  {
    RepairIsFolded(header, row);
    FoldKeepsText(row, FoldColumn(header, row), |row| - |header|);
  }

  lemma RepairIsFolded(header: seq<string>, row: seq<string>)
    requires 0 < |header| < |row|
    ensures RepairRow(header, row) == Folded(row, FoldColumn(header, row), |row| - |header|)
  {
  }

  /** Cells `c .. c + extra` folded into one, joined by ','. */
  function Folded(row: seq<string>, c: nat, extra: nat): (r: seq<string>)
    requires c + 1 + extra <= |row|
    ensures |r| == |row| - extra
  {
    row[..c] + [Join(row[c..c + 1 + extra], Comma)] + row[c + 1 + extra..]
  }

  /** Folding keeps the line's text and the cells on either side. */
  lemma FoldKeepsText(row: seq<string>, c: nat, extra: nat)
    requires c + 1 + extra <= |row|
    ensures Join(Folded(row, c, extra), Comma) == Join(row, Comma)
    ensures Folded(row, c, extra)[..c] == row[..c]
    ensures Folded(row, c, extra)[c + 1..] == row[c + 1 + extra..]
  {
    JoinSplice(row[..c], row[c..c + 1 + extra], row[c + 1 + extra..], Comma);
    SpliceParts(row, c, extra, Join(row[c..c + 1 + extra], Comma));
  }

  lemma SpliceParts<T>(s: seq<T>, c: nat, extra: nat, x: T)
    requires c + 1 + extra <= |s|
    ensures s[..c] + s[c..c + 1 + extra] + s[c + 1 + extra..] == s
    ensures (s[..c] + [x] + s[c + 1 + extra..])[..c] == s[..c]
    ensures (s[..c] + [x] + s[c + 1 + extra..])[c + 1..] == s[c + 1 + extra..]
  {
    assert s[..c] + s[c..c + 1 + extra] == s[..c + 1 + extra];
  }

  lemma RepairShortRow(header: seq<string>, row: seq<string>)
    requires 0 < |header| && |row| <= |header|
    ensures RepairRow(header, row)[..|row|] == row
    ensures forall i :: |row| <= i < |header| ==> RepairRow(header, row)[i] == ""
  {
  }

  /** `_validate_and_repair_csv` over the parsed file: an empty file or an
      empty header is left alone; otherwise every data row is repaired, and
      the file is rewritten only when some row did not have the header's width. */
  /** Every data row among `lines[1..upTo]` has the header's width. */
  predicate AllRowsFit(lines: seq<seq<string>>, upTo: nat)
    requires 1 <= upTo <= |lines|
  {
    forall t :: 1 <= t < upTo ==> |lines[t]| == |lines[0]|
  }

  /** The body of the repair loop for one data row. */
  method RepairCsvRow(header: seq<string>, row: seq<string>) returns (repaired: seq<string>, changed: bool)
    requires |header| > 0
    ensures repaired == RepairRow(header, row)
    ensures changed <==> |row| != |header|
  {
    var expected := |header|;
    if |row| > expected {
      var summaryIdx := FoldColumn(header, row);
      var extraCount := |row| - expected;
      repaired := Folded(row, summaryIdx, extraCount);
      changed := true;
    } else if |row| < expected {
      repaired := row + Blanks(expected - |row|);
      changed := true;
    } else {
      repaired := row;
      changed := false;
    }
  }

  method ValidateAndRepairCsv(lines: seq<seq<string>>)
    returns (rewritten: bool, header: seq<string>, rows: seq<seq<string>>)
    ensures (lines == [] || lines[0] == []) ==> !rewritten && rows == []
    ensures lines != [] && lines[0] != [] ==>
      && header == lines[0]
      && |rows| == |lines| - 1
      && (forall i :: 0 <= i < |rows| ==> |rows[i]| == |header|)
      && (forall i :: 0 <= i < |rows| ==> rows[i] == RepairRow(header, lines[i + 1]))
      && (rewritten <==> !AllRowsFit(lines, |lines|))
  {
    if lines == [] || lines[0] == [] {
      return false, [], [];
    }
    header := lines[0];
    var expected := |header|;
    rows := [];
    var needsRepair := false;
    var i := 1;
    while i < |lines|
      invariant 1 <= i <= |lines|
      invariant |rows| == i - 1
      invariant forall t :: 0 <= t < |rows| ==> rows[t] == RepairRow(header, lines[t + 1])
      invariant needsRepair <==> !AllRowsFit(lines, i)
    {
      var repaired, changed := RepairCsvRow(header, lines[i]);
      assert AllRowsFit(lines, i + 1) <==> AllRowsFit(lines, i) && |lines[i]| == |header|;
      needsRepair := needsRepair || changed;
      rows := rows + [repaired];
      i := i + 1;
    }
    rewritten := needsRepair;
  }
}
