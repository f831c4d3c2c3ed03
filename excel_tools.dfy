/** tools/excel_tools.py: the agent-tool wrappers around the workbook
    builder and the spreadsheet utilities. The merge, first-level selection,
    sheet plan and output naming are the same as the command's in
    pm_agent.py and are reused from `PmAgent`.

    `ToolResult.error` is not a constructor: it is the dataclass field
    `error`, whose class-level default is None (tools/base.py:46), so every
    path that calls it raises `TypeError`; the tool decorator then turns that
    into a failure. Those paths are modelled as `Raised` outcomes, never as
    returned results. */
module ExcelTools {
  import opened Common
  import opened ToolBase
  import opened PmAgent

  /** The text of the `TypeError` raised by calling `ToolResult.error(...)`,
      which is None. */
  const MissingErrorConstructor: string := "'NoneType' object is not callable"

  /** `ticket_keys` as passed: one string or a list of them. */
  datatype KeysArg = OneKey(key: string) | KeyList(keys: seq<string>)

  /** `if isinstance(ticket_keys, str): ticket_keys = [ticket_keys]` */
  function KeysOf(arg: KeysArg): (r: seq<string>)
    ensures arg.OneKey? ==> r == [arg.key]
    ensures arg.KeyList? ==> r == arg.keys
  {
    match arg
    case OneKey(k) => [k]
    case KeyList(ks) => ks
  }

  /** The summary `build_excel_map` returns on success. */
  function MapSummary(outFile: string, sheetCount: nat, totalRows: nat, depth1: nat, relatedCount: nat,
                      roots: seq<string>): (d: Json)
    ensures d.JObj? && d.fields.Keys == {"output_file", "sheet_count", "total_rows", "depth1_tickets",
                                          "related_count", "root_tickets"}
    ensures d.fields["sheet_count"] == JInt(sheetCount) && d.fields["total_rows"] == JInt(totalRows)
    ensures d.fields["depth1_tickets"] == JInt(depth1) && d.fields["related_count"] == JInt(relatedCount)
    ensures d.fields["output_file"] == JStr(outFile)
    ensures d.fields["root_tickets"].JList? && |d.fields["root_tickets"].items| == |roots|
    ensures forall i :: 0 <= i < |roots| ==> d.fields["root_tickets"].items[i] == JStr(roots[i])
  {
    JObj(map["output_file" := JStr(outFile), "sheet_count" := JInt(sheetCount),
             "total_rows" := JInt(totalRows), "depth1_tickets" := JInt(depth1),
             "related_count" := JInt(relatedCount),
             "root_tickets" := JList(seq(|roots|, i requires 0 <= i < |roots| => JStr(roots[i])))])
  }

  /** `build_excel_map`. `available` is whether the Jira utilities imported,
      `openpyxl` whether the spreadsheet library did, `connected` whether the
      Jira connection succeeded; `related` and `children` are the traversal
      routines (None when they raise) and `written(records)` the number of
      rows, header included, the sheet writer produced. The outcome is what
      the undecorated function does: return a result or raise. */
  method BuildExcelMap(ticketKeys: KeysArg, outputFile: string, available: bool, openpyxl: bool, connected: bool,
                       related: string -> Option<seq<RelatedItem>>,
                       children: string -> Option<seq<RelatedItem>>,
                       written: seq<RelatedItem> -> nat)
    returns (outcome: CallOutcome, merged: seq<RelatedItem>, sheets: seq<Sheet>)
    ensures !available || !openpyxl || !connected ==> outcome == Raised(MissingErrorConstructor)
    ensures available && openpyxl && connected ==>
      var keys := UpperAll(KeysOf(ticketKeys));
      (outcome.Raised? <==> exists k :: k in keys && related(k).None?)
      && (outcome.Raised? ==> outcome == Raised(MissingErrorConstructor))
      && (outcome.ReturnedTool? ==>
            && merged == DedupFrom(Concat(keys, related), {})
            && PlannedSheets(merged, FirstLevelKeys(merged), children, written, sheets)
            && outcome.result.IsSuccess()
            && outcome.result.data == MapSummary(OutputFileName(outputFile, keys), |sheets|, SumDataRows(sheets),
                                                 |FirstLevelKeys(merged)|, |merged|, keys))
    ensures !outcome.Returned?
  {
    merged, sheets := [], [];
    if !available {
      return Raised(MissingErrorConstructor), merged, sheets;
    }
    var keys := UpperAll(KeysOf(ticketKeys));
    if !openpyxl {
      return Raised(MissingErrorConstructor), merged, sheets;
    }
    var outFile := OutputFileName(outputFile, keys);
    if !connected {
      // the except branch calls ToolResult.error as well
      return Raised(MissingErrorConstructor), merged, sheets;
    }
    var ok;
    ok, merged := MergeRelated(keys, related);
    if !ok {
      return Raised(MissingErrorConstructor), merged, sheets;
    }
    var depth1Keys := FirstLevelKeys(merged);
    var totalRows, sheetCount;
    sheets, totalRows, sheetCount := AssembleWorkbook(merged, depth1Keys, children, written);
    outcome := ReturnedTool(SuccessResult(MapSummary(outFile, sheetCount, totalRows, |depth1Keys|, |merged|, keys), map[]));
  }

  /** Which concatenation routine `concat_excel` called. */
  datatype ConcatCall = CalledMergeSheet | CalledAddSheet | CalledNeither

  /** `concat_excel`'s dispatch on `method`: merge-sheet and add-sheet call
      their routine (`routineRaises` is whether it raised), anything else
      calls neither and, like every error path here, raises. */
  function ConcatExcel(inputFiles: seq<string>, outputFile: string, concatMethod: string, available: bool,
                       routineRaises: bool): (r: (ConcatCall, CallOutcome))
    ensures r.0 == CalledMergeSheet <==> available && concatMethod == "merge-sheet"
    ensures r.0 == CalledAddSheet <==> available && concatMethod == "add-sheet"
    ensures r.1.ReturnedTool? <==> r.0 != CalledNeither && !routineRaises
    ensures r.1.ReturnedTool? ==>
              (r.1.result.IsSuccess()
               && r.1.result.data == JObj(map["output_file" := JStr(outputFile), "input_count" := JInt(|inputFiles|),
                                              "method" := JStr(concatMethod)]))
    ensures !r.1.ReturnedTool? ==> r.1 == Raised(MissingErrorConstructor)
  {
    var call :=
      if !available then CalledNeither
      else if concatMethod == "merge-sheet" then CalledMergeSheet
      else if concatMethod == "add-sheet" then CalledAddSheet
      else CalledNeither;
    if call == CalledNeither || routineRaises then (call, Raised(MissingErrorConstructor))
    else (call, ReturnedTool(SuccessResult(JObj(map["output_file" := JStr(outputFile),
                                                    "input_count" := JInt(|inputFiles|),
                                                    "method" := JStr(concatMethod)]), map[])))
  }

  /** `diff_excel`: the diff routine (`diff` gives its output path, or None
      when it raises) is called only with exactly two inputs. */
  function DiffExcel(inputFiles: seq<string>, available: bool, diff: seq<string> -> Option<string>): (r: (bool, CallOutcome))
    ensures r.0 <==> available && |inputFiles| == 2
    ensures r.1.ReturnedTool? <==> r.0 && diff(inputFiles).Some?
    ensures r.1.ReturnedTool? ==> r.1.result == SuccessResult(JObj(map["output_file" := JStr(diff(inputFiles).value)]), map[])
    ensures !r.1.ReturnedTool? ==> r.1 == Raised(MissingErrorConstructor)
  {
    if !available || |inputFiles| != 2 then (false, Raised(MissingErrorConstructor))
    else match diff(inputFiles)
      case None => (true, Raised(MissingErrorConstructor))
      case Some(path) => (true, ReturnedTool(SuccessResult(JObj(map["output_file" := JStr(path)]), map[])))
  }
}
