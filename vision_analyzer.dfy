/** The vision analyzer's direct path: detecting a file's kind from its
    extension, running the matching extractor, reading versions and dates
    out of an image description, merging the results of several files and
    ordering the merged timeline by date.  The file system and the
    extractors are oracles (`Io`); so are the three `findall` patterns run
    over an image description (`Patterns`). */
module VisionAnalyzer {
  import opened Common
  import opened VisionTools
  import opened StableSort

  // ---------------------------------------------------------------------
  // `_detect_file_type`
  // ---------------------------------------------------------------------

  const ImageExtensions: set<string> := {".png", ".jpg", ".jpeg", ".gif", ".bmp", ".webp", ".tiff"}
  const PptExtensions: set<string> := {".ppt", ".pptx"}
  const ExcelExtensions: set<string> := {".xls", ".xlsx", ".csv"}

  /** The lower-cased extension of a path, dot included. */
  function Ext(path: string): string
  {
    Lower(SplitExt(path).1)
  }

  /** The kinds `_detect_file_type` tells apart; `Name` is the text it
      returns for each. */
  datatype FileType = Image | Ppt | Excel | Pdf | Unknown
  {
    function Name(): string
    {
      match this
      case Image => "image"
      case Ppt => "ppt"
      case Excel => "excel"
      case Pdf => "pdf"
      case Unknown => "unknown"
    }
  }

  /** The kind of a file, from its lower-cased extension. */
  function DetectFileType(path: string): (t: FileType)
    ensures t == Image <==> Ext(path) in ImageExtensions
    ensures t == Ppt <==> Ext(path) !in ImageExtensions && Ext(path) in PptExtensions
    ensures t == Excel <==> Ext(path) !in ImageExtensions + PptExtensions && Ext(path) in ExcelExtensions
    ensures t == Pdf <==> Ext(path) == ".pdf"
  {
    var ext := Ext(path);
    assert ".pdf" !in ImageExtensions + PptExtensions + ExcelExtensions;
    if ext in ImageExtensions then Image
    else if ext in PptExtensions then Ppt
    else if ext in ExcelExtensions then Excel
    else if ext == ".pdf" then Pdf
    else Unknown
  }

  /** A plain file name with a `.csv` extension, in any case, is a
      spreadsheet. */
  lemma DetectCsv(name: string)
    requires name != [] && '.' !in name && '/' !in name
    ensures DetectFileType(name + "." + "CSV") == Excel
  {
    SplitExtOf(name, "CSV");
    assert Lower(".CSV") == ".csv";
    assert Ext(name + "." + "CSV") == ".csv";
    assert ".csv" !in ImageExtensions && ".csv" !in PptExtensions && ".csv" in ExcelExtensions;
  }

  /** A plain file name with no extension is of unknown kind. */
  lemma DetectBare(name: string)
    requires '.' !in name
    ensures DetectFileType(name) == Unknown
  {
    assert LastIndexOfChar(name, '.').None?;
    assert Ext(name) == [];
  }

  // ---------------------------------------------------------------------
  // The results of one file
  // ---------------------------------------------------------------------

  /** What `analyze_file` returns: a missing file yields only an error
      text; any other file its kind, the extracted entries and the errors
      met on the way. */
  datatype FileResult =
    | Missing(error: string)
    | Analyzed(path: string, fileType: FileType, releases: seq<Entry>, features: seq<Entry>,
               timeline: seq<Entry>, errors: seq<string>)

  function ErrorsOf(r: FileResult): seq<string> { if r.Missing? then [] else r.errors }
  function ReleasesOf(r: FileResult): seq<Entry> { if r.Missing? then [] else r.releases }
  function FeaturesOf(r: FileResult): seq<Entry> { if r.Missing? then [] else r.features }
  function TimelineOf(r: FileResult): seq<Entry> { if r.Missing? then [] else r.timeline }

  /** The outside world of `analyze_file`: whether a path exists, and the
      three extractors (an image yields its description text). */
  datatype Io = Io(exists_: string -> bool, image: string -> Result<string>,
                   ppt: string -> Result<Roadmap>, excel: string -> Result<Roadmap>)

  /** The `findall` results of the version, quarter and month-date
      patterns over one description. */
  datatype Patterns = Patterns(versions: string -> seq<string>, quarters: string -> seq<string>,
                               dates: string -> seq<string>)

  const Vision: seq<(string, string)> := [("source", "vision")]

  function VisionEntries(xs: seq<string>): (r: seq<Entry>)
    ensures |r| == |xs| && forall i :: 0 <= i < |xs| ==> r[i] == Entry(xs[i], Vision)
  {
    seq(|xs|, i requires 0 <= i < |xs| => Entry(xs[i], Vision))
  }

  /** `order` lists the distinct values of `vs`, each once: one iteration
      order of `set(vs)`. */
  ghost predicate SetOrder(order: seq<string>, vs: seq<string>)
  {
    NoDup(order) && (forall x :: x in order <==> x in vs)
  }

  /** `_parse_vision_response` once the iteration order of the version set
      is fixed: an empty description changes nothing; otherwise each
      distinct version becomes a release, and each quarter and then each
      month-date match a timeline entry, all marked as coming from vision. */
  function ParsedWith(result: FileResult, description: string, pats: Patterns, order: seq<string>): FileResult
    requires result.Analyzed?
  {
    if description == [] then result
    else result.(releases := result.releases + VisionEntries(order),
                 timeline := result.timeline + VisionEntries(pats.quarters(description))
                             + VisionEntries(pats.dates(description)))
  }

  /** The versions whose set is iterated for a description. */
  function VersionsFor(description: string, pats: Patterns): seq<string>
  {
    if description == [] then [] else pats.versions(description)
  }

  /** Appends one vision entry per value, in order. */
  method AppendVision(entries: seq<Entry>, xs: seq<string>) returns (r: seq<Entry>)
    ensures r == entries + VisionEntries(xs)
  {
    r := entries;
    var i := 0;
    while i < |xs|
      invariant 0 <= i <= |xs|
      invariant r == entries + VisionEntries(xs[..i])
    {
      r := r + [Entry(xs[i], Vision)];
      i := i + 1;
    }
    assert xs[..|xs|] == xs;
  }

  method ParseVisionResponse(result: FileResult, description: string, pats: Patterns)
    returns (r: FileResult, ghost order: seq<string>)
    requires result.Analyzed?
    ensures SetOrder(order, VersionsFor(description, pats))
    ensures r == ParsedWith(result, description, pats, order)
  {
    order := [];
    if description == [] {
      r := result;
      return;
    }
    var versions := pats.versions(description);
    var remaining := set v | v in versions;
    var releases := result.releases;
    while remaining != {}
      invariant NoDup(order)
      invariant forall x :: x in versions <==> x in order || x in remaining
      invariant forall x :: x in remaining ==> x !in order
      invariant releases == result.releases + VisionEntries(order)
      decreases |remaining|
    {
      var v :| v in remaining;
      order := order + [v];
      releases := releases + [Entry(v, Vision)];
      remaining := remaining - {v};
    }
    var timeline := AppendVision(result.timeline, pats.quarters(description));
    timeline := AppendVision(timeline, pats.dates(description));
    r := result.(releases := releases, timeline := timeline);
  }

  // ---------------------------------------------------------------------
  // `analyze_file`
  // ---------------------------------------------------------------------

  function Extracted(base: FileResult, answer: Result<Roadmap>): FileResult
    requires base.Analyzed?
  {
    match answer
    case Ok(rm) => base.(releases := rm.releases, features := rm.features, timeline := rm.timeline)
    case Err(e) => base.(errors := [e])
  }

  /** `analyze_file` with the version-set order of an image description
      fixed. */
  function AnalyzeFileWith(path: string, io: Io, pats: Patterns, order: seq<string>): FileResult
  {
    if !io.exists_(path) then Missing("File not found: " + path)
    else
      var t := DetectFileType(path);
      var base := Analyzed(path, t, [], [], [], []);
      if t == Image then
        match io.image(path)
        case Ok(description) => ParsedWith(base, description, pats, order)
        case Err(e) => base.(errors := [e])
      else if t == Ppt then Extracted(base, io.ppt(path))
      else if t == Excel then Extracted(base, io.excel(path))
      else base.(errors := ["Unsupported file type: " + t.Name()])
  }

  /** The versions whose set the analysis of `path` iterates. */
  function VersionsSeen(path: string, io: Io, pats: Patterns): seq<string>
  {
    if io.exists_(path) && DetectFileType(path) == Image && io.image(path).Ok? then
      VersionsFor(io.image(path).value, pats)
    else []
  }

  method AnalyzeFile(path: string, io: Io, pats: Patterns) returns (r: FileResult, ghost order: seq<string>)
    ensures SetOrder(order, VersionsSeen(path, io, pats))
    ensures r == AnalyzeFileWith(path, io, pats, order)
  {
    order := [];
    if !io.exists_(path) {
      r := Missing("File not found: " + path);
      return;
    }
    var t := DetectFileType(path);
    var base := Analyzed(path, t, [], [], [], []);
    if t == Image {
      var answer := io.image(path);
      if answer.Ok? {
        r, order := ParseVisionResponse(base, answer.value, pats);
      } else {
        r := base.(errors := [answer.msg]);
      }
    } else if t == Ppt {
      r := Extracted(base, io.ppt(path));
    } else if t == Excel {
      r := Extracted(base, io.excel(path));
    } else {
      r := base.(errors := ["Unsupported file type: " + t.Name()]);
    }
  }

  /** What one file's analysis reports: a missing file, a file of a kind
      with no extractor (a PDF among them), a failed extractor, and an
      image whose description is read for versions. */
  lemma AnalyzeFileCases(path: string, io: Io, pats: Patterns, order: seq<string>)
    requires SetOrder(order, VersionsSeen(path, io, pats))
    ensures !io.exists_(path) ==> AnalyzeFileWith(path, io, pats, order) == Missing("File not found: " + path)
    ensures io.exists_(path) && DetectFileType(path) in {Pdf, Unknown} ==>
      ErrorsOf(AnalyzeFileWith(path, io, pats, order)) == ["Unsupported file type: " + DetectFileType(path).Name()]
    ensures io.exists_(path) && DetectFileType(path) == Ppt && io.ppt(path).Err? ==>
      ErrorsOf(AnalyzeFileWith(path, io, pats, order)) == [io.ppt(path).msg]
    ensures io.exists_(path) && DetectFileType(path) == Ppt && io.ppt(path).Ok? ==>
      (ErrorsOf(AnalyzeFileWith(path, io, pats, order)) == [] &&
       ReleasesOf(AnalyzeFileWith(path, io, pats, order)) == io.ppt(path).value.releases)
    ensures io.exists_(path) && DetectFileType(path) == Image && io.image(path).Ok? ==>
      (ErrorsOf(AnalyzeFileWith(path, io, pats, order)) == [] &&
       SetOrder(Keys(ReleasesOf(AnalyzeFileWith(path, io, pats, order))), VersionsSeen(path, io, pats)) &&
       FeaturesOf(AnalyzeFileWith(path, io, pats, order)) == [])
  {
    if io.exists_(path) && DetectFileType(path) == Image && io.image(path).Ok? {
      var d := io.image(path).value;
      var r := AnalyzeFileWith(path, io, pats, order);
      if d == [] {
        assert ReleasesOf(r) == [];
      } else {
        assert ReleasesOf(r) == VisionEntries(order);
      }
    }
  }

  // ---------------------------------------------------------------------
  // Deduplicating merge
  // ---------------------------------------------------------------------

  function KeySet(es: seq<Entry>, key: Entry -> string): set<string>
  {
    set e | e in es :: key(e)
  }

  /** Appends each entry of `xs` whose key is non-empty and not yet among
      the keys of what was kept. */
  function AddNew(acc: seq<Entry>, xs: seq<Entry>, key: Entry -> string): seq<Entry>
    decreases |xs|
  {
    if xs == [] then acc
    else
      var prev := AddNew(acc, xs[..|xs| - 1], key);
      var x := xs[|xs| - 1];
      if key(x) != [] && key(x) !in KeySet(prev, key) then prev + [x] else prev
  }

  lemma {:induction false} AddNewAppend(acc: seq<Entry>, xs: seq<Entry>, ys: seq<Entry>, key: Entry -> string)
    ensures AddNew(acc, xs + ys, key) == AddNew(AddNew(acc, xs, key), ys, key)
    decreases |ys|
  {
    if ys == [] {
      assert xs + ys == xs;
    } else {
      assert (xs + ys)[..|xs + ys| - 1] == xs + ys[..|ys| - 1];
      AddNewAppend(acc, xs, ys[..|ys| - 1], key);
    }
  }

  /** Keys of the entries of `es` are pairwise distinct. */
  predicate UniqueKeys(es: seq<Entry>, key: Entry -> string)
  {
    forall i, j :: 0 <= i < j < |es| ==> key(es[i]) != key(es[j])
  }

  /** The first entry of `xs` carrying a given key. */
  predicate FirstWithKey(xs: seq<Entry>, j: int, key: Entry -> string)
    requires 0 <= j < |xs|
  {
    forall m :: 0 <= m < j ==> key(xs[m]) != key(xs[j])
  }

  /** The merge keeps entries of `xs`, with non-empty keys, one per key. */
  lemma {:induction false} AddNewUnique(xs: seq<Entry>, key: Entry -> string)
    ensures UniqueKeys(AddNew([], xs, key), key)
    ensures forall e :: e in AddNew([], xs, key) ==> e in xs && key(e) != []
    decreases |xs|
  {
    if xs != [] {
      var init := xs[..|xs| - 1];
      var x := xs[|xs| - 1];
      AddNewUnique(init, key);
      var prev := AddNew([], init, key);
      var r := AddNew([], xs, key);
      if key(x) != [] && key(x) !in KeySet(prev, key) {
        assert r == prev + [x];
        forall i, k | 0 <= i < k < |r| ensures key(r[i]) != key(r[k]) {
          if k == |r| - 1 {
            assert r[i] in prev;
          }
        }
      }
    }
  }

  /** Every non-empty key of `xs` is among the kept entries' keys. */
  lemma {:induction false} AddNewCovers(xs: seq<Entry>, key: Entry -> string)
    ensures forall j :: 0 <= j < |xs| && key(xs[j]) != [] ==> key(xs[j]) in KeySet(AddNew([], xs, key), key)
    decreases |xs|
  {
    if xs != [] {
      var init := xs[..|xs| - 1];
      var x := xs[|xs| - 1];
      AddNewCovers(init, key);
      var prev := AddNew([], init, key);
      var r := AddNew([], xs, key);
      assert forall e :: e in prev ==> e in r;
      forall j | 0 <= j < |xs| && key(xs[j]) != [] ensures key(xs[j]) in KeySet(r, key) {
        if j < |init| {
          assert init[j] == xs[j];
          assert key(init[j]) in KeySet(prev, key);
        } else if key(x) !in KeySet(prev, key) {
          assert x in r;
        }
      }
    }
  }

  /** The entry kept for a key is the first of `xs` with that key. */
  lemma {:induction false} AddNewFirst(xs: seq<Entry>, key: Entry -> string)
    ensures forall j :: 0 <= j < |xs| && key(xs[j]) != [] && FirstWithKey(xs, j, key) ==> xs[j] in AddNew([], xs, key)
    decreases |xs|
  {
    if xs != [] {
      var init := xs[..|xs| - 1];
      var x := xs[|xs| - 1];
      AddNewFirst(init, key);
      AddNewUnique(init, key);
      var prev := AddNew([], init, key);
      var r := AddNew([], xs, key);
      forall j | 0 <= j < |xs| && key(xs[j]) != [] && FirstWithKey(xs, j, key)
        ensures xs[j] in r
      {
        if j < |init| {
          assert init[j] == xs[j];
          assert FirstWithKey(init, j, key);
        }
      }
    }
  }

  // ---------------------------------------------------------------------
  // `_sort_timeline`
  // ---------------------------------------------------------------------

  predicate IsLetter(c: char) { IsUpper(c) || IsLowerChar(c) }

  /** Four decimal digits start at `j`. */
  predicate DigitsAt(s: string, j: nat, n: nat)
  {
    j + n <= |s| && AllDigits(s[j..j + n])
  }

  predicate IsQ(c: char) { c == 'Q' || c == 'q' }

  /** `Q(\d)\s*(\d{4})`, case-insensitive, matched at `i`: (year, 3 * quarter). */
  function QuarterYearAt(s: string, i: nat): Option<(int, int)>
  {
    if i + 1 < |s| && IsQ(s[i]) && IsDigit(s[i + 1]) then
      var j := SkipSpaces(s, i + 2);
      if DigitsAt(s, j, 4) then Some((DigitsValue(s[j..j + 4]) as int, 3 * DigitValue(s[i + 1]))) else None
    else None
  }

  /** `(\d{4})\s*Q(\d)`, case-insensitive, matched at `i`. */
  function YearQuarterAt(s: string, i: nat): Option<(int, int)>
  {
    if DigitsAt(s, i, 4) then
      var j := SkipSpaces(s, i + 4);
      if j + 1 < |s| && IsQ(s[j]) && IsDigit(s[j + 1]) then
        Some((DigitsValue(s[i..i + 4]) as int, 3 * DigitValue(s[j + 1])))
      else None
    else None
  }

  /** One past the run of letters starting at `k`. */
  function LetterRunEnd(s: string, k: nat): (e: nat)
    requires k <= |s|
    ensures k <= e <= |s| && (e < |s| ==> !IsLetter(s[e]))
    ensures forall t :: k <= t < e ==> IsLetter(s[t])
    decreases |s| - k
  {
    if k < |s| && IsLetter(s[k]) then LetterRunEnd(s, k + 1) else k
  }

  const MonthNames: seq<string> := ["jan", "feb", "mar", "apr", "may", "jun", "jul", "aug", "sep", "oct", "nov", "dec"]

  /** The month table's lookup with 1 for an unknown name. */
  function MonthNumber(m: string): (n: int)
    ensures 1 <= n <= 12
    ensures forall i :: 0 <= i < |MonthNames| && MonthNames[i] == m ==> n == i + 1
  {
    if m == "jan" then 1 else if m == "feb" then 2 else if m == "mar" then 3
    else if m == "apr" then 4 else if m == "may" then 5 else if m == "jun" then 6
    else if m == "jul" then 7 else if m == "aug" then 8 else if m == "sep" then 9
    else if m == "oct" then 10 else if m == "nov" then 11 else if m == "dec" then 12
    else 1
  }

  /** `([a-z]{3})[a-z]*\s*(\d{4})`, case-insensitive, matched at `i`:
      (year, month of the first three letters). */
  function MonthYearAt(s: string, i: nat): Option<(int, int)>
  {
    if i + 3 <= |s| && IsLetter(s[i]) && IsLetter(s[i + 1]) && IsLetter(s[i + 2]) then
      var j := SkipSpaces(s, LetterRunEnd(s, i + 3));
      if DigitsAt(s, j, 4) then Some((DigitsValue(s[j..j + 4]) as int, MonthNumber(Lower(s[i..i + 3])))) else None
    else None
  }

  /** `re.search`: the match at the leftmost position from `i` on. */
  function Search(s: string, i: nat, at: nat -> Option<(int, int)>): (r: Option<(int, int)>)
    requires i <= |s|
    ensures r.Some? ==> exists k :: i <= k < |s| && at(k) == r && forall m :: i <= m < k ==> at(m).None?
    ensures r.None? ==> forall k :: i <= k < |s| ==> at(k).None?
    decreases |s| - i
  {
    if i == |s| then None
    else if at(i).Some? then at(i)
    else Search(s, i + 1, at)
  }

  /** `parse_date_key`: quarter formats first, then month and year, and
      unknown dates last. */
  function DateKey(d: string): (int, int)
  {
    var qy := Search(d, 0, (k: nat) => QuarterYearAt(d, k));
    if qy.Some? then qy.value
    else
      var yq := Search(d, 0, (k: nat) => YearQuarterAt(d, k));
      if yq.Some? then yq.value
      else
        var my := Search(d, 0, (k: nat) => MonthYearAt(d, k));
        if my.Some? then my.value else (9999, 99)
  }

  /** A date with no digit, so with no year, sorts after every dated one. */
  lemma UndatedLast(d: string)
    requires forall i :: 0 <= i < |d| ==> !IsDigit(d[i])
    ensures DateKey(d) == (9999, 99)
  {
    forall k | 0 <= k < |d| ensures QuarterYearAt(d, k).None? && YearQuarterAt(d, k).None? && MonthYearAt(d, k).None? {
    }
  }

  /** "Q<digit> <year>" sorts at three times its quarter in its year. */
  lemma QuarterKey(q: char, y: string)
    requires IsDigit(q) && |y| == 4 && AllDigits(y)
    ensures DateKey(['Q', q, ' '] + y) == (DigitsValue(y) as int, 3 * DigitValue(q))
  {
    var d := ['Q', q, ' '] + y;
    assert d[3..7] == y;
    assert d[2] == ' ' && !IsSpace(d[3]);
    assert SkipSpaces(d, 3) == 3;
    assert SkipSpaces(d, 2) == 3;
    assert QuarterYearAt(d, 0) == Some((DigitsValue(y) as int, 3 * DigitValue(q)));
    DateKeyQuarter(d);
  }

  /** A quarter form at the start decides the key. */
  lemma DateKeyQuarter(d: string)
    requires |d| > 0 && QuarterYearAt(d, 0).Some?
    ensures DateKey(d) == QuarterYearAt(d, 0).value
  {
    SearchFirst(d, (k: nat) => QuarterYearAt(d, k));
  }

  /** A match at the first position is the one `re.search` returns. */
  lemma SearchFirst(s: string, at: nat -> Option<(int, int)>)
    requires |s| > 0 && at(0).Some?
    ensures Search(s, 0, at) == at(0)
  {
  }

  /** Three letters, none of them a Q, a space and a year sort at the
      month the letters name, in any case (1 when they name none). */
  lemma MonthKey(m: string, y: string)
    requires |m| == 3 && forall t :: 0 <= t < 3 ==> IsLetter(m[t]) && !IsQ(m[t])
    requires |y| == 4 && AllDigits(y)
    ensures DateKey(m + " " + y) == (DigitsValue(y) as int, MonthNumber(Lower(m)))
  {
    var d := m + " " + y;
    assert forall t :: 0 <= t < 3 ==> d[t] == m[t];
    assert d[3] == ' ';
    assert forall t :: 4 <= t < 8 ==> d[t] == y[t - 4] && IsDigit(d[t]);
    assert d[0..3] == m;
    assert LetterRunEnd(d, 3) == 3;
    assert SkipSpaces(d, 3) == 4;
    assert d[4..8] == y;
    assert MonthYearAt(d, 0) == Some((DigitsValue(y) as int, MonthNumber(Lower(m))));
    forall k | 0 <= k < |d| ensures QuarterYearAt(d, k).None? && YearQuarterAt(d, k).None? {
      if DigitsAt(d, k, 4) {
        assert d[k..k + 4][0] == d[k];
        assert k == 4;
      }
    }
    DateKeyMonth(d);
  }

  /** With no quarter form anywhere, a month form at the start decides the
      key. */
  lemma DateKeyMonth(d: string)
    requires forall k :: 0 <= k < |d| ==> QuarterYearAt(d, k).None? && YearQuarterAt(d, k).None?
    requires |d| > 0 && MonthYearAt(d, 0).Some?
    ensures DateKey(d) == MonthYearAt(d, 0).value
  {
    SearchNone(d, 0, (k: nat) => QuarterYearAt(d, k));
    SearchNone(d, 0, (k: nat) => YearQuarterAt(d, k));
    SearchFirst(d, (k: nat) => MonthYearAt(d, k));
  }

  /** `re.search` finds nothing where nothing matches. */
  lemma {:induction false} SearchNone(s: string, i: nat, at: nat -> Option<(int, int)>)
    requires i <= |s| && forall k :: i <= k < |s| ==> at(k).None?
    ensures Search(s, i, at).None?
    decreases |s| - i
  {
    if i < |s| {
      SearchNone(s, i + 1, at);
    }
  }

  function EntryDateKey(e: Entry): (int, int) { DateKey(e.key) }

  function SortTimeline(timeline: seq<Entry>): seq<Entry>
  {
    SortBy(timeline, EntryDateKey)
  }

  // ---------------------------------------------------------------------
  // `analyze_multiple`
  // ---------------------------------------------------------------------

  datatype FileRecord = FileRecord(path: string, fileType: Option<string>, success: bool)

  datatype Combined = Combined(files: seq<FileRecord>, releases: seq<Entry>, features: seq<Entry>,
                               timeline: seq<Entry>, errors: seq<string>)

  function ReleaseKey(e: Entry): string { e.key }
  function FeatureKey(e: Entry): string { Take(e.key, 50) }

  /** A file's line in the summary: it succeeded when it reported no
      errors. */
  function Record(path: string, r: FileResult): FileRecord
  {
    FileRecord(path, if r.Missing? then None else Some(r.fileType.Name()), ErrorsOf(r) == [])
  }

  /** The merge loop over the files' results, before the timeline is
      sorted. */
  function Merge(paths: seq<string>, results: seq<FileResult>): Combined
    requires |paths| == |results|
    decreases |paths|
  {
    if paths == [] then Combined([], [], [], [], [])
    else
      var n := |paths| - 1;
      MergeOne(Merge(paths[..n], results[..n]), paths[n], results[n])
  }

  /** One round of the merge loop: the file's summary line, its new
      releases and features, its timeline and its errors. */
  function MergeOne(c: Combined, path: string, r: FileResult): Combined
  {
    Combined(c.files + [Record(path, r)],
             AddNew(c.releases, ReleasesOf(r), ReleaseKey),
             AddNew(c.features, FeaturesOf(r), FeatureKey),
             c.timeline + TimelineOf(r),
             c.errors + ErrorsOf(r))
  }

  function Combine(paths: seq<string>, results: seq<FileResult>): Combined
    requires |paths| == |results|
  {
    var c := Merge(paths, results);
    c.(timeline := SortTimeline(c.timeline))
  }

  function AllReleases(results: seq<FileResult>): seq<Entry>
    decreases |results|
  {
    if results == [] then [] else AllReleases(results[..|results| - 1]) + ReleasesOf(results[|results| - 1])
  }

  function AllFeatures(results: seq<FileResult>): seq<Entry>
    decreases |results|
  {
    if results == [] then [] else AllFeatures(results[..|results| - 1]) + FeaturesOf(results[|results| - 1])
  }

  function AllTimeline(results: seq<FileResult>): seq<Entry>
    decreases |results|
  {
    if results == [] then [] else AllTimeline(results[..|results| - 1]) + TimelineOf(results[|results| - 1])
  }

  /** Merging file by file is one deduplicating pass over all the files'
      entries in order, and the concatenation of their timelines. */
  lemma {:induction false} MergeFlat(paths: seq<string>, results: seq<FileResult>)
    requires |paths| == |results|
    ensures Merge(paths, results).releases == AddNew([], AllReleases(results), ReleaseKey)
    ensures Merge(paths, results).features == AddNew([], AllFeatures(results), FeatureKey)
    ensures Merge(paths, results).timeline == AllTimeline(results)
    decreases |paths|
  {
    if paths != [] {
      var n := |paths| - 1;
      MergeFlat(paths[..n], results[..n]);
      AddNewAppend([], AllReleases(results[..n]), ReleasesOf(results[n]), ReleaseKey);
      AddNewAppend([], AllFeatures(results[..n]), FeaturesOf(results[n]), FeatureKey);
    }
  }

  /** The summary lines of the files, one per path. */
  function Records(paths: seq<string>, results: seq<FileResult>): (fs: seq<FileRecord>)
    requires |paths| == |results|
    ensures |fs| == |paths|
    ensures forall i :: 0 <= i < |paths| ==> fs[i] == Record(paths[i], results[i])
  {
    seq(|paths|, i requires 0 <= i < |paths| => Record(paths[i], results[i]))
  }

  /** The merge loop writes one summary line per file, in order. */
  lemma {:induction false} MergeRecords(paths: seq<string>, results: seq<FileResult>)
    requires |paths| == |results|
    ensures Merge(paths, results).files == Records(paths, results)
    decreases |paths|
  {
    if paths != [] {
      var n := |paths| - 1;
      MergeRecords(paths[..n], results[..n]);
      var a := Merge(paths, results).files;
      var b := Records(paths, results);
      assert a == Records(paths[..n], results[..n]) + [Record(paths[n], results[n])];
      forall i | 0 <= i < |paths| ensures a[i] == b[i] {
        if i < n {
          assert paths[..n][i] == paths[i] && results[..n][i] == results[i];
        }
      }
    }
  }

  /** One summary line per file, in order; a file succeeded exactly when
      it reported no errors, so a missing file, which reports only an
      error text, counts as a success of unknown type. */
  lemma MergeFiles(paths: seq<string>, results: seq<FileResult>)
    requires |paths| == |results|
    ensures |Merge(paths, results).files| == |paths|
    ensures forall i :: 0 <= i < |paths| ==>
      Merge(paths, results).files[i].path == paths[i] &&
      (Merge(paths, results).files[i].success <==> ErrorsOf(results[i]) == [])
    ensures forall i :: 0 <= i < |paths| && results[i].Missing? ==>
      Merge(paths, results).files[i] == FileRecord(paths[i], None, true)
  {
    MergeRecords(paths, results);
  }

  /** What the combined result promises: one release per version and one
      feature per 50-character prefix, the first met in file order; the
      timeline, complete, in date order, with equal dates in input order. */
  lemma CombineSpec(paths: seq<string>, results: seq<FileResult>)
    requires |paths| == |results|
    ensures UniqueKeys(Combine(paths, results).releases, ReleaseKey)
    ensures forall j :: (0 <= j < |AllReleases(results)| && AllReleases(results)[j].key != [] &&
                         FirstWithKey(AllReleases(results), j, ReleaseKey)) ==>
      AllReleases(results)[j] in Combine(paths, results).releases
    ensures forall e :: e in Combine(paths, results).releases ==> e in AllReleases(results) && e.key != []
    ensures UniqueKeys(Combine(paths, results).features, FeatureKey)
    ensures forall j :: (0 <= j < |AllFeatures(results)| && FeatureKey(AllFeatures(results)[j]) != [] &&
                         FirstWithKey(AllFeatures(results), j, FeatureKey)) ==>
      AllFeatures(results)[j] in Combine(paths, results).features
    ensures SortedBy(Combine(paths, results).timeline, EntryDateKey)
    ensures multiset(Combine(paths, results).timeline) == multiset(AllTimeline(results))
    ensures forall k :: WithKey(Combine(paths, results).timeline, EntryDateKey, k) == WithKey(AllTimeline(results), EntryDateKey, k)
  {
    MergeFlat(paths, results);
    AddNewUnique(AllReleases(results), ReleaseKey);
    AddNewFirst(AllReleases(results), ReleaseKey);
    AddNewUnique(AllFeatures(results), FeatureKey);
    AddNewFirst(AllFeatures(results), FeatureKey);
    SortBySpec(AllTimeline(results), EntryDateKey);
  }

  /** The deduplicating loop over one file's entries. */
  method MergeEntries(acc: seq<Entry>, seen: set<string>, xs: seq<Entry>, key: Entry -> string)
    returns (r: seq<Entry>, seen': set<string>)
    requires seen == KeySet(acc, key)
    ensures r == AddNew(acc, xs, key) && seen' == KeySet(r, key)
  {
    r, seen' := acc, seen;
    var i := 0;
    while i < |xs|
      invariant 0 <= i <= |xs|
      invariant r == AddNew(acc, xs[..i], key) && seen' == KeySet(r, key)
    {
      var x := xs[i];
      assert xs[..i + 1][..i] == xs[..i];
      if key(x) != [] && key(x) !in seen' {
        seen' := seen' + {key(x)};
        r := r + [x];
      }
      i := i + 1;
    }
    assert xs[..|xs|] == xs;
  }

  method MergeFile(c: Combined, seenReleases: set<string>, seenFeatures: set<string>, path: string, r: FileResult)
    returns (c': Combined, seenReleases': set<string>, seenFeatures': set<string>)
    requires seenReleases == KeySet(c.releases, ReleaseKey) && seenFeatures == KeySet(c.features, FeatureKey)
    ensures c' == MergeOne(c, path, r)
    ensures seenReleases' == KeySet(c'.releases, ReleaseKey) && seenFeatures' == KeySet(c'.features, FeatureKey)
  {
    var releases, features;
    releases, seenReleases' := MergeEntries(c.releases, seenReleases, ReleasesOf(r), ReleaseKey);
    features, seenFeatures' := MergeEntries(c.features, seenFeatures, FeaturesOf(r), FeatureKey);
    c' := Combined(c.files + [Record(path, r)], releases, features,
                   c.timeline + TimelineOf(r), c.errors + ErrorsOf(r));
  }

  /** The versions each path's analysis sees. */
  function SeenPerPath(paths: seq<string>, io: Io, pats: Patterns): (vs: seq<seq<string>>)
    ensures |vs| == |paths|
    ensures forall j :: 0 <= j < |paths| ==> vs[j] == VersionsSeen(paths[j], io, pats)
  {
    seq(|paths|, j requires 0 <= j < |paths| => VersionsSeen(paths[j], io, pats))
  }

  /** Each of the first `|orders|` version sets has its order. */
  ghost predicate OrdersFit(orders: seq<seq<string>>, seen: seq<seq<string>>)
  {
    |orders| <= |seen| && forall j :: 0 <= j < |orders| ==> SetOrder(orders[j], seen[j])
  }

  lemma OrdersFitSnoc(orders: seq<seq<string>>, order: seq<string>, seen: seq<seq<string>>)
    requires OrdersFit(orders, seen) && |orders| < |seen| && SetOrder(order, seen[|orders|])
    ensures OrdersFit(orders + [order], seen)
  {
    var o := orders + [order];
    forall j | 0 <= j < |o| ensures SetOrder(o[j], seen[j]) {
      if j < |orders| {
        assert o[j] == orders[j];
      }
    }
  }

  /** One more file merges its result into what the earlier files made. */
  lemma MergeStep(paths: seq<string>, results: seq<FileResult>, r: FileResult)
    requires |results| < |paths|
    ensures Merge(paths[..|results| + 1], results + [r]) ==
      MergeOne(Merge(paths[..|results|], results), paths[|results|], r)
  {
    var i := |results|;
    var ps := paths[..i + 1];
    var rs := results + [r];
    assert ps[..i] == paths[..i] && ps[i] == paths[i];
    assert rs[..i] == results && rs[i] == r;
    assert Merge(ps, rs) == MergeOne(Merge(ps[..i], rs[..i]), ps[i], rs[i]);
  }

  /** The results of analysing each path with the given version-set orders. */
  function Results(paths: seq<string>, io: Io, pats: Patterns, orders: seq<seq<string>>): (rs: seq<FileResult>)
    requires |orders| == |paths|
    ensures |rs| == |paths|
    ensures forall i :: 0 <= i < |paths| ==> rs[i] == AnalyzeFileWith(paths[i], io, pats, orders[i])
  {
    seq(|paths|, i requires 0 <= i < |paths| => AnalyzeFileWith(paths[i], io, pats, orders[i]))
  }

  /** One more path adds its own result. */
  lemma ResultsSnoc(paths: seq<string>, i: nat, io: Io, pats: Patterns, orders: seq<seq<string>>, order: seq<string>)
    requires i < |paths| && |orders| == i
    ensures Results(paths[..i + 1], io, pats, orders + [order]) ==
      Results(paths[..i], io, pats, orders) + [AnalyzeFileWith(paths[i], io, pats, order)]
  {
    var a := Results(paths[..i + 1], io, pats, orders + [order]);
    var b := Results(paths[..i], io, pats, orders) + [AnalyzeFileWith(paths[i], io, pats, order)];
    forall j | 0 <= j < i + 1 ensures a[j] == b[j] {
      if j < i {
        assert (orders + [order])[j] == orders[j];
      }
    }
  }

  method AnalyzeMultiple(paths: seq<string>, io: Io, pats: Patterns)
    returns (combined: Combined, ghost orders: seq<seq<string>>)
    ensures |orders| == |paths|
    ensures forall i :: 0 <= i < |paths| ==> SetOrder(orders[i], VersionsSeen(paths[i], io, pats))
    ensures combined == Combine(paths, Results(paths, io, pats, orders))
  {
    combined := Combined([], [], [], [], []);
    orders := [];
    ghost var results: seq<FileResult> := [];
    var seenReleases: set<string> := {};
    var seenFeatures: set<string> := {};
    var i := 0;
    while i < |paths|
      invariant 0 <= i <= |paths| && |results| == i && |orders| == i
      invariant OrdersFit(orders, SeenPerPath(paths, io, pats))
      invariant results == Results(paths[..i], io, pats, orders)
      invariant combined == Merge(paths[..i], results)
      invariant seenReleases == KeySet(combined.releases, ReleaseKey)
      invariant seenFeatures == KeySet(combined.features, FeatureKey)
    {
      var r, order := AnalyzeFile(paths[i], io, pats);
      combined, seenReleases, seenFeatures := MergeFile(combined, seenReleases, seenFeatures, paths[i], r);
      MergeStep(paths, results, r);
      ResultsSnoc(paths, i, io, pats, orders, order);
      OrdersFitSnoc(orders, order, SeenPerPath(paths, io, pats));
      results := results + [r];
      orders := orders + [order];
      i := i + 1;
    }
    assert paths[..|paths|] == paths;
    combined := combined.(timeline := SortTimeline(combined.timeline));
  }
}
