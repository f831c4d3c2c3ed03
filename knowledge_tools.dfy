/** The local knowledge base tools: keyword scoring of text, splitting a
    Markdown file into heading sections, ranking the sections of every
    knowledge file against a query, and reading one document by its
    suffix.  Finding the knowledge files, reading them and the PDF and DOCX
    text extractors are left to the caller: their results are parameters. */
module KnowledgeTools {
  import opened Common
  import opened StableSort

  // ---------------------------------------------------------------------
  // `_score_match`
  // ---------------------------------------------------------------------

  /** `s.count(sub)` for a non-empty `sub`: non-overlapping occurrences,
      searched left to right. */
  function CountSub(s: string, sub: string): (n: nat)
    requires sub != []
    ensures n * |sub| <= |s|
    decreases |s|
  {
    if |s| < |sub| then 0
    else if s[..|sub|] == sub then 1 + CountSub(s[|sub|..], sub)
    else CountSub(s[1..], sub)
  }

  /** `s.count(sub)`: an empty `sub` is counted at every position. */
  function PyCount(s: string, sub: string): nat
  {
    if sub == [] then |s| + 1 else CountSub(s, sub)
  }

  lemma {:induction false} CountSubZero(s: string, sub: string)
    requires sub != []
    ensures CountSub(s, sub) == 0 <==> !Contains(s, sub)
    decreases |s|
  {
    if |s| >= |sub| && s[..|sub|] != sub {
      CountSubZero(s[1..], sub);
    } else if |s| < |sub| {
      NotContainsShort(s, sub);
    }
  }

  lemma {:induction false} NotContainsShort(s: string, sub: string)
    requires |s| < |sub|
    ensures !Contains(s, sub)
    decreases |s|
  {
    if s != [] {
      NotContainsShort(s[1..], sub);
    }
  }

  /** The score of a text: the summed case-insensitive counts of every
      keyword. */
  function Score(text: string, keywords: seq<string>): nat
    decreases |keywords|
  {
    if keywords == [] then 0
    else Score(text, keywords[..|keywords| - 1]) + PyCount(Lower(text), Lower(keywords[|keywords| - 1]))
  }

  method ScoreMatch(text: string, keywords: seq<string>) returns (score: nat)
    ensures score == Score(text, keywords)
  {
    var lower := Lower(text);
    score := 0;
    var i := 0;
    while i < |keywords|
      invariant 0 <= i <= |keywords|
      invariant score == Score(text, keywords[..i])
    {
      assert keywords[..i + 1][..i] == keywords[..i];
      score := score + PyCount(lower, Lower(keywords[i]));
      i := i + 1;
    }
    assert keywords[..|keywords|] == keywords;
  }

  /** A text scores 0 exactly when no keyword is empty and none occurs in
      it, ignoring case. */
  lemma {:induction false} ScoreZero(text: string, keywords: seq<string>)
    ensures Score(text, keywords) == 0 <==>
      forall i :: 0 <= i < |keywords| ==> keywords[i] != [] && !Contains(Lower(text), Lower(keywords[i]))
    decreases |keywords|
  {
    if keywords != [] {
      var init := keywords[..|keywords| - 1];
      var kw := keywords[|keywords| - 1];
      ScoreZero(text, init);
      assert forall i :: 0 <= i < |init| ==> init[i] == keywords[i];
      if kw != [] {
        assert Lower(kw) != [];
        CountSubZero(Lower(text), Lower(kw));
      }
    }
  }

  // ---------------------------------------------------------------------
  // `_extract_sections`
  // ---------------------------------------------------------------------

  datatype Section = Section(heading: string, content: string)

  predicate IsHeadingLine(line: string) { line != [] && line[0] == '#' }

  /** `s.lstrip('#')` */
  function DropHashes(s: string): (r: string)
    ensures r == [] || r[0] != '#'
    decreases |s|
  {
    if s != [] && s[0] == '#' then DropHashes(s[1..]) else s
  }

  function HeadingText(line: string): string
  {
    Strip(DropHashes(line))
  }

  /** The line loop's state: the finished sections, the open heading and
      the lines gathered under it. */
  datatype Scan = Scan(sections: seq<Section>, heading: string, lines: seq<string>)

  /** The sections once the open one is saved; it is saved only when it
      has a heading or some lines. */
  function Flush(st: Scan): seq<Section>
  {
    if st.heading != [] || st.lines != [] then st.sections + [Section(st.heading, Strip(Join(st.lines, "\n")))]
    else st.sections
  }

  function ScanLines(lines: seq<string>): Scan
    decreases |lines|
  {
    if lines == [] then Scan([], [], [])
    else
      var st := ScanLines(lines[..|lines| - 1]);
      var line := lines[|lines| - 1];
      if IsHeadingLine(line) then Scan(Flush(st), HeadingText(line), [])
      else st.(lines := st.lines + [line])
  }

  function Sections(text: string): seq<Section>
  {
    Flush(ScanLines(SplitLines(text)))
  }

  method ExtractSections(text: string) returns (sections: seq<Section>)
    ensures sections == Sections(text)
  {
    var lines := SplitLines(text);
    sections := [];
    var heading: string := [];
    var current: seq<string> := [];
    var i := 0;
    while i < |lines|
      invariant 0 <= i <= |lines|
      invariant ScanLines(lines[..i]) == Scan(sections, heading, current)
    {
      assert lines[..i + 1][..i] == lines[..i];
      var line := lines[i];
      if IsHeadingLine(line) {
        if heading != [] || current != [] {
          sections := sections + [Section(heading, Strip(Join(current, "\n")))];
        }
        heading := HeadingText(line);
        current := [];
      } else {
        current := current + [line];
      }
      i := i + 1;
    }
    assert lines[..|lines|] == lines;
    if heading != [] || current != [] {
      sections := sections + [Section(heading, Strip(Join(current, "\n")))];
    }
  }

  /** The non-empty headings of some sections, in order. */
  function NamedHeadings(sections: seq<Section>): seq<string>
    decreases |sections|
  {
    if sections == [] then []
    else
      var h := sections[|sections| - 1].heading;
      NamedHeadings(sections[..|sections| - 1]) + (if h != [] then [h] else [])
  }

  /** The non-empty heading texts of the heading lines, in order. */
  function HeadingLines(lines: seq<string>): seq<string>
    decreases |lines|
  {
    if lines == [] then []
    else
      var line := lines[|lines| - 1];
      HeadingLines(lines[..|lines| - 1]) + (if IsHeadingLine(line) && HeadingText(line) != [] then [HeadingText(line)] else [])
  }

  function Named(h: string): seq<string> { if h != [] then [h] else [] }

  lemma FlushHeadings(st: Scan)
    ensures NamedHeadings(Flush(st)) == NamedHeadings(st.sections) + Named(st.heading)
  {
    if st.heading != [] || st.lines != [] {
      var s := Flush(st);
      assert s[..|s| - 1] == st.sections;
    }
  }

  lemma {:induction false} ScanHeadings(lines: seq<string>)
    ensures NamedHeadings(ScanLines(lines).sections) + Named(ScanLines(lines).heading) == HeadingLines(lines)
    decreases |lines|
  {
    if lines != [] {
      var init := lines[..|lines| - 1];
      ScanHeadings(init);
      FlushHeadings(ScanLines(init));
    }
  }

  /** Sections keep document order: their non-empty headings are the
      non-empty heading texts of the '#' lines, in order. */
  lemma SectionsFollowHeadings(text: string)
    ensures NamedHeadings(Sections(text)) == HeadingLines(SplitLines(text))
  {
    ScanHeadings(SplitLines(text));
    FlushHeadings(ScanLines(SplitLines(text)));
  }

  /** No '#' line among the lines scanned so far. */
  predicate NoHeading(lines: seq<string>)
  {
    forall i :: 0 <= i < |lines| ==> !IsHeadingLine(lines[i])
  }

  lemma {:induction false} ScanPlain(lines: seq<string>)
    requires NoHeading(lines)
    ensures ScanLines(lines) == Scan([], [], lines)
    decreases |lines|
  {
    if lines != [] {
      ScanPlain(lines[..|lines| - 1]);
    }
  }

  /** A text without headings is one section with an empty heading (none
      when the text has no lines). */
  lemma PlainText(text: string)
    requires NoHeading(SplitLines(text))
    ensures Sections(text) == if SplitLines(text) == [] then [] else [Section([], Strip(Join(SplitLines(text), "\n")))]
  {
    ScanPlain(SplitLines(text));
  }

  /** Lines before the first heading form a leading section with an empty
      heading. */
  lemma {:induction false} ScanPreamble(lines: seq<string>)
    requires lines != [] && !IsHeadingLine(lines[0])
    ensures ScanLines(lines).sections == [] ==> ScanLines(lines).heading == [] && ScanLines(lines).lines != []
    ensures ScanLines(lines).sections != [] ==> ScanLines(lines).sections[0].heading == []
    decreases |lines|
  {
    if |lines| > 1 {
      var init := lines[..|lines| - 1];
      ScanPreamble(init);
    }
  }

  lemma Preamble(text: string)
    requires SplitLines(text) != [] && !IsHeadingLine(SplitLines(text)[0])
    ensures Sections(text) != [] && Sections(text)[0].heading == []
  {
    ScanPreamble(SplitLines(text));
  }

  // ---------------------------------------------------------------------
  // `search_knowledge`
  // ---------------------------------------------------------------------

  /** A `\w` character. */
  predicate IsWordChar(c: char) { IsAlnum(c) || c == '_' }

  /** The maximal runs of word characters, scanned so far, and the open
      one. */
  function Runs(q: string): (string, seq<string>)
    decreases |q|
  {
    if q == [] then ([], [])
    else
      var prev := Runs(q[..|q| - 1]);
      var cur, done, c := prev.0, prev.1, q[|q| - 1];
      if IsWordChar(c) then (cur + [c], done)
      else ([], if cur != [] then done + [cur] else done)
  }

  /** The non-empty pieces of `re.split(r'\W+', q)`. */
  function WordRuns(q: string): seq<string>
  {
    var r := Runs(q);
    if r.0 != [] then r.1 + [r.0] else r.1
  }

  /** The pieces of two characters or more. */
  function Long(ws: seq<string>): (r: seq<string>)
    ensures forall w :: w in r ==> w in ws && |w| >= 2
    ensures forall w :: w in ws && |w| >= 2 ==> w in r
    decreases |ws|
  {
    if ws == [] then []
    else Long(ws[..|ws| - 1]) + (if |ws[|ws| - 1]| >= 2 then [ws[|ws| - 1]] else [])
  }

  function Keywords(query: string): seq<string>
  {
    Long(WordRuns(query))
  }

  predicate AllWord(w: string) { forall i :: 0 <= i < |w| ==> IsWordChar(w[i]) }

  lemma {:induction false} RunsWords(q: string)
    ensures AllWord(Runs(q).0)
    ensures forall w :: w in Runs(q).1 ==> AllWord(w) && w != []
    decreases |q|
  {
    if q != [] {
      RunsWords(q[..|q| - 1]);
    }
  }

  /** Every query keyword is a run of at least two word characters. */
  lemma KeywordsAreWords(query: string)
    ensures forall w :: w in Keywords(query) ==> |w| >= 2 && AllWord(w)
  {
    RunsWords(query);
  }

  lemma {:induction false} RunsOfWord(w: string)
    requires AllWord(w)
    ensures Runs(w).0 == w && Runs(w).1 == []
    decreases |w|
  {
    if w != [] {
      var init, c := w[..|w| - 1], w[|w| - 1];
      assert forall i :: 0 <= i < |init| ==> init[i] == w[i];
      RunsOfWord(init);
      assert IsWordChar(c);
      assert Runs(w) == (Runs(init).0 + [c], Runs(init).1);
      assert init + [c] == w;
    }
  }

  lemma {:induction false} RunsAfter(p: string, w: string)
    requires AllWord(w) && p != [] && !IsWordChar(p[|p| - 1])
    ensures Runs(p + w).0 == w && Runs(p + w).1 == Runs(p).1
    decreases |w|
  {
    if w == [] {
      assert p + w == p;
      var init := p[..|p| - 1];
      assert init + [p[|p| - 1]] == p;
    } else {
      var wi := w[..|w| - 1];
      assert (p + w)[..|p + w| - 1] == p + wi;
      RunsAfter(p, wi);
      assert wi + [w[|w| - 1]] == w;
    }
  }

  /** Two words separated by a space are the query's two keywords. */
  lemma TwoWords(a: string, b: string)
    requires AllWord(a) && AllWord(b) && |a| >= 2 && |b| >= 2
    ensures Keywords(a + " " + b) == [a, b]
  {
    RunsOfWord(a);
    var sp := a + " ";
    assert sp[..|sp| - 1] == a && sp[|sp| - 1] == ' ';
    assert !IsWordChar(' ');
    assert Runs(sp).0 == [] && Runs(sp).1 == [] + [a];
    RunsAfter(sp, b);
    var q := sp + b;
    assert a + " " + b == q;
    assert WordRuns(q) == [a, b];
    LongTwo(a, b);
  }

  lemma LongTwo(a: string, b: string)
    requires |a| >= 2 && |b| >= 2
    ensures Long([a, b]) == [a, b]
  {
    assert [a][..0] == [];
    assert Long([a]) == Long([]) + [a];
    assert [a, b][..1] == [a];
    assert Long([a, b]) == Long([a]) + [b];
  }

  /** A scored section. */
  datatype Hit = Hit(file: string, heading: string, content: string, score: nat)

  /** The sections of one file that score above zero, content cut to 2000
      characters. */
  function FileHits(file: string, sections: seq<Section>, keywords: seq<string>): (hits: seq<Hit>)
    ensures forall h :: h in hits ==> h.score > 0 && h.file == file && |h.content| <= 2000
    decreases |sections|
  {
    if sections == [] then []
    else
      var s := sections[|sections| - 1];
      var score := Score(s.heading + " " + s.content, keywords);
      FileHits(file, sections[..|sections| - 1], keywords)
        + (if score > 0 then [Hit(file, s.heading, Take(s.content, 2000), score)] else [])
  }

  /** Every scored section of every file, in file and document order; an
      unreadable or empty file (text '') contributes nothing. */
  function Candidates(files: seq<(string, string)>, keywords: seq<string>): seq<Hit>
    decreases |files|
  {
    if files == [] then []
    else
      var (path, text) := files[|files| - 1];
      Candidates(files[..|files| - 1], keywords)
        + (if text == [] then [] else FileHits(path, Sections(text), keywords))
  }

  /** Higher scores first, ties in input order. */
  function ByScore(h: Hit): (int, int) { (0 - h.score, 0) }

  /** `xs[:n]` for any integer `n`: a negative one counts from the end. */
  function SliceTo<T>(xs: seq<T>, n: int): (r: seq<T>)
    ensures |r| <= |xs| && r == xs[..|r|]
    ensures n >= 0 ==> |r| == Min(n, |xs|)
  {
    if n >= 0 then (if n <= |xs| then xs[..n] else xs)
    else if |xs| + n >= 0 then xs[..|xs| + n] else []
  }

  datatype Search =
    | NoFiles(error: string)
    | NoKeywords(error: string)
    | Found(query: string, resultCount: nat, totalCandidates: nat, results: seq<Hit>)

  const NoFilesMessage: string := "No knowledge files found in data/knowledge. Ensure data/knowledge/ contains .md files."

  function SearchSpec(files: seq<(string, string)>, query: string, maxResults: int): Search
  {
    if files == [] then NoFiles(NoFilesMessage)
    else if Keywords(query) == [] then NoKeywords("Query too short or contains no searchable keywords")
    else
      var candidates := Candidates(files, Keywords(query));
      var top := SliceTo(SortBy(candidates, ByScore), maxResults);
      Found(query, |top|, |candidates|, top)
  }

  /** The scoring loop over one file's sections. */
  method ScoreSections(file: string, sections: seq<Section>, keywords: seq<string>, acc: seq<Hit>)
    returns (r: seq<Hit>)
    ensures r == acc + FileHits(file, sections, keywords)
  {
    r := acc;
    var j := 0;
    while j < |sections|
      invariant 0 <= j <= |sections|
      invariant r == acc + FileHits(file, sections[..j], keywords)
    {
      assert sections[..j + 1][..j] == sections[..j];
      var s := sections[j];
      var score := ScoreMatch(s.heading + " " + s.content, keywords);
      if score > 0 {
        r := r + [Hit(file, s.heading, Take(s.content, 2000), score)];
      }
      j := j + 1;
    }
    assert sections[..|sections|] == sections;
  }

  /** The loop over the knowledge files: each readable file's sections,
      scored. */
  method ScoreFiles(files: seq<(string, string)>, keywords: seq<string>) returns (scored: seq<Hit>)
    ensures scored == Candidates(files, keywords)
  {
    scored := [];
    var i := 0;
    while i < |files|
      invariant 0 <= i <= |files|
      invariant scored == Candidates(files[..i], keywords)
    {
      assert files[..i + 1][..i] == files[..i];
      var (path, text) := files[i];
      if text != [] {
        var sections := ExtractSections(text);
        scored := ScoreSections(path, sections, keywords, scored);
      }
      i := i + 1;
    }
    assert files[..|files|] == files;
  }

  /** `search_knowledge` over the knowledge files found, each given with
      its text. */
  method SearchKnowledge(files: seq<(string, string)>, query: string, maxResults: int) returns (r: Search)
    ensures r == SearchSpec(files, query, maxResults)
  {
    if files == [] {
      return NoFiles(NoFilesMessage);
    }
    var keywords := Keywords(query);
    if keywords == [] {
      return NoKeywords("Query too short or contains no searchable keywords");
    }
    var scored := ScoreFiles(files, keywords);
    var top := SliceTo(SortBy(scored, ByScore), maxResults);
    r := Found(query, |top|, |scored|, top);
  }

  /** The ranking: only sections scoring above zero, highest first with
      ties in document order, at most `maxResults` of them, and the count
      never above the number of candidates. */
  lemma SearchRanking(files: seq<(string, string)>, query: string, maxResults: int)
    requires SearchSpec(files, query, maxResults).Found?
    ensures SearchSpec(files, query, maxResults).resultCount <= SearchSpec(files, query, maxResults).totalCandidates
    ensures maxResults >= 0 ==> SearchSpec(files, query, maxResults).resultCount <= maxResults
    ensures forall h :: h in SearchSpec(files, query, maxResults).results ==> h.score > 0
    ensures SortedBy(SearchSpec(files, query, maxResults).results, ByScore)
    ensures SearchSpec(files, query, maxResults).results ==
      SortBy(Candidates(files, Keywords(query)), ByScore)[..SearchSpec(files, query, maxResults).resultCount]
  {
    var candidates := Candidates(files, Keywords(query));
    var sorted := SortBy(candidates, ByScore);
    SortBySpec(candidates, ByScore);
    CandidatesPositive(files, Keywords(query));
    var top := SliceTo(sorted, maxResults);
    forall h | h in top ensures h.score > 0 {
      assert h in multiset(sorted);
      assert h in candidates;
    }
  }

  lemma {:induction false} CandidatesPositive(files: seq<(string, string)>, keywords: seq<string>)
    ensures forall h :: h in Candidates(files, keywords) ==> h.score > 0
    decreases |files|
  {
    if files != [] {
      CandidatesPositive(files[..|files| - 1], keywords);
    }
  }

  // ---------------------------------------------------------------------
  // `read_document`
  // ---------------------------------------------------------------------

  const TextExtensions: set<string> := {".md", ".txt", ".rst", ".csv", ".json", ".yaml", ".yml"}

  /** `Path(p).suffix`: from the last '.' of the name, when that dot is
      neither the name's first nor its last character. */
  function Suffix(path: string): (r: string)
    ensures r == [] || r[0] == '.'
  {
    var name := Basename(path);
    match LastIndexOfChar(name, '.')
    case None => []
    case Some(i) => if 0 < i < |name| - 1 then name[i..] else []
  }

  /** The number of '\n' characters. */
  function Newlines(s: string): nat
    decreases |s|
  {
    if s == [] then 0 else Newlines(s[..|s| - 1]) + (if s[|s| - 1] == '\n' then 1 else 0)
  }

  /** `len(s.split())`: the number of maximal runs of non-whitespace. */
  function WordCount(s: string): nat
    decreases |s|
  {
    if s == [] then 0
    else WordCount(s[..|s| - 1]) + (if !IsSpace(s[|s| - 1]) && (|s| == 1 || IsSpace(s[|s| - 2])) then 1 else 0)
  }

  datatype Document =
    | Doc(filePath: string, fileName: string, fileType: string, sizeBytes: nat, lineCount: nat, wordCount: nat, content: string)
    | DocFailed(error: string)

  /** What the file system and the extractors give for one path: whether it
      exists, its size, the PDF and DOCX extractors' text (None when they
      fail) and the text read from it ('' when unreadable). */
  datatype DocSource = DocSource(exists_: bool, sizeBytes: nat, pdfText: Option<string>, docxText: Option<string>, text: string)

  /** The reader the lower-cased suffix picks, and what it yields: the
      file type and the text, or the failure message. */
  function Extract(path: string, suffix: string, src: DocSource): (r: Result<(string, string)>)
    ensures suffix == ".pdf" ==> (r.Ok? <==> src.pdfText.Some?) && (r.Ok? ==> r.value == ("pdf", src.pdfText.value))
    ensures suffix == ".docx" ==> (r.Ok? <==> src.docxText.Some?) && (r.Ok? ==> r.value == ("docx", src.docxText.value))
  {
    if suffix == ".pdf" then
      (if src.pdfText.None? then Err("Cannot read PDF: " + path + ". Install PyMuPDF (pip install pymupdf), pdfplumber, or PyPDF2.")
       else Ok(("pdf", src.pdfText.value)))
    else if suffix == ".docx" then
      (if src.docxText.None? then Err("Cannot read DOCX: " + path + ". Install python-docx (pip install python-docx).")
       else Ok(("docx", src.docxText.value)))
    else if suffix in TextExtensions then Ok((suffix[1..], src.text))
    else Err("Unsupported file type: " + suffix + ". Supported: .pdf, .docx, .csv, .json, .md, .rst, .txt, .yaml, .yml")
  }

  /** A text format is read directly, its suffix without the dot naming
      the file type. */
  lemma ExtractText(path: string, suffix: string, src: DocSource)
    requires suffix in TextExtensions
    ensures Extract(path, suffix, src) == Ok((suffix[1..], src.text)) && "." + suffix[1..] == suffix
  {
  }

  /** Any other suffix fails. */
  lemma ExtractUnknown(path: string, suffix: string, src: DocSource)
    requires suffix !in TextExtensions && suffix != ".pdf" && suffix != ".docx"
    ensures Extract(path, suffix, src).Err?
  {
  }

  /** `read_document`: a missing file, a failed or unknown reader and an
      empty text fail; otherwise the text with its line and word counts. */
  function ReadDocument(path: string, src: DocSource): (d: Document)
    ensures d.Doc? <==> src.exists_ && Extract(path, Lower(Suffix(path)), src).Ok? && Extract(path, Lower(Suffix(path)), src).value.1 != []
    ensures d.Doc? ==> (d.fileType, d.content) == Extract(path, Lower(Suffix(path)), src).value
    ensures d.Doc? ==> d.lineCount == Newlines(d.content) + 1 && d.wordCount == WordCount(d.content)
  {
    if !src.exists_ then DocFailed("File not found: " + path)
    else
      match Extract(path, Lower(Suffix(path)), src)
      case Err(e) => DocFailed(e)
      case Ok((fileType, text)) =>
        if text == [] then DocFailed("No text content extracted from: " + path)
        else Doc(path, Basename(path), fileType, src.sizeBytes, Newlines(text) + 1, WordCount(text), text)
  }

  /** Counting lines: one more than the line breaks. */
  lemma NewlinesAppend(a: string, b: string)
    ensures Newlines(a + "\n" + b) == Newlines(a) + 1 + Newlines(b)
    decreases |b|
  {
    if b == [] {
      assert (a + "\n" + b)[..|a| + 1 - 1] == a;
    } else {
      assert (a + "\n" + b)[..|a + "\n" + b| - 1] == a + "\n" + b[..|b| - 1];
      NewlinesAppend(a, b[..|b| - 1]);
    }
  }
}
