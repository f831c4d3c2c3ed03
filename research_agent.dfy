/** The deterministic parts of the research agent: keyword extraction from
    a feature request, the domain overview built from a research report's
    counts, and the checks `run` makes on its input. */
module ResearchAgent {
  import opened Common
  import FeaturePlanningModels

  // -----------------------------------------------------------------------
  // _extract_keywords
  // -----------------------------------------------------------------------

  /** The stop words of `_extract_keywords`. */
  const StopWordList: seq<string> := [
    "a", "an", "the", "is", "are", "was", "were", "be", "been",
    "being", "have", "has", "had", "do", "does", "did", "will",
    "would", "could", "should", "may", "might", "can", "shall",
    "to", "of", "in", "for", "on", "with", "at", "by", "from",
    "as", "into", "through", "during", "before", "after", "above",
    "below", "between", "out", "off", "over", "under", "again",
    "further", "then", "once", "and", "but", "or", "nor", "not",
    "so", "yet", "both", "each", "few", "more", "most", "other",
    "some", "such", "no", "only", "own", "same", "than", "too",
    "very", "just", "because", "if", "when", "where", "how",
    "what", "which", "who", "whom", "this", "that", "these",
    "those", "it", "its", "we", "our", "us", "i", "me", "my",
    "you", "your", "he", "she", "they", "them", "their"]

  /** `w in stop_words` for a list of stop words. */
  predicate InList(w: string, list: seq<string>)
  {
    list != [] && (list[0] == w || InList(w, list[1..]))
  }

  predicate AllAlnum(s: string)
  {
    forall i :: 0 <= i < |s| ==> IsAlnum(s[i])
  }

  /** The run of letters and digits `s` starts with. */
  function LeadingRun(s: string): (r: string)
    ensures |r| <= |s| && r == s[..|r|] && AllAlnum(r)
    ensures |r| < |s| ==> !IsAlnum(s[|r|])
  {
    if s == [] || !IsAlnum(s[0]) then [] else [s[0]] + LeadingRun(s[1..])
  }

  /** The non-empty pieces of `re.split(r'[^a-zA-Z0-9]+', s)`: the
      maximal runs of letters and digits, in order. (The empty pieces
      `re.split` gives at either end are dropped by the length filter.) */
  function Words(s: string): (r: seq<string>)
    ensures forall k :: 0 <= k < |r| ==> r[k] != [] && AllAlnum(r[k])
    decreases |s|
  {
    if s == [] then []
    else
      var w := LeadingRun(s);
      if w == [] then Words(s[1..]) else [w] + Words(s[|w|..])
  }

  /** `[t for t in tokens if len(t) >= 2 and t not in stop_words]` */
  function Candidates(words: seq<string>, stop: seq<string>): (r: seq<string>)
    ensures forall x :: x in r <==> x in words && |x| >= 2 && !InList(x, stop)
  {
    if words == [] then []
    else
      var init := Candidates(words[..|words| - 1], stop);
      var w := words[|words| - 1];
      assert words == words[..|words| - 1] + [w];
      if |w| >= 2 && !InList(w, stop) then init + [w] else init
  }

  /** What `_extract_keywords` returns for a text, given its stop words;
      the source's are `StopWordList`. */
  function Keywords(text: string, stop: seq<string>): seq<string>
  {
    Distinct(Candidates(Words(Lower(text)), stop))
  }

  /** `_extract_keywords`: the candidate tokens, deduplicated with a
      `seen` set in first-occurrence order. */
  method ExtractKeywords(text: string) returns (unique: seq<string>)
    ensures unique == Keywords(text, StopWordList)
  {
    var keywords := Candidates(Words(Lower(text)), StopWordList);
    unique := Dedup(keywords);
  }

  /** The loop of `_extract_keywords`: keep each keyword the `seen` set
      does not hold yet. */
  method Dedup(keywords: seq<string>) returns (unique: seq<string>)
    ensures unique == Distinct(keywords)
  {
    var seen: set<string> := {};
    unique := [];
    for i := 0 to |keywords|
      invariant unique == Distinct(keywords[..i])
      invariant seen == set x | x in unique
    {
      assert keywords[..i + 1][..i] == keywords[..i];
      if keywords[i] !in seen {
        seen := seen + {keywords[i]};
        unique := unique + [keywords[i]];
      }
    }
    assert keywords[..|keywords|] == keywords;
  }

  predicate IsLowerWord(s: string)
  {
    forall i :: 0 <= i < |s| ==> IsAlnum(s[i]) && !IsUpper(s[i])
  }

  /** Every keyword is a lowercase alphanumeric token of the lowercased
      text, at least two characters long and not a stop word; none
      repeats. */
  lemma KeywordsSpec(text: string, stop: seq<string>)
    ensures NoDup(Keywords(text, stop))
    ensures forall k :: k in Keywords(text, stop) ==>
      k in Words(Lower(text)) && |k| >= 2 && !InList(k, stop) && IsLowerWord(k)
    ensures forall w :: w in Words(Lower(text)) && |w| >= 2 && !InList(w, stop) ==> w in Keywords(text, stop)
  {
    var cs := Candidates(Words(Lower(text)), stop);
    DistinctSpec(cs);
    forall k | k in Keywords(text, stop) ensures IsLowerWord(k) {
      WordsOfLower(Lower(text), k);
    }
  }

  /** The words of a lowercased text have no upper-case letter. */
  lemma {:induction false} WordsOfLower(s: string, w: string)
    requires forall i :: 0 <= i < |s| ==> !IsUpper(s[i])
    requires w in Words(s)
    ensures IsLowerWord(w)
    decreases |s|
  {
    var lead := LeadingRun(s);
    if lead == [] {
      WordsOfLower(s[1..], w);
    } else if w != lead {
      WordsOfLower(s[|lead|..], w);
    }
  }

  /** A keyword is kept at its first occurrence: the order of first
      appearance in the candidates. */
  lemma KeywordsFirstOccurrence(text: string, stop: seq<string>)
    ensures Keywords(text, stop) == Distinct(Candidates(Words(Lower(text)), stop))
    ensures forall i, j :: 0 <= i < j < |Keywords(text, stop)| ==>
      FirstPos(Candidates(Words(Lower(text)), stop), Keywords(text, stop)[i])
      < FirstPos(Candidates(Words(Lower(text)), stop), Keywords(text, stop)[j])
  {
    DistinctOrder(Candidates(Words(Lower(text)), stop));
  }

  /** Position of the first occurrence of `x` (|s| when absent). */
  function FirstPos(s: seq<string>, x: string): (p: nat)
    ensures p <= |s|
    ensures p < |s| ==> s[p] == x
    ensures forall j :: 0 <= j < p ==> s[j] != x
  {
    if s == [] then 0 else if s[0] == x then 0 else 1 + FirstPos(s[1..], x)
  }

  /** The first occurrence is where `x` stands with no `x` before it. */
  lemma {:induction false} FirstPosAt(s: seq<string>, x: string, p: nat)
    requires p < |s| && s[p] == x && forall j :: 0 <= j < p ==> s[j] != x
    ensures FirstPos(s, x) == p
  {
    if p > 0 {
      forall j | 0 <= j < p - 1 ensures s[1..][j] != x {
        assert s[1..][j] == s[j + 1];
      }
      FirstPosAt(s[1..], x, p - 1);
    }
  }

  lemma FirstPosPrefix(s: seq<string>, x: string, n: nat)
    requires n <= |s| && x in s[..n]
    ensures FirstPos(s[..n], x) == FirstPos(s, x)
  {
    var p := FirstPos(s[..n], x);
    assert s[..n][p] == s[p];
    forall j | 0 <= j < p ensures s[j] != x {
      assert s[..n][j] == s[j];
    }
    FirstPosAt(s, x, p);
  }

  /** The distinct list is ordered by first occurrence. */
  lemma {:induction false} DistinctOrder(s: seq<string>)
    ensures forall i, j :: 0 <= i < j < |Distinct(s)| ==> FirstPos(s, Distinct(s)[i]) < FirstPos(s, Distinct(s)[j])
  {
    if s != [] {
      var init := s[..|s| - 1];
      var x := s[|s| - 1];
      var d := Distinct(init);
      DistinctOrder(init);
      DistinctSpec(init);
      forall i, j | 0 <= i < j < |Distinct(s)|
        ensures FirstPos(s, Distinct(s)[i]) < FirstPos(s, Distinct(s)[j])
      {
        assert s[..|s| - 1] == init;
        FirstPosPrefix(s, Distinct(s)[i], |s| - 1);
        if j < |d| {
          FirstPosPrefix(s, Distinct(s)[j], |s| - 1);
        } else {
          assert x !in init;
          assert FirstPos(s, x) == |s| - 1;
        }
      }
    }
  }

  /** `_extract_keywords` is idempotent: the keywords of the space-joined
      keywords are the keywords themselves. */
  lemma KeywordsIdempotent(text: string, stop: seq<string>)
    ensures Keywords(Join(Keywords(text, stop), " "), stop) == Keywords(text, stop)
  {
    var ks := Keywords(text, stop);
    KeywordsSpec(text, stop);
    var joined := Join(ks, " ");
    forall k | k in ks ensures k != [] && IsLowerWord(k) {}
    JoinedLower(ks);
    LowerOfLower(joined);
    WordsOfJoin(ks);
    CandidatesKeepAll(ks, stop);
    DistinctOfNoDup(ks);
  }

  /** The space-joined words have only lowercase letters, digits and
      spaces. */
  lemma {:induction false} JoinedLower(ks: seq<string>)
    requires forall k :: k in ks ==> IsLowerWord(k)
    ensures forall i :: 0 <= i < |Join(ks, " ")| ==> !IsUpper(Join(ks, " ")[i])
  {
    if |ks| == 1 {
      assert ks[0] in ks;
    } else if |ks| > 1 {
      assert ks[0] in ks;
      assert forall k :: k in ks[1..] ==> k in ks;
      JoinedLower(ks[1..]);
      var rest := Join(ks[1..], " ");
      assert Join(ks, " ") == ks[0] + " " + rest;
      forall i | 0 <= i < |Join(ks, " ")| ensures !IsUpper(Join(ks, " ")[i]) {
        if i < |ks[0]| {
          assert Join(ks, " ")[i] == ks[0][i];
        } else if i > |ks[0]| {
          assert Join(ks, " ")[i] == rest[i - |ks[0]| - 1];
        }
      }
    }
  }

  lemma LowerOfLower(s: string)
    requires forall i :: 0 <= i < |s| ==> !IsUpper(s[i])
    ensures Lower(s) == s
  {
  }

  lemma {:induction false} LeadingRunOfWord(w: string, rest: string)
    requires AllAlnum(w) && (rest == [] || !IsAlnum(rest[0]))
    ensures LeadingRun(w + rest) == w
  {
    if w != [] {
      assert (w + rest)[1..] == w[1..] + rest;
      LeadingRunOfWord(w[1..], rest);
    } else {
      assert w + rest == rest;
    }
  }

  /** Splitting the space-joined words gives the words back. */
  lemma {:induction false} WordsOfJoin(ks: seq<string>)
    requires forall k :: k in ks ==> k != [] && IsLowerWord(k)
    ensures Words(Join(ks, " ")) == ks
  {
    if ks == [] {
    } else if |ks| == 1 {
      assert ks[0] in ks;
      LeadingRunOfWord(ks[0], []);
      assert ks[0] + [] == ks[0];
      assert ks[0][|ks[0]|..] == [];
    } else {
      var rest := Join(ks[1..], " ");
      var s := ks[0] + " " + rest;
      assert Join(ks, " ") == s;
      assert ks[0] in ks;
      LeadingRunOfWord(ks[0], " " + rest);
      assert ks[0] + (" " + rest) == s;
      assert s[|ks[0]|..] == " " + rest;
      assert (" " + rest)[1..] == rest;
      assert forall k :: k in ks[1..] ==> k in ks;
      WordsOfJoin(ks[1..]);
      assert ks == [ks[0]] + ks[1..];
    }
  }

  /** Words that already pass the filter all survive it. */
  lemma {:induction false} CandidatesKeepAll(ks: seq<string>, stop: seq<string>)
    requires forall k :: k in ks ==> |k| >= 2 && !InList(k, stop)
    ensures Candidates(ks, stop) == ks
  {
    if ks != [] {
      CandidatesKeepAll(ks[..|ks| - 1], stop);
      assert ks == ks[..|ks| - 1] + [ks[|ks| - 1]];
    }
  }

  // -----------------------------------------------------------------------
  // _build_domain_overview
  // -----------------------------------------------------------------------

  datatype OverviewCounts = OverviewCounts(total: nat, specs: nat, impls: nat, internal: nat, high: nat, questions: nat)

  function HighCount(fs: seq<FeaturePlanningModels.Finding>): (n: nat)
    ensures n <= |fs|
  {
    if fs == [] then 0
    else HighCount(fs[..|fs| - 1]) + (if fs[|fs| - 1].confidence == "high" then 1 else 0)
  }

  /** The counts the overview reports: the total is the three finding
      blocks together, and the high-confidence ones are among them. */
  function OverviewOf(report: FeaturePlanningModels.ResearchReport): (r: OverviewCounts)
    reads report
    ensures r.total == r.specs + r.impls + r.internal
    ensures r.high <= r.total
    ensures r.specs == |report.standardsAndSpecs| && r.impls == |report.existingImplementations|
      && r.internal == |report.internalKnowledge| && r.questions == |report.openQuestions|
  {
    var all := report.AllFindings();
    OverviewCounts(|all|, |report.standardsAndSpecs|, |report.existingImplementations|,
      |report.internalKnowledge|, HighCount(all), |report.openQuestions|)
  }

  /** The overview text of `_build_domain_overview`. */
  function DomainOverview(featureRequest: string, c: OverviewCounts): string
  {
    "Research for: " + featureRequest + "\n\nFound " + (NatToString(c.total)
      + (" relevant findings across all sources:\n- " + (NatToString(c.specs)
      + (" standards/specifications\n- " + (NatToString(c.impls)
      + (" existing implementations/references\n- " + (NatToString(c.internal)
      + (" internal knowledge items\n- " + (NatToString(c.high)
      + (" high-confidence findings\n- " + (NatToString(c.questions) + " open questions\n")))))))))))
  }

  /** For one feature request the overview reports the counts faithfully:
      equal overviews come from equal counts. */
  lemma DomainOverviewInjective(featureRequest: string, c: OverviewCounts, d: OverviewCounts)
    requires DomainOverview(featureRequest, c) == DomainOverview(featureRequest, d)
    ensures c == d
  {
    var head := "Research for: " + featureRequest + "\n\nFound ";
    var s5, s4 := " high-confidence findings\n- ", " internal knowledge items\n- ";
    var s3, s2 := " existing implementations/references\n- ", " standards/specifications\n- ";
    var s1 := " relevant findings across all sources:\n- ";
    var c5, d5 := NatToString(c.questions) + " open questions\n", NatToString(d.questions) + " open questions\n";
    var c4, d4 := NatToString(c.high) + (s5 + c5), NatToString(d.high) + (s5 + d5);
    var c3, d3 := NatToString(c.internal) + (s4 + c4), NatToString(d.internal) + (s4 + d4);
    var c2, d2 := NatToString(c.impls) + (s3 + c3), NatToString(d.impls) + (s3 + d3);
    var c1, d1 := NatToString(c.specs) + (s2 + c2), NatToString(d.specs) + (s2 + d2);
    var tc := DomainOverview(featureRequest, c)[|head|..];
    var td := DomainOverview(featureRequest, d)[|head|..];
    assert tc == NatToString(c.total) + (s1 + c1);
    assert td == NatToString(d.total) + (s1 + d1);
    NumberThenCancel(c.total, d.total, s1, c1, d1);
    NumberThenCancel(c.specs, d.specs, s2, c2, d2);
    NumberThenCancel(c.impls, d.impls, s3, c3, d3);
    NumberThenCancel(c.internal, d.internal, s4, c4, d4);
    NumberThenCancel(c.high, d.high, s5, c5, d5);
    DecimalPrefixCancel(c.questions, d.questions, " open questions\n", " open questions\n");
  }

  // -----------------------------------------------------------------------
  // run: input handling
  // -----------------------------------------------------------------------

  /** The request `run` goes on with: a string input is the feature
      request itself; a dict must carry a truthy `feature_request`;
      anything else is refused with the source's messages. */
  function RunRequest(input: Json): (r: Result<Json>)
    ensures r.Ok? ==> Truthy(r.value)
    ensures input.JStr? ==> (r.Ok? <==> input.s != []) && (r.Ok? ==> r.value == input)
    ensures !input.JStr? && !input.JObj? ==> r == Err("Invalid input: expected dict with feature_request")
    ensures input.JObj? ==> (r.Ok? <==> Truthy(Get(input.fields, "feature_request", JStr(""))))
  {
    var fields :=
      if input.JStr? then map["feature_request" := input] else if input.JObj? then input.fields else map[];
    if !input.JStr? && !input.JObj? then Err("Invalid input: expected dict with feature_request")
    else
      var request := Get(fields, "feature_request", JStr(""));
      if !Truthy(request) then Err("No feature_request provided") else Ok(request)
  }
}
