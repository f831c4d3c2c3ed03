/** The query, validation and batching helpers of the Jira command-line
    utility: case-insensitive normalisation of issue types and statuses
    (with `^` exclusions), the status clause of a JQL query, name patterns
    with exclusions, the date filter, the paged ticket fetch, the bulk
    update loop, and the checks `add_gadget` makes before posting. The
    Jira server is a parameter: its lists of names, its pages and the
    outcome of each update. */
module JiraUtils {
  import opened Common

  // -----------------------------------------------------------------------
  // Case-insensitive lookup
  // -----------------------------------------------------------------------

  /** `{n.lower(): n for n in names}`: a later name with the same lowercase
      form replaces an earlier one. */
  function CaseMap(names: seq<string>): map<string, string>
  {
    if names == [] then map[]
    else CaseMap(names[..|names| - 1])[Lower(names[|names| - 1]) := names[|names| - 1]]
  }

  /** The lookup knows a lowercase form iff some name has it, and maps it
      to one of those names. */
  lemma {:induction false} CaseMapSpec(names: seq<string>, k: string)
    ensures k in CaseMap(names) <==> exists n :: n in names && Lower(n) == k
    ensures k in CaseMap(names) ==> CaseMap(names)[k] in names && Lower(CaseMap(names)[k]) == k
  {
    if names != [] {
      var last := |names| - 1;
      var init := names[..last];
      CaseMapSpec(init, k);
      assert names == init + [names[last]];
      if Lower(names[last]) == k {
        assert names[last] in names;
      } else if exists n :: n in names && Lower(n) == k {
        var n :| n in names && Lower(n) == k;
        assert n in init;
      }
    }
  }

  /** The error `normalize_issue_types` raises for an unknown name, with
      the known names listed after it. */
  function TypeNotFound(name: string, available: string): string
  {
    "Issue type \"" + name + "\" not found. Available: " + available
  }

  function StatusNotFound(name: string, available: string): string
  {
    "Status \"" + name + "\" not found. Available: " + available
  }

  /** `', '.join(sorted(lookup.values()))`: the server's names, ascending. */
  ghost function Available(m: map<string, string>): string
  {
    Join(SortedOf(m.Values), ", ")
  }

  // -----------------------------------------------------------------------
  // normalize_issue_types
  // -----------------------------------------------------------------------

  /** The canonical names of `names` in order, failing at the first name
      the lookup does not know. */
  ghost function CanonicalTypes(names: seq<string>, m: map<string, string>): Result<seq<string>>
  {
    if names == [] then Ok([])
    else match CanonicalTypes(names[..|names| - 1], m)
      case Err(e) => Err(e)
      case Ok(prev) =>
        var n := names[|names| - 1];
        if Lower(n) in m then Ok(prev + [m[Lower(n)]]) else Err(TypeNotFound(n, Available(m)))
  }

  /** Success means every name is known; the result then has one canonical
      name per input, in input order, equal to it up to case. */
  lemma {:induction false} CanonicalTypesOk(names: seq<string>, m: map<string, string>)
    requires forall k :: k in m ==> Lower(m[k]) == k
    ensures CanonicalTypes(names, m).Ok? <==> forall i :: 0 <= i < |names| ==> Lower(names[i]) in m
    ensures CanonicalTypes(names, m).Ok? ==> |CanonicalTypes(names, m).value| == |names|
    ensures CanonicalTypes(names, m).Ok? ==>
      forall i :: 0 <= i < |names| ==>
        (CanonicalTypes(names, m).value[i] == m[Lower(names[i])] && Lower(CanonicalTypes(names, m).value[i]) == Lower(names[i]))
  {
    if names != [] {
      var k := |names| - 1;
      var init := names[..k];
      var n := names[k];
      CanonicalTypesOk(init, m);
      var prevR := CanonicalTypes(init, m);
      if prevR.Ok? && Lower(n) in m {
        var r := prevR.value + [m[Lower(n)]];
        assert CanonicalTypes(names, m) == Ok(r);
        forall i | 0 <= i < |names|
          ensures Lower(names[i]) in m && r[i] == m[Lower(names[i])] && Lower(r[i]) == Lower(names[i])
        {
          if i < k {
            assert names[i] == init[i] && r[i] == prevR.value[i];
          } else {
            assert names[i] == n && r[i] == m[Lower(n)];
          }
        }
      } else if prevR.Err? {
        var j :| 0 <= j < k && Lower(init[j]) !in m;
        assert names[j] == init[j];
      }
    }
  }

  /** A failure names the first unknown name. */
  lemma {:induction false} CanonicalTypesErr(names: seq<string>, m: map<string, string>, j: nat)
    requires j < |names| && Lower(names[j]) !in m
    requires forall i :: 0 <= i < j ==> Lower(names[i]) in m
    ensures CanonicalTypes(names, m) == Err(TypeNotFound(names[j], Available(m)))
  {
    var k := |names| - 1;
    if j < k {
      assert names[..k][j] == names[j];
      CanonicalTypesErr(names[..k], m, j);
    } else {
      forall i | 0 <= i < |names[..k]| ensures Lower(names[..k][i]) in m {
        assert names[..k][i] == names[i];
      }
      CanonicalTypesAllKnown(names[..k], m);
    }
  }

  lemma {:induction false} CanonicalTypesAllKnown(names: seq<string>, m: map<string, string>)
    requires forall i :: 0 <= i < |names| ==> Lower(names[i]) in m
    ensures CanonicalTypes(names, m).Ok?
  {
    if names != [] {
      var k := |names| - 1;
      assert forall i :: 0 <= i < k ==> names[..k][i] == names[i];
      CanonicalTypesAllKnown(names[..k], m);
    }
  }

  /** A failure at a prefix is the failure of the whole list. */
  lemma {:induction false} CanonicalTypesErrExtends(names: seq<string>, m: map<string, string>, k: nat)
    requires k <= |names| && CanonicalTypes(names[..k], m).Err?
    ensures CanonicalTypes(names, m) == CanonicalTypes(names[..k], m)
    decreases |names| - k
  {
    if k < |names| {
      assert names[..k + 1][..k] == names[..k];
      CanonicalTypesErrExtends(names, m, k + 1);
    } else {
      assert names[..k] == names;
    }
  }

  /** `normalize_issue_types`: None for no names; otherwise the canonical
      names of the project's issue types `known`, in input order. */
  method NormalizeIssueTypes(names: seq<string>, known: seq<string>) returns (r: Result<Option<seq<string>>>)
    ensures names == [] ==> r == Ok(None)
    ensures names != [] ==> (r.Err? <==> CanonicalTypes(names, CaseMap(known)).Err?)
    ensures names != [] && r.Err? ==> r.msg == CanonicalTypes(names, CaseMap(known)).msg
    ensures names != [] && r.Ok? ==> r.value == Some(CanonicalTypes(names, CaseMap(known)).value)
  {
    if names == [] {
      return Ok(None);
    }
    var lookup := CaseMap(known);
    var normalized: seq<string> := [];
    for i := 0 to |names|
      invariant CanonicalTypes(names[..i], lookup) == Ok(normalized)
    {
      assert names[..i + 1][..i] == names[..i];
      var lowered := Lower(names[i]);
      if lowered in lookup {
        normalized := normalized + [lookup[lowered]];
      } else {
        CanonicalTypesErrExtends(names, lookup, i + 1);
        var available := SortNames(lookup.Values);
        return Err(TypeNotFound(names[i], Join(available, ", ")));
      }
    }
    assert names[..|names|] == names;
    r := Ok(Some(normalized));
  }

  // -----------------------------------------------------------------------
  // normalize_statuses
  // -----------------------------------------------------------------------

  /** A status argument: `^Name` excludes Name. */
  predicate IsExclusion(name: string) { StartsWith(name, "^") }

  function Unmarked(name: string): string { if IsExclusion(name) then name[1..] else name }

  /** The normalised statuses: a plain list when nothing is excluded, an
      include/exclude pair otherwise. */
  datatype Statuses = Plain(statuses: seq<string>) | Partitioned(included: seq<string>, excluded: seq<string>)

  /** The canonical includes and excludes of `names`, in order, failing at
      the first unknown name. */
  ghost function SortStatuses(names: seq<string>, m: map<string, string>): Result<(seq<string>, seq<string>)>
  {
    if names == [] then Ok(([], []))
    else match SortStatuses(names[..|names| - 1], m)
      case Err(e) => Err(e)
      case Ok(prev) =>
        var n := names[|names| - 1];
        var actual := Unmarked(n);
        if Lower(actual) !in m then Err(StatusNotFound(actual, Available(m)))
        else if IsExclusion(n) then Ok((prev.0, prev.1 + [m[Lower(actual)]]))
        else Ok((prev.0 + [m[Lower(actual)]], prev.1))
  }

  /** The arguments without a `^`, and those with it, mark removed. */
  function Included(names: seq<string>): seq<string>
  {
    if names == [] then []
    else Included(names[..|names| - 1]) + (if IsExclusion(names[|names| - 1]) then [] else [names[|names| - 1]])
  }

  function Excluded(names: seq<string>): seq<string>
  {
    if names == [] then []
    else Excluded(names[..|names| - 1]) + (if IsExclusion(names[|names| - 1]) then [names[|names| - 1][1..]] else [])
  }

  /** Same length and equal up to case, position by position. */
  predicate SameUpToCase(a: seq<string>, b: seq<string>)
  {
    |a| == |b| && forall i :: 0 <= i < |a| ==> Lower(a[i]) == Lower(b[i])
  }

  /** On success the includes are the canonical forms of the unmarked
      arguments and the excludes those of the marked ones, each in
      argument order. */
  lemma {:induction false} SortStatusesOk(names: seq<string>, m: map<string, string>)
    requires forall k :: k in m ==> Lower(m[k]) == k
    requires SortStatuses(names, m).Ok?
    ensures SameUpToCase(SortStatuses(names, m).value.0, Included(names))
    ensures SameUpToCase(SortStatuses(names, m).value.1, Excluded(names))
  {
    if names != [] {
      var k := |names| - 1;
      var init := names[..k];
      var n := names[k];
      assert SortStatuses(init, m).Ok?;
      var prev := SortStatuses(init, m).value;
      SortStatusesOk(init, m);
      var actual := Unmarked(n);
      var c := m[Lower(actual)];
      if IsExclusion(n) {
        assert SortStatuses(names, m).value == (prev.0, prev.1 + [c]);
        assert Excluded(names) == Excluded(init) + [actual] && Included(names) == Included(init);
        SameUpToCaseSnoc(prev.1, Excluded(init), c, actual);
      } else {
        assert SortStatuses(names, m).value == (prev.0 + [c], prev.1);
        assert Included(names) == Included(init) + [actual] && Excluded(names) == Excluded(init);
        SameUpToCaseSnoc(prev.0, Included(init), c, actual);
      }
    }
  }

  lemma SameUpToCaseSnoc(a: seq<string>, b: seq<string>, x: string, y: string)
    requires SameUpToCase(a, b) && Lower(x) == Lower(y)
    ensures SameUpToCase(a + [x], b + [y])
  {
  }

  /** A failure at a prefix is the failure of the whole list. */
  lemma {:induction false} SortStatusesErrExtends(names: seq<string>, m: map<string, string>, k: nat)
    requires k <= |names| && SortStatuses(names[..k], m).Err?
    ensures SortStatuses(names, m) == SortStatuses(names[..k], m)
    decreases |names| - k
  {
    if k < |names| {
      assert names[..k + 1][..k] == names[..k];
      SortStatusesErrExtends(names, m, k + 1);
    } else {
      assert names[..k] == names;
    }
  }

  /** `normalize_statuses` over the server's status names `known`. */
  method NormalizeStatuses(names: seq<string>, known: seq<string>) returns (r: Result<Option<Statuses>>)
    ensures names == [] ==> r == Ok(None)
    ensures names != [] ==> (r.Err? <==> SortStatuses(names, CaseMap(known)).Err?)
    ensures names != [] && r.Err? ==> r.msg == SortStatuses(names, CaseMap(known)).msg
    ensures names != [] && r.Ok? ==>
      var s := SortStatuses(names, CaseMap(known)).value;
      r.value == Some(if s.1 == [] then Plain(s.0) else Partitioned(s.0, s.1))
  {
    if names == [] {
      return Ok(None);
    }
    var lookup := CaseMap(known);
    var includes: seq<string> := [];
    var excludes: seq<string> := [];
    for i := 0 to |names|
      invariant SortStatuses(names[..i], lookup) == Ok((includes, excludes))
    {
      assert names[..i + 1][..i] == names[..i];
      var name := names[i];
      var isExclude := StartsWith(name, "^");
      var actual := if isExclude then name[1..] else name;
      var lowered := Lower(actual);
      if lowered in lookup {
        if isExclude {
          excludes := excludes + [lookup[lowered]];
        } else {
          includes := includes + [lookup[lowered]];
        }
      } else {
        SortStatusesErrExtends(names, lookup, i + 1);
        var available := SortNames(lookup.Values);
        return Err(StatusNotFound(actual, Join(available, ", ")));
      }
    }
    assert names[..|names|] == names;
    if excludes != [] {
      r := Ok(Some(Partitioned(includes, excludes)));
    } else {
      r := Ok(Some(Plain(includes)));
    }
  }

  /** Every canonical name the lookup gives is the server's own spelling. */
  lemma CaseMapCanonical(known: seq<string>)
    ensures forall k :: k in CaseMap(known) ==> Lower(CaseMap(known)[k]) == k && CaseMap(known)[k] in known
  {
    forall k | k in CaseMap(known) ensures Lower(CaseMap(known)[k]) == k && CaseMap(known)[k] in known {
      CaseMapSpec(known, k);
    }
  }

  // -----------------------------------------------------------------------
  // _build_status_jql
  // -----------------------------------------------------------------------

  function Quoted(names: seq<string>): seq<string>
  {
    if names == [] then [] else ["\"" + names[0] + "\""] + Quoted(names[1..])
  }

  function InClause(names: seq<string>): string { "status IN (" + Join(Quoted(names), ", ") + ")" }

  function NotInClause(names: seq<string>): string { "status NOT IN (" + Join(Quoted(names), ", ") + ")" }

  /** `_build_status_jql`: nothing for no statuses; an IN clause for the
      includes and a NOT IN clause for the excludes, joined by AND. */
  function StatusJql(s: Option<Statuses>): string
  {
    match s
    case None => ""
    case Some(Plain(l)) => if l == [] then "" else InClause(l)
    case Some(Partitioned(inc, exc)) =>
      Join((if inc != [] then [InClause(inc)] else []) + (if exc != [] then [NotInClause(exc)] else []), " AND ")
  }

  /** The clause is empty exactly when no status is named. */
  lemma StatusJqlEmpty(s: Option<Statuses>)
    ensures StatusJql(s) == "" <==>
      s.None? || (s.value.Plain? && s.value.statuses == []) || (s.value.Partitioned? && s.value.included == [] && s.value.excluded == [])
  {
    if s.Some? && s.value.Partitioned? {
      var inc := s.value.included;
      var exc := s.value.excluded;
      if inc != [] && exc != [] {
        assert StatusJql(s) == InClause(inc) + " AND " + Join([NotInClause(exc)], " AND ");
      }
    }
  }

  /** A plain list and an include list with no excludes give the same
      clause, and the excludes add a NOT IN clause after the includes. */
  lemma StatusJqlFormats(inc: seq<string>, exc: seq<string>)
    ensures StatusJql(Some(Plain(inc))) == StatusJql(Some(Partitioned(inc, [])))
    ensures inc != [] && exc != [] ==> StatusJql(Some(Partitioned(inc, exc))) == InClause(inc) + " AND " + NotInClause(exc)
    ensures inc == [] ==> StatusJql(Some(Partitioned(inc, exc))) == (if exc == [] then "" else NotInClause(exc))
  {
    if inc != [] {
      assert [InClause(inc)] + [] == [InClause(inc)];
      if exc != [] {
        var both := [InClause(inc)] + [NotInClause(exc)];
        assert StatusJql(Some(Partitioned(inc, exc))) == Join(both, " AND ");
        assert |both| == 2 && both[0] == InClause(inc) && both[1..] == [NotInClause(exc)];
        assert Join(both[1..], " AND ") == NotInClause(exc);
        assert Join(both, " AND ") == InClause(inc) + " AND " + NotInClause(exc);
      }
    } else if exc != [] {
      var none: seq<string> := [];
      assert none + [NotInClause(exc)] == [NotInClause(exc)];
    }
  }

  // -----------------------------------------------------------------------
  // match_pattern_with_exclusions
  // -----------------------------------------------------------------------

  /** `fnmatch.fnmatch` on a POSIX system for patterns built from `*`, `?`
      and literal characters. */
  predicate Glob(name: string, pat: string)
    decreases |name| + |pat|
  {
    if pat == [] then name == []
    else if pat[0] == '*' then Glob(name, pat[1..]) || (name != [] && Glob(name[1..], pat))
    else name != [] && (pat[0] == '?' || pat[0] == name[0]) && Glob(name[1..], pat[1..])
  }

  /** `*` matches every name. */
  lemma {:induction false} GlobStar(name: string)
    ensures Glob(name, "*")
    decreases |name|
  {
    assert "*"[1..] == [];
    if name != [] {
      GlobStar(name[1..]);
    }
  }

  /** A pattern without wildcards matches only itself. */
  lemma {:induction false} GlobLiteral(name: string, pat: string)
    requires forall i :: 0 <= i < |pat| ==> pat[i] != '*' && pat[i] != '?'
    ensures Glob(name, pat) <==> name == pat
    decreases |pat|
  {
    if pat != [] && name != [] {
      GlobLiteral(name[1..], pat[1..]);
      if name == pat {
        assert name[1..] == pat[1..];
      }
      if name[0] == pat[0] && name[1..] == pat[1..] {
        assert name == [name[0]] + name[1..];
        assert pat == [pat[0]] + pat[1..];
      }
    }
  }

  /** The comma-separated parts of a pattern, stripped. */
  function Parts(pattern: string): seq<string>
  {
    StripAll(Split(pattern, ','))
  }

  function StripAll(ps: seq<string>): (r: seq<string>)
    ensures |r| == |ps| && forall i :: 0 <= i < |ps| ==> r[i] == Strip(ps[i])
  {
    if ps == [] then [] else [Strip(ps[0])] + StripAll(ps[1..])
  }

  function Includes(parts: seq<string>): seq<string>
  {
    if parts == [] then []
    else (if IsExclusion(parts[0]) then [] else [parts[0]]) + Includes(parts[1..])
  }

  function Excludes(parts: seq<string>): seq<string>
  {
    if parts == [] then []
    else (if IsExclusion(parts[0]) then [parts[0][1..]] else []) + Excludes(parts[1..])
  }

  /** `any(fnmatch(name, p) for p in pats)` */
  predicate AnyGlob(name: string, pats: seq<string>)
  {
    pats != [] && (Glob(name, pats[0]) || AnyGlob(name, pats[1..]))
  }

  lemma {:induction false} AnyGlobSpec(name: string, pats: seq<string>)
    ensures AnyGlob(name, pats) <==> exists i :: 0 <= i < |pats| && Glob(name, pats[i])
  {
    if pats != [] {
      AnyGlobSpec(name, pats[1..]);
      if exists i :: 0 <= i < |pats[1..]| && Glob(name, pats[1..][i]) {
        var i :| 0 <= i < |pats[1..]| && Glob(name, pats[1..][i]);
        assert pats[i + 1] == pats[1..][i];
      }
      if exists i :: 0 <= i < |pats| && Glob(name, pats[i]) {
        var i :| 0 <= i < |pats| && Glob(name, pats[i]);
        if i > 0 {
          assert pats[1..][i - 1] == pats[i];
        }
      }
    }
  }

  /** `match_pattern_with_exclusions`: an empty pattern or `*` matches all;
      otherwise some include (all names when there is none) must match and
      no `^` exclude may. */
  function MatchPattern(name: string, pattern: string): bool
  {
    if pattern == [] || pattern == "*" then true
    else
      var parts := Parts(pattern);
      var includes := if Includes(parts) == [] then ["*"] else Includes(parts);
      AnyGlob(name, includes) && !AnyGlob(name, Excludes(parts))
  }

  /** A pattern of exclusions alone matches exactly the names no exclusion
      matches. */
  lemma OnlyExclusions(name: string, pattern: string)
    requires pattern != [] && pattern != "*" && Includes(Parts(pattern)) == []
    ensures MatchPattern(name, pattern) <==> !AnyGlob(name, Excludes(Parts(pattern)))
  {
    GlobStar(name);
  }

  /** "a,^b" matches the names matching a but not b. */
  lemma IncludeExclude(name: string, a: string, b: string)
    requires a != [] && b != [] && ',' !in a && ',' !in b
    requires !IsSpace(a[0]) && !IsSpace(a[|a| - 1]) && !IsSpace(b[|b| - 1])
    requires a[0] != '^'
    ensures MatchPattern(name, a + ",^" + b) <==> Glob(name, a) && !Glob(name, b)
  {
    var pattern := a + ",^" + b;
    IncludeExcludeParts(a, b);
    PairIncludesExcludes(a, b);
    assert pattern != [] && pattern != "*" by { assert |pattern| > 1; }
    AnyGlobOne(name, a);
    AnyGlobOne(name, b);
    assert MatchPattern(name, pattern) == (AnyGlob(name, [a]) && !AnyGlob(name, [b]));
  }

  lemma AnyGlobOne(name: string, p: string)
    ensures AnyGlob(name, [p]) == Glob(name, p)
  {
    assert [p][1..] == [];
  }

  /** The marks of an include followed by an exclude. */
  lemma PairIncludesExcludes(a: string, b: string)
    requires a != [] && a[0] != '^'
    ensures Includes([a, "^" + b]) == [a] && Excludes([a, "^" + b]) == [b]
  {
    var e := "^" + b;
    assert a[..1] == [a[0]];
    assert "^"[0] == '^';
    assert !IsExclusion(a);
    assert e[..1] == "^";
    assert IsExclusion(e);
    assert e[1..] == b;
    var rest := [e];
    assert rest[1..] == [];
    assert Includes(rest) == [] + Includes(rest[1..]);
    assert Excludes(rest) == [b] + Excludes(rest[1..]);
    var parts := [a, e];
    assert parts[0] == a && parts[1..] == rest;
    assert Includes(parts) == [a] + Includes(rest);
    assert Excludes(parts) == [] + Excludes(rest);
  }

  lemma IncludeExcludeParts(a: string, b: string)
    requires a != [] && b != [] && ',' !in a && ',' !in b
    requires !IsSpace(a[0]) && !IsSpace(a[|a| - 1]) && !IsSpace(b[|b| - 1])
    ensures Parts(a + ",^" + b) == [a, "^" + b]
  {
    assert a + ",^" + b == a + [','] + ("^" + b);
    SplitAt(a, "^" + b, ',');
    assert ',' !in "^" + b;
    assert Split("^" + b, ',') == ["^" + b];
    StripNoSpaces(a);
    StripNoSpaces("^" + b);
  }

  // -----------------------------------------------------------------------
  // parse_date_filter
  // -----------------------------------------------------------------------

  datatype Date = Date(year: nat, month: nat, day: nat)

  predicate IsDigits(s: string) { s != [] && AllDigits(s) }

  // `datetime.strptime(s, '%m-%d-%Y')` matches, at the start of `s`, the
  // regular expression
  //   (?P<m>1[0-2]|0[1-9]|[1-9])-(?P<d>3[01]|[12]\d|0[1-9]|[1-9]| [1-9])-(?P<Y>\d\d\d\d)
  // trying the alternatives of each group in the order written and
  // backtracking into the next one when the rest of the pattern fails.

  predicate IsNonZero(c: char) { '1' <= c <= '9' }

  /** `int()` of a matched field: the value of its digits (the padding
      space of ` [1-9]` adds nothing). */
  function FieldValue(t: string): nat
  {
    if t == [] then 0
    else FieldValue(t[..|t| - 1]) * 10 + (if IsDigit(t[|t| - 1]) then DigitValue(t[|t| - 1]) else 0)
  }

  /** A character's part in a field's value. */
  function CharValue(c: char): nat { if IsDigit(c) then DigitValue(c) else 0 }

  /** The value of a field of one or two characters at `i`. */
  lemma FieldValueAt(s: string, i: nat)
    ensures i + 1 <= |s| ==> FieldValue(s[i..i + 1]) == CharValue(s[i])
    ensures i + 2 <= |s| ==> FieldValue(s[i..i + 2]) == CharValue(s[i]) * 10 + CharValue(s[i + 1])
  {
    if i + 1 <= |s| {
      assert s[i..i + 1][..0] == [];
    }
    if i + 2 <= |s| {
      assert s[i..i + 2][..1] == s[i..i + 1];
    }
  }

  lemma {:induction false} FieldValueDigits(t: string)
    requires AllDigits(t)
    ensures FieldValue(t) == DigitsValue(t)
  {
    if t != [] {
      FieldValueDigits(t[..|t| - 1]);
    }
  }

  /** The lengths the `%m` alternatives match at the start, in the order
      the regex tries them; each reads as a month. */
  function MonthAlts(s: string): (r: seq<nat>)
    ensures forall n :: 0 <= n < |r| ==> r[n] <= |s| && 1 <= FieldValue(s[..r[n]]) <= 12
  {
    FieldValueAt(s, 0);
    (if |s| >= 2 && s[0] == '1' && '0' <= s[1] <= '2' then [2] else [])
    + (if |s| >= 2 && s[0] == '0' && IsNonZero(s[1]) then [2] else [])
    + (if |s| >= 1 && IsNonZero(s[0]) then [1] else [])
  }

  /** The lengths the `%d` alternatives match at `i`, in the order the
      regex tries them; each reads as a day. */
  function DayAlts(s: string, i: nat): (r: seq<nat>)
    ensures forall n :: 0 <= n < |r| ==> i + r[n] <= |s| && 1 <= FieldValue(s[i..i + r[n]]) <= 31
  {
    FieldValueAt(s, i);
    (if i + 2 <= |s| && s[i] == '3' && (s[i + 1] == '0' || s[i + 1] == '1') then [2] else [])
    + (if i + 2 <= |s| && (s[i] == '1' || s[i] == '2') && IsDigit(s[i + 1]) then [2] else [])
    + (if i + 2 <= |s| && s[i] == '0' && IsNonZero(s[i + 1]) then [2] else [])
    + (if i + 1 <= |s| && IsNonZero(s[i]) then [1] else [])
    + (if i + 2 <= |s| && s[i] == ' ' && IsNonZero(s[i + 1]) then [2] else [])
  }

  /** The four digits of `%Y` at `i`. */
  function MatchYear(s: string, i: nat, month: nat, day: nat): (r: Option<(Date, nat)>)
    ensures r.Some? ==> r.value == (Date(r.value.0.year, month, day), i + 4) && i + 4 <= |s|
  {
    if i + 4 <= |s| && AllDigits(s[i..i + 4]) then Some((Date(DigitsValue(s[i..i + 4]), month, day), i + 4))
    else None
  }

  /** The rest of the pattern after the month: the first `%d`
      alternative, in order, after which `-` and the year follow. */
  function MatchDay(s: string, i: nat, alts: seq<nat>, month: nat): (r: Option<(Date, nat)>)
    requires forall n :: 0 <= n < |alts| ==> i + alts[n] <= |s| && 1 <= FieldValue(s[i..i + alts[n]]) <= 31
    ensures r.Some? ==> r.value.0.month == month && 1 <= r.value.0.day <= 31 && r.value.1 <= |s|
    decreases |alts|
  {
    if alts == [] then None
    else
      var j := i + alts[0];
      var r := if j < |s| && s[j] == '-' then MatchYear(s, j + 1, month, FieldValue(s[i..j])) else None;
      if r.Some? then r else MatchDay(s, i, alts[1..], month)
  }

  /** The whole pattern: the first `%m` alternative, in order, after which
      `-` and the rest of the pattern match. */
  function MatchMonth(s: string, alts: seq<nat>): (r: Option<(Date, nat)>)
    requires forall n :: 0 <= n < |alts| ==> alts[n] <= |s| && 1 <= FieldValue(s[..alts[n]]) <= 12
    ensures r.Some? ==> 1 <= r.value.0.month <= 12 && 1 <= r.value.0.day <= 31 && r.value.1 <= |s|
    decreases |alts|
  {
    if alts == [] then None
    else
      var k := alts[0];
      var r := if k < |s| && s[k] == '-' then MatchDay(s, k + 1, DayAlts(s, k + 1), FieldValue(s[..k])) else None;
      if r.Some? then r else MatchMonth(s, alts[1..])
  }

  /** strptime's complaint for text the pattern does not match at its
      start: the text as `repr` shows it, and the format. */
  function NoMatch(s: string): string { "time data " + Repr(s) + " does not match format '%m-%d-%Y'" }

  /** `strptime(s, '%m-%d-%Y')` up to calendar validity: the date the
      pattern reads at the start of `s`; text left after the match is an
      error of its own. */
  function ParseMdy(s: string): (r: Result<Date>)
    ensures r.Ok? ==> 1 <= r.value.month <= 12 && 1 <= r.value.day <= 31
  {
    match MatchMonth(s, MonthAlts(s))
    case None => Err(NoMatch(s))
    case Some((d, end)) => if end < |s| then Err("unconverted data remains: " + s[end..]) else Ok(d)
  }

  /** A number as two (or four) digits with leading zeros. */
  function Pad(n: nat, width: nat): (r: string)
    ensures |r| >= width && IsDigits(r)
    ensures n < 10000 && width == 4 ==> |r| == 4
    ensures n < 100 && width == 2 ==> |r| == 2
    ensures DigitsValue(r) == n
  {
    DigitsOfNat(n);
    NatToStringShort(n);
    var s := NatToString(n);
    if |s| >= width then s
    else (ZerosValue(width - |s|, s); Zeros(width - |s|) + s)
  }

  function Zeros(k: nat): (r: string)
    ensures |r| == k && AllDigits(r)
  {
    if k == 0 then [] else "0" + Zeros(k - 1)
  }

  /** Leading zeros do not change a digit string's value. */
  lemma {:induction false} ZerosValue(k: nat, s: string)
    requires AllDigits(s)
    ensures AllDigits(Zeros(k) + s) && DigitsValue(Zeros(k) + s) == DigitsValue(s)
    decreases |s|
  {
    if s == [] {
      ZerosValueOnly(k);
      assert Zeros(k) + s == Zeros(k);
    } else {
      var init := s[..|s| - 1];
      ZerosValue(k, init);
      assert (Zeros(k) + s)[..|Zeros(k) + s| - 1] == Zeros(k) + init;
    }
  }

  lemma {:induction false} ZerosValueOnly(k: nat)
    ensures DigitsValue(Zeros(k)) == 0
  {
    if k > 0 {
      ZerosValueOnly(k - 1);
      assert Zeros(k) == "0" + Zeros(k - 1);
      ZerosLast(k);
    }
  }

  lemma {:induction false} ZerosLast(k: nat)
    requires k > 0
    ensures Zeros(k)[..k - 1] == Zeros(k - 1) && Zeros(k)[k - 1] == '0'
  {
    if k > 1 {
      ZerosLast(k - 1);
      assert Zeros(k)[..k - 1] == "0" + Zeros(k - 1)[..k - 2];
    }
  }

  /** `MM-DD-YYYY` */
  function Mdy(d: Date): string { Pad(d.month, 2) + "-" + Pad(d.day, 2) + "-" + Pad(d.year, 4) }

  /** `YYYY-MM-DD`, as strftime renders it. */
  function Iso(d: Date): string { Pad(d.year, 4) + "-" + Pad(d.month, 2) + "-" + Pad(d.day, 2) }

  /** Parse one end of a range: strptime's result, then the calendar check
      `calendar` (None when the date exists, else its complaint). */
  function ParseEnd(s: string, calendar: Date -> Option<string>): Result<Date>
  {
    match ParseMdy(Strip(s))
    case Err(e) => Err(e)
    case Ok(d) => match calendar(d) case Some(e) => Err(e) case None => Ok(d)
  }

  function RangeError(arg: string, e: string): string
  {
    "Invalid date range format: " + arg + ". Expected MM-DD-YYYY:MM-DD-YYYY. Error: " + e
  }

  /** `parse_date_filter`: no filter for a missing value, "" or "all"; a
      fixed clause for today/week/month/year; a created-between clause for
      `MM-DD-YYYY:MM-DD-YYYY`; an error otherwise. */
  function ParseDateFilter(arg: Option<string>, calendar: Date -> Option<string>): Result<string>
  {
    if arg.None? || arg.value == [] || Lower(arg.value) == "all" then Ok("")
    else
      var a := arg.value;
      var l := Lower(a);
      if l == "today" then Ok("AND created >= startOfDay()")
      else if l == "week" then Ok("AND created >= -7d")
      else if l == "month" then Ok("AND created >= -30d")
      else if l == "year" then Ok("AND created >= -365d")
      else if ':' in a then ParseRange(a, calendar)
      else Err("Invalid date filter: " + a + ". Use: today, week, month, year, all, or MM-DD-YYYY:MM-DD-YYYY")
  }

  /** The `MM-DD-YYYY:MM-DD-YYYY` branch of `parse_date_filter`. */
  function ParseRange(a: string, calendar: Date -> Option<string>): Result<string>
  {
    var parts := Split(a, ':');
    if |parts| != 2 then Err(RangeError(a, "Invalid date range format: " + a))
    else match ParseEnd(parts[0], calendar)
      case Err(e) => Err(RangeError(a, e))
      case Ok(start) => match ParseEnd(parts[1], calendar)
        case Err(e) => Err(RangeError(a, e))
        case Ok(end) => Ok("AND created >= \"" + Iso(start) + "\" AND created <= \"" + Iso(end) + "\"")
  }

  predicate InRange(d: Date) { 1 <= d.month <= 12 && 1 <= d.day <= 31 && 1000 <= d.year <= 9999 }

  /** A date written as `MM-DD-YYYY` parses back to itself. */
  lemma MdyRoundTrip(d: Date)
    requires InRange(d)
    ensures ParseMdy(Mdy(d)) == Ok(d)
    ensures ':' !in Mdy(d) && Strip(Mdy(d)) == Mdy(d)
  {
    MatchMdyPrefix(d, []);
    assert Mdy(d) + [] == Mdy(d);
    var m := Pad(d.month, 2);
    var y := Pad(d.year, 4);
    NoDashInDigits(m);
    NoDashInDigits(Pad(d.day, 2));
    NoDashInDigits(y);
    var s := Mdy(d);
    assert s[0] == m[0] && s[|s| - 1] == y[|y| - 1];
    StripNoSpaces(s);
  }

  /** Text left after a date is refused with strptime's own complaint:
      `01-02-20245` leaves `5`, `01-02-2024-x` leaves `-x`. */
  lemma UnconvertedRemains(d: Date, rest: string)
    requires InRange(d) && rest != []
    ensures ParseMdy(Mdy(d) + rest) == Err("unconverted data remains: " + rest)
  {
    MatchMdyPrefix(d, rest);
    assert (Mdy(d) + rest)[10..] == rest;
  }

  /** `%d` also accepts a day of one digit after a space: `01- 5-2024`
      is the fifth of January. */
  lemma SpacePaddedDay(month: nat, c: char, year: nat)
    requires 1 <= month <= 12 && IsNonZero(c) && 1000 <= year <= 9999
    ensures ParseMdy(Pad(month, 2) + "- " + [c] + "-" + Pad(year, 4)) == Ok(Date(year, month, DigitValue(c)))
  {
    var m, y := Pad(month, 2), Pad(year, 4);
    var s := m + "- " + [c] + "-" + y;
    PadTwo(month);
    assert s[..2] == m && s[6..10] == y;
    assert s[0] == m[0] && s[1] == m[1] && s[2] == '-' && s[3] == ' ' && s[4] == c && s[5] == '-';
    MatchFields(s, month, DigitValue(c));
  }

  /** Text that does not open with a digit is not matched, and the
      complaint shows it as `repr` does. */
  lemma NoMatchAtStart(s: string)
    requires s == [] || !IsDigit(s[0])
    ensures ParseMdy(s) == Err(NoMatch(s))
    ensures '\'' in s && '"' !in s ==> NoMatch(s)[10] == '"'
  {
    assert MonthAlts(s) == [];
    ReprQuotes(s);
  }

  /** Two digits of a day or month: their characters and value. */
  lemma PadTwo(n: nat)
    requires 1 <= n <= 31
    ensures |Pad(n, 2)| == 2 && IsDigit(Pad(n, 2)[0]) && IsDigit(Pad(n, 2)[1])
    ensures DigitValue(Pad(n, 2)[0]) * 10 + DigitValue(Pad(n, 2)[1]) == n
  {
    var t := Pad(n, 2);
    assert t[..1][..0] == [];
    assert DigitsValue(t) == DigitsValue(t[..1]) * 10 + DigitValue(t[1]);
    assert DigitsValue(t[..1]) == DigitValue(t[0]);
  }

  /** The pattern reads `MM-DD-YYYY` at the start of any text as that
      date, the match ending after the year. */
  lemma MatchMdyPrefix(d: Date, rest: string)
    requires InRange(d)
    ensures |Mdy(d)| == 10
    ensures MatchMonth(Mdy(d) + rest, MonthAlts(Mdy(d) + rest)) == Some((d, 10))
  {
    var m, dd, y := Pad(d.month, 2), Pad(d.day, 2), Pad(d.year, 4);
    var s := Mdy(d) + rest;
    PadTwo(d.month);
    PadTwo(d.day);
    assert s[..2] == m && s[6..10] == y;
    assert s[0] == m[0] && s[1] == m[1] && s[2] == '-' && s[3] == dd[0] && s[4] == dd[1] && s[5] == '-';
    MatchFields(s, d.month, d.day);
  }

  /** Two digits (or a space and a digit for the day) for month and day,
      the dashes and four digits: the first alternatives match and the
      match ends after the year. */
  lemma MatchFields(s: string, month: nat, day: nat)
    requires |s| >= 10 && s[2] == '-' && s[5] == '-' && AllDigits(s[6..10])
    requires IsDigit(s[0]) && IsDigit(s[1]) && DigitValue(s[0]) * 10 + DigitValue(s[1]) == month && 1 <= month <= 12
    requires IsDigit(s[4]) && 1 <= day <= 31
    requires (IsDigit(s[3]) && DigitValue(s[3]) * 10 + DigitValue(s[4]) == day) || (s[3] == ' ' && IsNonZero(s[4]) && DigitValue(s[4]) == day)
    ensures MatchMonth(s, MonthAlts(s)) == Some((Date(DigitsValue(s[6..10]), month, day), 10))
  {
    MonthAltsFirst(s);
    DayAltsFirst(s, 3);
    FieldValueAt(s, 0);
    FieldValueAt(s, 3);
    var r := Some((Date(DigitsValue(s[6..10]), month, day), 10));
    assert FieldValue(s[3..5]) == day;
    assert MatchYear(s, 6, month, FieldValue(s[3..5])) == r;
    var alts := DayAlts(s, 3);
    assert 3 + alts[0] == 5;
    assert MatchDay(s, 3, alts, month) == r;
    assert FieldValue(s[..2]) == month;
  }

  lemma MonthAltsFirst(s: string)
    requires |s| >= 2 && IsDigit(s[0]) && IsDigit(s[1]) && 1 <= DigitValue(s[0]) * 10 + DigitValue(s[1]) <= 12
    ensures |MonthAlts(s)| > 0 && MonthAlts(s)[0] == 2
  {
  }

  lemma DayAltsFirst(s: string, i: nat)
    requires i + 2 <= |s| && IsDigit(s[i + 1])
    requires (IsDigit(s[i]) && 1 <= DigitValue(s[i]) * 10 + DigitValue(s[i + 1]) <= 31) || (s[i] == ' ' && IsNonZero(s[i + 1]))
    ensures |DayAlts(s, i)| > 0 && DayAlts(s, i)[0] == 2
  {
  }

  lemma NoDashInDigits(s: string)
    requires AllDigits(s)
    ensures '-' !in s && ':' !in s
  {
  }

  /** A range written as two `MM-DD-YYYY` dates that exist gives the
      created-between clause of the same dates in `YYYY-MM-DD` form. */
  lemma DateRangeRoundTrip(d1: Date, d2: Date, calendar: Date -> Option<string>)
    requires InRange(d1) && InRange(d2) && calendar(d1).None? && calendar(d2).None?
    ensures ParseDateFilter(Some(Mdy(d1) + ":" + Mdy(d2)), calendar)
      == Ok("AND created >= \"" + Iso(d1) + "\" AND created <= \"" + Iso(d2) + "\"")
  {
    var a := Mdy(d1) + ":" + Mdy(d2);
    ParseEndMdy(d1, calendar);
    ParseEndMdy(d2, calendar);
    assert a == Mdy(d1) + [':'] + Mdy(d2);
    SplitAt(Mdy(d1), Mdy(d2), ':');
    assert Split(a, ':') == [Mdy(d1), Mdy(d2)];
    assert a[|Mdy(d1)|] == ':';
    RangeIsNoKeyword(a, calendar);
  }

  /** Text longer than every keyword and holding a colon is read as a
      range. */
  lemma RangeIsNoKeyword(a: string, calendar: Date -> Option<string>)
    requires |a| > 5 && ':' in a
    ensures ParseDateFilter(Some(a), calendar) == ParseRange(a, calendar)
  {
    var l := Lower(a);
    assert |l| == |a|;
    assert l != "all" && l != "today" && l != "week" && l != "month" && l != "year";
  }

  /** One end written as `MM-DD-YYYY` parses back to its date. */
  lemma ParseEndMdy(d: Date, calendar: Date -> Option<string>)
    requires InRange(d) && calendar(d).None?
    ensures ParseEnd(Mdy(d), calendar) == Ok(d) && ':' !in Mdy(d)
  {
    MdyRoundTrip(d);
  }

  /** The keywords are case-insensitive. */
  lemma KeywordsAnyCase(a: string, calendar: Date -> Option<string>)
    requires Lower(a) == "week"
    ensures ParseDateFilter(Some(a), calendar) == Ok("AND created >= -7d")
  {
  }

  // -----------------------------------------------------------------------
  // Pagination in get_tickets
  // -----------------------------------------------------------------------

  /** A page of search results and the token for the next one. */
  datatype Page<T> = Page(issues: seq<T>, next: Option<string>)

  /** A search request: how many issues it asks for and its page token. */
  datatype Request = Request(maxResults: nat, token: Option<string>)

  predicate HasNext<T>(p: Page<T>) { p.next.Some? && p.next.value != [] }

  /** The server's answer to the k-th request: its k-th page, or an empty
      last page once it has no more. */
  function Response<T>(pages: seq<Result<Page<T>>>, k: nat): Result<Page<T>>
  {
    if k < |pages| then pages[k] else Ok(Page([], None))
  }

  /** `issues[:limit]` when a limit is set. */
  function Trim<T>(s: seq<T>, limit: nat): (r: seq<T>)
    ensures limit > 0 ==> |r| <= limit
    ensures |r| <= |s|
    ensures r == s[..|r|]
  {
    if limit > 0 && |s| > limit then s[..limit] else s
  }

  /** The fetch loop from request `k` on, with `got` collected so far. */
  function FetchFrom<T>(pages: seq<Result<Page<T>>>, limit: nat, k: nat, got: seq<T>): Result<seq<T>>
    decreases |pages| - k
  {
    match Response(pages, k)
    case Err(e) => Err("Jira API error: " + e)
    case Ok(p) =>
      var all := got + p.issues;
      if !HasNext(p) || (limit > 0 && |all| >= limit) || k >= |pages| then Ok(Trim(all, limit))
      else FetchFrom(pages, limit, k + 1, all)
  }

  /** Every issue the server lists, from page `k` up to the first page
      without a next token. */
  function Listed<T>(pages: seq<Result<Page<T>>>, k: nat): seq<T>
    decreases |pages| - k
  {
    if k >= |pages| || pages[k].Err? then []
    else pages[k].value.issues + (if HasNext(pages[k].value) then Listed(pages, k + 1) else [])
  }

  lemma TrimExtend<T>(s: seq<T>, t: seq<T>, limit: nat)
    requires limit > 0 && |s| >= limit
    ensures Trim(s, limit) == Trim(s + t, limit)
  {
    assert (s + t)[..limit] == s[..limit];
  }

  /** The fetch returns the listed issues, cut to the limit: nothing is
      lost or repeated, and no more than `limit` come back. */
  lemma {:induction false} FetchFromSpec<T>(pages: seq<Result<Page<T>>>, limit: nat, k: nat, got: seq<T>)
    requires FetchFrom(pages, limit, k, got).Ok?
    ensures FetchFrom(pages, limit, k, got).value == Trim(got + Listed(pages, k), limit)
    decreases |pages| - k
  {
    var p := Response(pages, k).value;
    var all := got + p.issues;
    if k >= |pages| {
      assert Listed(pages, k) == [];
      assert p.issues == [];
      assert all == got + Listed(pages, k);
    } else if !HasNext(p) {
      assert Listed(pages, k) == p.issues;
    } else if limit > 0 && |all| >= limit {
      assert got + Listed(pages, k) == all + Listed(pages, k + 1);
      TrimExtend(all, Listed(pages, k + 1), limit);
    } else {
      FetchFromSpec(pages, limit, k + 1, all);
      assert got + Listed(pages, k) == all + Listed(pages, k + 1);
    }
  }

  /** The paging loop of `get_tickets` against the server's `pages`; a
      limit of 0 is no limit. */
  method FetchTickets<T>(pages: seq<Result<Page<T>>>, limit: nat) returns (r: Result<seq<T>>, requests: seq<Request>)
    ensures r == FetchFrom(pages, limit, 0, [])
    ensures r.Ok? && limit > 0 ==> |r.value| <= limit
    ensures forall j :: 0 <= j < |requests| ==> 1 <= requests[j].maxResults <= 100
    ensures limit > 0 ==> forall j :: 0 <= j < |requests| ==> requests[j].maxResults <= limit
    ensures requests != [] && requests[0].token == None
  {
    var all: seq<T> := [];
    var token: Option<string> := None;
    var batch := if limit > 0 then Min(100, limit) else 100;
    var k := 0;
    requests := [];
    while true
      invariant k <= |pages| + 1
      invariant FetchFrom(pages, limit, 0, []) == FetchFrom(pages, limit, k, all)
      invariant limit > 0 ==> |all| < limit
      invariant k == 0 ==> token == None && requests == []
      invariant |requests| == k
      invariant forall j :: 0 <= j < |requests| ==> 1 <= requests[j].maxResults <= 100
      invariant limit > 0 ==> forall j :: 0 <= j < |requests| ==> requests[j].maxResults <= limit
      invariant requests != [] ==> requests[0].token == None
      decreases |pages| + 1 - k
    {
      var current := if limit > 0 then Min(batch, limit - |all|) else batch;
      requests := requests + [Request(current, token)];
      var response := Response(pages, k);
      if response.Err? {
        return Err("Jira API error: " + response.msg), requests;
      }
      var page := response.value;
      all := all + page.issues;
      token := page.next;
      if token.None? || token.value == [] || (limit > 0 && |all| >= limit) || k >= |pages| {
        break;
      }
      k := k + 1;
    }
    if limit > 0 && |all| > limit {
      all := all[..limit];
    }
    r := Ok(all);
  }

  // -----------------------------------------------------------------------
  // bulk_update_tickets
  // -----------------------------------------------------------------------

  /** A CSV row: column name to cell. */
  type Row = map<string, string>

  /** `ticket.get('key')`, with "" for a missing or empty key. */
  function KeyOf(row: Row): string { if "key" in row then row["key"] else "" }

  /** The operations requested, in the order the summary lists them. */
  function Operations(setRelease: string, removeRelease: bool, transition: string, assign: string): seq<string>
  {
    (if setRelease != [] then ["Set release to: " + setRelease] else [])
    + (if removeRelease then ["Remove release"] else [])
    + (if transition != [] then ["Transition to: " + transition] else [])
    + (if assign != [] then ["Assign to: " + assign] else [])
  }

  /** What the loop has counted: successes, failures, the error list and
      the tickets it asked Jira to update. */
  datatype Tally = Tally(success: nat, failed: nat, errors: seq<(string, string)>, updated: seq<string>)

  /** The loop over `rows` (row numbers from 1): a row without a key is an
      error; in a dry run every keyed row succeeds without a Jira call;
      otherwise `update` applies the operations to the ticket and gives
      the error it raised, if any. */
  function TallyOf(rows: seq<Row>, dryRun: bool, update: string -> Option<string>): Tally
  {
    if rows == [] then Tally(0, 0, [], [])
    else
      var t := TallyOf(rows[..|rows| - 1], dryRun, update);
      var key := KeyOf(rows[|rows| - 1]);
      if key == [] then Tally(t.success, t.failed + 1, t.errors + [("Row " + NatToString(|rows|), "No key found")], t.updated)
      else if dryRun then t.(success := t.success + 1)
      else match update(key)
        case None => Tally(t.success + 1, t.failed, t.errors, t.updated + [key])
        case Some(e) => Tally(t.success, t.failed + 1, t.errors + [(key, e)], t.updated + [key])
  }

  /** Every row is counted once, as a success or a failure; each failure
      has its error entry; a dry run calls Jira for no ticket, and a real
      run for every keyed row in order. */
  lemma {:induction false} TallySpec(rows: seq<Row>, dryRun: bool, update: string -> Option<string>)
    ensures TallyOf(rows, dryRun, update).success + TallyOf(rows, dryRun, update).failed == |rows|
    ensures |TallyOf(rows, dryRun, update).errors| == TallyOf(rows, dryRun, update).failed
    ensures dryRun ==> TallyOf(rows, dryRun, update).updated == []
    ensures !dryRun ==> TallyOf(rows, dryRun, update).updated == KeyedRows(rows)
  {
    if rows != [] {
      TallySpec(rows[..|rows| - 1], dryRun, update);
    }
  }

  /** The keys of the rows that have one, in order. */
  function KeyedRows(rows: seq<Row>): seq<string>
  {
    if rows == [] then []
    else KeyedRows(rows[..|rows| - 1]) + (if KeyOf(rows[|rows| - 1]) == [] then [] else [KeyOf(rows[|rows| - 1])])
  }

  /** In a dry run the failures are exactly the rows without a key. */
  lemma {:induction false} DryRunFailures(rows: seq<Row>, update: string -> Option<string>)
    ensures TallyOf(rows, true, update).failed == |rows| - |KeyedRows(rows)|
  {
    if rows != [] {
      DryRunFailures(rows[..|rows| - 1], update);
      KeyedRowsBound(rows[..|rows| - 1]);
    }
  }

  lemma {:induction false} KeyedRowsBound(rows: seq<Row>)
    ensures |KeyedRows(rows)| <= |rows|
  {
    if rows != [] {
      KeyedRowsBound(rows[..|rows| - 1]);
    }
  }

  datatype BulkOutcome = NoTickets | NoOperations | Done(rows: nat, tally: Tally)

  /** `bulk_update_tickets` over the loaded rows: nothing to do without
      rows or without an operation; otherwise the first `maxUpdates` rows
      (all of them when 0) are processed. */
  method BulkUpdate(tickets: seq<Row>, setRelease: string, removeRelease: bool, transition: string, assign: string,
                    dryRun: bool, maxUpdates: nat, update: string -> Option<string>)
    returns (r: BulkOutcome)
    ensures tickets == [] <==> r == NoTickets
    ensures tickets != [] && Operations(setRelease, removeRelease, transition, assign) == [] <==> r == NoOperations
    ensures r.Done? ==> r.rows == (if maxUpdates > 0 then Min(maxUpdates, |tickets|) else |tickets|)
    ensures r.Done? ==> r.tally == TallyOf(tickets[..r.rows], dryRun, update)
  {
    if tickets == [] {
      return NoTickets;
    }
    var rows := tickets;
    if maxUpdates > 0 && |rows| > maxUpdates {
      rows := rows[..maxUpdates];
    }
    var operations := Operations(setRelease, removeRelease, transition, assign);
    if operations == [] {
      return NoOperations;
    }
    var success, failed := 0, 0;
    var errors: seq<(string, string)> := [];
    var updated: seq<string> := [];
    for i := 0 to |rows|
      invariant Tally(success, failed, errors, updated) == TallyOf(rows[..i], dryRun, update)
    {
      assert rows[..i + 1][..i] == rows[..i];
      var key := KeyOf(rows[i]);
      if key == [] {
        failed := failed + 1;
        errors := errors + [("Row " + NatToString(i + 1), "No key found")];
        continue;
      }
      if dryRun {
        success := success + 1;
      } else {
        updated := updated + [key];
        var e := update(key);
        if e.None? {
          success := success + 1;
        } else {
          failed := failed + 1;
          errors := errors + [(key, e.value)];
        }
      }
    }
    assert rows[..|rows|] == rows;
    assert rows == tickets[..|rows|];
    r := Done(|rows|, Tally(success, failed, errors, updated));
  }

  /** The outcome's counts add up to the rows processed. */
  lemma BulkCounts(tickets: seq<Row>, n: nat, dryRun: bool, update: string -> Option<string>)
    requires n <= |tickets|
    ensures TallyOf(tickets[..n], dryRun, update).success + TallyOf(tickets[..n], dryRun, update).failed == n
    ensures dryRun ==> TallyOf(tickets[..n], dryRun, update).updated == []
  {
    TallySpec(tickets[..n], dryRun, update);
  }

  // -----------------------------------------------------------------------
  // add_gadget
  // -----------------------------------------------------------------------

  const ValidColors: seq<string> := ["blue", "red", "yellow", "green", "cyan", "purple", "gray", "white"]

  /** Gadget properties: a dict, or JSON text to decode. */
  datatype Properties = PropsJson(j: Json) | PropsText(text: string)

  datatype GadgetPayload = GadgetPayload(moduleKey: string, position: Option<(int, int)>, color: Option<string>,
                                         properties: Option<Json>)

  /** `int(s.strip())` with the complaint Python raises. */
  function IntOf(s: string): Result<int>
  {
    match ParseInt(Some(s))
    case Some(v) => Ok(v)
    case None => Err("invalid literal for int() with base 10: '" + Strip(s) + "'")
  }

  /** The position `row,column`. */
  function ParsePosition(position: string): Result<(int, int)>
  {
    var parts := Split(position, ',');
    if |parts| != 2 then Err("Invalid position format: Position must be in format row,column")
    else match IntOf(parts[0])
      case Err(e) => Err("Invalid position format: " + e)
      case Ok(row) => match IntOf(parts[1])
        case Err(e) => Err("Invalid position format: " + e)
        case Ok(col) => Ok((row, col))
  }

  /** The payload `add_gadget` posts, or the error it raises first:
      position, then colour, then properties; `decode` is `json.loads`. */
  function GadgetPayloadOf(moduleKey: string, position: Option<string>, color: Option<string>,
                           properties: Option<Properties>, decode: string -> Result<Json>): Result<GadgetPayload>
  {
    var pos := if position.Some? && position.value != [] then
                 match ParsePosition(position.value) case Err(e) => Err(e) case Ok(p) => Ok(Some(p))
               else Ok(None);
    if pos.Err? then Err(pos.msg)
    else if color.Some? && color.value != [] && Lower(color.value) !in ValidColors then
      Err("Invalid color \"" + color.value + "\". Valid colors: " + Join(ValidColors, ", "))
    else
      var col := if color.Some? && color.value != [] then Some(Lower(color.value)) else None;
      var props: Result<Option<Json>> :=
        match properties
        case None => Ok(None)
        case Some(PropsJson(j)) => Ok(if Truthy(j) then Some(j) else None)
        case Some(PropsText(t)) =>
          if t == [] then Ok(None)
          else match decode(t)
            case Err(e) => Err("Invalid JSON for gadget-properties: " + e)
            case Ok(j) => Ok(Some(j));
      if props.Err? then Err(props.msg)
      else Ok(GadgetPayload(moduleKey, pos.value, col, props.value))
  }

  /** `row,column` written as two numbers is accepted as that position. */
  lemma PositionRoundTrip(row: nat, col: nat)
    ensures ParsePosition(NatToString(row) + "," + NatToString(col)) == Ok((row as int, col as int))
  {
    var a := NatToString(row);
    var b := NatToString(col);
    NoCommaInDigits(row);
    NoCommaInDigits(col);
    SplitPair(a, b);
    IntOfNat(row);
    IntOfNat(col);
  }

  lemma NoCommaInDigits(n: nat)
    ensures ',' !in NatToString(n)
  {
    var a := NatToString(n);
    NoDashInDigits(a);
    assert forall i :: 0 <= i < |a| ==> IsDigit(a[i]);
  }

  lemma SplitPair(a: string, b: string)
    requires ',' !in a && ',' !in b
    ensures Split(a + "," + b, ',') == [a, b]
  {
    assert a + "," + b == a + [','] + b;
    SplitAt(a, b, ',');
    assert Split(b, ',') == [b];
  }

  lemma IntOfNat(n: nat)
    ensures IntOf(NatToString(n)) == Ok(n as int)
  {
    ParseNatRoundTrip(n);
  }

  /** A position with no comma, or more than one, is refused. */
  lemma PositionNeedsOneComma(position: string)
    requires ',' !in position
    ensures ParsePosition(position).Err?
  {
  }

  /** A colour is accepted in any case and stored lowercased; any other
      colour is refused. */
  lemma GadgetColor(moduleKey: string, color: string, decode: string -> Result<Json>)
    requires color != []
    ensures Lower(color) in ValidColors ==>
      GadgetPayloadOf(moduleKey, None, Some(color), None, decode) == Ok(GadgetPayload(moduleKey, None, Some(Lower(color)), None))
    ensures Lower(color) !in ValidColors ==> GadgetPayloadOf(moduleKey, None, Some(color), None, decode).Err?
  {
  }
}
