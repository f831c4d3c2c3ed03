/** Shared vocabulary for the model: optional values, results carrying an
    error message, and the few string operations of Python's `str` that the
    modelled code relies on (ASCII case folding, whitespace stripping,
    substring search, joining and splitting). */
module Common {

  datatype Option<+T> = None | Some(value: T)

  /** A call that either returns a value or raises with a message. */
  datatype Result<+T> = Ok(value: T) | Err(msg: string)

  type String = seq<char>

  /** A JSON-like value: what the source keeps in its result dicts. */
  datatype Json =
    | JNull
    | JBool(b: bool)
    | JInt(i: int)
    | JStr(s: string)
    | JList(items: seq<Json>)
    | JObj(fields: map<string, Json>)

  /** Python truthiness of a JSON-like value. */
  predicate Truthy(j: Json)
  {
    match j
    case JNull => false
    case JBool(b) => b
    case JInt(i) => i != 0
    case JStr(s) => s != []
    case JList(items) => items != []
    case JObj(fields) => fields != map[]
  }

  /** `d.get(k, default)` */
  function Get(fields: map<string, Json>, k: string, default: Json): (v: Json)
    ensures k in fields ==> v == fields[k]
    ensures k !in fields ==> v == default
  {
    if k in fields then fields[k] else default
  }

  /** `type(v).__name__` */
  function TypeName(j: Json): (r: string)
    ensures r != []
  {
    match j
    case JNull => "NoneType"
    case JBool(_) => "bool"
    case JInt(_) => "int"
    case JStr(_) => "str"
    case JList(_) => "list"
    case JObj(_) => "dict"
  }

  /** The AttributeError of `v.attr` on a value without that attribute. */
  function NoAttribute(j: Json, attr: string): string
  {
    "AttributeError: '" + TypeName(j) + "' object has no attribute '" + attr + "'"
  }

  /** The elements a `for` loop visits: a list's items, a string's
      one-character strings, an empty object nothing; scalars raise. A
      non-empty object, whose keys Python would visit in insertion order,
      is an error here because maps have no key order. */
  function Elements(j: Json): (r: Result<seq<Json>>)
    ensures j.JList? ==> r == Ok(j.items)
    ensures j.JNull? || j.JBool? || j.JInt? ==> r.Err?
  {
    match j
    case JList(items) => Ok(items)
    case JStr(s) => Ok(seq(|s|, i requires 0 <= i < |s| => JStr([s[i]])))
    case JObj(fields) => if fields == map[] then Ok([]) else Err("iteration over object keys")
    case _ => Err("TypeError: '" + TypeName(j) + "' object is not iterable")
  }

  /** `str(v)` inside an f-string, for strings, None, booleans and ints. */
  function Text(j: Json): (r: string)
    ensures j.JStr? ==> r == j.s
  {
    match j
    case JStr(s) => s
    case JNull => "None"
    case JBool(b) => if b then "True" else "False"
    case JInt(i) => if i >= 0 then NatToString(i) else "-" + NatToString(-i)
    case _ => ""
  }

  // ---------------------------------------------------------------------
  // Character classes (letters and digits ASCII; whitespace as `str.isspace`)
  // ---------------------------------------------------------------------

  predicate IsUpper(c: char) { 'A' <= c <= 'Z' }
  predicate IsLowerChar(c: char) { 'a' <= c <= 'z' }
  predicate IsDigit(c: char) { '0' <= c <= '9' }
  predicate IsAlnum(c: char) { IsUpper(c) || IsLowerChar(c) || IsDigit(c) }
  /** `str.isspace()` on one character: the ASCII blanks and separators
      '\t' to '\r' and U+001C to U+001F, the space, and the Unicode spaces
      and line and paragraph separators. */
  predicate IsSpace(c: char)
  {
    c == ' ' || '\t' <= c <= '\r' || '\U{1C}' <= c <= '\U{1F}' || c == '\U{85}' || c == '\U{A0}'
    || c == '\U{1680}' || '\U{2000}' <= c <= '\U{200A}' || c == '\U{2028}' || c == '\U{2029}'
    || c == '\U{202F}' || c == '\U{205F}' || c == '\U{3000}'
  }

  function LowerChar(c: char): (r: char)
    ensures !IsUpper(r)
    ensures IsUpper(c) ==> r as int == c as int + 32
    ensures !IsUpper(c) ==> r == c
  {
    if IsUpper(c) then (c as int + 32) as char else c
  }

  function UpperChar(c: char): (r: char)
    ensures !IsLowerChar(r)
    ensures IsLowerChar(c) ==> r as int == c as int - 32
    ensures !IsLowerChar(c) ==> r == c
  {
    if IsLowerChar(c) then (c as int - 32) as char else c
  }

  /** `str.lower()` on ASCII letters. */
  function Lower(s: String): (r: String)
    ensures |r| == |s|
    ensures forall i :: 0 <= i < |s| ==> r[i] == LowerChar(s[i])
  {
    if s == [] then [] else [LowerChar(s[0])] + Lower(s[1..])
  }

  /** `str.upper()` on ASCII letters. */
  function Upper(s: String): (r: String)
    ensures |r| == |s|
  {
    if s == [] then [] else [UpperChar(s[0])] + Upper(s[1..])
  }

  /** The empty sequence is a right unit. */
  lemma AppendEmpty<T>(a: seq<T>)
    ensures a + [] == a
  {
  }

  /** Concatenation is associative. */
  lemma AppendAssoc<T>(a: seq<T>, b: seq<T>, c: seq<T>)
    ensures (a + b) + c == a + (b + c)
  {
  }

  /** `str.upper()` works character by character. */
  lemma {:induction false} UpperChars(s: String)
    ensures forall i :: 0 <= i < |s| ==> Upper(s)[i] == UpperChar(s[i])
  {
    if s != [] {
      UpperChars(s[1..]);
      assert forall i :: 1 <= i < |s| ==> Upper(s)[i] == Upper(s[1..])[i - 1];
    }
  }

  /** Index of the first non-whitespace character at or after `i`. */
  function SkipSpaces(s: String, i: nat): (j: nat)
    requires i <= |s|
    ensures i <= j <= |s|
    ensures j < |s| ==> !IsSpace(s[j])
    decreases |s| - i
  {
    if i < |s| && IsSpace(s[i]) then SkipSpaces(s, i + 1) else i
  }

  /** One past the last non-whitespace character before `j`. */
  function TrimEnd(s: String, j: nat): (e: nat)
    requires j <= |s|
    ensures e <= j
    ensures e > 0 ==> !IsSpace(s[e - 1])
  {
    if j > 0 && IsSpace(s[j - 1]) then TrimEnd(s, j - 1) else j
  }

  function LStrip(s: String): (r: String)
    ensures |r| <= |s|
  {
    s[SkipSpaces(s, 0)..]
  }

  function RStrip(s: String): (r: String)
    ensures |r| <= |s|
  {
    s[..TrimEnd(s, |s|)]
  }

  /** `str.strip()`: no leading and no trailing whitespace. */
  function Strip(s: String): (r: String)
    ensures |r| <= |s|
    ensures r == [] || (!IsSpace(r[0]) && !IsSpace(r[|r| - 1]))
  {
    var a := SkipSpaces(s, 0);
    var b := TrimEnd(s, |s|);
    if b <= a then [] else s[a..b]
  }

  /** Python truthiness of a string after `.strip()`. */
  predicate IsBlank(s: String) { Strip(s) == [] }

  predicate StartsWith(s: String, p: String) { |p| <= |s| && s[..|p|] == p }
  predicate EndsWith(s: String, p: String) { |p| <= |s| && s[|s| - |p|..] == p }

  /** `needle in hay` for strings. */
  predicate Contains(hay: String, needle: String)
    decreases |hay|
  {
    StartsWith(hay, needle) || (hay != [] && Contains(hay[1..], needle))
  }

  /** A substring found at position `i` is contained. */
  lemma {:induction false} ContainsAt(hay: String, needle: String, i: nat)
    requires i + |needle| <= |hay| && hay[i..i + |needle|] == needle
    ensures Contains(hay, needle)
    decreases i
  {
    if i > 0 {
      assert hay[1..][i - 1..i - 1 + |needle|] == hay[i..i + |needle|];
      ContainsAt(hay[1..], needle, i - 1);
    }
  }

  /** `any(p in text for p in patterns)` */
  predicate AnyIn(patterns: seq<String>, text: String)
  {
    patterns != [] && (Contains(text, patterns[0]) || AnyIn(patterns[1..], text))
  }

  lemma {:induction false} AnyInAt(patterns: seq<String>, text: String, i: nat)
    requires i < |patterns| && Contains(text, patterns[i])
    ensures AnyIn(patterns, text)
  {
    if i > 0 {
      AnyInAt(patterns[1..], text, i - 1);
    }
  }

  /** Text without upper-case letters is its own lower-case form. */
  lemma LowerFixed(s: String)
    requires forall i :: 0 <= i < |s| ==> !IsUpper(s[i])
    ensures Lower(s) == s
  {
  }

  /** Lower-casing after upper-casing loses nothing lower-casing alone keeps. */
  lemma LowerUpper(s: String)
    ensures Lower(Upper(s)) == Lower(s)
  {
    UpperChars(s);
    assert forall i :: 0 <= i < |s| ==> LowerChar(UpperChar(s[i])) == LowerChar(s[i]);
  }

  // ---------------------------------------------------------------------
  // The process environment
  // ---------------------------------------------------------------------

  /** `os.getenv(name)`: the variable's value, or None when it is unset. */
  function Getenv(env: map<String, String>, name: String): (r: Option<String>)
    ensures r.Some? <==> name in env
    ensures r.Some? ==> r.value == env[name]
  {
    if name in env then Some(env[name]) else None
  }

  /** `os.getenv(name, default)`: a variable set to the empty string is
      the empty string, not the default. */
  function GetenvOr(env: map<String, String>, name: String, default: String): (r: String)
    ensures name in env ==> r == env[name]
    ensures name !in env ==> r == default
  {
    if name in env then env[name] else default
  }

  /** Python truthiness of an optional string. */
  predicate IsSet(a: Option<String>) { a.Some? && a.value != [] }

  /** `a or b` for optional strings. */
  function OrStr(a: Option<String>, b: Option<String>): (r: Option<String>)
    ensures IsSet(a) ==> r == a
    ensures !IsSet(a) ==> r == b
  {
    if IsSet(a) then a else b
  }

  /** Position of the first occurrence of `sub` in `s`, as `s.find(sub)`. */
  function IndexOf(s: String, sub: String): (r: Option<nat>)
    ensures r.Some? ==> r.value + |sub| <= |s| && s[r.value..r.value + |sub|] == sub
    ensures r.Some? <==> Contains(s, sub)
    decreases |s|
  {
    if StartsWith(s, sub) then Some(0)
    else if s == [] then None
    else match IndexOf(s[1..], sub)
      case None => None
      case Some(i) => Some(i + 1)
  }

  /** `s.split(c, 1)[-1]`: the text after the first `c`, or all of `s`. */
  function AfterFirstChar(s: String, c: char): (r: String)
    ensures |r| <= |s|
    ensures c !in s ==> r == s
  {
    if c in s then s[IndexOfChar(s, c) + 1..] else s
  }

  /** `s.split(sep)[-1]` for a non-empty separator: the text after the last
      occurrence of `sep`, or all of `s`. */
  function AfterLast(s: String, sep: String): (r: String)
    requires sep != []
    ensures |r| <= |s|
    decreases |s|
  {
    match IndexOf(s, sep)
    case None => s
    case Some(i) => AfterLast(s[i + |sep|..], sep)
  }

  /** `s[:n]` */
  function Take(s: String, n: nat): (r: String)
    ensures |r| == if |s| <= n then |s| else n
    ensures r == s[..|r|]
  {
    if |s| <= n then s else s[..n]
  }

  /** `sep.join(parts)` */
  function Join(parts: seq<String>, sep: String): String
  {
    if parts == [] then []
    else if |parts| == 1 then parts[0]
    else parts[0] + sep + Join(parts[1..], sep)
  }

  lemma {:induction false} JoinSplice(pre: seq<String>, mid: seq<String>, post: seq<String>, sep: String)
    requires mid != []
    ensures Join(pre + [Join(mid, sep)] + post, sep) == Join(pre + mid + post, sep)
    decreases |pre|
  {
    if pre == [] {
      assert pre + [Join(mid, sep)] + post == [Join(mid, sep)] + post;
      assert pre + mid + post == mid + post;
      JoinSplitHead(mid, post, sep);
    } else {
      JoinSplice(pre[1..], mid, post, sep);
      assert (pre + [Join(mid, sep)] + post)[1..] == pre[1..] + [Join(mid, sep)] + post;
      assert (pre + mid + post)[1..] == pre[1..] + mid + post;
    }
  }

  /** Joining a non-empty prefix separately and then the rest gives the same text. */
  lemma {:induction false} JoinSplitHead(mid: seq<String>, post: seq<String>, sep: String)
    requires mid != []
    ensures Join([Join(mid, sep)] + post, sep) == Join(mid + post, sep)
    decreases |mid|
  {
    if |mid| == 1 {
      assert mid + post == [mid[0]] + post;
    } else {
      JoinSplitHead(mid[1..], post, sep);
      assert (mid + post)[1..] == mid[1..] + post;
      if post == [] {
        assert mid + post == mid;
      } else {
        calc {
          Join([Join(mid, sep)] + post, sep);
          Join(mid, sep) + sep + Join(post, sep);
          mid[0] + sep + Join(mid[1..], sep) + sep + Join(post, sep);
          { assert Join([Join(mid[1..], sep)] + post, sep) == Join(mid[1..], sep) + sep + Join(post, sep); }
          mid[0] + sep + Join(mid[1..] + post, sep);
          Join(mid + post, sep);
        }
      }
    }
  }

  /** `s.split(c)` for a single-character separator: always at least one piece,
      and no piece contains the separator. */
  function Split(s: String, c: char): (r: seq<String>)
    ensures |r| >= 1
    ensures forall i :: 0 <= i < |r| ==> c !in r[i]
    decreases |s|
  {
    if c !in s then [s]
    else
      var i := IndexOfChar(s, c);
      [s[..i]] + Split(s[i + 1..], c)
  }

  /** The characters `str.splitlines()` breaks at. */
  predicate IsLineBreak(c: char)
  {
    c == '\n' || c == '\r' || c == '\U{B}' || c == '\U{C}' || '\U{1C}' <= c <= '\U{1E}'
    || c == '\U{85}' || c == '\U{2028}' || c == '\U{2029}'
  }

  predicate NoLineBreak(s: String)
  {
    forall k :: 0 <= k < |s| ==> !IsLineBreak(s[k])
  }

  /** The first line break at or after `i`, or the end. */
  function LineEnd(s: String, i: nat): (j: nat)
    requires i <= |s|
    ensures i <= j <= |s| && (j == |s| || IsLineBreak(s[j]))
    ensures forall k :: i <= k < j ==> !IsLineBreak(s[k])
    decreases |s| - i
  {
    if i == |s| || IsLineBreak(s[i]) then i else LineEnd(s, i + 1)
  }

  /** `s.splitlines()`: lines end at any line break, "\r\n" being one
      break, and a break at the very end does not start another line. */
  function SplitLines(s: String): (lines: seq<String>)
    ensures s == [] <==> lines == []
    ensures forall k :: 0 <= k < |lines| ==> NoLineBreak(lines[k])
    decreases |s|
  {
    if s == [] then []
    else
      var i := LineEnd(s, 0);
      if i == |s| then [s]
      else
        var j := if s[i] == '\r' && i + 1 < |s| && s[i + 1] == '\n' then i + 2 else i + 1;
        [s[..i]] + SplitLines(s[j..])
  }

  /** Lines without breaks, joined by "\n", split back into themselves,
      provided the last one is not empty (its "\n" would read as a final
      break). */
  lemma {:induction false} SplitLinesJoin(lines: seq<String>)
    requires forall k :: 0 <= k < |lines| ==> NoLineBreak(lines[k])
    requires lines == [] || lines[|lines| - 1] != []
    ensures SplitLines(Join(lines, "\n")) == lines
    decreases |lines|
  {
    if |lines| == 1 {
      var s := lines[0];
      assert LineEnd(s, 0) == |s| by { LineEndNone(s, 0); }
    } else if |lines| > 1 {
      var a := lines[0];
      var rest := Join(lines[1..], "\n");
      var s := a + "\n" + rest;
      assert Join(lines, "\n") == s;
      LineEndAt(s, |a|);
      assert s[..|a|] == a;
      assert rest != [] by { JoinLastNonEmpty(lines[1..]); }
      assert s[|a| + 1..] == rest;
      SplitLinesJoin(lines[1..]);
    }
  }

  /** Without a break the line runs to the end. */
  lemma {:induction false} LineEndNone(s: String, i: nat)
    requires i <= |s| && forall k :: i <= k < |s| ==> !IsLineBreak(s[k])
    ensures LineEnd(s, i) == |s|
    decreases |s| - i
  {
    if i < |s| {
      LineEndNone(s, i + 1);
    }
  }

  /** The first break is at `b` when none comes before it. */
  lemma LineEndAt(s: String, b: nat)
    requires b < |s| && IsLineBreak(s[b]) && forall k :: 0 <= k < b ==> !IsLineBreak(s[k])
    ensures LineEnd(s, 0) == b
  {
  }

  /** A join whose last part is not empty is not empty. */
  lemma {:induction false} JoinLastNonEmpty(parts: seq<String>)
    requires parts != [] && parts[|parts| - 1] != []
    ensures Join(parts, "\n") != []
    decreases |parts|
  {
    if |parts| > 1 {
      JoinLastNonEmpty(parts[1..]);
    }
  }

  /** Splitting at a first separator keeps the text before it as the
      first piece. */
  lemma SplitAt(a: String, b: String, c: char)
    requires c !in a
    ensures Split(a + [c] + b, c) == [a] + Split(b, c)
  {
    var s := a + [c] + b;
    assert s[..|a|] == a;
    assert s[|a|] == c;
    IndexOfCharFirst(s, c, |a|);
    assert s[|a| + 1..] == b;
  }

  /** `IndexOfChar` finds the first occurrence. */
  lemma {:induction false} IndexOfCharFirst(s: String, c: char, k: nat)
    requires k < |s| && s[k] == c && c !in s[..k]
    ensures c in s && IndexOfChar(s, c) == k
  {
    if k > 0 {
      assert s[0] == s[..k][0];
      assert s[1..][k - 1] == s[k];
      assert s[1..][..k - 1] == s[1..k];
      assert forall x :: x in s[1..k] ==> x in s[..k];
      IndexOfCharFirst(s[1..], c, k - 1);
    }
  }

  function IndexOfChar(s: String, c: char): (i: nat)
    requires c in s
    ensures i < |s| && s[i] == c && c !in s[..i]
  {
    if s[0] == c then 0 else 1 + IndexOfChar(s[1..], c)
  }

  /** Every element occurs at most once. */
  predicate NoDup<T(==)>(s: seq<T>)
  {
    forall i, j :: 0 <= i < j < |s| ==> s[i] != s[j]
  }

  function Count<T(==)>(s: seq<T>, x: T): (n: nat)
    ensures n <= |s|
    ensures n == 0 <==> x !in s
  {
    if s == [] then 0 else (if s[0] == x then 1 else 0) + Count(s[1..], x)
  }

  /** The distinct elements of `s` in first-occurrence order, as a loop
      with a `seen` set builds them. */
  function Distinct<T(==)>(s: seq<T>): seq<T>
  {
    if s == [] then []
    else
      var d := Distinct(s[..|s| - 1]);
      if s[|s| - 1] in d then d else d + [s[|s| - 1]]
  }

  /** Nothing repeats, and nothing is gained or lost. */
  lemma {:induction false} DistinctSpec<T>(s: seq<T>)
    ensures NoDup(Distinct(s))
    ensures forall x :: x in Distinct(s) <==> x in s
    ensures |Distinct(s)| <= |s|
  {
    if s != [] {
      DistinctSpec(s[..|s| - 1]);
      assert s == s[..|s| - 1] + [s[|s| - 1]];
    }
  }

  /** What the first part contributes comes first, in the same order. */
  lemma {:induction false} DistinctPrefix<T>(a: seq<T>, b: seq<T>)
    ensures |Distinct(a)| <= |Distinct(a + b)|
    ensures Distinct(a + b)[..|Distinct(a)|] == Distinct(a)
    decreases |b|
  {
    if b == [] {
      assert a + b == a;
    } else {
      var b0 := b[..|b| - 1];
      DistinctPrefix(a, b0);
      assert (a + b)[..|a + b| - 1] == a + b0;
    }
  }

  /** A sequence without repeats is its own distinct list. */
  lemma {:induction false} DistinctOfNoDup<T>(s: seq<T>)
    requires NoDup(s)
    ensures Distinct(s) == s
  {
    if s != [] {
      var init := s[..|s| - 1];
      DistinctOfNoDup(init);
      DistinctSpec(init);
      assert s == init + [s[|s| - 1]];
    }
  }

  /** The index of the last `c` in `s`, if any. */
  function LastIndexOfChar(s: String, c: char): (r: Option<nat>)
    ensures r.None? <==> c !in s
    ensures r.Some? ==> r.value < |s| && s[r.value] == c && c !in s[r.value + 1..]
  {
    if s == [] then None
    else if s[|s| - 1] == c then Some(|s| - 1)
    else
      var r := LastIndexOfChar(s[..|s| - 1], c);
      assert s == s[..|s| - 1] + [s[|s| - 1]];
      if r.Some? then
        assert s[r.value + 1..] == s[..|s| - 1][r.value + 1..] + [s[|s| - 1]];
        r
      else r
  }

  /** `os.path.basename`: the text after the last `/`. */
  function Basename(p: String): (r: String)
    ensures '/' !in r
    ensures '/' !in p ==> r == p
  {
    match LastIndexOfChar(p, '/')
    case None => p
    case Some(i) => p[i + 1..]
  }

  predicate HasNonDot(s: String) { exists i :: 0 <= i < |s| && s[i] != '.' }

  /** `os.path.splitext`: the extension starts at the last `.` of the last
      path component, unless only dots precede it there. */
  function SplitExt(p: String): (r: (String, String))
    ensures r.0 + r.1 == p
  {
    match LastIndexOfChar(p, '.')
    case None => (p, [])
    case Some(dot) =>
      var start := match LastIndexOfChar(p, '/') case None => 0 case Some(sep) => sep + 1;
      if start <= dot && HasNonDot(p[start..dot]) then (p[..dot], p[dot..]) else (p, [])
  }

  /** A plain name with one extension splits into the two. */
  lemma SplitExtOf(name: String, ext: String)
    requires name != [] && '.' !in name && '/' !in name && '.' !in ext && '/' !in ext
    ensures SplitExt(name + "." + ext) == (name, "." + ext)
  {
    var p := name + "." + ext;
    OneDot(name, ext);
    assert p[0..|name|] == name;
    assert name[0] != '.';
    assert HasNonDot(p[0..|name|]);
    assert p[..|name|] == name && p[|name|..] == "." + ext;
  }

  /** The only `.` of `name.ext` is the one between the two, and it has
      no `/`. */
  lemma OneDot(name: String, ext: String)
    requires '.' !in name && '/' !in name && '.' !in ext && '/' !in ext
    ensures LastIndexOfChar(name + "." + ext, '.') == Some(|name|)
    ensures LastIndexOfChar(name + "." + ext, '/') == None
  {
    var p := name + "." + ext;
    assert p == name + ['.'] + ext;
    assert p[|name| + 1..] == ext;
    LastIndexAt(p, '.', |name|);
  }

  /** An occurrence with no later one is the last occurrence. */
  lemma LastIndexAt(s: String, c: char, k: nat)
    requires k < |s| && s[k] == c && c !in s[k + 1..]
    ensures LastIndexOfChar(s, c) == Some(k)
  {
    var r := LastIndexOfChar(s, c).value;
    assert forall j :: r < j < |s| ==> s[j] == s[r + 1..][j - r - 1];
    assert forall j :: k < j < |s| ==> s[j] == s[k + 1..][j - k - 1];
  }

  function Max(a: int, b: int): int { if a >= b then a else b }
  function Min(a: int, b: int): int { if a <= b then a else b }

  /** Decimal rendering of a natural number, as `str(n)`. */
  function NatToString(n: nat): (r: String)
    ensures |r| >= 1
    ensures forall i :: 0 <= i < |r| ==> IsDigit(r[i])
  {
    if n < 10 then [('0' as int + n) as char]
    else NatToString(n / 10) + [('0' as int + n % 10) as char]
  }

  /** Python's lexicographic string order (by code point). */
  predicate StrLessEq(a: String, b: String)
    decreases |a|
  {
    a == [] || (b != [] && (a[0] < b[0] || (a[0] == b[0] && StrLessEq(a[1..], b[1..]))))
  }

  lemma {:induction false} StrLessEqTotal(a: String, b: String)
    ensures StrLessEq(a, b) || StrLessEq(b, a)
    decreases |a|
  {
    if a != [] && b != [] && a[0] == b[0] {
      StrLessEqTotal(a[1..], b[1..]);
    }
  }

  lemma {:induction false} StrLessEqTrans(a: String, b: String, c: String)
    requires StrLessEq(a, b) && StrLessEq(b, c)
    ensures StrLessEq(a, c)
    decreases |a|
  {
    if a != [] && b != [] && c != [] && a[0] == b[0] && b[0] == c[0] {
      StrLessEqTrans(a[1..], b[1..], c[1..]);
    }
  }

  lemma {:induction false} StrLessEqAntisym(a: String, b: String)
    requires StrLessEq(a, b) && StrLessEq(b, a)
    ensures a == b
    decreases |a|
  {
    if a != [] && b != [] {
      StrLessEqAntisym(a[1..], b[1..]);
      assert a == [a[0]] + a[1..] && b == [b[0]] + b[1..];
    }
  }

  // -----------------------------------------------------------------------
  // Python's int() on text
  // -----------------------------------------------------------------------

  function DigitValue(c: char): int
  {
    c as int - '0' as int
  }

  predicate AllDigits(s: string)
  {
    forall i :: 0 <= i < |s| ==> IsDigit(s[i])
  }

  /** The value of a decimal digit string. */
  function DigitsValue(s: string): (n: nat)
    requires AllDigits(s)
  {
    if s == [] then 0 else DigitsValue(s[..|s| - 1]) * 10 + DigitValue(s[|s| - 1])
  }

  /** A base-10 literal as `int()` reads it: decimal digits, with single
      underscores allowed between two digits. */
  predicate IntLiteral(d: string)
  {
    d != [] && IsDigit(d[0]) && forall k :: 0 <= k < |d| ==> LiteralCharAt(d, k)
  }

  /** A digit, or an underscore followed by a digit. */
  predicate LiteralCharAt(d: string, k: nat)
    requires k < |d|
  {
    IsDigit(d[k]) || (d[k] == '_' && k + 1 < |d| && IsDigit(d[k + 1]))
  }

  /** The digits of a text, in order. */
  function DigitsOnly(d: string): (r: string)
    ensures AllDigits(r) && |r| <= |d|
  {
    if d == [] then []
    else DigitsOnly(d[..|d| - 1]) + (if IsDigit(d[|d| - 1]) then [d[|d| - 1]] else [])
  }

  /** Python's `int()` on text that may be missing: a missing value and
      text that is not an optionally signed base-10 literal, after
      stripping whitespace, raise; this is None here. */
  function ParseInt(cell: Option<string>): (r: Option<int>)
  {
    if cell.None? then None
    else
      var t := Strip(cell.value);
      var neg := t != [] && t[0] == '-';
      var digits := if t != [] && (t[0] == '-' || t[0] == '+') then t[1..] else t;
      if !IntLiteral(digits) then None
      else
        var v: int := if neg then 0 - (DigitsValue(DigitsOnly(digits)) as int) else DigitsValue(DigitsOnly(digits));
        Some(v)
  }

  /** `repr()` of a string: single quotes, or double quotes when the text
      holds a single quote and no double quote; the backslash, the chosen
      quote, newline, carriage return and tab are escaped. */
  function Repr(s: string): (r: string)
    ensures |r| >= |s| + 2 && r[0] == r[|r| - 1] && (r[0] == '\'' || r[0] == '"')
  {
    var q := if '\'' in s && '"' !in s then '"' else '\'';
    [q] + ReprBody(s, q) + [q]
  }

  function ReprBody(s: string, q: char): (r: string)
    ensures |r| >= |s|
  {
    if s == [] then [] else ReprChar(s[0], q) + ReprBody(s[1..], q)
  }

  function ReprChar(c: char, q: char): string
  {
    if c == '\\' then "\\\\"
    else if c == q then ['\\', q]
    else if c == '\n' then "\\n"
    else if c == '\r' then "\\r"
    else if c == '\t' then "\\t"
    else [c]
  }

  /** Characters `repr` leaves alone. */
  predicate PlainChar(c: char)
  {
    c != '\\' && c != '\'' && c != '"' && c != '\n' && c != '\r' && c != '\t'
  }

  /** Text of plain characters is shown between single quotes as it is. */
  lemma {:induction false} ReprPlain(s: string)
    requires forall k :: 0 <= k < |s| ==> PlainChar(s[k])
    ensures Repr(s) == "'" + s + "'"
  {
    ReprBodyPlain(s, '\'');
  }

  lemma {:induction false} ReprBodyPlain(s: string, q: char)
    requires q == '\'' || q == '"'
    requires forall k :: 0 <= k < |s| ==> PlainChar(s[k])
    ensures ReprBody(s, q) == s
  {
    if s != [] {
      ReprBodyPlain(s[1..], q);
      assert s == [s[0]] + s[1..];
    }
  }

  /** A single quote in the text switches to double quotes, unless a
      double quote is there too. */
  lemma ReprQuotes(s: string)
    ensures '\'' in s && '"' !in s ==> Repr(s)[0] == '"'
    ensures '\'' !in s || '"' in s ==> Repr(s)[0] == '\''
  {
  }

  /** A run of digits is a literal and is its own digits. */
  lemma {:induction false} DigitsOnlyOfDigits(d: string)
    requires AllDigits(d)
    ensures DigitsOnly(d) == d
    ensures d != [] ==> IntLiteral(d)
  {
    if d != [] {
      DigitsOnlyOfDigits(d[..|d| - 1]);
    }
  }

  /** `int("1_000")` is 1000. */
  lemma ParseIntUnderscore()
    ensures ParseInt(Some("1_000")) == Some(1000)
  {
    var s := "1_000";
    StripNoSpaces(s);
    assert IntLiteral(s) by {
      assert LiteralCharAt(s, 0) && LiteralCharAt(s, 1) && LiteralCharAt(s, 2) && LiteralCharAt(s, 3) && LiteralCharAt(s, 4);
    }
    assert DigitsOnly(s[..1]) == "1";
    assert DigitsOnly(s[..2]) == "1" by { assert s[..2][..1] == s[..1]; }
    assert DigitsOnly(s[..3]) == "10" by { assert s[..3][..2] == s[..2]; }
    assert DigitsOnly(s[..4]) == "100" by { assert s[..4][..3] == s[..3]; }
    assert DigitsOnly(s) == "1000" by { assert s[..4] == s[..|s| - 1]; }
    assert DigitsValue("1000") == 1000 by {
      assert "1000"[..3] == "100" && "100"[..2] == "10" && "10"[..1] == "1";
    }
  }

  /** A doubled or trailing underscore and a bare sign are refused. */
  lemma ParseIntRefuses()
    ensures ParseInt(Some("1__0")).None? && ParseInt(Some("10_")).None? && ParseInt(Some("-")).None?
  {
    StripNoSpaces("1__0");
    assert !LiteralCharAt("1__0", 1);
    var t := "10_";
    StripNoSpaces(t);
    assert !LiteralCharAt(t, 2);
    StripNoSpaces("-");
  }

  lemma {:induction false} DigitsOfNat(n: nat)
    ensures AllDigits(NatToString(n)) && DigitsValue(NatToString(n)) == n
  {
    var s := NatToString(n);
    if n >= 10 {
      DigitsOfNat(n / 10);
      assert s[..|s| - 1] == NatToString(n / 10);
    }
  }

  /** A decimal rendering followed by a non-digit can be read back off the
      front of a text: equal texts carry equal numbers and equal rests. */
  lemma DecimalPrefixCancel(x: nat, y: nat, s: string, t: string)
    requires s != [] && t != [] && !IsDigit(s[0]) && !IsDigit(t[0])
    requires NatToString(x) + s == NatToString(y) + t
    ensures x == y && s == t
  {
    var a, b := NatToString(x), NatToString(y);
    assert a == (a + s)[..|a|] && b == (b + t)[..|b|];
    assert s == (a + s)[|a|..] && t == (b + t)[|b|..];
    DigitsOfNat(x);
    DigitsOfNat(y);
  }

  /** A number, then a fixed text not starting with a digit, then a rest:
      equal texts carry equal numbers and equal rests. */
  lemma NumberThenCancel(x: nat, y: nat, lit: string, u: string, v: string)
    requires lit != [] && !IsDigit(lit[0])
    requires NatToString(x) + (lit + u) == NatToString(y) + (lit + v)
    ensures x == y && u == v
  {
    DecimalPrefixCancel(x, y, lit + u, lit + v);
    assert u == (lit + u)[|lit|..] && v == (lit + v)[|lit|..];
  }

  /** Short numbers have short decimal renderings. */
  lemma {:induction false} NatToStringShort(n: nat)
    ensures n < 10 ==> |NatToString(n)| == 1
    ensures n < 100 ==> |NatToString(n)| <= 2
    ensures n < 1000 ==> |NatToString(n)| <= 3
    ensures n < 10000 ==> |NatToString(n)| <= 4
    ensures n >= 10 ==> |NatToString(n)| >= 2
    ensures n >= 100 ==> |NatToString(n)| >= 3
    ensures n >= 1000 ==> |NatToString(n)| >= 4
  {
    if n >= 10 {
      NatToStringShort(n / 10);
    }
  }

  lemma StripNoSpaces(s: string)
    requires s != [] && !IsSpace(s[0]) && !IsSpace(s[|s| - 1])
    ensures Strip(s) == s
  {
  }

  /** A number written in decimal, with a minus sign when negative,
      reads back as that number. */
  lemma ParseIntRoundTrip(n: int)
    ensures n >= 0 ==> ParseInt(Some(NatToString(n))) == Some(n)
    ensures n > 0 ==> ParseInt(Some("-" + NatToString(n))) == Some(-n)
  {
    if n >= 0 {
      ParseNatRoundTrip(n);
    }
    if n > 0 {
      ParseNegRoundTrip(n);
    }
  }

  lemma ParseNatRoundTrip(n: nat)
    ensures ParseInt(Some(NatToString(n))) == Some(n)
  {
    DecimalLiteral(n);
    ParseIntOfLiteral(NatToString(n));
  }

  lemma ParseNegRoundTrip(n: nat)
    requires n > 0
    ensures ParseInt(Some("-" + NatToString(n))) == Some(-(n as int))
  {
    var d := NatToString(n);
    DecimalLiteral(n);
    NegNoSpaces(d);
    ParseIntOfNegLiteral(d, n);
  }

  /** A decimal rendering is a literal with nothing to strip, whose digits
      read back as the number. */
  lemma DecimalLiteral(n: nat)
    ensures var s := NatToString(n);
      IsDigit(s[0]) && IsDigit(s[|s| - 1]) && Strip(s) == s && IntLiteral(s) && DigitsValue(DigitsOnly(s)) == n
  {
    DecimalStrips(n);
    DigitsOnlyOfDigits(NatToString(n));
    DecimalDigits(n);
  }

  lemma DecimalStrips(n: nat)
    ensures var s := NatToString(n); IsDigit(s[0]) && IsDigit(s[|s| - 1]) && Strip(s) == s
  {
    var s := NatToString(n);
    assert IsDigit(s[0]) && IsDigit(s[|s| - 1]);
    StripNoSpaces(s);
  }

  lemma DecimalDigits(n: nat)
    ensures DigitsValue(DigitsOnly(NatToString(n))) == n
  {
    DigitsOfNat(n);
    DigitsOnlyOfDigits(NatToString(n));
  }

  /** A minus sign before digits leaves nothing to strip. */
  lemma NegNoSpaces(d: string)
    requires d != [] && IsDigit(d[|d| - 1])
    ensures Strip("-" + d) == "-" + d
  {
    var s := "-" + d;
    assert s[0] == '-' && s[|s| - 1] == d[|d| - 1];
    StripNoSpaces(s);
  }

  /** An unsigned literal with nothing to strip reads as its digits. */
  lemma ParseIntOfLiteral(s: string)
    requires s != [] && IsDigit(s[0]) && Strip(s) == s && IntLiteral(s)
    ensures ParseInt(Some(s)) == Some(DigitsValue(DigitsOnly(s)))
  {
  }

  /** A negated literal with nothing to strip reads as minus its digits. */
  lemma ParseIntOfNegLiteral(d: string, n: nat)
    requires Strip("-" + d) == "-" + d && IntLiteral(d) && DigitsValue(DigitsOnly(d)) == n
    ensures ParseInt(Some("-" + d)) == Some(-(n as int))
  {
    assert ("-" + d)[1..] == d;
  }

  // -----------------------------------------------------------------------
  // Counting into an insertion-ordered dict
  // -----------------------------------------------------------------------

  /** Add one occurrence of `x` to the counts, appending it when new. */
  function Bump(counts: seq<(string, nat)>, x: string): (r: seq<(string, nat)>)
    ensures |r| >= |counts|
  {
    if counts == [] then [(x, 1)]
    else if counts[0].0 == x then [(x, counts[0].1 + 1)] + counts[1..]
    else [counts[0]] + Bump(counts[1..], x)
  }

  /** `counts[v] = counts.get(v, 0) + 1` over the labels, in first-seen
      order. */
  function Tally(labels: seq<string>): seq<(string, nat)>
  {
    if labels == [] then [] else Bump(Tally(labels[..|labels| - 1]), labels[|labels| - 1])
  }

  function KeysOf(counts: seq<(string, nat)>): (r: seq<string>)
    ensures |r| == |counts|
  {
    if counts == [] then [] else [counts[0].0] + KeysOf(counts[1..])
  }

  function SumCounts(counts: seq<(string, nat)>): nat
  {
    if counts == [] then 0 else counts[0].1 + SumCounts(counts[1..])
  }

  /** The count of a label in the counts, 0 when absent. */
  function CountOf(counts: seq<(string, nat)>, x: string): nat
  {
    if counts == [] then 0 else (if counts[0].0 == x then counts[0].1 else 0) + CountOf(counts[1..], x)
  }

  lemma {:induction false} BumpCounts(counts: seq<(string, nat)>, x: string)
    ensures SumCounts(Bump(counts, x)) == SumCounts(counts) + 1
    ensures forall y :: CountOf(Bump(counts, x), y) == CountOf(counts, y) + (if y == x then 1 else 0)
  {
    if counts != [] && counts[0].0 != x {
      BumpCounts(counts[1..], x);
    }
  }

  lemma {:induction false} BumpKeys(counts: seq<(string, nat)>, x: string)
    ensures forall y :: y in KeysOf(Bump(counts, x)) <==> y in KeysOf(counts) || y == x
    ensures NoDup(KeysOf(counts)) ==> NoDup(KeysOf(Bump(counts, x)))
  {
    if counts != [] {
      var rest := KeysOf(counts[1..]);
      assert KeysOf(counts) == [counts[0].0] + rest;
      if counts[0].0 != x {
        BumpKeys(counts[1..], x);
        var r := KeysOf(Bump(counts[1..], x));
        assert KeysOf(Bump(counts, x)) == [counts[0].0] + r;
        NoDupCons(counts[0].0, rest);
        NoDupCons(counts[0].0, r);
      } else {
        assert Bump(counts, x)[1..] == counts[1..];
        assert KeysOf(Bump(counts, x)) == [x] + rest;
      }
    }
  }

  /** The index of the first element satisfying `p`. */
  function FirstWhere<T>(s: seq<T>, p: T -> bool): (r: Option<nat>)
    ensures r.Some? ==> r.value < |s|
  {
    if s == [] then None
    else if p(s[0]) then Some(0)
    else match FirstWhere(s[1..], p)
      case None => None
      case Some(i) => Some(i + 1)
  }

  /** The index found holds the first element satisfying `p`; none is
      found only when no element does. */
  lemma {:induction false} FirstWhereSpec<T>(s: seq<T>, p: T -> bool)
    ensures FirstWhere(s, p).Some? ==> p(s[FirstWhere(s, p).value])
    ensures FirstWhere(s, p).Some? ==> forall i :: 0 <= i < FirstWhere(s, p).value ==> !p(s[i])
    ensures FirstWhere(s, p).None? ==> forall i :: 0 <= i < |s| ==> !p(s[i])
  {
    if s != [] && !p(s[0]) {
      var tail := s[1..];
      FirstWhereSpec(tail, p);
      assert forall i :: 1 <= i < |s| ==> s[i] == tail[i - 1];
    }
  }

  /** Two duplicate-free lists with no element in common concatenate to
      a duplicate-free list. */
  lemma NoDupAppend<T>(a: seq<T>, b: seq<T>)
    requires NoDup(a) && NoDup(b) && forall x :: x in a ==> x !in b
    ensures NoDup(a + b)
  {
    var t := a + b;
    forall i, j | 0 <= i < j < |t| ensures t[i] != t[j] {
      if j < |a| {
        assert t[i] == a[i] && t[j] == a[j];
      } else if i >= |a| {
        assert t[i] == b[i - |a|] && t[j] == b[j - |a|];
      } else {
        assert t[i] in a && t[j] in b;
      }
    }
  }

  /** Appending an element not yet present keeps a list duplicate-free. */
  lemma NoDupSnoc<T>(s: seq<T>, x: T)
    requires NoDup(s) && x !in s
    ensures NoDup(s + [x])
  {
    var t := s + [x];
    forall i, j | 0 <= i < j < |t| ensures t[i] != t[j] {
      if j == |s| {
        assert t[i] == s[i];
      } else {
        assert t[i] == s[i] && t[j] == s[j];
      }
    }
  }

  lemma NoDupCons(a: string, s: seq<string>)
    ensures NoDup([a] + s) <==> a !in s && NoDup(s)
  {
    var t := [a] + s;
    if a !in s && NoDup(s) {
      forall i, j | 0 <= i < j < |t| ensures t[i] != t[j] {
        assert t[j] == s[j - 1];
        if i > 0 {
          assert t[i] == s[i - 1];
        }
      }
    }
    if NoDup(t) {
      forall i, j | 0 <= i < j < |s| ensures s[i] != s[j] {
        assert t[i + 1] == s[i] && t[j + 1] == s[j];
      }
      forall k | 0 <= k < |s| ensures s[k] != a {
        assert t[0] == a && t[k + 1] == s[k];
      }
    }
  }

  /** Each label is counted exactly as often as it occurs, each once in
      the table, and the counts add up to the number of labels. */
  lemma {:induction false} TallySpec(labels: seq<string>)
    ensures SumCounts(Tally(labels)) == |labels|
    ensures NoDup(KeysOf(Tally(labels)))
    ensures forall y :: y in KeysOf(Tally(labels)) <==> y in labels
    ensures forall y :: CountOf(Tally(labels), y) == Occurrences(labels, y)
  {
    if labels != [] {
      var init := labels[..|labels| - 1];
      TallySpec(init);
      BumpCounts(Tally(init), labels[|labels| - 1]);
      BumpKeys(Tally(init), labels[|labels| - 1]);
      assert labels == init + [labels[|labels| - 1]];
    }
  }

  /** How often `y` occurs, counted from the end. */
  function Occurrences(s: seq<string>, y: string): nat
  {
    if s == [] then 0 else Occurrences(s[..|s| - 1], y) + (if s[|s| - 1] == y then 1 else 0)
  }

  lemma {:induction false} CountOfAbsent(counts: seq<(string, nat)>, y: string)
    requires y !in KeysOf(counts)
    ensures CountOf(counts, y) == 0
  {
    if counts != [] {
      assert KeysOf(counts) == [counts[0].0] + KeysOf(counts[1..]);
      CountOfAbsent(counts[1..], y);
    }
  }

  /** With distinct keys an entry's count is the count of its key. */
  lemma {:induction false} CountOfEntry(counts: seq<(string, nat)>, e: (string, nat))
    requires NoDup(KeysOf(counts)) && e in counts
    ensures CountOf(counts, e.0) == e.1
  {
    var rest := KeysOf(counts[1..]);
    assert KeysOf(counts) == [counts[0].0] + rest;
    NoDupCons(counts[0].0, rest);
    if counts[0] == e {
      CountOfAbsent(counts[1..], e.0);
    } else {
      assert e in counts[1..];
      KeyOfEntry(counts[1..], e);
      CountOfEntry(counts[1..], e);
    }
  }

  lemma {:induction false} KeyOfEntry(counts: seq<(string, nat)>, e: (string, nat))
    requires e in counts
    ensures e.0 in KeysOf(counts)
  {
    assert KeysOf(counts) == [counts[0].0] + KeysOf(counts[1..]);
    if counts[0] != e {
      KeyOfEntry(counts[1..], e);
    }
  }

  lemma {:induction false} EntryOfKey(counts: seq<(string, nat)>, y: string)
    requires y in KeysOf(counts)
    ensures exists n :: (y, n) in counts
  {
    assert KeysOf(counts) == [counts[0].0] + KeysOf(counts[1..]);
    if counts[0].0 != y {
      EntryOfKey(counts[1..], y);
      var n :| (y, n) in counts[1..];
      assert (y, n) in counts;
    } else {
      assert (y, counts[0].1) in counts;
    }
  }

  /** The tally holds exactly one entry per label, paired with the
      number of times it occurs. */
  lemma TallyEntries(labels: seq<string>)
    ensures forall e: (string, nat) :: e in Tally(labels) <==> e.0 in labels && e.1 == Occurrences(labels, e.0)
  {
    var t := Tally(labels);
    TallySpec(labels);
    forall e | e in t ensures e.0 in labels && e.1 == Occurrences(labels, e.0) {
      KeyOfEntry(t, e);
      CountOfEntry(t, e);
    }
    forall e: (string, nat) | e.0 in labels && e.1 == Occurrences(labels, e.0) ensures e in t {
      EntryOfKey(t, e.0);
      var n :| (e.0, n) in t;
      CountOfEntry(t, (e.0, n));
    }
  }

  // -----------------------------------------------------------------------
  // A list built by appending f(x) for each x
  // -----------------------------------------------------------------------

  /** The elements of `xs` that `keep` accepts, in order. */
  function KeepIf<A>(xs: seq<A>, keep: A -> bool): seq<A>
  {
    if xs == [] then []
    else
      var prev := KeepIf(xs[..|xs| - 1], keep);
      if keep(xs[|xs| - 1]) then prev + [xs[|xs| - 1]] else prev
  }

  /** `f` applied to each element that `keep` accepts, in order. */
  function KeptMap<A, B>(xs: seq<A>, keep: A -> bool, f: A -> B): seq<B>
  {
    if xs == [] then []
    else
      var prev := KeptMap(xs[..|xs| - 1], keep, f);
      if keep(xs[|xs| - 1]) then prev + [f(xs[|xs| - 1])] else prev
  }

  /** One result per accepted element, the k-th from the k-th accepted
      element. */
  lemma {:induction false} KeptMapSpec<A, B>(xs: seq<A>, keep: A -> bool, f: A -> B)
    ensures |KeptMap(xs, keep, f)| == |KeepIf(xs, keep)|
    ensures forall k :: 0 <= k < |KeepIf(xs, keep)| ==> KeptMap(xs, keep, f)[k] == f(KeepIf(xs, keep)[k])
  {
    if xs != [] {
      KeptMapSpec(xs[..|xs| - 1], keep, f);
    }
  }

  /** The kept elements are exactly those of `xs` that `keep` accepts. */
  lemma {:induction false} KeepIfSpec<A>(xs: seq<A>, keep: A -> bool)
    ensures |KeepIf(xs, keep)| <= |xs|
    ensures forall x :: x in KeepIf(xs, keep) <==> x in xs && keep(x)
  {
    if xs != [] {
      var init := xs[..|xs| - 1];
      KeepIfSpec(init, keep);
      assert xs == init + [xs[|xs| - 1]];
    }
  }

  function MapLast<A, B>(f: A -> B, xs: seq<A>): seq<B>
  {
    if xs == [] then [] else MapLast(f, xs[..|xs| - 1]) + [f(xs[|xs| - 1])]
  }

  lemma {:induction false} MapLastSpec<A, B>(f: A -> B, xs: seq<A>)
    ensures |MapLast(f, xs)| == |xs|
    ensures forall j :: 0 <= j < |xs| ==> MapLast(f, xs)[j] == f(xs[j])
  {
    if xs != [] {
      MapLastSpec(f, xs[..|xs| - 1]);
    }
  }

  // -----------------------------------------------------------------------
  // Python's `sorted` over a set of names
  // -----------------------------------------------------------------------

  function SetOf(s: seq<string>): set<string> { set x | x in s }

  lemma SetOfSnoc(s: seq<string>, x: string)
    ensures SetOf(s + [x]) == SetOf(s) + {x}
  {
    assert forall y :: y in s + [x] <==> y in s || y == x;
  }

  predicate Sorted(s: seq<string>)
  {
    forall i, j :: 0 <= i < j < |s| ==> StrLessEq(s[i], s[j])
  }

  predicate IsMin(m: string, s: set<string>)
  {
    forall x :: x in s ==> StrLessEq(m, x)
  }

  lemma MinExists(s: set<string>)
    requires s != {}
    ensures exists m :: m in s && IsMin(m, s)
  {
    var x :| x in s;
    StrLessEqTotal(x, x);
    if s - {x} == {} {
      assert s == {x};
      assert IsMin(x, s);
    } else {
      MinExists(s - {x});
      var m :| m in s - {x} && IsMin(m, s - {x});
      StrLessEqTotal(m, x);
      if StrLessEq(m, x) {
        assert IsMin(m, s);
      } else {
        forall y | y in s ensures StrLessEq(x, y) {
          if y != x {
            StrLessEqTrans(x, m, y);
          }
        }
        assert IsMin(x, s);
      }
    }
  }

  /** A set's names in ascending order. */
  ghost function SortedOf(s: set<string>): seq<string>
    decreases s
  {
    if s == {} then []
    else
      MinExists(s);
      var m :| m in s && IsMin(m, s);
      [m] + SortedOf(s - {m})
  }

  lemma {:induction false} SortedOfSpec(s: set<string>)
    ensures Sorted(SortedOf(s)) && NoDup(SortedOf(s)) && SetOf(SortedOf(s)) == s
    decreases s
  {
    if s != {} {
      MinExists(s);
      var m :| m in s && IsMin(m, s) && SortedOf(s) == [m] + SortedOf(s - {m});
      SortedOfSpec(s - {m});
      SortedCons(m, SortedOf(s - {m}), s);
    }
  }

  /** Putting a set's least name in front of the remaining names, sorted
      and without repeats, gives the whole set sorted and without repeats. */
  lemma SortedCons(m: string, rest: seq<string>, s: set<string>)
    requires m in s && IsMin(m, s)
    requires Sorted(rest) && NoDup(rest) && SetOf(rest) == s - {m}
    ensures Sorted([m] + rest) && NoDup([m] + rest) && SetOf([m] + rest) == s
  {
    var r := [m] + rest;
    forall i, j | 0 <= i < j < |r| ensures StrLessEq(r[i], r[j]) && r[i] != r[j] {
      assert r[j] == rest[j - 1] && rest[j - 1] in SetOf(rest);
      if i > 0 {
        assert r[i] == rest[i - 1];
      }
    }
    assert SetOf(r) == {m} + SetOf(rest);
  }

  /** Two ascending lists without repeats holding the same names are
      equal: the sorted order of a set is unique. */
  lemma {:induction false} SortedUnique(a: seq<string>, b: seq<string>)
    requires Sorted(a) && Sorted(b) && NoDup(a) && NoDup(b) && SetOf(a) == SetOf(b)
    ensures a == b
    decreases |a|
  {
    if a == [] {
      assert forall k :: 0 <= k < |b| ==> b[k] in SetOf(b);
    } else {
      assert a[0] in SetOf(a);
      assert b != [];
      assert b[0] in SetOf(b);
      var i :| 0 <= i < |a| && a[i] == b[0];
      var j :| 0 <= j < |b| && b[j] == a[0];
      if i > 0 {
        assert StrLessEq(a[0], b[0]);
      } else {
        StrLessEqTotal(a[0], a[0]);
      }
      if j > 0 {
        assert StrLessEq(b[0], a[0]);
      } else {
        StrLessEqTotal(b[0], b[0]);
      }
      StrLessEqAntisym(a[0], b[0]);
      TailSet(a);
      TailSet(b);
      SortedUnique(a[1..], b[1..]);
      assert a == [a[0]] + a[1..] && b == [b[0]] + b[1..];
    }
  }

  lemma TailSet(a: seq<string>)
    requires a != [] && NoDup(a) && Sorted(a)
    ensures SetOf(a[1..]) == SetOf(a) - {a[0]}
    ensures NoDup(a[1..]) && Sorted(a[1..])
  {
    assert a == [a[0]] + a[1..];
    forall x | x in a[1..] ensures x != a[0] {
      var k :| 0 <= k < |a[1..]| && a[1..][k] == x;
      assert a[k + 1] == x;
    }
  }

  /** `k` put in place in an ascending list. */
  function InsertSorted(s: seq<string>, k: string): seq<string>
  {
    if s == [] then [k]
    else if StrLessEq(k, s[0]) then [k] + s
    else [s[0]] + InsertSorted(s[1..], k)
  }

  lemma {:induction false} InsertSortedSpec(s: seq<string>, k: string)
    requires Sorted(s) && NoDup(s) && k !in s
    ensures Sorted(InsertSorted(s, k)) && NoDup(InsertSorted(s, k))
    ensures SetOf(InsertSorted(s, k)) == SetOf(s) + {k}
  {
    var r := InsertSorted(s, k);
    if s == [] {
    } else if StrLessEq(k, s[0]) {
      forall i, j | 0 <= i < j < |r| ensures StrLessEq(r[i], r[j]) && r[i] != r[j] {
        assert r[j] == s[j - 1];
        if i > 0 {
          assert r[i] == s[i - 1];
        } else if j > 1 {
          StrLessEqTrans(k, s[0], s[j - 1]);
        }
      }
      assert SetOf(r) == {k} + SetOf(s);
    } else {
      StrLessEqTotal(k, s[0]);
      assert s == [s[0]] + s[1..];
      assert s[0] !in s[1..] by {
        forall x | x in s[1..] ensures x != s[0] {
          var m :| 0 <= m < |s[1..]| && s[1..][m] == x;
          assert s[m + 1] == x;
        }
      }
      InsertSortedSpec(s[1..], k);
      var t := InsertSorted(s[1..], k);
      assert r == [s[0]] + t;
      forall i, j | 0 <= i < j < |r| ensures StrLessEq(r[i], r[j]) && r[i] != r[j] {
        assert r[j] == t[j - 1] && t[j - 1] in SetOf(s[1..]) + {k};
        if i > 0 {
          assert r[i] == t[i - 1];
        } else if t[j - 1] != k {
          var m :| 0 <= m < |s[1..]| && s[1..][m] == t[j - 1];
          assert s[m + 1] == t[j - 1];
        }
      }
      assert SetOf(r) == {s[0]} + SetOf(t);
    }
  }

  /** Python's `sorted` over a set of names. */
  method SortNames(s: set<string>) returns (r: seq<string>)
    ensures r == SortedOf(s)
  {
    r := [];
    var rest := s;
    while rest != {}
      invariant rest <= s
      invariant Sorted(r) && NoDup(r) && SetOf(r) == s - rest
      decreases rest
    {
      var k :| k in rest;
      InsertSortedSpec(r, k);
      r := InsertSorted(r, k);
      rest := rest - {k};
    }
    SortedOfSpec(s);
    SortedUnique(r, SortedOf(s));
  }

}
